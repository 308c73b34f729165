/**
 Flattening an installation into a payload: `exportVaultBuffer` (exportVault.ts). Rows are listed
 client by client; every reference to a secret or a key file is replaced by its content.
 */
module Export {
  import opened Common
  import opened JsonValues
  import opened RestoreLoop
  import opened RecoveryModel
  import CredentialBlob

  /** The entry of a row. */
  function Entry<R, S>(table: map<Id, R>, extra: R -> S, id: Id): Exported<R, S>
    requires id in table
  {
    Exported(id, table[id], extra(table[id]))
  }

  /** `rows` lists exactly the included rows of the table, each once, in any order. */
  ghost predicate Lists<R(!new), S>(rows: seq<Exported<R, S>>, table: map<Id, R>, included: R -> bool, extra: R -> S) {
    && (forall j :: 0 <= j < |rows| ==>
        rows[j].id in table && included(table[rows[j].id]) && rows[j] == Entry(table, extra, rows[j].id))
    && UniqueIds(rows)
    && (forall id :: id in table && included(table[id]) ==> exists j :: 0 <= j < |rows| && rows[j].id == id)
  }

  ghost predicate UniqueIds<R, S>(rows: seq<Exported<R, S>>) {
    forall j, k :: 0 <= j < |rows| && 0 <= k < |rows| && rows[j].id == rows[k].id ==> j == k
  }

  /** The query behind `listAll` and `listByClient`; the order of its answer is left open. */
  method Enumerate<R>(table: map<Id, R>, included: R -> bool) returns (ids: seq<Id>)
    ensures forall j :: 0 <= j < |ids| ==> ids[j] in table && included(table[ids[j]])
    ensures forall j, k :: 0 <= j < k < |ids| ==> ids[j] != ids[k]
    ensures forall id :: id in table && included(table[id]) ==> id in ids
  {
    ids := [];
    var todo := table.Keys;
    while todo != {}
      invariant todo <= table.Keys
      invariant forall j :: 0 <= j < |ids| ==> ids[j] in table && ids[j] !in todo && included(table[ids[j]])
      invariant forall j, k :: 0 <= j < k < |ids| ==> ids[j] != ids[k]
      invariant forall id :: id in table && id !in todo && included(table[id]) ==> id in ids
      decreases |todo|
    {
      var id :| id in todo;
      todo := todo - {id};
      if included(table[id]) { ids := ids + [id]; }
    }
  }

  /** `listAll`, mapped to entries. */
  method ListAll<R(!new), S>(table: map<Id, R>, included: R -> bool, extra: R -> S) returns (rows: seq<Exported<R, S>>)
    ensures Lists(rows, table, included, extra)
  {
    var ids := Enumerate(table, included);
    rows := seq(|ids|, i requires 0 <= i < |ids| => Entry(table, extra, ids[i]));
    forall id | id in table && included(table[id]) ensures exists j :: 0 <= j < |rows| && rows[j].id == id {
      var j :| 0 <= j < |ids| && ids[j] == id;
      assert rows[j].id == id;
    }
  }

  /** For each client in turn, the rows it owns are pushed. */
  method ListByClient<R(!new), S>(clients: seq<Id>, table: map<Id, R>, owner: R -> Id, included: R -> bool,
                                  extra: R -> S)
    returns (rows: seq<Exported<R, S>>)
    requires forall j, k :: 0 <= j < k < |clients| ==> clients[j] != clients[k]
    requires forall id :: id in table ==> (included(table[id]) <==> owner(table[id]) in clients)
    ensures Lists(rows, table, included, extra)
  {
    rows := [];
    for i := 0 to |clients|
      invariant Lists(rows, table, (r: R) => owner(r) in clients[..i], extra)
    {
      var c := clients[i];
      var own := ListAll(table, (r: R) => owner(r) == c, extra);
      assert clients[..i + 1] == clients[..i] + [c];
      JoinLists(rows, own, table, (r: R) => owner(r) in clients[..i], (r: R) => owner(r) == c,
                (r: R) => owner(r) in clients[..i + 1], extra);
      rows := rows + own;
    }
    assert clients[..|clients|] == clients;
  }

  lemma JoinLists<R(!new), S>(a: seq<Exported<R, S>>, b: seq<Exported<R, S>>, table: map<Id, R>,
                              inA: R -> bool, inB: R -> bool, inC: R -> bool, extra: R -> S)
    requires Lists(a, table, inA, extra) && Lists(b, table, inB, extra)
    requires forall id :: id in table ==>
             !(inA(table[id]) && inB(table[id])) && (inC(table[id]) <==> inA(table[id]) || inB(table[id]))
    ensures Lists(a + b, table, inC, extra)
  {
    var c := a + b;
    forall id | id in table && inC(table[id]) ensures exists j :: 0 <= j < |c| && c[j].id == id {
      if inA(table[id]) {
        var j :| 0 <= j < |a| && a[j].id == id;
        assert c[j].id == id;
      } else {
        var j :| 0 <= j < |b| && b[j].id == id;
        assert c[|a| + j].id == id;
      }
    }
  }

  // The secrets put beside each row.

  function TransportExtra(s: Install, r: Transport): TransportSecrets {
    TransportSecrets(
      if r.keyPath.Some? && r.keyPath.value in s.keyFiles then Some(s.keyFiles[r.keyPath.value]) else None,
      SecretAt(s.secrets, r.passphraseRef),
      SecretAt(s.secrets, r.passwordRef))
  }

  function TaskExtra(s: Install, r: Task): Option<string> {
    if r.strategy.RemoteDump? then SecretAt(s.secrets, r.strategy.passwordRef) else None
  }

  function ReplicationExtra(s: Install, r: Replication): ReplicationSecrets {
    ReplicationSecrets(SecretAt(s.secrets, r.configRef), SecretAt(s.secrets, r.cryptRef))
  }

  /** `readCredentialSecret`, printed again as part of the payload. */
  function CredentialExtra(s: Install, r: Credential): Json {
    CredentialBlob.ToJson(CredentialBlob.Read(SecretAt(s.blobs, r.blobRef)))
  }

  function ItemExtra(s: Install, r: Item): Option<string> {
    if r.isSensitive && r.bodyRef.Some? then SecretAt(s.bodies, r.bodyRef) else r.bodyPlaintext
  }

  predicate HasRepo(s: Install, client: Id) {
    exists id :: id in s.repos && s.repos[id].clientId == client
  }

  // For each table: the rows a backup includes, and what goes with them. File tasks are listed only
  // for clients with a repository; clients and the vault's own rows are all listed.

  function Every<R>(): R -> bool { (r: R) => true }
  function Nothing<R>(): R -> () { (r: R) => () }

  function SetsOf(s: Install): BackupSet -> bool { (r: BackupSet) => r.clientId in s.clients }
  function TransportsOf(s: Install): Transport -> bool { (r: Transport) => r.clientId in s.clients }
  function ConnectionsOf(s: Install): Connection -> bool { (r: Connection) => r.clientId in s.clients }
  function TasksOf(s: Install): Task -> bool { (r: Task) => r.clientId in s.clients }
  function ReposOf(s: Install): FileRepo -> bool { (r: FileRepo) => r.clientId in s.clients }
  function FileTasksOf(s: Install): FileTask -> bool {
    (r: FileTask) => r.clientId in s.clients && HasRepo(s, r.clientId)
  }
  function ReplicationsOf(s: Install): Replication -> bool { (r: Replication) => r.clientId in s.clients }

  function TransportBeside(s: Install): Transport -> TransportSecrets { (r: Transport) => TransportExtra(s, r) }
  function ConnectionBeside(s: Install): Connection -> Option<string> {
    (r: Connection) => SecretAt(s.secrets, r.passwordRef)
  }
  function TaskBeside(s: Install): Task -> Option<string> { (r: Task) => TaskExtra(s, r) }
  function FileRepoBeside(s: Install): FileRepo -> Option<string> {
    (r: FileRepo) => SecretAt(s.secrets, Some(r.passwordRef))
  }
  function ReplicationBeside(s: Install): Replication -> ReplicationSecrets {
    (r: Replication) => ReplicationExtra(s, r)
  }
  function CredentialBeside(s: Install): Credential -> Json { (r: Credential) => CredentialExtra(s, r) }
  function ItemBeside(s: Install): Item -> Option<string> { (r: Item) => ItemExtra(s, r) }

  /** The payload of an installation. */
  ghost predicate Exports(s: Install, p: Payload) {
    && Lists(p.clients, s.clients, Every(), Nothing())
    && Lists(p.sets, s.sets, SetsOf(s), Nothing())
    && Lists(p.transports, s.transports, TransportsOf(s), TransportBeside(s))
    && Lists(p.connections, s.connections, ConnectionsOf(s), ConnectionBeside(s))
    && Lists(p.tasks, s.tasks, TasksOf(s), TaskBeside(s))
    && Lists(p.repos, s.repos, ReposOf(s), FileRepoBeside(s))
    && Lists(p.fileTasks, s.fileTasks, FileTasksOf(s), Nothing())
    && Lists(p.replications, s.replications, ReplicationsOf(s), ReplicationBeside(s))
    && Lists(p.credentials, s.credentials, Every(), CredentialBeside(s))
    && Lists(p.urls, s.urls, Every(), Nothing())
    && Lists(p.items, s.items, Every(), ItemBeside(s))
  }

  /** `exportVaultBuffer`, up to the encryption of the payload. */
  method ExportPayload(s: Install) returns (p: Payload)
    ensures Exports(s, p)
  {
    hide Lists;
    var ids := Enumerate(s.clients, Every());
    var withRepo := [];
    for i := 0 to |ids|
      invariant forall j, k :: 0 <= j < k < |withRepo| ==> withRepo[j] != withRepo[k]
      invariant forall id :: id in withRepo <==> id in ids[..i] && HasRepo(s, id)
    {
      assert ids[..i + 1] == ids[..i] + [ids[i]];
      if HasRepo(s, ids[i]) { withRepo := withRepo + [ids[i]]; }
    }
    assert ids[..|ids|] == ids;
    var clients := ListAll(s.clients, Every(), Nothing());
    var sets := ListByClient(ids, s.sets, (r: BackupSet) => r.clientId, SetsOf(s), Nothing());
    var transports := ListByClient(ids, s.transports, (r: Transport) => r.clientId, TransportsOf(s),
                                   TransportBeside(s));
    var connections := ListByClient(ids, s.connections, (r: Connection) => r.clientId, ConnectionsOf(s),
                                    ConnectionBeside(s));
    var tasks := ListByClient(ids, s.tasks, (r: Task) => r.clientId, TasksOf(s), TaskBeside(s));
    var repos := ListByClient(ids, s.repos, (r: FileRepo) => r.clientId, ReposOf(s), FileRepoBeside(s));
    var fileTasks := ListByClient(withRepo, s.fileTasks, (r: FileTask) => r.clientId, FileTasksOf(s), Nothing());
    var replications := ListByClient(ids, s.replications, (r: Replication) => r.clientId, ReplicationsOf(s),
                                     ReplicationBeside(s));
    var credentials := ListAll(s.credentials, Every(), CredentialBeside(s));
    var urls := ListAll(s.urls, Every(), Nothing());
    var items := ListAll(s.items, Every(), ItemBeside(s));
    p := Payload(clients, sets, transports, connections, tasks, repos, fileTasks, replications, credentials, urls,
                 items);
  }
}

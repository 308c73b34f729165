/**
 The hypotheses of the recovery theorems hold together: an installation with a client, an SFTP
 transport with a key file and a passphrase, a credential linked to it that has a password, and a
 note whose text is secret, exported and about to be imported on an empty machine.
 */
module Example {
  import opened Common
  import opened JsonValues
  import opened RestoreLoop
  import opened RecoveryModel
  import opened Import
  import opened Export
  import opened RoundTrip
  import opened Isomorphism
  import opened ImportFile
  import Recovery

  const C: Id := Id("c")
  const T: Id := Id("t")
  const K: Id := Id("k")
  const I: Id := Id("i")
  const PHRASE: Ref := TransportPassphrase(T)
  const BLOB: Ref := CredentialBlobRef(K)
  const BODY: Ref := ItemBlobRef(I)

  const CLIENT: Client := Client("acme", None, "D:\\backups", Retention(Some(7), None), true)
  const TRANSPORT: Transport := Transport(C, "vps", Sftp, "host", 22, "root", Some("old.key"), Some(PHRASE), None, None,
                                          true)
  const CREDENTIAL: Credential :=
    Credential(C, CredentialInfo("vps", KindSftp, None, [], Some("host"), Some(22), Some("root"), None, None, false,
                                 None), Some(BLOB), Some(T), None, SyncOk)
  const ITEM: Item := Item(C, ItemInfo("note", "door", None, [], false, None, Null), true, None, Some(BODY))

  const SOURCE: Install :=
    Install(map[C := CLIENT], map[], map[T := TRANSPORT], map[], map[], map[], map[], map[], map[K := CREDENTIAL],
            map[], map[I := ITEM], map[PHRASE := "secret"], map[BLOB := Obj(map["password" := Str("hidden")])],
            map[BODY := "1234"], map["old.key" := [1, 2, 3]])

  const EMPTY: Install :=
    Install(map[], map[], map[], map[], map[], map[], map[], map[], map[], map[], map[], map[], map[], map[],
            map["new.key" := [1, 2, 3]])

  function Draw(n: nat): Id { Id(seq(n, _ => 'x')) }

  function ExamplePayload(): Payload {
    Payload([Entry(SOURCE.clients, Nothing(), C)], [], [Entry(SOURCE.transports, TransportBeside(SOURCE), T)], [], [],
            [], [], [], [Entry(SOURCE.credentials, CredentialBeside(SOURCE), K)], [],
            [Entry(SOURCE.items, ItemBeside(SOURCE), I)])
  }

  function ExampleJob(): Job {
    Job(ExamplePayload(), EMPTY, map[T := "new.key"], Draw, (t, j) => false)
  }

  lemma ConnectionsAreSound()
    ensures SoundConnections(SOURCE)
  {
  }

  lemma TasksAreSound()
    ensures SoundTasks(SOURCE)
  {
  }

  lemma VaultIsSound()
    ensures SoundVault(SOURCE)
  {
  }

  lemma SourceIsComplete()
    ensures Complete(SOURCE)
  {
  }

  lemma ListsNone<R(!new), S>(included: R -> bool, beside: R -> S)
    ensures Lists([], map[], included, beside)
  {
  }

  lemma ListsOne<R(!new), S>(id: Id, row: R, included: R -> bool, beside: R -> S)
    requires included(row)
    ensures Lists([Entry(map[id := row], beside, id)], map[id := row], included, beside)
  {
    var rows := [Entry(map[id := row], beside, id)];
    assert rows[0].id == id;
  }

  lemma PayloadIsExport()
    ensures Exports(SOURCE, ExamplePayload())
  {
    hide Lists;
    ListsOne(C, CLIENT, Every(), Nothing());
    ListsNone(SetsOf(SOURCE), Nothing());
    ListsOne(T, TRANSPORT, TransportsOf(SOURCE), TransportBeside(SOURCE));
    ListsNone(ConnectionsOf(SOURCE), ConnectionBeside(SOURCE));
    ListsNone(TasksOf(SOURCE), TaskBeside(SOURCE));
    ListsNone(ReposOf(SOURCE), FileRepoBeside(SOURCE));
    ListsNone(FileTasksOf(SOURCE), Nothing());
    ListsNone(ReplicationsOf(SOURCE), ReplicationBeside(SOURCE));
    ListsOne(K, CREDENTIAL, Every(), CredentialBeside(SOURCE));
    ListsNone<Url, ()>(Every(), Nothing());
    ListsOne(I, ITEM, Every(), ItemBeside(SOURCE));
  }

  lemma DrawsAreFresh()
    ensures FreshUuids(ExampleJob())
  {
    forall m, n | Draw(m) == Draw(n) ensures m == n {
      assert |Draw(m).text| == m && |Draw(n).text| == n;
    }
  }

  lemma KeysAreWritten()
    ensures KeysWritten(ExamplePayload().transports, map[T := "new.key"], EMPTY.keyFiles)
  {
  }

  lemma SettingsExist()
    ensures Setting(SOURCE, ExampleJob())
  {
    hide SoundConnections, SoundTasks, SoundVault, Complete, Exports, FreshUuids, KeysWritten, ExamplePayload;
    ConnectionsAreSound();
    TasksAreSound();
    VaultIsSound();
    SourceIsComplete();
    PayloadIsExport();
    DrawsAreFresh();
    KeysAreWritten();
  }

  // An import onto a machine that has a client of that name already: the client is skipped, its transport with
  // it, and the transport's key file, written before, stays behind.

  const NAMESAKE: Install :=
    Install(map[Id("old") := CLIENT], map[], map[], map[], map[], map[], map[], map[], map[], map[], map[], map[],
            map[], map[], map[Name("k", 0) := [1, 2, 3]])

  function Name(prefix: string, n: nat): Path { prefix + seq(n, _ => 'x') }

  function Directory(): KeyWorld {
    KeyWorld((i: nat) => Name("k", i), (i: nat) => Name("t", i), (i: nat) => NoFault, (i: nat) => None, p => true, true)
  }

  const ITS_CLIENT: Exported<Client, ()> := Exported(C, CLIENT, ())
  const ITS_TRANSPORT: Exported<Transport, TransportSecrets> :=
    Exported(T, TRANSPORT, TransportSecrets(Some([1, 2, 3]), Some("secret"), None))

  function NamesakePayload(): Payload {
    Payload([ITS_CLIENT], [], [ITS_TRANSPORT], [], [], [], [], [], [], [], [])
  }

  function NamesakeJob(): Job {
    Job(NamesakePayload(), NAMESAKE, map[T := Name("k", 0)], Draw, (t, j) => false)
  }

  function Unchanged<R, V>(table: map<Id, R>, store: map<Ref, V>): Outcome<R, Ref, V> {
    Outcome(table, store, map[], 1, 0, map[])
  }

  function Nobody(): Rebuilt {
    Rebuilt(Unchanged(NAMESAKE.clients, map[]), Unchanged(map[], map[]), Unchanged(map[], map[]),
            Unchanged(map[], map[]), Unchanged(map[], map[]), Unchanged(map[], map[]), Unchanged(map[], map[]),
              Unchanged(map[], map[]), Unchanged(map[], map[]), Unchanged(map[], map[]), Unchanged(map[], map[]))
  }

  lemma OnlyEntrySkipped(rules: Rules<Client, (), Ref, string>, uuid: Uuids, rows: seq<Exported<Client, ()>>,
                         before: map<Id, Client>, store: map<Ref, string>, first: nat)
    requires |rows| == 1 && SecretsApart(rules) && rules.wanted(rows[0])
             && rules.verdict(0, before, rows[0], first) == Skip
    ensures Restored(rules, uuid, rows, 1, before, store, first,
                     Outcome(before, store + rules.secrets(rows[0], first), map[], first + 1, 0, map[]))
  {
    hide Restored, SecretsApart, RefusedInTurn;
    FirstIsRefused(rules, rows, before, first);
    NothingRestored(rules, uuid, rows, before, store, first);
    SkipKeepsRestored(rules, uuid, rows, 0, before, store, first, Outcome(before, store, map[], first, 0, map[]));
  }

  lemma FirstIsRefused(rules: Rules<Client, (), Ref, string>, rows: seq<Exported<Client, ()>>, before: map<Id, Client>,
                       first: nat)
    requires |rows| > 0 && rules.wanted(rows[0]) && rules.verdict(0, before, rows[0], first) == Skip
    ensures RefusedInTurn(rules, before, rows, map[], 0)
  {
    assert EarlierMade(rules, before, rows, map[], 0, before);
  }

  lemma OnlyEntryPassedOver<R(!new), S(!new), V(!new)>(
    rules: Rules<R, S, Ref, V>, uuid: Uuids, rows: seq<Exported<R, S>>, before: map<Id, R>, store: map<Ref, V>,
      first: nat)
    requires |rows| == 1 && !rules.wanted(rows[0])
    ensures Restored(rules, uuid, rows, 1, before, store, first, Outcome(before, store, map[], first, 0, map[]))
  {
    hide Restored;
    NothingRestored(rules, uuid, rows, before, store, first);
    PassKeepsRestored(rules, uuid, rows, 0, before, store, first, Outcome(before, store, map[], first, 0, map[]));
  }

  lemma ItsNameIsTaken(faults: Faults, x: Exported<Client, ()>)
    requires x.row == CLIENT
    ensures var rules := ClientRules(faults);
            rules.wanted(x) && rules.secrets(x, 0) == map[] && rules.verdict(0, NAMESAKE.clients, x, 0) == Skip
  {
    var rules := ClientRules(faults);
    assert Id("old") in NAMESAKE.clients && NAMESAKE.clients[Id("old")].name == x.row.name;
    assert NameTaken(NAMESAKE.clients, x.row.name);
    assert rules.verdict(0, NAMESAKE.clients, x, 0) == if faults(Clients, 0) || NameTaken(NAMESAKE.clients, x.row.name)
           then Skip else Accept;
  }

  lemma NamesakeIsSkipped()
    ensures ClientsDone(NamesakeJob(), Nobody())
  {
    hide Restored, SecretsApart, ClientRules;
    var b := NamesakeJob();
    SecretFreeTables(Maps(map[], map[], map[], map[]), map[], map[], map[], b.faults);
    ItsNameIsTaken(b.faults, b.payload.clients[0]);
    var rules, none: map<Ref, string> := ClientRules(b.faults), map[];
    OnlyEntrySkipped(rules, b.uuid, b.payload.clients, NAMESAKE.clients, none, 0);
    assert none + rules.secrets(b.payload.clients[0], 0) == none;
  }

  lemma ItsTransportIsPassedOver()
    ensures TransportsDone(NamesakeJob(), Nobody())
  {
    hide Restored;
    var b := NamesakeJob();
    var rules := TransportRules(map[], b.keys, b.uuid, b.faults);
    assert !rules.wanted(b.payload.transports[0]);
    OnlyEntryPassedOver(rules, b.uuid, b.payload.transports, NAMESAKE.transports, map[], 1);
  }

  lemma NobodyIsRestored()
    ensures Done(NamesakeJob(), Nobody(), 11)
  {
    hide Restored;
    NamesakeIsSkipped();
    ItsTransportIsPassedOver();
    var b, r := NamesakeJob(), Nobody();
    var p, s, f, u, m := b.payload, b.start, b.faults, b.uuid, MapsOf(r);
    NothingRestored(SetRules(m.clients, f), u, p.sets, s.sets, map[], 1);
    NothingRestored(ConnectionRules(m.clients, u, f), u, p.connections, s.connections, map[], 1);
    NothingRestored(TaskRules(m, map[], map[], u, f), u, p.tasks, s.tasks, map[], 1);
    NothingRestored(RepoRules(m.clients, f), u, p.repos, s.repos, map[], 1);
    NothingRestored(FileTaskRules(m, map[], map[], f), u, p.fileTasks, s.fileTasks, map[], 1);
    NothingRestored(ReplicationRules(m, f), u, p.replications, s.replications, map[], 1);
    NothingRestored(CredentialRules(m, u, f), u, p.credentials, s.credentials, map[], 1);
    NothingRestored(UrlRules(m, map[], f), u, p.urls, s.urls, map[], 1);
    NothingRestored(ItemRules(m, u, f), u, p.items, s.items, map[], 1);
  }

  lemma NamesDiffer()
    ensures FreshNames(Directory(), map[])
  {
    var w := Directory();
    forall i: nat, j: nat ensures w.dest(i) != w.tmp(j) { assert w.dest(i)[0] == 'k' && w.tmp(j)[0] == 't'; }
    forall i: nat, j: nat | w.dest(i) == w.dest(j) ensures i == j {
      assert |w.dest(i)| == i + 1 && |w.dest(j)| == j + 1;
    }
    forall i: nat, j: nat | w.tmp(i) == w.tmp(j) ensures i == j { assert |w.tmp(i)| == i + 1 && |w.tmp(j)| == j + 1; }
  }

  lemma KeyIsStored()
    ensures var b := NamesakeJob(); KeysStored(Directory(), b.payload.transports, 1, map[], NAMESAKE.keyFiles, b.keys)
  {
    var w, rows := Directory(), NamesakeJob().payload.transports;
    assert HasKey(rows[0]) && rows[0].id == T && w.dest(0) == Name("k", 0);
  }

  lemma ItsClientDoesNotComeBack()
    ensures !Recovery.ClientComesBack(NamesakeJob(), C)
  {
    var b := NamesakeJob();
    assert Id("old") in b.start.clients && b.start.clients[Id("old")].name == b.payload.clients[0].row.name;
    assert NameTaken(b.start.clients, b.payload.clients[0].row.name);
    forall j: nat | j < |b.payload.clients| ensures !Recovery.ComesBack(b, j) { assert j == 0; }
  }

  /** A successful import after which a key file that it wrote belongs to no transport. */
  lemma KeyFileIsOrphaned()
    ensures var w, b, r := Directory(), NamesakeJob(), Nobody();
            && KeysStored(w, b.payload.transports, |b.payload.transports|, map[], b.start.keyFiles, b.keys)
              && Done(b, r, 11)
            && w.dest(0) in b.start.keyFiles && !KeyFileUsed(b.start.transports, r, w.dest(0))
  {
    hide Done, KeysStored, FreshNames, Recovery.ClientComesBack;
    NobodyIsRestored();
    NamesDiffer();
    KeyIsStored();
    ItsClientDoesNotComeBack();
    OrphanedKeyFiles(Directory(), NamesakeJob(), map[], Nobody(), 0);
  }
}

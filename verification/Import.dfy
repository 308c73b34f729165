/**
 Rebuilding an installation from a payload: the transaction body of `importVaultBuffer`
 (exportVault.ts), table by table in the source's order, each table by `RestoreTable` under the
 rules stated here.
 */
module Import {
  import opened Common
  import opened JsonValues
  import opened RestoreLoop
  import opened RecoveryModel

  /** The steps at which a database call may throw for a reason of its own. */
  datatype Table =
    | Clients | Sets | Transports | Connections | Tasks | TaskSchedules | Repos | FileTasks | Replications | Credentials
      | Urls | Items

  type Faults = (Table, nat) -> bool

  /** The id maps that tasks refer to; `repos` and `credentials` are passed where they are used. */
  datatype Maps = Maps(clients: map<Id, Id>, sets: map<Id, Id>, transports: map<Id, Id>, connections: map<Id, Id>)

  function Guard(bad: bool): Verdict {
    if bad then Abort else Accept
  }

  function Stored<V>(ref: Ref, value: Option<V>): map<Ref, V> {
    if value.Some? then map[ref := value.value] else map[]
  }

  function NonEmpty(s: Option<string>): Option<string> {
    if Present(s) then s else None
  }

  // 1. Clients: a name that is taken is caught and skips the client. `isActive` is not restored.

  function ClientRules(faults: Faults): Rules<Client, (), Ref, string> {
    Rules(
      (x: Exported<Client, ()>) => true,
      (x: Exported<Client, ()>, n: nat) => x.row.(isActive := true),
      (x: Exported<Client, ()>, n: nat) => map[],
      (j: nat, t: map<Id, Client>, x: Exported<Client, ()>, n: nat) =>
        if faults(Clients, j) || NameTaken(t, x.row.name) then Skip else Accept)
  }

  predicate NameTaken(t: map<Id, Client>, name: string) {
    exists id :: id in t && t[id].name == name
  }

  // 2. Backup sets: (client, name) is unique.

  function SetImage(cm: map<Id, Id>, r: BackupSet): BackupSet {
    r.(clientId := At(cm, r.clientId))
  }

  predicate SetTaken(t: map<Id, BackupSet>, r: BackupSet) {
    exists id :: id in t && t[id].clientId == r.clientId && t[id].name == r.name
  }

  function SetRules(cm: map<Id, Id>, faults: Faults): Rules<BackupSet, (), Ref, string> {
    Rules(
      (x: Exported<BackupSet, ()>) => x.row.clientId in cm,
      (x: Exported<BackupSet, ()>, n: nat) => SetImage(cm, x.row),
      (x: Exported<BackupSet, ()>, n: nat) => map[],
      (j: nat, t: map<Id, BackupSet>, x: Exported<BackupSet, ()>, n: nat) =>
        Guard(faults(Sets, j) || SetTaken(t, SetImage(cm, x.row))))
  }

  // 3. Transports: an SFTP or SSH transport without a key file is skipped.

  function TransportImage(cm: map<Id, Id>, keys: map<Id, Path>, uuid: Uuids, x: Exported<Transport, TransportSecrets>,
                          n: nat): Transport
  {
    var r := x.row.(clientId := At(cm, x.row.clientId));
    if r.kind.Ftp? then
      r.(keyPath := None, passphraseRef := None, knownHost := None,
         passwordRef := if Present(x.extra.password) then Some(TransportPassword(uuid(n))) else None)
    else
      r.(keyPath := if x.id in keys then Some(keys[x.id]) else None, passwordRef := None,
         passphraseRef := if Present(x.extra.passphrase) then Some(TransportPassphrase(uuid(n))) else None)
  }

  function TransportRules(cm: map<Id, Id>, keys: map<Id, Path>, uuid: Uuids,
                          faults: Faults): Rules<Transport, TransportSecrets, Ref, string>
  {
    Rules(
      (x: Exported<Transport, TransportSecrets>) => x.row.clientId in cm && (Keyed(x.row.kind) ==> x.id in keys),
      (x: Exported<Transport, TransportSecrets>, n: nat) => TransportImage(cm, keys, uuid, x, n),
      (x: Exported<Transport, TransportSecrets>, n: nat) =>
        Stored(TransportPassphrase(uuid(n)), NonEmpty(x.extra.passphrase))
          + Stored(TransportPassword(uuid(n)), NonEmpty(x.extra.password)),
            (j: nat, t: map<Id, Transport>, x: Exported<Transport, TransportSecrets>, n: nat) =>
              Guard(faults(Transports, j)))
  }

  predicate HasKey(x: Exported<Transport, TransportSecrets>) {
    x.extra.key.Some? && x.extra.key.value != []
  }

  /** Every exported key has been written to a file. */
  ghost predicate KeysWritten(rows: seq<Exported<Transport, TransportSecrets>>, keys: map<Id, Path>,
                              files: map<Path, Bytes>)
  {
    forall j :: 0 <= j < |rows| && HasKey(rows[j]) ==>
      rows[j].id in keys && keys[rows[j].id] in files && files[keys[rows[j].id]] == rows[j].extra.key.value
  }

  // 4. Database connections.

  function ConnectionImage(cm: map<Id, Id>, uuid: Uuids, x: Exported<Connection, Option<string>>, n: nat): Connection {
    x.row.(clientId := At(cm, x.row.clientId),
           passwordRef := if Present(x.extra) then Some(ConnectionPassword(uuid(n))) else None)
  }

  function ConnectionRules(cm: map<Id, Id>, uuid: Uuids, faults: Faults): Rules<Connection, Option<string>, Ref, string>
  {
    Rules(
      (x: Exported<Connection, Option<string>>) => x.row.clientId in cm,
      (x: Exported<Connection, Option<string>>, n: nat) => ConnectionImage(cm, uuid, x, n),
      (x: Exported<Connection, Option<string>>, n: nat) => Stored(ConnectionPassword(uuid(n)), NonEmpty(x.extra)),
      (j: nat, t: map<Id, Connection>, x: Exported<Connection, Option<string>>, n: nat) =>
        Guard(faults(Connections, j)))
  }

  // 5. Backup tasks: skipped when their connection was not restored or the create call throws.

  function LinkRestored(tm: map<Id, Id>, dm: map<Id, Id>, s: Strategy): bool {
    match s
    case FetchExisting(tid, _, _) => Mapped(tm, tid).Some?
    case RemoteDump(tid, _, _, _, _, _, _, _, _) => Mapped(tm, tid).Some?
    case DirectDump(cid) => Mapped(dm, cid).Some?
  }

  function StrategyImage(tm: map<Id, Id>, dm: map<Id, Id>, s: Strategy, passwordRef: Option<Ref>): Strategy {
    match s
    case FetchExisting(tid, path, pattern) => FetchExisting(Mapped(tm, tid), Some(path.GetOr("")), pattern)
    case RemoteDump(tid, command, template, cleanup, docker, container, database, user, _) =>
      RemoteDump(Mapped(tm, tid), command, Some(template.GetOr("")), cleanup, docker, container, database, user,
                 passwordRef)
    case DirectDump(cid) => DirectDump(Mapped(dm, cid))
  }

  function TaskImage(m: Maps, uuid: Uuids, x: Exported<Task, Option<string>>, n: nat): Task {
    var ref := if x.row.strategy.RemoteDump? && Present(x.extra) then Some(TaskDumpPassword(uuid(n))) else None;
    x.row.(clientId := At(m.clients, x.row.clientId),
           strategy := StrategyImage(m.transports, m.connections, x.row.strategy, ref),
           schedule := RestoredSchedule(x.row.schedule),
           backupSetId := Mapped(m.sets, x.row.backupSetId))
  }

  function TaskRules(m: Maps, transports: map<Id, Transport>, connections: map<Id, Connection>, uuid: Uuids,
                     faults: Faults)
    : Rules<Task, Option<string>, Ref, string>
  {
    Rules(
      (x: Exported<Task, Option<string>>) => x.row.clientId in m.clients
        && LinkRestored(m.transports, m.connections, x.row.strategy),
          (x: Exported<Task, Option<string>>, n: nat) => TaskImage(m, uuid, x, n),
            (x: Exported<Task, Option<string>>, n: nat) =>
        if x.row.strategy.RemoteDump? then Stored(TaskDumpPassword(uuid(n)), NonEmpty(x.extra)) else map[],
      (j: nat, t: map<Id, Task>, x: Exported<Task, Option<string>>, n: nat) =>
        if faults(Tasks, j) || !AcceptableTask(transports, connections, TaskImage(m, uuid, x, n)) then Skip
        else Guard(faults(TaskSchedules, j) || !RestorableSchedule(x.row.schedule)))
  }

  // 6. File-backup repositories: one per client; skipped without the restic key.

  function RepoImage(cm: map<Id, Id>, r: FileRepo): FileRepo {
    var cid := At(cm, r.clientId);
    FileRepo(cid, r.repoPath, RepoPassword(cid), r.initialized, if r.initialized then r.resticRepoId else None)
  }

  predicate RepoTaken(t: map<Id, FileRepo>, clientId: Id) {
    exists id :: id in t && t[id].clientId == clientId
  }

  function RepoRules(cm: map<Id, Id>, faults: Faults): Rules<FileRepo, Option<string>, Ref, string> {
    Rules(
      (x: Exported<FileRepo, Option<string>>) => x.row.clientId in cm && Present(x.extra),
      (x: Exported<FileRepo, Option<string>>, n: nat) => RepoImage(cm, x.row),
      (x: Exported<FileRepo, Option<string>>, n: nat) => Stored(RepoPassword(At(cm, x.row.clientId)), x.extra),
      (j: nat, t: map<Id, FileRepo>, x: Exported<FileRepo, Option<string>>, n: nat) =>
        Guard(faults(Repos, j) || RepoTaken(t, At(cm, x.row.clientId))))
  }

  // 7. File-backup tasks.

  function SourceImage(tm: map<Id, Id>, s: FileSource): FileSource {
    match s
    case LocalFolder(path) => LocalFolder(Some(path.GetOr("")))
    case RemoteFolder(tid, path) => RemoteFolder(Mapped(tm, tid), Some(path.GetOr("")))
  }

  function FileTaskImage(m: Maps, repos: map<Id, Id>, r: FileTask): FileTask {
    r.(clientId := At(m.clients, r.clientId), repositoryId := At(repos, r.repositoryId),
       source := SourceImage(m.transports, r.source), schedule := RestoredSchedule(r.schedule),
       backupSetId := Mapped(m.sets, r.backupSetId))
  }

  function FileTaskRules(m: Maps, repos: map<Id, Id>, transports: map<Id, Transport>,
                         faults: Faults): Rules<FileTask, (), Ref, string>
  {
    Rules(
      (x: Exported<FileTask, ()>) =>
        x.row.clientId in m.clients && x.row.repositoryId in repos
        && (x.row.source.RemoteFolder? ==> Mapped(m.transports, x.row.source.transportId).Some?),
      (x: Exported<FileTask, ()>, n: nat) => FileTaskImage(m, repos, x.row),
      (x: Exported<FileTask, ()>, n: nat) => map[],
      (j: nat, t: map<Id, FileTask>, x: Exported<FileTask, ()>, n: nat) =>
        Guard(faults(FileTasks, j) || !AcceptableSource(transports, FileTaskImage(m, repos, x.row).source)
              || !RestorableSchedule(x.row.schedule)))
  }

  // 8. Replication targets: one per client and content.

  function ReplicationImage(m: Maps, x: Exported<Replication, ReplicationSecrets>): Replication {
    var r := x.row;
    var cid := At(m.clients, r.clientId);
    r.(clientId := cid,
       configRef := if r.provider.RcloneDrive? then Some(ReplicationConfig(cid, r.content)) else None,
       transportId := if r.provider.RcloneDrive? then None else Mapped(m.transports, r.transportId),
       cryptRef := if r.encrypted && Present(x.extra.crypt) then Some(ReplicationCrypt(cid, r.content)) else None,
       hostKey := if r.hostKey.Some? && r.hostKey.value.0 != "" && r.hostKey.value.1 != "" then r.hostKey else None)
  }

  predicate ReplicationTaken(t: map<Id, Replication>, clientId: Id, content: Content) {
    exists id :: id in t && t[id].clientId == clientId && t[id].content == content
  }

  function ReplicationStore(m: Maps, x: Exported<Replication, ReplicationSecrets>): map<Ref, string> {
    var cid := At(m.clients, x.row.clientId);
    (if x.row.provider.RcloneDrive? then Stored(ReplicationConfig(cid, x.row.content), x.extra.config) else map[])
    + (if x.row.encrypted then Stored(ReplicationCrypt(cid, x.row.content), NonEmpty(x.extra.crypt)) else map[])
  }

  function ReplicationRules(m: Maps, faults: Faults): Rules<Replication, ReplicationSecrets, Ref, string> {
    Rules(
      (x: Exported<Replication, ReplicationSecrets>) =>
        x.row.clientId in m.clients
        && (if x.row.provider.RcloneDrive? then Present(x.extra.config)
            else Mapped(m.transports, x.row.transportId).Some?),
                (x: Exported<Replication, ReplicationSecrets>, n: nat) => ReplicationImage(m, x),
                  (x: Exported<Replication, ReplicationSecrets>, n: nat) => ReplicationStore(m, x),
                    (j: nat, t: map<Id, Replication>, x: Exported<Replication, ReplicationSecrets>, n: nat) =>
        Guard(faults(Replications, j) || ReplicationTaken(t, At(m.clients, x.row.clientId), x.row.content)))
  }

  // 10. Vault credentials: at most one may own a given transport or connection.

  function CredentialImage(m: Maps, uuid: Uuids, x: Exported<Credential, Json>, n: nat): Credential {
    var tid := Mapped(m.transports, x.row.linkedTransportId);
    var did := Mapped(m.connections, x.row.linkedConnectionId);
    Credential(At(m.clients, x.row.clientId), x.row.info, Some(CredentialBlobRef(uuid(n))), tid, did,
               if tid.Some? || did.Some? then SyncOk else SyncNone)
  }

  predicate LinkTaken(t: map<Id, Credential>, c: Credential) {
    exists id :: id in t && ((c.linkedTransportId.Some? && t[id].linkedTransportId == c.linkedTransportId)
                          || (c.linkedConnectionId.Some? && t[id].linkedConnectionId == c.linkedConnectionId))
  }

  function CredentialRules(m: Maps, uuid: Uuids, faults: Faults): Rules<Credential, Json, Ref, Json> {
    Rules(
      (x: Exported<Credential, Json>) => x.row.clientId in m.clients,
      (x: Exported<Credential, Json>, n: nat) => CredentialImage(m, uuid, x, n),
      (x: Exported<Credential, Json>, n: nat) => map[CredentialBlobRef(uuid(n)) := x.extra],
      (j: nat, t: map<Id, Credential>, x: Exported<Credential, Json>, n: nat) =>
        var c := CredentialImage(m, uuid, x, n);
        Guard(faults(Credentials, j) || !AcceptableLink(c) || LinkTaken(t, c)))
  }

  // 11. URLs.

  function UrlImage(m: Maps, credentials: map<Id, Id>, r: Url): Url {
    Url(At(m.clients, r.clientId), r.info, Mapped(credentials, r.linkedCredentialId))
  }

  function UrlRules(m: Maps, credentials: map<Id, Id>, faults: Faults): Rules<Url, (), Ref, string> {
    Rules(
      (x: Exported<Url, ()>) => x.row.clientId in m.clients,
      (x: Exported<Url, ()>, n: nat) => UrlImage(m, credentials, x.row),
      (x: Exported<Url, ()>, n: nat) => map[],
      (j: nat, t: map<Id, Url>, x: Exported<Url, ()>, n: nat) => Guard(faults(Urls, j)))
  }

  // 12. Items: the body of a sensitive one goes to the vault.

  function ItemImage(m: Maps, uuid: Uuids, x: Exported<Item, Option<string>>, n: nat): Item {
    var hidden := x.row.isSensitive && x.extra.Some?;
    Item(At(m.clients, x.row.clientId), x.row.info, x.row.isSensitive,
         if hidden then None else x.extra,
         if hidden then Some(ItemBlobRef(uuid(n))) else None)
  }

  function ItemRules(m: Maps, uuid: Uuids, faults: Faults): Rules<Item, Option<string>, Ref, string> {
    Rules(
      (x: Exported<Item, Option<string>>) => x.row.clientId in m.clients,
      (x: Exported<Item, Option<string>>, n: nat) => ItemImage(m, uuid, x, n),
      (x: Exported<Item, Option<string>>, n: nat) => if x.row.isSensitive then Stored(ItemBlobRef(uuid(n)), x.extra)
        else map[], (j: nat, t: map<Id, Item>, x: Exported<Item, Option<string>>, n: nat) => Guard(faults(Items, j)))
  }

  // No rule lets one row overwrite the secrets of another.

  // (Each table has its own constructors of references, so only rows of one table could clash.)

  /** A table that stores no secrets cannot clash. */
  lemma SilentApart<R(!new), S(!new)>(rules: Rules<R, S, Ref, string>)
    requires forall x, n :: rules.secrets(x, n) == map[]
    ensures SecretsApart(rules)
  {
  }

  lemma SecretFreeTables(m: Maps, repos: map<Id, Id>, credentials: map<Id, Id>, transports: map<Id, Transport>,
                         faults: Faults)
    ensures SecretsApart(ClientRules(faults)) && SecretsApart(SetRules(m.clients, faults))
    ensures SecretsApart(FileTaskRules(m, repos, transports, faults)) && SecretsApart(UrlRules(m, credentials, faults))
  {
    hide SecretsApart;
    SilentApart(ClientRules(faults));
    SilentApart(SetRules(m.clients, faults));
    SilentApart(FileTaskRules(m, repos, transports, faults));
    SilentApart(UrlRules(m, credentials, faults));
  }

  /** A table whose references carry the draw cannot clash either: other draws, other references. */
  lemma DrawnApart<R(!new), S(!new), V(!new)>(rules: Rules<R, S, Ref, V>, uuid: Uuids)
    requires Distinct(uuid)
    requires forall x, n, r :: r in rules.secrets(x, n) ==> DrawnAt(r, uuid(n))
    ensures SecretsApart(rules)
  {
    forall x, y, m: nat, n: nat | m < n ensures rules.secrets(x, m).Keys !! rules.secrets(y, n).Keys {
      forall r | r in rules.secrets(x, m) ensures r !in rules.secrets(y, n) {
        DrawnOnce(r, uuid(m), uuid(n));
      }
    }
  }

  lemma DrawnOnce(r: Ref, a: Id, b: Id)
    requires DrawnAt(r, a) && a != b
    ensures !DrawnAt(r, b)
  {
  }

  predicate DrawnAt(r: Ref, id: Id) {
    match r
    case TransportPassphrase(u) => u == id
    case TransportPassword(u) => u == id
    case ConnectionPassword(u) => u == id
    case TaskDumpPassword(u) => u == id
    case CredentialBlobRef(u) => u == id
    case ItemBlobRef(u) => u == id
    case _ => false
  }

  lemma TransportSecretsApart(cm: map<Id, Id>, keys: map<Id, Path>, uuid: Uuids, faults: Faults)
    requires Distinct(uuid)
    ensures SecretsApart(TransportRules(cm, keys, uuid, faults))
  {
    hide SecretsApart, TransportImage, Distinct;
    var rules := TransportRules(cm, keys, uuid, faults);
    forall x: Exported<Transport, TransportSecrets>, n, r | r in rules.secrets(x, n) ensures DrawnAt(r, uuid(n)) {
      assert rules.secrets(x, n)
          == Stored(TransportPassphrase(uuid(n)), NonEmpty(x.extra.passphrase))
            + Stored(TransportPassword(uuid(n)), NonEmpty(x.extra.password));
    }
    DrawnApart(rules, uuid);
  }

  lemma ConnectionSecretsApart(cm: map<Id, Id>, uuid: Uuids, faults: Faults)
    requires Distinct(uuid)
    ensures SecretsApart(ConnectionRules(cm, uuid, faults))
  {
    hide SecretsApart, ConnectionImage, Distinct;
    var rules := ConnectionRules(cm, uuid, faults);
    forall x: Exported<Connection, Option<string>>, n, r | r in rules.secrets(x, n) ensures DrawnAt(r, uuid(n)) {
      assert rules.secrets(x, n) == Stored(ConnectionPassword(uuid(n)), NonEmpty(x.extra));
    }
    DrawnApart(rules, uuid);
  }

  lemma TaskSecretsApart(m: Maps, transports: map<Id, Transport>, connections: map<Id, Connection>, uuid: Uuids,
                         faults: Faults)
    requires Distinct(uuid)
    ensures SecretsApart(TaskRules(m, transports, connections, uuid, faults))
  {
    hide SecretsApart, TaskImage, LinkRestored, AcceptableTask, RestorableSchedule, Distinct;
    var rules := TaskRules(m, transports, connections, uuid, faults);
    forall x: Exported<Task, Option<string>>, n, r | r in rules.secrets(x, n) ensures DrawnAt(r, uuid(n)) {
      assert rules.secrets(x, n) == if x.row.strategy.RemoteDump?
             then Stored(TaskDumpPassword(uuid(n)), NonEmpty(x.extra)) else map[];
    }
    DrawnApart(rules, uuid);
  }

  lemma VaultSecretsApart(m: Maps, uuid: Uuids, faults: Faults)
    requires Distinct(uuid)
    ensures SecretsApart(CredentialRules(m, uuid, faults)) && SecretsApart(ItemRules(m, uuid, faults))
  {
    hide SecretsApart, CredentialImage, ItemImage, AcceptableLink, LinkTaken, Distinct;
    var credentials, items := CredentialRules(m, uuid, faults), ItemRules(m, uuid, faults);
    forall x: Exported<Credential, Json>, n, r | r in credentials.secrets(x, n) ensures DrawnAt(r, uuid(n)) {
      assert credentials.secrets(x, n) == map[CredentialBlobRef(uuid(n)) := x.extra];
    }
    DrawnApart(credentials, uuid);
    forall x: Exported<Item, Option<string>>, n, r | r in items.secrets(x, n) ensures DrawnAt(r, uuid(n)) {
      assert items.secrets(x, n) == if x.row.isSensitive then Stored(ItemBlobRef(uuid(n)), x.extra) else map[];
    }
    DrawnApart(items, uuid);
  }

  /** Two repositories of one client would share a reference, but the second is refused. */
  lemma RepoSecretsApart(cm: map<Id, Id>, faults: Faults)
    ensures SecretsApart(RepoRules(cm, faults))
  {
    var rules := RepoRules(cm, faults);
    forall x, y, a: nat, b: nat | a < b
      ensures rules.secrets(x, a).Keys !! rules.secrets(y, b).Keys
           || forall j: nat, t: map<Id, FileRepo>, id :: id in t && t[id] == rules.image(x, a) ==>
             rules.verdict(j, t, y, b) == Abort
    {
      if At(cm, x.row.clientId) == At(cm, y.row.clientId) {
        forall j: nat, t: map<Id, FileRepo>, id | id in t && t[id] == rules.image(x, a)
          ensures rules.verdict(j, t, y, b) == Abort
        {
          assert rules.image(x, a) == RepoImage(cm, x.row);
          assert t[id].clientId == At(cm, y.row.clientId);
          assert RepoTaken(t, At(cm, y.row.clientId));
          assert rules.verdict(j, t, y, b) == Guard(faults(Repos, j) || RepoTaken(t, At(cm, y.row.clientId)));
        }
      }
    }
  }

  lemma ReplicationRefs(m: Maps, x: Exported<Replication, ReplicationSecrets>, r: Ref)
    requires r in ReplicationStore(m, x)
    ensures r == ReplicationConfig(At(m.clients, x.row.clientId), x.row.content)
         || r == ReplicationCrypt(At(m.clients, x.row.clientId), x.row.content)
  {
  }

  /** Likewise two targets of one client for the same content. */
  lemma ReplicationSecretsApart(m: Maps, faults: Faults)
    ensures SecretsApart(ReplicationRules(m, faults))
  {
    hide ReplicationStore;
    var rules := ReplicationRules(m, faults);
    forall x, y, a: nat, b: nat | a < b
      ensures rules.secrets(x, a).Keys !! rules.secrets(y, b).Keys
           || forall j: nat, t: map<Id, Replication>, id :: id in t && t[id] == rules.image(x, a) ==>
             rules.verdict(j, t, y, b) == Abort
    {
      forall r | r in ReplicationStore(m, x) { ReplicationRefs(m, x, r); }
      forall r | r in ReplicationStore(m, y) { ReplicationRefs(m, y, r); }
      if At(m.clients, x.row.clientId) == At(m.clients, y.row.clientId) && x.row.content == y.row.content {
        forall j: nat, t: map<Id, Replication>, id | id in t && t[id] == rules.image(x, a)
          ensures rules.verdict(j, t, y, b) == Abort
        {
          assert rules.image(x, a) == ReplicationImage(m, x);
          assert t[id].clientId == At(m.clients, y.row.clientId) && t[id].content == y.row.content;
          assert ReplicationTaken(t, At(m.clients, y.row.clientId), y.row.content);
          assert rules.verdict(j, t, y, b)
                 == Guard(faults(Replications, j) || ReplicationTaken(t, At(m.clients, y.row.clientId), y.row.content));
        }
      }
    }
  }

  /** What one import works with. */
  datatype Job = Job(payload: Payload, start: Install, keys: map<Id, Path>, uuid: Uuids, faults: Faults)

  /** The outcome of each step; the counters of the import result are the `created` of each. */
  datatype Rebuilt = Rebuilt(
    clients: Outcome<Client, Ref, string>,
    sets: Outcome<BackupSet, Ref, string>,
    transports: Outcome<Transport, Ref, string>,
    connections: Outcome<Connection, Ref, string>,
    tasks: Outcome<Task, Ref, string>,
    repos: Outcome<FileRepo, Ref, string>,
    fileTasks: Outcome<FileTask, Ref, string>,
    replications: Outcome<Replication, Ref, string>,
    credentials: Outcome<Credential, Ref, Json>,
    urls: Outcome<Url, Ref, string>,
    items: Outcome<Item, Ref, string>)

  function NotRun<R, V>(): Outcome<R, Ref, V> {
    Outcome(map[], map[], map[], 0, 0, map[])
  }

  const NOT_RUN := Rebuilt(NotRun(), NotRun(), NotRun(), NotRun(), NotRun(), NotRun(), NotRun(), NotRun(), NotRun(),
                           NotRun(), NotRun())

  function MapsOf(r: Rebuilt): Maps {
    Maps(r.clients.ids, r.sets.ids, r.transports.ids, r.connections.ids)
  }

  // What each finished step has established: its table holds the old rows and the images of the
  // restored entries, under the maps of the steps before it.

  ghost predicate ClientsDone(b: Job, r: Rebuilt) {
    Restored(ClientRules(b.faults), b.uuid, b.payload.clients, |b.payload.clients|, b.start.clients, b.start.secrets, 0,
             r.clients)
  }

  ghost predicate SetsDone(b: Job, r: Rebuilt) {
    Restored(SetRules(r.clients.ids, b.faults), b.uuid, b.payload.sets, |b.payload.sets|,
             b.start.sets, r.clients.store, r.clients.next, r.sets)
  }

  ghost predicate TransportsDone(b: Job, r: Rebuilt) {
    Restored(TransportRules(r.clients.ids, b.keys, b.uuid, b.faults), b.uuid, b.payload.transports,
             |b.payload.transports|, b.start.transports, r.sets.store, r.sets.next, r.transports)
  }

  ghost predicate ConnectionsDone(b: Job, r: Rebuilt) {
    Restored(ConnectionRules(r.clients.ids, b.uuid, b.faults), b.uuid, b.payload.connections, |b.payload.connections|,
             b.start.connections, r.transports.store, r.transports.next, r.connections)
  }

  ghost predicate TasksDone(b: Job, r: Rebuilt) {
    Restored(TaskRules(MapsOf(r), r.transports.after, r.connections.after, b.uuid, b.faults), b.uuid, b.payload.tasks,
             |b.payload.tasks|, b.start.tasks, r.connections.store, r.connections.next, r.tasks)
  }

  ghost predicate ReposDone(b: Job, r: Rebuilt) {
    Restored(RepoRules(r.clients.ids, b.faults), b.uuid, b.payload.repos, |b.payload.repos|,
             b.start.repos, r.tasks.store, r.tasks.next, r.repos)
  }

  ghost predicate FileTasksDone(b: Job, r: Rebuilt) {
    Restored(FileTaskRules(MapsOf(r), r.repos.ids, r.transports.after, b.faults), b.uuid, b.payload.fileTasks,
             |b.payload.fileTasks|, b.start.fileTasks, r.repos.store, r.repos.next, r.fileTasks)
  }

  ghost predicate ReplicationsDone(b: Job, r: Rebuilt) {
    Restored(ReplicationRules(MapsOf(r), b.faults), b.uuid, b.payload.replications, |b.payload.replications|,
             b.start.replications, r.fileTasks.store, r.fileTasks.next, r.replications)
  }

  ghost predicate CredentialsDone(b: Job, r: Rebuilt) {
    Restored(CredentialRules(MapsOf(r), b.uuid, b.faults), b.uuid, b.payload.credentials, |b.payload.credentials|,
             b.start.credentials, b.start.blobs, r.replications.next, r.credentials)
  }

  ghost predicate UrlsDone(b: Job, r: Rebuilt) {
    Restored(UrlRules(MapsOf(r), r.credentials.ids, b.faults), b.uuid, b.payload.urls, |b.payload.urls|,
             b.start.urls, map[], r.credentials.next, r.urls)
  }

  ghost predicate ItemsDone(b: Job, r: Rebuilt) {
    Restored(ItemRules(MapsOf(r), b.uuid, b.faults), b.uuid, b.payload.items, |b.payload.items|,
             b.start.items, b.start.bodies, r.urls.next, r.items)
  }

  ghost predicate SomeAbort<R(!new), S(!new), V(!new)>(rules: Rules<R, S, Ref, V>, before: map<Id, R>,
                                                       rows: seq<Exported<R, S>>)
  {
    exists j :: 0 <= j < |rows| && Refused(rules, before, rows, j, Abort)
  }

  /** Step `n` meets an exception that it does not catch. */
  ghost predicate StepAborts(b: Job, r: Rebuilt, n: nat) {
    var p, f, m := b.payload, b.faults, MapsOf(r);
    match n
    case 0 => SomeAbort(ClientRules(f), b.start.clients, p.clients)
    case 1 => SomeAbort(SetRules(r.clients.ids, f), b.start.sets, p.sets)
    case 2 => SomeAbort(TransportRules(r.clients.ids, b.keys, b.uuid, f), b.start.transports, p.transports)
    case 3 => SomeAbort(ConnectionRules(r.clients.ids, b.uuid, f), b.start.connections, p.connections)
    case 4 => SomeAbort(TaskRules(m, r.transports.after, r.connections.after, b.uuid, f), b.start.tasks, p.tasks)
    case 5 => SomeAbort(RepoRules(r.clients.ids, f), b.start.repos, p.repos)
    case 6 => SomeAbort(FileTaskRules(m, r.repos.ids, r.transports.after, f), b.start.fileTasks, p.fileTasks)
    case 7 => SomeAbort(ReplicationRules(m, f), b.start.replications, p.replications)
    case 8 => SomeAbort(CredentialRules(m, b.uuid, f), b.start.credentials, p.credentials)
    case 9 => SomeAbort(UrlRules(m, r.credentials.ids, f), b.start.urls, p.urls)
    case 10 => SomeAbort(ItemRules(m, b.uuid, f), b.start.items, p.items)
    case _ => false
  }

  /** The first `n` steps are done. */
  ghost predicate Done(b: Job, r: Rebuilt, n: nat) {
    && (n > 0 ==> ClientsDone(b, r)) && (n > 1 ==> SetsDone(b, r)) && (n > 2 ==> TransportsDone(b, r))
    && (n > 3 ==> ConnectionsDone(b, r)) && (n > 4 ==> TasksDone(b, r)) && (n > 5 ==> ReposDone(b, r))
    && (n > 6 ==> FileTasksDone(b, r)) && (n > 7 ==> ReplicationsDone(b, r)) && (n > 8 ==> CredentialsDone(b, r))
    && (n > 9 ==> UrlsDone(b, r)) && (n > 10 ==> ItemsDone(b, r))
  }

  /** Some step met an exception it does not catch, after the steps before it were done. */
  ghost predicate Aborted(b: Job, r: Rebuilt) {
    exists n :: Done(b, r, n) && StepAborts(b, r, n)
  }

  /** The UUIDs drawn from now on are new to every table. */
  ghost predicate NewIds(uuid: Uuids, s: Install) {
    && Distinct(uuid)
    && forall n :: uuid(n) !in s.clients && uuid(n) !in s.sets && uuid(n) !in s.transports && uuid(n) !in s.connections
                && uuid(n) !in s.tasks && uuid(n) !in s.repos && uuid(n) !in s.fileTasks && uuid(n) !in s.replications
                && uuid(n) !in s.credentials && uuid(n) !in s.urls && uuid(n) !in s.items
  }

  ghost predicate FreshUuids(b: Job) {
    NewIds(b.uuid, b.start)
  }

  /** The body of the transaction, after the vault row exists and the vault is open. */
  method ImportTables(b: Job) returns (ok: bool, r: Rebuilt)
    requires FreshUuids(b)
    ensures ok ==> Done(b, r, 11)
    ensures !ok ==> Aborted(b, r)
  {
    hide Done, Aborted;
    ok, r := ImportConnections(b);
    if !ok { return; }
    ok, r := ImportTasks(b, r);
    if !ok { return; }
    ok, r := ImportVaultRows(b, r);
  }

  /** Steps 1 to 4: the rows that others refer to. */
  method ImportConnections(b: Job) returns (ok: bool, r: Rebuilt)
    requires FreshUuids(b)
    ensures ok ==> Done(b, r, 4)
    ensures !ok ==> Aborted(b, r)
  {
    hide Restored, Refused, SecretsApart, ClientRules, SetRules, TransportRules, ConnectionRules, FileTaskRules,
         UrlRules;
    var p, f := b.payload, b.faults;
    r := NOT_RUN;
    SecretFreeTables(Maps(map[], map[], map[], map[]), map[], map[], map[], f);
    var clients;
    ok, clients := RestoreTable(ClientRules(f), b.uuid, p.clients, b.start.clients, b.start.secrets, 0);
    if !ok {
      assert StepAborts(b, r, 0);
      return;
    }
    r := r.(clients := clients);
    SecretFreeTables(MapsOf(r), map[], map[], map[], f);
    var sets;
    ok, sets := RestoreTable(SetRules(clients.ids, f), b.uuid, p.sets, b.start.sets, clients.store, clients.next);
    if !ok {
      assert StepAborts(b, r, 1);
      return;
    }
    r := r.(sets := sets);
    TransportSecretsApart(clients.ids, b.keys, b.uuid, f);
    var transports;
    ok, transports := RestoreTable(TransportRules(clients.ids, b.keys, b.uuid, f), b.uuid, p.transports,
                                   b.start.transports, sets.store, sets.next);
    if !ok {
      assert StepAborts(b, r, 2);
      return;
    }
    r := r.(transports := transports);
    ConnectionSecretsApart(clients.ids, b.uuid, f);
    var connections;
    ok, connections := RestoreTable(ConnectionRules(clients.ids, b.uuid, f), b.uuid, p.connections, b.start.connections,
                                    transports.store, transports.next);
    if !ok {
      assert StepAborts(b, r, 3);
      return;
    }
    r := r.(connections := connections);
  }

  /** Steps 5 to 8: the rows that refer to them. */
  method ImportTasks(b: Job, r0: Rebuilt) returns (ok: bool, r: Rebuilt)
    requires FreshUuids(b)
    requires Done(b, r0, 4)
    ensures ok ==> Done(b, r, 8)
    ensures !ok ==> Aborted(b, r)
  {
    hide Restored, Refused, SecretsApart, ClientRules, SetRules, TransportRules, ConnectionRules, TaskRules, RepoRules,
         FileTaskRules, ReplicationRules, UrlRules;
    var p, f, m := b.payload, b.faults, MapsOf(r0);
    r := r0;
    TaskSecretsApart(m, r.transports.after, r.connections.after, b.uuid, f);
    var tasks;
    ok, tasks := RestoreTable(TaskRules(m, r.transports.after, r.connections.after, b.uuid, f), b.uuid, p.tasks,
                              b.start.tasks, r.connections.store, r.connections.next);
    if !ok {
      assert StepAborts(b, r, 4);
      return;
    }
    r := r.(tasks := tasks);
    RepoSecretsApart(r.clients.ids, f);
    var repos;
    ok, repos := RestoreTable(RepoRules(r.clients.ids, f), b.uuid, p.repos, b.start.repos, tasks.store, tasks.next);
    if !ok {
      assert StepAborts(b, r, 5);
      return;
    }
    r := r.(repos := repos);
    SecretFreeTables(m, repos.ids, map[], r.transports.after, f);
    var fileTasks;
    ok, fileTasks := RestoreTable(FileTaskRules(m, repos.ids, r.transports.after, f), b.uuid, p.fileTasks,
                                  b.start.fileTasks, repos.store, repos.next);
    if !ok {
      assert StepAborts(b, r, 6);
      return;
    }
    r := r.(fileTasks := fileTasks);
    ReplicationSecretsApart(m, f);
    var replications;
    ok, replications := RestoreTable(ReplicationRules(m, f), b.uuid, p.replications, b.start.replications,
                                     fileTasks.store, fileTasks.next);
    if !ok {
      assert StepAborts(b, r, 7);
      return;
    }
    r := r.(replications := replications);
  }

  /** Steps 10 to 12: the vault's own rows. */
  method ImportVaultRows(b: Job, r0: Rebuilt) returns (ok: bool, r: Rebuilt)
    requires FreshUuids(b)
    requires Done(b, r0, 8)
    ensures ok ==> Done(b, r, 11)
    ensures !ok ==> Aborted(b, r)
  {
    hide Restored, Refused, SecretsApart, ClientRules, SetRules, TransportRules, ConnectionRules, TaskRules, RepoRules,
         FileTaskRules, ReplicationRules, CredentialRules, UrlRules, ItemRules;
    var p, f, m := b.payload, b.faults, MapsOf(r0);
    r := r0;
    VaultSecretsApart(m, b.uuid, f);
    var credentials;
    ok, credentials := RestoreTable(CredentialRules(m, b.uuid, f), b.uuid, p.credentials, b.start.credentials,
                                    b.start.blobs, r.replications.next);
    if !ok {
      assert StepAborts(b, r, 8);
      return;
    }
    r := r.(credentials := credentials);
    SecretFreeTables(m, map[], credentials.ids, map[], f);
    var urls;
    ok, urls := RestoreTable(UrlRules(m, credentials.ids, f), b.uuid, p.urls, b.start.urls, map[], credentials.next);
    if !ok {
      assert StepAborts(b, r, 9);
      return;
    }
    r := r.(urls := urls);
    var items;
    ok, items := RestoreTable(ItemRules(m, b.uuid, f), b.uuid, p.items, b.start.items, b.start.bodies, urls.next);
    if !ok {
      assert StepAborts(b, r, 10);
      return;
    }
    r := r.(items := items);
  }
}

/**
 The operational state that a disaster-recovery backup carries (exportVault.ts and the tables
 behind it): its rows, its secrets, its key files, and the payload they are exported to.
 Rows are kept in maps by id; references to secrets are terms, one constructor for each of the
 string templates of the source.
 */
module RecoveryModel {
  import opened Common
  import opened JsonValues
  import opened RestoreLoop

  type Path = string

  datatype Content = ResticRepo | DbDumps

  datatype Ref =
    | TransportPassphrase(uuid: Id)
    | TransportPassword(uuid: Id)
    | ConnectionPassword(uuid: Id)
    | TaskDumpPassword(uuid: Id)
    | RepoPassword(client: Id)
    | ReplicationConfig(client: Id, content: Content)
    | ReplicationCrypt(client: Id, content: Content)
    | CredentialBlobRef(uuid: Id)
    | ItemBlobRef(uuid: Id)
    | OtherRef(text: string)

  datatype Retention = Retention(count: Option<int>, days: Option<int>)

  datatype Client = Client(name: string, description: Option<string>, localBasePath: string, retention: Retention,
                           isActive: bool)

  datatype BackupSet = BackupSet(clientId: Id, name: string, isActive: bool)

  datatype TransportKind = Sftp | Ssh | Ftp

  datatype Transport = Transport(clientId: Id, name: string, kind: TransportKind, host: string, port: int,
                                 username: string, keyPath: Option<Path>, passphraseRef: Option<Ref>,
                                   passwordRef: Option<Ref>, knownHost: Option<string>, isActive: bool)

  datatype Engine = Postgres | Mysql | Mariadb | UnknownEngine

  datatype Connection = Connection(clientId: Id, name: string, engine: Engine, host: string, port: int,
                                   databaseName: string, username: string, passwordRef: Option<Ref>,
                                     sslMode: Option<string>, isActive: bool)

  datatype Frequency = Daily | Weekly | Monthly

  datatype Schedule = Schedule(time: Option<string>, enabled: bool, frequency: Frequency,
                               daysOfWeek: Option<seq<int>>, dayOfMonth: Option<int>)

  datatype Strategy =
    | FetchExisting(transportId: Option<Id>, remotePath: Option<string>, pattern: Option<string>)
    | RemoteDump(transportId: Option<Id>, command: Option<string>, outputTemplate: Option<string>, cleanup: bool,
                 docker: bool, container: Option<string>, database: Option<string>, dbUser: Option<string>,
                   passwordRef: Option<Ref>)
    | DirectDump(connectionId: Option<Id>)

  datatype Task = Task(clientId: Id, name: string, engine: Engine, strategy: Strategy, schedule: Schedule,
                       retention: Retention, isActive: bool, backupSetId: Option<Id>)

  /** `initialized` stands for a non-null initialization date; the date itself is set anew on restore. */
  datatype FileRepo = FileRepo(clientId: Id, repoPath: string, passwordRef: Ref, initialized: bool,
                               resticRepoId: Option<string>)

  datatype FileSource = LocalFolder(path: Option<string>)
    | RemoteFolder(transportId: Option<Id>, remotePath: Option<string>)

  datatype FileTask = FileTask(clientId: Id, repositoryId: Id, name: string, source: FileSource, schedule: Schedule,
                               retention: Retention, isActive: bool, backupSetId: Option<Id>)

  datatype Provider = RcloneDrive | RcloneSftp | RcloneFtp

  datatype Replication = Replication(clientId: Id, content: Content, provider: Provider, remotePath: string,
                                     configRef: Option<Ref>, transportId: Option<Id>, encrypted: bool,
                                       cryptRef: Option<Ref>, hostKey: Option<(string, string)>, enabled: bool)

  /** The credential's own descriptive fields, which are copied one to one. */
  datatype CredentialInfo = CredentialInfo(name: string, kind: CredentialKind, environment: Option<string>,
                                           tags: seq<string>, host: Option<string>, port: Option<int>,
                                             username: Option<string>, databaseName: Option<string>,
                                               url: Option<string>, favorite: bool, description: Option<string>)

  datatype CredentialKind = KindSsh | KindSftp | KindFtp | KindSshKey | KindPostgres | KindMysql | KindMariadb
    | KindOther(name: string)

  datatype SyncState = SyncNone | SyncPending | SyncOk | SyncError

  datatype Credential = Credential(clientId: Id, info: CredentialInfo, blobRef: Option<Ref>,
                                   linkedTransportId: Option<Id>, linkedConnectionId: Option<Id>, sync: SyncState)

  datatype UrlInfo = UrlInfo(name: string, url: string, environment: Option<string>, tags: seq<string>, favorite: bool,
                             description: Option<string>)

  datatype Url = Url(clientId: Id, info: UrlInfo, linkedCredentialId: Option<Id>)

  datatype ItemInfo = ItemInfo(kind: string, title: string, environment: Option<string>, tags: seq<string>,
                               favorite: bool, description: Option<string>, metadata: Json)

  datatype Item = Item(clientId: Id, info: ItemInfo, isSensitive: bool, bodyPlaintext: Option<string>,
                       bodyRef: Option<Ref>)

  /** Every table, both secret stores (machine-wide and vault), and the key directory. */
  datatype Install = Install(
    clients: map<Id, Client>,
    sets: map<Id, BackupSet>,
    transports: map<Id, Transport>,
    connections: map<Id, Connection>,
    tasks: map<Id, Task>,
    repos: map<Id, FileRepo>,
    fileTasks: map<Id, FileTask>,
    replications: map<Id, Replication>,
    credentials: map<Id, Credential>,
    urls: map<Id, Url>,
    items: map<Id, Item>,
    secrets: map<Ref, string>,
    blobs: map<Ref, Json>,
    bodies: map<Ref, string>,
    keyFiles: map<Path, Bytes>)

  /** Where the writing of one key file (temporary name, rename, hardening) may fail. */
  datatype KeyFault = NoFault | WriteFails | RenameFails | HardenFails

  datatype TransportSecrets = TransportSecrets(key: Option<Bytes>, passphrase: Option<string>, password: Option<string>)

  datatype ReplicationSecrets = ReplicationSecrets(config: Option<string>, crypt: Option<string>)

  /** The decrypted inner payload, version 2. */
  datatype Payload = Payload(
    clients: seq<Exported<Client, ()>>,
    sets: seq<Exported<BackupSet, ()>>,
    transports: seq<Exported<Transport, TransportSecrets>>,
    connections: seq<Exported<Connection, Option<string>>>,
    tasks: seq<Exported<Task, Option<string>>>,
    repos: seq<Exported<FileRepo, Option<string>>>,
    fileTasks: seq<Exported<FileTask, ()>>,
    replications: seq<Exported<Replication, ReplicationSecrets>>,
    credentials: seq<Exported<Credential, Json>>,
    urls: seq<Exported<Url, ()>>,
    items: seq<Exported<Item, Option<string>>>)

  /** `ref ? store.get(ref) : null`. */
  function SecretAt<V>(store: map<Ref, V>, ref: Option<Ref>): Option<V> {
    if ref.Some? && ref.value in store then Some(store[ref.value]) else None
  }

  /** A value that the source's truthiness tests accept: present and not empty. */
  predicate Present(s: Option<string>) {
    s.Some? && s.value != ""
  }

  function At(m: map<Id, Id>, id: Id): Id {
    if id in m then m[id] else Id("")
  }

  /** `id ? map.get(id) : undefined`. */
  function Mapped(m: map<Id, Id>, id: Option<Id>): Option<Id> {
    if id.Some? && id.value in m then Some(m[id.value]) else None
  }

  predicate Keyed(k: TransportKind) {
    k.Sftp? || k.Ssh?
  }

  // What the repositories refuse.

  predicate Digit(c: char) { '0' <= c <= '9' }

  /** 24-hour "HH:MM". */
  predicate ValidTime(t: string) {
    && |t| == 5 && t[2] == ':' && Digit(t[1]) && Digit(t[4]) && '0' <= t[3] <= '5'
    && (t[0] == '0' || t[0] == '1' || (t[0] == '2' && t[1] <= '3'))
  }

  /** `setSchedule` accepts it. */
  predicate ValidSchedule(s: Schedule) {
    && (s.time.Some? ==> ValidTime(s.time.value))
    && (s.frequency.Weekly? ==>
        s.daysOfWeek.Some? && |s.daysOfWeek.value| > 0 && forall i :: 0 <= i < |s.daysOfWeek.value| ==>
          0 <= s.daysOfWeek.value[i] <= 6)
    && (s.frequency.Monthly? ==> s.dayOfMonth.Some? && 1 <= s.dayOfMonth.value <= 31)
  }

  /** What `setSchedule` stores: only the detail of the frequency. */
  function StoredSchedule(s: Schedule): Schedule {
    s.(daysOfWeek := if s.frequency.Weekly? then s.daysOfWeek else None,
       dayOfMonth := if s.frequency.Monthly? then s.dayOfMonth else None)
  }

  /** The column defaults of a task that never had a schedule. */
  const NO_SCHEDULE := Schedule(None, true, Daily, None, None)

  /** A schedule is restored only when it has a time. */
  function RestoredSchedule(s: Schedule): Schedule {
    if Present(s.time) then StoredSchedule(s) else NO_SCHEDULE
  }

  predicate RestorableSchedule(s: Schedule) {
    Present(s.time) ==> ValidSchedule(s)
  }

  /** The create calls of `tasksRepo` accept the task. */
  predicate AcceptableTask(transports: map<Id, Transport>, connections: map<Id, Connection>, t: Task) {
    match t.strategy
    case FetchExisting(tid, _, _) => tid.Some? && tid.value in transports && !transports[tid.value].kind.Ssh?
    case RemoteDump(tid, command, _, _, docker, container, database, user, _) =>
      && tid.Some? && tid.value in transports && transports[tid.value].kind.Ssh?
      && (if docker then Present(container) && Present(database) && Present(user) && !t.engine.UnknownEngine?
          else Present(command))
    case DirectDump(cid) => cid.Some? && cid.value in connections
  }

  predicate AbsoluteWindowsPath(p: string) {
    |p| >= 3 && ('A' <= p[0] <= 'Z' || 'a' <= p[0] <= 'z') && p[1] == ':' && p[2] == '\\'
  }

  /** What `trim` takes away: the white space and line ends of ECMAScript (ECMA-262, sections 12.2 and 12.3). */
  predicate WhiteSpace(c: char) {
    var n := c as int;
    || 9 <= n <= 13 || n == 0x20 || n == 0xA0 || n == 0x1680 || 0x2000 <= n <= 0x200A || n == 0x2028 || n == 0x2029
    || n == 0x202F || n == 0x205F || n == 0x3000 || n == 0xFEFF
  }

  predicate Blank(s: string) {
    forall i :: 0 <= i < |s| ==> WhiteSpace(s[i])
  }

  predicate AcceptableSource(transports: map<Id, Transport>, s: FileSource) {
    match s
    case LocalFolder(path) => AbsoluteWindowsPath(path.GetOr(""))
    case RemoteFolder(tid, path) =>
      tid.Some? && tid.value in transports && !transports[tid.value].kind.Ssh? && !Blank(path.GetOr(""))
  }

  /** The kind of link `linkTargetForKind` allows. */
  predicate LinksTransport(k: CredentialKind) { k.KindSsh? || k.KindSftp? || k.KindFtp? || k.KindSshKey? }
  predicate LinksConnection(k: CredentialKind) { k.KindPostgres? || k.KindMysql? || k.KindMariadb? }

  /** `setLink` accepts it: one link at most, and of the credential's kind. */
  predicate AcceptableLink(c: Credential) {
    && !(c.linkedTransportId.Some? && c.linkedConnectionId.Some?)
    && (c.linkedTransportId.Some? ==> LinksTransport(c.info.kind))
    && (c.linkedConnectionId.Some? ==> LinksConnection(c.info.kind))
  }
}

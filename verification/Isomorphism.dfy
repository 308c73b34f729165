/**
 The main theorem on disaster recovery (exportVault.ts): importing an export into an empty
 installation never fails, and gives the source back under an injective renaming of ids.
 `Isomorphic` compares two installations directly and does not mention how either was made.
 */
module Isomorphism {
  import opened Common
  import opened JsonValues
  import opened RestoreLoop
  import opened RecoveryModel
  import opened Import
  import opened Export
  import opened RoundTrip
  import CredentialBlob

  /** Old id -> new id, for each table. */
  datatype Renaming = Renaming(
    clients: map<Id, Id>, sets: map<Id, Id>, transports: map<Id, Id>, connections: map<Id, Id>, tasks: map<Id, Id>,
      repos: map<Id, Id>, fileTasks: map<Id, Id>, replications: map<Id, Id>, credentials: map<Id, Id>,
        urls: map<Id, Id>, items: map<Id, Id>)

  /** `m` is a bijection between the ids of the two tables. */
  ghost predicate Renames<R>(m: map<Id, Id>, a: map<Id, R>, b: map<Id, R>) {
    && m.Keys == a.Keys && m.Values == b.Keys
    && forall x, y :: x in m && y in m && m[x] == m[y] ==> x == y
  }

  function KeyAt(s: Install, path: Option<Path>): Option<Bytes> {
    if path.Some? && path.value in s.keyFiles then Some(s.keyFiles[path.value]) else None
  }

  // Corresponding rows: equal but for ids, references and paths; what they refer to is equal.

  predicate ClientMatches(a: Client, b: Client) {
    b == a.(isActive := true)
  }

  predicate SetMatches(m: Renaming, a: BackupSet, b: BackupSet) {
    b == a.(clientId := At(m.clients, a.clientId))
  }

  predicate TransportMatches(s: Install, t: Install, m: Renaming, a: Transport, b: Transport) {
    && b == a.(clientId := At(m.clients, a.clientId), keyPath := b.keyPath, passphraseRef := b.passphraseRef,
               passwordRef := b.passwordRef)
    && KeyAt(t, b.keyPath) == KeyAt(s, a.keyPath)
    && SecretAt(t.secrets, b.passphraseRef) == SecretAt(s.secrets, a.passphraseRef)
    && SecretAt(t.secrets, b.passwordRef) == SecretAt(s.secrets, a.passwordRef)
  }

  predicate ConnectionMatches(s: Install, t: Install, m: Renaming, a: Connection, b: Connection) {
    && b == a.(clientId := At(m.clients, a.clientId), passwordRef := b.passwordRef)
    && SecretAt(t.secrets, b.passwordRef) == SecretAt(s.secrets, a.passwordRef)
  }

  predicate StrategyMatches(s: Install, t: Install, m: Renaming, a: Strategy, b: Strategy) {
    match a
    case FetchExisting(tid, path, pattern) => b == FetchExisting(Mapped(m.transports, tid), path, pattern)
    case RemoteDump(tid, command, template, cleanup, docker, container, database, user, ref) =>
      && b.RemoteDump?
      && b == RemoteDump(Mapped(m.transports, tid), command, template, cleanup, docker, container, database, user,
                         b.passwordRef)
      && SecretAt(t.secrets, b.passwordRef) == SecretAt(s.secrets, ref)
    case DirectDump(cid) => b == DirectDump(Mapped(m.connections, cid))
  }

  /** A schedule without a time is not restored. */
  function Carries(a: Schedule): Schedule {
    if Present(a.time) then a else NO_SCHEDULE
  }

  predicate TaskMatches(s: Install, t: Install, m: Renaming, a: Task, b: Task) {
    && b == a.(clientId := At(m.clients, a.clientId), strategy := b.strategy, schedule := Carries(a.schedule),
               backupSetId := Mapped(m.sets, a.backupSetId))
    && StrategyMatches(s, t, m, a.strategy, b.strategy)
  }

  predicate RepoMatches(s: Install, t: Install, m: Renaming, a: FileRepo, b: FileRepo) {
    && b == a.(clientId := At(m.clients, a.clientId), passwordRef := b.passwordRef)
    && SecretAt(t.secrets, Some(b.passwordRef)) == SecretAt(s.secrets, Some(a.passwordRef))
  }

  predicate FileTaskMatches(m: Renaming, a: FileTask, b: FileTask) {
    b == a.(clientId := At(m.clients, a.clientId), repositoryId := At(m.repos, a.repositoryId),
            schedule := Carries(a.schedule), source := if a.source.LocalFolder? then a.source
                      else RemoteFolder(Mapped(m.transports, a.source.transportId), a.source.remotePath),
            backupSetId := Mapped(m.sets, a.backupSetId))
  }

  predicate ReplicationMatches(s: Install, t: Install, m: Renaming, a: Replication, b: Replication) {
    && b == a.(clientId := At(m.clients, a.clientId), configRef := b.configRef,
               transportId := Mapped(m.transports, a.transportId), cryptRef := b.cryptRef)
    && SecretAt(t.secrets, b.configRef) == SecretAt(s.secrets, a.configRef)
    && SecretAt(t.secrets, b.cryptRef) == SecretAt(s.secrets, a.cryptRef)
  }

  /** The operational sync state is set anew. */
  predicate CredentialMatches(s: Install, t: Install, m: Renaming, a: Credential, b: Credential) {
    && b == a.(clientId := At(m.clients, a.clientId), blobRef := b.blobRef, sync := b.sync,
               linkedTransportId := Mapped(m.transports, a.linkedTransportId),
                 linkedConnectionId := Mapped(m.connections, a.linkedConnectionId))
    && CredentialBlob.Read(SecretAt(t.blobs, b.blobRef)) == CredentialBlob.Read(SecretAt(s.blobs, a.blobRef))
  }

  predicate UrlMatches(m: Renaming, a: Url, b: Url) {
    b == a.(clientId := At(m.clients, a.clientId), linkedCredentialId := Mapped(m.credentials, a.linkedCredentialId))
  }

  predicate ItemMatches(s: Install, t: Install, m: Renaming, a: Item, b: Item) {
    && b == a.(clientId := At(m.clients, a.clientId), bodyRef := b.bodyRef)
    && SecretAt(t.bodies, b.bodyRef) == SecretAt(s.bodies, a.bodyRef)
  }

  ghost predicate MatchesAll<R(!new)>(m: map<Id, Id>, a: map<Id, R>, b: map<Id, R>, matches: (R, R) -> bool) {
    Renames(m, a, b) && forall i :: i in a ==> i in m && m[i] in b && matches(a[i], b[m[i]])
  }

  /** The two installations are the same under the renaming. */
  ghost predicate Isomorphic(s: Install, t: Install, m: Renaming) {
    && MatchesAll(m.clients, s.clients, t.clients, ClientMatches)
    && MatchesAll(m.sets, s.sets, t.sets, (a, b) => SetMatches(m, a, b))
    && MatchesAll(m.transports, s.transports, t.transports, (a, b) => TransportMatches(s, t, m, a, b))
    && MatchesAll(m.connections, s.connections, t.connections, (a, b) => ConnectionMatches(s, t, m, a, b))
    && MatchesAll(m.tasks, s.tasks, t.tasks, (a, b) => TaskMatches(s, t, m, a, b))
    && MatchesAll(m.repos, s.repos, t.repos, (a, b) => RepoMatches(s, t, m, a, b))
    && MatchesAll(m.fileTasks, s.fileTasks, t.fileTasks, (a, b) => FileTaskMatches(m, a, b))
    && MatchesAll(m.replications, s.replications, t.replications, (a, b) => ReplicationMatches(s, t, m, a, b))
    && MatchesAll(m.credentials, s.credentials, t.credentials, (a, b) => CredentialMatches(s, t, m, a, b))
    && MatchesAll(m.urls, s.urls, t.urls, (a, b) => UrlMatches(m, a, b))
    && MatchesAll(m.items, s.items, t.items, (a, b) => ItemMatches(s, t, m, a, b))
  }

  // What an import makes.

  function Names(r: Rebuilt): Renaming {
    Renaming(r.clients.ids, r.sets.ids, r.transports.ids, r.connections.ids, r.tasks.ids, r.repos.ids,
             r.fileTasks.ids, r.replications.ids, r.credentials.ids, r.urls.ids, r.items.ids)
  }

  /** The installation after all steps. */
  function Rebuild(b: Job, r: Rebuilt): Install {
    Install(r.clients.after, r.sets.after, r.transports.after, r.connections.after, r.tasks.after, r.repos.after,
            r.fileTasks.after, r.replications.after, r.credentials.after, r.urls.after, r.items.after,
            r.replications.store, r.credentials.store, r.items.store, b.start.keyFiles)
  }

  // Later steps leave the secrets of earlier ones alone.

  /** The step that writes a reference. */
  function Stage(r: Ref): nat {
    match r
    case TransportPassphrase(_) => 2
    case TransportPassword(_) => 2
    case ConnectionPassword(_) => 3
    case TaskDumpPassword(_) => 4
    case RepoPassword(_) => 5
    case ReplicationConfig(_, _) => 7
    case ReplicationCrypt(_, _) => 7
    case _ => 8
  }

  ghost predicate WritesOnly<R(!new), S(!new)>(rules: Rules<R, S, Ref, string>, stage: nat) {
    forall x, n, r :: r in rules.secrets(x, n) ==> Stage(r) == stage
  }

  /** What was written before step `stage` is still there. */
  ghost predicate Carried(a: map<Ref, string>, b: map<Ref, string>, stage: nat) {
    forall r :: r in a && Stage(r) < stage ==> r in b && b[r] == a[r]
  }

  lemma StepCarries<R(!new), S(!new)>(rules: Rules<R, S, Ref, string>, rows: seq<Exported<R, S>>,
                                      old_: map<Ref, string>, new_: map<Ref, string>, made: map<nat, nat>, first: nat,
                                        next: nat, stage: nat)
    requires SecretsStored(rules, rows, old_, new_, made, first, next) && WritesOnly(rules, stage)
    ensures Carried(old_, new_, stage)
  {
  }

  lemma ConnectionsHaveTheirReferences(b: Job, r: Rebuilt)
    ensures WritesOnly(ConnectionRules(r.clients.ids, b.uuid, b.faults), 3)
  {
    hide ConnectionImage;
    var rules := ConnectionRules(r.clients.ids, b.uuid, b.faults);
    forall x: Exported<Connection, Option<string>>, n, ref | ref in rules.secrets(x, n) ensures Stage(ref) == 3 {
      assert rules.secrets(x, n) == Stored(ConnectionPassword(b.uuid(n)), NonEmpty(x.extra));
    }
  }

  lemma TasksHaveTheirReferences(b: Job, r: Rebuilt)
    ensures WritesOnly(TaskRules(MapsOf(r), r.transports.after, r.connections.after, b.uuid, b.faults), 4)
  {
    hide TaskImage, LinkRestored, AcceptableTask, RestorableSchedule;
    var rules := TaskRules(MapsOf(r), r.transports.after, r.connections.after, b.uuid, b.faults);
    forall x: Exported<Task, Option<string>>, n, ref | ref in rules.secrets(x, n) ensures Stage(ref) == 4 {
      assert rules.secrets(x, n) == if x.row.strategy.RemoteDump?
             then Stored(TaskDumpPassword(b.uuid(n)), NonEmpty(x.extra)) else map[];
    }
  }

  lemma ReposHaveTheirReferences(b: Job, r: Rebuilt)
    ensures WritesOnly(RepoRules(r.clients.ids, b.faults), 5)
  {
    hide RepoImage, RepoTaken;
    var rules := RepoRules(r.clients.ids, b.faults);
    forall x: Exported<FileRepo, Option<string>>, n, ref | ref in rules.secrets(x, n) ensures Stage(ref) == 5 {
      assert rules.secrets(x, n) == Stored(RepoPassword(At(r.clients.ids, x.row.clientId)), x.extra);
    }
  }

  lemma FileTasksHaveNoReferences(b: Job, r: Rebuilt)
    ensures WritesOnly(FileTaskRules(MapsOf(r), r.repos.ids, r.transports.after, b.faults), 6)
  {
    hide FileTaskImage, AcceptableSource, RestorableSchedule;
    var rules := FileTaskRules(MapsOf(r), r.repos.ids, r.transports.after, b.faults);
    forall x: Exported<FileTask, ()>, n ensures rules.secrets(x, n) == map[] {}
  }

  lemma ReplicationsHaveTheirReferences(b: Job, r: Rebuilt)
    ensures WritesOnly(ReplicationRules(MapsOf(r), b.faults), 7)
  {
    hide ReplicationStore, ReplicationImage, ReplicationTaken;
    var rules := ReplicationRules(MapsOf(r), b.faults);
    forall x: Exported<Replication, ReplicationSecrets>, n, ref | ref in rules.secrets(x, n) ensures Stage(ref) == 7 {
      assert rules.secrets(x, n) == ReplicationStore(MapsOf(r), x);
      ReplicationRefs(MapsOf(r), x, ref);
    }
  }

  ghost predicate AllCarried(r: Rebuilt) {
    && Carried(r.transports.store, r.replications.store, 3)
    && Carried(r.connections.store, r.replications.store, 4)
    && Carried(r.tasks.store, r.replications.store, 5)
    && Carried(r.repos.store, r.replications.store, 6)
  }

  lemma EarlySecretsAreCarried(b: Job, r: Rebuilt)
    requires ConnectionsDone(b, r) && TasksDone(b, r) && ReposDone(b, r)
    ensures Carried(r.transports.store, r.connections.store, 3) && Carried(r.connections.store, r.tasks.store, 4)
         && Carried(r.tasks.store, r.repos.store, 5)
  {
    hide DrawsDistinct, RefusalsExplained, RowsAdded, IdsMapped, SecretsStored, AcceptedInTurn, WritesOnly, Carried,
         ConnectionRules, TaskRules, RepoRules;
    var p, f, m := b.payload, b.faults, MapsOf(r);
    ConnectionsHaveTheirReferences(b, r);
    TasksHaveTheirReferences(b, r);
    ReposHaveTheirReferences(b, r);
    StepCarries(ConnectionRules(r.clients.ids, b.uuid, f), p.connections, r.transports.store, r.connections.store,
                r.connections.made, r.transports.next, r.connections.next, 3);
    StepCarries(TaskRules(m, r.transports.after, r.connections.after, b.uuid, f), p.tasks, r.connections.store,
                r.tasks.store, r.tasks.made, r.connections.next, r.tasks.next, 4);
    StepCarries(RepoRules(r.clients.ids, f), p.repos, r.tasks.store, r.repos.store, r.repos.made, r.tasks.next,
                r.repos.next, 5);
  }

  lemma LateSecretsAreCarried(b: Job, r: Rebuilt)
    requires FileTasksDone(b, r) && ReplicationsDone(b, r)
    ensures Carried(r.repos.store, r.fileTasks.store, 6) && Carried(r.fileTasks.store, r.replications.store, 7)
  {
    hide DrawsDistinct, RefusalsExplained, RowsAdded, IdsMapped, SecretsStored, AcceptedInTurn, WritesOnly, Carried,
         FileTaskRules, ReplicationRules;
    var p, f, m := b.payload, b.faults, MapsOf(r);
    FileTasksHaveNoReferences(b, r);
    ReplicationsHaveTheirReferences(b, r);
    StepCarries(FileTaskRules(m, r.repos.ids, r.transports.after, f), p.fileTasks, r.repos.store, r.fileTasks.store,
                r.fileTasks.made, r.repos.next, r.fileTasks.next, 6);
    StepCarries(ReplicationRules(m, f), p.replications, r.fileTasks.store, r.replications.store,
                r.replications.made, r.fileTasks.next, r.replications.next, 7);
  }

  lemma SecretsAreCarried(b: Job, r: Rebuilt)
    requires Done(b, r, 8)
    ensures AllCarried(r)
  {
    hide ConnectionsDone, TasksDone, ReposDone, FileTasksDone, ReplicationsDone, ClientsDone, SetsDone, TransportsDone;
    EarlySecretsAreCarried(b, r);
    LateSecretsAreCarried(b, r);
    hide Done;
  }

  // Row by row: the image of an entry matches its source row.

  lemma BijectionRenames<R, V>(table: map<Id, R>, o: Outcome<R, Ref, V>)
    requires Bijection(table, o)
    ensures Renames(o.ids, table, o.after)
  {
  }

  lemma ClientsMatch(s: Install, b: Job, r: Rebuilt)
    requires ClientsRebuilt(s, b, r)
    ensures MatchesAll(r.clients.ids, s.clients, r.clients.after, ClientMatches)
  {
    hide Bijection;
    BijectionRenames(s.clients, r.clients);
    forall i | i in s.clients
      ensures i in r.clients.ids && r.clients.ids[i] in r.clients.after
              && ClientMatches(s.clients[i], r.clients.after[r.clients.ids[i]])
    {
      var n: nat :| RowRebuilt(ClientRules(b.faults), Entry(s.clients, Nothing(), i), r.clients, n);
    }
  }

  lemma SetsMatch(s: Install, b: Job, r: Rebuilt)
    requires SetsRebuilt(s, b, r)
    ensures MatchesAll(r.sets.ids, s.sets, r.sets.after, (x, y) => SetMatches(Names(r), x, y))
  {
    hide Bijection;
    BijectionRenames(s.sets, r.sets);
    forall i | i in s.sets
      ensures i in r.sets.ids && r.sets.ids[i] in r.sets.after
              && SetMatches(Names(r), s.sets[i], r.sets.after[r.sets.ids[i]])
    {
      var n: nat :| RowRebuilt(SetRules(r.clients.ids, b.faults), Entry(s.sets, Nothing(), i), r.sets, n);
    }
  }

  ghost predicate SourceTransport(s: Install, b: Job, i: Id) {
    && i in s.transports && SoundTransport(s, s.transports[i])
    && Held(s, s.transports[i].passphraseRef) && Held(s, s.transports[i].passwordRef)
    && (Keyed(s.transports[i].kind) ==>
          s.transports[i].keyPath.Some? && s.transports[i].keyPath.value in s.keyFiles
          && i in b.keys && b.keys[i] in b.start.keyFiles
            && b.start.keyFiles[b.keys[i]] == s.keyFiles[s.transports[i].keyPath.value])
  }

  lemma TransportsOfSource(s: Install, b: Job, i: Id)
    requires Setting(s, b) && i in s.transports
    ensures SourceTransport(s, b, i)
  {
    hide SoundTasks, SoundVault, FreshUuids, Lists, KeysWritten, NoFaults, SoundTransport, Held;
    KeysHeld(s, b.payload.transports, b.keys, b.start.keyFiles);
  }

  /** Passphrase and password of a rebuilt transport, under their new references. */
  lemma TransportSecretsFound(b: Job, r: Rebuilt, x: Exported<Transport, TransportSecrets>, n: nat)
    requires Carried(r.transports.store, r.replications.store, 3)
    requires RowRebuilt(TransportRules(r.clients.ids, b.keys, b.uuid, b.faults), x, r.transports, n)
    ensures Present(x.extra.passphrase) ==>
            SecretAt(r.replications.store, Some(TransportPassphrase(b.uuid(n)))) == x.extra.passphrase
    ensures Present(x.extra.password) ==>
            SecretAt(r.replications.store, Some(TransportPassword(b.uuid(n)))) == x.extra.password
  {
    hide TransportImage;
    var stored := Stored(TransportPassphrase(b.uuid(n)), NonEmpty(x.extra.passphrase))
      + Stored(TransportPassword(b.uuid(n)), NonEmpty(x.extra.password));
    assert TransportRules(r.clients.ids, b.keys, b.uuid, b.faults).secrets(x, n) == stored;
  }

  lemma TransportMatchesImage(s: Install, b: Job, r: Rebuilt, i: Id, n: nat)
    requires SourceTransport(s, b, i)
    requires Carried(r.transports.store, r.replications.store, 3)
    requires RowRebuilt(TransportRules(r.clients.ids, b.keys, b.uuid, b.faults),
                        Entry(s.transports, TransportBeside(s), i), r.transports, n)
    ensures TransportMatches(s, Rebuild(b, r), Names(r), s.transports[i], r.transports.after[r.transports.ids[i]])
  {
    var x := Entry(s.transports, TransportBeside(s), i);
    TransportSecretsFound(b, r, x, n);
    assert r.transports.after[r.transports.ids[i]] == TransportImage(r.clients.ids, b.keys, b.uuid, x, n);
    hide Carried, RowRebuilt, TransportRules;
  }

  lemma TransportsMatch(s: Install, b: Job, r: Rebuilt)
    requires Setting(s, b) && TransportsRebuilt(s, b, r) && AllCarried(r)
    ensures MatchesAll(r.transports.ids, s.transports, r.transports.after,
                       (x, y) => TransportMatches(s, Rebuild(b, r), Names(r), x, y))
  {
    hide Setting, Bijection, RowRebuilt, TransportMatches, SourceTransport, Carried;
    BijectionRenames(s.transports, r.transports);
    forall i | i in s.transports
      ensures i in r.transports.ids && r.transports.ids[i] in r.transports.after
           && TransportMatches(s, Rebuild(b, r), Names(r), s.transports[i], r.transports.after[r.transports.ids[i]])
    {
      var n: nat :| RowRebuilt(TransportRules(r.clients.ids, b.keys, b.uuid, b.faults),
                               Entry(s.transports, TransportBeside(s), i), r.transports, n);
      TransportsOfSource(s, b, i);
      TransportMatchesImage(s, b, r, i, n);
    }
  }

  lemma ConnectionMatchesImage(s: Install, b: Job, r: Rebuilt, i: Id, n: nat)
    requires i in s.connections && Held(s, s.connections[i].passwordRef)
    requires Carried(r.connections.store, r.replications.store, 4)
    requires RowRebuilt(ConnectionRules(r.clients.ids, b.uuid, b.faults), Entry(s.connections, ConnectionBeside(s), i),
                        r.connections, n)
    ensures ConnectionMatches(s, Rebuild(b, r), Names(r), s.connections[i], r.connections.after[r.connections.ids[i]])
  {
    var x := Entry(s.connections, ConnectionBeside(s), i);
    var y := r.connections.after[r.connections.ids[i]];
    assert y == ConnectionImage(r.clients.ids, b.uuid, x, n);
    assert ConnectionRules(r.clients.ids, b.uuid, b.faults).secrets(x, n)
           == Stored(ConnectionPassword(b.uuid(n)), NonEmpty(x.extra));
    assert y.passwordRef.Some? ==> SecretAt(r.replications.store, y.passwordRef) == x.extra;
  }

  lemma ConnectionsMatch(s: Install, b: Job, r: Rebuilt)
    requires Setting(s, b) && ConnectionsRebuilt(s, b, r) && AllCarried(r)
    ensures MatchesAll(r.connections.ids, s.connections, r.connections.after,
                       (x, y) => ConnectionMatches(s, Rebuild(b, r), Names(r), x, y))
  {
    hide SoundConnections, SoundTasks, SoundVault, Exports, Held, FreshUuids, NoFaults, KeysWritten, Bijection,
         RowRebuilt, ConnectionMatches, Carried;
    BijectionRenames(s.connections, r.connections);
    forall i | i in s.connections
      ensures i in r.connections.ids && r.connections.ids[i] in r.connections.after
           && ConnectionMatches(s, Rebuild(b, r), Names(r), s.connections[i], r.connections.after[r.connections.ids[i]])
    {
      var n: nat :| RowRebuilt(ConnectionRules(r.clients.ids, b.uuid, b.faults),
                               Entry(s.connections, ConnectionBeside(s), i), r.connections, n);
      ConnectionMatchesImage(s, b, r, i, n);
    }
  }

  ghost predicate SourceTask(s: Install, i: Id) {
    i in s.tasks && SoundTask(s, s.tasks[i])
      && (s.tasks[i].strategy.RemoteDump? ==> Held(s, s.tasks[i].strategy.passwordRef))
  }

  /** The password of a dump task, under its new reference. */
  lemma TaskSecretFound(b: Job, r: Rebuilt, x: Exported<Task, Option<string>>, n: nat)
    requires Carried(r.tasks.store, r.replications.store, 5)
    requires RowRebuilt(TaskRules(MapsOf(r), r.transports.after, r.connections.after, b.uuid, b.faults), x, r.tasks, n)
    requires x.row.strategy.RemoteDump? && Present(x.extra)
    ensures SecretAt(r.replications.store, Some(TaskDumpPassword(b.uuid(n)))) == x.extra
  {
    hide TaskImage, LinkRestored, AcceptableTask, RestorableSchedule;
    var rules := TaskRules(MapsOf(r), r.transports.after, r.connections.after, b.uuid, b.faults);
    assert rules.secrets(x, n) == Stored(TaskDumpPassword(b.uuid(n)), NonEmpty(x.extra));
  }

  lemma TaskImageMatches(s: Install, t: Install, m: Maps, names: Renaming, uuid: Uuids,
                         x: Exported<Task, Option<string>>, n: nat)
    requires SoundTask(s, x.row) && x.extra == TaskExtra(s, x.row)
    requires names.clients == m.clients && names.sets == m.sets && names.transports == m.transports
             && names.connections == m.connections
    requires x.row.strategy.RemoteDump? ==> Held(s, x.row.strategy.passwordRef)
    requires x.row.strategy.RemoteDump? && Present(x.extra) ==>
             SecretAt(t.secrets, Some(TaskDumpPassword(uuid(n)))) == x.extra
    ensures TaskMatches(s, t, names, x.row, TaskImage(m, uuid, x, n))
  {
    hide AcceptableTask, ValidSchedule;
  }

  lemma TaskMatchesImage(s: Install, b: Job, r: Rebuilt, i: Id, n: nat)
    requires SourceTask(s, i)
    requires Carried(r.tasks.store, r.replications.store, 5)
    requires RowRebuilt(TaskRules(MapsOf(r), r.transports.after, r.connections.after, b.uuid, b.faults),
                        Entry(s.tasks, TaskBeside(s), i), r.tasks, n)
    ensures TaskMatches(s, Rebuild(b, r), Names(r), s.tasks[i], r.tasks.after[r.tasks.ids[i]])
  {
    hide SoundTask, Held, TaskImage, TaskMatches, Carried, SecretAt;
    var x := Entry(s.tasks, TaskBeside(s), i);
    if x.row.strategy.RemoteDump? && Present(x.extra) { TaskSecretFound(b, r, x, n); }
    TaskImageMatches(s, Rebuild(b, r), MapsOf(r), Names(r), b.uuid, x, n);
    assert r.tasks.after[r.tasks.ids[i]] == TaskImage(MapsOf(r), b.uuid, x, n);
  }

  lemma TasksMatch(s: Install, b: Job, r: Rebuilt)
    requires Setting(s, b) && TasksRebuilt(s, b, r) && AllCarried(r)
    ensures MatchesAll(r.tasks.ids, s.tasks, r.tasks.after, (x, y) => TaskMatches(s, Rebuild(b, r), Names(r), x, y))
  {
    hide SoundConnections, SoundTask, SoundFileTask, SoundReplication, SameTarget, SoundVault, Exports, Held,
         FreshUuids, NoFaults, KeysWritten, Bijection, RowRebuilt, TaskMatches, Carried;
    BijectionRenames(s.tasks, r.tasks);
    forall i | i in s.tasks
      ensures i in r.tasks.ids && r.tasks.ids[i] in r.tasks.after
           && TaskMatches(s, Rebuild(b, r), Names(r), s.tasks[i], r.tasks.after[r.tasks.ids[i]])
    {
      var n: nat :| RowRebuilt(TaskRules(MapsOf(r), r.transports.after, r.connections.after, b.uuid, b.faults),
                               Entry(s.tasks, TaskBeside(s), i), r.tasks, n);
      TaskMatchesImage(s, b, r, i, n);
    }
  }

  lemma RepoMatchesImage(s: Install, b: Job, r: Rebuilt, i: Id, n: nat)
    requires i in s.repos && Held(s, Some(s.repos[i].passwordRef))
             && (!s.repos[i].initialized ==> s.repos[i].resticRepoId.None?)
    requires Carried(r.repos.store, r.replications.store, 6)
    requires RowRebuilt(RepoRules(r.clients.ids, b.faults), Entry(s.repos, FileRepoBeside(s), i), r.repos, n)
    ensures RepoMatches(s, Rebuild(b, r), Names(r), s.repos[i], r.repos.after[r.repos.ids[i]])
  {
    var x := Entry(s.repos, FileRepoBeside(s), i);
    var y := r.repos.after[r.repos.ids[i]];
    assert y == RepoImage(r.clients.ids, x.row);
    assert RepoRules(r.clients.ids, b.faults).secrets(x, n) == Stored(y.passwordRef, x.extra);
    assert SecretAt(r.replications.store, Some(y.passwordRef)) == x.extra;
  }

  lemma ReposOfSource(s: Install, i: Id)
    requires SoundTasks(s) && Complete(s) && i in s.repos
    ensures Held(s, Some(s.repos[i].passwordRef)) && (!s.repos[i].initialized ==> s.repos[i].resticRepoId.None?)
  {
    hide SoundTask, SoundFileTask, SoundReplication, SameTarget, Held;
  }

  lemma ReposMatch(s: Install, b: Job, r: Rebuilt)
    requires Setting(s, b) && ReposRebuilt(s, b, r) && AllCarried(r)
    ensures MatchesAll(r.repos.ids, s.repos, r.repos.after, (x, y) => RepoMatches(s, Rebuild(b, r), Names(r), x, y))
  {
    hide SoundConnections, SoundTasks, SoundVault, Complete, Exports, Held, FreshUuids, NoFaults, KeysWritten,
         Bijection, RowRebuilt, RepoMatches, Carried;
    BijectionRenames(s.repos, r.repos);
    forall i | i in s.repos
      ensures i in r.repos.ids && r.repos.ids[i] in r.repos.after
           && RepoMatches(s, Rebuild(b, r), Names(r), s.repos[i], r.repos.after[r.repos.ids[i]])
    {
      var n: nat :| RowRebuilt(RepoRules(r.clients.ids, b.faults), Entry(s.repos, FileRepoBeside(s), i), r.repos, n);
      ReposOfSource(s, i);
      RepoMatchesImage(s, b, r, i, n);
    }
  }

  lemma FileTaskMatchesImage(s: Install, m: Maps, names: Renaming, repos: map<Id, Id>, r: FileTask)
    requires SoundFileTask(s, r)
    requires names.clients == m.clients && names.sets == m.sets && names.transports == m.transports
             && names.repos == repos
    ensures FileTaskMatches(names, r, FileTaskImage(m, repos, r))
  {
    hide AcceptableSource, ValidSchedule, HasRepo;
  }

  lemma FileTasksMatch(s: Install, b: Job, r: Rebuilt)
    requires Setting(s, b) && FileTasksRebuilt(s, b, r)
    ensures MatchesAll(r.fileTasks.ids, s.fileTasks, r.fileTasks.after, (x, y) => FileTaskMatches(Names(r), x, y))
  {
    hide SoundConnections, SoundTask, SoundFileTask, SoundReplication, SameTarget, SoundVault, Exports, Complete,
         FreshUuids, NoFaults, KeysWritten, Bijection, FileTaskMatches, FileTaskImage;
    BijectionRenames(s.fileTasks, r.fileTasks);
    forall i | i in s.fileTasks
      ensures i in r.fileTasks.ids && r.fileTasks.ids[i] in r.fileTasks.after
           && FileTaskMatches(Names(r), s.fileTasks[i], r.fileTasks.after[r.fileTasks.ids[i]])
    {
      var rules := FileTaskRules(MapsOf(r), r.repos.ids, r.transports.after, b.faults);
      var n: nat :| RowRebuilt(rules, Entry(s.fileTasks, Nothing(), i), r.fileTasks, n);
      FileTaskMatchesImage(s, MapsOf(r), Names(r), r.repos.ids, s.fileTasks[i]);
    }
  }

  ghost predicate SourceReplication(s: Install, i: Id) {
    i in s.replications && SoundReplication(s, s.replications[i]) && Held(s, s.replications[i].configRef)
      && Held(s, s.replications[i].cryptRef)
  }

  /** The two secrets of a replication target, under their new references. */
  lemma ReplicationSecretsFound(m: Maps, x: Exported<Replication, ReplicationSecrets>, store: map<Ref, string>)
    requires forall ref :: ref in ReplicationStore(m, x) ==> ref in store && store[ref] == ReplicationStore(m, x)[ref]
    ensures x.row.provider.RcloneDrive? && x.extra.config.Some? ==>
            SecretAt(store, ReplicationImage(m, x).configRef) == x.extra.config
    ensures ReplicationImage(m, x).cryptRef.Some? ==> SecretAt(store, ReplicationImage(m, x).cryptRef) == x.extra.crypt
  {
    var y := ReplicationImage(m, x);
    if x.row.provider.RcloneDrive? && x.extra.config.Some? {
      assert y.configRef.value in ReplicationStore(m, x);
    }
    if y.cryptRef.Some? {
      assert y.cryptRef.value in ReplicationStore(m, x);
    }
  }

  lemma ReplicationMatchesImage(s: Install, b: Job, r: Rebuilt, i: Id, n: nat)
    requires SourceReplication(s, i)
    requires RowRebuilt(ReplicationRules(MapsOf(r), b.faults), Entry(s.replications, ReplicationBeside(s), i),
                        r.replications, n)
    ensures ReplicationMatches(s, Rebuild(b, r), Names(r), s.replications[i],
                               r.replications.after[r.replications.ids[i]])
  {
    var x := Entry(s.replications, ReplicationBeside(s), i);
    assert r.replications.after[r.replications.ids[i]] == ReplicationImage(MapsOf(r), x);
    assert ReplicationRules(MapsOf(r), b.faults).secrets(x, n) == ReplicationStore(MapsOf(r), x);
    hide ReplicationStore;
    ReplicationSecretsFound(MapsOf(r), x, r.replications.store);
  }

  lemma ReplicationsMatch(s: Install, b: Job, r: Rebuilt)
    requires Setting(s, b) && ReplicationsRebuilt(s, b, r)
    ensures MatchesAll(r.replications.ids, s.replications, r.replications.after,
                       (x, y) => ReplicationMatches(s, Rebuild(b, r), Names(r), x, y))
  {
    hide SoundConnections, SoundTask, SoundFileTask, SoundReplication, SameTarget, SoundVault, Exports, Held,
         FreshUuids, NoFaults, KeysWritten, Bijection, RowRebuilt, ReplicationMatches;
    BijectionRenames(s.replications, r.replications);
    forall i | i in s.replications
      ensures i in r.replications.ids && r.replications.ids[i] in r.replications.after
           && ReplicationMatches(s, Rebuild(b, r), Names(r), s.replications[i],
                                 r.replications.after[r.replications.ids[i]])
    {
      var n: nat :| RowRebuilt(ReplicationRules(MapsOf(r), b.faults), Entry(s.replications, ReplicationBeside(s), i),
                               r.replications, n);
      ReplicationMatchesImage(s, b, r, i, n);
    }
  }

  lemma CredentialMatchesImage(s: Install, b: Job, r: Rebuilt, i: Id, n: nat)
    requires i in s.credentials
    requires RowRebuilt(CredentialRules(MapsOf(r), b.uuid, b.faults), Entry(s.credentials, CredentialBeside(s), i),
                        r.credentials, n)
    ensures CredentialMatches(s, Rebuild(b, r), Names(r), s.credentials[i], r.credentials.after[r.credentials.ids[i]])
  {
    hide CredentialBlob.Read, CredentialBlob.ToJson;
    var x := Entry(s.credentials, CredentialBeside(s), i);
    assert r.credentials.after[r.credentials.ids[i]] == CredentialImage(MapsOf(r), b.uuid, x, n);
    assert CredentialBlobRef(b.uuid(n)) in CredentialRules(MapsOf(r), b.uuid, b.faults).secrets(x, n);
    CredentialBlob.ReadTwice(SecretAt(s.blobs, s.credentials[i].blobRef));
  }

  lemma CredentialsMatch(s: Install, b: Job, r: Rebuilt)
    requires CredentialsRebuilt(s, b, r)
    ensures MatchesAll(r.credentials.ids, s.credentials, r.credentials.after,
                       (x, y) => CredentialMatches(s, Rebuild(b, r), Names(r), x, y))
  {
    hide Bijection, RowRebuilt, CredentialMatches;
    BijectionRenames(s.credentials, r.credentials);
    forall i | i in s.credentials
      ensures i in r.credentials.ids && r.credentials.ids[i] in r.credentials.after
           && CredentialMatches(s, Rebuild(b, r), Names(r), s.credentials[i], r.credentials.after[r.credentials.ids[i]])
    {
      var n: nat :| RowRebuilt(CredentialRules(MapsOf(r), b.uuid, b.faults),
                               Entry(s.credentials, CredentialBeside(s), i), r.credentials, n);
      CredentialMatchesImage(s, b, r, i, n);
    }
  }

  lemma UrlsMatch(s: Install, b: Job, r: Rebuilt)
    requires UrlsRebuilt(s, b, r)
    ensures MatchesAll(r.urls.ids, s.urls, r.urls.after, (x, y) => UrlMatches(Names(r), x, y))
  {
    hide Bijection;
    BijectionRenames(s.urls, r.urls);
    forall i | i in s.urls
      ensures i in r.urls.ids && r.urls.ids[i] in r.urls.after
              && UrlMatches(Names(r), s.urls[i], r.urls.after[r.urls.ids[i]])
    {
      var n: nat :| RowRebuilt(UrlRules(MapsOf(r), r.credentials.ids, b.faults), Entry(s.urls, Nothing(), i), r.urls,
                               n);
    }
  }

  lemma ItemImageMatches(s: Install, t: Install, m: Maps, names: Renaming, uuid: Uuids,
                         x: Exported<Item, Option<string>>, n: nat)
    requires SoundBody(x.row) && (x.row.bodyRef.Some? ==> x.row.bodyRef.value in s.bodies)
             && x.extra == ItemExtra(s, x.row)
    requires names.clients == m.clients
    requires x.row.isSensitive && x.extra.Some? ==> SecretAt(t.bodies, Some(ItemBlobRef(uuid(n)))) == x.extra
    ensures ItemMatches(s, t, names, x.row, ItemImage(m, uuid, x, n))
  {
  }

  lemma ItemBodyFound(b: Job, r: Rebuilt, x: Exported<Item, Option<string>>, n: nat)
    requires RowRebuilt(ItemRules(MapsOf(r), b.uuid, b.faults), x, r.items, n) && x.row.isSensitive && x.extra.Some?
    ensures SecretAt(r.items.store, Some(ItemBlobRef(b.uuid(n)))) == x.extra
  {
    hide ItemImage;
    assert ItemRules(MapsOf(r), b.uuid, b.faults).secrets(x, n) == Stored(ItemBlobRef(b.uuid(n)), x.extra);
  }

  lemma ItemMatchesImage(s: Install, b: Job, r: Rebuilt, i: Id, n: nat)
    requires i in s.items && SoundBody(s.items[i])
             && (s.items[i].bodyRef.Some? ==> s.items[i].bodyRef.value in s.bodies)
    requires RowRebuilt(ItemRules(MapsOf(r), b.uuid, b.faults), Entry(s.items, ItemBeside(s), i), r.items, n)
    ensures ItemMatches(s, Rebuild(b, r), Names(r), s.items[i], r.items.after[r.items.ids[i]])
  {
    hide ItemImage, ItemMatches, SoundBody, SecretAt, ItemExtra;
    var x := Entry(s.items, ItemBeside(s), i);
    assert r.items.after[r.items.ids[i]] == ItemImage(MapsOf(r), b.uuid, x, n);
    if x.row.isSensitive && x.extra.Some? { ItemBodyFound(b, r, x, n); }
    hide RowRebuilt, ItemRules;
    ItemImageMatches(s, Rebuild(b, r), MapsOf(r), Names(r), b.uuid, x, n);
  }

  lemma ItemsMatch(s: Install, b: Job, r: Rebuilt)
    requires Setting(s, b) && ItemsRebuilt(s, b, r)
    ensures MatchesAll(r.items.ids, s.items, r.items.after, (x, y) => ItemMatches(s, Rebuild(b, r), Names(r), x, y))
  {
    hide SoundConnections, SoundTasks, SoundCredential, SharesLink, SoundBody, Exports, Held, FreshUuids, NoFaults,
         KeysWritten, Bijection, RowRebuilt, ItemMatches;
    BijectionRenames(s.items, r.items);
    forall i | i in s.items
      ensures i in r.items.ids && r.items.ids[i] in r.items.after
           && ItemMatches(s, Rebuild(b, r), Names(r), s.items[i], r.items.after[r.items.ids[i]])
    {
      var n: nat :| RowRebuilt(ItemRules(MapsOf(r), b.uuid, b.faults), Entry(s.items, ItemBeside(s), i), r.items, n);
      ItemMatchesImage(s, b, r, i, n);
    }
  }

  /**
   Disaster recovery gives everything back: the import of an export of a sound and complete
   installation, into an empty one, meets no exception, whatever order the rows are listed in and
   whatever ids are drawn; and what it makes is the source under an injective renaming.
   */
  lemma ImportInvertsExport(s: Install, b: Job, r: Rebuilt)
    requires Setting(s, b)
    ensures !Aborted(b, r)
    ensures Done(b, r, 11) ==> Isomorphic(s, Rebuild(b, r), Names(r))
  {
    hide Setting, Done, StepAborts, RebuiltUpTo, Isomorphic;
    forall n | Done(b, r, n) ensures !StepAborts(b, r, n) { EveryStepSucceeds(s, b, r, n); }
    if Done(b, r, 11) {
      EveryStepSucceeds(s, b, r, 11);
      FewerDone(b, r);
      SecretsAreCarried(b, r);
      AllTablesMatch(s, b, r);
    }
  }

  lemma FewerDone(b: Job, r: Rebuilt)
    requires Done(b, r, 11)
    ensures Done(b, r, 8)
  {
    hide ClientsDone, SetsDone, TransportsDone, ConnectionsDone, TasksDone, ReposDone, FileTasksDone, ReplicationsDone,
         CredentialsDone, UrlsDone, ItemsDone;
  }

  lemma AllTablesMatch(s: Install, b: Job, r: Rebuilt)
    requires Setting(s, b) && RebuiltUpTo(s, b, r, 11) && AllCarried(r)
    ensures Isomorphic(s, Rebuild(b, r), Names(r))
  {
    hide Setting, MatchesAll, ClientsRebuilt, SetsRebuilt, TransportsRebuilt, ConnectionsRebuilt, TasksRebuilt,
         ReposRebuilt, FileTasksRebuilt, ReplicationsRebuilt, CredentialsRebuilt, UrlsRebuilt, ItemsRebuilt, AllCarried;
    ClientsMatch(s, b, r);
    SetsMatch(s, b, r);
    TransportsMatch(s, b, r);
    ConnectionsMatch(s, b, r);
    TasksMatch(s, b, r);
    ReposMatch(s, b, r);
    FileTasksMatch(s, b, r);
    ReplicationsMatch(s, b, r);
    CredentialsMatch(s, b, r);
    UrlsMatch(s, b, r);
    ItemsMatch(s, b, r);
  }
}

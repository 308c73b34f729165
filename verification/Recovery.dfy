/**
 What disaster recovery guarantees (exportVault.ts).

 For any payload at all, a finished import is referentially sound. For the payload of a sound
 and complete installation, imported into an empty one, the import finishes and rebuilds the
 installation up to an injective renaming of ids.
 */
module Recovery {
  import opened Common
  import opened JsonValues
  import opened RestoreLoop
  import opened RecoveryModel
  import opened Import
  import opened Export
  import CredentialBlob

  // Referential integrity of any import.

  ghost predicate New<R, V>(before: map<Id, R>, o: Outcome<R, Ref, V>, id: Id) {
    id in o.after && id !in before
  }

  /** Every new row is the image of an entry that was wanted. */
  ghost predicate Images<R, S, V>(rules: Rules<R, S, Ref, V>, uuid: Uuids, rows: seq<Exported<R, S>>,
                                  before: map<Id, R>, o: Outcome<R, Ref, V>)
  {
    forall id :: New(before, o, id) ==> exists j: nat :: IsImage(rules, uuid, rows, o, id, j)
  }

  ghost predicate IsImage<R, S, V>(rules: Rules<R, S, Ref, V>, uuid: Uuids, rows: seq<Exported<R, S>>,
                                   o: Outcome<R, Ref, V>, id: Id, j: nat)
  {
    && RowOf(uuid, rows, o, id, j)
    && rules.wanted(rows[j]) && o.after[id] == rules.image(rows[j], o.made[j])
  }

  /** The new row `id` was created for entry `j`. */
  ghost predicate RowOf<R, S, V>(uuid: Uuids, rows: seq<Exported<R, S>>, o: Outcome<R, Ref, V>, id: Id, j: nat) {
    j < |rows| && j in o.made && id in o.after && id == uuid(o.made[j])
  }

  /** The id map leads to new rows. */
  ghost predicate Lands<R, V>(before: map<Id, R>, o: Outcome<R, Ref, V>) {
    forall x :: x in o.ids ==> New(before, o, o.ids[x])
  }

  lemma NewRowsAreImages<R(!new), S(!new), V(!new)>(
    rules: Rules<R, S, Ref, V>, uuid: Uuids, rows: seq<Exported<R, S>>, before: map<Id, R>, store: map<Ref, V>,
      first: nat, o: Outcome<R, Ref, V>)
    requires Restored(rules, uuid, rows, |rows|, before, store, first, o)
    ensures Images(rules, uuid, rows, before, o)
    ensures Lands(before, o)
  {
    hide DrawsDistinct, RowsAdded, IdsMapped, SecretsStored, AcceptedInTurn, RefusalsExplained;
    ImagesOfEntries(rules, uuid, rows, before, first, o);
    IdsLand(rules, uuid, rows, before, o);
  }

  lemma ImagesOfEntries<R(!new), S(!new), V(!new)>(
    rules: Rules<R, S, Ref, V>, uuid: Uuids, rows: seq<Exported<R, S>>, before: map<Id, R>, first: nat,
      o: Outcome<R, Ref, V>)
    requires DrawsDistinct(rules, rows, |rows|, o.made, first, o.next)
    requires RowsAdded(rules, uuid, rows, before, o.after, o.made)
    ensures Images(rules, uuid, rows, before, o)
  {
    forall id | New(before, o, id) ensures exists j: nat :: IsImage(rules, uuid, rows, o, id, j) {
      var j :| j in o.made && id == uuid(o.made[j]);
      assert IsImage(rules, uuid, rows, o, id, j);
    }
  }

  lemma IdsLand<R(!new), S(!new), V(!new)>(
    rules: Rules<R, S, Ref, V>, uuid: Uuids, rows: seq<Exported<R, S>>, before: map<Id, R>, o: Outcome<R, Ref, V>)
    requires RowsAdded(rules, uuid, rows, before, o.after, o.made)
    requires IdsMapped(uuid, rows, o.ids, o.made)
    ensures Lands(before, o)
  {
  }

  /** The links of a task lead to rows created by this import. */
  ghost predicate StrategyWired(b: Job, r: Rebuilt, s: Strategy) {
    match s
    case FetchExisting(tid, _, _) => tid.Some? && New(b.start.transports, r.transports, tid.value)
    case RemoteDump(tid, _, _, _, _, _, _, _, _) => tid.Some? && New(b.start.transports, r.transports, tid.value)
    case DirectDump(cid) => cid.Some? && New(b.start.connections, r.connections, cid.value)
  }

  ghost predicate ClientsWired(b: Job, r: Rebuilt) {
    && (forall id :: New(b.start.sets, r.sets, id) ==> New(b.start.clients, r.clients, r.sets.after[id].clientId))
    && (forall id :: New(b.start.transports, r.transports, id) ==>
        New(b.start.clients, r.clients, r.transports.after[id].clientId))
    && (forall id :: New(b.start.connections, r.connections, id) ==>
        New(b.start.clients, r.clients, r.connections.after[id].clientId))
    && (forall id :: New(b.start.repos, r.repos, id) ==> New(b.start.clients, r.clients, r.repos.after[id].clientId))
    && (forall id :: New(b.start.items, r.items, id) ==> New(b.start.clients, r.clients, r.items.after[id].clientId))
  }

  ghost predicate TaskWired(b: Job, r: Rebuilt, t: Task) {
    && New(b.start.clients, r.clients, t.clientId)
    && StrategyWired(b, r, t.strategy)
    && (t.backupSetId.Some? ==> New(b.start.sets, r.sets, t.backupSetId.value))
  }

  ghost predicate FileTaskWired(b: Job, r: Rebuilt, t: FileTask) {
    && New(b.start.clients, r.clients, t.clientId)
    && New(b.start.repos, r.repos, t.repositoryId)
    && (t.source.RemoteFolder? ==>
        t.source.transportId.Some? && New(b.start.transports, r.transports, t.source.transportId.value))
    && (t.backupSetId.Some? ==> New(b.start.sets, r.sets, t.backupSetId.value))
  }

  ghost predicate ReplicationWired(b: Job, r: Rebuilt, t: Replication) {
    && New(b.start.clients, r.clients, t.clientId)
    && (t.provider.RcloneDrive? <==> t.configRef.Some?) && (t.provider.RcloneDrive? <==> t.transportId.None?)
    && (t.transportId.Some? ==> New(b.start.transports, r.transports, t.transportId.value))
  }

  ghost predicate CredentialWired(b: Job, r: Rebuilt, c: Credential) {
    && New(b.start.clients, r.clients, c.clientId)
    && (c.linkedTransportId.Some? ==> New(b.start.transports, r.transports, c.linkedTransportId.value))
    && (c.linkedConnectionId.Some? ==> New(b.start.connections, r.connections, c.linkedConnectionId.value))
    && (c.sync.SyncOk? <==> c.linkedTransportId.Some? || c.linkedConnectionId.Some?)
  }

  ghost predicate UrlWired(b: Job, r: Rebuilt, u: Url) {
    && New(b.start.clients, r.clients, u.clientId)
    && (u.linkedCredentialId.Some? ==> New(b.start.credentials, r.credentials, u.linkedCredentialId.value))
  }

  ghost predicate TasksWired(b: Job, r: Rebuilt) {
    forall id :: New(b.start.tasks, r.tasks, id) ==> TaskWired(b, r, r.tasks.after[id])
  }

  ghost predicate FileTasksWired(b: Job, r: Rebuilt) {
    forall id :: New(b.start.fileTasks, r.fileTasks, id) ==> FileTaskWired(b, r, r.fileTasks.after[id])
  }

  ghost predicate ReplicationsWired(b: Job, r: Rebuilt) {
    forall id :: New(b.start.replications, r.replications, id) ==> ReplicationWired(b, r, r.replications.after[id])
  }

  ghost predicate CredentialsWired(b: Job, r: Rebuilt) {
    forall id :: New(b.start.credentials, r.credentials, id) ==> CredentialWired(b, r, r.credentials.after[id])
  }

  ghost predicate UrlsWired(b: Job, r: Rebuilt) {
    forall id :: New(b.start.urls, r.urls, id) ==> UrlWired(b, r, r.urls.after[id])
  }

  // What a reference of a created row is: the image of the original's under the id map.

  /** A reference that cannot be null. */
  predicate Follows(m: map<Id, Id>, x: Id, y: Id) {
    x in m && y == m[x]
  }

  /** One that must not be null here. */
  predicate FollowsSome(m: map<Id, Id>, x: Option<Id>, y: Option<Id>) {
    x.Some? && y.Some? && Follows(m, x.value, y.value)
  }

  /** One that is dropped when what it refers to was not restored. */
  predicate FollowsIfRestored(m: map<Id, Id>, x: Option<Id>, y: Option<Id>) {
    y == Mapped(m, x)
  }

  predicate SetFollows(m: Maps, x: BackupSet, y: BackupSet) { Follows(m.clients, x.clientId, y.clientId) }
  predicate TransportFollows(m: Maps, x: Transport, y: Transport) { Follows(m.clients, x.clientId, y.clientId) }
  predicate ConnectionFollows(m: Maps, x: Connection, y: Connection) { Follows(m.clients, x.clientId, y.clientId) }
  predicate RepoFollows(m: Maps, x: FileRepo, y: FileRepo) { Follows(m.clients, x.clientId, y.clientId) }
  predicate ItemFollows(m: Maps, x: Item, y: Item) { Follows(m.clients, x.clientId, y.clientId) }

  predicate StrategyFollows(m: Maps, x: Strategy, y: Strategy) {
    match x
    case FetchExisting(tid, _, _) => y.FetchExisting? && FollowsSome(m.transports, tid, y.transportId)
    case RemoteDump(tid, _, _, _, _, _, _, _, _) => y.RemoteDump? && FollowsSome(m.transports, tid, y.transportId)
    case DirectDump(cid) => y.DirectDump? && FollowsSome(m.connections, cid, y.connectionId)
  }

  predicate TaskFollows(m: Maps, x: Task, y: Task) {
    && Follows(m.clients, x.clientId, y.clientId) && StrategyFollows(m, x.strategy, y.strategy)
    && FollowsIfRestored(m.sets, x.backupSetId, y.backupSetId)
  }

  predicate FileTaskFollows(m: Maps, repos: map<Id, Id>, x: FileTask, y: FileTask) {
    && Follows(m.clients, x.clientId, y.clientId) && Follows(repos, x.repositoryId, y.repositoryId)
    && (x.source.RemoteFolder? <==> y.source.RemoteFolder?)
    && (x.source.RemoteFolder? ==> FollowsSome(m.transports, x.source.transportId, y.source.transportId))
    && FollowsIfRestored(m.sets, x.backupSetId, y.backupSetId)
  }

  predicate ReplicationFollows(m: Maps, x: Replication, y: Replication) {
    && Follows(m.clients, x.clientId, y.clientId) && x.provider == y.provider
    && (if x.provider.RcloneDrive? then y.transportId.None? && y.configRef.Some?
        else FollowsSome(m.transports, x.transportId, y.transportId) && y.configRef.None?)
  }

  predicate CredentialFollows(m: Maps, x: Credential, y: Credential) {
    && Follows(m.clients, x.clientId, y.clientId)
    && FollowsIfRestored(m.transports, x.linkedTransportId, y.linkedTransportId)
    && FollowsIfRestored(m.connections, x.linkedConnectionId, y.linkedConnectionId)
    && (y.sync.SyncOk? <==> y.linkedTransportId.Some? || y.linkedConnectionId.Some?)
  }

  predicate UrlFollows(m: Maps, credentials: map<Id, Id>, x: Url, y: Url) {
    Follows(m.clients, x.clientId, y.clientId)
      && FollowsIfRestored(credentials, x.linkedCredentialId, y.linkedCredentialId)
  }

  /** Every new row was created for an entry, and its references are the images of that entry's. */
  ghost predicate AllFollow<R(!new), S(!new), V>(uuid: Uuids, rows: seq<Exported<R, S>>, before: map<Id, R>,
                                                 o: Outcome<R, Ref, V>, follows: (R, R) -> bool)
  {
    forall id :: New(before, o, id) ==>
      exists j: nat :: RowOf(uuid, rows, o, id, j) && follows(rows[j].row, o.after[id])
  }

  ghost predicate ReferencesFollow(b: Job, r: Rebuilt) {
    var m := MapsOf(r);
    && AllFollow(b.uuid, b.payload.sets, b.start.sets, r.sets, (x, y) => SetFollows(m, x, y))
    && AllFollow(b.uuid, b.payload.transports, b.start.transports, r.transports, (x, y) => TransportFollows(m, x, y))
    && AllFollow(b.uuid, b.payload.connections, b.start.connections, r.connections,
                 (x, y) => ConnectionFollows(m, x, y))
    && AllFollow(b.uuid, b.payload.tasks, b.start.tasks, r.tasks, (x, y) => TaskFollows(m, x, y))
    && AllFollow(b.uuid, b.payload.repos, b.start.repos, r.repos, (x, y) => RepoFollows(m, x, y))
    && AllFollow(b.uuid, b.payload.fileTasks, b.start.fileTasks, r.fileTasks,
                 (x, y) => FileTaskFollows(m, r.repos.ids, x, y))
    && AllFollow(b.uuid, b.payload.replications, b.start.replications, r.replications,
                 (x, y) => ReplicationFollows(m, x, y))
    && AllFollow(b.uuid, b.payload.credentials, b.start.credentials, r.credentials,
                 (x, y) => CredentialFollows(m, x, y))
    && AllFollow(b.uuid, b.payload.urls, b.start.urls, r.urls, (x, y) => UrlFollows(m, r.credentials.ids, x, y))
    && AllFollow(b.uuid, b.payload.items, b.start.items, r.items, (x, y) => ItemFollows(m, x, y))
  }

  lemma ImagesFollow<R(!new), S(!new), V(!new)>(
    rules: Rules<R, S, Ref, V>, uuid: Uuids, rows: seq<Exported<R, S>>, before: map<Id, R>, store: map<Ref, V>,
      first: nat, o: Outcome<R, Ref, V>, follows: (R, R) -> bool)
    requires Restored(rules, uuid, rows, |rows|, before, store, first, o)
    requires forall x, n :: rules.wanted(x) ==> follows(x.row, rules.image(x, n))
    ensures AllFollow(uuid, rows, before, o, follows)
  {
    hide Restored;
    NewRowsAreImages(rules, uuid, rows, before, store, first, o);
    forall id | New(before, o, id)
      ensures exists j: nat :: RowOf(uuid, rows, o, id, j) && follows(rows[j].row, o.after[id])
    {
      var j: nat :| IsImage(rules, uuid, rows, o, id, j);
      assert RowOf(uuid, rows, o, id, j) && follows(rows[j].row, o.after[id]);
    }
  }

  lemma OwnedRowsFollow(b: Job, r: Rebuilt)
    requires SetsDone(b, r) && TransportsDone(b, r) && ConnectionsDone(b, r) && ReposDone(b, r) && ItemsDone(b, r)
    ensures AllFollow(b.uuid, b.payload.sets, b.start.sets, r.sets, (x, y) => SetFollows(MapsOf(r), x, y))
    ensures AllFollow(b.uuid, b.payload.transports, b.start.transports, r.transports,
                      (x, y) => TransportFollows(MapsOf(r), x, y))
    ensures AllFollow(b.uuid, b.payload.connections, b.start.connections, r.connections,
                      (x, y) => ConnectionFollows(MapsOf(r), x, y))
    ensures AllFollow(b.uuid, b.payload.repos, b.start.repos, r.repos, (x, y) => RepoFollows(MapsOf(r), x, y))
    ensures AllFollow(b.uuid, b.payload.items, b.start.items, r.items, (x, y) => ItemFollows(MapsOf(r), x, y))
  {
    hide Restored, AllFollow;
    var p, f, u, m, start := b.payload, b.faults, b.uuid, MapsOf(r), b.start;
    ImagesFollow(SetRules(r.clients.ids, f), u, p.sets, start.sets, r.clients.store, r.clients.next, r.sets,
                 (x, y) => SetFollows(m, x, y));
    ImagesFollow(TransportRules(r.clients.ids, b.keys, u, f), u, p.transports, start.transports, r.sets.store,
                 r.sets.next, r.transports, (x, y) => TransportFollows(m, x, y));
    ImagesFollow(ConnectionRules(r.clients.ids, u, f), u, p.connections, start.connections, r.transports.store,
                 r.transports.next, r.connections, (x, y) => ConnectionFollows(m, x, y));
    ImagesFollow(RepoRules(r.clients.ids, f), u, p.repos, start.repos, r.tasks.store, r.tasks.next, r.repos,
                 (x, y) => RepoFollows(m, x, y));
    ImagesFollow(ItemRules(m, u, f), u, p.items, start.items, start.bodies, r.urls.next, r.items,
                 (x, y) => ItemFollows(m, x, y));
  }

  lemma TaskImageFollows(m: Maps, uuid: Uuids, x: Exported<Task, Option<string>>, n: nat)
    requires x.row.clientId in m.clients && LinkRestored(m.transports, m.connections, x.row.strategy)
    ensures TaskFollows(m, x.row, TaskImage(m, uuid, x, n))
  {
  }

  lemma TasksFollow(b: Job, r: Rebuilt)
    requires TasksDone(b, r)
    ensures AllFollow(b.uuid, b.payload.tasks, b.start.tasks, r.tasks, (x, y) => TaskFollows(MapsOf(r), x, y))
  {
    hide Restored, AllFollow, TaskImage, TaskFollows, LinkRestored;
    var m := MapsOf(r);
    var rules := TaskRules(m, r.transports.after, r.connections.after, b.uuid, b.faults);
    forall x: Exported<Task, Option<string>>, n | rules.wanted(x) ensures TaskFollows(m, x.row, rules.image(x, n)) {
      TaskImageFollows(m, b.uuid, x, n);
    }
    ImagesFollow(rules, b.uuid, b.payload.tasks, b.start.tasks, r.connections.store, r.connections.next, r.tasks,
                 (x, y) => TaskFollows(m, x, y));
  }

  lemma FileTaskImageFollows(m: Maps, repos: map<Id, Id>, x: FileTask)
    requires x.clientId in m.clients && x.repositoryId in repos
    requires x.source.RemoteFolder? ==> Mapped(m.transports, x.source.transportId).Some?
    ensures FileTaskFollows(m, repos, x, FileTaskImage(m, repos, x))
  {
  }

  lemma FileTasksFollow(b: Job, r: Rebuilt)
    requires FileTasksDone(b, r)
    ensures AllFollow(b.uuid, b.payload.fileTasks, b.start.fileTasks, r.fileTasks,
                      (x, y) => FileTaskFollows(MapsOf(r), r.repos.ids, x, y))
  {
    hide Restored, AllFollow, FileTaskImage, FileTaskFollows;
    var m := MapsOf(r);
    var rules := FileTaskRules(m, r.repos.ids, r.transports.after, b.faults);
    forall x: Exported<FileTask, ()>, n | rules.wanted(x)
      ensures FileTaskFollows(m, r.repos.ids, x.row, rules.image(x, n))
    {
      FileTaskImageFollows(m, r.repos.ids, x.row);
    }
    ImagesFollow(rules, b.uuid, b.payload.fileTasks, b.start.fileTasks, r.repos.store, r.repos.next, r.fileTasks,
                 (x, y) => FileTaskFollows(m, r.repos.ids, x, y));
  }

  lemma ReplicationImageFollows(m: Maps, x: Exported<Replication, ReplicationSecrets>)
    requires x.row.clientId in m.clients
             && (!x.row.provider.RcloneDrive? ==> Mapped(m.transports, x.row.transportId).Some?)
    ensures ReplicationFollows(m, x.row, ReplicationImage(m, x))
  {
  }

  lemma ReplicationsFollow(b: Job, r: Rebuilt)
    requires ReplicationsDone(b, r)
    ensures AllFollow(b.uuid, b.payload.replications, b.start.replications, r.replications,
                      (x, y) => ReplicationFollows(MapsOf(r), x, y))
  {
    hide Restored, AllFollow, ReplicationImage, ReplicationFollows, ReplicationStore, ReplicationTaken;
    var m := MapsOf(r);
    var rules := ReplicationRules(m, b.faults);
    forall x: Exported<Replication, ReplicationSecrets>, n | rules.wanted(x)
      ensures ReplicationFollows(m, x.row, rules.image(x, n))
    {
      ReplicationImageFollows(m, x);
    }
    ImagesFollow(rules, b.uuid, b.payload.replications, b.start.replications, r.fileTasks.store, r.fileTasks.next,
                 r.replications, (x, y) => ReplicationFollows(m, x, y));
  }

  lemma CredentialsFollow(b: Job, r: Rebuilt)
    requires CredentialsDone(b, r)
    ensures AllFollow(b.uuid, b.payload.credentials, b.start.credentials, r.credentials,
                      (x, y) => CredentialFollows(MapsOf(r), x, y))
  {
    hide Restored, AllFollow, AcceptableLink, LinkTaken, Mapped;
    var m := MapsOf(r);
    ImagesFollow(CredentialRules(m, b.uuid, b.faults), b.uuid, b.payload.credentials, b.start.credentials,
                 b.start.blobs, r.replications.next, r.credentials, (x, y) => CredentialFollows(m, x, y));
  }

  lemma UrlsFollow(b: Job, r: Rebuilt)
    requires UrlsDone(b, r)
    ensures AllFollow(b.uuid, b.payload.urls, b.start.urls, r.urls,
                      (x, y) => UrlFollows(MapsOf(r), r.credentials.ids, x, y))
  {
    hide Restored, AllFollow, Mapped;
    var m := MapsOf(r);
    ImagesFollow(UrlRules(m, r.credentials.ids, b.faults), b.uuid, b.payload.urls, b.start.urls, map[],
                 r.credentials.next, r.urls, (x, y) => UrlFollows(m, r.credentials.ids, x, y));
  }

  /**
   Whatever the payload, and whatever was skipped: every created row stems from an entry; each of its
   references is the image of that entry's under the matching id map, or null where what the entry
   refers to was not restored; and every image is a row created by the same import.
   */
  lemma ImportIsReferentiallySound(b: Job, r: Rebuilt)
    requires Done(b, r, 11)
    ensures ReferencesFollow(b, r) && MapsLand(b, r)
    ensures ClientsWired(b, r) && TasksWired(b, r) && FileTasksWired(b, r)
    ensures ReplicationsWired(b, r) && CredentialsWired(b, r) && UrlsWired(b, r)
  {
    MapsLeadToNewRows(b, r);
    hide ClientsDone, SetsDone, TransportsDone, ConnectionsDone, TasksDone, ReposDone, FileTasksDone, ReplicationsDone,
         CredentialsDone, UrlsDone, ItemsDone, MapsLand, AllFollow, ClientsWired, TasksWired, FileTasksWired,
           ReplicationsWired, CredentialsWired, UrlsWired;
    OwnedRowsFollow(b, r);
    TasksFollow(b, r);
    FileTasksFollow(b, r);
    ReplicationsFollow(b, r);
    CredentialsFollow(b, r);
    UrlsFollow(b, r);
    hide Done;
    OwnersAreCreated(b, r);
    LinksAreWired(b, r);
  }

  ghost predicate MapsLand(b: Job, r: Rebuilt) {
    && Lands(b.start.clients, r.clients) && Lands(b.start.sets, r.sets) && Lands(b.start.transports, r.transports)
    && Lands(b.start.connections, r.connections) && Lands(b.start.repos, r.repos)
      && Lands(b.start.credentials, r.credentials)
  }

  lemma MapsLeadToNewRows(b: Job, r: Rebuilt)
    requires Done(b, r, 11)
    ensures MapsLand(b, r)
  {
    hide Restored, Lands, Images, ClientRules, SetRules, TransportRules, ConnectionRules, TaskRules, RepoRules,
         FileTaskRules, ReplicationRules, CredentialRules, UrlRules, ItemRules;
    var p, f, u, m := b.payload, b.faults, b.uuid, MapsOf(r);
    NewRowsAreImages(ClientRules(f), u, p.clients, b.start.clients, b.start.secrets, 0, r.clients);
    NewRowsAreImages(SetRules(r.clients.ids, f), u, p.sets, b.start.sets, r.clients.store, r.clients.next, r.sets);
    NewRowsAreImages(TransportRules(r.clients.ids, b.keys, u, f), u, p.transports, b.start.transports, r.sets.store,
                     r.sets.next, r.transports);
    NewRowsAreImages(ConnectionRules(r.clients.ids, u, f), u, p.connections, b.start.connections, r.transports.store,
                     r.transports.next, r.connections);
    NewRowsAreImages(RepoRules(r.clients.ids, f), u, p.repos, b.start.repos, r.tasks.store, r.tasks.next, r.repos);
    NewRowsAreImages(CredentialRules(m, u, f), u, p.credentials, b.start.credentials, b.start.blobs,
                     r.replications.next, r.credentials);
  }

  /** So every created row belongs to a created client, and its references lead to created rows. */
  lemma OwnersAreCreated(b: Job, r: Rebuilt)
    requires ReferencesFollow(b, r) && MapsLand(b, r)
    ensures ClientsWired(b, r)
  {
    hide New, TaskFollows, FileTaskFollows, ReplicationFollows, CredentialFollows, UrlFollows;
  }

  lemma LinksAreWired(b: Job, r: Rebuilt)
    requires ReferencesFollow(b, r) && MapsLand(b, r)
    ensures TasksWired(b, r) && FileTasksWired(b, r) && ReplicationsWired(b, r) && CredentialsWired(b, r)
            && UrlsWired(b, r)
  {
    hide New, TaskFollows, FileTaskFollows, ReplicationFollows, CredentialFollows, UrlFollows, MapsLand,
         TaskWired, FileTaskWired, ReplicationWired, CredentialWired, UrlWired;
    forall x, y | TaskFollows(MapsOf(r), x, y) ensures TaskWired(b, r, y) { FollowingTaskIsWired(b, r, x, y); }
    forall x, y | FileTaskFollows(MapsOf(r), r.repos.ids, x, y) ensures FileTaskWired(b, r, y) {
      FollowingFileTaskIsWired(b, r, x, y);
    }
    forall x, y | ReplicationFollows(MapsOf(r), x, y) ensures ReplicationWired(b, r, y) {
      FollowingReplicationIsWired(b, r, x, y);
    }
    forall x, y | CredentialFollows(MapsOf(r), x, y) ensures CredentialWired(b, r, y) {
      FollowingCredentialIsWired(b, r, x, y);
    }
    forall x, y | UrlFollows(MapsOf(r), r.credentials.ids, x, y) ensures UrlWired(b, r, y) {
      FollowingUrlIsWired(b, r, x, y);
    }
  }

  lemma FollowingTaskIsWired(b: Job, r: Rebuilt, x: Task, y: Task)
    requires MapsLand(b, r) && TaskFollows(MapsOf(r), x, y)
    ensures TaskWired(b, r, y)
  {
    hide New;
  }

  lemma FollowingFileTaskIsWired(b: Job, r: Rebuilt, x: FileTask, y: FileTask)
    requires MapsLand(b, r) && FileTaskFollows(MapsOf(r), r.repos.ids, x, y)
    ensures FileTaskWired(b, r, y)
  {
    hide New;
  }

  lemma FollowingReplicationIsWired(b: Job, r: Rebuilt, x: Replication, y: Replication)
    requires MapsLand(b, r) && ReplicationFollows(MapsOf(r), x, y)
    ensures ReplicationWired(b, r, y)
  {
    hide New;
  }

  lemma FollowingCredentialIsWired(b: Job, r: Rebuilt, x: Credential, y: Credential)
    requires MapsLand(b, r) && CredentialFollows(MapsOf(r), x, y)
    ensures CredentialWired(b, r, y)
  {
    hide New;
  }

  lemma FollowingUrlIsWired(b: Job, r: Rebuilt, x: Url, y: Url)
    requires MapsLand(b, r) && UrlFollows(MapsOf(r), r.credentials.ids, x, y)
    ensures UrlWired(b, r, y)
  {
    hide New;
  }

  // Counters, and clients that failed.

  /** A counter of the import result is the number of rows its step created. */
  lemma CounterIsNewRows<R(!new), S(!new), V(!new)>(
    rules: Rules<R, S, Ref, V>, uuid: Uuids, rows: seq<Exported<R, S>>, before: map<Id, R>, store: map<Ref, V>,
      first: nat, o: Outcome<R, Ref, V>)
    requires Restored(rules, uuid, rows, |rows|, before, store, first, o)
    ensures o.created == |o.after.Keys - before.Keys|
  {
    hide DrawsDistinct, RefusalsExplained, IdsMapped, SecretsStored, AcceptedInTurn;
    assert forall id :: id in before ==> id in o.after;
    hide RowsAdded;
    KeysAdded(before, o.after);
  }

  lemma KeysAdded<R>(a: map<Id, R>, b: map<Id, R>)
    requires forall id :: id in a ==> id in b
    ensures |b| == |a| + |b.Keys - a.Keys|
  {
    assert b.Keys == a.Keys + (b.Keys - a.Keys);
    assert |b.Keys| == |b| && |a.Keys| == |a|;
  }

  lemma MadeWereWanted<R(!new), S(!new), V(!new)>(
    rules: Rules<R, S, Ref, V>, uuid: Uuids, rows: seq<Exported<R, S>>, before: map<Id, R>, store: map<Ref, V>,
      first: nat, o: Outcome<R, Ref, V>, j: nat)
    requires Restored(rules, uuid, rows, |rows|, before, store, first, o) && j in o.made
    ensures j < |rows| && rules.wanted(rows[j])
  {
    hide RowsAdded, RefusalsExplained, IdsMapped, SecretsStored, AcceptedInTurn;
  }

  // Which clients come back.

  /**
   Client entry `j` will be restored, as the payload and the table before the import tell: its insert does not fail,
   its name is free, and no entry of that name before it comes back.
   */
  ghost predicate ComesBack(b: Job, j: nat)
    decreases j
  {
    var rows := b.payload.clients;
    && j < |rows| && !b.faults(Clients, j) && !NameTaken(b.start.clients, rows[j].row.name)
    && forall i: nat :: i < j && ComesBack(b, i) ==> rows[i].row.name != rows[j].row.name
  }

  lemma MadeClientWasFree(b: Job, r: Rebuilt, j: nat)
    requires ClientsDone(b, r) && j in r.clients.made
    ensures var rows := b.payload.clients;
            && j < |rows| && !b.faults(Clients, j) && !NameTaken(b.start.clients, rows[j].row.name)
            && forall i: nat :: i < j && i in r.clients.made ==> rows[i].row.name != rows[j].row.name
  {
    hide RefusalsExplained, IdsMapped, SecretsStored, RowsAdded;
    var rules, rows, made := ClientRules(b.faults), b.payload.clients, r.clients.made;
    var t: map<Id, Client> :| AcceptedAgainst(rules, b.uuid, rows, b.start.clients, made, j, t);
    assert rules.verdict(j, t, rows[j], made[j]) == if b.faults(Clients, j) || NameTaken(t, rows[j].row.name) then Skip
           else Accept;
    forall i: nat | i < j && i in made ensures rows[i].row.name != rows[j].row.name {
      assert t[b.uuid(made[i])] == rules.image(rows[i], made[i]);
      assert rules.image(rows[i], made[i]) == rows[i].row.(isActive := true);
    }
  }

  lemma UnmadeClientWasTaken(b: Job, r: Rebuilt, j: nat)
    requires ClientsDone(b, r) && j < |b.payload.clients| && j !in r.clients.made
    ensures var rows := b.payload.clients;
            || b.faults(Clients, j) || NameTaken(b.start.clients, rows[j].row.name)
            || exists i: nat :: i < j && i in r.clients.made && rows[i].row.name == rows[j].row.name
  {
    hide AcceptedInTurn, IdsMapped, SecretsStored, RowsAdded, DrawsDistinct;
    var rules, rows, before, made := ClientRules(b.faults), b.payload.clients, b.start.clients, r.clients.made;
    assert rules.wanted(rows[j]);
    var t: map<Id, Client>, n :| EarlierMade(rules, before, rows, made, j, t)
      && rules.verdict(j, t, rows[j], n) == Skip;
    assert rules.verdict(j, t, rows[j], n) == if b.faults(Clients, j) || NameTaken(t, rows[j].row.name) then Skip
           else Accept;
    if !b.faults(Clients, j) {
      var id :| id in t && t[id].name == rows[j].row.name;
      if !(id in before && t[id] == before[id]) {
        var k, m :| 0 <= k < j && k in made && t[id] == rules.image(rows[k], m);
        assert rules.image(rows[k], m) == rows[k].row.(isActive := true);
      }
    }
  }

  /** Which client entries an import restores, exactly. */
  lemma {:induction false} ClientsComeBackExactly(b: Job, r: Rebuilt, j: nat)
    requires ClientsDone(b, r) && j < |b.payload.clients|
    ensures j in r.clients.made <==> ComesBack(b, j)
    decreases j
  {
    hide Restored;
    forall i: nat | i < j ensures i in r.clients.made <==> ComesBack(b, i) { ClientsComeBackExactly(b, r, i); }
    if j in r.clients.made {
      MadeClientWasFree(b, r, j);
    } else {
      UnmadeClientWasTaken(b, r, j);
    }
  }

  /** When names do not repeat, an entry comes back if and only if its insert does not fail and its name is free. */
  lemma DistinctNamesComeBack(b: Job, j: nat)
    requires j < |b.payload.clients|
    requires forall i: nat :: i < j ==> b.payload.clients[i].row.name != b.payload.clients[j].row.name
    ensures ComesBack(b, j) <==> !b.faults(Clients, j) && !NameTaken(b.start.clients, b.payload.clients[j].row.name)
  {
  }

  /** The client with this exported id will be restored. */
  ghost predicate ClientComesBack(b: Job, c: Id) {
    exists j: nat :: j < |b.payload.clients| && ComesBack(b, j) && b.payload.clients[j].id == c
  }

  lemma MappedClientsComeBack(b: Job, r: Rebuilt, c: Id)
    requires ClientsDone(b, r)
    ensures c in r.clients.ids <==> ClientComesBack(b, c)
  {
    hide RefusalsExplained, AcceptedInTurn, SecretsStored, RowsAdded, ComesBack;
    forall j: nat | j < |b.payload.clients| ensures j in r.clients.made <==> ComesBack(b, j) {
      ClientsComeBackExactly(b, r, j);
    }
    if ClientComesBack(b, c) {
      var j: nat :| j < |b.payload.clients| && ComesBack(b, j) && b.payload.clients[j].id == c;
      assert j in r.clients.made;
    }
  }

  ghost predicate NoneOf<R, S, V>(rows: seq<Exported<R, S>>, o: Outcome<R, Ref, V>, owned: R -> bool) {
    forall j :: j in o.made && j < |rows| ==> !owned(rows[j].row)
  }

  /** A client that was not restored contributes no row to any table. */
  lemma FailedClientLeavesNothing(b: Job, r: Rebuilt, c: Id)
    requires Done(b, r, 11) && c !in r.clients.ids
    ensures NoneOf(b.payload.sets, r.sets, (x: BackupSet) => x.clientId == c)
    ensures NoneOf(b.payload.transports, r.transports, (x: Transport) => x.clientId == c)
    ensures NoneOf(b.payload.connections, r.connections, (x: Connection) => x.clientId == c)
    ensures NoneOf(b.payload.tasks, r.tasks, (x: Task) => x.clientId == c)
    ensures NoneOf(b.payload.repos, r.repos, (x: FileRepo) => x.clientId == c)
    ensures NoneOf(b.payload.fileTasks, r.fileTasks, (x: FileTask) => x.clientId == c)
    ensures NoneOf(b.payload.replications, r.replications, (x: Replication) => x.clientId == c)
    ensures NoneOf(b.payload.credentials, r.credentials, (x: Credential) => x.clientId == c)
    ensures NoneOf(b.payload.urls, r.urls, (x: Url) => x.clientId == c)
    ensures NoneOf(b.payload.items, r.items, (x: Item) => x.clientId == c)
  {
    hide Restored;
    var p, f, u, m := b.payload, b.faults, b.uuid, MapsOf(r);
    forall j | j in r.sets.made {
      MadeWereWanted(SetRules(r.clients.ids, f), u, p.sets, b.start.sets, r.clients.store, r.clients.next, r.sets, j);
    }
    forall j | j in r.transports.made {
      MadeWereWanted(TransportRules(r.clients.ids, b.keys, u, f), u, p.transports, b.start.transports, r.sets.store,
                     r.sets.next, r.transports, j);
    }
    forall j | j in r.connections.made {
      MadeWereWanted(ConnectionRules(r.clients.ids, u, f), u, p.connections, b.start.connections, r.transports.store,
                     r.transports.next, r.connections, j);
    }
    forall j | j in r.tasks.made {
      MadeWereWanted(TaskRules(m, r.transports.after, r.connections.after, u, f), u, p.tasks, b.start.tasks,
                     r.connections.store, r.connections.next, r.tasks, j);
    }
    forall j | j in r.repos.made {
      MadeWereWanted(RepoRules(r.clients.ids, f), u, p.repos, b.start.repos, r.tasks.store, r.tasks.next, r.repos, j);
    }
    forall j | j in r.fileTasks.made {
      MadeWereWanted(FileTaskRules(m, r.repos.ids, r.transports.after, f), u, p.fileTasks, b.start.fileTasks,
                     r.repos.store, r.repos.next, r.fileTasks, j);
    }
    forall j | j in r.replications.made {
      MadeWereWanted(ReplicationRules(m, f), u, p.replications, b.start.replications, r.fileTasks.store,
                     r.fileTasks.next, r.replications, j);
    }
    forall j | j in r.credentials.made {
      MadeWereWanted(CredentialRules(m, u, f), u, p.credentials, b.start.credentials, b.start.blobs,
                     r.replications.next, r.credentials, j);
    }
    forall j | j in r.urls.made {
      MadeWereWanted(UrlRules(m, r.credentials.ids, f), u, p.urls, b.start.urls, map[], r.credentials.next, r.urls, j);
    }
    forall j | j in r.items.made {
      MadeWereWanted(ItemRules(m, u, f), u, p.items, b.start.items, b.start.bodies, r.urls.next, r.items, j);
    }
  }
}

/**
 Export, then import into an empty installation: the result is the same installation under new
 ids. This holds of every sound and complete source; the fields that a restore never carries are
 exactly those that `ClientMatches` and its siblings leave out.
 */
module RoundTrip {
  import opened Common
  import opened JsonValues
  import opened RestoreLoop
  import opened RecoveryModel
  import opened Import
  import opened Export
  import CredentialBlob

  // A sound source: what the schema and the repositories keep true of every installation.

  ghost predicate Refers<R>(table: map<Id, R>, id: Option<Id>) {
    id.Some? ==> id.value in table
  }

  ghost predicate SoundConnections(s: Install) {
    && (forall i, j :: i in s.clients && j in s.clients && s.clients[i].name == s.clients[j].name ==> i == j)
    && (forall i :: i in s.sets ==> s.sets[i].clientId in s.clients)
    && (forall i, j ::
        i in s.sets && j in s.sets && s.sets[i].clientId == s.sets[j].clientId && s.sets[i].name == s.sets[j].name ==>
          i == j)
    && (forall i :: i in s.transports ==> SoundTransport(s, s.transports[i]))
    && (forall i :: i in s.connections ==> s.connections[i].clientId in s.clients)
  }

  predicate SoundTransport(s: Install, r: Transport) {
    && r.clientId in s.clients
    && (Keyed(r.kind) ==> r.keyPath.Some? && r.passwordRef.None?)
    && (r.kind.Ftp? ==> r.keyPath.None? && r.passphraseRef.None? && r.knownHost.None?)
  }

  ghost predicate SoundTask(s: Install, t: Task) {
    && t.clientId in s.clients && Refers(s.sets, t.backupSetId)
    && AcceptableTask(s.transports, s.connections, t)
    && SoundSchedule(t.schedule)
    && (t.strategy.FetchExisting? ==> t.strategy.remotePath.Some?)
    && (t.strategy.RemoteDump? ==> t.strategy.outputTemplate.Some?)
  }

  predicate SoundSchedule(s: Schedule) {
    Present(s.time) ==> ValidSchedule(s) && StoredSchedule(s) == s
  }

  ghost predicate SoundFileTask(s: Install, t: FileTask) {
    && t.clientId in s.clients && t.repositoryId in s.repos && HasRepo(s, t.clientId) && Refers(s.sets, t.backupSetId)
    && AcceptableSource(s.transports, t.source) && SoundSchedule(t.schedule)
    && (if t.source.LocalFolder? then t.source.path.Some? else t.source.remotePath.Some?)
  }

  ghost predicate SoundReplication(s: Install, t: Replication) {
    && t.clientId in s.clients
    && (t.provider.RcloneDrive? <==> t.configRef.Some?) && (t.provider.RcloneDrive? <==> t.transportId.None?)
    && Refers(s.transports, t.transportId)
    && (t.encrypted <==> t.cryptRef.Some?)
    && (t.hostKey.Some? ==> t.hostKey.value.0 != "" && t.hostKey.value.1 != "")
  }

  ghost predicate SoundTasks(s: Install) {
    && (forall i :: i in s.tasks ==> SoundTask(s, s.tasks[i]))
    && (forall i :: i in s.repos ==>
        s.repos[i].clientId in s.clients && (!s.repos[i].initialized ==> s.repos[i].resticRepoId.None?))
    && (forall i, j :: i in s.repos && j in s.repos && s.repos[i].clientId == s.repos[j].clientId ==> i == j)
    && (forall i :: i in s.fileTasks ==> SoundFileTask(s, s.fileTasks[i]))
    && (forall i :: i in s.replications ==> SoundReplication(s, s.replications[i]))
    && (forall i, j ::
        i in s.replications && j in s.replications && SameTarget(s.replications[i], s.replications[j]) ==> i == j)
  }

  ghost predicate SoundVault(s: Install) {
    && (forall i :: i in s.credentials ==> SoundCredential(s, s.credentials[i]))
    && (forall i, j :: i in s.credentials && j in s.credentials && SharesLink(s.credentials[i], s.credentials[j]) ==>
        i == j)
    && (forall i :: i in s.urls ==>
        s.urls[i].clientId in s.clients && Refers(s.credentials, s.urls[i].linkedCredentialId))
    && (forall i :: i in s.items ==> s.items[i].clientId in s.clients && SoundBody(s.items[i]))
  }

  predicate SameTarget(a: Replication, b: Replication) {
    a.clientId == b.clientId && a.content == b.content
  }

  ghost predicate SoundCredential(s: Install, c: Credential) {
    && c.clientId in s.clients && AcceptableLink(c)
    && Refers(s.transports, c.linkedTransportId) && Refers(s.connections, c.linkedConnectionId)
  }

  predicate SharesLink(a: Credential, b: Credential) {
    || (a.linkedTransportId.Some? && a.linkedTransportId == b.linkedTransportId)
    || (a.linkedConnectionId.Some? && a.linkedConnectionId == b.linkedConnectionId)
  }

  predicate SoundBody(r: Item) {
    if r.isSensitive then r.bodyPlaintext.None? else r.bodyRef.None?
  }

  // A complete source: every key file and secret its rows refer to is there, and none is empty.

  ghost predicate Held(s: Install, ref: Option<Ref>) {
    ref.Some? ==> Present(SecretAt(s.secrets, ref))
  }

  ghost predicate Complete(s: Install) {
    && (forall i :: i in s.transports ==>
          && (Keyed(s.transports[i].kind) && s.transports[i].keyPath.Some? ==>
                s.transports[i].keyPath.value in s.keyFiles && s.keyFiles[s.transports[i].keyPath.value] != [])
          && Held(s, s.transports[i].passphraseRef) && Held(s, s.transports[i].passwordRef))
    && (forall i :: i in s.connections ==> Held(s, s.connections[i].passwordRef))
    && (forall i :: i in s.tasks && s.tasks[i].strategy.RemoteDump? ==> Held(s, s.tasks[i].strategy.passwordRef))
    && (forall i :: i in s.repos ==> Held(s, Some(s.repos[i].passwordRef)))
    && (forall i :: i in s.replications ==> Held(s, s.replications[i].configRef) && Held(s, s.replications[i].cryptRef))
    && (forall i :: i in s.items && s.items[i].bodyRef.Some? ==> s.items[i].bodyRef.value in s.bodies)
  }

  ghost predicate NoFaults(f: Faults) {
    forall t, j :: !f(t, j)
  }

  /** The payload of a sound and complete installation, imported into an empty one, nothing failing. */
  ghost predicate Setting(s: Install, b: Job) {
    && SoundConnections(s) && SoundTasks(s) && SoundVault(s) && Complete(s)
    && Exports(s, b.payload)
    && FreshUuids(b)
    && b.start == Install(map[], map[], map[], map[], map[], map[], map[], map[], map[], map[], map[], map[], map[],
                          map[], b.start.keyFiles)
    && NoFaults(b.faults)
    && KeysWritten(b.payload.transports, b.keys, b.start.keyFiles)
  }

  // What it means that a table was rebuilt.

  /** Every source row has its own new row, and there are no others. */
  ghost predicate Bijection<R, V>(table: map<Id, R>, o: Outcome<R, Ref, V>) {
    && o.ids.Keys == table.Keys
    && (forall x, y :: x in o.ids && y in o.ids && o.ids[x] == o.ids[y] ==> x == y)
    && (forall x :: x in o.ids ==> o.ids[x] in o.after)
    && (forall id :: id in o.after ==> exists x :: x in o.ids && o.ids[x] == id)
    && o.created == |o.after|
  }

  ghost predicate RowRebuilt<R, S, V>(rules: Rules<R, S, Ref, V>, x: Exported<R, S>, o: Outcome<R, Ref, V>, n: nat) {
    && x.id in o.ids && o.ids[x.id] in o.after
    && o.after[o.ids[x.id]] == rules.image(x, n)
    && forall r :: r in rules.secrets(x, n) ==> r in o.store && o.store[r] == rules.secrets(x, n)[r]
  }

  ghost predicate Rebuilds<R, S, V>(rules: Rules<R, S, Ref, V>, table: map<Id, R>, beside: R -> S,
                                    o: Outcome<R, Ref, V>)
  {
    && Bijection(table, o)
    && forall id :: id in table ==> exists n: nat :: RowRebuilt(rules, Entry(table, beside, id), o, n)
  }

  /** The id map, read entry by entry. */
  ghost predicate EntryIds<R, S>(uuid: Uuids, rows: seq<Exported<R, S>>, ids: map<Id, Id>, made: map<nat, nat>) {
    && (forall j :: 0 <= j < |rows| ==> j in made && rows[j].id in ids && ids[rows[j].id] == uuid(made[j]))
    && (forall x :: x in ids ==> exists j :: 0 <= j < |rows| && rows[j].id == x)
  }

  lemma IdsByEntry<R, S>(uuid: Uuids, rows: seq<Exported<R, S>>, ids: map<Id, Id>, made: map<nat, nat>)
    requires IdsMapped(uuid, rows, ids, made) && UniqueIds(rows)
    requires forall j :: 0 <= j < |rows| ==> j in made
    ensures EntryIds(uuid, rows, ids, made)
  {
    forall j | 0 <= j < |rows| ensures rows[j].id in ids && ids[rows[j].id] == uuid(made[j]) {
      var k :| k in made && k < |rows| && rows[k].id == rows[j].id && ids[rows[j].id] == uuid(made[k]);
      assert k == j;
    }
  }

  lemma EntryRow<R(!new), S(!new), V(!new)>(
    rules: Rules<R, S, Ref, V>, uuid: Uuids, rows: seq<Exported<R, S>>, o: Outcome<R, Ref, V>, j: nat)
    requires j < |rows|
    requires RowsAdded(rules, uuid, rows, map[], o.after, o.made) && EntryIds(uuid, rows, o.ids, o.made)
    ensures rows[j].id in o.ids && o.ids[rows[j].id] in o.after
            && o.after[o.ids[rows[j].id]] == rules.image(rows[j], o.made[j])
  {
  }

  lemma EntryRebuilt<R(!new), S(!new), V(!new)>(
    rules: Rules<R, S, Ref, V>, uuid: Uuids, rows: seq<Exported<R, S>>, store: map<Ref, V>, first: nat,
      o: Outcome<R, Ref, V>, j: nat)
    requires j < |rows| && j in o.made
    requires RowsAdded(rules, uuid, rows, map[], o.after, o.made) && EntryIds(uuid, rows, o.ids, o.made)
    requires SecretsStored(rules, rows, store, o.store, o.made, first, o.next)
    ensures RowRebuilt(rules, rows[j], o, o.made[j])
  {
    hide RowsAdded, EntryIds, Written;
    EntryRow(rules, uuid, rows, o, j);
  }

  lemma NewIdsCovered<R(!new), S(!new), V(!new)>(
    rules: Rules<R, S, Ref, V>, uuid: Uuids, rows: seq<Exported<R, S>>, o: Outcome<R, Ref, V>, id: Id)
    requires RowsAdded(rules, uuid, rows, map[], o.after, o.made) && EntryIds(uuid, rows, o.ids, o.made)
    requires id in o.after
    ensures exists x :: x in o.ids && o.ids[x] == id
  {
    var j :| j in o.made && id == uuid(o.made[j]);
    assert o.ids[rows[j].id] == id;
  }

  lemma NewIdsDistinct<R(!new), S(!new), V(!new)>(
    rules: Rules<R, S, Ref, V>, uuid: Uuids, rows: seq<Exported<R, S>>, first: nat, o: Outcome<R, Ref, V>, x: Id, y: Id)
    requires DrawsDistinct(rules, rows, |rows|, o.made, first, o.next) && Distinct(uuid)
             && EntryIds(uuid, rows, o.ids, o.made)
    requires x in o.ids && y in o.ids && o.ids[x] == o.ids[y]
    ensures x == y
  {
    var j :| 0 <= j < |rows| && rows[j].id == x;
    var k :| 0 <= k < |rows| && rows[k].id == y;
    assert o.made[j] == o.made[k];
  }

  lemma IdsBijective<R(!new), S(!new), V(!new)>(
    rules: Rules<R, S, Ref, V>, uuid: Uuids, rows: seq<Exported<R, S>>, first: nat, o: Outcome<R, Ref, V>,
      table: map<Id, R>)
    requires DrawsDistinct(rules, rows, |rows|, o.made, first, o.next) && Distinct(uuid)
    requires RowsAdded(rules, uuid, rows, map[], o.after, o.made) && EntryIds(uuid, rows, o.ids, o.made)
    requires forall j :: 0 <= j < |rows| ==> rows[j].id in table
    requires forall id :: id in table ==> exists j :: 0 <= j < |rows| && rows[j].id == id
    requires |o.after| == o.created
    ensures Bijection(table, o)
  {
    hide DrawsDistinct, Distinct, RowsAdded, EntryIds;
    IdKeys(uuid, rows, o.ids, o.made, table);
    forall x | x in o.ids ensures o.ids[x] in o.after {
      var j :| 0 <= j < |rows| && rows[j].id == x;
      EntryRow(rules, uuid, rows, o, j);
    }
    forall id | id in o.after ensures exists x :: x in o.ids && o.ids[x] == id {
      NewIdsCovered(rules, uuid, rows, o, id);
    }
    forall x, y | x in o.ids && y in o.ids && o.ids[x] == o.ids[y] ensures x == y {
      NewIdsDistinct(rules, uuid, rows, first, o, x, y);
    }
  }

  lemma IdKeys<R(!new), S(!new)>(uuid: Uuids, rows: seq<Exported<R, S>>, ids: map<Id, Id>, made: map<nat, nat>,
                                 table: map<Id, R>)
    requires EntryIds(uuid, rows, ids, made)
    requires forall j :: 0 <= j < |rows| ==> rows[j].id in table
    requires forall id :: id in table ==> exists j :: 0 <= j < |rows| && rows[j].id == id
    ensures ids.Keys == table.Keys
  {
  }

  /** If every entry is wanted and none is refused, the whole table is rebuilt. */
  lemma WholeTable<R(!new), S(!new), V(!new)>(
    rules: Rules<R, S, Ref, V>, uuid: Uuids, rows: seq<Exported<R, S>>, store: map<Ref, V>, first: nat,
      o: Outcome<R, Ref, V>, table: map<Id, R>, included: R -> bool, beside: R -> S)
    requires Restored(rules, uuid, rows, |rows|, map[], store, first, o) && Distinct(uuid)
    requires Lists(rows, table, included, beside)
    requires forall id :: id in table ==> included(table[id])
    requires forall j :: 0 <= j < |rows| ==> rules.wanted(rows[j]) && !Refused(rules, map[], rows, j, Skip)
    ensures Rebuilds(rules, table, beside, o)
  {
    hide DrawsDistinct, RowsAdded, IdsMapped, SecretsStored, AcceptedInTurn, Refused, RefusedInTurn, UniqueIds,
         EntryIds, Bijection, RowRebuilt;
    forall j | 0 <= j < |rows| ensures j in o.made {
      if j !in o.made { RefusedAtAll(rules, map[], rows, |rows|, o.made, first, o.next, j); }
    }
    IdsByEntry(uuid, rows, o.ids, o.made);
    IdsBijective(rules, uuid, rows, first, o, table);
    forall id | id in table ensures exists n: nat :: RowRebuilt(rules, Entry(table, beside, id), o, n) {
      var j :| 0 <= j < |rows| && rows[j].id == id;
      EntryRebuilt(rules, uuid, rows, store, first, o, j);
    }
  }

  // Step by step: every entry is wanted, the database refuses none, so each table is rebuilt.

  ghost predicate Smooth<R(!new), S(!new), V(!new)>(rules: Rules<R, S, Ref, V>, rows: seq<Exported<R, S>>) {
    forall j :: 0 <= j < |rows| ==>
      rules.wanted(rows[j]) && !Refused(rules, map[], rows, j, Skip) && !Refused(rules, map[], rows, j, Abort)
  }

  ghost predicate ClientsRebuilt(s: Install, b: Job, r: Rebuilt) {
    Rebuilds(ClientRules(b.faults), s.clients, Nothing(), r.clients)
  }

  ghost predicate SetsRebuilt(s: Install, b: Job, r: Rebuilt) {
    Rebuilds(SetRules(r.clients.ids, b.faults), s.sets, Nothing(), r.sets)
  }

  ghost predicate TransportsRebuilt(s: Install, b: Job, r: Rebuilt) {
    Rebuilds(TransportRules(r.clients.ids, b.keys, b.uuid, b.faults), s.transports, TransportBeside(s), r.transports)
  }

  ghost predicate ConnectionsRebuilt(s: Install, b: Job, r: Rebuilt) {
    Rebuilds(ConnectionRules(r.clients.ids, b.uuid, b.faults), s.connections, ConnectionBeside(s), r.connections)
  }

  ghost predicate TasksRebuilt(s: Install, b: Job, r: Rebuilt) {
    Rebuilds(TaskRules(MapsOf(r), r.transports.after, r.connections.after, b.uuid, b.faults), s.tasks, TaskBeside(s),
             r.tasks)
  }

  ghost predicate ReposRebuilt(s: Install, b: Job, r: Rebuilt) {
    Rebuilds(RepoRules(r.clients.ids, b.faults), s.repos, FileRepoBeside(s), r.repos)
  }

  ghost predicate FileTasksRebuilt(s: Install, b: Job, r: Rebuilt) {
    Rebuilds(FileTaskRules(MapsOf(r), r.repos.ids, r.transports.after, b.faults), s.fileTasks, Nothing(), r.fileTasks)
  }

  ghost predicate ReplicationsRebuilt(s: Install, b: Job, r: Rebuilt) {
    Rebuilds(ReplicationRules(MapsOf(r), b.faults), s.replications, ReplicationBeside(s), r.replications)
  }

  ghost predicate CredentialsRebuilt(s: Install, b: Job, r: Rebuilt) {
    Rebuilds(CredentialRules(MapsOf(r), b.uuid, b.faults), s.credentials, CredentialBeside(s), r.credentials)
  }

  ghost predicate UrlsRebuilt(s: Install, b: Job, r: Rebuilt) {
    Rebuilds(UrlRules(MapsOf(r), r.credentials.ids, b.faults), s.urls, Nothing(), r.urls)
  }

  ghost predicate ItemsRebuilt(s: Install, b: Job, r: Rebuilt) {
    Rebuilds(ItemRules(MapsOf(r), b.uuid, b.faults), s.items, ItemBeside(s), r.items)
  }

  /** The entries are rows of the table, each at most once. */
  ghost predicate FromTable<R, S>(rows: seq<Exported<R, S>>, table: map<Id, R>) {
    UniqueIds(rows) && forall j :: 0 <= j < |rows| ==> rows[j].id in table && rows[j].row == table[rows[j].id]
  }

  lemma ListedFromTable<R(!new), S>(rows: seq<Exported<R, S>>, table: map<Id, R>, included: R -> bool, beside: R -> S)
    requires Lists(rows, table, included, beside)
    ensures FromTable(rows, table)
    ensures forall j :: 0 <= j < |rows| ==> rows[j].extra == beside(rows[j].row)
  {
  }

  ghost predicate Injective(m: map<Id, Id>) {
    forall x, y :: x in m && y in m && m[x] == m[y] ==> x == y
  }

  /** A refusal needs a table that the database would refuse. */
  lemma NoRefusal<R(!new), S(!new), V(!new)>(rules: Rules<R, S, Ref, V>, rows: seq<Exported<R, S>>)
    requires forall j :: 0 <= j < |rows| ==> rules.wanted(rows[j])
    requires forall j, t, n :: 0 <= j < |rows| && Earlier(rules, map[], rows, j, t) ==>
             rules.verdict(j, t, rows[j], n) == Accept
    ensures Smooth(rules, rows)
  {
  }

  // For each table: the constraints its source rows satisfy are satisfied again, so nothing is refused.

  lemma NameIsFree(table: map<Id, Client>, f: Faults, rows: seq<Exported<Client, ()>>, j: nat, t: map<Id, Client>)
    requires FromTable(rows, table) && j < |rows| && Earlier(ClientRules(f), map[], rows, j, t)
    requires forall i, k :: i in table && k in table && table[i].name == table[k].name ==> i == k
    ensures !NameTaken(t, rows[j].row.name)
  {
  }

  lemma ClientsSmooth(table: map<Id, Client>, f: Faults, rows: seq<Exported<Client, ()>>)
    requires FromTable(rows, table) && NoFaults(f)
    requires forall i, k :: i in table && k in table && table[i].name == table[k].name ==> i == k
    ensures Smooth(ClientRules(f), rows)
  {
    hide Earlier, NameTaken;
    var rules := ClientRules(f);
    forall j, t: map<Id, Client>, n | 0 <= j < |rows| && Earlier(rules, map[], rows, j, t)
      ensures rules.verdict(j, t, rows[j], n) == Accept
    {
      NameIsFree(table, f, rows, j, t);
    }
    NoRefusal(rules, rows);
  }

  lemma SetIsFree(table: map<Id, BackupSet>, cm: map<Id, Id>, f: Faults, rows: seq<Exported<BackupSet, ()>>, j: nat,
                  t: map<Id, BackupSet>)
    requires FromTable(rows, table) && Injective(cm) && j < |rows| && Earlier(SetRules(cm, f), map[], rows, j, t)
    requires forall i :: i in table ==> table[i].clientId in cm
    requires forall i, k ::
             i in table && k in table && table[i].clientId == table[k].clientId && table[i].name == table[k].name ==>
               i == k
    ensures !SetTaken(t, SetImage(cm, rows[j].row))
  {
  }

  lemma SetsSmooth(table: map<Id, BackupSet>, cm: map<Id, Id>, f: Faults, rows: seq<Exported<BackupSet, ()>>)
    requires FromTable(rows, table) && Injective(cm) && NoFaults(f)
    requires forall i :: i in table ==> table[i].clientId in cm
    requires forall i, k ::
             i in table && k in table && table[i].clientId == table[k].clientId && table[i].name == table[k].name ==>
               i == k
    ensures Smooth(SetRules(cm, f), rows)
  {
    hide Earlier, SetTaken, Injective;
    var rules := SetRules(cm, f);
    forall j, t: map<Id, BackupSet>, n | 0 <= j < |rows| && Earlier(rules, map[], rows, j, t)
      ensures rules.verdict(j, t, rows[j], n) == Accept
    {
      SetIsFree(table, cm, f, rows, j, t);
    }
    NoRefusal(rules, rows);
  }

  lemma TransportsSmooth(table: map<Id, Transport>, cm: map<Id, Id>, keys: map<Id, Path>, uuid: Uuids, f: Faults,
                         rows: seq<Exported<Transport, TransportSecrets>>)
    requires FromTable(rows, table) && NoFaults(f)
    requires forall i :: i in table ==> table[i].clientId in cm && (Keyed(table[i].kind) ==> i in keys)
    ensures Smooth(TransportRules(cm, keys, uuid, f), rows)
  {
    hide Earlier;
    NoRefusal(TransportRules(cm, keys, uuid, f), rows);
  }

  lemma ConnectionsSmooth(table: map<Id, Connection>, cm: map<Id, Id>, uuid: Uuids, f: Faults,
                          rows: seq<Exported<Connection, Option<string>>>)
    requires FromTable(rows, table) && NoFaults(f)
    requires forall i :: i in table ==> table[i].clientId in cm
    ensures Smooth(ConnectionRules(cm, uuid, f), rows)
  {
    hide Earlier;
    NoRefusal(ConnectionRules(cm, uuid, f), rows);
  }

  /** A rebuilt connection table: every source id has its row, of the same kind. */
  ghost predicate SameKinds(table: map<Id, Transport>, tm: map<Id, Id>, after: map<Id, Transport>) {
    forall i :: i in table ==> i in tm && tm[i] in after && after[tm[i]].kind == table[i].kind
  }

  ghost predicate SameIds<R>(table: map<Id, R>, m: map<Id, Id>, after: map<Id, R>) {
    forall i :: i in table ==> i in m && m[i] in after
  }

  /** A task accepted at the source is accepted again. */
  lemma TaskAcceptedAgain(transports: map<Id, Transport>, connections: map<Id, Connection>, m: Maps,
                          transports': map<Id, Transport>, connections': map<Id, Connection>, uuid: Uuids,
                          x: Exported<Task, Option<string>>, n: nat)
    requires AcceptableTask(transports, connections, x.row)
    requires SameKinds(transports, m.transports, transports') && SameIds(connections, m.connections, connections')
    ensures LinkRestored(m.transports, m.connections, x.row.strategy)
    ensures AcceptableTask(transports', connections', TaskImage(m, uuid, x, n))
  {
  }

  lemma TasksSmooth(table: map<Id, Task>, transports: map<Id, Transport>, connections: map<Id, Connection>, m: Maps,
                    transports': map<Id, Transport>, connections': map<Id, Connection>, uuid: Uuids, f: Faults,
                      rows: seq<Exported<Task, Option<string>>>)
    requires FromTable(rows, table) && NoFaults(f)
    requires SameKinds(transports, m.transports, transports') && SameIds(connections, m.connections, connections')
    requires forall i :: i in table ==>
             table[i].clientId in m.clients && AcceptableTask(transports, connections, table[i])
               && SoundSchedule(table[i].schedule)
    ensures Smooth(TaskRules(m, transports', connections', uuid, f), rows)
  {
    hide Earlier, AcceptableTask, TaskImage, LinkRestored, SameKinds, SameIds, ValidSchedule, StoredSchedule;
    var rules := TaskRules(m, transports', connections', uuid, f);
    forall j | 0 <= j < |rows| ensures rules.wanted(rows[j]) {
      TaskAcceptedAgain(transports, connections, m, transports', connections', uuid, rows[j], 0);
    }
    forall j, t, n | 0 <= j < |rows| ensures rules.verdict(j, t, rows[j], n) == Accept {
      TaskAcceptedAgain(transports, connections, m, transports', connections', uuid, rows[j], n);
    }
    NoRefusal(rules, rows);
  }

  lemma RepoIsFree(table: map<Id, FileRepo>, cm: map<Id, Id>, f: Faults, rows: seq<Exported<FileRepo, Option<string>>>,
                   j: nat, t: map<Id, FileRepo>)
    requires FromTable(rows, table) && Injective(cm) && j < |rows| && Earlier(RepoRules(cm, f), map[], rows, j, t)
    requires forall i :: i in table ==> table[i].clientId in cm
    requires forall i, k :: i in table && k in table && table[i].clientId == table[k].clientId ==> i == k
    ensures !RepoTaken(t, At(cm, rows[j].row.clientId))
  {
  }

  lemma ReposSmooth(table: map<Id, FileRepo>, cm: map<Id, Id>, f: Faults, rows: seq<Exported<FileRepo, Option<string>>>)
    requires FromTable(rows, table) && Injective(cm) && NoFaults(f)
    requires forall j :: 0 <= j < |rows| ==> Present(rows[j].extra)
    requires forall i :: i in table ==> table[i].clientId in cm
    requires forall i, k :: i in table && k in table && table[i].clientId == table[k].clientId ==> i == k
    ensures Smooth(RepoRules(cm, f), rows)
  {
    hide Earlier, RepoTaken, Injective;
    var rules := RepoRules(cm, f);
    forall j, t: map<Id, FileRepo>, n | 0 <= j < |rows| && Earlier(rules, map[], rows, j, t)
      ensures rules.verdict(j, t, rows[j], n) == Accept
    {
      RepoIsFree(table, cm, f, rows, j, t);
    }
    NoRefusal(rules, rows);
  }

  lemma SourceAcceptedAgain(transports: map<Id, Transport>, m: Maps, repos: map<Id, Id>,
                            transports': map<Id, Transport>, x: FileTask)
    requires AcceptableSource(transports, x.source) && SameKinds(transports, m.transports, transports')
    ensures x.source.RemoteFolder? ==> Mapped(m.transports, x.source.transportId).Some?
    ensures AcceptableSource(transports', FileTaskImage(m, repos, x).source)
  {
  }

  lemma FileTasksSmooth(table: map<Id, FileTask>, transports: map<Id, Transport>, m: Maps, repos: map<Id, Id>,
                        transports': map<Id, Transport>, f: Faults, rows: seq<Exported<FileTask, ()>>)
    requires FromTable(rows, table) && NoFaults(f) && SameKinds(transports, m.transports, transports')
    requires forall i :: i in table ==> table[i].clientId in m.clients && table[i].repositoryId in repos
                                        && AcceptableSource(transports, table[i].source)
                                          && SoundSchedule(table[i].schedule)
    ensures Smooth(FileTaskRules(m, repos, transports', f), rows)
  {
    hide Earlier, AcceptableSource, FileTaskImage, SameKinds, ValidSchedule, StoredSchedule;
    var rules := FileTaskRules(m, repos, transports', f);
    forall j | 0 <= j < |rows| ensures rules.wanted(rows[j]) {
      SourceAcceptedAgain(transports, m, repos, transports', rows[j].row);
    }
    forall j, t, n | 0 <= j < |rows| ensures rules.verdict(j, t, rows[j], n) == Accept {
      var x := rows[j].row;
      SourceAcceptedAgain(transports, m, repos, transports', x);
      assert SoundSchedule(x.schedule) && !f(FileTasks, j);
      assert rules.verdict(j, t, rows[j], n)
          == Guard(f(FileTasks, j) || !AcceptableSource(transports', FileTaskImage(m, repos, x).source)
                   || !RestorableSchedule(x.schedule));
    }
    NoRefusal(rules, rows);
  }

  lemma TargetIsFree(table: map<Id, Replication>, m: Maps, f: Faults,
                     rows: seq<Exported<Replication, ReplicationSecrets>>, j: nat, t: map<Id, Replication>)
    requires FromTable(rows, table) && Injective(m.clients) && j < |rows|
             && Earlier(ReplicationRules(m, f), map[], rows, j, t)
    requires forall i :: i in table ==> table[i].clientId in m.clients
    requires forall i, k :: i in table && k in table && SameTarget(table[i], table[k]) ==> i == k
    ensures !ReplicationTaken(t, At(m.clients, rows[j].row.clientId), rows[j].row.content)
  {
    hide ReplicationStore;
  }

  lemma ReplicationsSmooth(table: map<Id, Replication>, m: Maps, f: Faults,
                           rows: seq<Exported<Replication, ReplicationSecrets>>)
    requires FromTable(rows, table) && Injective(m.clients) && NoFaults(f)
    requires forall j :: 0 <= j < |rows| ==>
      if rows[j].row.provider.RcloneDrive? then Present(rows[j].extra.config)
          else Mapped(m.transports, rows[j].row.transportId).Some?
    requires forall i :: i in table ==> table[i].clientId in m.clients
    requires forall i, k :: i in table && k in table && SameTarget(table[i], table[k]) ==> i == k
    ensures Smooth(ReplicationRules(m, f), rows)
  {
    hide Earlier, ReplicationTaken, ReplicationStore, Injective, SameTarget;
    var rules := ReplicationRules(m, f);
    forall j, t: map<Id, Replication>, n | 0 <= j < |rows| && Earlier(rules, map[], rows, j, t)
      ensures rules.verdict(j, t, rows[j], n) == Accept
    {
      TargetIsFree(table, m, f, rows, j, t);
    }
    NoRefusal(rules, rows);
  }

  lemma LinkIsFree(table: map<Id, Credential>, m: Maps, uuid: Uuids, f: Faults, rows: seq<Exported<Credential, Json>>,
                   j: nat, t: map<Id, Credential>, n: nat)
    requires FromTable(rows, table) && Injective(m.transports) && Injective(m.connections)
    requires j < |rows| && Earlier(CredentialRules(m, uuid, f), map[], rows, j, t)
    requires forall i, k :: i in table && k in table && SharesLink(table[i], table[k]) ==> i == k
    ensures !LinkTaken(t, CredentialImage(m, uuid, rows[j], n))
  {
  }

  lemma LinkAcceptedAgain(m: Maps, uuid: Uuids, x: Exported<Credential, Json>, n: nat)
    requires AcceptableLink(x.row)
    ensures AcceptableLink(CredentialImage(m, uuid, x, n))
  {
  }

  lemma CredentialsSmooth(table: map<Id, Credential>, m: Maps, uuid: Uuids, f: Faults,
                          rows: seq<Exported<Credential, Json>>)
    requires FromTable(rows, table) && Injective(m.transports) && Injective(m.connections) && NoFaults(f)
    requires forall i :: i in table ==> table[i].clientId in m.clients && AcceptableLink(table[i])
    requires forall i, k :: i in table && k in table && SharesLink(table[i], table[k]) ==> i == k
    ensures Smooth(CredentialRules(m, uuid, f), rows)
  {
    hide Earlier, LinkTaken, Injective, SharesLink;
    var rules := CredentialRules(m, uuid, f);
    forall j, t: map<Id, Credential>, n | 0 <= j < |rows| && Earlier(rules, map[], rows, j, t)
      ensures rules.verdict(j, t, rows[j], n) == Accept
    {
      LinkIsFree(table, m, uuid, f, rows, j, t, n);
      LinkAcceptedAgain(m, uuid, rows[j], n);
      var c := CredentialImage(m, uuid, rows[j], n);
      assert rules.verdict(j, t, rows[j], n) == Guard(f(Credentials, j) || !AcceptableLink(c) || LinkTaken(t, c));
    }
    NoRefusal(rules, rows);
  }

  lemma UrlsSmooth(table: map<Id, Url>, m: Maps, credentials: map<Id, Id>, f: Faults, rows: seq<Exported<Url, ()>>)
    requires FromTable(rows, table) && NoFaults(f)
    requires forall i :: i in table ==> table[i].clientId in m.clients
    ensures Smooth(UrlRules(m, credentials, f), rows)
  {
    hide Earlier;
    NoRefusal(UrlRules(m, credentials, f), rows);
  }

  lemma ItemsSmooth(table: map<Id, Item>, m: Maps, uuid: Uuids, f: Faults, rows: seq<Exported<Item, Option<string>>>)
    requires FromTable(rows, table) && NoFaults(f)
    requires forall i :: i in table ==> table[i].clientId in m.clients
    ensures Smooth(ItemRules(m, uuid, f), rows)
  {
    hide Earlier;
    NoRefusal(ItemRules(m, uuid, f), rows);
  }
  /** What later steps use of a rebuilt table. */
  lemma RebuiltIds<R(!new), S(!new), V(!new)>(rules: Rules<R, S, Ref, V>, table: map<Id, R>, beside: R -> S,
                                              o: Outcome<R, Ref, V>)
    requires Rebuilds(rules, table, beside, o)
    ensures Injective(o.ids) && SameIds(table, o.ids, o.after) && forall i :: i in table ==> i in o.ids
  {
  }

  lemma KindKept(cm: map<Id, Id>, keys: map<Id, Path>, uuid: Uuids, x: Exported<Transport, TransportSecrets>, n: nat)
    ensures TransportImage(cm, keys, uuid, x, n).kind == x.row.kind
  {
  }

  lemma ReposHeld(s: Install, rows: seq<Exported<FileRepo, Option<string>>>)
    requires forall i :: i in s.repos ==> Held(s, Some(s.repos[i].passwordRef))
    requires Lists(rows, s.repos, ReposOf(s), FileRepoBeside(s))
    ensures forall j :: 0 <= j < |rows| ==> Present(rows[j].extra)
  {
  }

  lemma TargetsHeld(s: Install, tm: map<Id, Id>, rows: seq<Exported<Replication, ReplicationSecrets>>)
    requires forall i :: i in s.replications ==>
             Held(s, s.replications[i].configRef) && SoundReplication(s, s.replications[i])
    requires forall i :: i in s.transports ==> i in tm
    requires Lists(rows, s.replications, ReplicationsOf(s), ReplicationBeside(s))
    ensures forall j :: 0 <= j < |rows| ==>
      if rows[j].row.provider.RcloneDrive? then Present(rows[j].extra.config)
          else Mapped(tm, rows[j].row.transportId).Some?
  {
    forall j | 0 <= j < |rows|
      ensures if rows[j].row.provider.RcloneDrive? then Present(rows[j].extra.config)
              else Mapped(tm, rows[j].row.transportId).Some?
    {
      assert rows[j] == Entry(s.replications, ReplicationBeside(s), rows[j].id);
    }
  }

  lemma RebuiltKinds(s: Install, b: Job, r: Rebuilt)
    requires TransportsRebuilt(s, b, r)
    ensures SameKinds(s.transports, r.transports.ids, r.transports.after)
  {
    hide TransportImage, Bijection;
    forall i | i in s.transports ensures i in r.transports.ids && r.transports.ids[i] in r.transports.after
                                      && r.transports.after[r.transports.ids[i]].kind == s.transports[i].kind {
      var n: nat :| RowRebuilt(TransportRules(r.clients.ids, b.keys, b.uuid, b.faults),
                               Entry(s.transports, TransportBeside(s), i), r.transports, n);
      KindKept(r.clients.ids, b.keys, b.uuid, Entry(s.transports, TransportBeside(s), i), n);
    }
  }

  lemma AdvanceClients(s: Install, b: Job, r: Rebuilt)
    requires Setting(s, b)
    ensures Smooth(ClientRules(b.faults), b.payload.clients)
    ensures ClientsDone(b, r) ==> ClientsRebuilt(s, b, r)
  {
    hide Lists, FromTable, Restored, Rebuilds, Refused, Held, UniqueIds, Injective;
    ListedFromTable(b.payload.clients, s.clients, Every(), Nothing());
    ClientsSmooth(s.clients, b.faults, b.payload.clients);
    if ClientsDone(b, r) {
      WholeTable(ClientRules(b.faults), b.uuid, b.payload.clients, b.start.secrets, 0, r.clients, s.clients, Every(),
                 Nothing());
    }
  }

  lemma AdvanceSets(s: Install, b: Job, r: Rebuilt)
    requires Setting(s, b) && ClientsRebuilt(s, b, r)
    ensures Smooth(SetRules(r.clients.ids, b.faults), b.payload.sets)
    ensures SetsDone(b, r) ==> SetsRebuilt(s, b, r)
  {
    hide Lists, FromTable, Restored, Rebuilds, Refused, Held, UniqueIds, Injective;
    ListedFromTable(b.payload.sets, s.sets, SetsOf(s), Nothing());
    RebuiltIds(ClientRules(b.faults), s.clients, Nothing(), r.clients);
    SetsSmooth(s.sets, r.clients.ids, b.faults, b.payload.sets);
    if SetsDone(b, r) {
      WholeTable(SetRules(r.clients.ids, b.faults), b.uuid, b.payload.sets, r.clients.store, r.clients.next, r.sets,
                 s.sets, SetsOf(s), Nothing());
    }
  }

  lemma KeysHeld(s: Install, rows: seq<Exported<Transport, TransportSecrets>>, keys: map<Id, Path>,
                 files: map<Path, Bytes>)
    requires SoundConnections(s) && Complete(s) && Lists(rows, s.transports, TransportsOf(s), TransportBeside(s))
    requires KeysWritten(rows, keys, files)
    ensures forall i :: i in s.transports && Keyed(s.transports[i].kind) ==>
      && s.transports[i].keyPath.Some? && s.transports[i].keyPath.value in s.keyFiles
      && i in keys && keys[i] in files && files[keys[i]] == s.keyFiles[s.transports[i].keyPath.value]
  {
    hide UniqueIds, Held;
    forall i | i in s.transports && Keyed(s.transports[i].kind)
      ensures s.transports[i].keyPath.Some? && s.transports[i].keyPath.value in s.keyFiles
           && i in keys && keys[i] in files && files[keys[i]] == s.keyFiles[s.transports[i].keyPath.value]
    {
      assert SoundTransport(s, s.transports[i]);
      var j :| 0 <= j < |rows| && rows[j].id == i;
      assert rows[j] == Entry(s.transports, TransportBeside(s), i);
      assert HasKey(rows[j]);
    }
  }

  lemma AdvanceTransports(s: Install, b: Job, r: Rebuilt)
    requires Setting(s, b) && ClientsRebuilt(s, b, r)
    ensures Smooth(TransportRules(r.clients.ids, b.keys, b.uuid, b.faults), b.payload.transports)
    ensures TransportsDone(b, r) ==> TransportsRebuilt(s, b, r)
  {
    hide Lists, FromTable, Restored, Rebuilds, Refused, Held, UniqueIds, Injective;
    ListedFromTable(b.payload.transports, s.transports, TransportsOf(s), TransportBeside(s));
    RebuiltIds(ClientRules(b.faults), s.clients, Nothing(), r.clients);
    KeysHeld(s, b.payload.transports, b.keys, b.start.keyFiles);
    hide SoundTasks, SoundVault, Complete, KeysWritten;
    TransportsSmooth(s.transports, r.clients.ids, b.keys, b.uuid, b.faults, b.payload.transports);
    if TransportsDone(b, r) {
      WholeTable(TransportRules(r.clients.ids, b.keys, b.uuid, b.faults), b.uuid, b.payload.transports, r.sets.store,
                 r.sets.next, r.transports, s.transports, TransportsOf(s), TransportBeside(s));
    }
  }

  lemma AdvanceConnections(s: Install, b: Job, r: Rebuilt)
    requires Setting(s, b) && ClientsRebuilt(s, b, r)
    ensures Smooth(ConnectionRules(r.clients.ids, b.uuid, b.faults), b.payload.connections)
    ensures ConnectionsDone(b, r) ==> ConnectionsRebuilt(s, b, r)
  {
    hide Lists, FromTable, Restored, Rebuilds, Refused, Held, UniqueIds, Injective;
    ListedFromTable(b.payload.connections, s.connections, ConnectionsOf(s), ConnectionBeside(s));
    RebuiltIds(ClientRules(b.faults), s.clients, Nothing(), r.clients);
    ConnectionsSmooth(s.connections, r.clients.ids, b.uuid, b.faults, b.payload.connections);
    if ConnectionsDone(b, r) {
      WholeTable(ConnectionRules(r.clients.ids, b.uuid, b.faults), b.uuid, b.payload.connections, r.transports.store,
                 r.transports.next, r.connections, s.connections, ConnectionsOf(s), ConnectionBeside(s));
    }
  }

  lemma AdvanceTasks(s: Install, b: Job, r: Rebuilt)
    requires Setting(s, b) && ClientsRebuilt(s, b, r) && TransportsRebuilt(s, b, r) && ConnectionsRebuilt(s, b, r)
    ensures Smooth(TaskRules(MapsOf(r), r.transports.after, r.connections.after, b.uuid, b.faults), b.payload.tasks)
    ensures TasksDone(b, r) ==> TasksRebuilt(s, b, r)
  {
    hide SoundSchedule, SoundFileTask, SoundReplication, AcceptableTask, SameKinds, SameIds, Lists, FromTable, Restored,
         Rebuilds, Refused, Held, UniqueIds, Injective;
    ListedFromTable(b.payload.tasks, s.tasks, TasksOf(s), TaskBeside(s));
    RebuiltIds(ClientRules(b.faults), s.clients, Nothing(), r.clients);
    RebuiltKinds(s, b, r);
    RebuiltIds(ConnectionRules(r.clients.ids, b.uuid, b.faults), s.connections, ConnectionBeside(s), r.connections);
    TasksSmooth(s.tasks, s.transports, s.connections, MapsOf(r), r.transports.after, r.connections.after, b.uuid,
                b.faults, b.payload.tasks);
    if TasksDone(b, r) {
      WholeTable(TaskRules(MapsOf(r), r.transports.after, r.connections.after, b.uuid, b.faults), b.uuid,
                 b.payload.tasks, r.connections.store, r.connections.next, r.tasks, s.tasks, TasksOf(s), TaskBeside(s));
    }
  }

  lemma AdvanceRepos(s: Install, b: Job, r: Rebuilt)
    requires Setting(s, b) && ClientsRebuilt(s, b, r)
    ensures Smooth(RepoRules(r.clients.ids, b.faults), b.payload.repos)
    ensures ReposDone(b, r) ==> ReposRebuilt(s, b, r)
  {
    hide Lists, FromTable, Restored, Rebuilds, Refused, Held, SoundTask, SoundFileTask, SoundReplication, UniqueIds,
         Injective;
    ListedFromTable(b.payload.repos, s.repos, ReposOf(s), FileRepoBeside(s));
    RebuiltIds(ClientRules(b.faults), s.clients, Nothing(), r.clients);
    ReposHeld(s, b.payload.repos);
    ReposSmooth(s.repos, r.clients.ids, b.faults, b.payload.repos);
    if ReposDone(b, r) {
      WholeTable(RepoRules(r.clients.ids, b.faults), b.uuid, b.payload.repos, r.tasks.store, r.tasks.next, r.repos,
                 s.repos, ReposOf(s), FileRepoBeside(s));
    }
  }

  /** What the next lemma uses of the source. */
  lemma FileTasksOfSource(s: Install)
    requires SoundTasks(s)
    ensures forall i :: i in s.fileTasks ==>
      && s.fileTasks[i].clientId in s.clients && s.fileTasks[i].repositoryId in s.repos
        && HasRepo(s, s.fileTasks[i].clientId)
      && AcceptableSource(s.transports, s.fileTasks[i].source) && SoundSchedule(s.fileTasks[i].schedule)
  {
    hide SoundTask, SoundReplication, AcceptableSource, SoundSchedule, HasRepo;
  }

  lemma AdvanceFileTasks(s: Install, b: Job, r: Rebuilt)
    requires Setting(s, b) && ClientsRebuilt(s, b, r) && TransportsRebuilt(s, b, r) && ReposRebuilt(s, b, r)
    ensures Smooth(FileTaskRules(MapsOf(r), r.repos.ids, r.transports.after, b.faults), b.payload.fileTasks)
    ensures FileTasksDone(b, r) ==> FileTasksRebuilt(s, b, r)
  {
    hide SoundSchedule, AcceptableSource, SameKinds, SameIds, Lists, FromTable, Restored, Rebuilds, Refused, UniqueIds,
         Injective;
    FileTasksOfSource(s);
    hide SoundTasks, SoundConnections, SoundVault, Complete;
    ListedFromTable(b.payload.fileTasks, s.fileTasks, FileTasksOf(s), Nothing());
    RebuiltIds(ClientRules(b.faults), s.clients, Nothing(), r.clients);
    RebuiltKinds(s, b, r);
    RebuiltIds(RepoRules(r.clients.ids, b.faults), s.repos, FileRepoBeside(s), r.repos);
    FileTasksSmooth(s.fileTasks, s.transports, MapsOf(r), r.repos.ids, r.transports.after, b.faults,
                    b.payload.fileTasks);
    if FileTasksDone(b, r) {
      WholeTable(FileTaskRules(MapsOf(r), r.repos.ids, r.transports.after, b.faults), b.uuid, b.payload.fileTasks,
                 r.repos.store, r.repos.next, r.fileTasks, s.fileTasks, FileTasksOf(s), Nothing());
    }
  }

  /** What the next lemma uses of the source. */
  lemma TargetsOfSource(s: Install)
    requires SoundTasks(s) && Complete(s)
    ensures forall i :: i in s.replications ==>
      s.replications[i].clientId in s.clients && Held(s, s.replications[i].configRef)
        && SoundReplication(s, s.replications[i])
    ensures forall i, k ::
            i in s.replications && k in s.replications && SameTarget(s.replications[i], s.replications[k]) ==> i == k
  {
    hide Held, SoundTask, SoundFileTask, SameTarget;
  }

  lemma AdvanceReplications(s: Install, b: Job, r: Rebuilt)
    requires Setting(s, b) && ClientsRebuilt(s, b, r) && TransportsRebuilt(s, b, r)
    ensures Smooth(ReplicationRules(MapsOf(r), b.faults), b.payload.replications)
    ensures ReplicationsDone(b, r) ==> ReplicationsRebuilt(s, b, r)
  {
    hide Lists, FromTable, Restored, Rebuilds, Refused, Held, SoundReplication, SameTarget, UniqueIds, Injective;
    TargetsOfSource(s);
    hide SoundTasks, SoundConnections, SoundVault, Complete;
    ListedFromTable(b.payload.replications, s.replications, ReplicationsOf(s), ReplicationBeside(s));
    RebuiltIds(ClientRules(b.faults), s.clients, Nothing(), r.clients);
    RebuiltIds(TransportRules(r.clients.ids, b.keys, b.uuid, b.faults), s.transports, TransportBeside(s), r.transports);
    TargetsHeld(s, r.transports.ids, b.payload.replications);
    ReplicationsSmooth(s.replications, MapsOf(r), b.faults, b.payload.replications);
    if ReplicationsDone(b, r) {
      WholeTable(ReplicationRules(MapsOf(r), b.faults), b.uuid, b.payload.replications, r.fileTasks.store,
                 r.fileTasks.next, r.replications, s.replications, ReplicationsOf(s), ReplicationBeside(s));
    }
  }

  lemma AdvanceCredentials(s: Install, b: Job, r: Rebuilt)
    requires Setting(s, b) && ClientsRebuilt(s, b, r) && TransportsRebuilt(s, b, r) && ConnectionsRebuilt(s, b, r)
    ensures Smooth(CredentialRules(MapsOf(r), b.uuid, b.faults), b.payload.credentials)
    ensures CredentialsDone(b, r) ==> CredentialsRebuilt(s, b, r)
  {
    hide Lists, FromTable, Restored, Rebuilds, Refused, Held, UniqueIds, Injective;
    ListedFromTable(b.payload.credentials, s.credentials, Every(), CredentialBeside(s));
    RebuiltIds(ClientRules(b.faults), s.clients, Nothing(), r.clients);
    RebuiltIds(TransportRules(r.clients.ids, b.keys, b.uuid, b.faults), s.transports, TransportBeside(s), r.transports);
    RebuiltIds(ConnectionRules(r.clients.ids, b.uuid, b.faults), s.connections, ConnectionBeside(s), r.connections);
    CredentialsSmooth(s.credentials, MapsOf(r), b.uuid, b.faults, b.payload.credentials);
    if CredentialsDone(b, r) {
      WholeTable(CredentialRules(MapsOf(r), b.uuid, b.faults), b.uuid, b.payload.credentials, b.start.blobs,
                 r.replications.next, r.credentials, s.credentials, Every(), CredentialBeside(s));
    }
  }

  lemma AdvanceUrls(s: Install, b: Job, r: Rebuilt)
    requires Setting(s, b) && ClientsRebuilt(s, b, r)
    ensures Smooth(UrlRules(MapsOf(r), r.credentials.ids, b.faults), b.payload.urls)
    ensures UrlsDone(b, r) ==> UrlsRebuilt(s, b, r)
  {
    hide Lists, FromTable, Restored, Rebuilds, Refused, Held, UniqueIds, Injective;
    ListedFromTable(b.payload.urls, s.urls, Every(), Nothing());
    RebuiltIds(ClientRules(b.faults), s.clients, Nothing(), r.clients);
    UrlsSmooth(s.urls, MapsOf(r), r.credentials.ids, b.faults, b.payload.urls);
    if UrlsDone(b, r) {
      WholeTable(UrlRules(MapsOf(r), r.credentials.ids, b.faults), b.uuid, b.payload.urls, map[], r.credentials.next,
                 r.urls, s.urls, Every(), Nothing());
    }
  }

  lemma AdvanceItems(s: Install, b: Job, r: Rebuilt)
    requires Setting(s, b) && ClientsRebuilt(s, b, r)
    ensures Smooth(ItemRules(MapsOf(r), b.uuid, b.faults), b.payload.items)
    ensures ItemsDone(b, r) ==> ItemsRebuilt(s, b, r)
  {
    hide Lists, FromTable, Restored, Rebuilds, Refused, Held, UniqueIds, Injective;
    ListedFromTable(b.payload.items, s.items, Every(), ItemBeside(s));
    RebuiltIds(ClientRules(b.faults), s.clients, Nothing(), r.clients);
    ItemsSmooth(s.items, MapsOf(r), b.uuid, b.faults, b.payload.items);
    if ItemsDone(b, r) {
      WholeTable(ItemRules(MapsOf(r), b.uuid, b.faults), b.uuid, b.payload.items, b.start.bodies, r.urls.next, r.items,
                 s.items, Every(), ItemBeside(s));
    }
  }

  // All steps together.

  /** The tables that the first `n` steps rebuild. */
  ghost predicate RebuiltUpTo(s: Install, b: Job, r: Rebuilt, n: nat) {
    && (n > 0 ==> ClientsRebuilt(s, b, r)) && (n > 1 ==> SetsRebuilt(s, b, r)) && (n > 2 ==> TransportsRebuilt(s, b, r))
    && (n > 3 ==> ConnectionsRebuilt(s, b, r)) && (n > 4 ==> TasksRebuilt(s, b, r)) && (n > 5 ==> ReposRebuilt(s, b, r))
    && (n > 6 ==> FileTasksRebuilt(s, b, r)) && (n > 7 ==> ReplicationsRebuilt(s, b, r))
      && (n > 8 ==> CredentialsRebuilt(s, b, r))
    && (n > 9 ==> UrlsRebuilt(s, b, r)) && (n > 10 ==> ItemsRebuilt(s, b, r))
  }

  lemma SmoothNeverAborts<R(!new), S(!new), V(!new)>(rules: Rules<R, S, Ref, V>, rows: seq<Exported<R, S>>)
    requires Smooth(rules, rows)
    ensures !SomeAbort(rules, map[], rows)
  {
  }

  lemma StartsEmpty(s: Install, b: Job)
    requires Setting(s, b)
    ensures b.start.clients == map[] && b.start.sets == map[] && b.start.transports == map[]
            && b.start.connections == map[]
    ensures b.start.tasks == map[] && b.start.repos == map[] && b.start.fileTasks == map[]
            && b.start.replications == map[]
    ensures b.start.credentials == map[] && b.start.urls == map[] && b.start.items == map[]
  {
  }

  lemma ConnectionStepsAreSmooth(s: Install, b: Job, r: Rebuilt, n: nat)
    requires n < 4 && Setting(s, b) && RebuiltUpTo(s, b, r, n)
    ensures !StepAborts(b, r, n)
    ensures Done(b, r, n + 1) ==> RebuiltUpTo(s, b, r, n + 1)
  {
    hide Setting, Smooth, SomeAbort, ClientsDone, SetsDone, TransportsDone, ConnectionsDone,
         ClientsRebuilt, SetsRebuilt, TransportsRebuilt, ConnectionsRebuilt;
    var p, f := b.payload, b.faults;
    StartsEmpty(s, b);
    if n == 0 {
      AdvanceClients(s, b, r);
      SmoothNeverAborts(ClientRules(f), p.clients);
    } else if n == 1 {
      AdvanceSets(s, b, r);
      SmoothNeverAborts(SetRules(r.clients.ids, f), p.sets);
    } else if n == 2 {
      AdvanceTransports(s, b, r);
      SmoothNeverAborts(TransportRules(r.clients.ids, b.keys, b.uuid, f), p.transports);
    } else {
      AdvanceConnections(s, b, r);
      SmoothNeverAborts(ConnectionRules(r.clients.ids, b.uuid, f), p.connections);
    }
  }

  lemma TaskStepsAreSmooth(s: Install, b: Job, r: Rebuilt, n: nat)
    requires 4 <= n < 8 && Setting(s, b) && RebuiltUpTo(s, b, r, n)
    ensures !StepAborts(b, r, n)
    ensures Done(b, r, n + 1) ==> RebuiltUpTo(s, b, r, n + 1)
  {
    hide Setting, Smooth, SomeAbort, ClientsDone, SetsDone, TransportsDone, ConnectionsDone, TasksDone, ReposDone,
         FileTasksDone, ReplicationsDone, ClientsRebuilt, SetsRebuilt, TransportsRebuilt, ConnectionsRebuilt,
           TasksRebuilt, ReposRebuilt, FileTasksRebuilt, ReplicationsRebuilt;
    var p, f, m := b.payload, b.faults, MapsOf(r);
    StartsEmpty(s, b);
    if n == 4 {
      AdvanceTasks(s, b, r);
      SmoothNeverAborts(TaskRules(m, r.transports.after, r.connections.after, b.uuid, f), p.tasks);
    } else if n == 5 {
      AdvanceRepos(s, b, r);
      SmoothNeverAborts(RepoRules(r.clients.ids, f), p.repos);
    } else if n == 6 {
      AdvanceFileTasks(s, b, r);
      SmoothNeverAborts(FileTaskRules(m, r.repos.ids, r.transports.after, f), p.fileTasks);
    } else {
      AdvanceReplications(s, b, r);
      SmoothNeverAborts(ReplicationRules(m, f), p.replications);
    }
  }

  lemma VaultStepsAreSmooth(s: Install, b: Job, r: Rebuilt, n: nat)
    requires 8 <= n < 11 && Setting(s, b) && RebuiltUpTo(s, b, r, n)
    ensures !StepAborts(b, r, n)
    ensures Done(b, r, n + 1) ==> RebuiltUpTo(s, b, r, n + 1)
  {
    hide Setting, Smooth, SomeAbort, ClientsDone, SetsDone, TransportsDone, ConnectionsDone, TasksDone, ReposDone,
         FileTasksDone, ReplicationsDone, CredentialsDone, UrlsDone, ItemsDone, ClientsRebuilt, SetsRebuilt,
           TransportsRebuilt, ConnectionsRebuilt, TasksRebuilt, ReposRebuilt, FileTasksRebuilt, ReplicationsRebuilt,
             CredentialsRebuilt, UrlsRebuilt, ItemsRebuilt;
    var p, f, m := b.payload, b.faults, MapsOf(r);
    StartsEmpty(s, b);
    if n == 8 {
      AdvanceCredentials(s, b, r);
      SmoothNeverAborts(CredentialRules(m, b.uuid, f), p.credentials);
    } else if n == 9 {
      AdvanceUrls(s, b, r);
      SmoothNeverAborts(UrlRules(m, r.credentials.ids, f), p.urls);
    } else {
      AdvanceItems(s, b, r);
      SmoothNeverAborts(ItemRules(m, b.uuid, f), p.items);
    }
  }

  /** The import of an export meets no exception at any step, and every step rebuilds its table. */
  lemma {:induction false} EveryStepSucceeds(s: Install, b: Job, r: Rebuilt, n: nat)
    requires Setting(s, b) && Done(b, r, n)
    ensures RebuiltUpTo(s, b, r, n) && !StepAborts(b, r, n)
  {
    hide Setting, ClientsDone, SetsDone, TransportsDone, ConnectionsDone, TasksDone, ReposDone, FileTasksDone,
         ReplicationsDone, CredentialsDone, UrlsDone, ItemsDone, ClientsRebuilt, SetsRebuilt, TransportsRebuilt,
           ConnectionsRebuilt, TasksRebuilt, ReposRebuilt, FileTasksRebuilt, ReplicationsRebuilt, CredentialsRebuilt,
             UrlsRebuilt, ItemsRebuilt, SomeAbort;
    if n > 0 { EveryStepSucceeds(s, b, r, n - 1); }
    if 0 < n < 5 { ConnectionStepsAreSmooth(s, b, r, n - 1); }
    if 4 < n < 9 { TaskStepsAreSmooth(s, b, r, n - 1); }
    if 8 < n < 12 { VaultStepsAreSmooth(s, b, r, n - 1); }
    if n < 4 { ConnectionStepsAreSmooth(s, b, r, n); }
    if 4 <= n < 8 { TaskStepsAreSmooth(s, b, r, n); }
    if 8 <= n < 11 { VaultStepsAreSmooth(s, b, r, n); }
  }
}

/**
 Which entries of a payload an import restores, table by table, and what makes it stop (exportVault.ts, with the
 checks of tasksRepo.ts, fileBackupTasksRepo.ts and vaultCredentialsRepo.ts). Everything is said of the entry
 itself: its strategy or kind, what it refers to, and the texts it carries.
 */
module ComeBack {
  import opened Common
  import opened JsonValues
  import opened RestoreLoop
  import opened RecoveryModel
  import opened Import
  import Recovery
  import Schedules

  // What an entry has to be.

  /** The kind of the restored transport, if it was restored. */
  function RestoredKind(r: Rebuilt, tid: Option<Id>): Option<TransportKind> {
    if tid.Some? && tid.value in r.transports.ids && r.transports.ids[tid.value] in r.transports.after
    then Some(r.transports.after[r.transports.ids[tid.value]].kind) else None
  }

  predicate Filled(s: Option<string>) {
    s.Some? && |s.value| > 0
  }

  /** Fetching works over SFTP and FTP, dumping over SSH, and a direct dump needs its connection. */
  predicate Runnable(r: Rebuilt, t: Task) {
    match t.strategy
    case FetchExisting(tid, _, _) => RestoredKind(r, tid) == Some(Sftp) || RestoredKind(r, tid) == Some(Ftp)
    case RemoteDump(tid, command, _, _, docker, container, database, user, _) =>
      && RestoredKind(r, tid) == Some(Ssh)
      && (docker ==> Filled(container) && Filled(database) && Filled(user)
                     && (t.engine == Postgres || t.engine == Mysql || t.engine == Mariadb))
      && (!docker ==> Filled(command))
    case DirectDump(cid) => cid.Some? && cid.value in r.connections.ids
  }

  /** A folder is a full path with a drive, or any text but blanks on a restored SFTP or FTP transport. */
  predicate Reachable(r: Rebuilt, s: FileSource) {
    match s
    case LocalFolder(path) =>
      && path.Some? && |path.value| >= 3 && path.value[1..3] == ":\\"
      && ('A' <= path.value[0] <= 'Z' || 'a' <= path.value[0] <= 'z')
    case RemoteFolder(tid, path) =>
      && (RestoredKind(r, tid) == Some(Sftp) || RestoredKind(r, tid) == Some(Ftp))
      && path.Some? && exists i :: 0 <= i < |path.value| && !WhiteSpace(path.value[i])
  }

  ghost predicate TimeOfDay(t: string) {
    exists hours: nat, minutes: nat ::
      hours < 24 && minutes < 60 && t == Schedules.Digits(hours) + ":" + Schedules.Digits(minutes)
  }

  /** A schedule that has a time has one of the 1440 there are, and the days its frequency asks for. */
  ghost predicate Settable(s: Schedule) {
    Filled(s.time) ==>
      && TimeOfDay(s.time.value)
      && match s.frequency
         case Daily => true
         case Weekly => s.daysOfWeek.Some? && s.daysOfWeek.value != [] && WithinWeek(s.daysOfWeek.value)
         case Monthly => s.dayOfMonth.Some? && 0 < s.dayOfMonth.value < 32
  }

  predicate WithinWeek(days: seq<int>) {
    forall d :: d in days ==> 0 <= d < 7
  }

  lemma TimeIsOfTheDay(t: string)
    ensures ValidTime(t) <==> TimeOfDay(t)
  {
    if ValidTime(t) {
      var hours, minutes := 10 * Schedules.DigitValue(t[0]) + Schedules.DigitValue(t[1]),
                            10 * Schedules.DigitValue(t[3]) + Schedules.DigitValue(t[4]);
      Schedules.DigitsBack(t[0], t[1]);
      Schedules.DigitsBack(t[3], t[4]);
      assert hours < 24 && minutes < 60;
      assert t == Schedules.Digits(hours) + ":" + Schedules.Digits(minutes);
    }
    if TimeOfDay(t) {
      var hours: nat, minutes: nat :|
        hours < 24 && minutes < 60 && t == Schedules.Digits(hours) + ":" + Schedules.Digits(minutes);
      assert t[0] == '0' + (hours / 10) as char && t[1] == '0' + (hours % 10) as char && t[2] == ':';
      assert t[3] == '0' + (minutes / 10) as char && t[4] == '0' + (minutes % 10) as char;
      DigitChars(hours);
      DigitChars(minutes);
    }
  }

  lemma DigitChars(n: nat)
    requires n < 100
    ensures Digit('0' + (n / 10) as char) && Digit('0' + (n % 10) as char)
    ensures n < 60 ==> '0' + (n / 10) as char <= '5'
    ensures n < 24 ==>
            '0' + (n / 10) as char <= '2' && ('0' + (n / 10) as char == '2' ==> '0' + (n % 10) as char <= '3')
  {
    var tens, ones := n / 10, n % 10;
    assert n == 10 * tens + ones && 0 <= tens <= 9 && 0 <= ones <= 9;
    assert ('0' + tens as char) as int == 48 + tens && ('0' + ones as char) as int == 48 + ones;
  }

  lemma SettableExactly(s: Schedule)
    ensures RestorableSchedule(s) <==> Settable(s)
  {
    hide ValidTime, TimeOfDay;
    if s.time.Some? { TimeIsOfTheDay(s.time.value); }
    if s.daysOfWeek.Some? {
      var days := s.daysOfWeek.value;
      if WithinWeek(days) {
        forall i | 0 <= i < |days| ensures 0 <= days[i] <= 6 { assert days[i] in days; }
      }
    }
  }

  /** The restored transports are those that the id map leads to. */
  lemma MappedTransport(b: Job, r: Rebuilt, tid: Option<Id>)
    requires TransportsDone(b, r)
    ensures Mapped(r.transports.ids, tid).Some? ==>
              && Mapped(r.transports.ids, tid).value in r.transports.after
              && RestoredKind(r, tid) == Some(r.transports.after[Mapped(r.transports.ids, tid).value].kind)
    ensures Mapped(r.transports.ids, tid).None? ==> RestoredKind(r, tid).None?
  {
    hide Restored;
    Recovery.NewRowsAreImages(TransportRules(r.clients.ids, b.keys, b.uuid, b.faults), b.uuid, b.payload.transports,
                              b.start.transports, r.sets.store, r.sets.next, r.transports);
  }

  lemma MappedConnection(b: Job, r: Rebuilt, cid: Option<Id>)
    requires ConnectionsDone(b, r)
    ensures Mapped(r.connections.ids, cid).Some? ==> Mapped(r.connections.ids, cid).value in r.connections.after
  {
    hide Restored;
    Recovery.NewRowsAreImages(ConnectionRules(r.clients.ids, b.uuid, b.faults), b.uuid, b.payload.connections,
                              b.start.connections, r.transports.store, r.transports.next, r.connections);
  }

  lemma RunnableExactly(b: Job, r: Rebuilt, x: Exported<Task, Option<string>>, n: nat)
    requires TransportsDone(b, r) && ConnectionsDone(b, r)
    ensures Runnable(r, x.row) <==>
            LinkRestored(r.transports.ids, r.connections.ids, x.row.strategy)
            && AcceptableTask(r.transports.after, r.connections.after, TaskImage(MapsOf(r), b.uuid, x, n))
  {
    hide TransportsDone, ConnectionsDone, RestoredKind, Mapped, RestoredSchedule;
    match x.row.strategy
    case FetchExisting(tid, _, _) => MappedTransport(b, r, tid);
    case RemoteDump(tid, _, _, _, _, _, _, _, _) => MappedTransport(b, r, tid);
    case DirectDump(cid) =>
      MappedConnection(b, r, cid);
      assert Mapped(r.connections.ids, cid).Some? <==> cid.Some? && cid.value in r.connections.ids by {
        MappedIs(r.connections.ids, cid);
      }
  }

  lemma MappedIs(m: map<Id, Id>, x: Option<Id>)
    ensures Mapped(m, x).Some? <==> x.Some? && x.value in m
  {
  }

  lemma ReachableExactly(b: Job, r: Rebuilt, x: FileTask)
    requires TransportsDone(b, r)
    ensures Reachable(r, x.source) <==>
            (x.source.RemoteFolder? ==> Mapped(r.transports.ids, x.source.transportId).Some?)
            && AcceptableSource(r.transports.after, FileTaskImage(MapsOf(r), r.repos.ids, x).source)
  {
    hide TransportsDone, RestoredKind, Mapped, RestoredSchedule, WhiteSpace;
    if x.source.RemoteFolder? {
      MappedTransport(b, r, x.source.transportId);
    } else if x.source.path.Some? && |x.source.path.value| >= 3 {
      assert x.source.path.value[1..3] == [x.source.path.value[1], x.source.path.value[2]];
    }
  }

  // Which entries are restored. (For clients: `Recovery.ClientsComeBackExactly`.)

  /** In a table whose database calls are never caught, every wanted entry is restored once the step is done. */
  lemma WantedAreMade<R(!new), S(!new), V(!new)>(
    rules: Rules<R, S, Ref, V>, uuid: Uuids, rows: seq<Exported<R, S>>, before: map<Id, R>, store: map<Ref, V>,
    first: nat, o: Outcome<R, Ref, V>, j: nat)
    requires Restored(rules, uuid, rows, |rows|, before, store, first, o) && j < |rows|
    requires forall t, n :: rules.verdict(j, t, rows[j], n) != Skip
    ensures j in o.made <==> rules.wanted(rows[j])
  {
    hide RowsAdded, IdsMapped, SecretsStored, AcceptedInTurn, EarlierMade;
  }

  /** A wanted entry that is neither made nor kept out by the database does not exist. */
  lemma SkippedByVerdict<R(!new), S(!new), V(!new)>(
    rules: Rules<R, S, Ref, V>, uuid: Uuids, rows: seq<Exported<R, S>>, before: map<Id, R>, store: map<Ref, V>,
    first: nat, o: Outcome<R, Ref, V>, j: nat, skips: bool)
    requires Restored(rules, uuid, rows, |rows|, before, store, first, o) && j < |rows|
    requires forall t, n :: rules.verdict(j, t, rows[j], n) == Skip <==> skips
    ensures j in o.made <==> rules.wanted(rows[j]) && !skips
  {
    hide RowsAdded, IdsMapped, SecretsStored, EarlierMade;
    if j in o.made {
      var t :| AcceptedAgainst(rules, uuid, rows, before, o.made, j, t);
      assert rules.verdict(j, t, rows[j], o.made[j]) == Accept;
    }
  }

  /**
   A backup task is restored if and only if its client was, the insert does not fail, and what its strategy needs is
   there. The others are left out with a warning.
   */
  lemma TasksComeBackExactly(b: Job, r: Rebuilt, j: nat)
    requires Done(b, r, 5) && j < |b.payload.tasks|
    ensures var x := b.payload.tasks[j].row;
            j in r.tasks.made <==> x.clientId in r.clients.ids && !b.faults(Tasks, j) && Runnable(r, x)
  {
    hide Restored, AcceptableTask, TaskImage, LinkRestored, Runnable, RestorableSchedule;
    assert TransportsDone(b, r) && ConnectionsDone(b, r) && TasksDone(b, r);
    hide TransportsDone, ConnectionsDone;
    var m, x := MapsOf(r), b.payload.tasks[j];
    var rules := TaskRules(m, r.transports.after, r.connections.after, b.uuid, b.faults);
    forall t, n ensures rules.verdict(j, t, x, n) == Skip <==>
      b.faults(Tasks, j) || !AcceptableTask(r.transports.after, r.connections.after, TaskImage(m, b.uuid, x, 0))
    {
      TaskVerdict(b, r, j, t, x, n);
    }
    RunnableExactly(b, r, x, 0);
    assert rules.wanted(x) <==>
           x.row.clientId in m.clients && LinkRestored(m.transports, m.connections, x.row.strategy);
    SkippedByVerdict(rules, b.uuid, b.payload.tasks, b.start.tasks, r.connections.store, r.connections.next, r.tasks, j,
                     b.faults(Tasks, j)
                     || !AcceptableTask(r.transports.after, r.connections.after, TaskImage(m, b.uuid, x, 0)));
  }

  lemma TaskVerdict(b: Job, r: Rebuilt, j: nat, t: map<Id, Task>, x: Exported<Task, Option<string>>, n: nat)
    ensures var rules := TaskRules(MapsOf(r), r.transports.after, r.connections.after, b.uuid, b.faults);
            var fits := AcceptableTask(r.transports.after, r.connections.after, TaskImage(MapsOf(r), b.uuid, x, 0));
            rules.verdict(j, t, x, n) ==
              if b.faults(Tasks, j) || !fits then Skip
              else if b.faults(TaskSchedules, j) || !RestorableSchedule(x.row.schedule) then Abort
              else Accept
  {
    hide RestorableSchedule, LinkRestored, RestoredSchedule;
    var m := MapsOf(r);
    assert AcceptableTask(r.transports.after, r.connections.after, TaskImage(m, b.uuid, x, n))
      <==> AcceptableTask(r.transports.after, r.connections.after, TaskImage(m, b.uuid, x, 0));
  }

  /** The tasks step stops the import exactly at a task that would be restored but whose schedule cannot be set. */
  lemma TasksAbortExactly(b: Job, r: Rebuilt)
    requires Done(b, r, 4)
    ensures StepAborts(b, r, 4) <==>
            exists j :: 0 <= j < |b.payload.tasks| && TaskAborts(b, r, j)
  {
    hide Restored, AcceptableTask, TaskImage, LinkRestored, Runnable, RestorableSchedule, Settable;
    assert TransportsDone(b, r) && ConnectionsDone(b, r);
    hide TransportsDone, ConnectionsDone;
    var m := MapsOf(r);
    var rules, rows := TaskRules(m, r.transports.after, r.connections.after, b.uuid, b.faults), b.payload.tasks;
    forall j | 0 <= j < |rows| ensures Refused(rules, b.start.tasks, rows, j, Abort) <==> TaskAborts(b, r, j) {
      var x := rows[j];
      forall t, n ensures rules.verdict(j, t, x, n) == rules.verdict(j, b.start.tasks, x, 0) {
        TaskVerdict(b, r, j, t, x, n);
        TaskVerdict(b, r, j, b.start.tasks, x, 0);
      }
      TaskVerdict(b, r, j, b.start.tasks, x, 0);
      RunnableExactly(b, r, x, 0);
      SettableExactly(x.row.schedule);
      RefusedByVerdict(rules, b.start.tasks, rows, j, Abort);
      assert rules.wanted(x) <==>
             x.row.clientId in m.clients && LinkRestored(m.transports, m.connections, x.row.strategy);
    }
  }

  ghost predicate TaskAborts(b: Job, r: Rebuilt, j: nat)
    requires j < |b.payload.tasks|
  {
    var x := b.payload.tasks[j].row;
    && x.clientId in r.clients.ids && !b.faults(Tasks, j) && Runnable(r, x)
    && (b.faults(TaskSchedules, j) || !Settable(x.schedule))
  }

  // The tables whose entries need only that what they refer to was restored.

  lemma SetsComeBackExactly(b: Job, r: Rebuilt, j: nat)
    requires SetsDone(b, r) && j < |b.payload.sets|
    ensures j in r.sets.made <==> b.payload.sets[j].row.clientId in r.clients.ids
  {
    hide Restored, SetTaken;
    var rules, x := SetRules(r.clients.ids, b.faults), b.payload.sets[j];
    assert forall t, n ::
      rules.verdict(j, t, x, n) == Guard(b.faults(Sets, j) || SetTaken(t, SetImage(r.clients.ids, x.row)));
    WantedAreMade(rules, b.uuid, b.payload.sets, b.start.sets, r.clients.store, r.clients.next, r.sets, j);
  }

  /** A keyed transport also needs its key file. */
  lemma TransportsComeBackExactly(b: Job, r: Rebuilt, j: nat)
    requires TransportsDone(b, r) && j < |b.payload.transports|
    ensures var x := b.payload.transports[j];
            j in r.transports.made <==> x.row.clientId in r.clients.ids && (x.row.kind == Ftp || x.id in b.keys)
  {
    hide Restored, TransportImage;
    var rules, x := TransportRules(r.clients.ids, b.keys, b.uuid, b.faults), b.payload.transports[j];
    assert forall t, n :: rules.verdict(j, t, x, n) == Guard(b.faults(Transports, j));
    WantedAreMade(rules, b.uuid, b.payload.transports, b.start.transports, r.sets.store, r.sets.next, r.transports, j);
  }

  lemma ConnectionsComeBackExactly(b: Job, r: Rebuilt, j: nat)
    requires ConnectionsDone(b, r) && j < |b.payload.connections|
    ensures j in r.connections.made <==> b.payload.connections[j].row.clientId in r.clients.ids
  {
    hide Restored;
    var rules, x := ConnectionRules(r.clients.ids, b.uuid, b.faults), b.payload.connections[j];
    assert forall t, n :: rules.verdict(j, t, x, n) == Guard(b.faults(Connections, j));
    WantedAreMade(rules, b.uuid, b.payload.connections, b.start.connections, r.transports.store, r.transports.next,
                  r.connections, j);
  }

  /** A repository also needs its password. */
  lemma ReposComeBackExactly(b: Job, r: Rebuilt, j: nat)
    requires ReposDone(b, r) && j < |b.payload.repos|
    ensures var x := b.payload.repos[j]; j in r.repos.made <==> x.row.clientId in r.clients.ids && Filled(x.extra)
  {
    hide Restored, RepoTaken;
    var rules, x := RepoRules(r.clients.ids, b.faults), b.payload.repos[j];
    assert forall t, n ::
      rules.verdict(j, t, x, n) == Guard(b.faults(Repos, j) || RepoTaken(t, At(r.clients.ids, x.row.clientId)));
    WantedAreMade(rules, b.uuid, b.payload.repos, b.start.repos, r.tasks.store, r.tasks.next, r.repos, j);
  }

  /** A replication target needs its configuration, if it is a drive, or else its transport. */
  lemma ReplicationsComeBackExactly(b: Job, r: Rebuilt, j: nat)
    requires ReplicationsDone(b, r) && j < |b.payload.replications|
    ensures var x := b.payload.replications[j];
            j in r.replications.made <==>
              && x.row.clientId in r.clients.ids
              && (x.row.provider == RcloneDrive ==> Filled(x.extra.config))
              && (x.row.provider != RcloneDrive ==>
                  x.row.transportId.Some? && x.row.transportId.value in r.transports.ids)
  {
    hide Restored, ReplicationTaken, ReplicationImage, ReplicationStore;
    var rules, x := ReplicationRules(MapsOf(r), b.faults), b.payload.replications[j];
    forall t, n ensures rules.verdict(j, t, x, n) != Skip {
      assert rules.verdict(j, t, x, n)
        == Guard(b.faults(Replications, j) || ReplicationTaken(t, At(r.clients.ids, x.row.clientId), x.row.content));
    }
    WantedAreMade(rules, b.uuid, b.payload.replications, b.start.replications, r.fileTasks.store, r.fileTasks.next,
                  r.replications, j);
  }

  lemma CredentialsComeBackExactly(b: Job, r: Rebuilt, j: nat)
    requires CredentialsDone(b, r) && j < |b.payload.credentials|
    ensures j in r.credentials.made <==> b.payload.credentials[j].row.clientId in r.clients.ids
  {
    hide Restored, CredentialImage, AcceptableLink, LinkTaken;
    var rules, x := CredentialRules(MapsOf(r), b.uuid, b.faults), b.payload.credentials[j];
    forall t, n ensures rules.verdict(j, t, x, n) != Skip {
      var c := CredentialImage(MapsOf(r), b.uuid, x, n);
      assert rules.verdict(j, t, x, n) == Guard(b.faults(Credentials, j) || !AcceptableLink(c) || LinkTaken(t, c));
    }
    WantedAreMade(rules, b.uuid, b.payload.credentials, b.start.credentials, b.start.blobs, r.replications.next,
                  r.credentials, j);
  }

  lemma UrlsComeBackExactly(b: Job, r: Rebuilt, j: nat)
    requires UrlsDone(b, r) && j < |b.payload.urls|
    ensures j in r.urls.made <==> b.payload.urls[j].row.clientId in r.clients.ids
  {
    hide Restored, UrlImage;
    var rules, x := UrlRules(MapsOf(r), r.credentials.ids, b.faults), b.payload.urls[j];
    assert forall t, n :: rules.verdict(j, t, x, n) == Guard(b.faults(Urls, j));
    WantedAreMade(rules, b.uuid, b.payload.urls, b.start.urls, map[], r.credentials.next, r.urls, j);
  }

  lemma ItemsComeBackExactly(b: Job, r: Rebuilt, j: nat)
    requires ItemsDone(b, r) && j < |b.payload.items|
    ensures j in r.items.made <==> b.payload.items[j].row.clientId in r.clients.ids
  {
    hide Restored, ItemImage;
    var rules, x := ItemRules(MapsOf(r), b.uuid, b.faults), b.payload.items[j];
    assert forall t, n :: rules.verdict(j, t, x, n) == Guard(b.faults(Items, j));
    WantedAreMade(rules, b.uuid, b.payload.items, b.start.items, b.start.bodies, r.urls.next, r.items, j);
  }

  /** A link fits its credential: kinds of remote access go to a transport, kinds of database to a connection. */
  lemma LinkFitsExactly(c: Credential)
    ensures AcceptableLink(c) <==>
            match c.info.kind
            case KindSsh => c.linkedConnectionId.None?
            case KindSshKey => c.linkedConnectionId.None?
            case KindSftp => c.linkedConnectionId.None?
            case KindFtp => c.linkedConnectionId.None?
            case KindPostgres => c.linkedTransportId.None?
            case KindMysql => c.linkedTransportId.None?
            case KindMariadb => c.linkedTransportId.None?
            case KindOther(_) => c.linkedTransportId.None? && c.linkedConnectionId.None?
  {
  }

  /** When the answer does not depend on the table, refusing is answering so. */
  lemma RefusedByVerdict<R(!new), S(!new), V(!new)>(rules: Rules<R, S, Ref, V>, before: map<Id, R>,
                                                    rows: seq<Exported<R, S>>, j: nat, v: Verdict)
    requires j < |rows| && forall t, n :: rules.verdict(j, t, rows[j], n) == rules.verdict(j, before, rows[j], 0)
    ensures Refused(rules, before, rows, j, v) <==> rules.wanted(rows[j]) && rules.verdict(j, before, rows[j], 0) == v
  {
    assert Earlier(rules, before, rows, j, before);
  }

  /** A file-backup task is wanted if and only if client, repository and a remote source's transport were restored. */
  predicate FileTaskWanted(r: Rebuilt, x: FileTask) {
    && x.clientId in r.clients.ids && x.repositoryId in r.repos.ids
    && (x.source.RemoteFolder? ==> RestoredKind(r, x.source.transportId).Some?)
  }

  lemma FileTaskVerdict(b: Job, r: Rebuilt, j: nat, t: map<Id, FileTask>, x: Exported<FileTask, ()>, n: nat)
    requires TransportsDone(b, r)
    ensures var rules := FileTaskRules(MapsOf(r), r.repos.ids, r.transports.after, b.faults);
            var bad := b.faults(FileTasks, j) || !Reachable(r, x.row.source) || !Settable(x.row.schedule);
            && (rules.wanted(x) <==> FileTaskWanted(r, x.row))
            && (rules.wanted(x) ==> rules.verdict(j, t, x, n) == if bad then Abort else Accept)
  {
    hide TransportsDone, AcceptableSource, Reachable, Settable, RestorableSchedule, RestoredKind, Mapped, FileTaskImage,
         FileTaskWanted;
    SettableExactly(x.row.schedule);
    ReachableExactly(b, r, x.row);
    WantedExactly(b, r, x.row);
    var rules := FileTaskRules(MapsOf(r), r.repos.ids, r.transports.after, b.faults);
    assert rules.verdict(j, t, x, n)
        == Guard(b.faults(FileTasks, j)
                 || !AcceptableSource(r.transports.after, FileTaskImage(MapsOf(r), r.repos.ids, x.row).source)
                 || !RestorableSchedule(x.row.schedule));
  }

  lemma WantedExactly(b: Job, r: Rebuilt, x: FileTask)
    requires TransportsDone(b, r)
    ensures FileTaskWanted(r, x) <==>
            x.clientId in r.clients.ids && x.repositoryId in r.repos.ids
            && (x.source.RemoteFolder? ==> Mapped(r.transports.ids, x.source.transportId).Some?)
  {
    hide TransportsDone, RestoredKind, Mapped;
    if x.source.RemoteFolder? { MappedTransport(b, r, x.source.transportId); }
  }

  /**
   Every wanted file-backup task is restored, and the step stops the import exactly at one whose source or schedule is
   refused, or whose insert fails.
   */
  lemma FileTasksComeBackExactly(b: Job, r: Rebuilt, j: nat)
    requires Done(b, r, 7) && j < |b.payload.fileTasks|
    ensures var x := b.payload.fileTasks[j].row;
            && (j in r.fileTasks.made <==> FileTaskWanted(r, x))
            && (FileTaskWanted(r, x) ==> !b.faults(FileTasks, j) && Reachable(r, x.source) && Settable(x.schedule))
  {
    hide Restored, FileTaskWanted, Reachable, Settable;
    assert TransportsDone(b, r) && FileTasksDone(b, r);
    hide TransportsDone;
    var x, rules := b.payload.fileTasks[j], FileTaskRules(MapsOf(r), r.repos.ids, r.transports.after, b.faults);
    forall t, n ensures rules.verdict(j, t, x, n) != Skip { NoSkip(b, r, j, t, x, n); }
    WantedAreMade(rules, b.uuid, b.payload.fileTasks, b.start.fileTasks, r.repos.store, r.repos.next, r.fileTasks, j);
    FileTaskVerdict(b, r, j, b.start.fileTasks, x, 0);
    hide FileTaskRules;
    if j in r.fileTasks.made {
      var n, t := MadeWasAccepted(rules, b.uuid, b.payload.fileTasks, b.start.fileTasks, r.repos.store, r.repos.next,
                                  r.fileTasks, j);
      FileTaskVerdict(b, r, j, t, x, n);
    }
  }

  lemma NoSkip(b: Job, r: Rebuilt, j: nat, t: map<Id, FileTask>, x: Exported<FileTask, ()>, n: nat)
    ensures FileTaskRules(MapsOf(r), r.repos.ids, r.transports.after, b.faults).verdict(j, t, x, n) != Skip
  {
    hide AcceptableSource, RestorableSchedule;
    assert FileTaskRules(MapsOf(r), r.repos.ids, r.transports.after, b.faults).verdict(j, t, x, n)
      == Guard(b.faults(FileTasks, j)
               || !AcceptableSource(r.transports.after, FileTaskImage(MapsOf(r), r.repos.ids, x.row).source)
               || !RestorableSchedule(x.row.schedule));
  }

  lemma MadeWasAccepted<R(!new), S(!new), V(!new)>(
    rules: Rules<R, S, Ref, V>, uuid: Uuids, rows: seq<Exported<R, S>>, before: map<Id, R>, store: map<Ref, V>,
    first: nat, o: Outcome<R, Ref, V>, j: nat) returns (n: nat, t: map<Id, R>)
    requires Restored(rules, uuid, rows, |rows|, before, store, first, o) && j < |rows| && j in o.made
    ensures rules.wanted(rows[j]) && rules.verdict(j, t, rows[j], n) == Accept
  {
    hide RowsAdded, IdsMapped, SecretsStored, RefusalsExplained;
    t :| AcceptedAgainst(rules, uuid, rows, before, o.made, j, t);
    n := o.made[j];
  }

  lemma FileTasksAbortExactly(b: Job, r: Rebuilt)
    requires Done(b, r, 6)
    ensures StepAborts(b, r, 6) <==>
            exists j :: 0 <= j < |b.payload.fileTasks| && FileTaskAborts(b, r, j)
  {
    hide Restored, FileTaskWanted, Reachable, Settable;
    assert TransportsDone(b, r);
    hide TransportsDone;
    var rules, rows := FileTaskRules(MapsOf(r), r.repos.ids, r.transports.after, b.faults), b.payload.fileTasks;
    hide FileTaskRules;
    forall j | 0 <= j < |rows| ensures Refused(rules, b.start.fileTasks, rows, j, Abort) <==> FileTaskAborts(b, r, j) {
      var x := rows[j];
      FileTaskVerdict(b, r, j, b.start.fileTasks, x, 0);
      if rules.wanted(x) {
        forall t, n ensures rules.verdict(j, t, x, n) == rules.verdict(j, b.start.fileTasks, x, 0) {
          FileTaskVerdict(b, r, j, t, x, n);
        }
        RefusedByVerdict(rules, b.start.fileTasks, rows, j, Abort);
      }
    }
  }

  ghost predicate FileTaskAborts(b: Job, r: Rebuilt, j: nat)
    requires j < |b.payload.fileTasks|
  {
    var x := b.payload.fileTasks[j].row;
    FileTaskWanted(r, x) && (b.faults(FileTasks, j) || !Reachable(r, x.source) || !Settable(x.schedule))
  }

  // What comes back of an entry, whatever it says.

  /** The row of a restored entry. */
  lemma MadeRow<R(!new), S(!new), V(!new)>(
    rules: Rules<R, S, Ref, V>, uuid: Uuids, rows: seq<Exported<R, S>>, before: map<Id, R>, store: map<Ref, V>,
    first: nat, o: Outcome<R, Ref, V>, j: nat)
    requires Restored(rules, uuid, rows, |rows|, before, store, first, o) && j < |rows| && j in o.made
    ensures rules.wanted(rows[j]) && uuid(o.made[j]) in o.after
            && o.after[uuid(o.made[j])] == rules.image(rows[j], o.made[j])
  {
    hide IdsMapped, SecretsStored, AcceptedInTurn, RefusalsExplained;
  }

  /** An FTP transport never gets a key, a passphrase or a known host, and the others never a password. */
  lemma TransportRestoredAs(b: Job, r: Rebuilt, j: nat)
    requires TransportsDone(b, r) && j < |b.payload.transports| && j in r.transports.made
    ensures var x, id := b.payload.transports[j], b.uuid(r.transports.made[j]);
            && id in r.transports.after && x.row.clientId in r.clients.ids
            && TransportAs(x, r.transports.after[id], r.clients.ids[x.row.clientId], b.keys)
  {
    hide Restored;
    var rules := TransportRules(r.clients.ids, b.keys, b.uuid, b.faults);
    MadeRow(rules, b.uuid, b.payload.transports, b.start.transports, r.sets.store, r.sets.next, r.transports, j);
  }

  predicate TransportAs(x: Exported<Transport, TransportSecrets>, y: Transport, owner: Id, keys: map<Id, Path>) {
    && y == x.row.(clientId := owner, keyPath := y.keyPath, passphraseRef := y.passphraseRef,
                   passwordRef := y.passwordRef, knownHost := y.knownHost)
    && if x.row.kind == Ftp then
         && y.keyPath.None? && y.passphraseRef.None? && y.knownHost.None?
         && (y.passwordRef.Some? <==> Filled(x.extra.password))
       else
         && x.id in keys && y.keyPath == Some(keys[x.id]) && y.passwordRef.None? && y.knownHost == x.row.knownHost
         && (y.passphraseRef.Some? <==> Filled(x.extra.passphrase))
  }

  /** A drive target gets its configuration and no transport, the others a transport; half a host key is dropped. */
  lemma ReplicationRestoredAs(b: Job, r: Rebuilt, j: nat)
    requires ReplicationsDone(b, r) && j < |b.payload.replications| && j in r.replications.made
    ensures var x, id := b.payload.replications[j], b.uuid(r.replications.made[j]);
            && id in r.replications.after && x.row.clientId in r.clients.ids
            && ReplicationAs(x, r.replications.after[id], r.clients.ids[x.row.clientId], r.transports.ids)
  {
    hide Restored, ReplicationStore;
    var rules := ReplicationRules(MapsOf(r), b.faults);
    MadeRow(rules, b.uuid, b.payload.replications, b.start.replications, r.fileTasks.store, r.fileTasks.next,
            r.replications, j);
  }

  predicate ReplicationAs(x: Exported<Replication, ReplicationSecrets>, y: Replication, owner: Id,
                          transports: map<Id, Id>)
  {
    && y == x.row.(clientId := owner, configRef := y.configRef, transportId := y.transportId, cryptRef := y.cryptRef,
                   hostKey := y.hostKey)
    && (if x.row.provider == RcloneDrive then y.configRef.Some? && y.transportId.None?
        else
          && y.configRef.None? && x.row.transportId.Some? && x.row.transportId.value in transports
          && y.transportId == Some(transports[x.row.transportId.value]))
    && (y.cryptRef.Some? <==> x.row.encrypted && Filled(x.extra.crypt))
    && (y.hostKey.Some? ==> y.hostKey == x.row.hostKey)
    && (y.hostKey.Some? <==> x.row.hostKey.Some? && |x.row.hostKey.value.0| > 0 && |x.row.hostKey.value.1| > 0)
  }

  /** A link to what was restored, or none. */
  predicate Moved(ids: map<Id, Id>, from: Option<Id>, to: Option<Id>) {
    to == if from.Some? && from.value in ids then Some(ids[from.value]) else None
  }

  /** Only a schedule with a time is set, with the detail of its frequency; the others get the columns' defaults. */
  predicate ScheduleAs(x: Schedule, y: Schedule) {
    if !Filled(x.time) then y == Schedule(None, true, Daily, None, None)
    else
      && y.time == x.time && y.enabled == x.enabled && y.frequency == x.frequency
      && match x.frequency
         case Daily => y.daysOfWeek.None? && y.dayOfMonth.None?
         case Weekly => y.daysOfWeek == x.daysOfWeek && y.dayOfMonth.None?
         case Monthly => y.daysOfWeek.None? && y.dayOfMonth == x.dayOfMonth
  }

  predicate TextAs(x: Option<string>, y: Option<string>) {
    y == Some(if x.Some? then x.value else "")
  }

  predicate StrategyAs(r: Rebuilt, x: Strategy, y: Strategy, password: Option<string>) {
    match x
    case FetchExisting(tid, path, pattern) =>
      y.FetchExisting? && Moved(r.transports.ids, tid, y.transportId) && TextAs(path, y.remotePath)
      && y.pattern == pattern
    case RemoteDump(tid, _, template, _, _, _, _, _, _) =>
      && y.RemoteDump? && Moved(r.transports.ids, tid, y.transportId) && TextAs(template, y.outputTemplate)
      && y == x.(transportId := y.transportId, outputTemplate := y.outputTemplate, passwordRef := y.passwordRef)
      && (y.passwordRef.Some? <==> Filled(password))
    case DirectDump(cid) => y.DirectDump? && Moved(r.connections.ids, cid, y.connectionId)
  }

  /** What a restored backup task is, whatever the entry says. */
  lemma TaskRestoredAs(b: Job, r: Rebuilt, j: nat)
    requires TasksDone(b, r) && j < |b.payload.tasks| && j in r.tasks.made
    ensures b.uuid(r.tasks.made[j]) in r.tasks.after
    ensures var x, y := b.payload.tasks[j], r.tasks.after[b.uuid(r.tasks.made[j])];
            && x.row.clientId in r.clients.ids && y.clientId == r.clients.ids[x.row.clientId]
            && StrategyAs(r, x.row.strategy, y.strategy, x.extra) && ScheduleAs(x.row.schedule, y.schedule)
            && Moved(r.sets.ids, x.row.backupSetId, y.backupSetId)
            && y == x.row.(clientId := y.clientId, strategy := y.strategy, schedule := y.schedule,
                           backupSetId := y.backupSetId)
  {
    hide Restored, AcceptableTask, LinkRestored, RestorableSchedule;
    var rules := TaskRules(MapsOf(r), r.transports.after, r.connections.after, b.uuid, b.faults);
    MadeRow(rules, b.uuid, b.payload.tasks, b.start.tasks, r.connections.store, r.connections.next, r.tasks, j);
  }

  predicate SourceAs(transports: map<Id, Id>, x: FileSource, y: FileSource) {
    match x
    case LocalFolder(path) => y.LocalFolder? && TextAs(path, y.path)
    case RemoteFolder(tid, path) =>
      y.RemoteFolder? && Moved(transports, tid, y.transportId) && TextAs(path, y.remotePath)
  }

  predicate FileTaskAs(m: Maps, repos: map<Id, Id>, x: FileTask, y: FileTask) {
    && x.clientId in m.clients && y.clientId == m.clients[x.clientId]
    && x.repositoryId in repos && y.repositoryId == repos[x.repositoryId]
    && ScheduleAs(x.schedule, y.schedule) && Moved(m.sets, x.backupSetId, y.backupSetId)
    && SourceAs(m.transports, x.source, y.source)
    && y == x.(clientId := y.clientId, repositoryId := y.repositoryId, source := y.source, schedule := y.schedule,
               backupSetId := y.backupSetId)
  }

  lemma FileImageAs(m: Maps, repos: map<Id, Id>, x: FileTask)
    requires x.clientId in m.clients && x.repositoryId in repos
    ensures FileTaskAs(m, repos, x, FileTaskImage(m, repos, x))
  {
  }

  /** What a restored file-backup task is, whatever the entry says. */
  lemma FileTaskRestoredAs(b: Job, r: Rebuilt, j: nat)
    requires FileTasksDone(b, r) && j < |b.payload.fileTasks| && j in r.fileTasks.made
    ensures b.uuid(r.fileTasks.made[j]) in r.fileTasks.after
    ensures FileTaskAs(MapsOf(r), r.repos.ids, b.payload.fileTasks[j].row,
                       r.fileTasks.after[b.uuid(r.fileTasks.made[j])])
  {
    hide Restored, AcceptableSource, RestorableSchedule, FileTaskAs, FileTaskImage;
    var rules := FileTaskRules(MapsOf(r), r.repos.ids, r.transports.after, b.faults);
    MadeRow(rules, b.uuid, b.payload.fileTasks, b.start.fileTasks, r.repos.store, r.repos.next, r.fileTasks, j);
    FileImageAs(MapsOf(r), r.repos.ids, b.payload.fileTasks[j].row);
  }
}

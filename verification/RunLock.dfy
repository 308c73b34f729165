/**
 The lock of a backup task (runBackupTask.ts, processIdentity.ts, runsRepo.ts): a row in progress
 blocks other runs of its task until its owner is judged dead. Recovery, check and creation run
 without a pause, and are one step here, also between processes.
 */
module RunLock {
  import opened Common

  type Pid = int
  type TaskId = string
  type RunId = string

  const MAX_IN_PROGRESS_MS: int := 24 * 60 * 60 * 1000
  const SCRUTINY_AFTER_MS: int := 30 * 60 * 1000

  datatype Status = Pending | Running | Producing | Validating | Success | Warning | Failed {
    predicate InProgress() { Running? || Producing? || Validating? }
  }

  /**
   `startedAt` is `None` when its text cannot be parsed. `owner` is the process that wrote the row; no code reads it.
   */
  datatype Row = Row(task: TaskId, pid: Option<Pid>, startedAt: Option<int>, status: Status, owner: nat)

  /** What the operating system answers: is the PID held, and since when (if that can be read). */
  datatype Os = Os(inUse: Pid -> bool, startOf: Pid -> Option<int>)

  /** `isStaleInProgressRun`. */
  function IsStale(row: Row, now: int, os: Os): bool {
    if row.pid.None? then true
    else if !os.inUse(row.pid.value) then true
    else if row.startedAt.Some? && now - row.startedAt.value <= SCRUTINY_AFTER_MS then false
    else
      var holder := os.startOf(row.pid.value);
      if holder.Some? && row.startedAt.Some? && holder.value > row.startedAt.value then true
      else row.startedAt.Some? && now - row.startedAt.value > MAX_IN_PROGRESS_MS
  }

  predicate Blocks(row: Row, task: TaskId, now: int, os: Os) {
    row.task == task && row.status.InProgress() && !IsStale(row, now, os)
  }

  // The table of runs.

  function Recovered(rows: map<RunId, Row>, task: TaskId, now: int, os: Os): map<RunId, Row> {
    map id | id in rows ::
      if rows[id].task == task && rows[id].status.InProgress() && IsStale(rows[id], now, os)
          then rows[id].(status := Failed) else rows[id]
  }

  ghost predicate Blocked(rows: map<RunId, Row>, task: TaskId, now: int, os: Os) {
    exists id :: id in rows && Blocks(rows[id], task, now, os)
  }

  datatype Answer = Started | Skipped(blocker: RunId) | NoClient

  class RunsTable {
    var rows: map<RunId, Row>

    constructor (rows: map<RunId, Row>)
      ensures this.rows == rows
    {
      this.rows := rows;
    }

    /** `listInProgress`, in any order. */
    method ListInProgress(task: TaskId) returns (ids: seq<RunId>)
      ensures forall id :: id in ids <==> id in rows && rows[id].task == task && rows[id].status.InProgress()
    {
      ids := [];
      var todo := rows.Keys;
      while todo != {}
        invariant todo <= rows.Keys
        invariant forall id :: id in ids <==>
                  id in rows && id !in todo && rows[id].task == task && rows[id].status.InProgress()
        decreases |todo|
      {
        var id :| id in todo;
        todo := todo - {id};
        if rows[id].task == task && rows[id].status.InProgress() { ids := ids + [id]; }
      }
    }

    method RecoverStaleRuns(task: TaskId, now: int, os: Os)
      modifies this
      ensures rows == Recovered(old(rows), task, now, os)
    {
      var ids := ListInProgress(task);
      for i := 0 to |ids|
        invariant rows.Keys == old(rows).Keys
        invariant forall id :: id in rows ==>
          rows[id] == if id in ids[..i] && IsStale(old(rows)[id], now, os) then old(rows)[id].(status := Failed)
            else old(rows)[id]
      {
        assert ids[..i + 1] == ids[..i] + [ids[i]];
        if !IsStale(rows[ids[i]], now, os) { continue; }
        rows := rows[ids[i] := rows[ids[i]].(status := Failed)];
      }
      assert ids[..|ids|] == ids;
    }

    /** The start of `runBackupTask`, up to the creation of the row. */
    method Start(id: RunId, task: TaskId, hasClient: bool, pid: Pid, owner: nat, now: int, os: Os)
      returns (answer: Answer)
      requires id !in rows
      modifies this
      ensures var after := Recovered(old(rows), task, now, os);
              && (answer.Skipped? <==> Blocked(old(rows), task, now, os))
              && (answer.Skipped? ==> answer.blocker in rows && Blocks(rows[answer.blocker], task, now, os))
              && (answer.Started? ==> hasClient) && (answer.NoClient? ==> !hasClient)
              && rows == if answer.Started? then after[id := Row(task, Some(pid), Some(now), Running, owner)] else after
    {
      RecoveryKeepsBlocking(rows, task, now, os);
      RecoverStaleRuns(task, now, os);
      var ids := ListInProgress(task);
      for i := 0 to |ids|
        invariant forall j :: 0 <= j < i ==> IsStale(rows[ids[j]], now, os)
      {
        if !IsStale(rows[ids[i]], now, os) { return Skipped(ids[i]); }
      }
      if !hasClient { return NoClient; }
      rows := rows[id := Row(task, Some(pid), Some(now), Pending, owner)];
      rows := rows[id := rows[id].(status := Running)];
      return Started;
    }
  }

  lemma RecoveryKeepsBlocking(rows: map<RunId, Row>, task: TaskId, now: int, os: Os)
    ensures Blocked(Recovered(rows, task, now, os), task, now, os) <==> Blocked(rows, task, now, os)
  {
    var after := Recovered(rows, task, now, os);
    forall id | id in rows ensures Blocks(after[id], task, now, os) <==> Blocks(rows[id], task, now, os) {}
    if Blocked(rows, task, now, os) {
      var id :| id in rows && Blocks(rows[id], task, now, os);
      assert id in after;
    }
  }

  // The machine: processes come and go, PIDs are reused, time passes.

  datatype Process = Process(serial: nat, birth: int)

  /** `active` are the runs that some process is still working on. */
  datatype World = World(now: int, processes: map<Pid, Process>, serials: nat, rows: map<RunId, Row>,
                         active: set<RunId>)

  /** What can be read of a process's start time: the truth, or nothing. */
  type Readings = Pid -> bool

  function OsOf(w: World, readable: Readings): Os {
    Os((p: Pid) => p in w.processes,
       (p: Pid) => if p in w.processes && readable(p) then Some(w.processes[p].birth) else None)
  }

  datatype Event =
    | StartRun(pid: Pid, id: RunId, task: TaskId, hasClient: bool, readable: Readings)
    | Mark(id: RunId, status: Status)
    | Finish(id: RunId, status: Status)
    /** Creating the target directory failed: the call throws, and its row stays as it is. */
    | Abandon(id: RunId)
    | Exit(pid: Pid)
    | Spawn(pid: Pid)
    | Tick(ms: nat)

  ghost predicate Possible(w: World, e: Event) {
    match e
    case StartRun(pid, id, _, _, _) => pid in w.processes && id !in w.rows
    case Mark(id, status) => id in w.active && status.InProgress()
    case Finish(id, status) => id in w.active && (status.Success? || status.Warning? || status.Failed?)
    case Abandon(id) => id in w.active
    case Exit(pid) => pid in w.processes
    case Spawn(pid) => pid !in w.processes
    case Tick(_) => true
  }

  ghost function Step(w: World, e: Event): World
    requires Possible(w, e)
  {
    match e
    case StartRun(pid, id, task, hasClient, readable) =>
      var os := OsOf(w, readable);
      var rows := Recovered(w.rows, task, w.now, os);
      if Blocked(w.rows, task, w.now, os) || !hasClient then w.(rows := rows)
      else w.(rows := rows[id := Row(task, Some(pid), Some(w.now), Running, w.processes[pid].serial)],
              active := w.active + {id})
    case Mark(id, status) => w.(rows := if id in w.rows then w.rows[id := w.rows[id].(status := status)] else w.rows)
    case Finish(id, status) =>
      w.(rows := if id in w.rows then w.rows[id := w.rows[id].(status := status)]
         else w.rows, active := w.active - {id})
    case Abandon(id) => w.(active := w.active - {id})
    case Exit(pid) =>
      w.(processes := w.processes - {pid},
         active := set id | id in w.active && id in w.rows && w.rows[id].owner != w.processes[pid].serial)
    case Spawn(pid) => w.(processes := w.processes[pid := Process(w.serials, w.now)], serials := w.serials + 1)
    case Tick(ms) => w.(now := w.now + ms)
  }

  /** The process that wrote the row is still there. */
  ghost predicate OwnerAlive(w: World, r: Row) {
    r.pid.Some? && r.pid.value in w.processes && w.processes[r.pid.value].serial == r.owner
  }

  predicate Recent(w: World, r: Row) {
    r.startedAt.Some? && w.now - r.startedAt.value <= MAX_IN_PROGRESS_MS
  }

  ghost predicate ProcessesOk(w: World) {
    && (forall p :: p in w.processes ==> w.processes[p].serial < w.serials && w.processes[p].birth <= w.now)
    && (forall p, q :: p in w.processes && q in w.processes && w.processes[p].serial == w.processes[q].serial ==>
        p == q)
  }

  /** A row was written by a process that had its PID before; another holder of the PID came later. */
  ghost predicate RowOk(w: World, r: Row) {
    && r.pid.Some? && r.startedAt.Some? && r.startedAt.value <= w.now && r.owner < w.serials
    && (OwnerAlive(w, r) ==> w.processes[r.pid.value].birth <= r.startedAt.value)
    && (r.pid.value in w.processes && !OwnerAlive(w, r) ==> w.processes[r.pid.value].birth >= r.startedAt.value)
    && (forall p :: p in w.processes && w.processes[p].serial == r.owner ==> p == r.pid.value)
  }

  ghost predicate ActiveOk(w: World, id: RunId) {
    && id in w.rows && OwnerAlive(w, w.rows[id])
    && (Recent(w, w.rows[id]) ==> w.rows[id].status.InProgress())
  }

  ghost predicate Inv(w: World) {
    && ProcessesOk(w)
    && (forall id :: id in w.rows ==> RowOk(w, w.rows[id]))
    && (forall id :: id in w.active ==> ActiveOk(w, id))
    && Exclusive(w)
  }

  /** No task has two live runs whose rows are at most 24 hours old. */
  ghost predicate Exclusive(w: World) {
    forall a, b ::
      a in w.active && b in w.active && a in w.rows && b in w.rows && a != b && w.rows[a].task == w.rows[b].task
      ==> !(Recent(w, w.rows[a]) && Recent(w, w.rows[b]))
  }

  /** The row of a live owner, at most 24 hours old, is never reclaimed. */
  lemma LiveRowIsNotStale(w: World, readable: Readings, r: Row)
    requires RowOk(w, r) && OwnerAlive(w, r) && Recent(w, r)
    ensures !IsStale(r, w.now, OsOf(w, readable))
  {
  }

  lemma StartKeepsRows(w: World, e: Event)
    requires Inv(w) && Possible(w, e) && e.StartRun?
    ensures var w' := Step(w, e);
            && (forall id :: id in w'.rows ==> RowOk(w', w'.rows[id]))
            && (forall id :: id in w'.active ==> ActiveOk(w', id))
  {
    hide IsStale, Exclusive;
    var w' := Step(w, e);
    forall id | id in w.active ensures ActiveOk(w', id) {
      if Recent(w, w.rows[id]) { LiveRowIsNotStale(w, e.readable, w.rows[id]); }
    }
  }

  lemma StartKeepsExclusion(w: World, e: Event)
    requires Inv(w) && Possible(w, e) && e.StartRun?
    ensures Exclusive(Step(w, e))
  {
    hide IsStale, ProcessesOk;
    var os := OsOf(w, e.readable);
    forall a | a in w.active && w.rows[a].task == e.task && Recent(w, w.rows[a])
      ensures Blocked(w.rows, e.task, w.now, os)
    {
      LiveRowIsNotStale(w, e.readable, w.rows[a]);
      assert Blocks(w.rows[a], e.task, w.now, os);
    }
    hide RowOk, OsOf;
  }

  lemma StartKeepsInv(w: World, e: Event)
    requires Inv(w) && Possible(w, e) && e.StartRun?
    ensures Inv(Step(w, e))
  {
    StartKeepsRows(w, e);
    StartKeepsExclusion(w, e);
    hide IsStale, RowOk, ActiveOk, Exclusive, Recovered, Blocked;
  }

  lemma StepKeepsInv(w: World, e: Event)
    requires Inv(w) && Possible(w, e)
    ensures Inv(Step(w, e))
  {
    if e.StartRun? {
      StartKeepsInv(w, e);
    } else if e.Exit? || e.Spawn? {
      ProcessesKeepInv(w, e);
    }
  }

  lemma ProcessesKeepInv(w: World, e: Event)
    requires Inv(w) && Possible(w, e) && (e.Exit? || e.Spawn?)
    ensures Inv(Step(w, e))
  {
  }

  // Whole runs of the machine.

  ghost predicate AllPossible(w: World, run: seq<Event>)
    decreases |run|
  {
    run == [] || (Possible(w, run[0]) && AllPossible(Step(w, run[0]), run[1..]))
  }

  ghost function RunFrom(w: World, run: seq<Event>): World
    requires AllPossible(w, run)
    decreases |run|
  {
    if run == [] then w else RunFrom(Step(w, run[0]), run[1..])
  }

  lemma {:induction false} RunKeepsInv(w: World, run: seq<Event>)
    requires Inv(w) && AllPossible(w, run)
    ensures Inv(RunFrom(w, run))
    decreases |run|
  {
    if run != [] {
      StepKeepsInv(w, run[0]);
      RunKeepsInv(Step(w, run[0]), run[1..]);
    }
  }

  /** A machine on which nothing has run yet. */
  function Booted(now: int): World {
    World(now, map[], 0, map[], {})
  }

  ghost predicate Reachable(w: World) {
    exists now, run :: AllPossible(Booted(now), run) && RunFrom(Booted(now), run) == w
  }

  lemma {:induction false} RunThenStep(w: World, run: seq<Event>, e: Event)
    requires AllPossible(w, run) && Possible(RunFrom(w, run), e)
    ensures AllPossible(w, run + [e]) && RunFrom(w, run + [e]) == Step(RunFrom(w, run), e)
    decreases |run|
  {
    if run == [] {
      assert [] + [e] == [e] && [e][1..] == [];
    } else {
      RunThenStep(Step(w, run[0]), run[1..], e);
      assert (run + [e])[1..] == run[1..] + [e];
    }
  }

  lemma ReachStep(w: World, e: Event)
    requires Reachable(w) && Possible(w, e)
    ensures Reachable(Step(w, e))
  {
    var now, run :| AllPossible(Booted(now), run) && RunFrom(Booted(now), run) == w;
    RunThenStep(Booted(now), run, e);
  }

  /** Mutual exclusion, over every interleaving of starts, ends, crashes, reused PIDs and clock ticks. */
  lemma MutualExclusion(w: World)
    requires Reachable(w)
    ensures Inv(w) && Exclusive(w)
  {
    var now, run :| AllPossible(Booted(now), run) && RunFrom(Booted(now), run) == w;
    RunKeepsInv(Booted(now), run);
  }

  /**
   How long a dead owner's row blocks its task, exactly: while another process holds the PID, and
   either the row is at most 30 minutes old, or it is at most 24 hours old and the holder's start
   time cannot be read or is the very instant at which the row was written.
   */
  lemma DeadOwnerBlocksExactly(w: World, r: Row, readable: Readings)
    requires Inv(w) && RowOk(w, r) && !OwnerAlive(w, r) && r.status.InProgress()
    ensures var p, started := r.pid.value, r.startedAt.value;
            Blocks(r, r.task, w.now, OsOf(w, readable)) <==>
            p in w.processes
            && (w.now - started <= SCRUTINY_AFTER_MS
                || (w.now - started <= MAX_IN_PROGRESS_MS && (!readable(p) || w.processes[p].birth == started)))
  {
  }

  /** While its owner lives, a row blocks for exactly 24 hours, whether or not the run is still going. */
  lemma LiveOwnerBlocksExactly(w: World, r: Row, readable: Readings)
    requires Inv(w) && RowOk(w, r) && OwnerAlive(w, r) && r.status.InProgress()
    ensures Blocks(r, r.task, w.now, OsOf(w, readable)) <==> Recent(w, r)
  {
  }

  /** A start that finds no blocking row leaves its own as the only one of the task in progress. */
  lemma StartRecoversTheRest(w: World, e: Event, id: RunId)
    requires Inv(w) && Possible(w, e) && e.StartRun? && e.hasClient
    requires !Blocked(w.rows, e.task, w.now, OsOf(w, e.readable))
    requires id in Step(w, e).rows && Step(w, e).rows[id].task == e.task
    ensures Step(w, e).rows[id].status.InProgress() <==> id == e.id
  {
    hide IsStale;
    if id in w.rows { assert !Blocks(w.rows[id], e.task, w.now, OsOf(w, e.readable)); }
  }

  /**
   When a row in progress counts as interrupted: its owner lives but wrote it more than 24 hours ago; or its owner is
   gone, and either nobody holds the PID, or the row is more than 24 hours old, or it is more than 30 minutes old and
   the holder is seen to have started at another time.
   */
  ghost predicate Interrupted(w: World, r: Row, readable: Readings)
    requires r.pid.Some? && r.startedAt.Some?
  {
    var p, age := r.pid.value, w.now - r.startedAt.value;
    if OwnerAlive(w, r) then age > 24 * 60 * 60 * 1000
    else
      || p !in w.processes
      || age > 24 * 60 * 60 * 1000
      || (age > 30 * 60 * 1000 && readable(p) && w.processes[p].birth != r.startedAt.value)
  }

  /**
   What a start does to the rows there are, whether or not it goes on: those of its task that were in progress and are
   interrupted become Failed, and every other row stays exactly as it is.
   */
  lemma StartRecoversExactly(w: World, e: Event, id: RunId)
    requires Inv(w) && Possible(w, e) && e.StartRun? && id in w.rows
    ensures var r := w.rows[id];
            && id in Step(w, e).rows
            && Step(w, e).rows[id] ==
               if OfTaskInProgress(r, e.task) && Interrupted(w, r, e.readable) then r.(status := Failed) else r
  {
    assert RowOk(w, w.rows[id]);
  }

  /** The run has a client, and each row of the task that is in progress is interrupted. */
  ghost predicate LetThrough(w: World, e: Event)
    requires Inv(w) && e.StartRun?
  {
    e.hasClient && forall id :: id in w.rows && OfTaskInProgress(w.rows[id], e.task) ==>
      RowOk(w, w.rows[id]) && Interrupted(w, w.rows[id], e.readable)
  }

  predicate OfTaskInProgress(r: Row, task: TaskId) {
    r.task == task && (r.status == Running || r.status == Producing || r.status == Validating)
  }

  /**
   Rows that this machine does not write any more, or whose date cannot be parsed: one without a PID never blocks and is
   recovered by the next start; one without a date blocks, at any age, exactly while its PID is held.
   */
  lemma OddRowsExactly(rows: map<RunId, Row>, task: TaskId, now: int, os: Os, id: RunId)
    requires id in rows && (rows[id].pid.None? || rows[id].startedAt.None?)
    ensures var r := rows[id];
            var held := r.pid.Some? && os.inUse(r.pid.value);
            && (Blocks(r, task, now, os) <==> OfTaskInProgress(r, task) && held)
            && id in Recovered(rows, task, now, os)
            && Recovered(rows, task, now, os)[id] ==
               if OfTaskInProgress(r, task) && !held then r.(status := Failed) else r
  {
  }

  /** The only new row is that of a run that was let through, and it says who runs what, since when. */
  lemma StartAddsExactly(w: World, e: Event)
    requires Inv(w) && Possible(w, e) && e.StartRun?
    ensures var rows, more := Step(w, e).rows, if LetThrough(w, e) then {e.id} else {};
            && rows.Keys == w.rows.Keys + more && Step(w, e).active == w.active + more
            && (LetThrough(w, e) ==>
                rows[e.id] == Row(e.task, Some(e.pid), Some(w.now), Running, w.processes[e.pid].serial))
  {
    var os := OsOf(w, e.readable);
    forall id | id in w.rows
      ensures Blocks(w.rows[id], e.task, w.now, os) <==>
              OfTaskInProgress(w.rows[id], e.task) && !Interrupted(w, w.rows[id], e.readable)
    {
      InterruptedIsStale(w, w.rows[id], e.readable);
    }
    hide IsStale, Interrupted, OsOf, ActiveOk, ProcessesOk, Exclusive, Blocks;
    assert LetThrough(w, e) <==> e.hasClient && !Blocked(w.rows, e.task, w.now, os);
  }

  lemma InterruptedIsStale(w: World, r: Row, readable: Readings)
    requires RowOk(w, r)
    ensures Interrupted(w, r, readable) <==> IsStale(r, w.now, OsOf(w, readable))
  {
  }

  /**
   Who is at work afterwards: those that were, but for the one that ended or those whose process ended, and a new one.
   */
  lemma ActiveExactly(w: World, e: Event, id: RunId)
    requires Inv(w) && Possible(w, e)
    ensures id in Step(w, e).active <==>
            match e
            case StartRun(_, new_, _, _, _) => id in w.active || (id == new_ && LetThrough(w, e))
            case Finish(ended, _) => id in w.active && id != ended
            case Abandon(ended) => id in w.active && id != ended
            case Exit(pid) => id in w.active && id in w.rows && w.rows[id].pid != Some(pid)
            case _ => id in w.active
  {
    hide IsStale, Interrupted, OsOf, Exclusive, Blocked, Recovered;
    if e.StartRun? { StartAddsExactly(w, e); }
    hide LetThrough;
  }

  /** Over whole runs: a row says Success, or Warning, only if its run ended so. */
  lemma {:induction false} EndsAreReported(w: World, run: seq<Event>, id: RunId)
    requires AllPossible(w, run) && id in RunFrom(w, run).rows
    requires var s := RunFrom(w, run).rows[id].status; s.Success? || s.Warning?
    requires id in w.rows ==> w.rows[id].status != RunFrom(w, run).rows[id].status
    ensures exists i :: 0 <= i < |run| && run[i] == Finish(id, RunFrom(w, run).rows[id].status)
    decreases |run|
  {
    var s, w1 := RunFrom(w, run).rows[id].status, Step(w, run[0]);
    if id in w1.rows && w1.rows[id].status == s {
      assert run[0] == Finish(id, s);
    } else {
      EndsAreReported(w1, run[1..], id);
      var i :| 0 <= i < |run| - 1 && run[1..][i] == Finish(id, s);
      assert run[i + 1] == Finish(id, s);
    }
  }

  const NEVER_READ: Readings := (p: Pid) => false

  /** Two processes; a run of the first is one millisecond too old. */
  const AGED: World :=
    World(MAX_IN_PROGRESS_MS + 1, map[1 := Process(0, 0), 2 := Process(1, 0)], 2,
          map["a" := Row("t", Some(1), Some(0), Running, 0)], {"a"})

  lemma AgedIsReachable()
    ensures Reachable(AGED)
  {
    hide RunFrom, AllPossible, Reachable;
    BootedIsReachable(0);
    ReachStep(Booted(0), Spawn(1));
    var w1 := Step(Booted(0), Spawn(1));
    ReachStep(w1, Spawn(2));
    var w2 := Step(w1, Spawn(2));
    var start := StartRun(1, "a", "t", true, NEVER_READ);
    ReachStep(w2, start);
    var w3 := Step(w2, start);
    assert w3.rows == map["a" := Row("t", Some(1), Some(0), Running, 0)] && w3.active == {"a"};
    ReachStep(w3, Tick(MAX_IN_PROGRESS_MS + 1));
    assert Step(w3, Tick(MAX_IN_PROGRESS_MS + 1)) == AGED;
  }

  lemma BootedIsReachable(now: int)
    ensures Reachable(Booted(now))
  {
    assert RunFrom(Booted(now), []) == Booted(now);
  }

  /**
   What exclusion does not cover: a run that lasts more than 24 hours is reclaimed while it works,
   and its next status change puts its row in progress again beside that of the new run.
   */
  lemma OldRunIsResurrected() returns (w: World)
    ensures Reachable(w) && w.active == {"a", "b"} && w.active <= w.rows.Keys
    ensures forall id :: id in w.active ==> w.rows[id].task == "t" && w.rows[id].status.InProgress()
  {
    hide RunFrom, AllPossible, Reachable;
    AgedIsReachable();
    var start := StartRun(2, "b", "t", true, NEVER_READ);
    assert !Blocked(AGED.rows, "t", AGED.now, OsOf(AGED, NEVER_READ));
    var w1 := Step(AGED, start);
    ReachStep(AGED, start);
    assert w1.active == {"a", "b"} && w1.rows["b"] == Row("t", Some(2), Some(AGED.now), Running, 1)
           && w1.rows["a"].task == "t";
    w := Step(w1, Mark("a", Validating));
    ReachStep(w1, Mark("a", Validating));
  }
}

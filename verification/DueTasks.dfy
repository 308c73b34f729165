/**
 The scheduler's loop (runDueTasks.ts) over the table of runs, with the lock that each run takes
 (runBackupTask.ts): which scheduled runs come to be over any sequence of ticks, while manual runs
 come and go, between the ticks and during them.
 */
module DueTasks {
  import opened Common
  import opened Calendar
  import opened Schedules
  import RecoveryModel
  import Lock = RunLock

  type TaskId = string

  datatype Task = Task(id: TaskId, isActive: bool, schedule: RecoveryModel.Schedule)

  /** A row of backup_runs. Rows are kept in the order they were inserted. */
  datatype Run = Run(task: TaskId, scheduled: bool, startedAt: nat, pid: Option<int>, status: Lock.Status, owner: nat)

  /** What others do to the table meanwhile: a manual run begins, or a run changes its status. */
  datatype Other = Began(run: Run) | Changed(i: nat, status: Lock.Status)

  /**
   One turn of the loop: what others did since the last one, and the circumstances under which `runBackupTask` is
   called.
   */
  datatype Turn = Turn(others: seq<Other>, at: nat, os: Lock.Os, pid: int, owner: nat, hasClient: bool,
                       ending: Lock.Status)

  // The table and the lock.

  function LockRow(r: Run): Lock.Row {
    Lock.Row(r.task, r.pid, Some(r.startedAt), r.status, r.owner)
  }

  ghost predicate Blocked(runs: seq<Run>, task: TaskId, at: int, os: Lock.Os) {
    exists r :: r in runs && Lock.Blocks(LockRow(r), task, at, os)
  }

  function RecoveredRun(r: Run, task: TaskId, at: int, os: Lock.Os): Run {
    if r.task == task && r.status.InProgress() && Lock.IsStale(LockRow(r), at, os) then r.(status := Lock.Failed) else r
  }

  function Recovered(runs: seq<Run>, task: TaskId, at: int, os: Lock.Os): seq<Run> {
    seq(|runs|, i requires 0 <= i < |runs| => RecoveredRun(runs[i], task, at, os))
  }

  function RowName(i: nat): Lock.RunId { seq(i, _ => 'x') }

  /** The same table as the lock sees it. */
  function LockRows(runs: seq<Run>): map<Lock.RunId, Lock.Row> {
    assert forall i, j :: RowName(i) == RowName(j) ==> i == j by {
      forall i, j | RowName(i) == RowName(j) ensures i == j { assert |RowName(i)| == i && |RowName(j)| == j; }
    }
    map i | 0 <= i < |runs| :: RowName(i) := LockRow(runs[i])
  }

  lemma RowNamesDiffer()
    ensures forall i, j :: RowName(i) == RowName(j) ==> i == j
  {
    forall i, j | RowName(i) == RowName(j) ensures i == j { assert |RowName(i)| == i && |RowName(j)| == j; }
  }

  /** Each row, and no other, under its name. */
  lemma RowsByName(runs: seq<Run>)
    ensures forall id :: id in LockRows(runs) <==> exists i :: 0 <= i < |runs| && id == RowName(i)
    ensures forall i :: 0 <= i < |runs| ==> LockRows(runs)[RowName(i)] == LockRow(runs[i])
  {
    RowNamesDiffer();
    hide RowName;
  }

  lemma SameBlocking(runs: seq<Run>, task: TaskId, at: int, os: Lock.Os)
    ensures Lock.Blocked(LockRows(runs), task, at, os) <==> Blocked(runs, task, at, os)
  {
    RowsByName(runs);
    hide RowName, LockRows, Lock.Blocks;
    if Blocked(runs, task, at, os) {
      var r :| r in runs && Lock.Blocks(LockRow(r), task, at, os);
      var i :| 0 <= i < |runs| && runs[i] == r;
      assert RowName(i) in LockRows(runs);
    }
  }

  lemma SameRecovery(runs: seq<Run>, task: TaskId, at: int, os: Lock.Os)
    ensures LockRows(Recovered(runs, task, at, os)) == Lock.Recovered(LockRows(runs), task, at, os)
  {
    var after := Recovered(runs, task, at, os);
    RowsByName(runs);
    RowsByName(after);
    hide RowName, LockRows, Lock.IsStale;
    forall i | 0 <= i < |runs|
      ensures LockRow(after[i]) == Lock.Recovered(LockRows(runs), task, at, os)[RowName(i)]
    {
      assert LockRows(runs)[RowName(i)] == LockRow(runs[i]);
    }
  }

  /** It is the lock of `RunLock`. */
  lemma SameLock(runs: seq<Run>, task: TaskId, at: int, os: Lock.Os)
    ensures Lock.Blocked(LockRows(runs), task, at, os) <==> Blocked(runs, task, at, os)
    ensures LockRows(Recovered(runs, task, at, os)) == Lock.Recovered(LockRows(runs), task, at, os)
  {
    SameBlocking(runs, task, at, os);
    SameRecovery(runs, task, at, os);
  }

  /** `runBackupTask` gets as far as its row: no row of the task, of either trigger, blocks, and the client exists. */
  ghost predicate Launches(runs: seq<Run>, task: TaskId, t: Turn) {
    !Blocked(runs, task, t.at, t.os) && t.hasClient
  }

  /** One scheduled run, from recovery to the status it ends with. */
  ghost function AfterRun(runs: seq<Run>, task: TaskId, t: Turn): seq<Run> {
    var recovered := Recovered(runs, task, t.at, t.os);
    if Launches(runs, task, t) then recovered + [Run(task, true, t.at, Some(t.pid), t.ending, t.owner)] else recovered
  }

  /** In progress, and not yet judged dead. */
  predicate Held(r: Run, task: TaskId, at: int, os: Lock.Os) {
    && r.task == task && (r.status == Lock.Running || r.status == Lock.Producing || r.status == Lock.Validating)
    && !Lock.IsStale(LockRow(r), at, os)
  }

  /**
   What one scheduled run leaves: every row there was, those of the task that were left in progress by the dead as
   Failed; and, unless a live one holds the task or the client is gone, one more row, with the run's own ending.
   */
  lemma RunLeavesExactly(runs: seq<Run>, task: TaskId, t: Turn)
    ensures var after := AfterRun(runs, task, t);
            var goes := t.hasClient && forall i :: 0 <= i < |runs| ==> !Held(runs[i], task, t.at, t.os);
            && |after| == |runs| + (if goes then 1 else 0)
            && (goes ==> after[|runs|] == Run(task, true, t.at, Some(t.pid), t.ending, t.owner))
            && forall i :: 0 <= i < |runs| ==>
                 after[i] == if runs[i].task == task && !Held(runs[i], task, t.at, t.os)
                                && (runs[i].status == Lock.Running || runs[i].status == Lock.Producing
                                    || runs[i].status == Lock.Validating)
                             then runs[i].(status := Lock.Failed) else runs[i]
  {
    hide Lock.IsStale;
    assert Blocked(runs, task, t.at, t.os) <==> exists i :: 0 <= i < |runs| && Held(runs[i], task, t.at, t.os);
  }

  function AfterOther(runs: seq<Run>, o: Other): seq<Run> {
    match o
    case Began(r) => runs + [r]
    case Changed(i, status) => if i < |runs| then runs[i := runs[i].(status := status)] else runs
  }

  function Meanwhile(runs: seq<Run>, others: seq<Other>): seq<Run> {
    if others == [] then runs else AfterOther(Meanwhile(runs, others[..|others| - 1]), others[|others| - 1])
  }

  // The due-check.

  /** `getLatestScheduledByTask`: the latest start among the task's scheduled runs. */
  function LatestScheduled(runs: seq<Run>, task: TaskId): Option<nat> {
    if runs == [] then None
    else
      var r, before := runs[|runs| - 1], LatestScheduled(runs[..|runs| - 1], task);
      if r.task == task && r.scheduled && (before.None? || r.startedAt >= before.value) then Some(r.startedAt)
          else before
  }

  predicate DueNow(runs: seq<Run>, task: Task, now: nat) {
    IsDue(task.isActive, task.schedule, now, LatestScheduled(runs, task.id))
  }

  /** One turn of the loop. */
  ghost function AfterTurn(runs: seq<Run>, task: Task, now: nat, t: Turn): seq<Run> {
    var before := Meanwhile(runs, t.others);
    if DueNow(before, task, now) then AfterRun(before, task.id, t) else before
  }

  ghost function AfterTick(runs: seq<Run>, tasks: seq<Task>, now: nat, turns: seq<Turn>): seq<Run>
    requires |turns| == |tasks|
  {
    if tasks == [] then runs
    else
      var n := |tasks| - 1;
      AfterTurn(AfterTick(runs, tasks[..n], now, turns[..n]), tasks[n], now, turns[n])
  }

  datatype DueResult = DueResult(task: TaskId, ran: bool)

  /** What the tick reports: task by task, whether it was due by then. */
  ghost function Reported(runs: seq<Run>, tasks: seq<Task>, now: nat, turns: seq<Turn>): (results: seq<DueResult>)
    requires |turns| == |tasks|
    ensures |results| == |tasks|
  {
    if tasks == [] then []
    else
      var n := |tasks| - 1;
      var before := Meanwhile(AfterTick(runs, tasks[..n], now, turns[..n]), turns[n].others);
      Reported(runs, tasks[..n], now, turns[..n]) + [DueResult(tasks[n].id, DueNow(before, tasks[n], now))]
  }

  lemma OneMoreTask(runs: seq<Run>, tasks: seq<Task>, now: nat, turns: seq<Turn>, i: nat)
    requires |turns| == |tasks| && i < |tasks|
    ensures var before := AfterTick(runs, tasks[..i], now, turns[..i]);
            && AfterTick(runs, tasks[..i + 1], now, turns[..i + 1]) == AfterTurn(before, tasks[i], now, turns[i])
            && Reported(runs, tasks[..i + 1], now, turns[..i + 1])
               == Reported(runs, tasks[..i], now, turns[..i])
                 + [DueResult(tasks[i].id, DueNow(Meanwhile(before, turns[i].others), tasks[i], now))]
  {
    assert tasks[..i + 1][..i] == tasks[..i] && turns[..i + 1][..i] == turns[..i];
  }

  class Scheduler {
    var runs: seq<Run>

    constructor ()
      ensures runs == []
    {
      runs := [];
    }

    /** What others did since the last turn. */
    method Interleave(others: seq<Other>)
      modifies this
      ensures runs == Meanwhile(old(runs), others)
    {
      for i := 0 to |others|
        invariant runs == Meanwhile(old(runs), others[..i])
      {
        assert others[..i + 1][..i] == others[..i];
        runs := AfterOther(runs, others[i]);
      }
      assert others[..|others|] == others;
    }

    method GetLatestScheduled(task: TaskId) returns (latest: Option<nat>)
      ensures latest == LatestScheduled(runs, task)
    {
      latest := None;
      for i := 0 to |runs|
        invariant latest == LatestScheduled(runs[..i], task)
      {
        var r := runs[i];
        assert runs[..i + 1][..i] == runs[..i];
        if r.task == task && r.scheduled && (latest.None? || r.startedAt >= latest.value) {
          latest := Some(r.startedAt);
        }
      }
      assert runs[..|runs|] == runs;
    }

    method RecoverStaleRuns(task: TaskId, at: int, os: Lock.Os)
      modifies this
      ensures runs == Recovered(old(runs), task, at, os)
    {
      for i := 0 to |runs|
        invariant |runs| == |old(runs)|
        invariant forall j :: 0 <= j < |runs| ==>
                  runs[j] == if j < i then RecoveredRun(old(runs)[j], task, at, os) else old(runs)[j]
      {
        var r := runs[i];
        if r.task == task && r.status.InProgress() && Lock.IsStale(LockRow(r), at, os) {
          runs := runs[i := r.(status := Lock.Failed)];
        }
      }
    }

    method StillInProgress(task: TaskId, at: int, os: Lock.Os) returns (blocked: bool)
      ensures blocked == Blocked(runs, task, at, os)
    {
      for i := 0 to |runs|
        invariant forall j :: 0 <= j < i ==> !Lock.Blocks(LockRow(runs[j]), task, at, os)
      {
        if Lock.Blocks(LockRow(runs[i]), task, at, os) { return true; }
      }
      return false;
    }

    method RunBackupTask(task: TaskId, t: Turn)
      modifies this
      ensures runs == AfterRun(old(runs), task, t)
    {
      RecoveryBlocksTheSame(runs, task, t.at, t.os);
      RecoverStaleRuns(task, t.at, t.os);
      var blocked := StillInProgress(task, t.at, t.os);
      if blocked || !t.hasClient { return; }
      runs := runs + [Run(task, true, t.at, Some(t.pid), Lock.Running, t.owner)];
      runs := runs[|runs| - 1 := runs[|runs| - 1].(status := t.ending)];
    }

    /** Every task is checked against the time the tick began, and against the runs there are by then. */
    method RunDueTasks(tasks: seq<Task>, now: nat, turns: seq<Turn>) returns (results: seq<DueResult>)
      requires |turns| == |tasks|
      modifies this
      ensures runs == AfterTick(old(runs), tasks, now, turns)
      ensures results == Reported(old(runs), tasks, now, turns)
    {
      results := [];
      assert runs == AfterTick(runs, [], now, []) && results == Reported(runs, [], now, []);
      hide AfterTick, Reported, IsDue, LatestScheduled, Meanwhile, AfterRun;
      for i := 0 to |tasks|
        invariant runs == AfterTick(old(runs), tasks[..i], now, turns[..i])
        invariant results == Reported(old(runs), tasks[..i], now, turns[..i])
      {
        OneMoreTask(old(runs), tasks, now, turns, i);
        Interleave(turns[i].others);
        var latest := GetLatestScheduled(tasks[i].id);
        if !IsDue(tasks[i].isActive, tasks[i].schedule, now, latest) {
          results := results + [DueResult(tasks[i].id, false)];
          continue;
        }
        RunBackupTask(tasks[i].id, turns[i]);
        results := results + [DueResult(tasks[i].id, true)];
      }
      assert tasks[..|tasks|] == tasks && turns[..|tasks|] == turns;
    }
  }

  lemma RecoveryBlocksTheSame(runs: seq<Run>, task: TaskId, at: int, os: Lock.Os)
    ensures Blocked(Recovered(runs, task, at, os), task, at, os) <==> Blocked(runs, task, at, os)
  {
    hide Lock.IsStale;
    var after := Recovered(runs, task, at, os);
    if Blocked(runs, task, at, os) {
      var r :| r in runs && Lock.Blocks(LockRow(r), task, at, os);
      var i :| 0 <= i < |runs| && runs[i] == r;
      assert after[i] == r;
    }
  }

  // The scheduled starts, which are all that the due-check sees.

  datatype Start = Start(task: TaskId, at: nat)

  function Starts(runs: seq<Run>): seq<Start> {
    if runs == [] then []
    else
      var r := runs[|runs| - 1];
      Starts(runs[..|runs| - 1]) + if r.scheduled then [Start(r.task, r.startedAt)] else []
  }

  function LatestStart(starts: seq<Start>, task: TaskId): Option<nat> {
    if starts == [] then None
    else
      var s, before := starts[|starts| - 1], LatestStart(starts[..|starts| - 1], task);
      if s.task == task && (before.None? || s.at >= before.value) then Some(s.at) else before
  }

  /** The due-check ignores manual runs: it reads the scheduled starts only. */
  lemma {:induction false} ManualRunsAreIgnored(runs: seq<Run>, task: Task, now: nat)
    ensures LatestScheduled(runs, task.id) == LatestStart(Starts(runs), task.id)
    ensures DueNow(runs, task, now) <==> IsDue(task.isActive, task.schedule, now, LatestStart(Starts(runs), task.id))
  {
    if runs != [] {
      var n := |runs| - 1;
      ManualRunsAreIgnored(runs[..n], task, now);
      if runs[n].scheduled {
        assert Starts(runs)[..|Starts(runs)| - 1] == Starts(runs[..n]);
      } else {
        assert Starts(runs) == Starts(runs[..n]);
      }
    }
  }

  lemma {:induction false} StartsOfSameRuns(a: seq<Run>, b: seq<Run>)
    requires |a| == |b| && forall i :: 0 <= i < |a| ==>
             a[i].task == b[i].task && a[i].scheduled == b[i].scheduled && a[i].startedAt == b[i].startedAt
    ensures Starts(a) == Starts(b)
  {
    if a != [] { StartsOfSameRuns(a[..|a| - 1], b[..|b| - 1]); }
  }

  lemma StartsOfOneMore(runs: seq<Run>, r: Run)
    ensures Starts(runs + [r]) == Starts(runs) + if r.scheduled then [Start(r.task, r.startedAt)] else []
  {
    assert (runs + [r])[..|runs|] == runs;
  }

  /** Others start no scheduled runs. */
  ghost predicate Manual(others: seq<Other>) {
    forall i :: 0 <= i < |others| && others[i].Began? ==> !others[i].run.scheduled
  }

  ghost predicate AllManual(turns: seq<Turn>) {
    forall j :: 0 <= j < |turns| ==> Manual(turns[j].others)
  }

  lemma {:induction false} OthersStartNothing(runs: seq<Run>, others: seq<Other>)
    requires Manual(others)
    ensures Starts(Meanwhile(runs, others)) == Starts(runs)
  {
    if others != [] {
      var n := |others| - 1;
      OthersStartNothing(runs, others[..n]);
      var before := Meanwhile(runs, others[..n]);
      match others[n] {
        case Began(r) => StartsOfOneMore(before, r);
        case Changed(i, status) => StartsOfSameRuns(AfterOther(before, others[n]), before);
      }
    }
  }

  /** One turn starts the task if and only if it is due by the scheduled starts, and the lock lets it through. */
  lemma TurnStarts(runs: seq<Run>, task: Task, now: nat, t: Turn)
    requires Manual(t.others)
    ensures Starts(AfterTurn(runs, task, now, t))
         == Starts(runs) + if DueNow(runs, task, now) && Launches(Meanwhile(runs, t.others), task.id, t)
           then [Start(task.id, t.at)] else []
  {
    hide IsDue, Blocked, Lock.IsStale;
    var before := Meanwhile(runs, t.others);
    OthersStartNothing(runs, t.others);
    ManualRunsAreIgnored(runs, task, now);
    ManualRunsAreIgnored(before, task, now);
    var recovered := Recovered(before, task.id, t.at, t.os);
    StartsOfSameRuns(recovered, before);
    StartsOfOneMore(recovered, Run(task.id, true, t.at, Some(t.pid), t.ending, t.owner));
    assert Starts(runs) + [] == Starts(runs);
  }

  // Ticks.

  ghost predicate DistinctTasks(tasks: seq<Task>) {
    forall i, j :: 0 <= i < j < |tasks| ==> tasks[i].id != tasks[j].id
  }

  ghost predicate NotListed(tasks: seq<Task>, id: TaskId) {
    forall i :: 0 <= i < |tasks| ==> tasks[i].id != id
  }

  /** The clock never goes back: runs start after the tick does, and before it ends. */
  ghost predicate Between(turns: seq<Turn>, now: nat, end: nat) {
    now <= end && forall i :: 0 <= i < |turns| ==> now <= turns[i].at <= end && Manual(turns[i].others)
  }

  /** The starts that a sequence of starts gains. */
  ghost predicate Gains(before: seq<Start>, after: seq<Start>, task: TaskId) {
    exists k :: |before| <= k < |after| && after[k].task == task
  }

  /** The table that turn `i` finds. */
  ghost function AtTurn(runs: seq<Run>, tasks: seq<Task>, now: nat, turns: seq<Turn>, i: nat): seq<Run>
    requires |turns| == |tasks| && i < |tasks|
  {
    Meanwhile(AfterTick(runs, tasks[..i], now, turns[..i]), turns[i].others)
  }

  lemma {:induction false} TickOnlyAdds(runs: seq<Run>, tasks: seq<Task>, now: nat, turns: seq<Turn>)
    requires |turns| == |tasks| && AllManual(turns)
    ensures Starts(runs) <= Starts(AfterTick(runs, tasks, now, turns))
    ensures forall id :: NotListed(tasks, id) ==> !Gains(Starts(runs), Starts(AfterTick(runs, tasks, now, turns)), id)
  {
    if tasks != [] {
      var n := |tasks| - 1;
      TickOnlyAdds(runs, tasks[..n], now, turns[..n]);
      var before := AfterTick(runs, tasks[..n], now, turns[..n]);
      TurnStarts(before, tasks[n], now, turns[n]);
      hide Starts, Launches, DueNow, AfterTurn;
      forall id | NotListed(tasks, id) ensures !Gains(Starts(runs), Starts(AfterTick(runs, tasks, now, turns)), id) {
        assert NotListed(tasks[..n], id) && id != tasks[n].id;
      }
    }
  }

  lemma {:induction false} SameLatest(a: seq<Start>, b: seq<Start>, task: TaskId)
    requires a <= b && !Gains(a, b, task)
    ensures LatestStart(b, task) == LatestStart(a, task)
    decreases |b|
  {
    if |a| < |b| {
      var n := |b| - 1;
      assert b[n].task != task;
      assert !Gains(a, b[..n], task);
      SameLatest(a, b[..n], task);
    } else {
      assert a == b;
    }
  }

  /** The last turn: the turns before it, for other tasks, have not changed whether this one is due. */
  lemma LastTurnRuns(runs: seq<Run>, tasks: seq<Task>, now: nat, turns: seq<Turn>)
    requires |turns| == |tasks| > 0 && DistinctTasks(tasks) && AllManual(turns)
    ensures var n := |tasks| - 1;
            Gains(Starts(runs), Starts(AfterTick(runs, tasks, now, turns)), tasks[n].id) <==>
            DueNow(runs, tasks[n], now) && Launches(AtTurn(runs, tasks, now, turns, n), tasks[n].id, turns[n])
  {
    hide AfterTick, Starts, Launches, DueNow, AfterTurn, Meanwhile, Gains, AtTurn, Manual;
    var n := |tasks| - 1;
    var before, id := AfterTick(runs, tasks[..n], now, turns[..n]), tasks[n].id;
    var runsNow := DueNow(before, tasks[n], now) && Launches(AtTurn(runs, tasks, now, turns, n), id, turns[n]);
    assert NotListed(tasks[..n], id) && AllManual(turns[..n]) && Manual(turns[n].others);
    hide DistinctTasks, AllManual, NotListed;
    LastTurnIs(runs, tasks, now, turns);
    TickOnlyAdds(runs, tasks[..n], now, turns[..n]);
    TurnStarts(before, tasks[n], now, turns[n]);
    DueSince(runs, before, tasks[n], now);
    GainsOne(Starts(runs), Starts(before), id, turns[n].at, runsNow);
  }

  lemma LastTurnIs(runs: seq<Run>, tasks: seq<Task>, now: nat, turns: seq<Turn>)
    requires |turns| == |tasks| > 0
    ensures var n := |tasks| - 1;
            var before := AfterTick(runs, tasks[..n], now, turns[..n]);
            && AfterTick(runs, tasks, now, turns) == AfterTurn(before, tasks[n], now, turns[n])
            && AtTurn(runs, tasks, now, turns, n) == Meanwhile(before, turns[n].others)
  {
    hide AfterTurn, Meanwhile;
  }

  /** Starts of other tasks do not change whether a task is due. */
  lemma DueSince(runs: seq<Run>, later: seq<Run>, task: Task, now: nat)
    requires Starts(runs) <= Starts(later) && !Gains(Starts(runs), Starts(later), task.id)
    ensures DueNow(later, task, now) <==> DueNow(runs, task, now)
  {
    hide Starts, IsDue, LatestStart, LatestScheduled, Gains;
    ManualRunsAreIgnored(runs, task, now);
    ManualRunsAreIgnored(later, task, now);
    SameLatest(Starts(runs), Starts(later), task.id);
  }

  lemma GainsOne(a: seq<Start>, b: seq<Start>, task: TaskId, at: nat, one: bool)
    requires a <= b && !Gains(a, b, task)
    ensures Gains(a, b + if one then [Start(task, at)] else [], task) <==> one
  {
    if one { assert (b + [Start(task, at)])[|b|].task == task; } else { assert b + [] == b; }
  }

  /** An earlier turn: the last one, for another task, does not matter. */
  lemma EarlierTurnStands(runs: seq<Run>, tasks: seq<Task>, now: nat, turns: seq<Turn>, i: nat)
    requires |turns| == |tasks| && i < |tasks| - 1 && DistinctTasks(tasks) && AllManual(turns)
    ensures var n := |tasks| - 1;
            Gains(Starts(runs), Starts(AfterTick(runs, tasks, now, turns)), tasks[i].id)
            <==> Gains(Starts(runs), Starts(AfterTick(runs, tasks[..n], now, turns[..n])), tasks[i].id)
  {
    hide AfterTick, Starts, Launches, DueNow, AfterTurn, Meanwhile, AtTurn, Manual;
    var n := |tasks| - 1;
    var before := AfterTick(runs, tasks[..n], now, turns[..n]);
    assert AllManual(turns[..n]) && Manual(turns[n].others) && tasks[i].id != tasks[n].id;
    hide DistinctTasks, AllManual;
    LastTurnIs(runs, tasks, now, turns);
    TickOnlyAdds(runs, tasks[..n], now, turns[..n]);
    TurnStarts(before, tasks[n], now, turns[n]);
    LongerGains(Starts(runs), Starts(before), Starts(AfterTick(runs, tasks, now, turns)), tasks[i].id);
  }

  /**
   What a tick runs, exactly: a listed task gets a scheduled run in it if and only if it is due by the table at the
   tick's start and, at its turn, no row of the task blocks - manual or scheduled - and its client exists.
   */
  lemma {:induction false} TickRunsExactly(runs: seq<Run>, tasks: seq<Task>, now: nat, turns: seq<Turn>, i: nat)
    requires |turns| == |tasks| && i < |tasks| && DistinctTasks(tasks) && AllManual(turns)
    ensures Gains(Starts(runs), Starts(AfterTick(runs, tasks, now, turns)), tasks[i].id) <==>
            DueNow(runs, tasks[i], now) && Launches(AtTurn(runs, tasks, now, turns, i), tasks[i].id, turns[i])
    decreases |tasks|
  {
    var n := |tasks| - 1;
    if i < n {
      hide AfterTick, Starts, Launches, DueNow, Gains, Manual;
      TickRunsExactly(runs, tasks[..n], now, turns[..n], i);
      EarlierTurnStands(runs, tasks, now, turns, i);
      assert tasks[..n][..i] == tasks[..i] && turns[..n][..i] == turns[..i];
    } else {
      LastTurnRuns(runs, tasks, now, turns);
    }
  }

  lemma LongerGains(a: seq<Start>, b: seq<Start>, c: seq<Start>, task: TaskId)
    requires a <= b <= c && forall k :: |b| <= k < |c| ==> c[k].task != task
    ensures Gains(a, c, task) <==> Gains(a, b, task)
  {
    if Gains(a, b, task) {
      var k :| |a| <= k < |b| && b[k].task == task;
      assert c[k].task == task;
    }
  }

  // At most one scheduled run a day.

  /** No task has two scheduled starts on one local day. */
  ghost predicate OncePerDay(starts: seq<Start>) {
    forall i, j :: 0 <= i < j < |starts| && starts[i].task == starts[j].task ==> Day(starts[i].at) != Day(starts[j].at)
  }

  /** All of the task's scheduled runs started by `t`. */
  ghost predicate StartedBy(starts: seq<Start>, task: TaskId, t: nat) {
    forall i :: 0 <= i < |starts| && starts[i].task == task ==> starts[i].at <= t
  }

  ghost predicate AllStartedBy(starts: seq<Start>, t: nat) {
    forall i :: 0 <= i < |starts| ==> starts[i].at <= t
  }

  lemma {:induction false} LatestIsLast(starts: seq<Start>, task: TaskId)
    ensures forall i :: 0 <= i < |starts| && starts[i].task == task ==>
      LatestStart(starts, task).Some? && starts[i].at <= LatestStart(starts, task).value
    ensures LatestStart(starts, task).Some? ==>
            exists i :: 0 <= i < |starts| && starts[i] == Start(task, LatestStart(starts, task).value)
  {
    if starts != [] {
      var n := |starts| - 1;
      LatestIsLast(starts[..n], task);
      if LatestStart(starts[..n], task).Some? {
        var i :| 0 <= i < n && starts[..n][i] == Start(task, LatestStart(starts[..n], task).value);
        assert starts[i] == starts[..n][i];
      }
      forall i | 0 <= i < n ensures starts[i] == starts[..n][i] {}
    }
  }

  /**
   One new run: the check was made against `now`, the run starts at a later instant. If no midnight lies
   between, an earlier run that day would have shown; if one does, no earlier run can be on the new day.
   */
  lemma NewStartIsFirstThatDay(starts: seq<Start>, task: Task, now: nat, at: nat)
    requires OncePerDay(starts) && StartedBy(starts, task.id, now) && now <= at
    requires IsDue(task.isActive, task.schedule, now, LatestStart(starts, task.id))
    ensures OncePerDay(starts + [Start(task.id, at)])
  {
    LatestIsLast(starts, task.id);
    var latest := LatestStart(starts, task.id);
    forall i | 0 <= i < |starts| && starts[i].task == task.id ensures Day(starts[i].at) != Day(at) {
      DayMonotone(starts[i].at, latest.value);
      DayMonotone(latest.value, now);
      DayMonotone(now, at);
      SameDateIsSameDay(Day(latest.value), Day(now));
    }
  }

  ghost predicate OthersStartedBy(starts: seq<Start>, tasks: seq<Task>, t: nat) {
    forall id :: NotListed(tasks, id) ==> StartedBy(starts, id, t)
  }

  /** The starts after one more turn, for a task that was not listed before it. */
  lemma OneMoreStart(starts: seq<Start>, tasks: seq<Task>, now: nat, at: nat, end: nat, runs: bool)
    requires tasks != [] && DistinctTasks(tasks) && now <= at <= end
    requires OncePerDay(starts) && AllStartedBy(starts, end) && OthersStartedBy(starts, tasks[..|tasks| - 1], now)
    requires var task := tasks[|tasks| - 1];
             runs ==> IsDue(task.isActive, task.schedule, now, LatestStart(starts, task.id))
    ensures var after := starts + if runs then [Start(tasks[|tasks| - 1].id, at)] else [];
            OncePerDay(after) && AllStartedBy(after, end) && OthersStartedBy(after, tasks, now)
  {
    var n := |tasks| - 1;
    assert NotListed(tasks[..n], tasks[n].id);
    if runs { NewStartIsFirstThatDay(starts, tasks[n], now, at); } else { assert starts + [] == starts; }
    hide IsDue, LatestStart, OncePerDay;
    var after := starts + if runs then [Start(tasks[n].id, at)] else [];
    forall id | NotListed(tasks, id) ensures StartedBy(after, id, now) {
      assert id != tasks[n].id && NotListed(tasks[..n], id);
    }
  }

  lemma {:induction false} TickKeepsOncePerDay(runs: seq<Run>, tasks: seq<Task>, now: nat, turns: seq<Turn>, end: nat)
    requires |turns| == |tasks| && DistinctTasks(tasks) && Between(turns, now, end)
    requires OncePerDay(Starts(runs)) && AllStartedBy(Starts(runs), now)
    ensures var after := Starts(AfterTick(runs, tasks, now, turns));
            && OncePerDay(after) && AllStartedBy(after, end)
            && forall t :: NotListed(tasks, t) ==> StartedBy(after, t, now)
  {
    if tasks != [] {
      var n := |tasks| - 1;
      TickKeepsOncePerDay(runs, tasks[..n], now, turns[..n], end);
      var before := AfterTick(runs, tasks[..n], now, turns[..n]);
      hide Starts, Launches, LatestScheduled, LatestStart, IsDue, AfterTurn, OncePerDay, AllStartedBy, StartedBy,
           NotListed, Meanwhile;
      TurnStarts(before, tasks[n], now, turns[n]);
      ManualRunsAreIgnored(before, tasks[n], now);
      var runsNow := DueNow(before, tasks[n], now)
        && Launches(Meanwhile(before, turns[n].others), tasks[n].id, turns[n]);
      OneMoreStart(Starts(before), tasks, now, turns[n].at, end, runsNow);
    }
  }

  /** What happens to the table, one after the other; manual runs may also come and go within a tick. */
  datatype Event =
    | Tick(tasks: seq<Task>, now: nat, turns: seq<Turn>, end: nat)
    | Elsewhere(other: Other)

  ghost predicate WellFormed(e: Event) {
    if e.Tick? then |e.turns| == |e.tasks| && DistinctTasks(e.tasks) && Between(e.turns, e.now, e.end)
        else Manual([e.other])
  }

  /** Ticks do not overlap, and the clock does not go back from one to the next. */
  ghost predicate Sequential(events: seq<Event>) {
    && (forall i :: 0 <= i < |events| ==> WellFormed(events[i]))
    && (forall i, j :: 0 <= i < j < |events| && events[i].Tick? && events[j].Tick? ==> events[i].end <= events[j].now)
  }

  ghost function Apply(runs: seq<Run>, e: Event): seq<Run>
    requires WellFormed(e)
  {
    match e
    case Tick(tasks, now, turns, _) => AfterTick(runs, tasks, now, turns)
    case Elsewhere(other) => AfterOther(runs, other)
  }

  ghost function History(events: seq<Event>): seq<Run>
    requires Sequential(events)
  {
    if events == [] then [] else Apply(History(events[..|events| - 1]), events[|events| - 1])
  }

  /** Over any history of sequential ticks and manual runs, a task has at most one scheduled run per local day. */
  lemma {:induction false} ScheduledOncePerDay(events: seq<Event>)
    requires Sequential(events)
    ensures OncePerDay(Starts(History(events)))
    ensures forall t: nat :: (forall i :: 0 <= i < |events| && events[i].Tick? ==> events[i].end <= t) ==>
            AllStartedBy(Starts(History(events)), t)
  {
    if events != [] {
      var n := |events| - 1;
      ScheduledOncePerDay(events[..n]);
      var before, e := History(events[..n]), events[n];
      if e.Tick? {
        assert forall i :: 0 <= i < n && events[..n][i].Tick? ==> events[..n][i].end <= e.now;
        TickKeepsOncePerDay(before, e.tasks, e.now, e.turns, e.end);
      } else {
        OthersStartNothing(before, [e.other]);
        assert Meanwhile(before, [e.other]) == AfterOther(before, e.other) by { assert [e.other][..0] == []; }
      }
    }
  }

  /**
   The price of a tick that crosses midnight: a run that was due on one day and starts on a later one
   takes that later day's turn. The later day's own slot is lost exactly then.
   */
  lemma LateRunTakesTheNextTurn(starts: seq<Start>, task: Task, now: nat, at: nat, later: nat)
    requires StartedBy(starts, task.id, now) && IsDue(task.isActive, task.schedule, now, LatestStart(starts, task.id))
    requires now <= at <= later && IsDue(task.isActive, task.schedule, later, None)
    ensures IsDue(task.isActive, task.schedule, later, LatestStart(starts + [Start(task.id, at)], task.id)) <==>
            Day(at) < Day(later)
  {
    LatestIsLast(starts, task.id);
    assert (starts + [Start(task.id, at)])[..|starts|] == starts;
    SameDateIsSameDay(Day(at), Day(later));
    DayMonotone(at, later);
  }

  // A task that was due and did not run.

  /** The instant is past the slot of its own day. */
  predicate OwnSlot(s: RecoveryModel.Schedule, t: nat) {
    SlotOf(s).Some? && DayMatches(s, Day(t)) && t >= Midnight(Day(t)) + SlotOf(s).value
  }

  /** Still due on that day; from the next day on, due by that day's own slot. */
  lemma DueLater(task: Task, now: nat, later: nat, latest: Option<nat>)
    requires IsDue(task.isActive, task.schedule, now, latest) && now <= later && (latest.Some? ==> latest.value <= now)
    ensures Day(later) == Day(now) ==> IsDue(task.isActive, task.schedule, later, latest)
    ensures Day(later) != Day(now) ==>
            (IsDue(task.isActive, task.schedule, later, latest) <==> OwnSlot(task.schedule, later))
  {
    DayMonotone(now, later);
    if latest.Some? {
      DayMonotone(latest.value, now);
      SameDateIsSameDay(Day(latest.value), Day(later));
    }
    hide DayMatches, SlotOf;
  }

  lemma LatestBy(starts: seq<Start>, task: TaskId, now: nat)
    requires StartedBy(starts, task, now)
    ensures LatestStart(starts, task).Some? ==> LatestStart(starts, task).value <= now
  {
    LatestIsLast(starts, task);
  }

  /**
   A task that was due in one tick and did not run, because of the lock or a missing client. In the next tick, whatever
   manual runs come and go in between: on the same day it runs if and only if nothing blocks and the client is there;
   on a later day only if that day has a slot of its own that has come, so the missed one is lost.
   */
  lemma SkippedTaskRunsLater(before: seq<Run>, tasks: seq<Task>, now: nat, turns: seq<Turn>, others: seq<Other>,
                             later: nat, turns2: seq<Turn>, i: nat)
    requires |turns| == |tasks| == |turns2| && i < |tasks| && DistinctTasks(tasks) && AllManual(turns)
             && AllManual(turns2) && Manual(others)
    requires DueNow(before, tasks[i], now)
             && !Gains(Starts(before), Starts(AfterTick(before, tasks, now, turns)), tasks[i].id)
    requires now <= later && StartedBy(Starts(before), tasks[i].id, now)
    ensures var runs := Meanwhile(AfterTick(before, tasks, now, turns), others);
            var ran := Gains(Starts(runs), Starts(AfterTick(runs, tasks, later, turns2)), tasks[i].id);
            var lets := Launches(AtTurn(runs, tasks, later, turns2, i), tasks[i].id, turns2[i]);
            && (Day(later) == Day(now) ==> (ran <==> lets))
            && (Day(later) != Day(now) ==> (ran <==> lets && OwnSlot(tasks[i].schedule, later)))
  {
    hide AfterTick, Starts, Launches, IsDue, Meanwhile, AtTurn, Manual, LatestStart, LatestScheduled, Gains, OwnSlot,
         StartedBy;
    var after := AfterTick(before, tasks, now, turns);
    var runs := Meanwhile(after, others);
    TickOnlyAdds(before, tasks, now, turns);
    OthersStartNothing(after, others);
    DueSince(before, runs, tasks[i], later);
    ManualRunsAreIgnored(before, tasks[i], now);
    ManualRunsAreIgnored(before, tasks[i], later);
    LatestBy(Starts(before), tasks[i].id, now);
    DueLater(tasks[i], now, later, LatestStart(Starts(before), tasks[i].id));
    TickRunsExactly(runs, tasks, later, turns2, i);
  }

  // A manual run in progress does suppress a due task, until it is over.

  const DAILY: Task := Task("t", true, RecoveryModel.Schedule(Some("00:00"), true, RecoveryModel.Daily, None, None))
  const MANUAL: Run := Run("t", false, 5, Some(1), Lock.Running, 0)

  /** Process 1 is there; nobody can read when it started. */
  function ProcessOne(): Lock.Os { Lock.Os((p: int) => p == 1, (p: int) => None) }

  function TurnAt(at: nat): Turn { Turn([], at, ProcessOne(), 2, 1, true, Lock.Success) }

  function Suppressed(): seq<Event> { [Elsewhere(Began(MANUAL)), Tick([DAILY], 10, [TurnAt(10)], 10)] }

  lemma DailyIsDue(at: nat)
    requires at < DAY_MS
    ensures IsDue(true, DAILY.schedule, at, None)
  {
    SlotOfMidnight();
  }

  lemma SlotOfMidnight()
    ensures SlotOf(DAILY.schedule) == Some(0)
  {
    var t := "00:00";
    assert RecoveryModel.ValidTime(t) && DigitValue(t[0]) == DigitValue(t[1]) == DigitValue(t[3]) == DigitValue(t[4])
           == 0;
  }

  lemma OneTaskTick(runs: seq<Run>, at: nat)
    ensures Starts(AfterTick(runs, [DAILY], at, [TurnAt(at)]))
         == Starts(runs) + if DueNow(runs, DAILY, at) && !Blocked(runs, "t", at, ProcessOne()) then [Start("t", at)]
           else []
  {
    TurnStarts(runs, DAILY, at, TurnAt(at));
    assert AfterTick(runs, [DAILY][..0], at, [TurnAt(at)][..0]) == runs;
    assert Meanwhile(runs, []) == runs;
    hide Starts, DueNow, Blocked, AfterTurn;
  }

  /**
   While the manual run is in progress the tick finds the task due and runs nothing; once it is over, the next tick
   does.
   */
  lemma ManualRunSuppressesTheTick()
    ensures DueNow([MANUAL], DAILY, 10) && Starts(AfterTick([MANUAL], [DAILY], 10, [TurnAt(10)])) == []
    ensures Sequential(Suppressed()) && History(Suppressed()) == AfterTick([MANUAL], [DAILY], 10, [TurnAt(10)])
    ensures var later := AfterOther([MANUAL], Changed(0, Lock.Success));
            Starts(AfterTick(later, [DAILY], 20, [TurnAt(20)])) == [Start("t", 20)]
  {
    DailyIsDue(10);
    DailyIsDue(20);
    var later := AfterOther([MANUAL], Changed(0, Lock.Success));
    hide IsDue;
    assert LatestScheduled([MANUAL][..0], "t") == None && LatestScheduled([MANUAL], "t") == None;
    assert LatestScheduled(later[..0], "t") == None && LatestScheduled(later, "t") == None;
    assert Starts([MANUAL][..0]) == [] && Starts([MANUAL]) == [] + [];
    assert Starts(later[..0]) == [] && Starts(later) == [] + [];
    assert MANUAL in [MANUAL] && Lock.Blocks(LockRow(MANUAL), "t", 10, ProcessOne());
    assert forall r :: r in later ==> !r.status.InProgress();
    OneTaskTick([MANUAL], 10);
    OneTaskTick(later, 20);
    hide AfterTick, Starts;
    HistoryOfSuppressed();
  }

  lemma HistoryOfSuppressed()
    ensures Sequential(Suppressed()) && History(Suppressed()) == AfterTick([MANUAL], [DAILY], 10, [TurnAt(10)])
  {
    hide AfterTick;
    var e1, e2 := Suppressed()[0], Suppressed()[1];
    assert Suppressed()[..1] == [e1] && [e1][..0] == [];
    assert History([e1]) == Apply(History([]), e1) == [] + [MANUAL];
    assert [] + [MANUAL] == [MANUAL];
    assert History(Suppressed()) == Apply(History([e1]), e2);
  }
}

/**
 Deleting old backups (applyRetention.ts) over the runs of one task: the table of runs, the records
 of what was deleted, and the files on disk. Removing a file and recording it are two steps, and
 either may fail.
 */
module Retention {
  import opened Common

  type Path = string

  const DAY_MS: int := 24 * 60 * 60 * 1000

  /** `row` is the row id, which grows with every insertion. */
  datatype Run = Run(row: nat, success: bool, startedAt: int, downloadedAt: Option<int>, localPath: Option<Path>)

  datatype Policy = Policy(count: Option<int>, days: Option<int>)

  /** `resolveRetentionPolicy`: the task's value, or else the client's. */
  function Resolve(client: Policy, task: Policy): Policy {
    Policy(if task.count.Some? then task.count else client.count, if task.days.Some? then task.days else client.days)
  }

  /** What a pass changes. */
  datatype Disk = Disk(files: set<Path>, deleted: seq<nat>)

  /** Which files can be removed during a pass, and for which rows the insert of the record works. */
  datatype Io = Io(unlinks: Path -> bool, inserts: nat -> bool)

  // `listSuccessfulRuns`: newest first, the later row first when two started together.

  predicate Backup(r: Run) { r.success && r.localPath.Some? }

  predicate Newer(a: Run, b: Run) {
    a.startedAt > b.startedAt || (a.startedAt == b.startedAt && a.row > b.row)
  }

  ghost predicate NewestFirst(order: seq<Run>) {
    forall i, j :: 0 <= i < j < |order| ==> Newer(order[i], order[j])
  }

  ghost predicate DistinctRows(runs: seq<Run>) {
    forall i, j :: 0 <= i < j < |runs| ==> runs[i].row != runs[j].row
  }

  ghost predicate DistinctPaths(runs: seq<Run>) {
    forall a, b :: a in runs && b in runs && Backup(a) && Backup(b) && a.localPath == b.localPath ==> a.row == b.row
  }

  function Insert(r: Run, order: seq<Run>): (longer: seq<Run>)
    ensures forall x :: x in longer <==> x == r || x in order
  {
    if order == [] || Newer(r, order[0]) then [r] + order else [order[0]] + Insert(r, order[1..])
  }

  lemma {:induction false} InsertKeepsOrder(r: Run, order: seq<Run>)
    requires NewestFirst(order) && forall x :: x in order ==> x.row != r.row
    ensures NewestFirst(Insert(r, order))
  {
    if order != [] && !Newer(r, order[0]) {
      assert Newer(order[0], r);
      InsertKeepsOrder(r, order[1..]);
      forall x | x in Insert(r, order[1..]) ensures Newer(order[0], x) {}
    }
  }

  function Order(runs: seq<Run>): (order: seq<Run>)
    ensures forall x :: x in order <==> x in runs && Backup(x)
  {
    if runs == [] then []
    else
      var n := |runs| - 1;
      if Backup(runs[n]) then Insert(runs[n], Order(runs[..n])) else Order(runs[..n])
  }

  lemma {:induction false} OrderIsNewestFirst(runs: seq<Run>)
    requires DistinctRows(runs)
    ensures NewestFirst(Order(runs))
    ensures forall r :: r in Order(runs) <==> r in runs && r.success && r.localPath.Some?
  {
    if runs != [] {
      var n := |runs| - 1;
      OrderIsNewestFirst(runs[..n]);
      InsertKeepsOrder(runs[n], Order(runs[..n]));
    }
  }

  function Without(order: seq<Run>, deleted: seq<nat>): (rest: seq<Run>)
    ensures forall x :: x in rest <==> x in order && x.row !in deleted
  {
    if order == [] then []
    else if order[0].row in deleted then Without(order[1..], deleted)
    else [order[0]] + Without(order[1..], deleted)
  }

  /** Filtering keeps the order. */
  lemma {:induction false} WithoutKeepsOrder(order: seq<Run>, deleted: seq<nat>)
    requires NewestFirst(order)
    ensures NewestFirst(Without(order, deleted))
  {
    if order != [] {
      WithoutKeepsOrder(order[1..], deleted);
      forall x | x in Without(order[1..], deleted) ensures Newer(order[0], x) {}
    }
  }

  /** Filtering moves nothing back, and the first element stays first unless it is dropped. */
  lemma {:induction false} WithoutMovesForward(order: seq<Run>, deleted: seq<nat>, k: nat) returns (j: nat)
    requires k < |Without(order, deleted)|
    ensures k <= j < |order| && order[j] == Without(order, deleted)[k]
  {
    if order[0].row in deleted {
      j := WithoutMovesForward(order[1..], deleted, k);
      j := j + 1;
    } else if k == 0 {
      j := 0;
    } else {
      j := WithoutMovesForward(order[1..], deleted, k - 1);
      j := j + 1;
    }
  }

  lemma {:induction false} WithoutTwice(order: seq<Run>, deleted: seq<nat>, more: seq<nat>)
    requires forall x :: x in deleted ==> x in more
    ensures Without(Without(order, deleted), more) == Without(order, more)
  {
    if order != [] {
      WithoutTwice(order[1..], deleted, more);
      if order[0].row !in deleted {
        assert Without(order, deleted)[1..] == Without(order[1..], deleted);
      }
    }
  }

  /** What retention works on: the backups not yet deleted. */
  function Live(runs: seq<Run>, deleted: seq<nat>): seq<Run> {
    Without(Order(runs), deleted)
  }

  // The policy.

  predicate ViolatesCount(p: Policy, rank: nat) {
    p.count.Some? && rank >= p.count.value
  }

  predicate ViolatesDays(p: Policy, now: int, r: Run) {
    p.days.Some? && (if r.downloadedAt.Some? then r.downloadedAt.value else r.startedAt) < now - p.days.value * DAY_MS
  }

  predicate ShouldDelete(p: Policy, now: int, rank: nat, r: Run) {
    if p.count.Some? && p.days.Some? then ViolatesCount(p, rank) && ViolatesDays(p, now, r)
    else if p.count.Some? then ViolatesCount(p, rank)
    else ViolatesDays(p, now, r)
  }

  /** The loop skips a run whose path is empty. */
  predicate Removable(r: Run) { r.localPath.GetOr("") != "" }

  /** Its file is gone already, or can be removed. */
  predicate Deletable(r: Run, io: Io, files: set<Path>) {
    Removable(r) && (r.localPath.value !in files || io.unlinks(r.localPath.value))
  }

  /**
   One deletion: the file goes first, and only then is it recorded. An insert that fails is not caught: it ends
   the pass. The flag says that the pass goes on.
   */
  function DeleteOne(r: Run, io: Io, d: Disk): (Disk, bool) {
    if !Deletable(r, io, d.files) then (d, true)
    else
      var files := d.files - {r.localPath.value};
      if io.inserts(r.row) then (Disk(files, d.deleted + [r.row]), true) else (Disk(files, d.deleted), false)
  }

  /** The step at rank `k`: a stale run is deleted, and the pass goes on unless its insert fails. */
  function StepAt(live: seq<Run>, p: Policy, now: int, io: Io, k: nat, d: Disk): (Disk, bool)
    requires k < |live|
  {
    if ShouldDelete(p, now, k, live[k]) then DeleteOne(live[k], io, d) else (d, true)
  }

  /** A pass: from the oldest rank down to rank 1, never rank 0. */
  function Pruned(live: seq<Run>, p: Policy, now: int, io: Io, upto: nat, d: Disk): (Disk, bool)
    requires upto <= |live|
  {
    if upto <= 1 then (d, true)
    else
      var (d1, goesOn) := StepAt(live, p, now, io, upto - 1, d);
      if goesOn then Pruned(live, p, now, io, upto - 1, d1) else (d1, false)
  }

  function Pass(runs: seq<Run>, p: Policy, now: int, io: Io, d: Disk): Disk {
    var live := Live(runs, d.deleted);
    Pruned(live, p, now, io, |live|, d).0
  }

  // The loops of `applyRetention`, which collect candidates first and cap their number.

  /** The stale runs, newest first. */
  function Stale(live: seq<Run>, p: Policy, now: int, upto: nat): (stale: seq<Run>)
    requires upto <= |live|
    ensures upto > 0 ==> |stale| <= upto - 1
  {
    if upto == 0 then []
    else
      var last := upto - 1;
      Stale(live, p, now, last) + if last > 0 && ShouldDelete(p, now, last, live[last]) then [live[last]] else []
  }

  function DeleteFromEnd(stale: seq<Run>, io: Io, d: Disk): (Disk, bool) {
    if stale == [] then (d, true)
    else
      var (d1, goesOn) := DeleteOne(stale[|stale| - 1], io, d);
      if goesOn then DeleteFromEnd(stale[..|stale| - 1], io, d1) else (d1, false)
  }

  lemma {:induction false} StaleArePruned(live: seq<Run>, p: Policy, now: int, io: Io, upto: nat, d: Disk)
    requires upto <= |live|
    ensures DeleteFromEnd(Stale(live, p, now, upto), io, d) == Pruned(live, p, now, io, upto, d)
  {
    if upto > 1 {
      var r, before := live[upto - 1], Stale(live, p, now, upto - 1);
      if ShouldDelete(p, now, upto - 1, r) {
        assert (before + [r])[..|before|] == before;
        StaleArePruned(live, p, now, io, upto - 1, DeleteOne(r, io, d).0);
      } else {
        assert before + [] == before;
        StaleArePruned(live, p, now, io, upto - 1, d);
      }
    }
  }

  function Reverse(s: seq<Run>): (r: seq<Run>)
    ensures |r| == |s| && forall i :: 0 <= i < |s| ==> r[i] == s[|s| - 1 - i]
  {
    if s == [] then [] else Reverse(s[1..]) + [s[0]]
  }

  class Store {
    var runs: seq<Run>
    var disk: Disk

    constructor (runs: seq<Run>, disk: Disk)
      ensures this.runs == runs && this.disk == disk
    {
      this.runs, this.disk := runs, disk;
    }

    /** Answers false when the pass ended early, at an insert that failed. */
    method ApplyRetention(p: Policy, now: int, io: Io) returns (finished: bool)
      modifies this`disk
      ensures var live := Live(runs, old(disk).deleted);
              (disk, finished) == Pruned(live, p, now, io, |live|, old(disk))
    {
      hide Live, DeleteOne, ShouldDelete;
      var live := Live(runs, disk.deleted);
      if p.count.None? && p.days.None? {
        NoPolicyNoDeletion(live, now, io, |live|, disk);
        return true;
      }
      if |live| <= 1 { return true; }
      var candidates: seq<Run> := [];
      for rank := 0 to |live|
        invariant candidates == Stale(live, p, now, rank)
      {
        if rank == 0 { continue; }
        if ShouldDelete(p, now, rank, live[rank]) { candidates := candidates + [live[rank]]; }
      }
      var maxDeletable := |live| - 1;
      var toDelete := Reverse(candidates);
      toDelete := toDelete[..if |toDelete| < maxDeletable then |toDelete| else maxDeletable];
      StaleArePruned(live, p, now, io, |live|, disk);
      assert candidates[..|candidates| - 0] == candidates;
      for i := 0 to |toDelete|
        invariant DeleteFromEnd(candidates[..|candidates| - i], io, disk) == DeleteFromEnd(candidates, io, old(disk))
      {
        var left := candidates[..|candidates| - i];
        assert left[..|left| - 1] == candidates[..|candidates| - (i + 1)];
        assert toDelete[i] == left[|left| - 1];
        var goesOn := Delete(toDelete[i], io);
        if !goesOn { return false; }
      }
      return true;
    }

    /** The body of the loop: skip, remove, record. */
    method Delete(r: Run, io: Io) returns (goesOn: bool)
      modifies this`disk
      ensures (disk, goesOn) == DeleteOne(r, io, old(disk))
    {
      if !Removable(r) { return true; }
      var path := r.localPath.value;
      if path in disk.files {
        if !io.unlinks(path) { return true; }
        disk := disk.(files := disk.files - {path});
      }
      assert disk.files == old(disk).files - {path};
      if !io.inserts(r.row) { return false; }
      disk := disk.(deleted := disk.deleted + [r.row]);
      return true;
    }
  }

  lemma {:induction false} NoPolicyNoDeletion(live: seq<Run>, now: int, io: Io, upto: nat, d: Disk)
    requires upto <= |live|
    ensures Pruned(live, Policy(None, None), now, io, upto, d) == (d, true)
  {
    if upto > 1 { NoPolicyNoDeletion(live, now, io, upto - 1, d); }
  }

  // One pass.

  ghost predicate NoDuplicates(s: seq<nat>) {
    forall i, j :: 0 <= i < j < |s| ==> s[i] != s[j]
  }

  /** A run that the policy gives up and whose file is gone or can be removed. */
  predicate Candidate(live: seq<Run>, p: Policy, now: int, io: Io, files: set<Path>, k: nat) {
    0 < k < |live| && ShouldDelete(p, now, k, live[k]) && Deletable(live[k], io, files)
  }

  /** The pass comes to rank `k`: every older candidate was recorded. */
  ghost predicate Reaches(live: seq<Run>, p: Policy, now: int, io: Io, files: set<Path>, upto: nat, k: nat) {
    upto <= |live| && forall j :: k < j < upto && Candidate(live, p, now, io, files, j) ==> io.inserts(live[j].row)
  }

  /** The pass removes the file of rank `k`. */
  ghost predicate Takes(live: seq<Run>, p: Policy, now: int, io: Io, files: set<Path>, upto: nat, k: nat) {
    k < upto && Candidate(live, p, now, io, files, k) && Reaches(live, p, now, io, files, upto, k)
  }

  /** The pass ends at rank `k`: the file is gone, and its record could not be inserted. */
  ghost predicate EndsAt(live: seq<Run>, p: Policy, now: int, io: Io, files: set<Path>, upto: nat, k: nat) {
    Takes(live, p, now, io, files, upto, k) && !io.inserts(live[k].row)
  }

  ghost predicate NewRecords(live: seq<Run>, p: Policy, now: int, io: Io, upto: nat, d: Disk, e: Disk) {
    && upto <= |live| && (forall x :: x in d.deleted ==> x in e.deleted)
    && (forall x :: x in e.deleted && x !in d.deleted ==>
          exists k :: 0 < k < upto && live[k].row == x && Takes(live, p, now, io, d.files, upto, k) && io.inserts(x))
    && forall k :: 0 < k < upto && Takes(live, p, now, io, d.files, upto, k) && io.inserts(live[k].row) ==>
      live[k].row in e.deleted
  }

  ghost predicate FilesTaken(live: seq<Run>, p: Policy, now: int, io: Io, upto: nat, d: Disk, e: Disk) {
    && upto <= |live| && e.files <= d.files
    && (forall path :: path in d.files && path !in e.files ==>
          exists k :: 0 < k < upto && live[k].localPath == Some(path) && Takes(live, p, now, io, d.files, upto, k))
    && forall k :: 0 < k < upto && Takes(live, p, now, io, d.files, upto, k) ==> live[k].localPath.value !in e.files
  }

  /** Taking one file changes no other run's chances. */
  lemma SameCandidates(live: seq<Run>, p: Policy, now: int, io: Io, r: Run, d: Disk, k: nat)
    ensures Candidate(live, p, now, io, DeleteOne(r, io, d).0.files, k) <==> Candidate(live, p, now, io, d.files, k)
  {
  }

  /** What the step at the oldest rank means for the others. */
  lemma SameTakes(live: seq<Run>, p: Policy, now: int, io: Io, upto: nat, d: Disk, k: nat)
    requires 1 < upto <= |live| && k < upto - 1
    ensures var (d1, goesOn) := StepAt(live, p, now, io, upto - 1, d);
            Takes(live, p, now, io, d.files, upto, k) <==> goesOn && Takes(live, p, now, io, d1.files, upto - 1, k)
  {
    forall j | k <= j < upto
      ensures Candidate(live, p, now, io, DeleteOne(live[upto - 1], io, d).0.files, j) <==>
              Candidate(live, p, now, io, d.files, j)
    {
      SameCandidates(live, p, now, io, live[upto - 1], d, j);
    }
    hide ShouldDelete, Removable;
  }

  lemma StepExactly(live: seq<Run>, p: Policy, now: int, io: Io, upto: nat, d: Disk)
    requires 1 < upto <= |live|
    ensures var r, step := live[upto - 1], StepAt(live, p, now, io, upto - 1, d);
            && (Takes(live, p, now, io, d.files, upto, upto - 1) <==> Candidate(live, p, now, io, d.files, upto - 1))
            && (step.1 <==> (Candidate(live, p, now, io, d.files, upto - 1) ==> io.inserts(r.row)))
            && step.0 == if !Candidate(live, p, now, io, d.files, upto - 1) then d
                         else Disk(d.files - {r.localPath.value}, if io.inserts(r.row) then d.deleted + [r.row]
                                   else d.deleted)
  {
  }

  /** The records and files of the younger ranks, together with this step's. */
  lemma OneMoreRank(live: seq<Run>, p: Policy, now: int, io: Io, upto: nat, d: Disk, e: Disk)
    requires 1 < upto <= |live|
    requires var (d1, goesOn) := StepAt(live, p, now, io, upto - 1, d);
             if goesOn then NewRecords(live, p, now, io, upto - 1, d1, e)
                 && FilesTaken(live, p, now, io, upto - 1, d1, e) else e == d1
    ensures NewRecords(live, p, now, io, upto, d, e) && FilesTaken(live, p, now, io, upto, d, e)
  {
    StepExactly(live, p, now, io, upto, d);
    forall k: nat | k < upto - 1
      ensures var (d1, goesOn) := StepAt(live, p, now, io, upto - 1, d);
              Takes(live, p, now, io, d.files, upto, k) <==> goesOn && Takes(live, p, now, io, d1.files, upto - 1, k)
    {
      SameTakes(live, p, now, io, upto, d, k);
    }
    assert Candidate(live, p, now, io, d.files, upto - 1) ==> live[upto - 1].localPath.Some?;
    assert forall k: nat :: k < upto && Takes(live, p, now, io, d.files, upto, k) ==> live[k].localPath.Some?;
    hide Takes, Candidate, StepAt;
  }

  /**
   The pass takes files from the oldest candidate on, up to the first insert that fails, and records all but that one.
   */
  lemma {:induction false} PrunedExactly(live: seq<Run>, p: Policy, now: int, io: Io, upto: nat, d: Disk)
    requires upto <= |live| && DistinctRows(live)
    requires NoDuplicates(d.deleted) && forall k :: 0 <= k < upto ==> live[k].row !in d.deleted
    ensures var e := Pruned(live, p, now, io, upto, d).0;
            NoDuplicates(e.deleted) && NewRecords(live, p, now, io, upto, d, e)
              && FilesTaken(live, p, now, io, upto, d, e)
  {
    if upto > 1 {
      var (d1, goesOn) := StepAt(live, p, now, io, upto - 1, d);
      forall k | 0 <= k < upto - 1 ensures live[k].row !in d1.deleted {}
      if goesOn { PrunedExactly(live, p, now, io, upto - 1, d1); }
      hide ShouldDelete, Deletable, NewRecords, FilesTaken;
      OneMoreRank(live, p, now, io, upto, d, Pruned(live, p, now, io, upto, d).0);
    }
  }

  /** The pass finishes if and only if every candidate's record can be inserted. */
  lemma {:induction false} PassFinishesExactly(live: seq<Run>, p: Policy, now: int, io: Io, upto: nat, d: Disk)
    requires upto <= |live|
    ensures Pruned(live, p, now, io, upto, d).1 <==> Reaches(live, p, now, io, d.files, upto, 0)
  {
    if upto > 1 {
      var (d1, goesOn) := StepAt(live, p, now, io, upto - 1, d);
      forall j: nat
        ensures Candidate(live, p, now, io, DeleteOne(live[upto - 1], io, d).0.files, j) <==>
                Candidate(live, p, now, io, d.files, j)
      {
        SameCandidates(live, p, now, io, live[upto - 1], d, j);
      }
      StepExactly(live, p, now, io, upto, d);
      PassFinishesExactly(live, p, now, io, upto - 1, d1);
      hide Deletable, ShouldDelete, Candidate, DeleteOne;
    }
  }

  lemma LiveIsOrdered(runs: seq<Run>, deleted: seq<nat>)
    requires DistinctRows(runs)
    ensures NewestFirst(Live(runs, deleted)) && DistinctRows(Live(runs, deleted))
    ensures forall k :: 0 <= k < |Live(runs, deleted)| ==>
              Live(runs, deleted)[k].row !in deleted && Live(runs, deleted)[k] in runs && Backup(Live(runs, deleted)[k])
  {
    OrderIsNewestFirst(runs);
    WithoutKeepsOrder(Order(runs), deleted);
    var live := Live(runs, deleted);
    forall i, j | 0 <= i < j < |live| ensures live[i].row != live[j].row {
      assert live[i] in runs && live[j] in runs && Newer(live[i], live[j]);
      var a :| 0 <= a < |runs| && runs[a] == live[i];
      var b :| 0 <= b < |runs| && runs[b] == live[j];
    }
    forall k | 0 <= k < |live| ensures live[k].row !in deleted && live[k] in runs && Backup(live[k]) {
      assert live[k] in live;
    }
  }

  lemma PassExactly(runs: seq<Run>, p: Policy, now: int, io: Io, d: Disk)
    requires DistinctRows(runs) && NoDuplicates(d.deleted)
    ensures var live, e := Live(runs, d.deleted), Pass(runs, p, now, io, d);
            && NoDuplicates(e.deleted) && NewRecords(live, p, now, io, |live|, d, e)
            && FilesTaken(live, p, now, io, |live|, d, e) && Live(runs, e.deleted) == Without(live, e.deleted)
  {
    LiveIsOrdered(runs, d.deleted);
    var live := Live(runs, d.deleted);
    PrunedExactly(live, p, now, io, |live|, d);
    WithoutTwice(Order(runs), d.deleted, Pass(runs, p, now, io, d).deleted);
  }

  /** Whatever the policy and whatever fails, the newest listed backup survives a pass, and is still the newest. */
  lemma NewestSurvives(runs: seq<Run>, p: Policy, now: int, io: Io, d: Disk)
    requires DistinctRows(runs) && NoDuplicates(d.deleted) && Live(runs, d.deleted) != []
    ensures var after := Live(runs, Pass(runs, p, now, io, d).deleted);
            after != [] && after[0] == Live(runs, d.deleted)[0]
  {
    LiveIsOrdered(runs, d.deleted);
    PassExactly(runs, p, now, io, d);
    hide ShouldDelete, Deletable, Pass;
  }

  lemma PassRecords(runs: seq<Run>, p: Policy, now: int, io: Io, d: Disk, k: nat)
    requires DistinctRows(runs) && NoDuplicates(d.deleted) && k < |Live(runs, d.deleted)|
    ensures var live := Live(runs, d.deleted);
            live[k].row in Pass(runs, p, now, io, d).deleted <==>
              && Candidate(live, p, now, io, d.files, k) && io.inserts(live[k].row)
              && forall j :: k < j < |live| && Candidate(live, p, now, io, d.files, j) ==> io.inserts(live[j].row)
  {
    LiveIsOrdered(runs, d.deleted);
    PassExactly(runs, p, now, io, d);
    hide Candidate, Pass, Live;
  }

  /**
   What a pass records, whatever fails: exactly the stale runs, but the newest, whose file is gone or can be
   removed, from the oldest on and before the first whose record cannot be inserted.
   */
  lemma PassRecordsExactly(runs: seq<Run>, p: Policy, now: int, io: Io, d: Disk, k: nat)
    requires DistinctRows(runs) && NoDuplicates(d.deleted) && k < |Live(runs, d.deleted)|
    ensures var live := Live(runs, d.deleted);
            live[k].row in Pass(runs, p, now, io, d).deleted <==>
              && k > 0 && ShouldDelete(p, now, k, live[k]) && live[k].localPath.Some? && live[k].localPath.value != ""
              && (live[k].localPath.value !in d.files || io.unlinks(live[k].localPath.value))
              && io.inserts(live[k].row)
              && forall j :: k < j < |live| && Candidate(live, p, now, io, d.files, j) ==> io.inserts(live[j].row)
  {
    hide ShouldDelete, Pass, Live, DistinctRows, NoDuplicates;
    PassRecords(runs, p, now, io, d, k);
    var r := Live(runs, d.deleted)[k];
    assert Deletable(r, io, d.files) <==>
           r.localPath.Some? && r.localPath.value != ""
             && (r.localPath.value !in d.files || io.unlinks(r.localPath.value));
    hide Deletable;
  }

  /**
   Removed and not recorded, exactly: a backup that the pass leaves unrecorded loses its file if and only if it is
   stale, not the newest, and removable, its insert fails, and that of every older such run works.
   */
  lemma LosesFileExactly(runs: seq<Run>, p: Policy, now: int, io: Io, d: Disk, k: nat)
    requires DistinctRows(runs) && NoDuplicates(d.deleted) && DistinctPaths(runs) && k < |Live(runs, d.deleted)|
    requires Live(runs, d.deleted)[k].localPath.value in d.files
    ensures var live, e := Live(runs, d.deleted), Pass(runs, p, now, io, d);
            live[k].row !in e.deleted && live[k].localPath.value !in e.files <==>
              && k > 0 && ShouldDelete(p, now, k, live[k]) && Deletable(live[k], io, d.files)
                && !io.inserts(live[k].row)
              && forall j :: k < j < |live| && Candidate(live, p, now, io, d.files, j) ==> io.inserts(live[j].row)
  {
    var live, e := Live(runs, d.deleted), Pass(runs, p, now, io, d);
    LiveIsOrdered(runs, d.deleted);
    PassExactly(runs, p, now, io, d);
    hide ShouldDelete, Deletable, Pass, Live, Order;
    if live[k].row !in e.deleted && live[k].localPath.value !in e.files {
      assert Takes(live, p, now, io, d.files, |live|, k);
    }
  }

  /** Two policies at once. With both policies set, exactly those runs are stale that are stale under each alone. */
  lemma BothPoliciesIntersect(count: int, days: int, now: int, rank: nat, r: Run)
    ensures ShouldDelete(Policy(Some(count), Some(days)), now, rank, r) <==>
            ShouldDelete(Policy(Some(count), None), now, rank, r)
              && ShouldDelete(Policy(None, Some(days)), now, rank, r)
  {
  }

  /**
   A run is recorded under each policy alone if and only if it is recorded under both and no older candidate of
   one policy fails to be recorded; so exactly the common ones when every insert works. Combining two policies is
   never less careful with the records, either.
   */
  lemma PassesIntersect(runs: seq<Run>, count: int, days: int, now: int, io: Io, d: Disk, k: nat)
    requires DistinctRows(runs) && NoDuplicates(d.deleted) && k < |Live(runs, d.deleted)|
    ensures var live, byCount, byDays := Live(runs, d.deleted), Policy(Some(count), None), Policy(None, Some(days));
            var x, n := live[k].row, |live|;
            x in Pass(runs, byCount, now, io, d).deleted && x in Pass(runs, byDays, now, io, d).deleted <==>
              && x in Pass(runs, Policy(Some(count), Some(days)), now, io, d).deleted
              && Reaches(live, byCount, now, io, d.files, n, k) && Reaches(live, byDays, now, io, d.files, n, k)
  {
    PassRecordsExactly(runs, Policy(Some(count), Some(days)), now, io, d, k);
    PassRecordsExactly(runs, Policy(Some(count), None), now, io, d, k);
    PassRecordsExactly(runs, Policy(None, Some(days)), now, io, d, k);
    var live := Live(runs, d.deleted);
    forall j: nat | j < |live| {
      BothPoliciesIntersect(count, days, now, j, live[j]);
    }
    hide ShouldDelete, Deletable, Pass, Live;
  }

  // The pass after.

  /** An insert that failed fails again, and so ends a pass at which nothing else is left to do. */
  lemma {:induction false} NothingToPrune(live: seq<Run>, p: Policy, now: int, io: Io, upto: nat, d: Disk)
    requires upto <= |live|
    requires forall k: nat :: k < upto && Takes(live, p, now, io, d.files, upto, k) ==>
               !io.inserts(live[k].row) && live[k].localPath.value !in d.files
    ensures Pruned(live, p, now, io, upto, d).0 == d
  {
    if upto > 1 {
      var last := upto - 1;
      assert Reaches(live, p, now, io, d.files, upto, last);
      if !Candidate(live, p, now, io, d.files, last) {
        forall k: nat | k < last && Takes(live, p, now, io, d.files, last, k)
          ensures !io.inserts(live[k].row) && live[k].localPath.value !in d.files
        {
          assert Reaches(live, p, now, io, d.files, upto, k);
        }
        NothingToPrune(live, p, now, io, last, d);
      } else {
        assert d.files - {live[last].localPath.value} == d.files;
      }
    }
  }

  lemma {:induction false} SomeEnd(live: seq<Run>, p: Policy, now: int, io: Io, files: set<Path>, upto: nat, k: nat)
    returns (m: nat)
    requires upto <= |live| && !Reaches(live, p, now, io, files, upto, k)
    ensures k < m < upto && EndsAt(live, p, now, io, files, upto, m)
  {
    if upto - 1 > k && Candidate(live, p, now, io, files, upto - 1) && !io.inserts(live[upto - 1].row) {
      m := upto - 1;
    } else {
      m := SomeEnd(live, p, now, io, files, upto - 1, k);
    }
  }

  lemma {:induction false} WithoutPrefix(order: seq<Run>, deleted: seq<nat>, m: nat)
    requires m < |order| && forall i :: 0 <= i <= m ==> order[i].row !in deleted
    ensures m < |Without(order, deleted)| && forall i :: 0 <= i <= m ==> Without(order, deleted)[i] == order[i]
  {
    if m > 0 { WithoutPrefix(order[1..], deleted, m - 1); }
  }

  /** What the run at which a pass ended has become: it and all newer ones are still listed, at their old ranks. */
  lemma AfterTheEnd(runs: seq<Run>, p: Policy, now: int, io: Io, d: Disk, m: nat)
    requires DistinctRows(runs) && NoDuplicates(d.deleted)
    requires EndsAt(Live(runs, d.deleted), p, now, io, d.files, |Live(runs, d.deleted)|, m)
    ensures var live, e := Live(runs, d.deleted), Pass(runs, p, now, io, d);
            && m < |Live(runs, e.deleted)| && live[m].localPath.value !in e.files
            && forall i :: 0 <= i <= m ==> Live(runs, e.deleted)[i] == live[i]
  {
    var live, e := Live(runs, d.deleted), Pass(runs, p, now, io, d);
    LiveIsOrdered(runs, d.deleted);
    PassExactly(runs, p, now, io, d);
    hide ShouldDelete, Deletable, Pass, Live;
    assert forall i :: 0 <= i <= m ==> live[i].row !in e.deleted;
    WithoutPrefix(live, e.deleted, m);
  }

  /** A run listed after a pass had its chances before it. */
  lemma CandidateBefore(runs: seq<Run>, p: Policy, now: int, io: Io, d: Disk, k: nat) returns (j: nat)
    requires DistinctRows(runs) && NoDuplicates(d.deleted)
    requires var e := Pass(runs, p, now, io, d); Candidate(Live(runs, e.deleted), p, now, io, e.files, k)
    ensures k <= j < |Live(runs, d.deleted)|
            && Live(runs, d.deleted)[j] == Live(runs, Pass(runs, p, now, io, d).deleted)[k]
    ensures Candidate(Live(runs, d.deleted), p, now, io, d.files, j)
  {
    var live, e := Live(runs, d.deleted), Pass(runs, p, now, io, d);
    PassExactly(runs, p, now, io, d);
    j := WithoutMovesForward(live, e.deleted, k);
    hide Pass, Live;
  }

  lemma EndIsTriedAgain(runs: seq<Run>, p: Policy, now: int, io: Io, d: Disk, m: nat)
    requires DistinctRows(runs) && NoDuplicates(d.deleted)
    requires EndsAt(Live(runs, d.deleted), p, now, io, d.files, |Live(runs, d.deleted)|, m)
    ensures var left, files := Live(runs, Pass(runs, p, now, io, d).deleted), Pass(runs, p, now, io, d).files;
            && Candidate(left, p, now, io, files, m) && left[m] == Live(runs, d.deleted)[m]
            && forall k: nat :: k < m ==> !Reaches(left, p, now, io, files, |left|, k)
  {
    AfterTheEnd(runs, p, now, io, d, m);
    hide Live, Pass;
  }

  /** An immediate second pass in which the same steps fail changes nothing; in particular when nothing fails. */
  lemma SecondPassDeletesNothing(runs: seq<Run>, p: Policy, now: int, io: Io, d: Disk)
    requires DistinctRows(runs) && NoDuplicates(d.deleted)
    ensures var e := Pass(runs, p, now, io, d); Pass(runs, p, now, io, e) == e
  {
    var live, e := Live(runs, d.deleted), Pass(runs, p, now, io, d);
    var left := Live(runs, e.deleted);
    LiveIsOrdered(runs, e.deleted);
    PassExactly(runs, p, now, io, d);
    forall k: nat | k < |left| && Takes(left, p, now, io, e.files, |left|, k)
      ensures !io.inserts(left[k].row) && left[k].localPath.value !in e.files
    {
      var j := CandidateBefore(runs, p, now, io, d, k);
      hide ShouldDelete, Live, Order, Without;
      if !Reaches(live, p, now, io, d.files, |live|, j) {
        var m := SomeEnd(live, p, now, io, d.files, |live|, j);
        EndIsTriedAgain(runs, p, now, io, d, m);
        assert false;
      }
      assert Takes(live, p, now, io, d.files, |live|, j);
    }
    NothingToPrune(left, p, now, io, |left|, e);
  }

  /** The task's policy is laid over the client's, field by field. */
  lemma ResolveLayers(client: Policy, task: Policy, none: Policy)
    requires none == Policy(None, None)
    ensures Resolve(client, none) == client && Resolve(none, task) == task
    ensures task.count.Some? && task.days.Some? ==> Resolve(client, task) == task
    ensures Resolve(client, Resolve(client, task)) == Resolve(client, task)
  {
  }

  // What the two policies mean.

  lemma {:induction false} WithoutSuffix(live: seq<Run>, deleted: seq<nat>, c: nat)
    requires c <= |live|
    requires forall k :: 0 <= k < |live| ==> (live[k].row in deleted <==> k >= c)
    ensures Without(live, deleted) == live[..c]
    decreases |live|
  {
    if live != [] {
      if c > 0 {
        WithoutSuffix(live[1..], deleted, c - 1);
        assert live[..c] == [live[0]] + live[1..][..c - 1];
      } else {
        WithoutSuffix(live[1..], deleted, 0);
      }
    }
  }

  /** How many of the newest stay listed when `kept` are to: those, and any up to the oldest one whose insert fails. */
  function Staying(live: seq<Run>, io: Io, kept: nat, upto: nat): (c: nat)
    requires upto <= |live|
    ensures if upto <= kept then c == upto else kept <= c <= upto
    ensures forall j :: c <= j < upto ==> io.inserts(live[j].row)
    ensures c > kept ==> !io.inserts(live[c - 1].row)
  {
    if upto <= kept || !io.inserts(live[upto - 1].row) then upto else Staying(live, io, kept, upto - 1)
  }

  lemma CountDeletes(live: seq<Run>, count: int, now: int, io: Io, files: set<Path>, k: nat)
    requires k < |live| && (forall path :: io.unlinks(path)) && forall i :: 0 <= i < |live| ==> Removable(live[i])
    ensures var p, kept := Policy(Some(count), None), if count < 1 then 1 else count;
            Takes(live, p, now, io, files, |live|, k) && io.inserts(live[k].row) <==>
              k >= Staying(live, io, kept, |live|)
  {
    var p, kept := Policy(Some(count), None), if count < 1 then 1 else count;
    var c := Staying(live, io, kept, |live|);
    assert forall j: nat :: j < |live| ==> (Candidate(live, p, now, io, files, j) <==> j >= kept);
    hide Candidate;
  }

  /**
   When removals work, a pass under a count alone leaves exactly the `count` newest backups, or one when the count
   is less; and, if an insert fails, those up to the one it fails for.
   */
  lemma CountKeepsTheNewest(runs: seq<Run>, count: int, now: int, io: Io, d: Disk)
    requires DistinctRows(runs) && NoDuplicates(d.deleted) && forall path :: io.unlinks(path)
    requires forall r :: r in runs && Backup(r) ==> Removable(r)
    ensures var live, kept := Live(runs, d.deleted), if count < 1 then 1 else count;
            Live(runs, Pass(runs, Policy(Some(count), None), now, io, d).deleted)
              == live[..Staying(live, io, kept, |live|)]
  {
    var p, live := Policy(Some(count), None), Live(runs, d.deleted);
    var kept := if count < 1 then 1 else count;
    var c := Staying(live, io, kept, |live|);
    LiveIsOrdered(runs, d.deleted);
    PassExactly(runs, p, now, io, d);
    hide Live, Pass, Removable, Takes;
    forall k | 0 <= k < |live| ensures live[k].row in Pass(runs, p, now, io, d).deleted <==> k >= c {
      CountDeletes(live, count, now, io, d.files, k);
    }
    WithoutSuffix(live, Pass(runs, p, now, io, d).deleted, c);
  }

  /**
   A pass under days alone deletes exactly the listed runs, but the newest, that were downloaded (or, with no such
   date, started) before the cutoff, whose file is gone or can be removed, and that it comes to and can record.
   */
  lemma DaysKeepTheRecent(runs: seq<Run>, days: int, now: int, io: Io, d: Disk, k: nat)
    requires DistinctRows(runs) && NoDuplicates(d.deleted) && k < |Live(runs, d.deleted)|
    ensures var live, p := Live(runs, d.deleted), Policy(None, Some(days));
            var r := live[k];
            r.row in Pass(runs, p, now, io, d).deleted <==>
            && k > 0 && Deletable(r, io, d.files)
              && now - days * DAY_MS > (if r.downloadedAt.Some? then r.downloadedAt.value else r.startedAt)
            && Reaches(live, p, now, io, d.files, |live|, k) && io.inserts(r.row)
  {
    PassRecordsExactly(runs, Policy(None, Some(days)), now, io, d, k);
  }

  // Whole histories of new runs and passes.

  datatype Event =
    | NewRun(run: Run)
    | Retain(policy: Policy, now: int, io: Io)

  datatype History = History(runs: seq<Run>, disk: Disk)

  ghost predicate Possible(h: History, e: Event) {
    e.NewRun? ==> forall r :: r in h.runs ==> r.row != e.run.row
  }

  /** A new backup comes with its file. */
  function Step(h: History, e: Event): History {
    match e
    case NewRun(r) => History(h.runs + [r], h.disk.(files := h.disk.files + if Backup(r) then {r.localPath.value}
                                                    else {}))
    case Retain(p, now, io) => h.(disk := Pass(h.runs, p, now, io, h.disk))
  }

  ghost predicate Inv(h: History) {
    && DistinctRows(h.runs) && NoDuplicates(h.disk.deleted)
    && (forall x :: x in h.disk.deleted ==> exists r :: r in h.runs && r.row == x)
    && (Order(h.runs) != [] ==> Order(h.runs)[0].row !in h.disk.deleted)
  }

  /** The newest run of the longer table is the new one, or the newest before. */
  lemma NewRunOrder(runs: seq<Run>, r: Run)
    ensures Order(runs + [r]) != [] ==>
            Order(runs + [r])[0] == r || (Order(runs) != [] && Order(runs + [r])[0] == Order(runs)[0])
  {
    assert (runs + [r])[..|runs|] == runs;
  }

  lemma NewRunRows(h: History, r: Run)
    requires DistinctRows(h.runs) && Possible(h, NewRun(r)) && forall x :: x in h.disk.deleted ==>
             exists q :: q in h.runs && q.row == x
    ensures DistinctRows(h.runs + [r]) && r.row !in h.disk.deleted
    ensures forall x :: x in h.disk.deleted ==> exists q :: q in h.runs + [r] && q.row == x
  {
    forall x | x in h.disk.deleted ensures exists q :: q in h.runs + [r] && q.row == x {
      var q :| q in h.runs && q.row == x;
      assert q in h.runs + [r];
    }
  }

  lemma NewRunKeepsInv(h: History, r: Run)
    requires Inv(h) && Possible(h, NewRun(r))
    ensures Inv(Step(h, NewRun(r)))
  {
    NewRunOrder(h.runs, r);
    NewRunRows(h, r);
    hide Order, DistinctRows, NoDuplicates;
  }

  lemma PassKeepsInv(h: History, p: Policy, now: int, io: Io)
    requires Inv(h)
    ensures Inv(h.(disk := Pass(h.runs, p, now, io, h.disk)))
  {
    var live, e := Live(h.runs, h.disk.deleted), Pass(h.runs, p, now, io, h.disk);
    LiveIsOrdered(h.runs, h.disk.deleted);
    PassExactly(h.runs, p, now, io, h.disk);
    if Order(h.runs) != [] { NewestSurvives(h.runs, p, now, io, h.disk); }
    forall x | x in e.deleted ensures exists r :: r in h.runs && r.row == x {
      if x !in h.disk.deleted {
        var k :| 0 < k < |live| && live[k].row == x;
        assert live[k] in h.runs;
      }
    }
  }

  lemma StepKeepsInv(h: History, e: Event)
    requires Inv(h) && Possible(h, e)
    ensures Inv(Step(h, e))
  {
    hide Inv, Pass;
    match e
    case NewRun(r) => NewRunKeepsInv(h, r);
    case Retain(p, now, io) => PassKeepsInv(h, p, now, io);
  }

  ghost predicate AllPossible(h: History, events: seq<Event>)
    decreases |events|
  {
    events == [] || (Possible(h, events[0]) && AllPossible(Step(h, events[0]), events[1..]))
  }

  ghost function After(h: History, events: seq<Event>): History
    decreases |events|
  {
    if events == [] then h else After(Step(h, events[0]), events[1..])
  }

  /**
   Over any history of new runs and passes, under policies and clocks that may change from pass to pass, and
   whatever fails: no run is recorded as deleted twice; and once there is a backup, the newest one is never deleted.
   */
  lemma {:induction false} HistoryKeepsInv(h: History, events: seq<Event>)
    requires Inv(h) && AllPossible(h, events)
    ensures Inv(After(h, events))
    decreases |events|
  {
    if events != [] {
      StepKeepsInv(h, events[0]);
      HistoryKeepsInv(Step(h, events[0]), events[1..]);
    }
  }

  // Which backups lose their file without a record.

  /** The run at which this pass ends: its file is removed, but not recorded. */
  ghost function LostBy(h: History, e: Event): set<nat> {
    if e.NewRun? then {}
    else
      var live := Live(h.runs, h.disk.deleted);
      set k | 0 <= k < |live| && EndsAt(live, e.policy, e.now, e.io, h.disk.files, |live|, k) :: live[k].row
  }

  ghost function Lost(h: History, events: seq<Event>): set<nat>
    decreases |events|
  {
    if events == [] then {} else LostBy(h, events[0]) + Lost(Step(h, events[0]), events[1..])
  }

  /** Of the backups not recorded as deleted, exactly those of `lost` have no file. */
  ghost predicate MissingExactly(h: History, lost: set<nat>) {
    && (forall x :: x in lost ==> exists r :: r in h.runs && r.row == x)
    && forall r :: r in h.runs && Backup(r) && r.row !in h.disk.deleted ==>
      (r.localPath.value !in h.disk.files <==> r.row in lost)
  }

  lemma NewRunMissing(h: History, r: Run, lost: set<nat>)
    requires Possible(h, NewRun(r)) && MissingExactly(h, lost) && DistinctPaths(h.runs + [r])
    ensures MissingExactly(Step(h, NewRun(r)), lost)
  {
    forall x | x in lost ensures exists q :: q in h.runs + [r] && q.row == x {
      var q :| q in h.runs && q.row == x;
      assert q in h.runs + [r];
    }
    assert forall q :: q in h.runs ==> q in h.runs + [r];
    assert r in h.runs + [r];
  }

  lemma LostRow(h: History, p: Policy, now: int, io: Io, k: nat)
    requires DistinctRows(h.runs) && k < |Live(h.runs, h.disk.deleted)|
    ensures var live := Live(h.runs, h.disk.deleted);
            live[k].row in LostBy(h, Retain(p, now, io)) <==> EndsAt(live, p, now, io, h.disk.files, |live|, k)
  {
    LiveIsOrdered(h.runs, h.disk.deleted);
    hide EndsAt, Live;
  }

  lemma LoserIsLost(h: History, p: Policy, now: int, io: Io, k: nat)
    requires Inv(h) && DistinctPaths(h.runs) && k < |Live(h.runs, h.disk.deleted)|
    requires Live(h.runs, h.disk.deleted)[k].localPath.value in h.disk.files
    ensures var r, e := Live(h.runs, h.disk.deleted)[k], Pass(h.runs, p, now, io, h.disk);
            r.row !in e.deleted ==> (r.localPath.value !in e.files <==> r.row in LostBy(h, Retain(p, now, io)))
  {
    LosesFileExactly(h.runs, p, now, io, h.disk, k);
    LostRow(h, p, now, io, k);
    hide Pass, ShouldDelete, Deletable, Live, LostBy;
  }

  lemma LostAreRuns(h: History, p: Policy, now: int, io: Io, x: nat)
    requires DistinctRows(h.runs) && x in LostBy(h, Retain(p, now, io))
    ensures exists r :: r in h.runs && r.row == x
  {
    var live := Live(h.runs, h.disk.deleted);
    LiveIsOrdered(h.runs, h.disk.deleted);
    var k :| 0 <= k < |live| && live[k].row == x;
    assert live[k] in h.runs;
  }

  lemma MissingAfterPass(h: History, p: Policy, now: int, io: Io, lost: set<nat>, r: Run)
    requires Inv(h) && MissingExactly(h, lost) && DistinctPaths(h.runs) && r in h.runs && Backup(r)
    requires r.row !in Pass(h.runs, p, now, io, h.disk).deleted
    ensures r.localPath.value !in Pass(h.runs, p, now, io, h.disk).files <==>
            r.row in lost + LostBy(h, Retain(p, now, io))
  {
    var live, d, e := Live(h.runs, h.disk.deleted), h.disk, Pass(h.runs, p, now, io, h.disk);
    PassExactly(h.runs, p, now, io, d);
    assert r.row !in d.deleted && e.files <= d.files;
    hide Pass, NewRecords, FilesTaken, LostBy, DistinctPaths, NewestFirst;
    if r.localPath.value in d.files {
      assert r in live;
      var k :| 0 <= k < |live| && live[k] == r;
      LoserIsLost(h, p, now, io, k);
    }
  }

  lemma PassMissing(h: History, p: Policy, now: int, io: Io, lost: set<nat>)
    requires Inv(h) && MissingExactly(h, lost) && DistinctPaths(h.runs)
    ensures var e := Retain(p, now, io); MissingExactly(Step(h, e), lost + LostBy(h, e))
  {
    var more := LostBy(h, Retain(p, now, io));
    assert DistinctRows(h.runs);
    hide Pass, LostBy, Inv, DistinctPaths;
    forall x | x in more ensures exists r :: r in h.runs && r.row == x { LostAreRuns(h, p, now, io, x); }
    var e := Step(h, Retain(p, now, io)).disk;
    forall r | r in h.runs && Backup(r) && r.row !in e.deleted
      ensures r.localPath.value !in e.files <==> r.row in lost + more
    {
      MissingAfterPass(h, p, now, io, lost, r);
    }
  }

  lemma StepMissing(h: History, e: Event, lost: set<nat>)
    requires Inv(h) && Possible(h, e) && MissingExactly(h, lost) && DistinctPaths(Step(h, e).runs)
    ensures MissingExactly(Step(h, e), lost + LostBy(h, e))
  {
    hide Inv, MissingExactly, Pass;
    match e
    case NewRun(r) =>
      NewRunMissing(h, r, lost);
      assert lost + {} == lost;
    case Retain(p, now, io) => PassMissing(h, p, now, io, lost);
  }

  lemma {:induction false} RunsGrow(h: History, events: seq<Event>)
    ensures forall r :: r in h.runs ==> r in After(h, events).runs
    decreases |events|
  {
    if events != [] { RunsGrow(Step(h, events[0]), events[1..]); }
  }

  /**
   Over any history with distinct paths, a backup not recorded as deleted is without its file if and only if some
   pass ended at it; or it was so from the start.
   */
  lemma {:induction false} MissingOverHistory(h: History, events: seq<Event>, lost: set<nat>)
    requires Inv(h) && AllPossible(h, events) && MissingExactly(h, lost) && DistinctPaths(After(h, events).runs)
    ensures MissingExactly(After(h, events), lost + Lost(h, events))
    decreases |events|
  {
    if events == [] {
      assert lost + {} == lost;
    } else {
      RunsGrow(Step(h, events[0]), events[1..]);
      StepKeepsInv(h, events[0]);
      hide Inv, MissingExactly, LostBy, Step;
      StepMissing(h, events[0], lost);
      MissingOverHistory(Step(h, events[0]), events[1..], lost + LostBy(h, events[0]));
      assert lost + LostBy(h, events[0]) + Lost(Step(h, events[0]), events[1..]) == lost + Lost(h, events);
    }
  }

  ghost predicate InsertsWork(events: seq<Event>) {
    forall i :: 0 <= i < |events| && events[i].Retain? ==> forall row :: events[i].io.inserts(row)
  }

  lemma {:induction false} NothingLost(h: History, events: seq<Event>)
    requires InsertsWork(events)
    ensures Lost(h, events) == {}
    decreases |events|
  {
    if events != [] {
      assert events[0].Retain? ==> forall row :: events[0].io.inserts(row);
      assert forall i :: 0 <= i < |events| - 1 ==> events[1..][i] == events[i + 1];
      assert LostBy(h, events[0]) == {} by { hide ShouldDelete, Deletable, Reaches, Live; }
      hide LostBy;
      NothingLost(Step(h, events[0]), events[1..]);
    }
  }

  /** When no insert fails, every backup not recorded as deleted still has its file, whatever removals fail. */
  lemma KeptFilesExist(h: History, events: seq<Event>)
    requires Inv(h) && AllPossible(h, events) && MissingExactly(h, {}) && DistinctPaths(After(h, events).runs)
             && InsertsWork(events)
    ensures MissingExactly(After(h, events), {})
  {
    MissingOverHistory(h, events, {});
    NothingLost(h, events);
    assert {} + Lost(h, events) == {};
  }

  // The next pass under the same policy makes up for it.

  lemma WithoutHead(x: Run, rest: seq<Run>, deleted: seq<nat>)
    ensures Without([x] + rest, deleted) == (if x.row in deleted then [] else [x]) + Without(rest, deleted)
  {
    assert ([x] + rest)[1..] == rest;
  }

  lemma InsertHead(r: Run, order: seq<Run>, deleted: seq<nat>)
    ensures Without([], deleted) == []
    ensures order != [] ==>
            Insert(r, order) == if Newer(r, order[0]) then [r] + order else [order[0]] + Insert(r, order[1..])
  {
  }

  /** What comes first moves the rest back by one, or not at all. */
  lemma Behind(first: seq<Run>, rest: seq<Run>, later: seq<Run>, k: nat, j: nat)
    requires k < |rest| && k <= j < |later| && later[j] == rest[k]
    ensures (first + later)[|first| + j] == (first + rest)[|first| + k]
  {
  }

  /** A new run at most moves a listed one back. */
  lemma {:induction false} InsertPushesBack(r: Run, order: seq<Run>, deleted: seq<nat>, k: nat) returns (j: nat)
    requires k < |Without(order, deleted)|
    ensures k <= j < |Without(Insert(r, order), deleted)|
            && Without(Insert(r, order), deleted)[j] == Without(order, deleted)[k]
    decreases |order|
  {
    hide Without, Insert, Newer;
    InsertHead(r, order, deleted);
    var x, rest := order[0], order[1..];
    assert order == [x] + rest;
    if Newer(r, x) {
      WithoutHead(r, order, deleted);
      j := if r.row in deleted then k else k + 1;
    } else {
      WithoutHead(x, rest, deleted);
      WithoutHead(x, Insert(r, rest), deleted);
      var first := if x.row in deleted then [] else [x];
      if k < |first| {
        j := 0;
      } else {
        var i := InsertPushesBack(r, rest, deleted, k - |first|);
        Behind(first, Without(rest, deleted), Without(Insert(r, rest), deleted), k - |first|, i);
        j := |first| + i;
      }
    }
  }

  ghost predicate OnlyRuns(events: seq<Event>) {
    forall i :: 0 <= i < |events| ==> events[i].NewRun?
  }

  /**
   While only new runs come, nothing is recorded, a listed run only moves back, and a file that is gone stays away.
   */
  lemma {:induction false} NewRunsPushBack(h: History, events: seq<Event>, k: nat) returns (j: nat)
    requires OnlyRuns(events) && k < |Live(h.runs, h.disk.deleted)| && DistinctPaths(After(h, events).runs)
             && AllPossible(h, events)
    requires Live(h.runs, h.disk.deleted)[k].localPath.value !in h.disk.files
    ensures var r, later := Live(h.runs, h.disk.deleted)[k], After(h, events);
            && later.disk.deleted == h.disk.deleted && k <= j < |Live(later.runs, later.disk.deleted)|
            && Live(later.runs, later.disk.deleted)[j] == r && r.localPath.value !in later.disk.files
    decreases |events|
  {
    if events == [] {
      j := k;
    } else {
      var r, e := Live(h.runs, h.disk.deleted)[k], events[0];
      assert e.NewRun?;
      var next := Step(h, e);
      assert (h.runs + [e.run])[..|h.runs|] == h.runs;
      RunsGrow(next, events[1..]);
      var i := k;
      if Backup(e.run) { i := InsertPushesBack(e.run, Order(h.runs), h.disk.deleted, k); }
      assert r in Live(h.runs, h.disk.deleted) && r in h.runs && r in next.runs && e.run in next.runs;
      assert Live(next.runs, next.disk.deleted)[i] == r;
      hide Live, Order, Insert, Without;
      assert r.localPath.value !in next.disk.files;
      assert forall n :: 0 <= n < |events| - 1 ==> events[1..][n] == events[n + 1];
      j := NewRunsPushBack(next, events[1..], i);
    }
  }

  /**
   A run that lost its file without a record is recorded by the next pass under the same policy in which no insert
   fails - whatever new runs come in between, and whether or not files can be removed then.
   */
  lemma NextPassRecords(h: History, p: Policy, now: int, io: Io, k: nat, between: seq<Event>, later: int, again: Io)
    requires Inv(h) && EndsAt(Live(h.runs, h.disk.deleted), p, now, io, h.disk.files, |Live(h.runs, h.disk.deleted)|, k)
    requires OnlyRuns(between) && AllPossible(Step(h, Retain(p, now, io)), between)
    requires DistinctPaths(After(Step(h, Retain(p, now, io)), between).runs)
    requires now <= later && forall row :: again.inserts(row)
    ensures var mid := After(Step(h, Retain(p, now, io)), between);
            Live(h.runs, h.disk.deleted)[k].row in Step(mid, Retain(p, later, again)).disk.deleted
  {
    var live, after := Live(h.runs, h.disk.deleted), Step(h, Retain(p, now, io));
    AfterTheEnd(h.runs, p, now, io, h.disk, k);
    var j := NewRunsPushBack(after, between, k);
    var mid := After(after, between);
    StepKeepsInv(h, Retain(p, now, io));
    RunsKeepInv(after, between);
    PassRecordsExactly(mid.runs, p, later, again, mid.disk, j);
    hide Live, Pass, After, Inv;
  }

  lemma RunsKeepInv(h: History, events: seq<Event>)
    requires Inv(h) && AllPossible(h, events)
    ensures DistinctRows(After(h, events).runs) && NoDuplicates(After(h, events).disk.deleted)
  {
    HistoryKeepsInv(h, events);
  }

  // It happens.

  const OLD: Run := Run(0, true, 1, None, Some("a"))
  const NEW: Run := Run(1, true, 2, None, Some("b"))
  const ONE: Policy := Policy(Some(1), None)
  const EMPTY: History := History([], Disk({}, []))

  function TwoRuns(inserts: bool): seq<Event> {
    [NewRun(OLD), NewRun(NEW), Retain(ONE, 10, Io((p: Path) => true, (row: nat) => inserts))]
  }

  /** Two backups, of which one is to be kept: the insert fails, and the older one is neither there nor recorded. */
  lemma FileIsLost()
    ensures var h := After(EMPTY, TwoRuns(false));
            && AllPossible(EMPTY, TwoRuns(false)) && Inv(EMPTY) && OLD in h.runs && h.disk == Disk({"b"}, [])
    ensures After(EMPTY, TwoRuns(true)).disk == Disk({"b"}, [0])
  {
    TwoRunsEnd(true);
    TwoRunsEnd(false);
    var run := TwoRuns(false);
    assert Possible(EMPTY, run[0]) && Possible(Step(EMPTY, run[0]), run[1]);
    assert run[1..] == [run[1], run[2]] && run[1..][1..] == [run[2]] && [run[2]][1..] == [];
    hide After, Pass;
    assert AllPossible(Step(EMPTY, run[0]), run[1..]);
  }

  lemma TwoRunsAreListed()
    ensures Live([OLD, NEW], []) == [NEW, OLD]
  {
    assert [OLD, NEW][..1] == [OLD] && [OLD][..0] == [];
    assert Order([OLD]) == Insert(OLD, []) == [OLD];
    assert Order([OLD, NEW]) == Insert(NEW, [OLD]) == [NEW, OLD];
    assert [NEW, OLD][1..] == [OLD] && [OLD][1..] == [];
    assert Without([OLD], []) == [OLD];
  }

  lemma TwoRunsEnd(inserts: bool)
    ensures After(EMPTY, TwoRuns(inserts)) == History([OLD, NEW], Disk({"b"}, if inserts then [0] else []))
  {
    var run := TwoRuns(inserts);
    assert run[1..] == [run[1], run[2]] && run[1..][1..] == [run[2]] && [run[2]][1..] == [];
    var h1, io := Step(EMPTY, run[0]), run[2].io;
    var h2 := Step(h1, run[1]);
    assert h1 == History([OLD], Disk({"a"}, [])) && [OLD] + [NEW] == [OLD, NEW];
    assert h2 == History([OLD, NEW], Disk({"a", "b"}, []));
    PassOverTwo(inserts);
    hide Live, Pass;
    var h3 := Step(h2, run[2]);
    assert h3 == History([OLD, NEW], Disk({"b"}, if inserts then [0] else []));
    hide Step;
    assert After(h3, []) == h3;
    assert After(h2, [run[2]]) == h3;
    assert After(h1, [run[1], run[2]]) == h3;
  }

  lemma PassOverTwo(inserts: bool)
    ensures Pass([OLD, NEW], ONE, 10, TwoRuns(inserts)[2].io, Disk({"a", "b"}, []))
            == Disk({"b"}, if inserts then [0] else [])
  {
    TwoRunsAreListed();
    hide Live;
    var d, io := Disk({"a", "b"}, []), TwoRuns(inserts)[2].io;
    assert d.files - {"a"} == {"b"} && [] + [OLD.row] == [0];
    assert StepAt([NEW, OLD], ONE, 10, io, 1, d) == (Disk({"b"}, if inserts then [0] else []), inserts);
    assert Pruned([NEW, OLD], ONE, 10, io, 2, d).0 == Disk({"b"}, if inserts then [0] else []);
  }
}

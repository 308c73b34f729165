/**
 Throttled progress (runProgress.ts): one sink shared by many runs, with the last written update of
 each run kept in a map.
 */
module Throttle {
  import opened Common

  type RunId = string

  datatype Progress = Progress(phase: string, fraction: Option<real>)

  /** An update, and the clock when it arrives. */
  datatype Update = Update(run: RunId, progress: Progress, at: int)

  /** `minIntervalMs` and `minFractionStep`. */
  datatype Limits = Limits(interval: int, step: real)

  const DEFAULTS: Limits := Limits(800, 0.01)

  predicate FractionJumped(l: Limits, last: Option<Update>, u: Update) {
    u.progress.fraction.Some?
    && (last.None? || last.value.progress.fraction.None?
        || u.progress.fraction.value - last.value.progress.fraction.value >= l.step
        || u.progress.fraction.value >= 1.0)
  }

  predicate ShouldWrite(l: Limits, last: Option<Update>, u: Update) {
    || last.None? || u.progress.phase != last.value.progress.phase || u.at - last.value.at >= l.interval
      || FractionJumped(l, last, u)
  }

  /** The updates of one run. */
  function Of(updates: seq<Update>, run: RunId): seq<Update> {
    if updates == [] then []
    else
      var n := |updates| - 1;
      Of(updates[..n], run) + if updates[n].run == run then [updates[n]] else []
  }

  function LastOf(written: seq<Update>, run: RunId): Option<Update> {
    if written == [] then None
    else
      var n := |written| - 1;
      if written[n].run == run then Some(written[n]) else LastOf(written[..n], run)
  }

  /** What reaches the sink: each update is judged against the last one written for the same run. */
  function Written(l: Limits, updates: seq<Update>): seq<Update> {
    if updates == [] then []
    else
      var n := |updates| - 1;
      var before := Written(l, updates[..n]);
      if ShouldWrite(l, LastOf(before, updates[n].run), updates[n]) then before + [updates[n]] else before
  }

  /** `throttleProgressSink`: the sink and the map behind it. */
  class ThrottledSink {
    const limits: Limits
    var state: map<RunId, Update>
    var written: seq<Update>
    ghost var received: seq<Update>

    ghost predicate Valid()
      reads this
    {
      && written == Written(limits, received)
      && forall run :: LastOf(written, run) == if run in state then Some(state[run]) else None
    }

    constructor (limits: Limits)
      ensures Valid() && received == [] && this.limits == limits
    {
      this.limits, state, written, received := limits, map[], [], [];
    }

    method Report(u: Update)
      requires Valid()
      modifies this
      ensures Valid() && received == old(received) + [u]
      ensures written == old(written) || written == old(written) + [u]
    {
      var last := if u.run in state then Some(state[u.run]) else None;
      assert (received + [u])[..|received|] == received;
      received := received + [u];
      if !ShouldWrite(limits, last, u) { return; }
      state := state[u.run := u];
      assert (written + [u])[..|written|] == written;
      written := written + [u];
    }
  }

  lemma {:induction false} LastOfItsOwn(written: seq<Update>, run: RunId)
    ensures LastOf(Of(written, run), run) == LastOf(written, run)
    ensures Of(written, run) == [] <==> LastOf(written, run).None?
    ensures LastOf(written, run).Some? ==> LastOf(written, run).value.run == run
  {
    if written != [] {
      var n := |written| - 1;
      LastOfItsOwn(written[..n], run);
      if written[n].run == run {
        assert Of(written, run)[..|Of(written, run)| - 1] == Of(written[..n], run);
      } else {
        assert Of(written, run) == Of(written[..n], run);
      }
    }
  }

  /** Sharing the sink changes nothing for a run: its output is what throttling it alone would write. */
  lemma {:induction false} RunsAreIndependent(l: Limits, updates: seq<Update>, run: RunId)
    ensures Of(Written(l, updates), run) == Written(l, Of(updates, run))
  {
    if updates != [] {
      var n := |updates| - 1;
      var before, u := Written(l, updates[..n]), updates[n];
      RunsAreIndependent(l, updates[..n], run);
      assert (before + [u])[..|before|] == before;
      if u.run == run {
        var own := Of(updates[..n], run);
        assert (own + [u])[..|own|] == own;
        LastOfItsOwn(before, run);
      } else {
        assert Of(updates, run) == Of(updates[..n], run);
        assert Of(before + [u], run) == Of(before, run);
      }
    }
  }

  /**
   An update is suppressed exactly when an earlier one of its run was written in the same phase, less
   than the interval ago, and its fraction, if it has one, is short of 1 and less than a step ahead.
   So the first update, a change of phase and a completed fraction are always written.
   */
  lemma SuppressedExactly(l: Limits, updates: seq<Update>, u: Update)
    ensures Written(l, updates + [u]) == Written(l, updates) || Written(l, updates + [u]) == Written(l, updates) + [u]
    ensures var last := LastOf(Written(l, updates), u.run);
            Written(l, updates + [u]) == Written(l, updates) <==>
              && last.Some? && last.value.progress.phase == u.progress.phase && u.at - last.value.at < l.interval
              && (u.progress.fraction.Some? ==>
                    && u.progress.fraction.value < 1.0 && last.value.progress.fraction.Some?
                    && u.progress.fraction.value - last.value.progress.fraction.value < l.step)
  {
    assert (updates + [u])[..|updates|] == updates;
  }

  /** Consecutive writes of a run in one phase are at least the interval apart, unless the fraction jumped. */
  lemma {:induction false} WritesAreSpaced(l: Limits, updates: seq<Update>, run: RunId, i: nat)
    requires i + 1 < |Written(l, Of(updates, run))|
    ensures var w := Written(l, Of(updates, run));
            w[i + 1].progress.phase == w[i].progress.phase && w[i + 1].at - w[i].at < l.interval ==>
              FractionJumped(l, Some(w[i]), w[i + 1])
    decreases |updates|
  {
    var n := |updates| - 1;
    var own := Of(updates, run);
    if updates[n].run == run {
      assert own[..|own| - 1] == Of(updates[..n], run);
      var before := Written(l, Of(updates[..n], run));
      if i + 1 < |before| {
        WritesAreSpaced(l, updates[..n], run, i);
      } else {
        OwnRuns(updates[..n], run);
        OnlyOwn(l, Of(updates[..n], run), run);
      }
    } else {
      assert own == Of(updates[..n], run);
      WritesAreSpaced(l, updates[..n], run, i);
    }
  }

  lemma {:induction false} OwnRuns(updates: seq<Update>, run: RunId)
    ensures forall u :: u in Of(updates, run) ==> u.run == run
  {
    if updates != [] { OwnRuns(updates[..|updates| - 1], run); }
  }

  /** In a run's own output the last write is the last element. */
  lemma {:induction false} OnlyOwn(l: Limits, own: seq<Update>, run: RunId)
    requires forall u :: u in own ==> u.run == run
    ensures forall u :: u in Written(l, own) ==> u.run == run
    ensures Written(l, own) != [] ==> LastOf(Written(l, own), run) == Some(Written(l, own)[|Written(l, own)| - 1])
  {
    if own != [] {
      var n := |own| - 1;
      OnlyOwn(l, own[..n], run);
      assert own[n] in own;
      assert Written(l, own) == Written(l, own[..n]) || Written(l, own) == Written(l, own[..n]) + [own[n]];
    }
  }
}

/**
 Whole sessions on the objects of `VaultObjects`: any sequence of calls, issued one after the
 other to the same tables and buffers, does what the run of `VaultRuns` says. So the theorems
 about runs hold of the program that wipes its keys in place.
 */
module VaultSessions {
  import opened Common
  import opened VaultModel
  import opened VaultObjects
  import opened VaultRuns
  import Auto = AutoUnlockLayout

  /** The calls that derive or unwrap keys. */
  predicate HandlesKeys(call: Call) {
    call.CallInit? || call.CallUnlock? || call.CallChangePassword? || call.CallEnableAuto? || call.CallWindows?
      || call.CallStartup?
  }

  predicate UsesStore(call: Call) {
    call.CallSet? || call.CallDelete? || call.CallGet?
  }

  method PerformKeyCall(state: VaultState, e: Event) returns (reply: Reply)
    requires state.Valid() && HandlesKeys(e.call)
    modifies state.Footprint()
    ensures state.Valid() && (state.View(), reply) == Step(state.env, old(state.View()), e)
    ensures fresh(state.Footprint() - old(state.Footprint()))
  {
    hide Init, Unlock, ChangePassword, EnableAutoUnlock, UnlockWithWindows, AttemptStartupAutoUnlock;
    var outcome, open;
    ghost var kek, candidate, newKek;
    match e.call {
      case CallInit(password, params) =>
        outcome, kek, candidate := state.InitVault(password, params, e.io);
        reply := Answer(outcome);
      case CallUnlock(password, enable) =>
        outcome, kek, candidate := state.UnlockVault(password, enable, e.io);
        reply := Answer(outcome);
      case CallChangePassword(current, next, params) =>
        outcome, kek, candidate, newKek := state.ChangeMasterPassword(current, next, params, e.io);
        reply := Answer(outcome);
      case CallEnableAuto(password) =>
        outcome, kek, candidate := state.EnableAuto(password, e.io);
        reply := Answer(outcome);
      case CallWindows =>
        outcome, kek, candidate := state.WindowsUnlock(e.io);
        reply := Answer(outcome);
      case CallStartup =>
        open, kek, candidate := state.StartupUnlock(e.io);
        reply := Flag(open);
    }
  }

  method PerformStoreCall(state: VaultState, e: Event) returns (reply: Reply)
    requires state.Valid() && UsesStore(e.call)
    modifies state.Footprint()
    ensures state.Valid() && (state.View(), reply) == Step(state.env, old(state.View()), e)
    ensures fresh(state.Footprint() - old(state.Footprint()))
  {
    var store := new VaultSecretStore(state);
    match e.call {
      case CallSet(ref, value) =>
        var outcome := store.Set(ref, value, e.io);
        reply := Answer(outcome);
      case CallDelete(ref) =>
        store.Delete(ref);
        reply := Answer(Done);
      case CallGet(ref) =>
        var found := store.Get(ref, e.io.now);
        reply := Found(found);
    }
  }

  method PerformSessionCall(state: VaultState, e: Event) returns (next: VaultState, reply: Reply)
    requires state.Valid() && !HandlesKeys(e.call) && !UsesStore(e.call)
    modifies state.Footprint()
    ensures next.Valid() && next.env == state.env && (next.View(), reply) == Step(state.env, old(state.View()), e)
    ensures fresh(next.Footprint() - old(state.Footprint()))
  {
    next, reply := state, Answer(Done);
    match e.call {
      case CallLock => state.Lock();
      case CallIdle =>
        reply := Flag(state.timer && state.autoLockDueAt.value <= e.io.now);
        state.IdleTimeout(e.io.now);
      case CallDisableAuto => state.DisableAuto(e.io);
      case CallStatus => var _ := state.AutoUnlockStatus(e.io);
      case CallTouch => state.TouchSession(e.io.now);
      case CallSetAutoLock(ms) => state.SetAutoLock(ms, e.io.now);
      case CallRestart(ms) => next := new VaultState(state.env, state.db, state.autoUnlock, ms);
      case ForeignMaterial(file) =>
        if state.autoUnlock != null { state.autoUnlock.file := file; }
    }
  }

  /** One event; only a restart replaces the session object. */
  method Perform(state: VaultState, e: Event) returns (next: VaultState, reply: Reply)
    requires state.Valid()
    modifies state.Footprint()
    ensures next.Valid() && next.env == state.env && (next.View(), reply) == Step(state.env, old(state.View()), e)
    ensures fresh(next.Footprint() - old(state.Footprint()))
  {
    hide Step;
    if HandlesKeys(e.call) {
      next := state;
      reply := PerformKeyCall(state, e);
    } else if UsesStore(e.call) {
      next := state;
      reply := PerformStoreCall(state, e);
    } else {
      next, reply := PerformSessionCall(state, e);
    }
  }

  /** A run is performed event by event. */
  lemma {:induction false} RunThenNext(env: Env, v: Vault, o: Observed, run: seq<Event>, e: Event)
    ensures RunFrom(env, v, o, run + [e]) == Next(env, RunFrom(env, v, o, run), e)
    decreases |run|
  {
    hide Step, Observe;
    if run == [] {
      assert [] + [e] == [e] && [e][1..] == [];
      var (w, r) := Step(env, v, e);
      assert RunFrom(env, w, Observe(o, e, r), []) == (w, Observe(o, e, r));
    } else {
      var (w, r) := Step(env, v, run[0]);
      RunThenNext(env, w, Observe(o, run[0], r), run[1..], e);
      assert (run + [e])[1..] == run[1..] + [e];
    }
  }

  /** From any state of the objects, a sequence of calls reaches what the run of values reaches. */
  method Drive(state: VaultState, ghost o: Observed, run: seq<Event>) returns (last: VaultState, ghost seen: Observed)
    requires state.Valid()
    modifies state.Footprint()
    ensures last.Valid() && last.env == state.env
    ensures (last.View(), seen) == RunFrom(state.env, old(state.View()), o, run)
    ensures fresh(last.Footprint() - old(state.Footprint()))
  {
    hide Step, Observe;
    last, seen := state, o;
    for i := 0 to |run|
      invariant last.Valid() && last.env == state.env
      invariant (last.View(), seen) == RunFrom(state.env, old(state.View()), o, run[..i])
      invariant fresh(last.Footprint() - old(state.Footprint()))
    {
      RunThenNext(state.env, old(state.View()), o, run[..i], run[i]);
      assert run[..i] + [run[i]] == run[..i + 1];
      var reply;
      last, reply := Perform(last, run[i]);
      seen := Observe(seen, run[i], reply);
    }
    assert run[..|run|] == run;
  }

  /**
   A session on a fresh machine, of any length and whatever fails in it: at its end the live buffer is null or holds
   exactly the key drawn by the first `init`, byte for byte, whatever was wiped on the way, and the objects keep the
   invariant of the vault.
   */
  method Session(env: Env, autoLockMs: Option<int>, run: seq<Event>) returns (last: VaultState, ghost seen: Observed)
    requires LawfulEnv(env)
    ensures last.Valid() && (last.View(), seen) == Run(env, autoLockMs, run)
    ensures Inv(env, last.View(), seen)
    ensures if seen.open then last.dek != null && last.dek[..] == seen.dek else last.dek == null
  {
    hide Step, Observe, LawfulEnv;
    var db := new Database();
    assert Auto.LawfulSealer(env.sealer) by { LawfulSealers(env); }
    var autoUnlock: AutoUnlock? := null;
    if env.hasAutoUnlock { autoUnlock := new AutoUnlock(env.sealer, None); }
    var state := new VaultState(env, db, autoUnlock, autoLockMs);
    last, seen := Drive(state, NOTHING, run);
    RunKeepsInv(env, Fresh(autoLockMs), NOTHING, run);
  }

  lemma LawfulSealers(env: Env)
    requires LawfulEnv(env)
    ensures Auto.LawfulSealer(env.sealer)
  {
  }
}

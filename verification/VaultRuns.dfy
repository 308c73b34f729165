/**
 What every run of the vault keeps. A run is any sequence of calls, with any environment
 behaviour in each: failing writes, foreign auto-unlock files, idle locks, restarts.
 */
module VaultRuns {
  import opened Common
  import opened Blob
  import opened VaultModel
  import Auto = AutoUnlockLayout

  datatype Call =
    | CallInit(password: string, params: ScryptParams)
    | CallUnlock(password: string, enable: bool)
    | CallLock
    | CallIdle
    | CallChangePassword(current: string, next: string, params: ScryptParams)
    | CallEnableAuto(password: string)
    | CallDisableAuto
    | CallWindows
    | CallStartup
    | CallStatus
    | CallTouch
    | CallSetAutoLock(ms: Option<int>)
    | CallRestart(ms: Option<int>)
    | ForeignMaterial(file: Option<Bytes>)
    | CallSet(ref: string, value: string)
    | CallDelete(ref: string)
    | CallGet(ref: string)

  datatype Reply = Answer(outcome: Outcome) | Flag(yes: bool) | Found(lookup: Lookup)

  datatype Event = Event(call: Call, io: Io)

  function Step(env: Env, v: Vault, e: Event): (Vault, Reply) {
    var io := e.io;
    match e.call
    case CallInit(pw, params) => var (w, o) := Init(env, v, pw, params, io); (w, Answer(o))
    case CallUnlock(pw, enable) => var (w, o) := Unlock(env, v, pw, enable, io); (w, Answer(o))
    case CallLock => (Locked(v), Answer(Done))
    case CallIdle => (IdleLock(v, io.now), Flag(v.timerDue.Some? && v.timerDue.value <= io.now))
    case CallChangePassword(c, n, params) => var (w, o) := ChangePassword(env, v, c, n, params, io); (w, Answer(o))
    case CallEnableAuto(pw) => var (w, o) := EnableAutoUnlock(env, v, pw, io); (w, Answer(o))
    case CallDisableAuto => (DisableAutoUnlock(env, v, io), Answer(Done))
    case CallWindows => var (w, o) := UnlockWithWindows(env, v, io); (w, Answer(o))
    case CallStartup => var (w, b) := AttemptStartupAutoUnlock(env, v, io); (w, Flag(b))
    case CallStatus => (AfterAutoUnlockStatus(env, v, io), Answer(Done))
    case CallTouch => (Touch(env, v, io.now), Answer(Done))
    case CallSetAutoLock(ms) => (SetAutoLockMs(env, v, ms, io.now), Answer(Done))
    case CallRestart(ms) => (Restart(v, ms), Answer(Done))
    case ForeignMaterial(file) => (if env.hasAutoUnlock then v.(material := file) else v, Answer(Done))
    case CallSet(ref, value) => var (w, o) := SetSecret(env, v, ref, value, io); (w, Answer(o))
    case CallDelete(ref) => (DeleteSecret(v, ref), Answer(Done))
    case CallGet(ref) => (AfterGet(env, v, ref, io.now), Found(GetSecret(env, v, ref)))
  }

  /**
   What an observer of calls and replies believes: a plain map behind a lock. It never sees a
   ciphertext; `dek` and `password` record the key drawn by the first `init` and the last
   password that was accepted.
   */
  datatype Observed = Observed(initialized: bool, open: bool, contents: map<string, string>, password: string,
                               dek: Bytes)

  function Observe(o: Observed, e: Event, r: Reply): Observed {
    var done := r == Answer(Done) || r == Flag(true);
    match e.call
    case CallInit(pw, _) => if done then o.(initialized := true, open := true, password := pw, dek := e.io.key) else o
    case CallUnlock(_, _) => if done then o.(open := true) else o
    case CallLock => o.(open := false)
    case CallIdle => if done then o.(open := false) else o
    case CallChangePassword(_, next, _) => if done then o.(open := true, password := next) else o
    case CallWindows => if done then o.(open := true) else o
    case CallStartup => if done then o.(open := true) else o
    case CallRestart(_) => o.(open := false)
    case CallSet(ref, value) => if done then o.(contents := o.contents[ref := value]) else o
    case CallDelete(ref) => o.(contents := o.contents - {ref})
    case _ => o
  }

  /** What a plain map behind a lock answers to `get`. */
  function PlainGet(o: Observed, ref: string): Lookup {
    if ref !in o.contents then Lookup.Absent
    else if !o.open then Refused(VaultLocked)
    else Present(o.contents[ref])
  }

  function RunFrom(env: Env, v: Vault, o: Observed, run: seq<Event>): (Vault, Observed)
    decreases |run|
  {
    if run == [] then (v, o)
    else
      var (w, r) := Step(env, v, run[0]);
      RunFrom(env, w, Observe(o, run[0], r), run[1..])
  }

  const NOTHING := Observed(false, false, map[], "", [])

  function Run(env: Env, autoLockMs: Option<int>, run: seq<Event>): (Vault, Observed) {
    RunFrom(env, Fresh(autoLockMs), NOTHING, run)
  }

  /** The stored row opens, under the current password, to the key drawn at `init`. */
  ghost predicate RowHolds(env: Env, row: Meta, o: Observed) {
    && |o.dek| == KEY_LEN
    && var kek := DeriveKek(env, o.password, row.kekSalt, row.params);
       && kek.Some?
       && DecryptBytes(env.aead, VAULT_MAGIC, row.wrappedDek, kek.value) == Ok(o.dek)
       && VerifierMatches(env, row.verifier, o.dek)
  }

  ghost predicate SecretsHold(env: Env, v: Vault, o: Observed) {
    && v.secrets.Keys == o.contents.Keys
    && forall ref :: ref in v.secrets ==>
         DecryptBytes(env.aead, VAULT_MAGIC, v.secrets[ref], o.dek) == Ok(env.utf8(o.contents[ref]))
  }

  ghost predicate Inv(env: Env, v: Vault, o: Observed) {
    && (v.row.Some? <==> o.initialized)
    && (v.row.Some? ==> RowHolds(env, v.row.value, o))
    && (v.row.None? ==> v.secrets == map[] && v.session.None?)
    && (v.session.Some? <==> o.open)
    && (v.session.Some? ==> v.session.value == o.dek)
    && SecretsHold(env, v, o)
    && (v.timerDue.Some? ==> v.session.Some?)
  }

  /** The verifier admits one key: whatever KEK is tried, the row yields that key or nothing. */
  lemma RowOpensToOneKey(env: Env, row: Meta, o: Observed, kek: Bytes)
    requires LawfulEnv(env) && RowHolds(env, row, o)
    ensures OpenRow(env, row, kek).Some? ==> OpenRow(env, row, kek).value == o.dek
    ensures OpenRow(env, row, kek).Some? <==> Some(kek) == DeriveKek(env, o.password, row.kekSalt, row.params)
  {
    if OpenRow(env, row, kek).Some? {
      OneKeyPerPlaintext(env.aead, VAULT_MAGIC, row.verifier, OpenRow(env, row, kek).value, o.dek, VERIFIER_PLAINTEXT);
      OneKeyPerPlaintext(env.aead, VAULT_MAGIC, row.wrappedDek, kek,
                         DeriveKek(env, o.password, row.kekSalt, row.params).value, o.dek);
    }
  }

  /** A row made for a key and a password holds them. */
  lemma MadeRowHolds(env: Env, params: ScryptParams, salt: Bytes, password: string, o: Observed, nonce: Bytes,
                     nonce2: Bytes)
    requires LawfulEnv(env) && |o.dek| == KEY_LEN && |nonce| == |nonce2| == NONCE_LEN && o.password == password
    requires DeriveKek(env, password, salt, params).Some?
    ensures var kek := DeriveKek(env, password, salt, params).value;
            var made := MakeRow(env, params, salt, kek, o.dek, nonce, nonce2);
            && (made.Ok? <==> params.keylen == KEY_LEN)
            && (made.Ok? ==> made.value.kekSalt == salt && made.value.params == params && RowHolds(env, made.value, o))
  {
    var kek := DeriveKek(env, password, salt, params).value;
    if |kek| == KEY_LEN {
      EncryptDecrypt(env.aead, VAULT_MAGIC, o.dek, kek, nonce);
      EncryptDecrypt(env.aead, VAULT_MAGIC, VERIFIER_PLAINTEXT, o.dek, nonce2);
    }
  }

  /** Calls that leave row and ciphertexts alone keep the invariant if they treat the session well. */
  lemma SessionStep(env: Env, v: Vault, o: Observed, w: Vault, open: bool)
    requires Inv(env, v, o)
    requires w.row == v.row && w.secrets == v.secrets
    requires w.session == if open then Some(o.dek) else None
    requires open ==> v.row.Some?
    requires w.timerDue.Some? ==> open
    ensures Inv(env, w, o.(open := open))
  {
  }

  /** One step keeps the invariant, whatever is called and whatever fails. */
  lemma StepKeepsInv(env: Env, v: Vault, o: Observed, e: Event)
    requires LawfulEnv(env) && Inv(env, v, o)
    ensures var (w, r) := Step(env, v, e); Inv(env, w, Observe(o, e, r))
  {
    hide LawfulEnv, DecryptBytes, EncryptBytes, Init, Unlock, ChangePassword, UnlockWithWindows, SetSecret,
         EnableAutoUnlock;
    match e.call
    case CallInit(pw, params) => InitKeepsInv(env, v, o, e);
    case CallUnlock(pw, enable) => UnlockKeepsInv(env, v, o, e);
    case CallChangePassword(current, next, params) => ChangeKeepsInv(env, v, o, e);
    case CallWindows => WindowsKeepsInv(env, v, o, e.io);
    case CallStartup => WindowsKeepsInv(env, v, o, e.io);
    case CallSet(ref, value) => SetKeepsInv(env, v, o, e);
    case CallDelete(ref) =>
    case _ => QuietStepKeepsInv(env, v, o, e);
  }

  /** The calls that touch neither row nor ciphertexts and never open the vault. */
  lemma QuietStepKeepsInv(env: Env, v: Vault, o: Observed, e: Event)
    requires Inv(env, v, o)
    requires e.call.CallLock? || e.call.CallIdle? || e.call.CallEnableAuto? || e.call.CallDisableAuto?
             || e.call.CallStatus?
          || e.call.CallTouch? || e.call.CallSetAutoLock? || e.call.CallRestart? || e.call.ForeignMaterial?
            || e.call.CallGet?
    ensures var (w, r) := Step(env, v, e); Inv(env, w, Observe(o, e, r))
  {
    hide RowHolds, SecretsHold, DecryptBytes, OpenRow, Auto.Parse, Auto.Enabling, Auto.StatusOf, Auto.LoadableKek;
    var w := Step(env, v, e).0;
    SessionStep(env, v, o, w, w.session.Some?);
  }

  lemma InitKeepsInv(env: Env, v: Vault, o: Observed, e: Event)
    requires LawfulEnv(env) && Inv(env, v, o) && e.call.CallInit?
    ensures var (w, r) := Step(env, v, e); Inv(env, w, Observe(o, e, r))
  {
    var kek := DeriveKek(env, e.call.password, e.io.salt, e.call.params);
    if v.row.None? && kek.Some? {
      var p := o.(password := e.call.password, dek := e.io.key);
      MadeRowHolds(env, e.call.params, e.io.salt, e.call.password, p, e.io.nonce, e.io.nonce2);
    }
  }

  lemma UnlockKeepsInv(env: Env, v: Vault, o: Observed, e: Event)
    requires LawfulEnv(env) && Inv(env, v, o) && e.call.CallUnlock?
    ensures var (w, r) := Step(env, v, e); Inv(env, w, Observe(o, e, r))
  {
    hide LawfulEnv, DecryptBytes, EncryptBytes;
    if v.row.Some? {
      var kek := DeriveKek(env, e.call.password, v.row.value.kekSalt, v.row.value.params);
      if kek.Some? { RowOpensToOneKey(env, v.row.value, o, kek.value); }
    }
    var w := Step(env, v, e).0;
    SessionStep(env, v, o, w, w.session.Some?);
  }

  lemma ChangeKeepsInv(env: Env, v: Vault, o: Observed, e: Event)
    requires LawfulEnv(env) && Inv(env, v, o) && e.call.CallChangePassword?
    ensures var (w, r) := Step(env, v, e); Inv(env, w, Observe(o, e, r))
  {
    hide DecryptBytes, EncryptBytes;
    var io := e.io;
    var (w, r) := Step(env, v, e);
    if r == Answer(Done) {
      var kek := DeriveKek(env, e.call.current, v.row.value.kekSalt, v.row.value.params);
      RowOpensToOneKey(env, v.row.value, o, kek.value);
      var next := DeriveKek(env, e.call.next, io.salt, e.call.params);
      var p := o.(password := e.call.next);
      MadeRowHolds(env, e.call.params, io.salt, e.call.next, p, io.nonce, io.nonce2);
      var v1 := v.(row := w.row);
      assert MakeRow(env, e.call.params, io.salt, next.value, o.dek, io.nonce, io.nonce2) == Ok(w.row.value);
      assert Inv(env, v1, p);
      SessionStep(env, v1, p, w, true);
    } else {
      assert w == v;
    }
  }

  lemma SetKeepsInv(env: Env, v: Vault, o: Observed, e: Event)
    requires LawfulEnv(env) && Inv(env, v, o) && e.call.CallSet?
    ensures var (w, r) := Step(env, v, e); Inv(env, w, Observe(o, e, r))
  {
    hide DecryptBytes;
    assert v.session.Some? ==> |o.dek| == KEY_LEN;
    if v.session.Some? {
      EncryptDecrypt(env.aead, VAULT_MAGIC, env.utf8(e.call.value), o.dek, e.io.nonce);
    }
  }

  /** Whatever material is on disk, "unlock with Windows" installs the vault's own key or nothing. */
  lemma WindowsKeepsInv(env: Env, v: Vault, o: Observed, io: Io)
    requires LawfulEnv(env) && Inv(env, v, o)
    ensures var (w, outcome) := UnlockWithWindows(env, v, io);
            && Inv(env, w, if outcome.Done? then o.(open := true) else o)
            && (outcome.Done? ==> w.session == Some(o.dek))
  {
    hide DecryptBytes, EncryptBytes;
    if v.row.Some? {
      var kek := Auto.LoadableKek(env.sealer, v.material, v.row.value.kekSalt);
      if kek.Some? { RowOpensToOneKey(env, v.row.value, o, kek.value); }
    }
  }

  lemma {:induction false} RunKeepsInv(env: Env, v: Vault, o: Observed, run: seq<Event>)
    requires LawfulEnv(env) && Inv(env, v, o)
    ensures var (w, p) := RunFrom(env, v, o, run); Inv(env, w, p)
    decreases |run|
  {
    if run != [] {
      StepKeepsInv(env, v, o, run[0]);
      var (w, r) := Step(env, v, run[0]);
      RunKeepsInv(env, w, Observe(o, run[0], r), run[1..]);
    }
  }

  /**
   The secret store refines a plain map over whole runs: after any run, every `get` answers
   what the observer's map behind a lock answers.
   */
  lemma StoreRefinesPlainMap(env: Env, autoLockMs: Option<int>, run: seq<Event>, ref: string)
    requires LawfulEnv(env)
    ensures var (v, o) := Run(env, autoLockMs, run); GetSecret(env, v, ref) == PlainGet(o, ref)
  {
    RunKeepsInv(env, Fresh(autoLockMs), NOTHING, run);
    var (v, o) := Run(env, autoLockMs, run);
    if ref in v.secrets && v.session.Some? {
      assert env.text(env.utf8(o.contents[ref])) == o.contents[ref];
    }
  }

  /** Once initialized, a vault is never initialized again, and its key never changes. */
  lemma {:induction false} KeyNeverChanges(env: Env, v: Vault, o: Observed, run: seq<Event>)
    requires LawfulEnv(env) && Inv(env, v, o) && o.initialized
    ensures var (w, p) := RunFrom(env, v, o, run); p.initialized && p.dek == o.dek
    decreases |run|
  {
    hide DecryptBytes, EncryptBytes;
    if run != [] {
      StepKeepsInv(env, v, o, run[0]);
      var (w, r) := Step(env, v, run[0]);
      KeyNeverChanges(env, w, Observe(o, run[0], r), run[1..]);
    }
  }

  /**
   One key for life: split any run after a successful `init`. At the end, the stored row still
   opens under the current password to the key drawn then, and the session holds that key or none.
   */
  lemma OneKeyForLife(env: Env, autoLockMs: Option<int>, before: seq<Event>, after: seq<Event>)
    requires LawfulEnv(env)
    requires Run(env, autoLockMs, before).1.initialized
    ensures var (v0, o0) := Run(env, autoLockMs, before);
            var (v, o) := RunFrom(env, v0, o0, after);
            && v.row.Some?
            && var kek := DeriveKek(env, o.password, v.row.value.kekSalt, v.row.value.params);
            && kek.Some?
            && OpenRow(env, v.row.value, kek.value) == Some(o0.dek)
            && (v.session == None || v.session == Some(o0.dek))
  {
    RunKeepsInv(env, Fresh(autoLockMs), NOTHING, before);
    var (v0, o0) := Run(env, autoLockMs, before);
    RunKeepsInv(env, v0, o0, after);
    KeyNeverChanges(env, v0, o0, after);
  }

  /** A password opens the vault exactly when it derives the same KEK as the last one accepted. */
  lemma UnlockExactly(env: Env, autoLockMs: Option<int>, run: seq<Event>, password: string, enable: bool, io: Io)
    requires LawfulEnv(env)
    ensures var (v, o) := Run(env, autoLockMs, run);
            Unlock(env, v, password, enable, io).1 == Done <==>
            && v.row.Some?
            && DeriveKek(env, password, v.row.value.kekSalt, v.row.value.params)
               == DeriveKek(env, o.password, v.row.value.kekSalt, v.row.value.params)
  {
    RunKeepsInv(env, Fresh(autoLockMs), NOTHING, run);
    var (v, o) := Run(env, autoLockMs, run);
    if v.row.Some? {
      var kek := DeriveKek(env, password, v.row.value.kekSalt, v.row.value.params);
      if kek.Some? { RowOpensToOneKey(env, v.row.value, o, kek.value); }
    }
  }

  /** Calls that open the vault at the user's request, or start a new process. */
  predicate Reopens(call: Call) {
    call.CallInit? || call.CallUnlock? || call.CallWindows? || call.CallChangePassword? || call.CallRestart?
  }

  /**
   After a lock, nothing but an explicit unlock (or a new process) opens the vault; in particular not the startup path.
   */
  lemma {:induction false} LockHolds(env: Env, v: Vault, o: Observed, run: seq<Event>)
    requires v.session.None? && v.manuallyLocked
    requires forall i :: 0 <= i < |run| ==> !Reopens(run[i].call)
    ensures var (w, _) := RunFrom(env, v, o, run);
            w.session.None? && w.manuallyLocked && forall io :: AttemptStartupAutoUnlock(env, w, io) == (w, false)
    decreases |run|
  {
    if run != [] {
      assert !Reopens(run[0].call);
      var (w, r) := Step(env, v, run[0]);
      assert w.session.None? && w.manuallyLocked;
      LockHolds(env, w, Observe(o, run[0], r), run[1..]);
    }
  }

  /** The change put new material in place of the old. */
  predicate Resealed(env: Env, v: Vault, next: string, params: ScryptParams, io: Io) {
    AutoUnlockOn(env, v) && DeriveKek(env, next, io.salt, params).Some?
    && Auto.Enabling(env.sealer, DeriveKek(env, next, io.salt, params).value, io.salt, io.now, io.fileWrites).Some?
  }

  /** Material of another salt. */
  predicate Stale(env: Env, material: Option<Bytes>, salt: Bytes) {
    Auto.Parse(material).Material? && Auto.Parse(material).fingerprint != env.sealer.fingerprint(salt)
  }

  /**
   Auto-unlock epochs, for any material there was. A successful password change either re-seals the new KEK,
   which then loads exactly and unlocks; or leaves the file as it was, which from then on unlocks if and only if it
   happens to yield the new KEK, and is removed by the next attempt to use it if it yields none for the new salt.
   Material of another salt's fingerprint yields none.
   */
  lemma MaterialFollowsPassword(env: Env, v: Vault, o: Observed, current: string, next: string, params: ScryptParams,
                                io: Io, later: Io)
    requires LawfulEnv(env) && Inv(env, v, o)
    requires ChangePassword(env, v, current, next, params, io).1 == Done
    ensures var w := ChangePassword(env, v, current, next, params, io).0;
            var kek, loaded := DeriveKek(env, next, io.salt, params), Auto.LoadableKek(env.sealer, w.material, io.salt);
            && w.row.Some? && w.row.value.kekSalt == io.salt && kek.Some?
            && (Resealed(env, v, next, params, io) ==> loaded == kek)
            && (!Resealed(env, v, next, params, io) ==> w.material == v.material)
            && (UnlockWithWindows(env, w, later).1 == Done <==> env.hasAutoUnlock && loaded == kek)
            && (loaded.None? && env.hasAutoUnlock && env.sealer.supported && w.material.Some? ==>
                  UnlockWithWindows(env, w, later).0.material == Auto.Removed(later.noise, later.unlinks))
            && (Stale(env, w.material, io.salt) ==> loaded.None?)
  {
    hide DecryptBytes, EncryptBytes;
    var e := Event(CallChangePassword(current, next, params), io);
    StepKeepsInv(env, v, o, e);
    var (w, r) := Step(env, v, e);
    var kek := DeriveKek(env, next, io.salt, params);
    ChangedRow(env, v, current, next, params, io);
    if Resealed(env, v, next, params, io) {
      Auto.EnableThenLoad(env.sealer, kek.value, io.salt, io.now, io.fileWrites);
    }
    var loaded := Auto.LoadableKek(env.sealer, w.material, io.salt);
    if loaded.Some? { RowOpensToOneKey(env, w.row.value, Observe(o, e, r), loaded.value); }
    hide ChangePassword, OpenRow, Auto.Enabling;
  }

  /** What a successful change leaves: the new salt, and the material re-sealed or as it was. */
  lemma ChangedRow(env: Env, v: Vault, current: string, next: string, params: ScryptParams, io: Io)
    requires ChangePassword(env, v, current, next, params, io).1 == Done
    ensures var w := ChangePassword(env, v, current, next, params, io).0;
            && w.row.Some? && w.row.value.kekSalt == io.salt && w.row.value.params == params
              && DeriveKek(env, next, io.salt, params).Some?
            && w.material == if Resealed(env, v, next, params, io)
                             then Auto.Enabling(env.sealer, DeriveKek(env, next, io.salt, params).value, io.salt,
                                                io.now, io.fileWrites)
                             else v.material
  {
    hide DecryptBytes, EncryptBytes, OpenRow, DeriveKek, Auto.Enabling, Auto.IsEnabled;
  }

  /** Calls that count as use of the open vault. */
  predicate Uses(v: Vault, call: Call) {
    call.CallTouch? || call.CallSet? || call.CallUnlock? || call.CallChangePassword? || call.CallDisableAuto?
      || call.CallSetAutoLock?
    || (call.CallGet? && call.ref in v.secrets)
  }

  /** Calls during which an open vault stays idle. */
  predicate Idles(e: Event, due: int) {
    e.call.CallDelete? || e.call.CallStatus? || e.call.CallStartup? || e.call.ForeignMaterial?
      || (e.call.CallIdle? && e.io.now < due)
  }

  /** Every successful use restarts the idle timer in full, unless idle locking is off or auto-unlock suspends it. */
  lemma UseRearms(env: Env, v: Vault, e: Event)
    requires v.session.Some? && Uses(v, e.call)
    requires Step(env, v, e).1.Answer? ==> Step(env, v, e).1.outcome == Done
    ensures var w := Step(env, v, e).0;
            && w.session.Some?
            && w.timerDue == if AutoUnlockOn(env, w) || w.autoLockMs.None? || w.autoLockMs.value <= 0 then None
              else Some(e.io.now + w.autoLockMs.value)
  {
    hide DecryptBytes, EncryptBytes, DeriveKek, OpenRow, MakeRow, Enabled, BestEffort, Auto.Enabling, Auto.IsEnabled,
         Auto.Removed;
  }

  /** An open vault with an armed timer that is left idle stays open until the timer is due, and is locked then. */
  lemma {:induction false} IdleVaultLocks(env: Env, v: Vault, o: Observed, run: seq<Event>, due: int, now: int)
    requires v.session.Some? && v.timerDue == Some(due)
    requires forall i :: 0 <= i < |run| ==> Idles(run[i], due)
    ensures var w := RunFrom(env, v, o, run).0;
            && w.session == v.session && w.timerDue == Some(due)
            && (IdleLock(w, now).session.None? <==> now >= due)
            && (now >= due ==> IdleLock(w, now) == Locked(w))
    decreases |run|
  {
    if run != [] {
      assert Idles(run[0], due);
      var (w, r) := Step(env, v, run[0]);
      assert w.session == v.session && w.timerDue == Some(due);
      IdleVaultLocks(env, w, Observe(o, run[0], r), run[1..], due, now);
    }
  }

  /**
   A password change succeeds exactly when the current one would unlock, the next is not empty and derives a key, and
   the row is written.
   */
  lemma ChangeExactly(env: Env, autoLockMs: Option<int>, run: seq<Event>, current: string, next: string,
                      params: ScryptParams, io: Io)
    requires LawfulEnv(env)
    ensures var (v, o) := Run(env, autoLockMs, run);
            ChangePassword(env, v, current, next, params, io).1 == Done <==>
            && v.row.Some? && next != "" && io.dbWrites
            && DeriveKek(env, current, v.row.value.kekSalt, v.row.value.params)
              == DeriveKek(env, o.password, v.row.value.kekSalt, v.row.value.params)
            && DeriveKek(env, next, io.salt, params).Some? && |DeriveKek(env, next, io.salt, params).value| == KEY_LEN
  {
    hide DecryptBytes;
    RunKeepsInv(env, Fresh(autoLockMs), NOTHING, run);
    var (v, o) := Run(env, autoLockMs, run);
    if v.row.Some? {
      var kek := DeriveKek(env, current, v.row.value.kekSalt, v.row.value.params);
      if kek.Some? { RowOpensToOneKey(env, v.row.value, o, kek.value); }
    }
    hide RunFrom, DeriveKek, OpenRow, Auto.Enabling, Auto.IsEnabled;
  }

  /** A failed password change leaves row, session and secrets as they were. */
  lemma FailedChangeIsInvisible(env: Env, v: Vault, current: string, next: string, params: ScryptParams, io: Io)
    requires ChangePassword(env, v, current, next, params, io).1 != Done
    ensures ChangePassword(env, v, current, next, params, io).0 == v
  {
    hide DecryptBytes, EncryptBytes, DeriveKek, Auto.Enabling, Auto.IsEnabled;
  }

  // What each refusal means.

  /** The password derives the KEK that the row is wrapped with. */
  predicate Right(env: Env, v: Vault, o: Observed, password: string)
    requires v.row.Some?
  {
    DeriveKek(env, password, v.row.value.kekSalt, v.row.value.params) == KekNow(env, v, o)
  }

  predicate Derives(env: Env, v: Vault, password: string)
    requires v.row.Some?
  {
    DeriveKek(env, password, v.row.value.kekSalt, v.row.value.params).Some?
  }

  /** Sealing this KEK works, and the file can be written. */
  predicate CanSeal(env: Env, kek: Option<Bytes>, io: Io) {
    && env.hasAutoUnlock && kek.Some? && |kek.value| == 32 && env.sealer.protect(kek.value).Some?
    && 0 <= io.now < 0x1_0000_0000_0000_0000 && io.fileWrites
  }

  lemma RightOpens(env: Env, v: Vault, o: Observed, password: string)
    requires LawfulEnv(env) && Inv(env, v, o) && v.row.Some?
    ensures Right(env, v, o, password) <==>
            && Derives(env, v, password)
            && OpenRow(env, v.row.value,
                       DeriveKek(env, password, v.row.value.kekSalt, v.row.value.params).value).Some?
    ensures Right(env, v, o, password) ==>
            OpenRow(env, v.row.value,
                    DeriveKek(env, password, v.row.value.kekSalt, v.row.value.params).value) == Some(o.dek)
  {
    hide DecryptBytes;
    KekOpens(env, v, o);
    var kek := DeriveKek(env, password, v.row.value.kekSalt, v.row.value.params);
    if kek.Some? { RowOpensToOneKey(env, v.row.value, o, kek.value); }
  }

  lemma SealingExactly(env: Env, v: Vault, kek: Bytes, salt: Bytes, io: Io)
    requires env.hasAutoUnlock
    ensures Enabled(env, v, kek, salt, io).Some? <==> CanSeal(env, Some(kek), io)
    ensures Enabled(env, v, kek, salt, io).Some? ==> Enabled(env, v, kek, salt, io).value == v.(material :=
      Enabled(env, v, kek, salt, io).value.material)
  {
  }

  /** What sealing stores loads to the sealed KEK. */
  lemma SealedLoads(env: Env, v: Vault, kek: Bytes, salt: Bytes, io: Io)
    requires LawfulEnv(env) && env.hasAutoUnlock && Enabled(env, v, kek, salt, io).Some?
    ensures Auto.LoadableKek(env.sealer, Enabled(env, v, kek, salt, io).value.material, salt) == Some(kek)
  {
    Auto.EnableThenLoad(env.sealer, kek, salt, io.now, io.fileWrites);
  }

  /** Initialization succeeds exactly so, and then the vault is open with the new key, under this password. */
  lemma InitExactly(env: Env, v: Vault, password: string, params: ScryptParams, io: Io)
    requires LawfulEnv(env)
    ensures var (w, r) := Init(env, v, password, params, io);
            var kek := DeriveKek(env, password, io.salt, params);
            && (r == Failed(AlreadyInitialized) <==> v.row.Some?)
            && (r == Failed(EmptyPassword) <==> v.row.None? && password == "")
            && (r == Failed(KdfRejected) <==> v.row.None? && password != "" && kek.None?)
            && (r == Done <==> v.row.None? && password != "" && kek.Some? && params.keylen == 32 && io.dbWrites)
            && (r != Done ==> w == v)
            && (r == Done ==>
                && w.row.Some? && OpenRow(env, w.row.value, kek.value) == Some(io.key) && w.session == Some(io.key)
                && w == v.(row := w.row, session := w.session, timerDue := w.timerDue, manuallyLocked := false))
  {
    hide DecryptBytes, EncryptBytes, Auto.IsEnabled;
    var kek := DeriveKek(env, password, io.salt, params);
    if kek.Some? {
      var o := NOTHING.(dek := io.key, password := password);
      MadeRowHolds(env, params, io.salt, password, o, io.nonce, io.nonce2);
      var made := MakeRow(env, params, io.salt, kek.value, io.key, io.nonce, io.nonce2);
      if made.Ok? { RowOpensToOneKey(env, made.value, o, kek.value); }
    }
    hide DeriveKek, OpenRow, MakeRow, RowHolds, LawfulEnv;
  }

  /**
   Why an unlock is refused, that a refusal changes nothing, and what an unlock leaves: the vault's key in the session
   and, if asked for and if sealing works, material that loads to the current KEK.
   */
  lemma UnlockLeaves(env: Env, v: Vault, o: Observed, password: string, enable: bool, io: Io)
    requires LawfulEnv(env) && Inv(env, v, o)
    ensures var (w, r) := Unlock(env, v, password, enable, io);
            && (r == Failed(NotInitialized) <==> v.row.None?)
            && (r == Failed(KdfRejected) <==> v.row.Some? && !Derives(env, v, password))
            && (r == Failed(WrongMasterPassword) <==>
                v.row.Some? && Derives(env, v, password) && !Right(env, v, o, password))
            && (r != Done ==> w == v)
            && (r == Done ==>
                && v.row.Some? && w.session == Some(o.dek)
                && w == v.(session := w.session, timerDue := w.timerDue, manuallyLocked := false,
                           material := w.material)
                && if enable && CanSeal(env, KekNow(env, v, o), io)
                   then Auto.LoadableKek(env.sealer, w.material, v.row.value.kekSalt) == KekNow(env, v, o)
                   else w.material == v.material)
  {
    hide DecryptBytes, EncryptBytes, Auto.IsEnabled;
    if v.row.Some? {
      RightOpens(env, v, o, password);
      var kek := KekNow(env, v, o);
      KekOpens(env, v, o);
      if env.hasAutoUnlock {
        SealingExactly(env, v, kek.value, v.row.value.kekSalt, io);
        if CanSeal(env, kek, io) { SealedLoads(env, v, kek.value, v.row.value.kekSalt, io); }
      }
      if !env.hasAutoUnlock { assert !CanSeal(env, kek, io); }
    }
    hide DeriveKek, OpenRow, LawfulEnv, RowHolds, Enabled, CanSeal;
  }

  /** Why a password change is refused. (What it needs to succeed: `ChangeExactly`.) */
  lemma ChangeRefusals(env: Env, v: Vault, o: Observed, current: string, next: string, params: ScryptParams, io: Io)
    requires LawfulEnv(env) && Inv(env, v, o)
    ensures var r := ChangePassword(env, v, current, next, params, io).1;
            var derived := DeriveKek(env, next, io.salt, params);
            && (r == Failed(NotInitialized) <==> v.row.None?)
            && (r == Failed(EmptyPassword) <==> v.row.Some? && next == "")
            && (r == Failed(WrongMasterPassword) <==>
                v.row.Some? && next != "" && Derives(env, v, current) && !Right(env, v, o, current))
            && (r == Failed(KdfRejected) <==>
                && v.row.Some? && next != ""
                && (!Derives(env, v, current) || (Right(env, v, o, current) && derived.None?)))
            && (r == Failed(DatabaseFailed) <==>
                && v.row.Some? && next != "" && Right(env, v, o, current) && derived.Some? && params.keylen == 32
                && !io.dbWrites)
  {
    hide DecryptBytes, EncryptBytes, Auto.IsEnabled;
    if v.row.Some? {
      RightOpens(env, v, o, current);
      KekOpens(env, v, o);
      if DeriveKek(env, next, io.salt, params).Some? {
        MadeRowHolds(env, params, io.salt, next, o.(password := next), io.nonce, io.nonce2);
      }
    }
    hide DeriveKek, OpenRow, LawfulEnv, RowHolds, MakeRow, Enabled;
  }

  /** Why enabling auto-unlock is refused, and that a refusal changes nothing. */
  lemma EnableExactly(env: Env, v: Vault, o: Observed, password: string, io: Io)
    requires LawfulEnv(env) && Inv(env, v, o)
    ensures var (w, r) := EnableAutoUnlock(env, v, password, io);
            && (r == Failed(NotInitialized) <==> v.row.None?)
            && (r == Failed(AutoUnlockUnavailable) <==> v.row.Some? && !env.hasAutoUnlock)
            && (r == Failed(KdfRejected) <==> v.row.Some? && env.hasAutoUnlock && !Derives(env, v, password))
            && (r == Failed(WrongMasterPassword) <==>
                v.row.Some? && env.hasAutoUnlock && Derives(env, v, password) && !Right(env, v, o, password))
            && (r == Done <==> v.row.Some? && Right(env, v, o, password) && CanSeal(env, KekNow(env, v, o), io))
            && (r != Done ==> w == v)
            && (r == Done ==> w == v.(material := w.material, timerDue := None))
  {
    hide DecryptBytes, EncryptBytes, Auto.IsEnabled;
    if v.row.Some? {
      RightOpens(env, v, o, password);
      KekOpens(env, v, o);
      if env.hasAutoUnlock { SealingExactly(env, v, KekNow(env, v, o).value, v.row.value.kekSalt, io); }
      if !env.hasAutoUnlock { assert !CanSeal(env, KekNow(env, v, o), io); }
    }
    hide DeriveKek, OpenRow, LawfulEnv, RowHolds, Enabled, CanSeal;
  }

  /** Windows unlock works exactly when the material loads to the current KEK; else there is one refusal. */
  lemma WindowsExactly(env: Env, v: Vault, o: Observed, io: Io)
    requires LawfulEnv(env) && Inv(env, v, o)
    ensures var (w, r) := UnlockWithWindows(env, v, io);
            && (r == Failed(NotInitialized) <==> v.row.None?)
            && (r == Done <==>
                && v.row.Some? && env.hasAutoUnlock
                && Auto.LoadableKek(env.sealer, v.material, v.row.value.kekSalt) == KekNow(env, v, o))
            && (v.row.Some? && r != Done ==>
                r == Failed(AutoUnlockUnavailable) && w == v.(material := w.material))
            && (r == Done ==>
                w.session == Some(o.dek)
                && w == v.(session := w.session, timerDue := w.timerDue, manuallyLocked := false))
  {
    hide DecryptBytes, EncryptBytes, Auto.IsEnabled;
    if v.row.Some? {
      KekOpens(env, v, o);
      var kek := Auto.LoadableKek(env.sealer, v.material, v.row.value.kekSalt);
      if kek.Some? { RowOpensToOneKey(env, v.row.value, o, kek.value); }
    }
    hide DeriveKek, OpenRow, LawfulEnv, RowHolds;
  }

  /** A secret is stored exactly when the vault is open and the write works; a refusal changes no row. */
  lemma SetExactly(env: Env, v: Vault, o: Observed, ref: string, value: string, io: Io)
    requires LawfulEnv(env) && Inv(env, v, o)
    ensures var (w, r) := SetSecret(env, v, ref, value, io);
            && (r == Failed(VaultLocked) <==> v.session.None?)
            && (r == Failed(DatabaseFailed) <==> v.session.Some? && !io.dbWrites)
            && (r == Done <==> v.session.Some? && io.dbWrites)
            && (r != Done ==> w == v.(timerDue := w.timerDue))
            && (r == Done ==> GetSecret(env, w, ref) == Present(value) && w.secrets.Keys == v.secrets.Keys + {ref})
  {
    hide Auto.IsEnabled, DecryptBytes, EncryptBytes;
    if v.session.Some? {
      KekOpens(env, v, o);
      EncryptDecrypt(env.aead, VAULT_MAGIC, env.utf8(value), o.dek, io.nonce);
    }
    hide DeriveKek, OpenRow, RowHolds, SecretsHold;
  }

  // Startup.

  predicate OpensByItself(env: Env, v: Vault, o: Observed) {
    && !v.manuallyLocked && v.row.Some? && env.hasAutoUnlock
    && Auto.LoadableKek(env.sealer, v.material, v.row.value.kekSalt) == KekNow(env, v, o)
  }

  /**
   Whether the automatic path ends with an open vault, exactly: the vault is open already, or it was not locked by hand
   in this process and the material on disk loads to the KEK of the current password. Then the session is the vault's
   key.
   */
  lemma StartupExactly(env: Env, v: Vault, o: Observed, io: Io)
    requires LawfulEnv(env) && Inv(env, v, o)
    ensures var (w, opens) := AttemptStartupAutoUnlock(env, v, io);
            && (opens <==> v.session.Some? || OpensByItself(env, v, o))
            && w.session == (if opens then Some(o.dek) else None)
            && (opens ==> w.row == v.row && w.secrets == v.secrets && w.material == v.material)
  {
    hide DecryptBytes, EncryptBytes;
    if v.row.Some? {
      KekOpens(env, v, o);
      var kek := Auto.LoadableKek(env.sealer, v.material, v.row.value.kekSalt);
      if kek.Some? { RowOpensToOneKey(env, v.row.value, o, kek.value); }
    }
    hide LawfulEnv, RowHolds, OpenRow;
  }

  /** Once auto-unlock has been enabled, the next process opens the vault by itself, with its key. */
  lemma StartupAfterEnabling(env: Env, v: Vault, o: Observed, password: string, io: Io, ms: Option<int>, later: Io)
    requires LawfulEnv(env) && Inv(env, v, o) && EnableAutoUnlock(env, v, password, io).1 == Done
    ensures var w := Restart(EnableAutoUnlock(env, v, password, io).0, ms);
            var (started, opens) := AttemptStartupAutoUnlock(env, w, later);
            opens && started.session == Some(o.dek)
  {
    hide DecryptBytes, EncryptBytes;
    var row, kek := v.row.value, DeriveKek(env, password, v.row.value.kekSalt, v.row.value.params).value;
    RowOpensToOneKey(env, row, o, kek);
    Auto.EnablingEnables(env.sealer, kek, row.kekSalt, io.now, io.fileWrites);
    Auto.EnableThenLoad(env.sealer, kek, row.kekSalt, io.now, io.fileWrites);
    var w := Restart(EnableAutoUnlock(env, v, password, io).0, ms);
    hide LawfulEnv, RowHolds, OpenRow, Auto.Enabling, Auto.LoadableKek;
    assert Inv(env, w, o.(open := false));
    StartupExactly(env, w, o.(open := false), later);
  }

  /** The same after an unlock that enables it. */
  lemma StartupAfterUnlocking(env: Env, v: Vault, o: Observed, password: string, io: Io, ms: Option<int>, later: Io)
    requires LawfulEnv(env) && Inv(env, v, o) && Unlock(env, v, password, true, io).1 == Done
    requires CanSeal(env, KekNow(env, v, o), io)
    ensures var w := Restart(Unlock(env, v, password, true, io).0, ms);
            var (started, opens) := AttemptStartupAutoUnlock(env, w, later);
            opens && started.session == Some(o.dek)
  {
    var w := Restart(Unlock(env, v, password, true, io).0, ms);
    UnlockLeaves(env, v, o, password, true, io);
    assert env.hasAutoUnlock;
    hide Unlock, LawfulEnv, RowHolds, Auto.LoadableKek, DecryptBytes, EncryptBytes;
    assert Inv(env, w, o.(open := false));
    StartupExactly(env, w, o.(open := false), later);
  }

  /** After `disableAutoUnlock`, with a working removal, it does not, and the idle timer runs again. */
  lemma DisablingDisables(env: Env, v: Vault, io: Io, ms: Option<int>, later: Io)
    requires io.unlinks
    ensures var w := DisableAutoUnlock(env, v, io);
            && (env.hasAutoUnlock ==> w.material.None?) && !AutoUnlockOn(env, w)
            && w == v.(material := w.material, timerDue := w.timerDue)
            && (v.session.Some? && IdleLockSet(v) ==> w.timerDue == Some(io.now + v.autoLockMs.value))
            && AttemptStartupAutoUnlock(env, Restart(w, ms), later) == (Restart(w, ms), false)
  {
  }

  /** The idle time that is set is the one that counts from then on. */
  lemma IdleTimeCounts(env: Env, v: Vault, ms: Option<int>, now: int)
    ensures var w := SetAutoLockMs(env, v, ms, now);
            && w == v.(autoLockMs := ms, timerDue := w.timerDue)
            && (v.session.Some? && !AutoUnlockOn(env, v) ==>
                w.timerDue == if ms.Some? && ms.value > 0 then Some(now + ms.value) else None)
            && (v.session.Some? && AutoUnlockOn(env, v) ==> w.timerDue.None?)
            && (v.session.None? ==> w.timerDue == v.timerDue)
  {
    hide Auto.IsEnabled;
  }

  // When an open vault loses its idle lock.

  predicate IdleLockSet(v: Vault) {
    v.autoLockMs.Some? && v.autoLockMs.value > 0
  }

  /** Idle locking is set, but auto-unlock suspends the timer. */
  predicate Suspended(env: Env, v: Vault) {
    v.session.Some? && IdleLockSet(v) && AutoUnlockOn(env, v) && v.timerDue.None?
  }

  /** Idle locking is set and nothing suspends it, and yet no timer is armed: the vault stays open until it is used. */
  predicate Unguarded(env: Env, v: Vault) {
    v.session.Some? && IdleLockSet(v) && !AutoUnlockOn(env, v) && v.timerDue.None?
  }

  /**
   The calls that end auto-unlock without arming the timer: a status call over stale material, an attempt to
   unlock with Windows over material that does not load, or a removal from outside; where the removal works.
   */
  predicate Unguards(env: Env, v: Vault, e: Event) {
    env.hasAutoUnlock &&
    match e.call
    case CallStatus =>
      && v.row.Some? && Auto.StatusOf(env.sealer, v.material, v.row.value.kekSalt).Stale?
      && !Auto.IsEnabled(env.sealer, Auto.Removed(e.io.noise, e.io.unlinks))
    case CallWindows =>
      && v.row.Some? && Auto.LoadableKek(env.sealer, v.material, v.row.value.kekSalt).None?
      && !Auto.IsEnabled(env.sealer, Auto.Removed(e.io.noise, e.io.unlinks))
    case ForeignMaterial(file) => !Auto.IsEnabled(env.sealer, file)
    case _ => false
  }

  lemma EnabledMaterialIsOn(env: Env, v: Vault, kek: Bytes, salt: Bytes, io: Io)
    requires LawfulEnv(env) && env.hasAutoUnlock && Enabled(env, v, kek, salt, io).Some?
    ensures AutoUnlockOn(env, Enabled(env, v, kek, salt, io).value)
  {
    Auto.EnablingEnables(env.sealer, kek, salt, io.now, io.fileWrites);
  }

  /** Arming leaves no vault unguarded. */
  lemma ArmingGuards(env: Env, v: Vault, now: int)
    ensures !Unguarded(env, ArmTimer(env, v, now))
  {
    hide Auto.IsEnabled;
  }

  /** Calls on the row and the session end by arming, or leave the timer and the material as they were. */
  lemma KeyCallsGuard(env: Env, v: Vault, e: Event)
    requires LawfulEnv(env) && !Unguarded(env, v)
    requires e.call.CallInit? || e.call.CallUnlock? || e.call.CallChangePassword? || e.call.CallEnableAuto?
    ensures !Unguarded(env, Step(env, v, e).0)
  {
    hide DecryptBytes, EncryptBytes, DeriveKek, OpenRow, MakeRow, Auto.Enabling, Auto.IsEnabled;
    if e.call.CallEnableAuto? && v.row.Some? && env.hasAutoUnlock {
      var row := v.row.value;
      var kek := DeriveKek(env, e.call.password, row.kekSalt, row.params);
      if kek.Some? && Enabled(env, v, kek.value, row.kekSalt, e.io).Some? {
        EnabledMaterialIsOn(env, v, kek.value, row.kekSalt, e.io);
      }
    }
  }

  lemma OtherCallsGuard(env: Env, v: Vault, e: Event)
    requires !Unguarded(env, v)
    requires !(e.call.CallInit? || e.call.CallUnlock? || e.call.CallChangePassword? || e.call.CallEnableAuto?)
    requires !(e.call.CallStatus? || e.call.CallWindows? || e.call.ForeignMaterial?)
    ensures !Unguarded(env, Step(env, v, e).0)
  {
    hide DecryptBytes, EncryptBytes, DeriveKek, OpenRow, Auto.IsEnabled, Auto.LoadableKek, Auto.Removed;
  }

  lemma MaterialCallsExactly(env: Env, v: Vault, e: Event)
    requires !Unguarded(env, v) && (e.call.CallStatus? || e.call.CallWindows? || e.call.ForeignMaterial?)
    ensures Unguarded(env, Step(env, v, e).0) <==> Suspended(env, v) && Unguards(env, v, e)
  {
    hide DecryptBytes, OpenRow;
  }

  /**
   A guarded vault becomes unguarded in one step if and only if its timer was suspended and the call is one of those.
   */
  lemma UnguardedExactly(env: Env, v: Vault, e: Event)
    requires LawfulEnv(env) && !Unguarded(env, v)
    ensures Unguarded(env, Step(env, v, e).0) <==> Suspended(env, v) && Unguards(env, v, e)
  {
    if e.call.CallStatus? || e.call.CallWindows? || e.call.ForeignMaterial? {
      MaterialCallsExactly(env, v, e);
    } else if e.call.CallInit? || e.call.CallUnlock? || e.call.CallChangePassword? || e.call.CallEnableAuto? {
      KeyCallsGuard(env, v, e);
    } else {
      OtherCallsGuard(env, v, e);
    }
    hide Step, Unguarded, Suspended;
  }

  /** An unguarded vault that is left idle stays open for good: no time is late enough to lock it. */
  lemma UnguardedStaysOpen(env: Env, v: Vault, o: Observed, run: seq<Event>)
    requires Unguarded(env, v)
    requires forall i :: 0 <= i < |run| ==> Idles(run[i], run[i].io.now + 1)
    ensures var w := RunFrom(env, v, o, run).0;
            w.session == v.session && w.timerDue.None? && forall now :: IdleLock(w, now) == w
  {
    OpenWithoutTimer(env, v, o, run);
  }

  lemma {:induction false} OpenWithoutTimer(env: Env, v: Vault, o: Observed, run: seq<Event>)
    requires v.session.Some? && v.timerDue.None?
    requires forall i :: 0 <= i < |run| ==> Idles(run[i], run[i].io.now + 1)
    ensures var w := RunFrom(env, v, o, run).0; w.session == v.session && w.timerDue.None?
    decreases |run|
  {
    if run != [] {
      assert Idles(run[0], run[0].io.now + 1);
      var (w, r) := Step(env, v, run[0]);
      assert w.session == v.session && w.timerDue.None?;
      OpenWithoutTimer(env, w, Observe(o, run[0], r), run[1..]);
    }
  }

  // It happens: a password change that cannot write the material leaves it stale; asking for its status, or trying it,
  // is enough.

  const PARAMS: ScryptParams := ScryptParams(32768, 8, 1, KEY_LEN)
  const LOCK_AFTER: int := 600_000

  function At(now: int, salt: byte, fileWrites: bool): Io {
    Io(now, [salt], Zeros(KEY_LEN), Zeros(NONCE_LEN), Zeros(NONCE_LEN), true, fileWrites, true, [])
  }

  /** A machine on which every password derives a key, sealing works, and the two salts have different fingerprints. */
  ghost predicate Usual(env: Env) {
    && LawfulEnv(env) && env.hasAutoUnlock && env.sealer.supported
    && (forall pw, salt, params :: env.scrypt(pw, salt, params).Some?)
    && (forall k :: env.sealer.protect(k).Some?)
    && env.sealer.fingerprint([1]) != env.sealer.fingerprint([2])
  }

  /** One more event, as the observer and the vault see it. */
  function Next(env: Env, s: (Vault, Observed), e: Event): (Vault, Observed) {
    var (w, r) := Step(env, s.0, e);
    (w, Observe(s.1, e, r))
  }

  const FIRST: Event := Event(CallInit("p", PARAMS), At(0, 1, true))
  const SECOND: Event := Event(CallEnableAuto("p"), At(1, 1, true))
  const THIRD: Event := Event(CallChangePassword("p", "q", PARAMS), At(2, 2, false))

  function Initialized(env: Env): (Vault, Observed) { Next(env, (Fresh(Some(LOCK_AFTER)), NOTHING), FIRST) }
  function Enabling(env: Env): (Vault, Observed) { Next(env, Initialized(env), SECOND) }
  function Changed(env: Env): (Vault, Observed) { Next(env, Enabling(env), THIRD) }

  ghost predicate OpenUnder(env: Env, s: (Vault, Observed), password: string, salt: Bytes) {
    && Inv(env, s.0, s.1) && s.1.password == password && s.0.session.Some? && s.0.autoLockMs == Some(LOCK_AFTER)
    && s.0.row.Some? && s.0.row.value.kekSalt == salt && s.0.row.value.params == PARAMS
  }

  lemma FirstStep(env: Env)
    requires Usual(env)
    ensures OpenUnder(env, Initialized(env), "p", [1])
  {
    hide DecryptBytes, EncryptBytes, RowHolds, MakeRow, Auto.IsEnabled;
    MadeRowHolds(env, PARAMS, [1], "p", Observed(true, true, map[], "p", FIRST.io.key), FIRST.io.nonce,
                 FIRST.io.nonce2);
    StepKeepsInv(env, Fresh(Some(LOCK_AFTER)), NOTHING, FIRST);
  }

  /** Material sealed for the salt [1]. */
  predicate SealedForFirst(env: Env, material: Option<Bytes>) {
    Auto.Parse(material).Material? && Auto.Parse(material).fingerprint == env.sealer.fingerprint([1])
  }

  /** Enabling auto-unlock with a password that opens the row stores sealed material and stops the timer. */
  lemma EnablingStores(env: Env, v: Vault, password: string, io: Io, kek: Bytes)
    requires env.hasAutoUnlock && v.row.Some?
             && DeriveKek(env, password, v.row.value.kekSalt, v.row.value.params) == Some(kek)
    requires OpenRow(env, v.row.value, kek).Some?
             && Auto.Enabling(env.sealer, kek, v.row.value.kekSalt, io.now, io.fileWrites).Some?
    ensures EnableAutoUnlock(env, v, password, io)
            == (v.(material := Auto.Enabling(env.sealer, kek, v.row.value.kekSalt, io.now, io.fileWrites),
                   timerDue := None), Done)
  {
    hide OpenRow, DeriveKek, Auto.Enabling;
  }

  /** A change whose material cannot be written succeeds, and leaves the old material in place. */
  lemma ChangeKeepsMaterial(env: Env, v: Vault, current: string, next: string, params: ScryptParams, io: Io, kek: Bytes,
                            dek: Bytes, newKek: Bytes, row: Meta)
    requires v.row.Some? && next != "" && DeriveKek(env, current, v.row.value.kekSalt, v.row.value.params) == Some(kek)
    requires OpenRow(env, v.row.value, kek) == Some(dek) && DeriveKek(env, next, io.salt, params) == Some(newKek)
    requires MakeRow(env, params, io.salt, newKek, dek, io.nonce, io.nonce2) == Ok(row) && io.dbWrites && !io.fileWrites
             && AutoUnlockOn(env, v)
    ensures ChangePassword(env, v, current, next, params, io)
            == (v.(row := Some(row), session := Some(dek), manuallyLocked := false, timerDue := None), Done)
  {
    hide OpenRow, DeriveKek, MakeRow, Auto.IsEnabled;
  }

  /** On a usual machine, keys are derived and sealed. */
  lemma UsualKeys(env: Env, password: string, salt: Bytes, now: int)
    requires Usual(env) && 0 <= now < Auto.TIME_LIMIT
    ensures var kek := DeriveKek(env, password, salt, PARAMS);
            && kek.Some? && |kek.value| == KEY_LEN
            && var made := Auto.Enabling(env.sealer, kek.value, salt, now, true);
               made.Some? && Auto.Parse(made).Material? && Auto.Parse(made).fingerprint == env.sealer.fingerprint(salt)
  {
    var kek := DeriveKek(env, password, salt, PARAMS).value;
    Auto.ParseLayout(env.sealer.fingerprint(salt), now, env.sealer.protect(kek).value);
    hide Auto.Parse, Auto.Layout;
  }

  /** The KEK of the current password. */
  function KekNow(env: Env, v: Vault, o: Observed): Option<Bytes> {
    if v.row.None? then None else DeriveKek(env, o.password, v.row.value.kekSalt, v.row.value.params)
  }

  lemma KekOpens(env: Env, v: Vault, o: Observed)
    requires LawfulEnv(env) && Inv(env, v, o) && v.row.Some?
    ensures KekNow(env, v, o).Some? && OpenRow(env, v.row.value, KekNow(env, v, o).value) == Some(o.dek)
            && |o.dek| == KEY_LEN
  {
    hide DecryptBytes;
    RowOpensToOneKey(env, v.row.value, o, KekNow(env, v, o).value);
  }

  /** With the current password, and sealing that works, auto-unlock is enabled. */
  lemma EnabledNext(env: Env, v: Vault, o: Observed, e: Event)
    requires LawfulEnv(env) && env.hasAutoUnlock && Inv(env, v, o) && v.row.Some?
             && e.call == CallEnableAuto(o.password) && KekNow(env, v, o).Some?
    requires Auto.Enabling(env.sealer, KekNow(env, v, o).value, v.row.value.kekSalt, e.io.now, e.io.fileWrites).Some?
    ensures var made := Auto.Enabling(env.sealer, KekNow(env, v, o).value, v.row.value.kekSalt, e.io.now,
                                      e.io.fileWrites);
            Next(env, (v, o), e) == (v.(material := made, timerDue := None), o)
    ensures Inv(env, Next(env, (v, o), e).0, o)
  {
    KekOpens(env, v, o);
    EnablingStores(env, v, o.password, e.io, KekNow(env, v, o).value);
    StepKeepsInv(env, v, o, e);
    hide Inv, LawfulEnv, OpenRow, DeriveKek, EnableAutoUnlock, Auto.Enabling;
  }

  /**
   A change from the current password whose row is stored, but whose material is not, leaves the old material and no
   timer.
   */
  lemma ChangedNext(env: Env, v: Vault, o: Observed, e: Event, next: string, params: ScryptParams)
    requires LawfulEnv(env) && Inv(env, v, o) && v.row.Some? && e.call == CallChangePassword(o.password, next, params)
             && next != ""
    requires params.keylen == KEY_LEN && DeriveKek(env, next, e.io.salt, params).Some? && AutoUnlockOn(env, v)
             && e.io.dbWrites && !e.io.fileWrites
    ensures var (w, p) := Next(env, (v, o), e);
            && w == v.(row := w.row, session := Some(o.dek), manuallyLocked := false, timerDue := None)
            && w.row.Some? && w.row.value.kekSalt == e.io.salt && w.row.value.params == params
            && p.password == next && Inv(env, w, p)
  {
    KekOpens(env, v, o);
    var newKek := DeriveKek(env, next, e.io.salt, params).value;
    MadeRowHolds(env, params, e.io.salt, next, o.(password := next), e.io.nonce, e.io.nonce2);
    var row := MakeRow(env, params, e.io.salt, newKek, o.dek, e.io.nonce, e.io.nonce2).value;
    ChangeKeepsMaterial(env, v, o.password, next, params, e.io, KekNow(env, v, o).value, o.dek, newKek, row);
    StepKeepsInv(env, v, o, e);
    hide Inv, RowHolds, LawfulEnv, OpenRow, DeriveKek, MakeRow, ChangePassword, Auto.IsEnabled;
  }

  lemma UsualIsLawful(env: Env)
    requires Usual(env)
    ensures LawfulEnv(env) && env.hasAutoUnlock && env.sealer.supported
  {
  }

  lemma SecondStep(env: Env)
    requires Usual(env)
    ensures OpenUnder(env, Enabling(env), "p", [1]) && SealedForFirst(env, Enabling(env).0.material)
            && Enabling(env).0.timerDue.None?
  {
    FirstStep(env);
    UsualKeys(env, "p", [1], 1);
    UsualIsLawful(env);
    hide Usual, Inv, LawfulEnv, Initialized, Next, DeriveKek, Auto.Enabling, Auto.Parse;
    var (v, o) := Initialized(env);
    EnabledNext(env, v, o, SECOND);
  }

  lemma ThirdStep(env: Env)
    requires Usual(env)
    ensures OpenUnder(env, Changed(env), "q", [2]) && SealedForFirst(env, Changed(env).0.material)
            && Suspended(env, Changed(env).0)
  {
    SecondStep(env);
    UsualKeys(env, "q", [2], 2);
    UsualIsLawful(env);
    hide Usual, Inv, LawfulEnv, Enabling, Next, DeriveKek, Auto.Enabling, Auto.Parse;
    var (v, o) := Enabling(env);
    ChangedNext(env, v, o, THIRD, "q", PARAMS);
  }

  /** The run of a fresh vault that ends unguarded: initialize, enable auto-unlock, change the password, then `last`. */
  function UnguardedRun(last: Call): seq<Event> {
    [FIRST, SECOND, THIRD, Event(last, At(3, 3, true))]
  }

  lemma RunIsSteps(env: Env, last: Call)
    ensures Run(env, Some(LOCK_AFTER), UnguardedRun(last)) == Next(env, Changed(env), Event(last, At(3, 3, true)))
  {
    hide Step, Observe;
    var run := UnguardedRun(last);
    assert run[1..] == [SECOND, THIRD, run[3]] && run[1..][1..] == [THIRD, run[3]] && [THIRD, run[3]][1..] == [run[3]]
           && [run[3]][1..] == [];
    var s1, s2, s3 := Initialized(env), Enabling(env), Changed(env);
    var s4 := Next(env, s3, run[3]);
    assert RunFrom(env, s4.0, s4.1, []) == s4;
    assert RunFrom(env, s3.0, s3.1, [run[3]]) == s4;
    assert RunFrom(env, s2.0, s2.1, [THIRD, run[3]]) == s4;
    assert RunFrom(env, s1.0, s1.1, [SECOND, THIRD, run[3]]) == s4;
  }

  lemma UnguardedIsReached(env: Env, last: Call)
    requires Usual(env) && (last.CallStatus? || last.CallWindows?)
    ensures Unguarded(env, Run(env, Some(LOCK_AFTER), UnguardedRun(last)).0)
  {
    ThirdStep(env);
    RunIsSteps(env, last);
    var v, e := Changed(env).0, Event(last, At(3, 3, true));
    assert Unguards(env, v, e);
    hide Run, Changed, Step, Unguards, Suspended, Unguarded, OpenUnder;
    assert !Unguarded(env, v) by { SuspendedIsGuarded(env, v); }
    UnguardedExactly(env, v, e);
  }

  lemma SuspendedIsGuarded(env: Env, v: Vault)
    requires Suspended(env, v)
    ensures !Unguarded(env, v)
  {
  }

  function UsualSealer(): Auto.Sealer {
    Auto.Sealer(true, k => Some([1] + k), b => if |b| == 0 then None else Some(b[1..]),
                (salt: Bytes) => if salt == [1] then Zeros(7) + [1] else Zeros(8))
  }

  lemma UsualSealerIsLawful()
    ensures Auto.LawfulSealer(UsualSealer()) && UsualSealer().supported && forall k :: UsualSealer().protect(k).Some?
    ensures UsualSealer().fingerprint([1]) != UsualSealer().fingerprint([2])
  {
    var s := UsualSealer();
    assert s.fingerprint([1])[7] == 1 && s.fingerprint([2])[7] == 0;
    forall k: Bytes ensures ([1] + k)[1..] == k {}
  }

  lemma UsualMachinesExist() returns (env: Env)
    ensures Usual(env)
  {
    var base := ToyEnv();
    EnvironmentsExist();
    UsualSealerIsLawful();
    hide UsualSealer, Lawful, Committing, Auto.LawfulSealer;
    env := base.(scrypt := (pw, salt, params: ScryptParams) => Some(Zeros(params.keylen)), sealer := UsualSealer());
    assert LawfulEnv(env);
  }
}

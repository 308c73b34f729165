/**
 The vault as the program holds it: tables, an auto-unlock file, and key buffers on the heap
 that are wiped in place. Each method is proved to do to these objects what the function of
 the same call in `VaultModel` does to their values, so no wipe ever hits the live key.
 */
module VaultObjects {
  import opened Common
  import opened Blob
  import opened VaultModel
  import Auto = AutoUnlockLayout

  /** The tables vault_meta (one row at most) and vault_secrets. */
  class Database {
    var meta: Option<Meta>
    var secrets: map<string, Bytes>

    constructor ()
      ensures meta == None && secrets == map[]
    {
      meta, secrets := None, map[];
    }

    /** `VaultMetaRepo.create`: fails when the row exists. */
    method CreateMeta(row: Meta, writes: bool) returns (ok: bool)
      modifies this`meta
      ensures ok == (old(meta).None? && writes)
      ensures meta == if ok then Some(row) else old(meta)
    {
      ok := meta.None? && writes;
      if ok { meta := Some(row); }
    }

    /** `VaultMetaRepo.updateCrypto`: fails when there is no row to update. */
    method UpdateCrypto(row: Meta, writes: bool) returns (ok: bool)
      modifies this`meta
      ensures ok == (old(meta).Some? && writes)
      ensures meta == if ok then Some(row) else old(meta)
    {
      ok := meta.Some? && writes;
      if ok { meta := Some(row); }
    }
  }

  ghost predicate Wiped(buf: array<byte>)
    reads buf
  {
    forall i :: 0 <= i < buf.Length ==> buf[i] == 0
  }

  method Wipe(buf: array?<byte>)
    modifies if buf == null then {} else {buf}
    ensures buf != null ==> Wiped(buf)
  {
    if buf != null {
      for i := 0 to buf.Length
        invariant forall j :: 0 <= j < i ==> buf[j] == 0
      {
        buf[i] := 0;
      }
    }
  }

  method Buffer(bytes: Bytes) returns (buf: array<byte>)
    ensures fresh(buf) && buf[..] == bytes
  {
    buf := new byte[|bytes|](i requires 0 <= i < |bytes| => bytes[i]);
  }

  /** The file behind Windows auto-unlock (`createVaultAutoUnlock`). */
  class AutoUnlock {
    const sealer: Auto.Sealer
    var file: Option<Bytes>

    constructor (sealer: Auto.Sealer, file: Option<Bytes>)
      ensures this.sealer == sealer && this.file == file
    {
      this.sealer, this.file := sealer, file;
    }

    method RemoveFile(io: Io)
      modifies this
      ensures file == Auto.Removed(io.noise, io.unlinks)
    {
      file := Some(io.noise);
      if io.unlinks { file := None; }
    }

    method Status(salt: Bytes, io: Io) returns (s: Auto.Status)
      modifies this
      ensures s == Auto.StatusOf(sealer, old(file), salt)
      ensures file == Auto.AfterStatus(sealer, old(file), salt, io.noise, io.unlinks)
    {
      if !sealer.supported { return Auto.Unsupported; }
      var p := Auto.Parse(file);
      if p.Absent? { return Auto.Disabled; }
      if p.Malformed? {
        RemoveFile(io);
        return Auto.Error;
      }
      if p.fingerprint != sealer.fingerprint(salt) {
        RemoveFile(io);
        return Auto.Stale;
      }
      return Auto.Enabled(p.createdAt);
    }

    /** The header is filled in place, field by field, before the sealed key is appended. */
    method Enable(kek: array<byte>, salt: Bytes, io: Io) returns (ok: bool)
      requires |sealer.fingerprint(salt)| == 8
      modifies this
      ensures var made := Auto.Enabling(sealer, kek[..], salt, io.now, io.fileWrites);
              && ok == made.Some?
              && file == if ok then made else old(file)
    {
      if kek.Length != Auto.KEK_LEN { return false; }
      ghost var bytes := kek[..];
      var sealed := sealer.protect(kek[..]);
      if sealed.None? { return false; }
      var header := new byte[Auto.HEADER_LEN](_ => 0);
      forall i | 0 <= i < 5 { header[i] := Auto.MAGIC[i]; }
      header[5] := Auto.VERSION;
      var fp := sealer.fingerprint(salt);
      forall i | 0 <= i < 8 { header[Auto.FP_START + i] := fp[i]; }
      if io.now < 0 || io.now >= Auto.TIME_LIMIT { return false; }
      var time := Auto.LittleEndian(io.now, 8);
      forall i | 0 <= i < 8 { header[Auto.TIME_START + i] := time[i]; }
      assert header[..] == Auto.MAGIC + [Auto.VERSION] + fp + time;
      assert kek[..] == bytes;
      if !io.fileWrites { return false; }
      file := Some(header[..] + sealed.value);
      return true;
    }

    method Disable(io: Io)
      modifies this
      ensures file == if old(file).Some? then Auto.Removed(io.noise, io.unlinks) else None
    {
      if file.Some? { RemoveFile(io); }
    }

    /** `made` is the key buffer of this call, wiped if it is not the one returned. */
    method LoadKek(salt: Bytes, io: Io) returns (kek: array?<byte>, ghost made: array?<byte>)
      modifies this
      ensures kek != null ==> made == kek
      ensures made != null ==> fresh(made) && (made == kek || Wiped(made))
      ensures var loaded := Auto.LoadableKek(sealer, old(file), salt);
              && (kek != null <==> loaded.Some?)
              && (kek != null ==> fresh(kek) && kek[..] == loaded.value)
      ensures file == Auto.AfterLoad(sealer, old(file), salt, io.noise, io.unlinks)
    {
      if !sealer.supported { return null, null; }
      var p := Auto.Parse(file);
      if !p.Material? {
        if p.Malformed? { RemoveFile(io); }
        return null, null;
      }
      if p.fingerprint != sealer.fingerprint(salt) {
        RemoveFile(io);
        return null, null;
      }
      var unsealed := sealer.unprotect(p.blob);
      if unsealed.None? {
        RemoveFile(io);
        return null, null;
      }
      var buf := Buffer(unsealed.value);
      if buf.Length != Auto.KEK_LEN {
        Wipe(buf);
        RemoveFile(io);
        return null, buf;
      }
      return buf, buf;
    }
  }

  /** The session (`createVaultState`): `dek` is the live key buffer. */
  class VaultState {
    const env: Env
    const db: Database
    const autoUnlock: AutoUnlock?
    var dek: array?<byte>
    var timer: bool
    var autoLockDueAt: Option<int>
    var manuallyLocked: bool
    var autoLockMs: Option<int>

    ghost predicate Valid()
      reads this
    {
      && (timer <==> autoLockDueAt.Some?)
      && (env.hasAutoUnlock <==> autoUnlock != null)
      && (autoUnlock != null ==> autoUnlock.sealer == env.sealer)
      && Auto.LawfulSealer(env.sealer)
    }

    /** The objects a call may change. */
    ghost function Footprint(): set<object>
      reads this
    {
      {this, db} + (if autoUnlock == null then {} else {autoUnlock}) + (if dek == null then {} else {dek})
    }

    /** What `VaultModel` sees of these objects. */
    ghost function View(): Vault
      reads Footprint()
    {
      Vault(db.meta, db.secrets, if autoUnlock == null then None else autoUnlock.file,
            if dek == null then None else Some(dek[..]), autoLockDueAt, manuallyLocked, autoLockMs)
    }

    constructor (env: Env, db: Database, autoUnlock: AutoUnlock?, autoLockMs: Option<int>)
      requires env.hasAutoUnlock <==> autoUnlock != null
      requires autoUnlock != null ==> autoUnlock.sealer == env.sealer
      requires Auto.LawfulSealer(env.sealer)
      ensures Valid() && this.env == env && this.db == db && this.autoUnlock == autoUnlock && dek == null
      ensures View() == Vault(db.meta, db.secrets, if autoUnlock == null then None
                              else autoUnlock.file, None, None, false, autoLockMs)
    {
      this.env, this.db, this.autoUnlock, this.autoLockMs := env, db, autoUnlock, autoLockMs;
      dek, timer, autoLockDueAt, manuallyLocked := null, false, None, false;
    }

    method ClearTimer()
      modifies this`timer, this`autoLockDueAt
      ensures !timer && autoLockDueAt == None
    {
      timer := false;
      autoLockDueAt := None;
    }

    method AutoUnlockIsOn() returns (on: bool)
      requires Valid()
      ensures on == AutoUnlockOn(env, View())
    {
      on := autoUnlock != null && Auto.IsEnabled(autoUnlock.sealer, autoUnlock.file);
    }

    method Arm(now: int)
      requires Valid()
      modifies this`timer, this`autoLockDueAt
      ensures Valid() && View() == ArmTimer(env, old(View()), now)
    {
      ClearTimer();
      var on := AutoUnlockIsOn();
      if on { return; }
      if dek == null || autoLockMs.None? || autoLockMs.value <= 0 { return; }
      autoLockDueAt := Some(now + autoLockMs.value);
      timer := true;
    }

    method Lock()
      requires Valid()
      modifies this, if dek == null then {} else {dek}
      ensures Valid() && View() == Locked(old(View())) && dek == null
      ensures old(dek) != null ==> Wiped(old(dek))
    {
      Wipe(dek);
      dek := null;
      ClearTimer();
      manuallyLocked := true;
    }

    /** Adopt `candidate`, after wiping the buffer it replaces; the two must not be the same buffer. */
    method Adopt(candidate: array<byte>, now: int)
      requires Valid() && candidate != dek
      modifies this, if dek == null then {} else {dek}
      ensures Valid() && dek == candidate
      ensures View() == ApplyDek(env, old(View()), old(candidate[..]), now)
      ensures old(dek) != null ==> Wiped(old(dek))
    {
      Wipe(dek);
      dek := candidate;
      manuallyLocked := false;
      Arm(now);
    }

    method KekOf(password: string, salt: Bytes, params: ScryptParams) returns (kek: array?<byte>)
      ensures var derived := DeriveKek(env, password, salt, params);
              && (kek != null <==> derived.Some?)
              && (kek != null ==> fresh(kek) && kek[..] == derived.value)
    {
      var derived := DeriveKek(env, password, salt, params);
      if derived.None? { return null; }
      kek := Buffer(derived.value);
    }

    /** Unwrap under `kek` and check the verifier; a rejected candidate is wiped. */
    method Unwrap(row: Meta, kek: array<byte>) returns (accepted: bool, candidate: array?<byte>)
      ensures accepted == OpenRow(env, row, kek[..]).Some?
      ensures accepted ==> candidate != null && candidate[..] == OpenRow(env, row, kek[..]).value
      ensures candidate != null ==> fresh(candidate) && (accepted || Wiped(candidate))
    {
      var plain := DecryptBytes(env.aead, VAULT_MAGIC, row.wrappedDek, kek[..]);
      if plain.Err? { return false, null; }
      candidate := Buffer(plain.value);
      accepted := VerifierMatches(env, row.verifier, candidate[..]);
      if !accepted { Wipe(candidate); }
    }

    /** The KEK that a password derives and the key that it opens, or why there is none. */
    ghost function Authenticated(row: Meta, password: string): Result<(Bytes, Bytes), VaultError> {
      match DeriveKek(env, password, row.kekSalt, row.params)
      case None => Err(KdfRejected)
      case Some(kek) =>
        var dek := OpenRow(env, row, kek);
        if dek.None? then Err(WrongMasterPassword) else Ok((kek, dek.value))
    }

    /**
     How unlocking, changing the password and enabling auto-unlock begin: derive, unwrap, verify. A failure wipes what
     it made.
     */
    method Authenticate(row: Meta, password: string)
      returns (failure: Option<VaultError>, kek: array?<byte>, candidate: array?<byte>)
      ensures kek != null ==> fresh(kek) && (failure.None? || Wiped(kek))
      ensures candidate != null ==> fresh(candidate) && candidate != kek && (failure.None? || Wiped(candidate))
      ensures failure.None? ==> kek != null && candidate != null
      ensures Authenticated(row, password) == if failure.None? then Ok((kek[..], candidate[..])) else Err(failure.value)
    {
      hide DecryptBytes, DeriveKek, OpenRow;
      kek := KekOf(password, row.kekSalt, row.params);
      if kek == null { return Some(KdfRejected), null, null; }
      var accepted;
      accepted, candidate := Unwrap(row, kek);
      if !accepted {
        Wipe(kek);
        return Some(WrongMasterPassword), kek, candidate;
      }
      failure := None;
    }

    /** When the row cannot be made or stored, the buffer of the new key is left as it is. */
    method InitVault(password: string, params: ScryptParams, io: Io)
      returns (outcome: Outcome, ghost kek: array?<byte>, ghost freshDek: array?<byte>)
      requires Valid()
      modifies Footprint()
      ensures Valid() && (View(), outcome) == Init(env, old(View()), password, params, io)
      ensures fresh(Footprint() - old(Footprint()))
      ensures kek != null ==> fresh(kek) && Wiped(kek)
      ensures freshDek != null <==> outcome.Done? || outcome.error.DatabaseFailed? || outcome.error.Crypto?
      ensures freshDek != null ==> fresh(freshDek) && freshDek[..] == io.key && kek != null
      ensures dek == if outcome.Done? then freshDek else old(dek)
    {
      hide DecryptBytes, EncryptBytes, MakeRow, OpenRow, Auto.Enabling, Auto.IsEnabled, ArmTimer, DeriveKek;
      kek, freshDek := null, null;
      if db.meta.Some? {
        outcome := Failed(AlreadyInitialized);
        return;
      }
      if password == "" {
        outcome := Failed(EmptyPassword);
        return;
      }
      var derived := KekOf(password, io.salt, params);
      kek := derived;
      if derived == null {
        outcome := Failed(KdfRejected);
        return;
      }
      var key := Buffer(io.key);
      freshDek := key;
      outcome := StoreNewRow(derived, key, params, io);
    }

    /** The second half of `InitVault`: store `freshDek` under `kek`, then adopt it. */
    method StoreNewRow(kek: array<byte>, freshDek: array<byte>, params: ScryptParams, io: Io) returns (outcome: Outcome)
      requires Valid() && db.meta.None? && kek != freshDek && kek != dek && freshDek != dek
      modifies Footprint(), kek
      ensures Valid() && Wiped(kek) && freshDek[..] == old(freshDek[..])
      ensures dek == if outcome.Done? then freshDek else old(dek)
      ensures var made := MakeRow(env, params, io.salt, old(kek[..]), old(freshDek[..]), io.nonce, io.nonce2);
              (View(), outcome) == if made.Err? then (old(View()), Failed(Crypto(made.error)))
                                   else if !io.dbWrites then (old(View()), Failed(DatabaseFailed))
                                   else (ApplyDek(env, old(View()).(row := Some(made.value)), old(freshDek[..]),
                                                  io.now), Done)
    {
      hide DecryptBytes, EncryptBytes, MakeRow, OpenRow, Auto.Enabling, Auto.IsEnabled, ArmTimer, DeriveKek;
      var made := MakeRow(env, params, io.salt, kek[..], freshDek[..], io.nonce, io.nonce2);
      if made.Err? {
        Wipe(kek);
        return Failed(Crypto(made.error));
      }
      var ok := db.CreateMeta(made.value, io.dbWrites);
      Wipe(kek);
      if !ok { return Failed(DatabaseFailed); }
      Adopt(freshDek, io.now);
      return Done;
    }

    /** `VaultModel.Unlock` in terms of the authentication. */
    lemma UnlockByAuthentication(v: Vault, password: string, enable: bool, io: Io)
      requires v.row.Some?
      ensures var row := v.row.value;
              Unlock(env, v, password, enable, io) ==
              match Authenticated(row, password)
              case Err(e) => (v, Failed(e))
              case Ok((kek, dek)) =>
                (ApplyDek(env, if enable && env.hasAutoUnlock then BestEffort(v, Enabled(env, v, kek, row.kekSalt, io))
                          else v, dek, io.now), Done)
    {
    }

    method UnlockVault(password: string, enable: bool, io: Io)
      returns (outcome: Outcome, ghost kek: array?<byte>, ghost candidate: array?<byte>)
      requires Valid()
      modifies Footprint()
      ensures Valid() && (View(), outcome) == Unlock(env, old(View()), password, enable, io)
      ensures fresh(Footprint() - old(Footprint()))
      ensures kek != null ==> fresh(kek) && Wiped(kek)
      ensures candidate != null ==> fresh(candidate) && (candidate == dek || Wiped(candidate))
      ensures outcome.Done? ==> kek != null && dek == candidate && (old(dek) != null ==> Wiped(old(dek)))
      ensures !outcome.Done? ==> dek == old(dek)
    {
      kek, candidate := null, null;
      if db.meta.None? {
        outcome := Failed(NotInitialized);
        return;
      }
      UnlockByAuthentication(View(), password, enable, io);
      hide Unlock, Authenticated, OpenRow, DecryptBytes, EncryptBytes, ApplyDek, BestEffort, Enabled, DeriveKek;
      var failure, derived, unwrapped := Authenticate(db.meta.value, password);
      kek, candidate := derived, unwrapped;
      if failure.Some? {
        outcome := Failed(failure.value);
        return;
      }
      AdoptUnlocked(derived, unwrapped, db.meta.value.kekSalt, enable, io);
      outcome := Done;
    }

    /** The second half of `UnlockVault`: seal `kek` if asked to, wipe it, and adopt the unwrapped key. */
    method AdoptUnlocked(kek: array<byte>, candidate: array<byte>, salt: Bytes, enable: bool, io: Io)
      requires Valid() && kek != candidate && kek != dek && candidate != dek
      modifies Footprint(), kek
      ensures Valid() && Wiped(kek) && dek == candidate && (old(dek) != null ==> Wiped(old(dek)))
      ensures var v := old(View());
              View() == ApplyDek(env, if enable && env.hasAutoUnlock
                                 then BestEffort(v, Enabled(env, v, old(kek[..]), salt, io))
                                   else v, old(candidate[..]), io.now)
    {
      hide DecryptBytes, EncryptBytes, MakeRow, OpenRow, Auto.Enabling, Auto.IsEnabled, ArmTimer, DeriveKek;
      if enable && autoUnlock != null {
        var _ := autoUnlock.Enable(kek, salt, io);
      }
      Wipe(kek);
      Adopt(candidate, io.now);
    }

    /** `VaultModel.ChangePassword` in terms of the authentication. */
    lemma ChangeByAuthentication(v: Vault, current: string, next: string, params: ScryptParams, io: Io)
      requires v.row.Some? && next != ""
      ensures ChangePassword(env, v, current, next, params, io) ==
              match Authenticated(v.row.value, current)
              case Err(e) => (v, Failed(e))
              case Ok((_, dek)) => Rekeyed(env, v, dek, next, params, io)
    {
    }

    /**
     On any failure neither the row nor the session changes; one after the key was unwrapped leaves that buffer as it
     is.
     */
    method ChangeMasterPassword(current: string, next: string, params: ScryptParams, io: Io)
      returns (outcome: Outcome, ghost kek: array?<byte>, ghost liveDek: array?<byte>, ghost newKek: array?<byte>)
      requires Valid()
      modifies Footprint()
      ensures Valid() && (View(), outcome) == ChangePassword(env, old(View()), current, next, params, io)
      ensures fresh(Footprint() - old(Footprint()))
      ensures outcome != Done ==> View() == old(View()) && dek == old(dek)
      ensures kek != null ==> fresh(kek) && Wiped(kek)
      ensures newKek != null ==> fresh(newKek) && Wiped(newKek)
      ensures outcome.Done? ==>
              kek != null && newKek != null && dek == liveDek && (old(dek) != null ==> Wiped(old(dek)))
      ensures liveDek != null ==> fresh(liveDek)
      ensures if next != "" && old(db.meta).Some? && Authenticated(old(db.meta.value), current).Ok?
              then liveDek != null && liveDek[..] == Authenticated(old(db.meta.value), current).value.1
              else liveDek != null ==> Wiped(liveDek)
    {
      kek, liveDek, newKek := null, null, null;
      if db.meta.None? {
        outcome := Failed(NotInitialized);
        return;
      }
      if next == "" {
        outcome := Failed(EmptyPassword);
        return;
      }
      ChangeByAuthentication(View(), current, next, params, io);
      hide ChangePassword, Authenticated, Rekeyed, OpenRow, DecryptBytes, DeriveKek;
      var failure, derived, unwrapped := Authenticate(db.meta.value, current);
      kek, liveDek := derived, unwrapped;
      if failure.Some? {
        outcome := Failed(failure.value);
        return;
      }
      Wipe(derived);
      outcome, newKek := Rekey(unwrapped, next, params, io);
    }

    /** The second half of a password change: store `liveDek` under the new password, then adopt it. */
    method Rekey(liveDek: array<byte>, next: string, params: ScryptParams, io: Io)
      returns (outcome: Outcome, ghost newKek: array?<byte>)
      requires Valid() && db.meta.Some? && liveDek != dek
      modifies Footprint()
      ensures Valid() && (View(), outcome) == Rekeyed(env, old(View()), old(liveDek[..]), next, params, io)
      ensures dek == (if outcome.Done? then liveDek else old(dek))
      ensures outcome != Done ==> View() == old(View())
      ensures newKek != null ==> fresh(newKek) && Wiped(newKek)
      ensures outcome.Done? ==> newKek != null && (old(dek) != null ==> Wiped(old(dek)))
    {
      hide DecryptBytes, EncryptBytes, MakeRow, Auto.Enabling;
      var kek := KekOf(next, io.salt, params);
      newKek := kek;
      if kek == null {
        outcome := Failed(KdfRejected);
        return;
      }
      var made := MakeRow(env, params, io.salt, kek[..], liveDek[..], io.nonce, io.nonce2);
      if made.Err? {
        Wipe(kek);
        outcome := Failed(Crypto(made.error));
        return;
      }
      var ok := db.UpdateCrypto(made.value, io.dbWrites);
      if !ok {
        Wipe(kek);
        outcome := Failed(DatabaseFailed);
        return;
      }
      var on := AutoUnlockIsOn();
      if on {
        var _ := autoUnlock.Enable(kek, io.salt, io);
      }
      Wipe(kek);
      Adopt(liveDek, io.now);
      outcome := Done;
    }

    /** `VaultModel.EnableAutoUnlock` in terms of the authentication. */
    lemma EnableByAuthentication(v: Vault, password: string, io: Io)
      requires v.row.Some? && env.hasAutoUnlock
      ensures var row := v.row.value;
              EnableAutoUnlock(env, v, password, io) ==
              match Authenticated(row, password)
              case Err(e) => (v, Failed(e))
              case Ok((kek, _)) =>
                match Auto.Enabling(env.sealer, kek, row.kekSalt, io.now, io.fileWrites)
                case None => (v, Failed(SealingFailed))
                case Some(file) => (v.(material := Some(file), timerDue := None), Done)
    {
    }

    method EnableAuto(password: string, io: Io)
      returns (outcome: Outcome, ghost kek: array?<byte>, ghost probe: array?<byte>)
      requires Valid()
      modifies Footprint()
      ensures Valid() && (View(), outcome) == EnableAutoUnlock(env, old(View()), password, io)
      ensures dek == old(dek)
      ensures kek != null ==> fresh(kek) && Wiped(kek)
      ensures probe != null ==> fresh(probe) && Wiped(probe)
      ensures outcome.Done? ==> kek != null && probe != null
    {
      kek, probe := null, null;
      if db.meta.None? {
        outcome := Failed(NotInitialized);
        return;
      }
      if autoUnlock == null {
        outcome := Failed(AutoUnlockUnavailable);
        return;
      }
      EnableByAuthentication(View(), password, io);
      hide EnableAutoUnlock, Authenticated, OpenRow, DecryptBytes, DeriveKek, Auto.Enabling;
      var failure, derived, unwrapped := Authenticate(db.meta.value, password);
      kek, probe := derived, unwrapped;
      if failure.Some? {
        outcome := Failed(failure.value);
        return;
      }
      Wipe(unwrapped);
      var ok := autoUnlock.Enable(derived, db.meta.value.kekSalt, io);
      Wipe(derived);
      if !ok {
        outcome := Failed(SealingFailed);
        return;
      }
      ClearTimer();
      outcome := Done;
    }

    method DisableAuto(io: Io)
      requires Valid()
      modifies Footprint()
      ensures Valid() && View() == DisableAutoUnlock(env, old(View()), io) && dek == old(dek)
    {
      if autoUnlock != null { autoUnlock.Disable(io); }
      if dek != null { Arm(io.now); }
    }

    /** `autoUnlockStatus`, which leaves the timer alone whatever it deletes. */
    method AutoUnlockStatus(io: Io) returns (status: Auto.Status)
      requires Valid()
      modifies Footprint()
      ensures Valid() && View() == AfterAutoUnlockStatus(env, old(View()), io) && dek == old(dek)
      ensures status == if autoUnlock == null then Auto.Unsupported
                        else if old(db.meta).None? then Auto.Disabled
                        else Auto.StatusOf(env.sealer, old(View()).material, old(db.meta.value).kekSalt)
    {
      if autoUnlock == null { return Auto.Unsupported; }
      if db.meta.None? { return Auto.Disabled; }
      status := autoUnlock.Status(db.meta.value.kekSalt, io);
    }

    method WindowsUnlock(io: Io) returns (outcome: Outcome, ghost kek: array?<byte>, ghost candidate: array?<byte>)
      requires Valid()
      modifies Footprint()
      ensures Valid() && (View(), outcome) == UnlockWithWindows(env, old(View()), io)
      ensures fresh(Footprint() - old(Footprint()))
      ensures kek != null ==> fresh(kek) && Wiped(kek)
      ensures candidate != null ==> fresh(candidate) && (candidate == dek || Wiped(candidate))
      ensures outcome.Done? ==> kek != null && dek == candidate && (old(dek) != null ==> Wiped(old(dek)))
      ensures !outcome.Done? ==> dek == old(dek)
    {
      hide DecryptBytes, EncryptBytes, MakeRow, OpenRow, Auto.Enabling, Auto.LoadableKek, Auto.AfterLoad,
           Auto.IsEnabled, ArmTimer, DeriveKek;
      kek, candidate := null, null;
      if db.meta.None? {
        outcome := Failed(NotInitialized);
        return;
      }
      if autoUnlock == null {
        outcome := Failed(AutoUnlockUnavailable);
        return;
      }
      var sealed;
      sealed, kek := autoUnlock.LoadKek(db.meta.value.kekSalt, io);
      if sealed == null {
        outcome := Failed(AutoUnlockUnavailable);
        return;
      }
      outcome, candidate := OpenSealed(sealed, io);
    }

    /** The second half of `WindowsUnlock`: unwrap under the sealed `kek`, wipe it, and adopt the key. */
    method OpenSealed(kek: array<byte>, io: Io) returns (outcome: Outcome, ghost candidate: array?<byte>)
      requires Valid() && db.meta.Some? && kek != dek
      modifies Footprint(), kek
      ensures Valid() && Wiped(kek)
      ensures candidate != null ==> fresh(candidate) && (candidate == dek || Wiped(candidate))
      ensures outcome.Done? ==> candidate != null && dek == candidate && (old(dek) != null ==> Wiped(old(dek)))
      ensures !outcome.Done? ==> dek == old(dek)
      ensures var live := OpenRow(env, old(db.meta.value), old(kek[..]));
              (View(), outcome) == if live.None? then (old(View()), Failed(AutoUnlockUnavailable))
                                   else (ApplyDek(env, old(View()), live.value, io.now), Done)
    {
      hide DecryptBytes, EncryptBytes, MakeRow, OpenRow, Auto.Enabling, Auto.IsEnabled, ArmTimer, DeriveKek;
      var accepted, unwrapped := Unwrap(db.meta.value, kek);
      candidate := unwrapped;
      Wipe(kek);
      if !accepted {
        outcome := Failed(AutoUnlockUnavailable);
        return;
      }
      Adopt(unwrapped, io.now);
      outcome := Done;
    }

    method StartupUnlock(io: Io) returns (open: bool, ghost kek: array?<byte>, ghost candidate: array?<byte>)
      requires Valid()
      modifies Footprint()
      ensures Valid() && (View(), open) == AttemptStartupAutoUnlock(env, old(View()), io)
      ensures fresh(Footprint() - old(Footprint()))
      ensures kek != null ==> fresh(kek) && Wiped(kek)
      ensures candidate != null ==> fresh(candidate) && (candidate == dek || Wiped(candidate))
    {
      kek, candidate := null, null;
      if dek != null {
        open := true;
        return;
      }
      open := false;
      if manuallyLocked { return; }
      var on := AutoUnlockIsOn();
      if !on { return; }
      var outcome;
      outcome, kek, candidate := WindowsUnlock(io);
      open := outcome.Done?;
    }

    /** The timer callback. */
    method IdleTimeout(now: int)
      requires Valid()
      modifies Footprint()
      ensures Valid() && View() == IdleLock(old(View()), now) && (dek == old(dek) || (dek == null && Wiped(old(dek))))
    {
      if timer && autoLockDueAt.value <= now { Lock(); }
    }

    method TouchSession(now: int)
      requires Valid()
      modifies Footprint()
      ensures Valid() && View() == Touch(env, old(View()), now) && dek == old(dek)
    {
      if dek != null { Arm(now); }
    }

    method SetAutoLock(ms: Option<int>, now: int)
      requires Valid()
      modifies Footprint()
      ensures Valid() && View() == SetAutoLockMs(env, old(View()), ms, now) && dek == old(dek)
    {
      autoLockMs := ms;
      if dek != null { Arm(now); }
    }
  }

  /** `createVaultSecretStore` over the same database and session. */
  class VaultSecretStore {
    const db: Database
    const state: VaultState

    constructor (state: VaultState)
      ensures this.state == state && db == state.db
    {
      this.state, this.db := state, state.db;
    }

    method Get(ref: string, now: int) returns (found: Lookup)
      requires db == state.db && state.Valid()
      modifies state.Footprint()
      ensures state.Valid() && found == GetSecret(state.env, old(state.View()), ref) && state.dek == old(state.dek)
      ensures state.View() == AfterGet(state.env, old(state.View()), ref, now)
    {
      if ref !in db.secrets { return Lookup.Absent; }
      var row := db.secrets[ref];
      if state.dek == null { return Refused(VaultLocked); }
      state.TouchSession(now);
      var plain := DecryptBytes(state.env.aead, VAULT_MAGIC, row, state.dek[..]);
      if plain.Err? { return Refused(Crypto(plain.error)); }
      return Present(state.env.text(plain.value));
    }

    method Set(ref: string, value: string, io: Io) returns (outcome: Outcome)
      requires db == state.db && state.Valid()
      modifies state.Footprint()
      ensures state.Valid() && (state.View(), outcome) == SetSecret(state.env, old(state.View()), ref, value, io)
              && state.dek == old(state.dek)
    {
      if state.dek == null { return Failed(VaultLocked); }
      state.TouchSession(io.now);
      var blob := EncryptBytes(state.env.aead, VAULT_MAGIC, state.env.utf8(value), state.dek[..], io.nonce);
      if blob.Err? { return Failed(Crypto(blob.error)); }
      if !io.dbWrites { return Failed(DatabaseFailed); }
      db.secrets := db.secrets[ref := blob.value];
      return Done;
    }

    method Delete(ref: string)
      requires db == state.db && state.Valid()
      modifies db
      ensures state.Valid() && state.View() == DeleteSecret(old(state.View()), ref)
    {
      db.secrets := db.secrets - {ref};
    }

    method Has(ref: string) returns (b: bool)
      ensures b == (ref in db.secrets)
    {
      b := ref in db.secrets;
    }
  }
}

/**
 The encrypted vault as values (vaultState.ts, vaultMetaRepo.ts, vaultSecretStore.ts): what each
 call makes of the stored row, the ciphertext table, the auto-unlock file and the session.
 `VaultObjects` implements these functions over mutable buffers; `VaultRuns` proves what
 every run of them keeps.
 */
module VaultModel {
  import opened Common
  import opened Blob
  import Auto = AutoUnlockLayout

  const VERIFIER_PLAINTEXT: Bytes :=
    [97, 114, 107, 111, 100, 101, 45, 118, 97, 117, 108, 116, 45, 118, 101, 114, 105, 102, 105, 101, 114, 45, 118, 49]

  datatype ScryptParams = ScryptParams(N: nat, r: nat, p: nat, keylen: nat)

  /** The vault_meta row. */
  datatype Meta = Meta(params: ScryptParams, kekSalt: Bytes, wrappedDek: Bytes, verifier: Bytes)

  /** The primitives the vault is built on; scrypt (RFC 7914, section 6) may reject its parameters. */
  datatype Env = Env(
    aead: Aead,
    scrypt: (Bytes, Bytes, ScryptParams) -> Option<Bytes>,
    normalize: string -> string,
    utf8: string -> Bytes,
    text: Bytes -> string,
    hasAutoUnlock: bool,
    sealer: Auto.Sealer)

  ghost predicate LawfulEnv(env: Env) {
    && Lawful(env.aead)
    && Committing(env.aead)
    && Auto.LawfulSealer(env.sealer)
    && (forall pw, salt, params :: env.scrypt(pw, salt, params).Some? ==>
        |env.scrypt(pw, salt, params).value| == params.keylen)
    && (forall s :: env.text(env.utf8(s)) == s)
  }

  /** What the outside world does during one call: the clock, random bytes, and which I/O succeeds. */
  datatype IoChoice = Io(
    now: int,
    salt: Bytes,
    key: Bytes,
    nonce: Bytes,
    nonce2: Bytes,
    dbWrites: bool,
    fileWrites: bool,
    unlinks: bool,
    noise: Bytes)

  type Io = io: IoChoice | |io.key| == KEY_LEN && |io.nonce| == NONCE_LEN && |io.nonce2| == NONCE_LEN
    witness Io(0, [], Zeros(KEY_LEN), Zeros(NONCE_LEN), Zeros(NONCE_LEN), true, true, true, [])

  datatype VaultError =
    | AlreadyInitialized
    | NotInitialized
    | EmptyPassword
    | KdfRejected
    | WrongMasterPassword
    | VaultLocked
    | AutoUnlockUnavailable
    | SealingFailed
    | DatabaseFailed
    | Crypto(e: CryptoError)

  datatype Outcome = Done | Failed(error: VaultError)

  /** `timerDue` is the armed idle timer: `timer` and `autoLockDueAt` of the source move together. */
  datatype Vault = Vault(
    row: Option<Meta>,
    secrets: map<string, Bytes>,
    material: Option<Bytes>,
    session: Option<Bytes>,
    timerDue: Option<int>,
    manuallyLocked: bool,
    autoLockMs: Option<int>)

  /** A fresh install: nothing stored, nothing unlocked. */
  function Fresh(autoLockMs: Option<int>): Vault {
    Vault(None, map[], None, None, None, false, autoLockMs)
  }

  // Key material.

  function DeriveKek(env: Env, password: string, salt: Bytes, params: ScryptParams): Option<Bytes> {
    env.scrypt(env.utf8(env.normalize(password)), salt, params)
  }

  predicate VerifierMatches(env: Env, verifier: Bytes, dek: Bytes) {
    DecryptBytes(env.aead, VAULT_MAGIC, verifier, dek) == Ok(VERIFIER_PLAINTEXT)
  }

  /** Unwrap the stored key under a KEK, and accept it only if the verifier agrees. */
  function OpenRow(env: Env, row: Meta, kek: Bytes): (r: Option<Bytes>)
    ensures r.Some? ==> |r.value| == KEY_LEN && VerifierMatches(env, row.verifier, r.value)
    ensures forall dek :: r == Some(dek) <==>
      DecryptBytes(env.aead, VAULT_MAGIC, row.wrappedDek, kek) == Ok(dek) && VerifierMatches(env, row.verifier, dek)
  {
    match DecryptBytes(env.aead, VAULT_MAGIC, row.wrappedDek, kek)
    case Err(_) => None
    case Ok(candidate) => if VerifierMatches(env, row.verifier, candidate) then Some(candidate) else None
  }

  /** The row for a DEK under a KEK: wrapped key and verifier, or the crypto error on the way. */
  function MakeRow(env: Env, params: ScryptParams, salt: Bytes, kek: Bytes, dek: Bytes, nonce: Bytes,
                   nonce2: Bytes): Result<Meta, CryptoError>
  {
    match EncryptBytes(env.aead, VAULT_MAGIC, dek, kek, nonce)
    case Err(e) => Err(e)
    case Ok(wrapped) =>
      match EncryptBytes(env.aead, VAULT_MAGIC, VERIFIER_PLAINTEXT, dek, nonce2)
      case Err(e) => Err(e)
      case Ok(verifier) => Ok(Meta(params, salt, wrapped, verifier))
  }

  // Session and timer.

  predicate AutoUnlockOn(env: Env, v: Vault) {
    env.hasAutoUnlock && Auto.IsEnabled(env.sealer, v.material)
  }

  function ArmTimer(env: Env, v: Vault, now: int): Vault {
    if AutoUnlockOn(env, v) || v.session.None? || v.autoLockMs.None? || v.autoLockMs.value <= 0
    then v.(timerDue := None)
    else v.(timerDue := Some(now + v.autoLockMs.value))
  }

  function Locked(v: Vault): Vault {
    v.(session := None, timerDue := None, manuallyLocked := true)
  }

  function ApplyDek(env: Env, v: Vault, dek: Bytes, now: int): Vault {
    ArmTimer(env, v.(session := Some(dek), manuallyLocked := false), now)
  }

  /** `autoUnlock.enable`, when it does not throw. */
  function Enabled(env: Env, v: Vault, kek: Bytes, salt: Bytes, io: Io): Option<Vault> {
    match Auto.Enabling(env.sealer, kek, salt, io.now, io.fileWrites)
    case None => None
    case Some(file) => Some(v.(material := Some(file)))
  }

  function BestEffort(v: Vault, attempt: Option<Vault>): Vault {
    attempt.GetOr(v)
  }

  // The calls of VaultState.

  function Init(env: Env, v: Vault, password: string, params: ScryptParams, io: Io): (Vault, Outcome) {
    if v.row.Some? then (v, Failed(AlreadyInitialized))
    else if password == "" then (v, Failed(EmptyPassword))
    else match DeriveKek(env, password, io.salt, params)
      case None => (v, Failed(KdfRejected))
      case Some(kek) =>
        match MakeRow(env, params, io.salt, kek, io.key, io.nonce, io.nonce2)
        case Err(e) => (v, Failed(Crypto(e)))
        case Ok(row) =>
          if !io.dbWrites then (v, Failed(DatabaseFailed))
          else (ApplyDek(env, v.(row := Some(row)), io.key, io.now), Done)
  }

  function Unlock(env: Env, v: Vault, password: string, enable: bool, io: Io): (Vault, Outcome) {
    if v.row.None? then (v, Failed(NotInitialized))
    else match DeriveKek(env, password, v.row.value.kekSalt, v.row.value.params)
      case None => (v, Failed(KdfRejected))
      case Some(kek) =>
        match OpenRow(env, v.row.value, kek)
        case None => (v, Failed(WrongMasterPassword))
        case Some(dek) =>
          var v1 := if enable && env.hasAutoUnlock
                    then BestEffort(v, Enabled(env, v, kek, v.row.value.kekSalt, io)) else v;
          (ApplyDek(env, v1, dek, io.now), Done)
  }

  function ChangePassword(env: Env, v: Vault, current: string, next: string, params: ScryptParams,
                          io: Io): (Vault, Outcome)
  {
    if v.row.None? then (v, Failed(NotInitialized))
    else if next == "" then (v, Failed(EmptyPassword))
    else match DeriveKek(env, current, v.row.value.kekSalt, v.row.value.params)
      case None => (v, Failed(KdfRejected))
      case Some(kek) =>
        match OpenRow(env, v.row.value, kek)
        case None => (v, Failed(WrongMasterPassword))
        case Some(dek) => Rekeyed(env, v, dek, next, params, io)
  }

  /** The same DEK under a fresh salt and KEK; existing auto-unlock material is re-sealed, best-effort. */
  function Rekeyed(env: Env, v: Vault, dek: Bytes, next: string, params: ScryptParams, io: Io): (Vault, Outcome) {
    match DeriveKek(env, next, io.salt, params)
    case None => (v, Failed(KdfRejected))
    case Some(newKek) =>
      match MakeRow(env, params, io.salt, newKek, dek, io.nonce, io.nonce2)
      case Err(e) => (v, Failed(Crypto(e)))
      case Ok(row) =>
        if !io.dbWrites then (v, Failed(DatabaseFailed))
        else
          var v1 := v.(row := Some(row));
          var v2 := if AutoUnlockOn(env, v1) then BestEffort(v1, Enabled(env, v1, newKek, io.salt, io)) else v1;
          (ApplyDek(env, v2, dek, io.now), Done)
  }

  function EnableAutoUnlock(env: Env, v: Vault, password: string, io: Io): (Vault, Outcome) {
    if v.row.None? then (v, Failed(NotInitialized))
    else if !env.hasAutoUnlock then (v, Failed(AutoUnlockUnavailable))
    else match DeriveKek(env, password, v.row.value.kekSalt, v.row.value.params)
      case None => (v, Failed(KdfRejected))
      case Some(kek) =>
        if OpenRow(env, v.row.value, kek).None? then (v, Failed(WrongMasterPassword))
        else match Enabled(env, v, kek, v.row.value.kekSalt, io)
          case None => (v, Failed(SealingFailed))
          case Some(v1) => (v1.(timerDue := None), Done)
  }

  function DisableAutoUnlock(env: Env, v: Vault, io: Io): Vault {
    var v1 := if env.hasAutoUnlock && v.material.Some?
              then v.(material := Auto.Removed(io.noise, io.unlinks)) else v;
    Touch(env, v1, io.now)
  }

  function UnlockWithWindows(env: Env, v: Vault, io: Io): (Vault, Outcome) {
    if v.row.None? then (v, Failed(NotInitialized))
    else if !env.hasAutoUnlock then (v, Failed(AutoUnlockUnavailable))
    else
      var salt := v.row.value.kekSalt;
      var v1 := v.(material := Auto.AfterLoad(env.sealer, v.material, salt, io.noise, io.unlinks));
      match Auto.LoadableKek(env.sealer, v.material, salt)
      case None => (v1, Failed(AutoUnlockUnavailable))
      case Some(kek) =>
        match OpenRow(env, v.row.value, kek)
        case None => (v1, Failed(AutoUnlockUnavailable))
        case Some(dek) => (ApplyDek(env, v1, dek, io.now), Done)
  }

  /** The automatic path at startup; the boolean is its answer "the vault is open". */
  function AttemptStartupAutoUnlock(env: Env, v: Vault, io: Io): (Vault, bool) {
    if v.session.Some? then (v, true)
    else if v.manuallyLocked || !AutoUnlockOn(env, v) then (v, false)
    else var (v1, outcome) := UnlockWithWindows(env, v, io); (v1, outcome.Done?)
  }

  /** `autoUnlockStatus` deletes stale and malformed material, and leaves the timer as it is. */
  function AfterAutoUnlockStatus(env: Env, v: Vault, io: Io): Vault {
    if !env.hasAutoUnlock || v.row.None? then v
    else v.(material := Auto.AfterStatus(env.sealer, v.material, v.row.value.kekSalt, io.noise, io.unlinks))
  }

  function Touch(env: Env, v: Vault, now: int): Vault {
    if v.session.Some? then ArmTimer(env, v, now) else v
  }

  function SetAutoLockMs(env: Env, v: Vault, ms: Option<int>, now: int): Vault {
    Touch(env, v.(autoLockMs := ms), now)
  }

  /** The timer callback; it can run only while a timer is armed and due. */
  function IdleLock(v: Vault, now: int): Vault {
    if v.timerDue.Some? && v.timerDue.value <= now then Locked(v) else v
  }

  /** A new process over the same database and file. */
  function Restart(v: Vault, autoLockMs: Option<int>): Vault {
    Vault(v.row, v.secrets, v.material, None, None, false, autoLockMs)
  }

  // The calls of VaultSecretStore.

  datatype Lookup = Absent | Present(value: string) | Refused(error: VaultError)

  function GetSecret(env: Env, v: Vault, ref: string): Lookup {
    if ref !in v.secrets then Absent
    else if v.session.None? then Refused(VaultLocked)
    else match DecryptBytes(env.aead, VAULT_MAGIC, v.secrets[ref], v.session.value)
      case Err(e) => Refused(Crypto(e))
      case Ok(plaintext) => Present(env.text(plaintext))
  }

  /** Reading a row re-arms the idle timer (through withDek); reading an absent one does not. */
  function AfterGet(env: Env, v: Vault, ref: string, now: int): Vault {
    if ref in v.secrets then Touch(env, v, now) else v
  }

  function SetSecret(env: Env, v: Vault, ref: string, value: string, io: Io): (Vault, Outcome) {
    if v.session.None? then (v, Failed(VaultLocked))
    else
      var v1 := ArmTimer(env, v, io.now);
      match EncryptBytes(env.aead, VAULT_MAGIC, env.utf8(value), v.session.value, io.nonce)
      case Err(e) => (v1, Failed(Crypto(e)))
      case Ok(blob) =>
        if !io.dbWrites then (v1, Failed(DatabaseFailed))
        else (v1.(secrets := v.secrets[ref := blob]), Done)
  }

  function DeleteSecret(v: Vault, ref: string): Vault {
    v.(secrets := v.secrets - {ref})
  }

  // The laws of an environment can all hold at once.

  function ToyUtf8(s: string): Bytes {
    if s == "" then []
    else
      var n := s[0] as int;
      [(n / 0x1_0000) as byte, (n / 0x100 % 0x100) as byte, (n % 0x100) as byte] + ToyUtf8(s[1..])
  }

  function ToyText(b: Bytes): string {
    if |b| < 3 then ""
    else
      var n := b[0] as int * 0x1_0000 + b[1] as int * 0x100 + b[2] as int;
      [if n < 0xD800 || 0xE000 <= n < 0x11_0000 then n as char else '?'] + ToyText(b[3..])
  }

  lemma ThreeDigits(n: nat)
    ensures n / 0x1_0000 * 0x1_0000 + n / 0x100 % 0x100 * 0x100 + n % 0x100 == n
  {
    assert n / 0x100 / 0x100 == n / 0x1_0000;
  }

  lemma {:induction false} ToyTextRoundTrip(s: string)
    ensures ToyText(ToyUtf8(s)) == s
  {
    if s != "" {
      var n := s[0] as int;
      ThreeDigits(n);
      var head: Bytes := [(n / 0x1_0000) as byte, (n / 0x100 % 0x100) as byte, (n % 0x100) as byte];
      assert ToyUtf8(s) == head + ToyUtf8(s[1..]);
      assert (head + ToyUtf8(s[1..]))[3..] == ToyUtf8(s[1..]);
      ToyTextRoundTrip(s[1..]);
      assert ToyText(ToyUtf8(s)) == [s[0]] + s[1..];
    }
  }

  function ToyEnv(): Env {
    Env(TOY, (pw, salt, params: ScryptParams) => Some(Zeros(params.keylen)), s => s, ToyUtf8, ToyText, true,
        Auto.Sealer(true, k => Some([1] + k), b => if |b| == 0 then None else Some(b[1..]), salt => Zeros(8)))
  }

  lemma EnvironmentsExist()
    ensures LawfulEnv(ToyEnv()) && ToyEnv().hasAutoUnlock && ToyEnv().sealer.supported
  {
    LawsAreConsistent();
    var env := ToyEnv();
    forall s: string ensures env.text(env.utf8(s)) == s { ToyTextRoundTrip(s); }
  }
}

/**
 The local auto-unlock material (autoUnlock.ts), as values: the file layout

     magic "ARKAU" (5) | version (1) | fingerprint of the salt (8) | time, little-endian (8) | sealed KEK

 and what each operation makes of the file. DPAPI and the fingerprint (the first 8 bytes of
 SHA-256) stay abstract.
 */
module AutoUnlockLayout {
  import opened Common

  const MAGIC: Bytes := [65, 82, 75, 65, 85]
  const VERSION: byte := 1
  const FP_START: nat := 6
  const TIME_START: nat := 14
  const HEADER_LEN: nat := 22
  const KEK_LEN: nat := 32
  const TIME_LIMIT: nat := 0x1_0000_0000_0000_0000

  /** DPAPI in CurrentUser scope, and the fingerprint of a salt. */
  datatype Sealer = Sealer(
    supported: bool,
    protect: Bytes -> Option<Bytes>,
    unprotect: Bytes -> Option<Bytes>,
    fingerprint: Bytes -> Bytes)

  ghost predicate LawfulSealer(s: Sealer) {
    && (forall salt :: |s.fingerprint(salt)| == 8)
    && (forall k :: s.protect(k).Some? ==>
        s.supported && |s.protect(k).value| >= 1 && s.unprotect(s.protect(k).value) == Some(k))
  }

  datatype Parsed =
    | Absent
    | Malformed
    | Material(fingerprint: Bytes, createdAt: nat, blob: Bytes)

  datatype Status = Unsupported | Disabled | Enabled(createdAt: nat) | Stale | Error

  /** The `n` low bytes of `x`, least significant first. */
  function LittleEndian(x: nat, n: nat): (b: Bytes)
    ensures |b| == n
  {
    if n == 0 then [] else [(x % 256) as byte] + LittleEndian(x / 256, n - 1)
  }

  function FromLittleEndian(b: Bytes): nat {
    if b == [] then 0 else b[0] as nat + 256 * FromLittleEndian(b[1..])
  }

  function Pow256(n: nat): (p: nat)
    ensures p >= 1
  {
    if n == 0 then 1 else 256 * Pow256(n - 1)
  }

  lemma {:induction false} LittleEndianRoundTrip(x: nat, n: nat)
    requires x < Pow256(n)
    ensures FromLittleEndian(LittleEndian(x, n)) == x
  {
    if n > 0 {
      assert x / 256 < Pow256(n - 1);
      LittleEndianRoundTrip(x / 256, n - 1);
      assert LittleEndian(x, n)[1..] == LittleEndian(x / 256, n - 1);
    }
  }

  function Parse(file: Option<Bytes>): (p: Parsed) {
    match file
    case None => Absent
    case Some(raw) =>
      if |raw| < HEADER_LEN + 1 || raw[..|MAGIC|] != MAGIC then Malformed
      else if raw[|MAGIC|] != VERSION then Malformed
      else Material(raw[FP_START..TIME_START], FromLittleEndian(raw[TIME_START..HEADER_LEN]), raw[HEADER_LEN..])
  }

  function Layout(fingerprint: Bytes, createdAt: nat, blob: Bytes): Bytes {
    MAGIC + [VERSION] + fingerprint + LittleEndian(createdAt, 8) + blob
  }

  /** Parsing reads back each field of the layout, the 64-bit time included. */
  lemma ParseLayout(fingerprint: Bytes, createdAt: nat, blob: Bytes)
    requires |fingerprint| == 8 && createdAt < TIME_LIMIT && |blob| >= 1
    ensures Parse(Some(Layout(fingerprint, createdAt, blob))) == Material(fingerprint, createdAt, blob)
  {
    var raw := Layout(fingerprint, createdAt, blob);
    assert Pow256(8) == TIME_LIMIT by {
      assert Pow256(4) == 0x1_0000_0000;
      assert Pow256(6) == 0x1_0000_0000_0000;
    }
    LittleEndianRoundTrip(createdAt, 8);
    assert raw[TIME_START..HEADER_LEN] == LittleEndian(createdAt, 8);
    assert raw[..|MAGIC|] == MAGIC;
    assert raw[FP_START..TIME_START] == fingerprint;
    assert raw[HEADER_LEN..] == blob;
  }

  /** Well-formed material on a supported machine; its presence also suppresses the idle lock. */
  predicate IsEnabled(s: Sealer, file: Option<Bytes>) {
    s.supported && Parse(file).Material?
  }

  /** `enable`: the new file, or None when it throws and leaves the old file alone. */
  function Enabling(s: Sealer, kek: Bytes, salt: Bytes, now: int, writes: bool): Option<Bytes> {
    if |kek| != KEK_LEN then None
    else if s.protect(kek).None? || now < 0 || now >= TIME_LIMIT || !writes then None
    else Some(Layout(s.fingerprint(salt), now, s.protect(kek).value))
  }

  /** The material opens for this salt in this Windows session. */
  function LoadableKek(s: Sealer, file: Option<Bytes>, salt: Bytes): (r: Option<Bytes>)
    ensures r.Some? ==> |r.value| == KEK_LEN
  {
    match Parse(file)
    case Material(fp, _, blob) =>
      if !s.supported || fp != s.fingerprint(salt) then None
      else
        var kek := s.unprotect(blob);
        if kek.Some? && |kek.value| == KEK_LEN then kek else None
    case _ => None
  }

  /** After scrubbing with random bytes, `unlink` removes the file unless it fails. */
  function Removed(noise: Bytes, unlinks: bool): Option<Bytes> {
    if unlinks then None else Some(noise)
  }

  /** `loadKek` deletes whatever it could not use. */
  function AfterLoad(s: Sealer, file: Option<Bytes>, salt: Bytes, noise: Bytes, unlinks: bool): Option<Bytes> {
    if !s.supported || file.None? || LoadableKek(s, file, salt).Some? then file else Removed(noise, unlinks)
  }

  function StatusOf(s: Sealer, file: Option<Bytes>, salt: Bytes): Status {
    if !s.supported then Unsupported
    else match Parse(file)
      case Absent => Disabled
      case Malformed => Error
      case Material(fp, createdAt, _) => if fp != s.fingerprint(salt) then Stale else Enabled(createdAt)
  }

  /** `status` deletes malformed and stale material. */
  function AfterStatus(s: Sealer, file: Option<Bytes>, salt: Bytes, noise: Bytes, unlinks: bool): Option<Bytes> {
    if StatusOf(s, file, salt).Stale? || StatusOf(s, file, salt).Error? then Removed(noise, unlinks) else file
  }

  /** The magic, version 1, and at least one byte of sealed key. */
  predicate WellFormed(raw: Bytes) {
    |raw| >= 23 && raw[..6] == [65, 82, 75, 65, 85, 1]
  }

  /** What is reported of a file, byte for byte, and that a damaged or stale one is removed and no other. */
  lemma StatusExactly(s: Sealer, file: Option<Bytes>, salt: Bytes, noise: Bytes, unlinks: bool)
    ensures var status := StatusOf(s, file, salt);
            && (status.Unsupported? <==> !s.supported)
            && (status.Disabled? <==> s.supported && file.None?)
            && (status.Error? <==> s.supported && file.Some? && !WellFormed(file.value))
            && (status.Stale? <==>
                s.supported && file.Some? && WellFormed(file.value) && file.value[6..14] != s.fingerprint(salt))
            && (status.Enabled? ==> status.createdAt == FromLittleEndian(file.value[14..22]))
            && AfterStatus(s, file, salt, noise, unlinks) ==
               (if !(status.Error? || status.Stale?) then file else if unlinks then None else Some(noise))
  {
    if file.Some? && |file.value| >= 23 {
      var raw := file.value;
      assert raw[..6] == raw[..5] + [raw[5]];
    }
  }

  /** Whatever `enable` stores is well-formed. */
  lemma EnablingEnables(s: Sealer, kek: Bytes, salt: Bytes, now: int, writes: bool)
    requires LawfulSealer(s) && Enabling(s, kek, salt, now, writes).Some?
    ensures IsEnabled(s, Enabling(s, kek, salt, now, writes))
  {
    ParseLayout(s.fingerprint(salt), now, s.protect(kek).value);
  }

  /** What `enable` stored for a salt, `loadKek` gives back for that salt, byte for byte. */
  lemma EnableThenLoad(s: Sealer, kek: Bytes, salt: Bytes, now: int, writes: bool)
    requires LawfulSealer(s) && s.supported
    requires Enabling(s, kek, salt, now, writes).Some?
    ensures var file := Enabling(s, kek, salt, now, writes);
            && LoadableKek(s, file, salt) == Some(kek)
            && StatusOf(s, file, salt) == Enabled(now)
  {
    ParseLayout(s.fingerprint(salt), now, s.protect(kek).value);
  }

  /** Material of another epoch is never used: loading it yields nothing and deletes it. */
  lemma StaleMaterialIsDropped(s: Sealer, kek: Bytes, salt: Bytes, newSalt: Bytes, now: int, noise: Bytes)
    requires LawfulSealer(s) && s.supported
    requires Enabling(s, kek, salt, now, true).Some?
    requires s.fingerprint(salt) != s.fingerprint(newSalt)
    ensures var file := Enabling(s, kek, salt, now, true);
            && LoadableKek(s, file, newSalt) == None
            && AfterLoad(s, file, newSalt, noise, true) == None
            && StatusOf(s, file, newSalt) == Stale
            && AfterStatus(s, file, newSalt, noise, true) == None
  {
    ParseLayout(s.fingerprint(salt), now, s.protect(kek).value);
  }
}

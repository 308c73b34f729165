/**
 The self-describing ciphertext layout shared by the desktop vault ("ARKV") and by
 Arkode Pocket ("ARKB"):

     magic (4) | version (1) | algorithm (1) | nonce (12) | ciphertext | tag (16)

 AES-256-GCM (NIST SP 800-38D, section 7) stays abstract: it is a pair of functions, and
 `Lawful` says what is assumed of them.
 */
module Blob {
  import opened Common

  const KEY_LEN: nat := 32
  const NONCE_LEN: nat := 12
  const TAG_LEN: nat := 16
  const MAGIC_LEN: nat := 4
  const HEADER_LEN: nat := MAGIC_LEN + 2
  const MIN_BLOB_LEN: nat := HEADER_LEN + NONCE_LEN + TAG_LEN
  const FORMAT_VERSION: byte := 1
  const ALG_AES_256_GCM: byte := 1

  const VAULT_MAGIC: Magic := [65, 82, 75, 86]  // "ARKV"
  const POCKET_MAGIC: Magic := [65, 82, 75, 66] // "ARKB"

  type Magic = m: Bytes | |m| == MAGIC_LEN witness [65, 82, 75, 86]

  datatype Sealed = Sealed(ciphertext: Bytes, tag: Bytes)

  datatype CryptoError =
    | KeyLength
    | Truncated
    | BadMagic
    | UnsupportedVersion(version: byte)
    | UnsupportedAlgorithm(alg: byte)
    | TagLength
    | DecryptionFailed

  /** An authenticated cipher: seal(key, nonce, plaintext) and open(key, nonce, sealed). */
  datatype Aead = Aead(
    seal: (Bytes, Bytes, Bytes) -> Sealed,
    open: (Bytes, Bytes, Sealed) -> Option<Bytes>)

  /** GCM mode: a 16-byte tag, no padding, and `open` accepts exactly what `seal` makes. */
  ghost predicate Lawful(a: Aead) {
    && (forall k, n, p :: |a.seal(k, n, p).tag| == TAG_LEN && |a.seal(k, n, p).ciphertext| == |p|)
    && (forall k, n, p :: a.open(k, n, a.seal(k, n, p)) == Some(p))
    && (forall k, n, c :: a.open(k, n, c).Some? ==> a.seal(k, n, a.open(k, n, c).value) == c)
  }

  /**
   Sealing 16 bytes or more fixes the key. Only that much can be asked of 32-byte keys and
   16-byte tags, and it is what makes a wrong key fail on the wrapped key and on the verifier.
   */
  ghost predicate Committing(a: Aead) {
    forall k, k', n, p :: |k| == |k'| == KEY_LEN && |p| >= 16 && a.seal(k, n, p) == a.seal(k', n, p) ==> k == k'
  }

  function EncryptBytes(a: Aead, magic: Magic, plaintext: Bytes, key: Bytes,
                        nonce: Bytes): (r: Result<Bytes, CryptoError>)
  {
    if |key| != KEY_LEN then Err(KeyLength)
    else
      var s := a.seal(key, nonce, plaintext);
      if |s.tag| != TAG_LEN then Err(TagLength)
      else Ok(magic + [FORMAT_VERSION, ALG_AES_256_GCM] + nonce + s.ciphertext + s.tag)
  }

  function DecryptBytes(a: Aead, magic: Magic, blob: Bytes, key: Bytes): (r: Result<Bytes, CryptoError>) {
    if |key| != KEY_LEN then Err(KeyLength)
    else if |blob| < MIN_BLOB_LEN then Err(Truncated)
    else if blob[..MAGIC_LEN] != magic then Err(BadMagic)
    else if blob[MAGIC_LEN] != FORMAT_VERSION then Err(UnsupportedVersion(blob[MAGIC_LEN]))
    else if blob[MAGIC_LEN + 1] != ALG_AES_256_GCM then Err(UnsupportedAlgorithm(blob[MAGIC_LEN + 1]))
    else
      var nonce := blob[HEADER_LEN..HEADER_LEN + NONCE_LEN];
      var tag := blob[|blob| - TAG_LEN..];
      var ciphertext := blob[HEADER_LEN + NONCE_LEN..|blob| - TAG_LEN];
      match a.open(key, nonce, Sealed(ciphertext, tag))
      case None => Err(DecryptionFailed)
      case Some(p) => Ok(p)
  }

  /** The slices taken by decryption are exactly the parts written by encryption. */
  lemma {:induction false} FramePartition(magic: Magic, nonce: Bytes, s: Sealed)
    requires |nonce| == NONCE_LEN && |s.tag| == TAG_LEN
    ensures var b := magic + [FORMAT_VERSION, ALG_AES_256_GCM] + nonce + s.ciphertext + s.tag;
            && |b| == MIN_BLOB_LEN + |s.ciphertext|
            && b[..MAGIC_LEN] == magic
            && b[MAGIC_LEN] == FORMAT_VERSION
            && b[MAGIC_LEN + 1] == ALG_AES_256_GCM
            && b[HEADER_LEN..HEADER_LEN + NONCE_LEN] == nonce
            && b[HEADER_LEN + NONCE_LEN..|b| - TAG_LEN] == s.ciphertext
            && b[|b| - TAG_LEN..] == s.tag
  {
  }

  /** And put together again they are the blob. */
  lemma Reassemble(magic: Magic, blob: Bytes)
    requires |blob| >= MIN_BLOB_LEN
    requires blob[..MAGIC_LEN] == magic && blob[MAGIC_LEN] == FORMAT_VERSION && blob[MAGIC_LEN + 1] == ALG_AES_256_GCM
    ensures blob == magic + [FORMAT_VERSION, ALG_AES_256_GCM] + blob[HEADER_LEN..HEADER_LEN + NONCE_LEN]
                    + blob[HEADER_LEN + NONCE_LEN..|blob| - TAG_LEN] + blob[|blob| - TAG_LEN..]
  {
    var header := magic + [FORMAT_VERSION, ALG_AES_256_GCM];
    assert header == blob[..HEADER_LEN];
    assert header + blob[HEADER_LEN..HEADER_LEN + NONCE_LEN] == blob[..HEADER_LEN + NONCE_LEN];
    assert blob[..HEADER_LEN + NONCE_LEN] + blob[HEADER_LEN + NONCE_LEN..|blob| - TAG_LEN] == blob[..|blob| - TAG_LEN];
    assert blob[..|blob| - TAG_LEN] + blob[|blob| - TAG_LEN..] == blob;
  }

  /** Decryption accepts a blob exactly when it is an encryption of the answer, bit for bit. */
  lemma DecryptExact(a: Aead, magic: Magic, blob: Bytes, key: Bytes, plaintext: Bytes)
    requires Lawful(a)
    ensures DecryptBytes(a, magic, blob, key) == Ok(plaintext) <==>
            exists nonce: Bytes :: |nonce| == NONCE_LEN && EncryptBytes(a, magic, plaintext, key, nonce) == Ok(blob)
  {
    if DecryptBytes(a, magic, blob, key) == Ok(plaintext) {
      var nonce := blob[HEADER_LEN..HEADER_LEN + NONCE_LEN];
      var s := Sealed(blob[HEADER_LEN + NONCE_LEN..|blob| - TAG_LEN], blob[|blob| - TAG_LEN..]);
      assert s == a.seal(key, nonce, plaintext);
      Reassemble(magic, blob);
      assert EncryptBytes(a, magic, plaintext, key, nonce) == Ok(blob);
    }
    forall nonce: Bytes | |nonce| == NONCE_LEN && EncryptBytes(a, magic, plaintext, key, nonce) == Ok(blob)
      ensures DecryptBytes(a, magic, blob, key) == Ok(plaintext)
    {
      EncryptDecrypt(a, magic, plaintext, key, nonce);
    }
  }

  /** The round trip, for every plaintext, the empty one included. */
  lemma EncryptDecrypt(a: Aead, magic: Magic, plaintext: Bytes, key: Bytes, nonce: Bytes)
    requires Lawful(a) && |key| == KEY_LEN && |nonce| == NONCE_LEN
    ensures var blob := EncryptBytes(a, magic, plaintext, key, nonce);
            && blob.Ok?
            && |blob.value| == MIN_BLOB_LEN + |plaintext|
            && DecryptBytes(a, magic, blob.value, key) == Ok(plaintext)
  {
    var s := a.seal(key, nonce, plaintext);
    FramePartition(magic, nonce, s);
    assert a.open(key, nonce, Sealed(s.ciphertext, s.tag)) == Some(plaintext);
  }

  /** A blob holding 16 bytes or more opens to that plaintext under one key only. */
  lemma OneKeyPerPlaintext(a: Aead, magic: Magic, blob: Bytes, key: Bytes, key': Bytes, plaintext: Bytes)
    requires Lawful(a) && Committing(a) && |plaintext| >= 16
    requires DecryptBytes(a, magic, blob, key) == Ok(plaintext)
    requires DecryptBytes(a, magic, blob, key') == Ok(plaintext)
    ensures key == key'
  {
    var nonce := blob[HEADER_LEN..HEADER_LEN + NONCE_LEN];
    assert a.seal(key, nonce, plaintext) == a.seal(key', nonce, plaintext);
  }

  // The laws are consistent: a (weak) cipher obeys all of them.

  function Add(x: byte, y: byte): byte { ((x as int + y as int) % 256) as byte }
  function Sub(x: byte, y: byte): byte { ((x as int - y as int) % 256) as byte }

  lemma AddSub(x: byte, y: byte, z: byte)
    ensures Add(x, y) == z <==> Sub(z, y) == x
    ensures Add(x, y) == z <==> Sub(z, x) == y
  {
  }

  /** The key, repeated end to end, as byte `i` of a pad. */
  function PadByte(k: Bytes, i: nat): byte {
    if |k| == 0 then 0 else k[i % |k|]
  }

  function ToySeal(k: Bytes, n: Bytes, p: Bytes): Sealed {
    var padded := p + Zeros(TAG_LEN);
    var body := seq(|padded|, i requires 0 <= i < |padded| => Add(padded[i], PadByte(k, i)));
    Sealed(body[..|p|], body[|p|..])
  }

  function ToyOpen(k: Bytes, n: Bytes, s: Sealed): Option<Bytes> {
    var body := s.ciphertext + s.tag;
    var padded := seq(|body|, i requires 0 <= i < |body| => Sub(body[i], PadByte(k, i)));
    if |s.tag| == TAG_LEN && padded[|s.ciphertext|..] == Zeros(TAG_LEN)
    then Some(padded[..|s.ciphertext|]) else None
  }

  lemma ToyOpensExactly(k: Bytes, n: Bytes, s: Sealed, p: Bytes)
    ensures ToyOpen(k, n, s) == Some(p) <==> s == ToySeal(k, n, p)
  {
    forall x: byte, y: byte, z: byte { AddSub(x, y, z); }
    var sealed := ToySeal(k, n, p);
    var body := s.ciphertext + s.tag;
    if ToyOpen(k, n, s) == Some(p) {
      assert |body| == |p| + TAG_LEN;
      forall i | 0 <= i < |body| ensures body[i] == (sealed.ciphertext + sealed.tag)[i] {
        var padded := seq(|body|, j requires 0 <= j < |body| => Sub(body[j], PadByte(k, j)));
        assert padded[..|s.ciphertext|] == p && padded[|s.ciphertext|..] == Zeros(TAG_LEN);
        assert padded[i] == (p + Zeros(TAG_LEN))[i];
      }
      assert body == sealed.ciphertext + sealed.tag;
      assert body[..|p|] == s.ciphertext && body[|p|..] == s.tag;
    }
    if s == sealed {
      var padded := seq(|body|, j requires 0 <= j < |body| => Sub(body[j], PadByte(k, j)));
      assert padded == p + Zeros(TAG_LEN);
    }
  }

  lemma ToyCommits(k: Bytes, k': Bytes, n: Bytes, p: Bytes)
    requires |k| == |k'| == KEY_LEN && |p| >= 16 && ToySeal(k, n, p) == ToySeal(k', n, p)
    ensures k == k'
  {
    forall x: byte, y: byte, z: byte { AddSub(x, y, z); }
    var body := ToySeal(k, n, p).ciphertext + ToySeal(k, n, p).tag;
    forall i | 0 <= i < KEY_LEN ensures k[i] == k'[i] {
      var padded := p + Zeros(TAG_LEN);
      assert body[i] == Add(padded[i], PadByte(k, i)) == Add(padded[i], PadByte(k', i));
    }
  }

  const TOY: Aead := Aead(ToySeal, ToyOpen)

  lemma LawsAreConsistent()
    ensures Lawful(TOY) && Committing(TOY)
  {
    var a := TOY;
    forall k, n, p ensures a.open(k, n, a.seal(k, n, p)) == Some(p) {
      ToyOpensExactly(k, n, a.seal(k, n, p), p);
    }
    forall k, n, c | a.open(k, n, c).Some? ensures a.seal(k, n, a.open(k, n, c).value) == c {
      ToyOpensExactly(k, n, c, a.open(k, n, c).value);
    }
    forall k, k', n, p | |k| == |k'| == KEY_LEN && |p| >= 16 && a.seal(k, n, p) == a.seal(k', n, p) ensures k == k' {
      ToyCommits(k, k', n, p);
    }
  }
}

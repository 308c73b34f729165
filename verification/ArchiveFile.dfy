/**
 The `.arkvault` file around the payload (exportVault.ts): writing it from an unlocked vault, and
 everything an import checks before it writes anything.
 */
module ArchiveFile {
  import opened Common
  import opened Blob
  import opened RestoreLoop
  import opened RecoveryModel
  import opened Export
  import Base64
  import V = VaultModel

  const ARCHIVE_MAGIC: string := "ARKVAULT"
  const ARCHIVE_VERSION: int := 2

  /** The decrypted inner object; only one that says "version 2" carries more than the vault's own rows. */
  datatype Inner = Inner(version2: bool, payload: Payload)

  /** The file as parsed JSON; a field is `None` when it is absent or has the wrong type. */
  datatype Archive = Archive(
    magic: Option<string>,
    formatVersion: Option<int>,
    params: V.ScryptParams,
    kekSalt: Option<string>,
    wrappedDek: Option<string>,
    verifier: Option<string>,
    payload: Option<string>,
    payloadSha256: Option<string>)

  /** Text encodings and the checksum, all abstract. */
  datatype Codec = Codec(
    base64: Bytes -> string,
    unbase64: string -> Bytes,
    sha256: string -> string,
    print_: Inner -> Bytes,
    parse: Bytes -> Option<Inner>)

  /** Base64 is undone for all bytes, and the text of this payload parses back. */
  ghost predicate LawfulCodec(c: Codec, p: Payload) {
    && (forall b :: c.unbase64(c.base64(b)) == b)
    && c.parse(c.print_(Inner(true, p))) == Some(Inner(true, p))
  }

  /** The encoding of `Base64`, and a printer that knows one payload. */
  function CodecFor(p: Payload): Codec {
    Codec(Base64.Encode, Base64.Decode, (s: string) => s, (i: Inner) => [], (b: Bytes) => Some(Inner(true, p)))
  }

  lemma CodecsExist(p: Payload)
    ensures LawfulCodec(CodecFor(p), p)
  {
    forall b: Bytes ensures Base64.Decode(Base64.Encode(b)) == b { Base64.DecodeEncode(b); }
  }

  datatype ImportError =
    | AlreadyHasVault
    | BadJson
    | BadArchiveMagic
    | UnsupportedFormat
    | MissingFields
    | ChecksumMismatch
    | KdfRejected
    | WrongPassword
    | PayloadDamaged(e: CryptoError)
    | PayloadNotJson
    | KeyFileFailed
    | TransactionFailed

  /** `parseArkvault`, in the order of its checks. */
  function ParseArchive(c: Codec, file: Option<Archive>): Result<Archive, ImportError> {
    match file
    case None => Err(BadJson)
    case Some(f) =>
      if f.magic != Some(ARCHIVE_MAGIC) then Err(BadArchiveMagic)
      else if f.formatVersion.None? || f.formatVersion.value > ARCHIVE_VERSION then Err(UnsupportedFormat)
      else if f.payload.None? || f.payloadSha256.None? || f.kekSalt.None? || f.wrappedDek.None? || f.verifier.None?
          then Err(MissingFields)
      else if c.sha256(f.payload.value) != f.payloadSha256.value then Err(ChecksumMismatch)
      else Ok(f)
  }

  /** What an import has in hand once every check has passed. */
  datatype Opening = Opening(row: V.Meta, dek: Bytes, full: bool, payload: Payload)

  /** A version 1 file restores the vault's own rows only. */
  function VaultOnly(p: Payload): Payload {
    Payload(p.clients, [], [], [], [], [], [], [], p.credentials, p.urls, p.items)
  }

  predicate HasAllFields(f: Archive) {
    f.payload.Some? && f.kekSalt.Some? && f.wrappedDek.Some? && f.verifier.Some? && f.formatVersion.Some?
  }

  /** The payload under the key of the row. */
  function ReadPayload(env: V.Env, c: Codec, f: Archive, row: V.Meta, dek: Bytes): Result<Opening, ImportError>
    requires HasAllFields(f)
  {
    match DecryptBytes(env.aead, VAULT_MAGIC, c.unbase64(f.payload.value), dek)
    case Err(e) => Err(PayloadDamaged(e))
    case Ok(bytes) =>
      match c.parse(bytes)
      case None => Err(PayloadNotJson)
      case Some(inner) =>
        var full := f.formatVersion.value >= 2 && inner.version2;
        Ok(Opening(row, dek, full, if full then inner.payload else VaultOnly(inner.payload)))
  }

  /** All checks, from the file to the decrypted payload. */
  function OpenArchive(env: V.Env, c: Codec, file: Option<Archive>, password: string): Result<Opening, ImportError> {
    match ParseArchive(c, file)
    case Err(e) => Err(e)
    case Ok(f) =>
      if !HasAllFields(f) then Err(MissingFields)
      else
        var row := V.Meta(f.params, c.unbase64(f.kekSalt.value), c.unbase64(f.wrappedDek.value),
                          c.unbase64(f.verifier.value));
        match V.DeriveKek(env, password, row.kekSalt, row.params)
        case None => Err(KdfRejected)
        case Some(kek) =>
          match V.OpenRow(env, row, kek)
          case None => Err(WrongPassword)
          case Some(dek) => ReadPayload(env, c, f, row, dek)
  }

  /** The checks on the file itself, before any password: of version 1 or 2, complete, and with the right checksum. */
  predicate Intact(c: Codec, file: Option<Archive>) {
    && file.Some? && Known(file.value) && Whole(file.value)
    && c.sha256(file.value.payload.value) == file.value.payloadSha256.value
  }

  predicate Known(f: Archive) {
    f.magic == Some("ARKVAULT") && f.formatVersion.Some? && f.formatVersion.value <= 2
  }

  predicate Whole(f: Archive) {
    f.payload.Some? && f.payloadSha256.Some? && f.kekSalt.Some? && f.wrappedDek.Some? && f.verifier.Some?
  }

  function RowOf(c: Codec, f: Archive): V.Meta
    requires Whole(f)
  {
    V.Meta(f.params, c.unbase64(f.kekSalt.value), c.unbase64(f.wrappedDek.value), c.unbase64(f.verifier.value))
  }

  /** Why a file is refused before the password counts. */
  lemma ParsesExactly(c: Codec, file: Option<Archive>)
    ensures var r := ParseArchive(c, file);
            && (r == Err(BadJson) <==> file.None?)
            && (r == Err(BadArchiveMagic) <==> file.Some? && file.value.magic != Some("ARKVAULT"))
            && (r == Err(UnsupportedFormat) <==>
                file.Some? && file.value.magic == Some("ARKVAULT") && !Known(file.value))
            && (r == Err(MissingFields) <==> file.Some? && Known(file.value) && !Whole(file.value))
            && (r == Err(ChecksumMismatch) <==>
                file.Some? && Known(file.value) && Whole(file.value) && !Intact(c, file))
            && (r.Ok? <==> Intact(c, file)) && (r.Ok? ==> r.value == file.value)
  {
  }

  /** What is read of the payload: all of it only if file and payload both say version 2. */
  predicate ReadAs(inner: Inner, version: int, o: Opening) {
    && (o.full <==> version == 2 && inner.version2)
    && o.payload.clients == inner.payload.clients && o.payload.credentials == inner.payload.credentials
    && o.payload.urls == inner.payload.urls && o.payload.items == inner.payload.items
    && if o.full then o.payload == inner.payload
       else
         && o.payload.sets == [] && o.payload.transports == [] && o.payload.connections == [] && o.payload.tasks == []
         && o.payload.repos == [] && o.payload.fileTasks == [] && o.payload.replications == []
  }

  /** For any file, also one that was not made by an export: what opens it, and why it does not open. */
  lemma OpensExactly(env: V.Env, c: Codec, file: Option<Archive>, password: string)
    ensures var r := OpenArchive(env, c, file, password);
            if !Intact(c, file) then r.Err? && ParseArchive(c, file) == Err(r.error)
            else
              var f, row := file.value, RowOf(c, file.value);
              var kek := V.DeriveKek(env, password, row.kekSalt, row.params);
              if kek.None? then r == Err(KdfRejected)
              else if V.OpenRow(env, row, kek.value).None? then r == Err(WrongPassword)
              else
                var dek := V.OpenRow(env, row, kek.value).value;
                match DecryptBytes(env.aead, VAULT_MAGIC, c.unbase64(f.payload.value), dek)
                case Err(e) => r == Err(PayloadDamaged(e))
                case Ok(bytes) =>
                  if c.parse(bytes).None? then r == Err(PayloadNotJson)
                  else
                    && r.Ok? && r.value.row == row && r.value.dek == dek
                    && ReadAs(c.parse(bytes).value, f.formatVersion.value, r.value)
  {
    hide V.DeriveKek, V.OpenRow, DecryptBytes, ParseArchive, Intact;
    ParsesExactly(c, file);
  }

  /** The file that carries payload `p` of a vault with this row and live key. */
  function ArchiveOf(c: Codec, row: V.Meta, blob: Bytes): Archive {
    var payload := c.base64(blob);
    Archive(Some(ARCHIVE_MAGIC), Some(ARCHIVE_VERSION), row.params, Some(c.base64(row.kekSalt)),
            Some(c.base64(row.wrappedDek)), Some(c.base64(row.verifier)), Some(payload), Some(c.sha256(payload)))
  }

  datatype ExportError = NotInitialized | Locked | EncryptionFailed

  ghost predicate Archives(env: V.Env, c: Codec, row: V.Meta, dek: Bytes, p: Payload, nonce: Bytes, file: Archive) {
    var blob := EncryptBytes(env.aead, VAULT_MAGIC, c.print_(Inner(true, p)), dek, nonce);
    blob.Ok? && file == ArchiveOf(c, row, blob.value)
  }

  /** `exportVaultBuffer`; a locked vault cannot read its secrets, nor encrypt. */
  method ExportArchive(env: V.Env, c: Codec, v: V.Vault, s: Install, nonce: Bytes)
    returns (r: Result<Archive, ExportError>)
    ensures r.Err? && r.error.NotInitialized? <==> v.row.None?
    ensures r.Err? && r.error.Locked? <==> v.row.Some? && v.session.None?
    ensures r.Ok? ==> v.row.Some? && v.session.Some?
                      && exists p :: Exports(s, p) && Archives(env, c, v.row.value, v.session.value, p, nonce, r.value)
  {
    if v.row.None? { return Err(NotInitialized); }
    if v.session.None? { return Err(Locked); }
    var p := ExportPayload(s);
    match EncryptBytes(env.aead, VAULT_MAGIC, c.print_(Inner(true, p)), v.session.value, nonce) {
      case Err(_) => return Err(EncryptionFailed);
      case Ok(blob) =>
        var file := ArchiveOf(c, v.row.value, blob);
        assert Archives(env, c, v.row.value, v.session.value, p, nonce, file);
        return Ok(file);
    }
  }

  /**
   An exported file opens with exactly the passwords that open the vault, and gives back the
   vault's row, its key and the payload.
   */
  lemma ExportedFileOpens(env: V.Env, c: Codec, row: V.Meta, dek: Bytes, p: Payload, nonce: Bytes, file: Archive,
                          password: string)
    requires V.LawfulEnv(env) && LawfulCodec(c, p) && |nonce| == NONCE_LEN
    requires Archives(env, c, row, dek, p, nonce, file)
    requires forall kek, k :: V.OpenRow(env, row, kek) == Some(k) ==> k == dek
    ensures var kek := V.DeriveKek(env, password, row.kekSalt, row.params);
            var opening := OpenArchive(env, c, Some(file), password);
            if kek.None? then opening == Err(KdfRejected)
            else if V.OpenRow(env, row, kek.value) == Some(dek) then opening == Ok(Opening(row, dek, true, p))
            else opening == Err(WrongPassword)
  {
    hide V.DeriveKek, V.OpenRow, EncryptBytes, DecryptBytes;
    assert c.unbase64(c.base64(row.kekSalt)) == row.kekSalt && c.unbase64(c.base64(row.wrappedDek)) == row.wrappedDek
        && c.unbase64(c.base64(row.verifier)) == row.verifier;
    var plaintext := c.print_(Inner(true, p));
    var blob := EncryptBytes(env.aead, VAULT_MAGIC, plaintext, dek, nonce).value;
    var kek := V.DeriveKek(env, password, row.kekSalt, row.params);
    if kek.Some? && V.OpenRow(env, row, kek.value).Some? {
      EncryptDecrypt(env.aead, VAULT_MAGIC, plaintext, dek, nonce);
      assert c.unbase64(c.base64(blob)) == blob;
    }
  }
}

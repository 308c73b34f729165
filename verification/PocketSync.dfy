/**
 Arkode Pocket end to end (pocket-shared, crypto.ts, format.ts, pairing.ts): the encrypted sync
 file that Desktop publishes and the phone opens, and the QR payload that carries the key.
 */
module PocketSync {
  import opened Common
  import opened JsonValues
  import opened Blob
  import opened PocketPayload
  import Base64
  import V = VaultModel

  const FILE_MAGIC: string := "ARKPKT"
  const FILE_VERSION: real := 1.0
  const PAIRING_VERSION: real := 1.0

  /** Each platform's cipher and text functions. */
  datatype Platform = Platform(aead: Aead, json: JsonText, utf8: string -> Bytes, text: Bytes -> string)

  /** The text of this value survives encoding as UTF-8, and parses back. */
  predicate Carries(p: Platform, j: Json) {
    p.text(p.utf8(p.json.print_(j))) == p.json.print_(j) && ReadsBack(p.json, j)
  }

  datatype PocketError = Crypto(crypto: CryptoError) | Format(format: FormatError)

  // The blob: `encryptPocketBlob` and `decryptPocketBlob` build and cut the bytes of the shared layout.

  method EncryptPocketBlob(a: Aead, plaintext: Bytes, key: Bytes, nonce: Bytes) returns (r: Result<Bytes, CryptoError>)
    ensures r == EncryptBytes(a, POCKET_MAGIC, plaintext, key, nonce)
  {
    if |key| != KEY_LEN { return Err(KeyLength); }
    var s := a.seal(key, nonce, plaintext);
    if |s.tag| != TAG_LEN { return Err(TagLength); }
    var chunks := [POCKET_MAGIC, [FORMAT_VERSION, ALG_AES_256_GCM], nonce, s.ciphertext, s.tag];
    var out := Base64.ConcatBytes(chunks);
    JoinFive(chunks[0], chunks[1], chunks[2], chunks[3], chunks[4]);
    return Ok(out[..]);
  }

  lemma JoinFive(a: Bytes, b: Bytes, c: Bytes, d: Bytes, e: Bytes)
    ensures Base64.Concat([a, b, c, d, e]) == a + b + c + d + e
  {
    assert [a, b, c, d, e][..4] == [a, b, c, d] && [a, b, c, d][..3] == [a, b, c] && [a, b, c][..2] == [a, b]
           && [a, b][..1] == [a] && [a][..0] == [];
    assert Base64.Concat([a]) == a;
    assert Base64.Concat([a, b]) == a + b;
    assert Base64.Concat([a, b, c]) == a + b + c;
    assert Base64.Concat([a, b, c, d]) == a + b + c + d;
  }

  method DecryptPocketBlob(a: Aead, blob: Bytes, key: Bytes) returns (r: Result<Bytes, CryptoError>)
    ensures r == DecryptBytes(a, POCKET_MAGIC, blob, key)
  {
    if |key| != KEY_LEN { return Err(KeyLength); }
    if |blob| < MIN_BLOB_LEN { return Err(Truncated); }
    var magic := Base64.BytesEqual(blob[..MAGIC_LEN], POCKET_MAGIC);
    if !magic { return Err(CryptoError.BadMagic); }
    var version, alg := blob[MAGIC_LEN], blob[MAGIC_LEN + 1];
    if version != FORMAT_VERSION { return Err(CryptoError.UnsupportedVersion(version)); }
    if alg != ALG_AES_256_GCM { return Err(UnsupportedAlgorithm(alg)); }
    var nonce := blob[HEADER_LEN..HEADER_LEN + NONCE_LEN];
    var tag := blob[|blob| - TAG_LEN..];
    var ciphertext := blob[HEADER_LEN + NONCE_LEN..|blob| - TAG_LEN];
    match a.open(key, nonce, Sealed(ciphertext, tag)) {
      case None => return Err(DecryptionFailed);
      case Some(p) => return Ok(p);
    }
  }

  // The sync file.

  datatype SyncFile = SyncFile(formatVersion: real, pocketId: string, revision: real, generatedAt: string,
                               payload: string)

  /** `buildPocketSyncFile`. */
  function Build(p: Platform, s: Snapshot, key: Bytes, nonce: Bytes, pocketId: string, revision: real,
                 generatedAt: string): Result<SyncFile, CryptoError>
  {
    match EncryptBytes(p.aead, POCKET_MAGIC, p.utf8(p.json.print_(SnapshotJson(s))), key, nonce)
    case Err(e) => Err(e)
    case Ok(blob) => Ok(SyncFile(FILE_VERSION, pocketId, revision, generatedAt, Base64.Encode(blob)))
  }

  const FILE_FIELDS: set<Field> := {Magic, FormatVersion, PocketId, Revision, GeneratedAt, Payload}

  function FileField(f: SyncFile, field: Field): Json {
    match field
    case Magic => Str(FILE_MAGIC)
    case FormatVersion => Num(f.formatVersion)
    case PocketId => Str(f.pocketId)
    case Revision => Num(f.revision)
    case GeneratedAt => Str(f.generatedAt)
    case _ => Str(f.payload)
  }

  function FileFieldsOf(f: SyncFile): Field -> Json { (field: Field) => FileField(f, field) }

  function FileJson(f: SyncFile): Json {
    Obj(Object(FILE_FIELDS, FileFieldsOf(f)))
  }

  /** `serializePocketSyncFile`. */
  function Serialize(p: Platform, f: SyncFile): Bytes {
    p.utf8(p.json.print_(FileJson(f)))
  }

  /** JavaScript's `typeof v === 'object'`: an array passes, and has no named fields. */
  function AsObject(v: Json): Option<Fields> {
    if v.Obj? then Some(v.fields) else if v.Arr? then Some(map[]) else None
  }

  /** `parsePocketSyncFile`. */
  function Parse(p: Platform, raw: Bytes): Result<SyncFile, FormatError> {
    match p.json.parse(p.text(raw))
    case None => Err(BadJson)
    case Some(v) =>
      if AsObject(v).None? then Err(NotAnObject)
      else
        var o := AsObject(v).value;
        if TextAt(o, Magic) != Some(FILE_MAGIC) then Err(FormatError.BadMagic)
        else if NumberAt(o, FormatVersion).None? || NumberAt(o, FormatVersion).value > FILE_VERSION
            then Err(FormatError.UnsupportedVersion)
        else if TextAt(o, PocketId).None? || NumberAt(o, Revision).None? || TextAt(o, GeneratedAt).None?
            || TextAt(o, Payload).None? then Err(MissingFields)
        else
          Ok(SyncFile(NumberAt(o, FormatVersion).value, TextAt(o, PocketId).value, NumberAt(o, Revision).value,
                      TextAt(o, GeneratedAt).value, TextAt(o, Payload).value))
  }

  /** `decryptPocketSnapshotPayload`. */
  function Open(p: Platform, f: SyncFile, key: Bytes): Result<Snapshot, PocketError> {
    match DecryptBytes(p.aead, POCKET_MAGIC, Base64.Decode(f.payload), key)
    case Err(e) => Err(Crypto(e))
    case Ok(plaintext) =>
      match p.json.parse(p.text(plaintext))
      case None => Err(Format(BadJson))
      case Some(v) =>
        match Validate(v)
        case Err(e) => Err(Format(e))
        case Ok(s) => Ok(s)
  }

  lemma FileReads(f: SyncFile)
    ensures var o := Object(FILE_FIELDS, FileFieldsOf(f));
            && TextAt(o, Magic) == Some(FILE_MAGIC) && NumberAt(o, FormatVersion) == Some(f.formatVersion)
            && TextAt(o, PocketId) == Some(f.pocketId) && NumberAt(o, Revision) == Some(f.revision)
            && TextAt(o, GeneratedAt) == Some(f.generatedAt) && TextAt(o, Payload) == Some(f.payload)
  {
    hide Object, Text, TextAt;
    var value := FileFieldsOf(f);
    ReadsText(FILE_FIELDS, value, Magic, Some(FILE_MAGIC));
    ReadsText(FILE_FIELDS, value, PocketId, Some(f.pocketId));
    ReadsText(FILE_FIELDS, value, GeneratedAt, Some(f.generatedAt));
    ReadsText(FILE_FIELDS, value, Payload, Some(f.payload));
    ObjectAt(FILE_FIELDS, value, FormatVersion);
    ObjectAt(FILE_FIELDS, value, Revision);
  }

  /** The platform does its part for this publication: the cipher is lawful, and the two texts that are sent arrive. */
  ghost predicate Delivers(p: Platform, s: Snapshot, key: Bytes, nonce: Bytes, pocketId: string, revision: real,
                           generatedAt: string)
  {
    var file := Build(p, s, key, nonce, pocketId, revision, generatedAt);
    Lawful(p.aead) && Carries(p, SnapshotJson(s)) && (file.Ok? ==> Carries(p, FileJson(file.value)))
  }

  /** Text that carries any list of values, over the toy cipher. */
  function ToyPlatform(values: seq<Json>): Platform {
    Platform(TOY, Places(values), V.ToyUtf8, V.ToyText)
  }

  lemma ToyCarries(values: seq<Json>, j: Json)
    requires j in values
    ensures Carries(ToyPlatform(values), j)
  {
    TextsExist(values, j);
    V.ToyTextRoundTrip(Places(values).print_(j));
  }

  /** Every publication has a platform that delivers it. */
  lemma PlatformsExist(s: Snapshot, key: Bytes, nonce: Bytes, pocketId: string, revision: real, generatedAt: string)
    returns (p: Platform)
    requires |key| == KEY_LEN && |nonce| == NONCE_LEN
    ensures Delivers(p, s, key, nonce, pocketId, revision, generatedAt)
  {
    hide SnapshotJson, FileJson, Base64.Encode, EncryptBytes;
    LawsAreConsistent();
    var first := SnapshotJson(s);
    var alone := Build(ToyPlatform([first]), s, key, nonce, pocketId, revision, generatedAt);
    var values := if alone.Ok? then [first, FileJson(alone.value)] else [first];
    p := ToyPlatform(values);
    assert p.json.print_(first) == "" == ToyPlatform([first]).json.print_(first);
    ToyCarries(values, first);
    if alone.Ok? { ToyCarries(values, FileJson(alone.value)); }
  }

  /** The file arrives whatever the snapshot is; opening it gives what the validator makes of the printed snapshot. */
  lemma FileArrives(p: Platform, s: Snapshot, key: Bytes, nonce: Bytes, pocketId: string, revision: real,
                    generatedAt: string)
    requires Delivers(p, s, key, nonce, pocketId, revision, generatedAt)
    requires |key| == KEY_LEN && |nonce| == NONCE_LEN
    ensures var file := Build(p, s, key, nonce, pocketId, revision, generatedAt);
            && file.Ok? && Parse(p, Serialize(p, file.value)) == Ok(file.value)
            && (Validate(SnapshotJson(s)).Ok? <==> Open(p, file.value, key).Ok?)
            && (Validate(SnapshotJson(s)).Ok? ==> Open(p, file.value, key) == Ok(Validate(SnapshotJson(s)).value))
  {
    hide EncryptBytes, DecryptBytes, SnapshotJson, Validate, Object, TextAt, NumberAt, Base64.Encode, Base64.Decode;
    var plaintext := p.utf8(p.json.print_(SnapshotJson(s)));
    EncryptDecrypt(p.aead, POCKET_MAGIC, plaintext, key, nonce);
    var file := Build(p, s, key, nonce, pocketId, revision, generatedAt).value;
    FileReads(file);
    Base64.DecodeEncode(EncryptBytes(p.aead, POCKET_MAGIC, plaintext, key, nonce).value);
  }

  /** Build, serialize, parse, decrypt, validate: the phone gets back the snapshot that Desktop published. */
  lemma PocketRoundTrip(p: Platform, s: Snapshot, key: Bytes, nonce: Bytes, pocketId: string, revision: real,
                        generatedAt: string)
    requires Delivers(p, s, key, nonce, pocketId, revision, generatedAt)
    requires Normal(s) && |key| == KEY_LEN && |nonce| == NONCE_LEN
    ensures var file := Build(p, s, key, nonce, pocketId, revision, generatedAt);
            && file.Ok? && Parse(p, Serialize(p, file.value)) == Ok(file.value) && Open(p, file.value, key) == Ok(s)
  {
    hide Delivers, Build, Parse, Serialize, Open, SnapshotJson, Validate, Normal;
    FileArrives(p, s, key, nonce, pocketId, revision, generatedAt);
    ValidateInvertsPrint(s);
  }

  predicate IsNumber(v: Json, name: string)
    requires v.Obj?
  {
    name in v.fields && v.fields[name].Num?
  }

  /** The object around the encrypted payload. */
  predicate FileFits(v: Json) {
    && v.Obj? && "magic" in v.fields && v.fields["magic"] == Str("ARKPKT")
    && IsNumber(v, "formatVersion") && v.fields["formatVersion"].n <= 1.0
    && IsText(v, "pocketId") && IsNumber(v, "revision") && IsText(v, "generatedAt") && IsText(v, "payload")
  }

  /** A file is read if and only if its text is such an object, whatever else that holds. */
  lemma FilesReadExactly(p: Platform, raw: Bytes)
    ensures Parse(p, raw).Ok? <==> p.json.parse(p.text(raw)).Some? && FileFits(p.json.parse(p.text(raw)).value)
  {
    assert Text(Magic) == "magic" && Text(FormatVersion) == "formatVersion" && Text(PocketId) == "pocketId"
        && Text(Revision) == "revision" && Text(GeneratedAt) == "generatedAt" && Text(Payload) == "payload";
    hide Text;
  }

  /** Whatever opens is normal, and would be published as it is. */
  lemma OpenedIsNormal(p: Platform, f: SyncFile, key: Bytes)
    requires Open(p, f, key).Ok?
    ensures Normal(Open(p, f, key).value)
  {
    hide DecryptBytes, Validate, Normal, Base64.Decode;
    var plaintext := DecryptBytes(p.aead, POCKET_MAGIC, Base64.Decode(f.payload), key).value;
    ValidIsNormal(p.json.parse(p.text(plaintext)).value);
  }

  // Pairing.

  datatype DriveHint = DriveHint(fileId: Option<string>, remotePath: string, fileName: string)
  datatype Pairing = Pairing(pocketId: string, dek: string, drive: DriveHint)

  /** `buildPairingPayload`. */
  function BuildPairing(pocketId: string, dek: Bytes, drive: DriveHint): Result<Pairing, FormatError> {
    if |dek| != KEY_LEN then Err(MalformedKey) else Ok(Pairing(pocketId, Base64.Encode(dek), drive))
  }

  const DRIVE_FIELDS: set<Field> := {FileId, RemotePath, FileName}
  const PAIRING_FIELDS: set<Field> := {PairingVersion, PocketId, Dek, Drive}

  function DriveFieldsOf(d: DriveHint): Field -> Json {
    (f: Field) => if f.FileId? then OptText(d.fileId) else if f.RemotePath? then Str(d.remotePath) else Str(d.fileName)
  }

  function PairingFieldsOf(q: Pairing): Field -> Json {
    (f: Field) => if f.PairingVersion? then Num(PAIRING_VERSION) else if f.PocketId? then Str(q.pocketId) else if f.Dek?
      then Str(q.dek)
                  else Obj(Object(DRIVE_FIELDS, DriveFieldsOf(q.drive)))
  }

  function PairingJson(q: Pairing): Json {
    Obj(Object(PAIRING_FIELDS, PairingFieldsOf(q)))
  }

  function SerializePairing(p: Platform, q: Pairing): string {
    p.json.print_(PairingJson(q))
  }

  /** `parsePairingPayload`. */
  function ParsePairing(p: Platform, text: string): Result<Pairing, FormatError> {
    match p.json.parse(text)
    case None => Err(BadJson)
    case Some(v) =>
      if AsObject(v).None? then Err(NotAnObject)
      else
        var o := AsObject(v).value;
        if NumberAt(o, PairingVersion) != Some(PAIRING_VERSION) then Err(FormatError.UnsupportedVersion)
        else if TextAt(o, PocketId).None? || TextAt(o, Dek).None? || Text(Drive) !in o || AsObject(o[Text(Drive)]).None?
            then Err(MissingFields)
        else
          var d := AsObject(o[Text(Drive)]).value;
          if TextAt(d, RemotePath).None? || TextAt(d, FileName).None? then Err(MissingFields)
          else if |Base64.Decode(TextAt(o, Dek).value)| != KEY_LEN then Err(MalformedKey)
          else
            Ok(Pairing(TextAt(o, PocketId).value, TextAt(o, Dek).value,
                       DriveHint(TextAt(d, FileId), TextAt(d, RemotePath).value, TextAt(d, FileName).value)))
  }

  /** `pairingPayloadDek`. */
  function PairingDek(q: Pairing): Bytes {
    Base64.Decode(q.dek)
  }

  lemma PairingReads(q: Pairing)
    ensures var o := Object(PAIRING_FIELDS, PairingFieldsOf(q));
            var d := Object(DRIVE_FIELDS, DriveFieldsOf(q.drive));
            && NumberAt(o, PairingVersion) == Some(PAIRING_VERSION) && TextAt(o, PocketId) == Some(q.pocketId)
              && TextAt(o, Dek) == Some(q.dek)
            && Text(Drive) in o && o[Text(Drive)] == Obj(d)
            && TextAt(d, FileId) == q.drive.fileId && TextAt(d, RemotePath) == Some(q.drive.remotePath)
              && TextAt(d, FileName) == Some(q.drive.fileName)
  {
    hide Object, Text, TextAt;
    ReadsText(PAIRING_FIELDS, PairingFieldsOf(q), PocketId, Some(q.pocketId));
    ReadsText(PAIRING_FIELDS, PairingFieldsOf(q), Dek, Some(q.dek));
    ObjectAt(PAIRING_FIELDS, PairingFieldsOf(q), PairingVersion);
    ObjectAt(PAIRING_FIELDS, PairingFieldsOf(q), Drive);
    ReadsText(DRIVE_FIELDS, DriveFieldsOf(q.drive), FileId, q.drive.fileId);
    ReadsText(DRIVE_FIELDS, DriveFieldsOf(q.drive), RemotePath, Some(q.drive.remotePath));
    ReadsText(DRIVE_FIELDS, DriveFieldsOf(q.drive), FileName, Some(q.drive.fileName));
  }

  /** Scanning the code gives back the key, bit for bit, and the place to fetch the file from. */
  lemma PairingRoundTrip(p: Platform, pocketId: string, dek: Bytes, drive: DriveHint)
    requires |dek| == KEY_LEN && ReadsBack(p.json, PairingJson(BuildPairing(pocketId, dek, drive).value))
    ensures var q := BuildPairing(pocketId, dek, drive).value;
            ParsePairing(p, SerializePairing(p, q)) == Ok(q) && PairingDek(q) == dek
  {
    hide Object, Text, TextAt, NumberAt, Base64.Encode, Base64.Decode, DriveFieldsOf, PairingFieldsOf;
    var q := BuildPairing(pocketId, dek, drive).value;
    PairingReads(q);
    Base64.DecodeEncode(dek);
  }

  predicate CodeFits(v: Json) {
    && v.Obj? && "v" in v.fields && v.fields["v"] == Num(1.0) && IsText(v, "pocketId") && IsText(v, "dek")
    && "drive" in v.fields && v.fields["drive"].Obj?
    && IsText(v.fields["drive"], "remotePath") && IsText(v.fields["drive"], "fileName")
    && |Base64.Decode(v.fields["dek"].s)| == 32
  }

  /** A code is accepted if and only if its text is such an object, whatever else that holds. */
  lemma CodesReadExactly(p: Platform, text: string)
    ensures ParsePairing(p, text).Ok? <==> p.json.parse(text).Some? && CodeFits(p.json.parse(text).value)
  {
    assert Text(PairingVersion) == "v" && Text(PocketId) == "pocketId" && Text(Dek) == "dek" && Text(Drive) == "drive"
        && Text(RemotePath) == "remotePath" && Text(FileName) == "fileName";
    hide Text, Base64.Decode;
  }

  /** Every code that is accepted holds a 32-byte key. */
  lemma AcceptedCodesHaveAKey(p: Platform, text: string)
    requires ParsePairing(p, text).Ok?
    ensures |PairingDek(ParsePairing(p, text).value)| == KEY_LEN
  {
    hide Object, Text, TextAt, Base64.Decode;
  }
}

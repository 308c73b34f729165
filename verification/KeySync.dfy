/**
 The bridge from a vault credential to the connection that backups use (syncOperationalCopy.ts):
 a key file written first, then one transaction over rows and secrets, then the old key file retired.
 `Sync` says what one call makes of an installation; `Bridge` does it step by step.
 */
module KeySync {
  import opened Common
  import opened JsonValues
  import opened RestoreLoop
  import opened RecoveryModel
  import Blobs = CredentialBlob

  /** The tables, secrets and files that the bridge reads and writes. */
  datatype State = State(
    transports: map<Id, Transport>,
    connections: map<Id, Connection>,
    credentials: map<Id, Credential>,
    secrets: map<Ref, string>,
    blobs: map<Ref, Json>,
    keyFiles: map<Path, Bytes>)

  /** What the outside world does during one call. */
  datatype Io = Io(
    vaultOpen: bool,
    /** The id drawn for a new row, and the names drawn for a new key file. */
    id: Id,
    dest: Path,
    tmp: Path,
    mkdir: bool,
    fault: KeyFault,
    partial: Option<Bytes>,
    /** Some statement of the transaction, or its commit, throws. */
    dbFails: bool,
    unlinks: Path -> bool,
    /** Recording the error state succeeds. */
    marks: bool,
    encode: string -> Bytes)

  ghost predicate FreshIo(io: Io, s: State) {
    && io.dest != io.tmp && io.dest !in s.keyFiles && io.tmp !in s.keyFiles
    && io.id !in s.transports && io.id !in s.connections
  }

  datatype Answer = NotFound | VaultLocked | UnlinkFailed | Answered(ok: bool, state: SyncState)

  /** A value that `if (secret.x)` accepts. */
  function Field(secret: Blobs.Secret, key: string): Option<string> {
    if key in secret.fields && secret.fields[key] != "" then Some(secret.fields[key]) else None
  }

  predicate KeyedKind(k: CredentialKind) { k.KindSsh? || k.KindSftp? || k.KindSshKey? }

  function KindOf(k: CredentialKind): TransportKind {
    if k.KindFtp? then Ftp else if k.KindSftp? then Sftp else Ssh
  }

  function EngineOf(k: CredentialKind): Engine {
    if k.KindPostgres? then Postgres else if k.KindMysql? then Mysql else Mariadb
  }

  function DbPasswordRef(cid: Id): Ref { OtherRef("vault-operational:dbconn:" + cid.text) }
  function PassphraseRef(cid: Id): Ref { OtherRef("vault-operational:transport-passphrase:" + cid.text) }
  function PasswordRef(cid: Id): Ref { OtherRef("vault-operational:transport-password:" + cid.text) }

  function LinkedTransport(s: State, c: Credential): Option<Transport> {
    if c.linkedTransportId.Some? && c.linkedTransportId.value in s.transports
        then Some(s.transports[c.linkedTransportId.value]) else None
  }

  /** `setLink` and the state stamp, the last writes of the transaction. */
  function Stamped(s: State, cid: Id, c: Credential): Option<State> {
    if AcceptableLink(c) then Some(s.(credentials := s.credentials[cid := c.(sync := SyncOk)])) else None
  }

  // `applyOperationalCopy`; `None` when it throws.

  /** The row of the copy: the linked one with its new values, or a new one. */
  function ConnectionRow(c: Credential, existing: Option<Connection>, ref: Option<Ref>): Connection
    requires Present(c.info.host) && Present(c.info.username) && Present(c.info.databaseName) && c.info.port.Some?
  {
    var i := c.info;
    if existing.Some? then
      existing.value.(host := i.host.value, port := i.port.value, databaseName := i.databaseName.value,
                      username := i.username.value, passwordRef := if ref.Some? then ref
                        else existing.value.passwordRef)
    else
      Connection(c.clientId, i.name + " (bóveda)", EngineOf(i.kind), i.host.value, i.port.value, i.databaseName.value,
                 i.username.value, ref, None, true)
  }

  function ApplyDatabase(s: State, cid: Id, c: Credential, secret: Blobs.Secret, id: Id): Option<State> {
    var i := c.info;
    if !Present(i.host) || !Present(i.username) || !Present(i.databaseName) || i.port.None? || i.port.value == 0
        then None
    else
      var password := Field(secret, "password");
      var ref := if password.Some? then Some(DbPasswordRef(cid)) else None;
      var secrets := if password.Some? then s.secrets[DbPasswordRef(cid) := password.value] else s.secrets;
      if c.linkedConnectionId.Some? then
        var linked := c.linkedConnectionId.value;
        if linked !in s.connections then None
        else
          Some(s.(secrets := secrets, connections := s.connections[linked :=
                                                                   ConnectionRow(c, Some(s.connections[linked]), ref)],
                                                                       credentials :=
                                                                         s.credentials[cid := c.(sync := SyncOk)]))
      else
        Stamped(s.(secrets := secrets, connections := s.connections[id := ConnectionRow(c, None, ref)]), cid,
                c.(linkedConnectionId := Some(id)))
  }

  /** The references a transport ends with, and the secrets under them. */
  function TransportSecretsOf(s: State, cid: Id, kind: CredentialKind, existing: Option<Transport>,
                              secret: Blobs.Secret)
    : (Option<Ref>, Option<Ref>, map<Ref, string>)
  {
    var phraseRef := if existing.Some? then existing.value.passphraseRef else None;
    var passRef := if existing.Some? then existing.value.passwordRef else None;
    if KeyedKind(kind) then
      var phrase := Field(secret, "privateKeyPassphrase");
      if phrase.Some? then
        var ref := phraseRef.GetOr(PassphraseRef(cid));
        (Some(ref), passRef, s.secrets[ref := phrase.value])
      else if phraseRef.Some? then (None, passRef, s.secrets - {phraseRef.value})
      else (None, passRef, s.secrets)
    else
      var password := Field(secret, "password");
      if password.Some? then
        var ref := passRef.GetOr(PasswordRef(cid));
        (phraseRef, Some(ref), s.secrets[ref := password.value])
      else (phraseRef, passRef, s.secrets)
  }

  /** The row of the copy: the linked one with its new values, or a new one. */
  function TransportRow(c: Credential, existing: Option<Transport>, path: Option<Path>, phraseRef: Option<Ref>,
                        passRef: Option<Ref>): Transport
    requires Present(c.info.host) && Present(c.info.username)
  {
    var i := c.info;
    if existing.Some? then
      existing.value.(host := i.host.value, port := i.port.GetOr(existing.value.port), username := i.username.value,
                      keyPath := if KeyedKind(i.kind) then path
                        else existing.value.keyPath, passphraseRef := phraseRef, passwordRef := passRef)
    else if i.kind.KindFtp? then
      Transport(c.clientId, i.name + " (bóveda)", Ftp, i.host.value, i.port.GetOr(21), i.username.value, None, None,
                passRef, None, true)
    else
      Transport(c.clientId, i.name + " (bóveda)", KindOf(i.kind), i.host.value, i.port.GetOr(22), i.username.value,
                path, phraseRef, None, None, true)
  }

  function ApplyTransport(s: State, cid: Id, c: Credential, secret: Blobs.Secret, keyPath: Option<Path>,
                          id: Id): Option<State>
  {
    var existing := LinkedTransport(s, c);
    var path := if keyPath.Some? then keyPath else if existing.Some? then existing.value.keyPath else None;
    if !Present(c.info.host) || !Present(c.info.username) || (KeyedKind(c.info.kind) && !Present(path)) then None
    else
      var (phraseRef, passRef, secrets) := TransportSecretsOf(s, cid, c.info.kind, existing, secret);
      var row := TransportRow(c, existing, path, phraseRef, passRef);
      if existing.Some? then
        Some(s.(secrets := secrets, transports := s.transports[c.linkedTransportId.value := row],
                credentials := s.credentials[cid := c.(sync := SyncOk)]))
      else Stamped(s.(secrets := secrets, transports := s.transports[id := row]), cid,
                   c.(linkedTransportId := Some(id)))
  }

  function ApplyCopy(s: State, cid: Id, c: Credential, secret: Blobs.Secret, keyPath: Option<Path>,
                     id: Id): Option<State>
  {
    if LinksConnection(c.info.kind) then ApplyDatabase(s, cid, c, secret, id)
    else if LinksTransport(c.info.kind) then ApplyTransport(s, cid, c, secret, keyPath, id)
    else None
  }

  /** The transaction: the blob is written again when the caller brought the secret, then the copy is applied. */
  function Transaction(io: Io, s: State, cid: Id, c: Credential, given: Option<Blobs.Secret>, secret: Blobs.Secret,
                       keyPath: Option<Path>): Option<State>
  {
    if io.dbFails || (given.Some? && c.blobRef.Some? && !io.vaultOpen) then None
    else
      var s1 := if given.Some? && c.blobRef.Some? then s.(blobs := s.blobs[c.blobRef.value := Blobs.ToJson(secret)])
        else s;
      ApplyCopy(s1, cid, c, secret, keyPath, io.id)
  }

  /** The key directory after a key could not be written, and its remains were removed as far as possible. */
  function AfterFailedWrite(io: Io, files: map<Path, Bytes>, key: Bytes): map<Path, Bytes> {
    match io.fault
    case WriteFails => if io.partial.Some? && !io.unlinks(io.tmp) then files[io.tmp := io.partial.value] else files
    case RenameFails => if io.unlinks(io.tmp) then files else files[io.tmp := key]
    case _ => if io.unlinks(io.dest) then files else files[io.dest := key]
  }

  predicate Referenced(transports: map<Id, Transport>, path: Path) {
    exists t :: t in transports && transports[t].keyPath == Some(path)
  }

  /** `deleteKeyFileIfUnreferenced`. */
  function Retired(io: Io, s: State, path: Path): State {
    if !Referenced(s.transports, path) && io.unlinks(path) then s.(keyFiles := s.keyFiles - {path}) else s
  }

  /** The end of every failed call: everything as before, but for the error state and what could not be removed. */
  function Failed(io: Io, s: State, cid: Id, c: Credential, files: map<Path, Bytes>): State {
    s.(keyFiles := files, credentials := if io.marks then s.credentials[cid := c.(sync := SyncError)]
       else s.credentials)
  }

  /** The part of the call that may leave an error state: key file, transaction, retiring the old key file. */
  function Copied(io: Io, s: State, cid: Id, c: Credential, given: Option<Blobs.Secret>,
                  secret: Blobs.Secret): (State, Answer)
  {
    var key := if KeyedKind(c.info.kind) then Field(secret, "privateKey") else None;
    if key.Some? && !io.mkdir then (Failed(io, s, cid, c, s.keyFiles), Answered(false, SyncError))
    else if key.Some? && !io.fault.NoFault? then
      (Failed(io, s, cid, c, AfterFailedWrite(io, s.keyFiles, io.encode(key.value))), Answered(false, SyncError))
    else
      var files := if key.Some? then s.keyFiles[io.dest := io.encode(key.value)] else s.keyFiles;
      match Transaction(io, s.(keyFiles := files), cid, c, given, secret, if key.Some? then Some(io.dest) else None)
      case None =>
        (Failed(io, s, cid, c, if key.Some? && !io.unlinks(io.dest) then files else s.keyFiles),
         Answered(false, SyncError))
      case Some(s1) =>
        var oldPath := if LinkedTransport(s, c).Some? then LinkedTransport(s, c).value.keyPath else None;
        (if key.Some? && Present(oldPath) && oldPath.value != io.dest then Retired(io, s1, oldPath.value)
         else s1, Answered(true, SyncOk))
  }

  predicate NeedsVault(io: Io, s: State, c: Credential, given: Option<Blobs.Secret>) {
    given.None? && c.blobRef.Some? && c.blobRef.value in s.blobs && !io.vaultOpen
  }

  function SecretFor(s: State, c: Credential, given: Option<Blobs.Secret>): Blobs.Secret {
    if given.Some? then given.value else Blobs.Read(SecretAt(s.blobs, c.blobRef))
  }

  /** `syncOperationalCopy`. */
  function Sync(io: Io, s: State, cid: Id, useForBackups: bool, given: Option<Blobs.Secret>): (State, Answer) {
    if cid !in s.credentials then (s, NotFound)
    else
      var c := s.credentials[cid];
      if !useForBackups then
        if io.dbFails then (s, UnlinkFailed)
        else
          (s.(credentials := s.credentials[cid := c.(linkedTransportId := None, linkedConnectionId := None,
                                                     sync := SyncNone)]), Answered(true, SyncNone))
      else if !LinksTransport(c.info.kind) && !LinksConnection(c.info.kind) then (s, Answered(false, SyncError))
      else if NeedsVault(io, s, c, given) then (s, VaultLocked)
      else Copied(io, s, cid, c, given, SecretFor(s, c, given))
  }

  /** A credential in use for backups. */
  predicate Linked(c: Credential) {
    c.linkedTransportId.Some? || c.linkedConnectionId.Some?
  }

  datatype Call = Call(io: Io, cid: Id, useForBackups: bool, given: Option<Blobs.Secret>)

  function After(s: State, calls: seq<Call>): State {
    if calls == [] then s
    else
      var n := |calls| - 1;
      Sync(calls[n].io, After(s, calls[..n]), calls[n].cid, calls[n].useForBackups, calls[n].given).0
  }

  /** Ids and file names of different calls are different (they are random UUIDs). */
  predicate Apart(a: Io, b: Io) {
    a.id != b.id && a.dest != b.dest && a.dest != b.tmp && a.tmp != b.dest && a.tmp != b.tmp
  }

  ghost predicate FreshCalls(s: State, calls: seq<Call>) {
    && (forall i :: 0 <= i < |calls| ==> FreshIo(calls[i].io, s))
    && (forall i, j :: 0 <= i < j < |calls| ==> Apart(calls[i].io, calls[j].io))
  }

  function ResyncCalls(ids: seq<Id>, ios: nat -> Io): seq<Call> {
    seq(|ids|, i requires 0 <= i < |ids| => Call(ios(i), ids[i], true, None))
  }

  class Bridge {
    var s: State

    constructor (s: State)
      ensures this.s == s
    {
      this.s := s;
    }

    method MaterializeKeyFile(io: Io, key: Bytes) returns (ok: bool)
      requires FreshIo(io, s)
      modifies this
      ensures ok == (io.mkdir && io.fault.NoFault?)
      ensures s == old(s).(keyFiles := if ok then old(s).keyFiles[io.dest := key]
                                       else if io.mkdir then AfterFailedWrite(io, old(s).keyFiles, key)
                                           else old(s).keyFiles)
    {
      if !io.mkdir { return false; }
      var files := s.keyFiles;
      if io.fault.WriteFails? {
        if io.partial.Some? { files := files[io.tmp := io.partial.value]; }
      } else {
        files := files[io.tmp := key];
        if !io.fault.RenameFails? { files := files[io.dest := key] - {io.tmp}; }
      }
      ok := io.fault.NoFault?;
      if !ok {
        if io.tmp in files && io.unlinks(io.tmp) { files := files - {io.tmp}; }
        if io.dest in files && io.unlinks(io.dest) { files := files - {io.dest}; }
      }
      assert ok ==> files == s.keyFiles[io.dest := key];
      assert !ok ==> files == AfterFailedWrite(io, s.keyFiles, key);
      s := s.(keyFiles := files);
    }

    method DeleteKeyFileIfUnreferenced(io: Io, path: Path)
      modifies this
      ensures s == Retired(io, old(s), path)
    {
      var used := false;
      var todo := s.transports.Keys;
      while todo != {} && !used
        invariant todo <= s.transports.Keys
        invariant used ==> Referenced(s.transports, path)
        invariant forall t :: t in s.transports && t !in todo && s.transports[t].keyPath == Some(path) ==> used
        decreases |todo|
      {
        var t :| t in todo;
        todo := todo - {t};
        used := s.transports[t].keyPath == Some(path);
      }
      if !used && io.unlinks(path) { s := s.(keyFiles := s.keyFiles - {path}); }
    }

    method Copy(io: Io, cid: Id, c: Credential, given: Option<Blobs.Secret>, secret: Blobs.Secret)
      returns (answer: Answer)
      requires FreshIo(io, s)
      modifies this
      ensures (s, answer) == Copied(io, old(s), cid, c, given, secret)
    {
      hide Transaction, AfterFailedWrite, Retired;
      var oldPath := if LinkedTransport(s, c).Some? then LinkedTransport(s, c).value.keyPath else None;
      var newPath: Option<Path> := None;
      var ok := true;
      var key := if KeyedKind(c.info.kind) then Field(secret, "privateKey") else None;
      if key.Some? {
        ok := MaterializeKeyFile(io, io.encode(key.value));
        if ok { newPath := Some(io.dest); }
      }
      if ok {
        var after := Transaction(io, s, cid, c, given, secret, newPath);
        if after.Some? {
          s := after.value;
          if newPath.Some? && Present(oldPath) && oldPath != newPath { DeleteKeyFileIfUnreferenced(io, oldPath.value); }
          return Answered(true, SyncOk);
        }
      }
      if newPath.Some? && io.unlinks(newPath.value) {
        assert s.keyFiles - {newPath.value} == old(s).keyFiles;
        s := s.(keyFiles := s.keyFiles - {newPath.value});
      }
      if io.marks { s := s.(credentials := s.credentials[cid := c.(sync := SyncError)]); }
      return Answered(false, SyncError);
    }

    method SyncOperationalCopy(io: Io, cid: Id, useForBackups: bool, given: Option<Blobs.Secret>)
      returns (answer: Answer)
      requires FreshIo(io, s)
      modifies this
      ensures (s, answer) == Sync(io, old(s), cid, useForBackups, given)
    {
      hide Copied, FreshIo;
      if cid !in s.credentials { return NotFound; }
      var c := s.credentials[cid];
      if !useForBackups {
        if io.dbFails { return UnlinkFailed; }
        s := s.(credentials := s.credentials[cid := c.(linkedTransportId := None, linkedConnectionId := None,
                                                       sync := SyncNone)]);
        return Answered(true, SyncNone);
      }
      if !LinksTransport(c.info.kind) && !LinksConnection(c.info.kind) { return Answered(false, SyncError); }
      if NeedsVault(io, s, c, given) { return VaultLocked; }
      answer := Copy(io, cid, c, given, SecretFor(s, c, given));
    }

    method ListLinked(client: Option<Id>) returns (ids: seq<Id>)
      ensures forall cid :: cid in ids <==>
        cid in s.credentials && Linked(s.credentials[cid])
          && (client.Some? ==> s.credentials[cid].clientId == client.value)
      ensures forall i, j :: 0 <= i < j < |ids| ==> ids[i] != ids[j]
    {
      ids := [];
      var todo := s.credentials.Keys;
      while todo != {}
        invariant todo <= s.credentials.Keys
        invariant forall cid :: cid in ids <==>
          cid in s.credentials && cid !in todo && Linked(s.credentials[cid])
            && (client.Some? ==> s.credentials[cid].clientId == client.value)
        invariant forall i, j :: 0 <= i < j < |ids| ==> ids[i] != ids[j]
        decreases |todo|
      {
        var cid :| cid in todo;
        todo := todo - {cid};
        if Linked(s.credentials[cid]) && (client.None? || s.credentials[cid].clientId == client.value) {
          ids := ids + [cid];
        }
      }
    }

    /** `resyncOperationalCopies`: every linked credential in turn; no failure stops the loop. */
    method Resync(client: Option<Id>, ios: nat -> Io) returns (ids: seq<Id>, answers: seq<Answer>)
      requires forall i: nat :: FreshIo(ios(i), s)
      requires forall i: nat, j: nat :: i != j ==> Apart(ios(i), ios(j))
      modifies this
      ensures s == After(old(s), ResyncCalls(ids, ios))
      ensures forall cid :: cid in ids <==> cid in old(s).credentials && Linked(old(s).credentials[cid])
                                            && (client.Some? ==> old(s).credentials[cid].clientId == client.value)
      ensures |answers| == |ids|
      ensures forall i :: 0 <= i < |ids| ==>
        answers[i] == Sync(ios(i), After(old(s), ResyncCalls(ids[..i], ios)), ids[i], true, None).1
    {
      hide Sync;
      ids := ListLinked(client);
      answers := [];
      for i := 0 to |ids|
        invariant |answers| == i
        invariant s == After(old(s), ResyncCalls(ids[..i], ios))
        invariant forall j: nat :: j >= i ==> FreshIo(ios(j), s)
        invariant forall j :: 0 <= j < i ==>
                  answers[j] == Sync(ios(j), After(old(s), ResyncCalls(ids[..j], ios)), ids[j], true, None).1
      {
        assert ResyncCalls(ids[..i + 1], ios)[..i] == ResyncCalls(ids[..i], ios);
        forall j: nat | j > i ensures FreshIo(ios(j), Sync(ios(i), s, ids[i], true, None).0) {
          StaysFresh(ios(i), s, ids[i], true, None, ios(j));
        }
        var answer := SyncOperationalCopy(ios(i), ids[i], true, None);
        answers := answers + [answer];
      }
      assert ids[..|ids|] == ids;
    }
  }

  // What a call can touch.

  /** A key path of the new rows is the new key's, or some row had it before. */
  ghost predicate KeyPathsFrom(before: map<Id, Transport>, after: map<Id, Transport>, keyPath: Option<Path>) {
    forall i :: i in after && after[i].keyPath.Some? ==>
      after[i].keyPath == keyPath || Referenced(before, after[i].keyPath.value)
  }

  /** The transaction adds at most the row `id`, and leaves the file system alone. */
  ghost predicate Touches(s: State, t: State, keyPath: Option<Path>, id: Id) {
    && t.keyFiles == s.keyFiles && t.transports.Keys <= s.transports.Keys + {id}
      && t.connections.Keys <= s.connections.Keys + {id}
    && KeyPathsFrom(s.transports, t.transports, keyPath)
  }

  lemma SamePaths(table: map<Id, Transport>, keyPath: Option<Path>)
    ensures KeyPathsFrom(table, table, keyPath)
  {
    forall i | i in table && table[i].keyPath.Some? ensures Referenced(table, table[i].keyPath.value) {}
  }

  lemma OneNewPath(table: map<Id, Transport>, i: Id, row: Transport, keyPath: Option<Path>)
    requires row.keyPath.Some? ==> row.keyPath == keyPath || Referenced(table, row.keyPath.value)
    ensures KeyPathsFrom(table, table[i := row], keyPath)
  {
    forall j | j in table && table[j].keyPath.Some? ensures Referenced(table, table[j].keyPath.value) {}
  }

  lemma ApplyTransportTouches(s: State, cid: Id, c: Credential, secret: Blobs.Secret, keyPath: Option<Path>, id: Id)
    requires ApplyTransport(s, cid, c, secret, keyPath, id).Some?
    ensures Touches(s, ApplyTransport(s, cid, c, secret, keyPath, id).value, keyPath, id)
  {
    hide TransportSecretsOf, AcceptableLink, KeyPathsFrom, TransportRow, Referenced;
    var existing := LinkedTransport(s, c);
    var path := if keyPath.Some? then keyPath else if existing.Some? then existing.value.keyPath else None;
    var (phraseRef, passRef, secrets) := TransportSecretsOf(s, cid, c.info.kind, existing, secret);
    var row := TransportRow(c, existing, path, phraseRef, passRef);
    RowPath(s.transports, c, existing, keyPath, path, phraseRef, passRef);
    OneNewPath(s.transports, if existing.Some? then c.linkedTransportId.value else id, row, keyPath);
  }

  lemma RowPath(table: map<Id, Transport>, c: Credential, existing: Option<Transport>, keyPath: Option<Path>,
                path: Option<Path>, phraseRef: Option<Ref>, passRef: Option<Ref>)
    requires Present(c.info.host) && Present(c.info.username)
    requires existing.Some? ==> exists i :: i in table && table[i] == existing.value
    requires path == if keyPath.Some? then keyPath else if existing.Some? then existing.value.keyPath else None
    ensures var row := TransportRow(c, existing, path, phraseRef, passRef);
            row.keyPath.Some? ==> row.keyPath == keyPath || Referenced(table, row.keyPath.value)
  {
  }

  lemma ApplyDatabaseTouches(s: State, cid: Id, c: Credential, secret: Blobs.Secret, keyPath: Option<Path>, id: Id)
    requires ApplyDatabase(s, cid, c, secret, id).Some?
    ensures Touches(s, ApplyDatabase(s, cid, c, secret, id).value, keyPath, id)
  {
    hide AcceptableLink, KeyPathsFrom;
    SamePaths(s.transports, keyPath);
  }

  lemma TransactionTouches(io: Io, s: State, cid: Id, c: Credential, given: Option<Blobs.Secret>, secret: Blobs.Secret,
                           keyPath: Option<Path>)
    requires Transaction(io, s, cid, c, given, secret, keyPath).Some?
    ensures Touches(s, Transaction(io, s, cid, c, given, secret, keyPath).value, keyPath, io.id)
  {
    hide ApplyTransport, ApplyDatabase, KeyPathsFrom, LinksTransport, LinksConnection;
    var s1 := if given.Some? && c.blobRef.Some? then s.(blobs := s.blobs[c.blobRef.value := Blobs.ToJson(secret)])
      else s;
    assert s1.transports == s.transports && s1.connections == s.connections && s1.keyFiles == s.keyFiles;
    if LinksConnection(c.info.kind) {
      ApplyDatabaseTouches(s1, cid, c, secret, keyPath, io.id);
    } else {
      ApplyTransportTouches(s1, cid, c, secret, keyPath, io.id);
    }
  }

  // How a call can end.

  /** A call that failed: nothing changed but the error state, and a new file that could not be removed. */
  ghost predicate Unchanged(io: Io, s: State, t: State, cid: Id) {
    && t == s.(keyFiles := t.keyFiles, credentials := t.credentials)
    && (t.credentials == s.credentials
        || (io.marks && cid in s.credentials
            && t.credentials == s.credentials[cid := s.credentials[cid].(sync := SyncError)]))
    && (forall p :: p in s.keyFiles ==> p in t.keyFiles && t.keyFiles[p] == s.keyFiles[p])
    && (forall p :: p in t.keyFiles && p !in s.keyFiles ==> (p == io.dest || p == io.tmp) && !io.unlinks(p))
  }

  /** A call that unlinked: only the credential's links and state changed. */
  ghost predicate Unlinked(s: State, t: State, cid: Id) {
    cid in s.credentials
    && t == s.(credentials := s.credentials[cid := s.credentials[cid].(linkedTransportId := None,
        linkedConnectionId := None, sync := SyncNone)])
  }

  /** A call that synced: the transaction over the new key file, then perhaps the old key file is gone. */
  ghost predicate Synced(io: Io, s: State, t: State, cid: Id, given: Option<Blobs.Secret>) {
    cid in s.credentials &&
    exists files, path, secret, mid ::
      && secret == SecretFor(s, s.credentials[cid], given)
      && WithKey(io, s, s.credentials[cid], secret, files, path)
      && Transaction(io, s.(keyFiles := files), cid, s.credentials[cid], given, secret, path) == Some(mid)
      && (t == mid || RetiredOld(io, s, s.credentials[cid], mid, t, path))
  }

  ghost predicate WithKey(io: Io, s: State, c: Credential, secret: Blobs.Secret, files: map<Path, Bytes>,
                          path: Option<Path>)
  {
    var key := Field(secret, "privateKey");
    if KeyedKind(c.info.kind) && key.Some?
        then files == s.keyFiles[io.dest := io.encode(key.value)] && path == Some(io.dest)
    else files == s.keyFiles && path == None
  }

  ghost predicate RetiredOld(io: Io, s: State, c: Credential, mid: State, t: State, path: Option<Path>) {
    && path.Some? && LinkedTransport(s, c).Some? && LinkedTransport(s, c).value.keyPath.Some?
    && LinkedTransport(s, c).value.keyPath.value != io.dest
    && t == Retired(io, mid, LinkedTransport(s, c).value.keyPath.value)
  }

  /** The key directory after a failed write holds nothing new that could be removed. */
  lemma FailedWriteLeaves(io: Io, files: map<Path, Bytes>, key: Bytes)
    requires io.dest != io.tmp && io.dest !in files && io.tmp !in files && !io.fault.NoFault?
    ensures forall p :: p in files ==>
            p in AfterFailedWrite(io, files, key) && AfterFailedWrite(io, files, key)[p] == files[p]
    ensures forall p :: p in AfterFailedWrite(io, files, key) && p !in files ==>
            (p == io.dest || p == io.tmp) && !io.unlinks(p)
  {
  }

  lemma FailedIsUnchanged(io: Io, s: State, cid: Id, files: map<Path, Bytes>)
    requires cid in s.credentials
    requires forall p :: p in s.keyFiles ==> p in files && files[p] == s.keyFiles[p]
    requires forall p :: p in files && p !in s.keyFiles ==> (p == io.dest || p == io.tmp) && !io.unlinks(p)
    ensures Unchanged(io, s, Failed(io, s, cid, s.credentials[cid], files), cid)
  {
  }

  lemma CopyEnds(io: Io, s: State, cid: Id, given: Option<Blobs.Secret>)
    requires FreshIo(io, s) && cid in s.credentials
    ensures var c := s.credentials[cid];
            var (t, answer) := Copied(io, s, cid, c, given, SecretFor(s, c, given));
            if answer == Answered(true, SyncOk) then Synced(io, s, t, cid, given)
            else answer == Answered(false, SyncError) && Unchanged(io, s, t, cid)
  {
    hide Transaction, AfterFailedWrite, Retired, SecretFor, Failed, Unchanged, Field;
    var c := s.credentials[cid];
    var secret := SecretFor(s, c, given);
    var key := if KeyedKind(c.info.kind) then Field(secret, "privateKey") else None;
    FailedIsUnchanged(io, s, cid, s.keyFiles);
    if key.Some? && io.mkdir && !io.fault.NoFault? {
      FailedWriteLeaves(io, s.keyFiles, io.encode(key.value));
      FailedIsUnchanged(io, s, cid, AfterFailedWrite(io, s.keyFiles, io.encode(key.value)));
    } else if !(key.Some? && !io.mkdir) {
      var files := if key.Some? then s.keyFiles[io.dest := io.encode(key.value)] else s.keyFiles;
      var path := if key.Some? then Some(io.dest) else None;
      assert WithKey(io, s, c, secret, files, path);
      var after := Transaction(io, s.(keyFiles := files), cid, c, given, secret, path);
      if after.None? && key.Some? && !io.unlinks(io.dest) { FailedIsUnchanged(io, s, cid, files); }
    }
  }

  /** Every call ends in one of three ways, and its answer says in which. */
  lemma CallEnds(io: Io, s: State, cid: Id, useForBackups: bool, given: Option<Blobs.Secret>)
    requires FreshIo(io, s)
    ensures var (t, answer) := Sync(io, s, cid, useForBackups, given);
            if answer == Answered(true, SyncOk) then Synced(io, s, t, cid, given)
            else if answer == Answered(true, SyncNone) then Unlinked(s, t, cid)
            else !(answer.Answered? && answer.ok) && Unchanged(io, s, t, cid)
  {
    hide Copied, Synced, Unchanged, SecretFor, LinksConnection, LinksTransport;
    assert Unchanged(io, s, s, cid) by { NothingChanged(io, s, cid); }
    if cid in s.credentials { CopyEnds(io, s, cid, given); }
  }

  /** The kinds of credential that backups can use. */
  predicate ForBackups(k: CredentialKind) {
    match k
    case KindOther(_) => false
    case _ => true
  }

  /** The call gets as far as copying. */
  predicate Copies(io: Io, s: State, cid: Id, useForBackups: bool, given: Option<Blobs.Secret>) {
    && cid in s.credentials && useForBackups && ForBackups(s.credentials[cid].info.kind)
    && (io.vaultOpen || given.Some? || SecretAt(s.blobs, s.credentials[cid].blobRef).None?)
  }

  /**
   What each refusal means, and that it changes nothing; a copy that fails instead leaves the error state on the
   credential, whenever that can be written.
   */
  lemma RefusedExactly(io: Io, s: State, cid: Id, useForBackups: bool, given: Option<Blobs.Secret>)
    ensures var (t, answer) := Sync(io, s, cid, useForBackups, given);
            var known := cid in s.credentials;
            && (answer.NotFound? <==> !known)
            && (answer.UnlinkFailed? <==> known && !useForBackups && io.dbFails)
            && (answer.VaultLocked? <==>
                && known && useForBackups && ForBackups(s.credentials[cid].info.kind) && !io.vaultOpen && given.None?
                && SecretAt(s.blobs, s.credentials[cid].blobRef).Some?)
            && (known && useForBackups && !ForBackups(s.credentials[cid].info.kind) ==>
                answer == Answered(false, SyncError))
            && (answer != Answered(true, SyncNone) && !Copies(io, s, cid, useForBackups, given) ==> t == s)
            && (Copies(io, s, cid, useForBackups, given) && answer != Answered(true, SyncOk) ==>
                && answer == Answered(false, SyncError)
                && t.credentials == if io.marks then s.credentials[cid := s.credentials[cid].(sync := SyncError)]
                                    else s.credentials)
  {
    hide Copied, SecretFor;
    if cid in s.credentials { FailedCopyMarks(io, s, cid, s.credentials[cid], given); }
  }

  lemma FailedCopyMarks(io: Io, s: State, cid: Id, c: Credential, given: Option<Blobs.Secret>)
    ensures var (t, answer) := Copied(io, s, cid, c, given, SecretFor(s, c, given));
            answer == Answered(true, SyncOk)
            || (answer == Answered(false, SyncError)
                && t.credentials == if io.marks then s.credentials[cid := c.(sync := SyncError)] else s.credentials)
  {
    hide Transaction, AfterFailedWrite, Retired, SecretFor, Field;
  }

  lemma NothingChanged(io: Io, s: State, cid: Id)
    ensures Unchanged(io, s, s, cid)
  {
  }

  /**
   After a sync: at most one new row and one new file, and a file is gone only if it was replaced and is unreferenced.
   */
  ghost predicate FilesAfter(io: Io, s: State, t: State, cid: Id, path: Option<Path>) {
    && (path.Some? ==> path == Some(io.dest) && io.dest in t.keyFiles)
    && t.keyFiles.Keys <= s.keyFiles.Keys + {io.dest}
    && forall p :: p in s.keyFiles && p !in t.keyFiles ==>
         && !Referenced(t.transports, p) && cid in s.credentials
         && LinkedTransport(s, s.credentials[cid]).Some?
           && LinkedTransport(s, s.credentials[cid]).value.keyPath == Some(p)
  }

  lemma RetiringKeeps(io: Io, s: State, c: Credential, mid: State, t: State, path: Option<Path>)
    requires RetiredOld(io, s, c, mid, t, path)
    ensures t.transports == mid.transports && t.connections == mid.connections && t.keyFiles.Keys <= mid.keyFiles.Keys
    ensures forall p :: p in mid.keyFiles && p !in t.keyFiles ==>
      p != io.dest && !Referenced(t.transports, p) && LinkedTransport(s, c).Some?
        && LinkedTransport(s, c).value.keyPath == Some(p)
  {
    hide Referenced;
  }

  lemma MidTouches(io: Io, s: State, c: Credential, secret: Blobs.Secret, files: map<Path, Bytes>, path: Option<Path>,
                   mid: State)
    requires WithKey(io, s, c, secret, files, path) && Touches(s.(keyFiles := files), mid, path, io.id)
    ensures mid.transports.Keys <= s.transports.Keys + {io.id} && mid.connections.Keys <= s.connections.Keys + {io.id}
    ensures KeyPathsFrom(s.transports, mid.transports, path)
    ensures (path.Some? ==> path == Some(io.dest) && io.dest in mid.keyFiles)
            && mid.keyFiles.Keys <= s.keyFiles.Keys + {io.dest}
    ensures forall p :: p in s.keyFiles ==> p in mid.keyFiles
  {
    hide KeyPathsFrom, Field;
  }

  lemma SyncedTouches(io: Io, s: State, t: State, cid: Id, given: Option<Blobs.Secret>) returns (path: Option<Path>)
    requires Synced(io, s, t, cid, given)
    ensures t.transports.Keys <= s.transports.Keys + {io.id} && t.connections.Keys <= s.connections.Keys + {io.id}
    ensures KeyPathsFrom(s.transports, t.transports, path) && FilesAfter(io, s, t, cid, path)
  {
    hide Transaction, SecretFor, KeyPathsFrom, RetiredOld, Field, Referenced, LinkedTransport, WithKey, Touches;
    var c := s.credentials[cid];
    var files, path', secret, mid :|
      && secret == SecretFor(s, c, given) && WithKey(io, s, c, secret, files, path')
      && Transaction(io, s.(keyFiles := files), cid, c, given, secret, path') == Some(mid)
      && (t == mid || RetiredOld(io, s, c, mid, t, path'));
    path := path';
    TransactionTouches(io, s.(keyFiles := files), cid, c, given, secret, path);
    MidTouches(io, s, c, secret, files, path, mid);
    if RetiredOld(io, s, c, mid, t, path) { RetiringKeeps(io, s, c, mid, t, path); }
  }

  lemma StaysFresh(io: Io, s: State, cid: Id, useForBackups: bool, given: Option<Blobs.Secret>, other: Io)
    requires FreshIo(io, s) && FreshIo(other, s) && Apart(io, other)
    ensures FreshIo(other, Sync(io, s, cid, useForBackups, given).0)
  {
    hide Sync, Synced, KeyPathsFrom, Referenced, LinkedTransport;
    CallEnds(io, s, cid, useForBackups, given);
    var (t, answer) := Sync(io, s, cid, useForBackups, given);
    if answer == Answered(true, SyncOk) {
      var path := SyncedTouches(io, s, t, cid, given);
    }
  }

  // No key dangles.

  /** Every transport's key path names an existing file. */
  ghost predicate KeysExist(s: State) {
    forall i :: i in s.transports && s.transports[i].keyPath.Some? ==> s.transports[i].keyPath.value in s.keyFiles
  }

  lemma SyncedKeepsKeys(io: Io, s: State, t: State, cid: Id, path: Option<Path>)
    requires KeysExist(s) && KeyPathsFrom(s.transports, t.transports, path) && FilesAfter(io, s, t, cid, path)
    ensures KeysExist(t)
  {
    hide LinkedTransport;
    forall i | i in t.transports && t.transports[i].keyPath.Some? ensures t.transports[i].keyPath.value in t.keyFiles {
      assert Referenced(t.transports, t.transports[i].keyPath.value);
    }
  }

  lemma SyncKeepsKeys(io: Io, s: State, cid: Id, useForBackups: bool, given: Option<Blobs.Secret>)
    requires FreshIo(io, s) && KeysExist(s)
    ensures KeysExist(Sync(io, s, cid, useForBackups, given).0)
  {
    hide Sync, Synced, FreshIo, KeyPathsFrom, FilesAfter;
    CallEnds(io, s, cid, useForBackups, given);
    var (t, answer) := Sync(io, s, cid, useForBackups, given);
    if answer == Answered(true, SyncOk) {
      var path := SyncedTouches(io, s, t, cid, given);
      SyncedKeepsKeys(io, s, t, cid, path);
    }
  }

  /** Over any sequence of sync, unlink and resync calls, failing wherever they may, no transport loses its key file. */
  lemma {:induction false} NoKeyDangles(s: State, calls: seq<Call>)
    requires FreshCalls(s, calls) && KeysExist(s)
    ensures KeysExist(After(s, calls))
    ensures forall other: Io :: FreshIo(other, s) && (forall i :: 0 <= i < |calls| ==> Apart(calls[i].io, other)) ==>
            FreshIo(other, After(s, calls))
  {
    if calls != [] {
      hide FreshIo, KeysExist, Sync;
      var n := |calls| - 1;
      var e := calls[n];
      NoKeyDangles(s, calls[..n]);
      var before := After(s, calls[..n]);
      assert FreshIo(e.io, before);
      SyncKeepsKeys(e.io, before, e.cid, e.useForBackups, e.given);
      forall other: Io | FreshIo(other, s) && (forall i :: 0 <= i < |calls| ==> Apart(calls[i].io, other))
        ensures FreshIo(other, After(s, calls))
      {
        assert forall i :: 0 <= i < n ==> calls[..n][i] == calls[i];
        StaysFresh(e.io, before, e.cid, e.useForBackups, e.given, other);
      }
    }
  }

  /**
   A failed call is invisible: tables and secrets are as before except for the credential's error
   state, and so is the key directory, unless a new file could not be removed.
   */
  lemma FailedSyncIsInvisible(io: Io, s: State, cid: Id, useForBackups: bool, given: Option<Blobs.Secret>)
    requires FreshIo(io, s)
    requires var answer := Sync(io, s, cid, useForBackups, given).1; !(answer.Answered? && answer.ok)
    ensures Unchanged(io, s, Sync(io, s, cid, useForBackups, given).0, cid)
    ensures io.unlinks(io.dest) && io.unlinks(io.tmp) ==>
            Sync(io, s, cid, useForBackups, given).0.keyFiles == s.keyFiles
  {
    hide Sync, Synced;
    CallEnds(io, s, cid, useForBackups, given);
  }

  /** A key file disappears only when it was replaced and no transport refers to it any more. */
  lemma OnlyUnreferencedKeysGo(io: Io, s: State, cid: Id, useForBackups: bool, given: Option<Blobs.Secret>, path: Path)
    requires FreshIo(io, s) && path in s.keyFiles
    requires path !in Sync(io, s, cid, useForBackups, given).0.keyFiles
    ensures cid in s.credentials && LinkedTransport(s, s.credentials[cid]).Some?
            && LinkedTransport(s, s.credentials[cid]).value.keyPath == Some(path)
    ensures !Referenced(Sync(io, s, cid, useForBackups, given).0.transports, path)
  {
    hide Sync, Synced, KeyPathsFrom, Referenced, LinkedTransport;
    CallEnds(io, s, cid, useForBackups, given);
    var (t, answer) := Sync(io, s, cid, useForBackups, given);
    if answer == Answered(true, SyncOk) {
      var newPath := SyncedTouches(io, s, t, cid, given);
    }
  }
}

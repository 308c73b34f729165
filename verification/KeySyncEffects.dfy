/**
 What a successful `syncOperationalCopy` achieves (syncOperationalCopy.ts): the linked connection
 carries the credential's data and secrets, and everything else is as before - except where a
 connection that was unlinked earlier still shares the credential's own secret references.
 */
module KeySyncEffects {
  import opened Common
  import opened RestoreLoop
  import opened RecoveryModel
  import opened KeySync
  import Blobs = CredentialBlob

  /** The linked transport carries the credential's data, its key and its passphrase or password. */
  ghost predicate TransportReflects(t: State, c: Credential, id: Id, secret: Blobs.Secret, key: Option<Bytes>) {
    && id in t.transports
    && Some(t.transports[id].host) == c.info.host && Some(t.transports[id].username) == c.info.username
    && (c.info.port.Some? ==> t.transports[id].port == c.info.port.value)
    && (if KeyedKind(c.info.kind) then
          && t.transports[id].keyPath.Some?
          && (key.Some? ==>
              t.transports[id].keyPath.value in t.keyFiles && t.keyFiles[t.transports[id].keyPath.value] == key.value)
          && SecretAt(t.secrets, t.transports[id].passphraseRef) == Field(secret, "privateKeyPassphrase")
        else Field(secret, "password").Some? ==>
          SecretAt(t.secrets, t.transports[id].passwordRef) == Field(secret, "password"))
  }

  ghost predicate ConnectionReflects(t: State, c: Credential, id: Id, secret: Blobs.Secret) {
    && id in t.connections
    && Some(t.connections[id].host) == c.info.host && Some(t.connections[id].username) == c.info.username
    && Some(t.connections[id].port) == c.info.port && Some(t.connections[id].databaseName) == c.info.databaseName
    && (Field(secret, "password").Some? ==>
        SecretAt(t.secrets, t.connections[id].passwordRef) == Field(secret, "password"))
  }

  ghost predicate Reflects(io: Io, t: State, cid: Id, c: Credential, secret: Blobs.Secret) {
    && cid in t.credentials && t.credentials[cid].sync == SyncOk && t.credentials[cid].info == c.info
    && (if LinksConnection(c.info.kind) then
          t.credentials[cid].linkedConnectionId.Some?
            && ConnectionReflects(t, c, t.credentials[cid].linkedConnectionId.value, secret)
        else
          && t.credentials[cid].linkedTransportId.Some?
          && TransportReflects(t, c, t.credentials[cid].linkedTransportId.value, secret, KeyOf(io, c, secret)))
  }

  function KeyOf(io: Io, c: Credential, secret: Blobs.Secret): Option<Bytes> {
    var key := if KeyedKind(c.info.kind) then Field(secret, "privateKey") else None;
    if key.Some? then Some(io.encode(key.value)) else None
  }

  /** The references a sync of this credential may write. */
  predicate OwnRef(s: State, cid: Id, ref: Ref) {
    || ref == DbPasswordRef(cid) || ref == PassphraseRef(cid) || ref == PasswordRef(cid)
    || (cid in s.credentials && LinkedTransport(s, s.credentials[cid]).Some?
        && var row := LinkedTransport(s, s.credentials[cid]).value;
          row.passphraseRef == Some(ref) || row.passwordRef == Some(ref))
  }

  /** Other rows, and secrets under other references, are as before. */
  ghost predicate OthersKept(s: State, t: State, cid: Id) {
    && cid in s.credentials
    && (forall i :: i in s.transports && s.credentials[cid].linkedTransportId != Some(i) ==>
        i in t.transports && t.transports[i] == s.transports[i])
    && (forall i :: i in s.connections && s.credentials[cid].linkedConnectionId != Some(i) ==>
        i in t.connections && t.connections[i] == s.connections[i])
    && (forall i :: i in s.credentials && i != cid ==> i in t.credentials && t.credentials[i] == s.credentials[i])
    && (forall ref :: !OwnRef(s, cid, ref) ==> SecretAt(t.secrets, Some(ref)) == SecretAt(s.secrets, Some(ref)))
  }

  lemma SecretsOfTransport(s: State, cid: Id, kind: CredentialKind, existing: Option<Transport>, secret: Blobs.Secret)
    ensures var (phraseRef, passRef, secrets) := TransportSecretsOf(s, cid, kind, existing, secret);
            && (KeyedKind(kind) ==> SecretAt(secrets, phraseRef) == Field(secret, "privateKeyPassphrase"))
            && (!KeyedKind(kind) && Field(secret, "password").Some? ==>
                SecretAt(secrets, passRef) == Field(secret, "password"))
            && forall ref :: ref != PassphraseRef(cid) && ref != PasswordRef(cid)
                             && (existing.Some? ==>
                                 existing.value.passphraseRef != Some(ref) && existing.value.passwordRef != Some(ref))
                             ==> SecretAt(secrets, Some(ref)) == SecretAt(s.secrets, Some(ref))
  {
  }

  /** One row written, under the credential's new link. */
  ghost predicate Written(s: State, t: State, cid: Id, c: Credential, transport: Option<(Id, Transport)>,
                          connection: Option<(Id, Connection)>)
  {
    && t.keyFiles == s.keyFiles && t.blobs == s.blobs
    && t.transports == (if transport.Some? then s.transports[transport.value.0 := transport.value.1] else s.transports)
    && t.connections == (if connection.Some? then s.connections[connection.value.0 := connection.value.1]
                         else s.connections)
    && cid in t.credentials && t.credentials == s.credentials[cid := t.credentials[cid]]
    && t.credentials[cid].sync == SyncOk && t.credentials[cid].info == c.info
    && (transport.Some? ==> t.credentials[cid].linkedTransportId == Some(transport.value.0))
    && (connection.Some? ==> t.credentials[cid].linkedConnectionId == Some(connection.value.0))
  }

  function PathFor(s: State, c: Credential, keyPath: Option<Path>): Option<Path> {
    if keyPath.Some? then keyPath else if LinkedTransport(s, c).Some? then LinkedTransport(s, c).value.keyPath else None
  }

  lemma TransportWritten(io: Io, s: State, cid: Id, c: Credential, secret: Blobs.Secret, keyPath: Option<Path>)
    requires cid in s.credentials && c == s.credentials[cid]
    requires ApplyTransport(s, cid, c, secret, keyPath, io.id).Some?
    ensures Present(c.info.host) && Present(c.info.username)
            && (KeyedKind(c.info.kind) ==> PathFor(s, c, keyPath).Some?)
    ensures var (phraseRef, passRef, secrets) := TransportSecretsOf(s, cid, c.info.kind, LinkedTransport(s, c), secret);
            var t := ApplyTransport(s, cid, c, secret, keyPath, io.id).value;
            var row := TransportRow(c, LinkedTransport(s, c), PathFor(s, c, keyPath), phraseRef, passRef);
            && t.secrets == secrets
            && Written(s, t, cid, c, Some((if LinkedTransport(s, c).Some? then c.linkedTransportId.value
                                           else io.id, row)), None)
  {
    hide TransportSecretsOf, AcceptableLink, Field, TransportRow;
  }

  lemma RowReflects(c: Credential, existing: Option<Transport>, path: Option<Path>, phraseRef: Option<Ref>,
                    passRef: Option<Ref>)
    requires Present(c.info.host) && Present(c.info.username) && LinksTransport(c.info.kind)
    ensures var row := TransportRow(c, existing, path, phraseRef, passRef);
            && Some(row.host) == c.info.host && Some(row.username) == c.info.username
              && (c.info.port.Some? ==> row.port == c.info.port.value)
            && (KeyedKind(c.info.kind) ==> row.keyPath == path && row.passphraseRef == phraseRef)
            && (!KeyedKind(c.info.kind) ==> row.passwordRef == passRef)
  {
  }

  /** A write of one row leaves the other rows alone. */
  lemma WrittenKeepsOthers(s: State, t: State, cid: Id, c: Credential, transport: Option<(Id, Transport)>,
                           connection: Option<(Id, Connection)>)
    requires cid in s.credentials && c == s.credentials[cid] && Written(s, t, cid, c, transport, connection)
    requires transport.Some? ==> transport.value.0 !in s.transports || c.linkedTransportId == Some(transport.value.0)
    requires connection.Some? ==>
             connection.value.0 !in s.connections || c.linkedConnectionId == Some(connection.value.0)
    requires forall ref :: !OwnRef(s, cid, ref) ==> SecretAt(t.secrets, Some(ref)) == SecretAt(s.secrets, Some(ref))
    ensures OthersKept(s, t, cid)
  {
    hide OwnRef, SecretAt;
  }

  lemma TransportApplied(io: Io, s: State, cid: Id, c: Credential, secret: Blobs.Secret, keyPath: Option<Path>)
    requires cid in s.credentials && c == s.credentials[cid] && LinksTransport(c.info.kind) && io.id !in s.transports
    requires ApplyTransport(s, cid, c, secret, keyPath, io.id).Some?
    requires KeyOf(io, c, secret).Some? ==>
             keyPath.Some? && keyPath.value in s.keyFiles && s.keyFiles[keyPath.value] == KeyOf(io, c, secret).value
    ensures Reflects(io, ApplyTransport(s, cid, c, secret, keyPath, io.id).value, cid, c, secret)
    ensures OthersKept(s, ApplyTransport(s, cid, c, secret, keyPath, io.id).value, cid)
  {
    hide ApplyTransport, TransportSecretsOf, TransportRow, Field, KeyOf, OthersKept;
    var existing, path := LinkedTransport(s, c), PathFor(s, c, keyPath);
    SecretsOfTransport(s, cid, c.info.kind, existing, secret);
    TransportWritten(io, s, cid, c, secret, keyPath);
    var (phraseRef, passRef, secrets) := TransportSecretsOf(s, cid, c.info.kind, existing, secret);
    RowReflects(c, existing, path, phraseRef, passRef);
    var t, id := ApplyTransport(s, cid, c, secret, keyPath, io.id).value, if existing.Some?
      then c.linkedTransportId.value else io.id;
    WrittenKeepsOthers(s, t, cid, c, Some((id, TransportRow(c, existing, path, phraseRef, passRef))), None);
    hide SecretAt, OwnRef;
  }

  function LinkedConnection(s: State, c: Credential): Option<Connection> {
    if c.linkedConnectionId.Some? && c.linkedConnectionId.value in s.connections
        then Some(s.connections[c.linkedConnectionId.value]) else None
  }

  lemma DatabaseWritten(io: Io, s: State, cid: Id, c: Credential, secret: Blobs.Secret)
    requires cid in s.credentials && c == s.credentials[cid]
    requires ApplyDatabase(s, cid, c, secret, io.id).Some?
    ensures Present(c.info.host) && Present(c.info.username) && Present(c.info.databaseName) && c.info.port.Some?
    ensures var t := ApplyDatabase(s, cid, c, secret, io.id).value;
            var password := Field(secret, "password");
            var row := ConnectionRow(c, LinkedConnection(s, c), if password.Some? then Some(DbPasswordRef(cid))
                                     else None);
            && t.secrets == (if password.Some? then s.secrets[DbPasswordRef(cid) := password.value] else s.secrets)
            && Written(s, t, cid, c, None,
                       Some((if c.linkedConnectionId.Some? then c.linkedConnectionId.value else io.id, row)))
  {
    hide AcceptableLink, Field, ConnectionRow;
  }

  lemma DatabaseApplied(io: Io, s: State, cid: Id, c: Credential, secret: Blobs.Secret)
    requires cid in s.credentials && c == s.credentials[cid] && LinksConnection(c.info.kind) && io.id !in s.connections
    requires ApplyDatabase(s, cid, c, secret, io.id).Some?
    ensures Reflects(io, ApplyDatabase(s, cid, c, secret, io.id).value, cid, c, secret)
    ensures OthersKept(s, ApplyDatabase(s, cid, c, secret, io.id).value, cid)
  {
    hide ApplyDatabase, Field, KeyOf, OthersKept;
    DatabaseWritten(io, s, cid, c, secret);
    var t, id := ApplyDatabase(s, cid, c, secret, io.id).value, if c.linkedConnectionId.Some?
      then c.linkedConnectionId.value else io.id;
    var password := Field(secret, "password");
    var row := ConnectionRow(c, LinkedConnection(s, c), if password.Some? then Some(DbPasswordRef(cid)) else None);
    WrittenKeepsOthers(s, t, cid, c, None, Some((id, row)));
    hide OwnRef;
  }

  lemma TransactionApplied(io: Io, s: State, cid: Id, given: Option<Blobs.Secret>, secret: Blobs.Secret,
                           keyPath: Option<Path>)
    requires cid in s.credentials && io.id !in s.transports && io.id !in s.connections
    requires KeyOf(io, s.credentials[cid], secret).Some? ==>
      keyPath.Some? && keyPath.value in s.keyFiles
        && s.keyFiles[keyPath.value] == KeyOf(io, s.credentials[cid], secret).value
    requires Transaction(io, s, cid, s.credentials[cid], given, secret, keyPath).Some?
    ensures Reflects(io, Transaction(io, s, cid, s.credentials[cid], given, secret, keyPath).value, cid,
                     s.credentials[cid], secret)
    ensures OthersKept(s, Transaction(io, s, cid, s.credentials[cid], given, secret, keyPath).value, cid)
  {
    hide ApplyTransport, ApplyDatabase, Reflects, OthersKept, KeyOf;
    var c := s.credentials[cid];
    var s1 := if given.Some? && c.blobRef.Some? then s.(blobs := s.blobs[c.blobRef.value := Blobs.ToJson(secret)])
      else s;
    var t := ApplyCopy(s1, cid, c, secret, keyPath, io.id).value;
    if LinksConnection(c.info.kind) {
      DatabaseApplied(io, s1, cid, c, secret);
    } else {
      TransportApplied(io, s1, cid, c, secret, keyPath);
    }
    BlobsDoNotMatter(s, s1, t, cid);
  }

  lemma BlobsDoNotMatter(s: State, s1: State, t: State, cid: Id)
    requires s1 == s.(blobs := s1.blobs, keyFiles := s1.keyFiles) && OthersKept(s1, t, cid)
    ensures OthersKept(s, t, cid)
  {
  }

  /** The old key's file is not the one the transport now names, so retiring it disturbs nothing. */
  lemma RetiringKeepsReflection(io: Io, s: State, mid: State, t: State, cid: Id, c: Credential, secret: Blobs.Secret,
                                path: Option<Path>)
    requires Reflects(io, mid, cid, c, secret) && OthersKept(s, mid, cid) && RetiredOld(io, s, c, mid, t, path)
    ensures Reflects(io, t, cid, c, secret) && OthersKept(s, t, cid)
  {
    hide KeyOf, Field, SecretAt, OwnRef;
    var old_ := LinkedTransport(s, c).value.keyPath.value;
    if !LinksConnection(c.info.kind) && KeyedKind(c.info.kind) {
      var id := mid.credentials[cid].linkedTransportId.value;
      assert mid.transports[id].keyPath == Some(old_) ==> Referenced(mid.transports, old_);
    }
  }

  /**
   A successful sync makes the linked connection carry the credential: host, user, port, key file,
   passphrase or password; and it leaves all other rows, and secrets under other references, alone.
   */
  lemma SyncReflects(io: Io, s: State, cid: Id, given: Option<Blobs.Secret>)
    requires FreshIo(io, s) && Sync(io, s, cid, true, given).1 == Answered(true, SyncOk)
    ensures cid in s.credentials && OthersKept(s, Sync(io, s, cid, true, given).0, cid)
    ensures Reflects(io, Sync(io, s, cid, true, given).0, cid, s.credentials[cid],
                     SecretFor(s, s.credentials[cid], given))
  {
    hide Sync, Transaction, Reflects, OthersKept, SecretFor, RetiredOld, Field;
    CallEnds(io, s, cid, true, given);
    var t, c := Sync(io, s, cid, true, given).0, s.credentials[cid];
    var files, path, secret, mid :|
      && secret == SecretFor(s, c, given) && WithKey(io, s, c, secret, files, path)
      && Transaction(io, s.(keyFiles := files), cid, c, given, secret, path) == Some(mid)
      && (t == mid || RetiredOld(io, s, c, mid, t, path));
    TransactionApplied(io, s.(keyFiles := files), cid, given, secret, path);
    BlobsDoNotMatter(s, s.(keyFiles := files), mid, cid);
    if RetiredOld(io, s, c, mid, t, path) { RetiringKeepsReflection(io, s, mid, t, cid, c, secret, path); }
  }

  // When a sync succeeds.

  /** The credential has what its kind of connection needs, and its links fit. */
  predicate Usable(s: State, c: Credential, secret: Blobs.Secret) {
    && Present(c.info.host) && Present(c.info.username)
    && (if LinksConnection(c.info.kind) then
          && Present(c.info.databaseName) && c.info.port.Some? && c.info.port.value != 0
          && (if c.linkedConnectionId.Some? then c.linkedConnectionId.value in s.connections
              else c.linkedTransportId.None?)
        else
          && LinksTransport(c.info.kind)
          && (KeyedKind(c.info.kind) ==>
                Field(secret, "privateKey").Some?
                  || (LinkedTransport(s, c).Some? && Present(LinkedTransport(s, c).value.keyPath)))
          && (LinkedTransport(s, c).None? ==> c.linkedConnectionId.None?))
  }

  ghost predicate Healthy(io: Io) {
    io.vaultOpen && io.mkdir && io.fault.NoFault? && !io.dbFails && io.dest != ""
  }

  lemma ApplySucceedsExactly(s: State, cid: Id, c: Credential, secret: Blobs.Secret, keyPath: Option<Path>, id: Id)
    requires keyPath.Some? <==> KeyedKind(c.info.kind) && Field(secret, "privateKey").Some?
    requires keyPath.Some? ==> keyPath.value != ""
    ensures ApplyCopy(s, cid, c, secret, keyPath, id).Some? <==> Usable(s, c, secret)
  {
    hide Field, TransportSecretsOf, TransportRow, ConnectionRow;
  }

  lemma UsableWithoutBlobs(s: State, s1: State, c: Credential, secret: Blobs.Secret)
    requires s1.transports == s.transports && s1.connections == s.connections
    ensures Usable(s1, c, secret) <==> Usable(s, c, secret)
  {
    hide Field;
  }

  /** With an open vault and nothing failing, a sync succeeds exactly for a credential that can be used for backups. */
  lemma SyncSucceedsExactly(io: Io, s: State, cid: Id, given: Option<Blobs.Secret>)
    requires FreshIo(io, s) && Healthy(io) && cid in s.credentials
    ensures Sync(io, s, cid, true, given).1 == Answered(true, SyncOk) <==>
            Usable(s, s.credentials[cid], SecretFor(s, s.credentials[cid], given))
  {
    hide SecretFor, Field, ApplyCopy, Usable, LinkedTransport;
    var c := s.credentials[cid];
    var secret := SecretFor(s, c, given);
    var key := if KeyedKind(c.info.kind) then Field(secret, "privateKey") else None;
    var files := if key.Some? then s.keyFiles[io.dest := io.encode(key.value)] else s.keyFiles;
    var path := if key.Some? then Some(io.dest) else None;
    var s0 := s.(keyFiles := files);
    var s1 := if given.Some? && c.blobRef.Some? then s0.(blobs := s0.blobs[c.blobRef.value := Blobs.ToJson(secret)])
      else s0;
    ApplySucceedsExactly(s1, cid, c, secret, path, io.id);
    UsableWithoutBlobs(s, s1, c, secret);
    if Usable(s, c, secret) { KindsOfUsable(s, c, secret); }
  }

  lemma KindsOfUsable(s: State, c: Credential, secret: Blobs.Secret)
    requires Usable(s, c, secret)
    ensures LinksConnection(c.info.kind) || LinksTransport(c.info.kind)
  {
  }

  // The one reference that a sync writes or deletes.

  datatype Touched = Nothing | Writes(ref: Ref, value: string) | Deletes(ref: Ref)

  /** The secret field that a credential's connection uses, and the reference a new connection keeps it under. */
  function SecretKey(k: CredentialKind): string {
    if KeyedKind(k) then "privateKeyPassphrase" else "password"
  }

  function NewRef(k: CredentialKind, cid: Id): Ref {
    if LinksConnection(k) then DbPasswordRef(cid) else if KeyedKind(k) then PassphraseRef(cid) else PasswordRef(cid)
  }

  /** The reference that the linked row holds; a database connection is always given the credential's own. */
  function LinkedRef(s: State, c: Credential): Option<Ref> {
    if LinksConnection(c.info.kind) || LinkedTransport(s, c).None? then None
    else if KeyedKind(c.info.kind) then LinkedTransport(s, c).value.passphraseRef
    else LinkedTransport(s, c).value.passwordRef
  }

  /** What a sync does to the secrets, from the credential's id, kind, linked row and secret alone. */
  function TouchOf(s: State, cid: Id, c: Credential, secret: Blobs.Secret): Touched {
    var value, held := Field(secret, SecretKey(c.info.kind)), LinkedRef(s, c);
    if value.Some? then Writes(held.GetOr(NewRef(c.info.kind, cid)), value.value)
    else if KeyedKind(c.info.kind) && held.Some? then Deletes(held.value)
    else Nothing
  }

  function AfterTouch(secrets: map<Ref, string>, t: Touched): map<Ref, string> {
    match t
    case Nothing => secrets
    case Writes(ref, value) => secrets[ref := value]
    case Deletes(ref) => secrets - {ref}
  }

  /** The secret under a reference changes. */
  predicate Changes(secrets: map<Ref, string>, t: Touched, ref: Option<Ref>) {
    match t
    case Nothing => false
    case Writes(r, value) => ref == Some(r) && SecretAt(secrets, ref) != Some(value)
    case Deletes(r) => ref == Some(r) && r in secrets
  }

  lemma ChangesExactly(secrets: map<Ref, string>, t: Touched, ref: Option<Ref>)
    ensures SecretAt(AfterTouch(secrets, t), ref) != SecretAt(secrets, ref) <==> Changes(secrets, t, ref)
  {
  }

  lemma ApplyTouchesOne(s: State, cid: Id, c: Credential, secret: Blobs.Secret, keyPath: Option<Path>, io: Io)
    requires cid in s.credentials && c == s.credentials[cid] && ApplyCopy(s, cid, c, secret, keyPath, io.id).Some?
    ensures ApplyCopy(s, cid, c, secret, keyPath, io.id).value.secrets
            == AfterTouch(s.secrets, TouchOf(s, cid, c, secret))
  {
    hide Field, ApplyTransport, ApplyDatabase;
    if LinksConnection(c.info.kind) {
      DatabaseWritten(io, s, cid, c, secret);
    } else {
      TransportWritten(io, s, cid, c, secret, keyPath);
    }
  }

  /** The state between the key file and the retiring of the old one. */
  lemma SyncedThrough(io: Io, s: State, cid: Id, given: Option<Blobs.Secret>)
    returns (s1: State, mid: State, path: Option<Path>)
    requires FreshIo(io, s) && Sync(io, s, cid, true, given).1 == Answered(true, SyncOk)
    ensures cid in s.credentials
    ensures s1.transports == s.transports && s1.connections == s.connections && s1.credentials == s.credentials
            && s1.secrets == s.secrets
    ensures ApplyCopy(s1, cid, s.credentials[cid], SecretFor(s, s.credentials[cid], given), path, io.id) == Some(mid)
    ensures var t := Sync(io, s, cid, true, given).0;
            t.secrets == mid.secrets && t.transports == mid.transports && t.connections == mid.connections
              && t.credentials == mid.credentials
  {
    hide Sync, SecretFor, RetiredOld, Field, ApplyCopy, LinkedTransport;
    CallEnds(io, s, cid, true, given);
    var t, c := Sync(io, s, cid, true, given).0, s.credentials[cid];
    var files, path', secret, mid' :|
      && secret == SecretFor(s, c, given) && WithKey(io, s, c, secret, files, path')
      && Transaction(io, s.(keyFiles := files), cid, c, given, secret, path') == Some(mid')
      && (t == mid' || RetiredOld(io, s, c, mid', t, path'));
    mid, path := mid', path';
    var s0 := s.(keyFiles := files);
    s1 := if given.Some? && c.blobRef.Some? then s0.(blobs := s0.blobs[c.blobRef.value := Blobs.ToJson(secret)])
      else s0;
    if RetiredOld(io, s, c, mid, t, path) { RetiredOldKeepsTables(io, s, c, mid, t, path); }
  }

  lemma RetiredOldKeepsTables(io: Io, s: State, c: Credential, mid: State, t: State, path: Option<Path>)
    requires RetiredOld(io, s, c, mid, t, path)
    ensures t.secrets == mid.secrets && t.transports == mid.transports && t.connections == mid.connections
            && t.credentials == mid.credentials
  {
    hide Referenced, LinkedTransport;
  }

  // The row itself, kind by kind.

  /** A new transport: its kind is the credential's, and what the credential does not say has its default. */
  predicate NewTransport(row: Transport, c: Credential) {
    && row.kind == (match c.info.kind
                    case KindFtp => Ftp
                    case KindSftp => Sftp
                    case _ => Ssh)
    && row.clientId == c.clientId && row.name == c.info.name + " (bóveda)" && row.isActive && row.knownHost.None?
    && Some(row.host) == c.info.host && Some(row.username) == c.info.username
    && row.port == (if c.info.port.Some? then c.info.port.value else if c.info.kind.KindFtp? then 21 else 22)
    && (if c.info.kind.KindFtp? then row.keyPath.None? && row.passphraseRef.None? else row.passwordRef.None?)
  }

  /**
   A linked transport keeps its kind, client, name and the rest; an FTP one its key, the others their password; so does
   an FTP one that is given none.
   */
  predicate UpdatedTransport(old_: Transport, row: Transport, c: Credential, secret: Blobs.Secret) {
    && row == old_.(host := row.host, port := row.port, username := row.username, keyPath := row.keyPath,
                    passphraseRef := row.passphraseRef, passwordRef := row.passwordRef)
    && Some(row.host) == c.info.host && Some(row.username) == c.info.username
    && row.port == (if c.info.port.Some? then c.info.port.value else old_.port)
    && (if c.info.kind.KindFtp? then row.keyPath == old_.keyPath && row.passphraseRef == old_.passphraseRef
        else row.passwordRef == old_.passwordRef)
    && (c.info.kind.KindFtp? && Field(secret, "password").None? ==> row.passwordRef == old_.passwordRef)
  }

  /** A new connection has the engine of the credential's kind. */
  predicate NewConnection(row: Connection, c: Credential, secret: Blobs.Secret) {
    && (match c.info.kind
        case KindPostgres => row.engine == Postgres
        case KindMysql => row.engine == Mysql
        case KindMariadb => row.engine == Mariadb
        case _ => false)
    && row.clientId == c.clientId && row.name == c.info.name + " (bóveda)" && row.isActive && row.sslMode.None?
    && Some(row.host) == c.info.host && Some(row.port) == c.info.port && Some(row.username) == c.info.username
    && Some(row.databaseName) == c.info.databaseName && (row.passwordRef.Some? <==> Field(secret, "password").Some?)
  }

  /** A linked connection keeps its engine, client, name and the rest, and its password unless there is one. */
  predicate UpdatedConnection(old_: Connection, row: Connection, c: Credential, secret: Blobs.Secret) {
    && row == old_.(host := row.host, port := row.port, databaseName := row.databaseName, username := row.username,
                    passwordRef := row.passwordRef)
    && Some(row.host) == c.info.host && Some(row.port) == c.info.port && Some(row.username) == c.info.username
    && Some(row.databaseName) == c.info.databaseName
    && (Field(secret, "password").None? ==> row.passwordRef == old_.passwordRef)
  }

  /** What the tables gain: one row, new or updated, to which the credential is linked afterwards. */
  ghost predicate MakesRow(s: State, t: State, cid: Id, c: Credential, secret: Blobs.Secret, id: Id) {
    cid in t.credentials &&
    match c.info.kind
    case KindPostgres => MakesConnection(s, t, cid, c, secret, id)
    case KindMysql => MakesConnection(s, t, cid, c, secret, id)
    case KindMariadb => MakesConnection(s, t, cid, c, secret, id)
    case KindSsh => MakesTransport(s, t, cid, c, secret, id)
    case KindSshKey => MakesTransport(s, t, cid, c, secret, id)
    case KindSftp => MakesTransport(s, t, cid, c, secret, id)
    case KindFtp => MakesTransport(s, t, cid, c, secret, id)
    case KindOther(_) => false
  }

  ghost predicate MakesTransport(s: State, t: State, cid: Id, c: Credential, secret: Blobs.Secret, id: Id)
    requires cid in t.credentials
  {
    && t.connections == s.connections
    && if c.linkedTransportId.Some? && c.linkedTransportId.value in s.transports then
         var linked := c.linkedTransportId.value;
         && linked in t.transports && t.transports == s.transports[linked := t.transports[linked]]
         && UpdatedTransport(s.transports[linked], t.transports[linked], c, secret)
         && t.credentials[cid] == c.(sync := SyncOk)
       else
         && id in t.transports && t.transports == s.transports[id := t.transports[id]]
         && NewTransport(t.transports[id], c) && t.credentials[cid] == c.(sync := SyncOk, linkedTransportId := Some(id))
  }

  ghost predicate MakesConnection(s: State, t: State, cid: Id, c: Credential, secret: Blobs.Secret, id: Id)
    requires cid in t.credentials
  {
    && t.transports == s.transports
    && if c.linkedConnectionId.Some? then
         var linked := c.linkedConnectionId.value;
         && linked in s.connections && linked in t.connections
         && t.connections == s.connections[linked := t.connections[linked]]
         && UpdatedConnection(s.connections[linked], t.connections[linked], c, secret)
         && t.credentials[cid] == c.(sync := SyncOk)
       else
         && id in t.connections && t.connections == s.connections[id := t.connections[id]]
         && NewConnection(t.connections[id], c, secret)
         && t.credentials[cid] == c.(sync := SyncOk, linkedConnectionId := Some(id))
  }

  lemma TransportRowIs(s: State, cid: Id, c: Credential, existing: Option<Transport>, path: Option<Path>,
                       secret: Blobs.Secret)
    requires Present(c.info.host) && Present(c.info.username)
    requires c.info.kind.KindSsh? || c.info.kind.KindSshKey? || c.info.kind.KindSftp? || c.info.kind.KindFtp?
    ensures var (phraseRef, passRef, _) := TransportSecretsOf(s, cid, c.info.kind, existing, secret);
            var row := TransportRow(c, existing, path, phraseRef, passRef);
            if existing.Some? then UpdatedTransport(existing.value, row, c, secret) else NewTransport(row, c)
  {
    hide Field;
  }

  lemma ConnectionRowIs(cid: Id, c: Credential, existing: Option<Connection>, secret: Blobs.Secret)
    requires Present(c.info.host) && Present(c.info.username) && Present(c.info.databaseName) && c.info.port.Some?
    requires c.info.kind.KindPostgres? || c.info.kind.KindMysql? || c.info.kind.KindMariadb?
    ensures var ref := if Field(secret, "password").Some? then Some(DbPasswordRef(cid)) else None;
            var row := ConnectionRow(c, existing, ref);
            if existing.Some? then UpdatedConnection(existing.value, row, c, secret) else NewConnection(row, c, secret)
  {
    hide Field;
  }

  lemma TransportMadeRow(s: State, cid: Id, c: Credential, secret: Blobs.Secret, keyPath: Option<Path>, id: Id)
    requires cid in s.credentials && c == s.credentials[cid] && ApplyTransport(s, cid, c, secret, keyPath, id).Some?
    requires c.info.kind.KindSsh? || c.info.kind.KindSshKey? || c.info.kind.KindSftp? || c.info.kind.KindFtp?
    ensures var t := ApplyTransport(s, cid, c, secret, keyPath, id).value;
            cid in t.credentials && MakesTransport(s, t, cid, c, secret, id)
  {
    TransportRowIs(s, cid, c, LinkedTransport(s, c), PathFor(s, c, keyPath), secret);
    hide TransportSecretsOf, TransportRow, UpdatedTransport, NewTransport, AcceptableLink, Field;
  }

  lemma ConnectionMadeRow(s: State, cid: Id, c: Credential, secret: Blobs.Secret, id: Id)
    requires cid in s.credentials && c == s.credentials[cid] && ApplyDatabase(s, cid, c, secret, id).Some?
    requires c.info.kind.KindPostgres? || c.info.kind.KindMysql? || c.info.kind.KindMariadb?
    ensures var t := ApplyDatabase(s, cid, c, secret, id).value;
            cid in t.credentials && MakesConnection(s, t, cid, c, secret, id)
  {
    assert Present(c.info.host) && Present(c.info.username) && Present(c.info.databaseName) && c.info.port.Some?;
    ConnectionRowIs(cid, c, LinkedConnection(s, c), secret);
    hide ConnectionRow, UpdatedConnection, NewConnection, AcceptableLink, Field;
  }

  lemma ApplyMakesRow(s: State, cid: Id, c: Credential, secret: Blobs.Secret, keyPath: Option<Path>, id: Id)
    requires cid in s.credentials && c == s.credentials[cid] && ApplyCopy(s, cid, c, secret, keyPath, id).Some?
    ensures MakesRow(s, ApplyCopy(s, cid, c, secret, keyPath, id).value, cid, c, secret, id)
  {
    hide ApplyTransport, ApplyDatabase, MakesTransport, MakesConnection;
    if c.info.kind.KindPostgres? || c.info.kind.KindMysql? || c.info.kind.KindMariadb? {
      ConnectionMadeRow(s, cid, c, secret, id);
    } else {
      TransportMadeRow(s, cid, c, secret, keyPath, id);
    }
  }

  /** A successful sync makes or updates exactly one row, of the credential's kind. */
  lemma SyncMakesRow(io: Io, s: State, cid: Id, given: Option<Blobs.Secret>)
    requires FreshIo(io, s) && Sync(io, s, cid, true, given).1 == Answered(true, SyncOk)
    ensures cid in s.credentials
    ensures var c := s.credentials[cid];
            MakesRow(s, Sync(io, s, cid, true, given).0, cid, c, SecretFor(s, c, given), io.id)
  {
    hide Sync, SecretFor, ApplyCopy, UpdatedTransport, NewTransport, UpdatedConnection, NewConnection;
    var s1, mid, path := SyncedThrough(io, s, cid, given);
    ApplyMakesRow(s1, cid, s.credentials[cid], SecretFor(s, s.credentials[cid], given), path, io.id);
  }

  /** The key that a sync writes: only the kinds that use one, and only if the secret has one. */
  function KeyWritten(io: Io, c: Credential, secret: Blobs.Secret): Option<Bytes> {
    if c.info.kind.KindSsh? || c.info.kind.KindSshKey? || c.info.kind.KindSftp? then
      if "privateKey" in secret.fields && secret.fields["privateKey"] != ""
      then Some(io.encode(secret.fields["privateKey"])) else None
    else None
  }

  /**
   What a successful sync does to blobs and key files: a secret that the caller brought is written to the credential's
   blob; the key goes to a new file; and the key file it replaces is removed, if no transport names it and it can be.
   */
  lemma SyncWritesExactly(io: Io, s: State, cid: Id, given: Option<Blobs.Secret>)
    requires FreshIo(io, s) && Sync(io, s, cid, true, given).1 == Answered(true, SyncOk)
    ensures cid in s.credentials
    ensures var t, c := Sync(io, s, cid, true, given).0, s.credentials[cid];
            var key := KeyWritten(io, c, SecretFor(s, c, given));
            var old_ := if LinkedTransport(s, c).Some? then LinkedTransport(s, c).value.keyPath else None;
            && t.blobs == (if given.Some? && c.blobRef.Some? then s.blobs[c.blobRef.value := Blobs.ToJson(given.value)]
                           else s.blobs)
            && t.keyFiles ==
               (if key.Some? then s.keyFiles[io.dest := key.value] else s.keyFiles)
               - (if key.Some? && Present(old_) && old_.value != io.dest && io.unlinks(old_.value)
                     && (forall i :: i in t.transports ==> t.transports[i].keyPath != old_)
                  then {old_.value} else {})
  {
    hide Transaction, Retired, Blobs.ToJson, Blobs.Read;
    var c := s.credentials[cid];
    var secret := SecretFor(s, c, given);
    var key := KeyWritten(io, c, secret);
    var s0 := s.(keyFiles := if key.Some? then s.keyFiles[io.dest := key.value] else s.keyFiles);
    var path := if key.Some? then Some(io.dest) else None;
    TransactionWrites(io, s0, cid, c, given, secret, path);
    var old_ := if LinkedTransport(s, c).Some? then LinkedTransport(s, c).value.keyPath else None;
    if old_.Some? { RetiredExactly(io, Transaction(io, s0, cid, c, given, secret, path).value, old_.value); }
    hide LinkedTransport, SecretFor;
  }

  lemma TransactionWrites(io: Io, s: State, cid: Id, c: Credential, given: Option<Blobs.Secret>, secret: Blobs.Secret,
                          keyPath: Option<Path>)
    requires given.Some? ==> secret == given.value
    ensures var t := Transaction(io, s, cid, c, given, secret, keyPath);
            t.Some? ==>
              && t.value.keyFiles == s.keyFiles
              && t.value.blobs == (if given.Some? && c.blobRef.Some?
                                   then s.blobs[c.blobRef.value := Blobs.ToJson(given.value)]
                                   else s.blobs)
  {
    hide ApplyCopy, Blobs.ToJson;
    var s1 := if given.Some? && c.blobRef.Some? then s.(blobs := s.blobs[c.blobRef.value := Blobs.ToJson(secret)])
      else s;
    if ApplyCopy(s1, cid, c, secret, keyPath, io.id).Some? { ApplyKeepsFiles(s1, cid, c, secret, keyPath, io.id); }
  }

  lemma RetiredExactly(io: Io, s: State, path: Path)
    ensures Retired(io, s, path).blobs == s.blobs && Retired(io, s, path).transports == s.transports
    ensures Retired(io, s, path).keyFiles == s.keyFiles
            - if io.unlinks(path) && (forall i :: i in s.transports ==> s.transports[i].keyPath != Some(path))
              then {path}
              else {}
  {
    assert s.keyFiles - {} == s.keyFiles;
  }

  lemma ApplyKeepsFiles(s: State, cid: Id, c: Credential, secret: Blobs.Secret, keyPath: Option<Path>, id: Id)
    requires ApplyCopy(s, cid, c, secret, keyPath, id).Some?
    ensures var t := ApplyCopy(s, cid, c, secret, keyPath, id).value; t.keyFiles == s.keyFiles && t.blobs == s.blobs
  {
    hide Field, TransportSecretsOf, TransportRow, ConnectionRow;
  }

  lemma SyncTouchesOne(io: Io, s: State, cid: Id, given: Option<Blobs.Secret>)
    requires FreshIo(io, s) && Sync(io, s, cid, true, given).1 == Answered(true, SyncOk)
    ensures cid in s.credentials
    ensures Sync(io, s, cid, true, given).0.secrets
            == AfterTouch(s.secrets, TouchOf(s, cid, s.credentials[cid], SecretFor(s, s.credentials[cid], given)))
  {
    hide Sync, SecretFor, Field, ApplyCopy, LinksConnection, LinksTransport, KeyedKind;
    var s1, mid, path := SyncedThrough(io, s, cid, given);
    ApplyTouchesOne(s1, cid, s.credentials[cid], SecretFor(s, s.credentials[cid], given), path, io);
  }

  /**
   Whose secrets a successful sync changes, exactly: it writes or deletes one reference, so the secret of any
   other row changes if and only if that row holds the reference and the value differs.
   */
  lemma OtherSecretsChangeExactly(io: Io, s: State, cid: Id, given: Option<Blobs.Secret>)
    requires FreshIo(io, s) && Sync(io, s, cid, true, given).1 == Answered(true, SyncOk)
    ensures cid in s.credentials
    ensures var t, c := Sync(io, s, cid, true, given).0, s.credentials[cid];
            var touched := TouchOf(s, cid, c, SecretFor(s, c, given));
            && (forall i :: i in s.transports && c.linkedTransportId != Some(i) ==>
                  && i in t.transports && t.transports[i] == s.transports[i]
                  && (SecretAt(t.secrets, s.transports[i].passphraseRef) != SecretAt(s.secrets,
                      s.transports[i].passphraseRef)
                      <==> Changes(s.secrets, touched, s.transports[i].passphraseRef))
                  && (SecretAt(t.secrets, s.transports[i].passwordRef) != SecretAt(s.secrets,
                      s.transports[i].passwordRef)
                      <==> Changes(s.secrets, touched, s.transports[i].passwordRef)))
            && (forall i :: i in s.connections && c.linkedConnectionId != Some(i) ==>
                  && i in t.connections && t.connections[i] == s.connections[i]
                  && (SecretAt(t.secrets, s.connections[i].passwordRef) != SecretAt(s.secrets,
                      s.connections[i].passwordRef)
                      <==> Changes(s.secrets, touched, s.connections[i].passwordRef)))
  {
    hide Sync, SecretFor, Field, TouchOf, AfterTouch, Changes, SecretAt, OwnRef, Reflects;
    SyncReflects(io, s, cid, given);
    SyncTouchesOne(io, s, cid, given);
    var touched := TouchOf(s, cid, s.credentials[cid], SecretFor(s, s.credentials[cid], given));
    forall ref
      ensures SecretAt(AfterTouch(s.secrets, touched), ref) != SecretAt(s.secrets, ref) <==>
              Changes(s.secrets, touched, ref)
    {
      ChangesExactly(s.secrets, touched, ref);
    }
  }

  // A connection that was unlinked keeps its reference, and the credential's next connection gets the same one.

  /** The row keeps the secret of this kind of credential under `ref`. */
  predicate Holds(t: State, k: CredentialKind, id: Id, ref: Ref) {
    if LinksConnection(k) then id in t.connections && t.connections[id].passwordRef == Some(ref)
    else if KeyedKind(k) then id in t.transports && t.transports[id].passphraseRef == Some(ref)
    else id in t.transports && t.transports[id].passwordRef == Some(ref)
  }

  /** A new connection holds the credential's own reference, if there is a secret to keep. */
  lemma NewLinkHoldsOwnReference(io: Io, s: State, cid: Id, given: Option<Blobs.Secret>)
    requires FreshIo(io, s) && Sync(io, s, cid, true, given).1 == Answered(true, SyncOk)
    requires cid in s.credentials && !Linked(s.credentials[cid])
    requires Field(SecretFor(s, s.credentials[cid], given), SecretKey(s.credentials[cid].info.kind)).Some?
    ensures var t, k := Sync(io, s, cid, true, given).0, s.credentials[cid].info.kind;
            && Holds(t, k, io.id, NewRef(k, cid)) && cid in t.credentials
              && t.credentials[cid].info == s.credentials[cid].info
            && SecretAt(t.secrets, Some(NewRef(k, cid))) == Field(SecretFor(s, s.credentials[cid], given), SecretKey(k))
  {
    hide Sync, SecretFor, Field;
    var c := s.credentials[cid];
    var secret := SecretFor(s, c, given);
    var s1, mid, path := SyncedThrough(io, s, cid, given);
    SyncTouchesOne(io, s, cid, given);
    hide ApplyTransport, ApplyDatabase;
    if LinksConnection(c.info.kind) {
      DatabaseWritten(io, s1, cid, c, secret);
    } else {
      TransportWritten(io, s1, cid, c, secret, path);
    }
  }

  /** The calls of the next lemma: linked, unlinked, and linked again. */
  datatype Relinking = Relinking(io1: Io, given1: Blobs.Secret, io2: Io, io3: Io, given3: Blobs.Secret)

  function Linking1(s: State, cid: Id, x: Relinking): (State, Answer) { Sync(x.io1, s, cid, true, Some(x.given1)) }
  function Unlinking2(s: State, cid: Id, x: Relinking): (State, Answer) {
    Sync(x.io2, Linking1(s, cid, x).0, cid, false, None)
  }
  function Linking3(s: State, cid: Id, x: Relinking): (State, Answer) {
    Sync(x.io3, Unlinking2(s, cid, x).0, cid, true, Some(x.given3))
  }

  /** All three calls succeed, for a credential that was not linked, with a secret each time. */
  ghost predicate Succeeds(s: State, cid: Id, x: Relinking) {
    && cid in s.credentials && !Linked(s.credentials[cid])
    && FreshIo(x.io1, s) && FreshIo(x.io2, s) && FreshIo(x.io3, s) && Apart(x.io1, x.io2) && Apart(x.io1, x.io3)
      && Apart(x.io2, x.io3)
    && Linking1(s, cid, x).1 == Answered(true, SyncOk) && Unlinking2(s, cid, x).1 == Answered(true, SyncNone)
    && Linking3(s, cid, x).1 == Answered(true, SyncOk)
    && Field(x.given1, SecretKey(s.credentials[cid].info.kind)).Some?
      && Field(x.given3, SecretKey(s.credentials[cid].info.kind)).Some?
  }

  lemma RelinkingShares(s: State, cid: Id, x: Relinking)
    requires Succeeds(s, cid, x)
    ensures var t, k := Linking3(s, cid, x).0, s.credentials[cid].info.kind;
            && x.io1.id != x.io3.id && Holds(t, k, x.io1.id, NewRef(k, cid)) && Holds(t, k, x.io3.id, NewRef(k, cid))
            && SecretAt(t.secrets, Some(NewRef(k, cid))) == Field(x.given3, SecretKey(k))
            && cid in t.credentials && t.credentials[cid].info == s.credentials[cid].info
  {
    hide Sync, Field, NewRef, SecretKey, OwnRef, Reflects, SecretAt;
    var k := s.credentials[cid].info.kind;
    var s1, s2, t := Linking1(s, cid, x).0, Unlinking2(s, cid, x).0, Linking3(s, cid, x).0;
    NewLinkHoldsOwnReference(x.io1, s, cid, Some(x.given1));
    StaysFresh(x.io1, s, cid, true, Some(x.given1), x.io2);
    StaysFresh(x.io1, s, cid, true, Some(x.given1), x.io3);
    StaysFresh(x.io2, s1, cid, false, None, x.io3);
    CallEnds(x.io2, s1, cid, false, None);
    assert Unlinked(s1, s2, cid);
    NewLinkHoldsOwnReference(x.io3, s2, cid, Some(x.given3));
    SyncReflects(x.io3, s2, cid, Some(x.given3));
    hide Linking1, Unlinking2, Linking3, FreshIo, Unchanged, Synced;
  }

  /**
   Relinking reaches the unlinked connection, for every kind: unlinking leaves it the secret it was linked with;
   linking again, through another connection, gives it the new one.
   */
  lemma RelinkingReachesTheUnlinked(s: State, cid: Id, x: Relinking)
    requires Succeeds(s, cid, x)
    ensures var before, t, k := Unlinking2(s, cid, x).0, Linking3(s, cid, x).0, s.credentials[cid].info.kind;
            && Holds(before, k, x.io1.id, NewRef(k, cid)) && Holds(t, k, x.io1.id, NewRef(k, cid))
            && SecretAt(before.secrets, Some(NewRef(k, cid))) == Field(x.given1, SecretKey(k))
            && SecretAt(t.secrets, Some(NewRef(k, cid))) == Field(x.given3, SecretKey(k))
  {
    hide Sync, Field, NewRef, SecretKey, SecretAt, Synced, Unchanged;
    RelinkingShares(s, cid, x);
    NewLinkHoldsOwnReference(x.io1, s, cid, Some(x.given1));
    StaysFresh(x.io1, s, cid, true, Some(x.given1), x.io2);
    CallEnds(x.io2, Linking1(s, cid, x).0, cid, false, None);
    hide FreshIo;
  }

  /** And when the credential later loses its passphrase, a sync deletes the secret for both. */
  lemma LosingThePassphraseReachesBoth(s: State, cid: Id, x: Relinking, io: Io, given: Blobs.Secret)
    requires Succeeds(s, cid, x) && KeyedKind(s.credentials[cid].info.kind)
    requires FreshIo(io, Linking3(s, cid, x).0)
             && Sync(io, Linking3(s, cid, x).0, cid, true, Some(given)).1 == Answered(true, SyncOk)
    requires Field(given, "privateKeyPassphrase").None?
    ensures var t, k := Sync(io, Linking3(s, cid, x).0, cid, true, Some(given)).0, s.credentials[cid].info.kind;
            Holds(t, k, x.io1.id, PassphraseRef(cid)) && SecretAt(t.secrets, Some(PassphraseRef(cid))) == None
  {
    var mid := Linking3(s, cid, x).0;
    LinkedToTheNewRow(s, cid, x);
    RelinkingShares(s, cid, x);
    hide Sync, Field, OwnRef, Reflects, Succeeds, Linking3;
    SyncTouchesOne(io, mid, cid, Some(given));
    SyncReflects(io, mid, cid, Some(given));
  }

  /** After a link the credential points to the new row. */
  lemma LinkedToTheNewRow(s: State, cid: Id, x: Relinking)
    requires Succeeds(s, cid, x) && KeyedKind(s.credentials[cid].info.kind)
    ensures cid in Linking3(s, cid, x).0.credentials
            && Linking3(s, cid, x).0.credentials[cid].linkedTransportId == Some(x.io3.id)
  {
    hide Sync, Field, SecretAt;
    var s1, s2 := Linking1(s, cid, x).0, Unlinking2(s, cid, x).0;
    NewLinkHoldsOwnReference(x.io1, s, cid, Some(x.given1));
    StaysFresh(x.io1, s, cid, true, Some(x.given1), x.io2);
    StaysFresh(x.io1, s, cid, true, Some(x.given1), x.io3);
    StaysFresh(x.io2, s1, cid, false, None, x.io3);
    CallEnds(x.io2, s1, cid, false, None);
    assert Unlinked(s1, s2, cid);
    var c := s2.credentials[cid];
    var sm, mid, path := SyncedThrough(x.io3, s2, cid, Some(x.given3));
    hide ApplyTransport, ApplyDatabase, Succeeds, Linking1, Unlinking2, Linking3;
    TransportWritten(x.io3, sm, cid, c, SecretFor(s2, c, Some(x.given3)), path);
  }

  // It happens, for every kind.

  /** A call in which nothing fails. */
  function Quiet(id: string, dest: Path, tmp: Path): Io {
    Io(true, Id(id), dest, tmp, true, NoFault, None, false, (p: Path) => true, true, (text: string) => [])
  }

  const K: Id := Id("k")

  function Unused(kind: CredentialKind): State {
    var info := CredentialInfo("vps", kind, None, [], Some("host"), Some(22), Some("root"), Some("db"), None, false,
                               None);
    State(map[], map[], map[K := Credential(Id("c"), info, None, None, None, SyncNone)], map[], map[], map[])
  }

  const FIELDS: map<string, string> := map["privateKey" := "key"]

  function Secrets(text: string): Blobs.Secret {
    Blobs.Secret(FIELDS["privateKeyPassphrase" := text]["password" := text], map[])
  }

  function Example(): Relinking {
    Relinking(Quiet("a", "a.key", "a.tmp"), Secrets("old"), Quiet("b", "b.key", "b.tmp"), Quiet("c", "c.key", "c.tmp"),
              Secrets("new"))
  }

  lemma ExampleSecrets(text: string)
    requires text != ""
    ensures Field(Secrets(text), "privateKey") == Some("key")
    ensures Field(Secrets(text), "privateKeyPassphrase") == Some(text) && Field(Secrets(text), "password") == Some(text)
  {
  }

  lemma ExampleUsable(s: State, kind: CredentialKind, text: string)
    requires LinksTransport(kind) || LinksConnection(kind)
    requires K in s.credentials && s.credentials[K].info == Unused(kind).credentials[K].info
             && !Linked(s.credentials[K]) && text != ""
    ensures Usable(s, s.credentials[K], Secrets(text))
  {
    ExampleSecrets(text);
    hide Field, Secrets;
  }

  lemma ExampleNames(kind: CredentialKind)
    ensures var x := Example();
            && FreshIo(x.io1, Unused(kind)) && FreshIo(x.io2, Unused(kind)) && FreshIo(x.io3, Unused(kind))
            && Apart(x.io1, x.io2) && Apart(x.io1, x.io3) && Apart(x.io2, x.io3)
            && Healthy(x.io1) && Healthy(x.io2) && Healthy(x.io3)
  {
  }

  lemma SharingHappens(kind: CredentialKind)
    requires kind.KindSsh? || kind.KindSshKey? || kind.KindSftp? || kind.KindFtp?
             || kind.KindPostgres? || kind.KindMysql? || kind.KindMariadb?
    ensures Succeeds(Unused(kind), K, Example())
    ensures var x := Example(); x.given1.fields["password"] != x.given3.fields["password"]
  {
    var s, x := Unused(kind), Example();
    ExampleNames(kind);
    ExampleSecrets("old");
    ExampleSecrets("new");
    ExampleUsable(s, kind, "old");
    assert x.given1 == Secrets("old") && x.given3 == Secrets("new");
    hide Sync, Field, Secrets, Usable, SecretAt;
    SyncSucceedsExactly(x.io1, s, K, Some(x.given1));
    NewLinkHoldsOwnReference(x.io1, s, K, Some(x.given1));
    StaysFresh(x.io1, s, K, true, Some(x.given1), x.io2);
    StaysFresh(x.io1, s, K, true, Some(x.given1), x.io3);
    var s1 := Linking1(s, K, x).0;
    UnlinkSucceeds(x.io2, s1, K);
    var s2 := Unlinking2(s, K, x).0;
    StaysFresh(x.io2, s1, K, false, None, x.io3);
    ExampleUsable(s2, kind, "new");
    SyncSucceedsExactly(x.io3, s2, K, Some(x.given3));
  }

  lemma UnlinkSucceeds(io: Io, s: State, cid: Id)
    requires cid in s.credentials && !io.dbFails
    ensures Sync(io, s, cid, false, None).1 == Answered(true, SyncNone)
            && Unlinked(s, Sync(io, s, cid, false, None).0, cid)
  {
  }
}

/**
 What Desktop publishes to the phone (pocketSnapshot.ts): the active clients with their credentials and links, each
 secret as the vault reads it. Desktop and phone keep their lists of kinds and of secret fields apart, by hand; what
 is proved here is that they agree.
 */
module PocketSnapshot {
  import opened Common
  import opened RestoreLoop
  import opened RecoveryModel
  import Blobs = CredentialBlob
  import Export
  import Pocket = PocketPayload
  import Sync = PocketSync
  import Blob

  /** Desktop's list of kinds (types.ts). */
  const VAULT_KINDS: seq<string> := ["ssh", "sftp", "ftp", "postgres", "mysql", "mariadb", "smtp", "http_basic",
                                     "web_panel", "api", "oauth_client", "generic_login", "generic_secret", "ssh_key",
                                     "custom"]

  function KindName(k: CredentialKind): string {
    match k
    case KindSsh => "ssh"
    case KindSftp => "sftp"
    case KindFtp => "ftp"
    case KindSshKey => "ssh_key"
    case KindPostgres => "postgres"
    case KindMysql => "mysql"
    case KindMariadb => "mariadb"
    case KindOther(name) => name
  }

  predicate ActiveOwner(s: Install, owner: Id) {
    owner in s.clients && s.clients[owner].isActive
  }

  /** What the vault holds for the credential; `{}` when it has no blob. */
  function SecretOf(s: Install, c: Credential): Pocket.Secret {
    var secret := Blobs.Read(SecretAt(s.blobs, c.blobRef));
    Pocket.Secret(secret.fields, secret.custom)
  }

  function ClientEntry(id: Id, c: Client): (e: Pocket.Client)
    ensures ClientSeen(id, c, e)
  {
    Pocket.Client(id.text, c.name)
  }

  function CredentialEntry(s: Install, id: Id, c: Credential): (e: Pocket.Credential)
    ensures CredentialSeen(s, id, c, e)
  {
    var i := c.info;
    Pocket.Credential(id.text, c.clientId.text, i.name, KindName(i.kind), i.environment, i.tags, i.host,
                      if i.port.Some? then Some(i.port.value as real) else None, i.username, i.databaseName, i.url,
                      i.favorite, i.description, SecretOf(s, c))
  }

  function UrlEntry(id: Id, u: Url): (e: Pocket.Url)
    ensures UrlSeen(id, u, e)
  {
    Pocket.Url(id.text, u.clientId.text, u.info.name, u.info.url, u.info.environment, u.info.tags, u.info.favorite,
               u.info.description)
  }

  // What the phone sees of a row.

  predicate ClientSeen(id: Id, c: Client, e: Pocket.Client) {
    e.id == id.text && e.name == c.name
  }

  predicate CredentialSeen(s: Install, id: Id, c: Credential, e: Pocket.Credential) {
    && e.id == id.text && e.clientId == c.clientId.text && e.name == c.info.name && e.kind == KindName(c.info.kind)
    && e.environment == c.info.environment && e.tags == c.info.tags && e.favorite == c.info.favorite
    && e.host == c.info.host && e.username == c.info.username && e.databaseName == c.info.databaseName
    && e.url == c.info.url && e.description == c.info.description
    && e.secret.fields == Blobs.Read(SecretAt(s.blobs, c.blobRef)).fields
    && e.secret.custom == Blobs.Read(SecretAt(s.blobs, c.blobRef)).custom
    && (e.port.Some? <==> c.info.port.Some?) && (e.port.Some? ==> e.port.value == c.info.port.value as real)
  }

  predicate UrlSeen(id: Id, u: Url, e: Pocket.Url) {
    && e.id == id.text && e.clientId == u.clientId.text && e.name == u.info.name && e.url == u.info.url
    && e.environment == u.info.environment && e.tags == u.info.tags && e.favorite == u.info.favorite
    && e.description == u.info.description
  }

  /** The ids of exactly the included rows, each once. */
  ghost predicate Picks<R(!new)>(ids: seq<Id>, table: map<Id, R>, included: R -> bool) {
    && (forall j :: 0 <= j < |ids| ==> ids[j] in table && included(table[ids[j]]))
    && (forall j, k :: 0 <= j < k < |ids| ==> ids[j] != ids[k])
    && (forall id :: id in table && included(table[id]) ==> id in ids)
  }

  function ActiveClient(): Client -> bool { (c: Client) => c.isActive }
  function CredentialShown(s: Install): Credential -> bool { (c: Credential) => ActiveOwner(s, c.clientId) }
  function UrlShown(s: Install): Url -> bool { (u: Url) => ActiveOwner(s, u.clientId) }

  /** The snapshot shows these rows, in this order. */
  ghost predicate ShowsRows(s: Install, clients: seq<Id>, credentials: seq<Id>, urls: seq<Id>, snap: Pocket.Snapshot) {
    && Picks(clients, s.clients, ActiveClient()) && |snap.clients| == |clients|
    && Picks(credentials, s.credentials, CredentialShown(s)) && |snap.credentials| == |credentials|
    && Picks(urls, s.urls, UrlShown(s)) && |snap.urls| == |urls|
    && (forall j :: 0 <= j < |clients| ==> ClientSeen(clients[j], s.clients[clients[j]], snap.clients[j]))
    && (forall j :: 0 <= j < |credentials| ==>
          CredentialSeen(s, credentials[j], s.credentials[credentials[j]], snap.credentials[j]))
    && (forall j :: 0 <= j < |urls| ==> UrlSeen(urls[j], s.urls[urls[j]], snap.urls[j]))
  }

  /** The active clients, and what the vault holds for them: all of it, once, and nothing else. */
  ghost predicate Shows(s: Install, snap: Pocket.Snapshot) {
    exists clients, credentials, urls :: ShowsRows(s, clients, credentials, urls, snap)
  }

  /** Some secret that is to be published cannot be read while the vault is locked. */
  ghost predicate NeedsVault(s: Install) {
    exists id :: id in s.credentials && Unreadable(s, s.credentials[id])
  }

  predicate Unreadable(s: Install, c: Credential) {
    ActiveOwner(s, c.clientId) && c.blobRef.Some? && c.blobRef.value in s.blobs
  }

  /** `buildPocketSnapshotPayload`; `None` when the vault is locked and a secret is needed. */
  method BuildSnapshot(s: Install, unlocked: bool) returns (r: Option<Pocket.Snapshot>)
    ensures r.None? <==> !unlocked && NeedsVault(s)
    ensures r.Some? ==> Shows(s, r.value)
  {
    hide CredentialSeen, UrlSeen, ClientSeen, ActiveOwner;
    var clients := Export.Enumerate(s.clients, ActiveClient());
    var credentials := Export.Enumerate(s.credentials, CredentialShown(s));
    var urls := Export.Enumerate(s.urls, UrlShown(s));
    var entries: seq<Pocket.Credential> := [];
    for i := 0 to |credentials|
      invariant !unlocked ==> forall j :: 0 <= j < i ==> !Unreadable(s, s.credentials[credentials[j]])
      invariant |entries| == i
      invariant forall j :: 0 <= j < i ==>
                  CredentialSeen(s, credentials[j], s.credentials[credentials[j]], entries[j])
    {
      var c := s.credentials[credentials[i]];
      if !unlocked && c.blobRef.Some? && c.blobRef.value in s.blobs {
        assert Unreadable(s, c);
        return None;
      }
      entries := entries + [CredentialEntry(s, credentials[i], c)];
    }
    assert !unlocked ==> !NeedsVault(s);
    var snap := Pocket.Snapshot(
      seq(|clients|, j requires 0 <= j < |clients| => ClientEntry(clients[j], s.clients[clients[j]])), entries,
      seq(|urls|, j requires 0 <= j < |urls| => UrlEntry(urls[j], s.urls[urls[j]])));
    assert ShowsRows(s, clients, credentials, urls, snap);
    return Some(snap);
  }

  function ClientIds(snap: Pocket.Snapshot): seq<string> {
    seq(|snap.clients|, j requires 0 <= j < |snap.clients| => snap.clients[j].id)
  }

  function CredentialIds(snap: Pocket.Snapshot): seq<string> {
    seq(|snap.credentials|, j requires 0 <= j < |snap.credentials| => snap.credentials[j].id)
  }

  function UrlIds(snap: Pocket.Snapshot): seq<string> {
    seq(|snap.urls|, j requires 0 <= j < |snap.urls| => snap.urls[j].id)
  }

  lemma PickedExactly<R(!new)>(ids: seq<Id>, table: map<Id, R>, included: R -> bool, texts: seq<string>, id: Id)
    requires Picks(ids, table, included)
    requires |texts| == |ids| && forall j :: 0 <= j < |ids| ==> texts[j] == ids[j].text
    ensures id.text in texts <==> id in table && included(table[id])
  {
    if id in ids {
      var j :| 0 <= j < |ids| && ids[j] == id;
      assert texts[j] == id.text;
    }
  }

  /** Of a client that is not active the phone sees nothing, and of the others everything, under its own id. */
  lemma ShownExactly(s: Install, snap: Pocket.Snapshot, id: Id)
    requires Shows(s, snap)
    ensures id.text in ClientIds(snap) <==> id in s.clients && s.clients[id].isActive
    ensures id.text in CredentialIds(snap) <==>
            id in s.credentials && s.credentials[id].clientId in s.clients
            && s.clients[s.credentials[id].clientId].isActive
    ensures id.text in UrlIds(snap) <==>
            id in s.urls && s.urls[id].clientId in s.clients && s.clients[s.urls[id].clientId].isActive
  {
    hide SecretOf, KindName, Picks;
    var clients, credentials, urls :| ShowsRows(s, clients, credentials, urls, snap);
    PickedExactly(clients, s.clients, ActiveClient(), ClientIds(snap), id);
    PickedExactly(credentials, s.credentials, CredentialShown(s), CredentialIds(snap), id);
    PickedExactly(urls, s.urls, UrlShown(s), UrlIds(snap), id);
  }

  /** The two lists of secret fields agree: whatever Desktop reads out of a blob, the phone accepts as it is. */
  lemma SecretsAreAccepted(s: Install, c: Credential)
    ensures Pocket.NormalSecret(SecretOf(s, c))
    ensures Pocket.ValidSecret(Some(Pocket.SecretJson(SecretOf(s, c)))) == Ok(SecretOf(s, c))
  {
    assert Pocket.TEXT_KEYS == Blobs.TEXT_KEYS;
    Pocket.SecretRoundTrip(SecretOf(s, c));
  }

  /** The two lists of kinds agree. */
  lemma SameKinds(kind: string)
    ensures kind in Pocket.KINDS <==> kind in VAULT_KINDS
  {
  }

  /** The names of the kinds that backups can use; `linkTargetForKind` goes by them. */
  lemma NamesOfKinds(k: CredentialKind)
    requires !k.KindOther?
    ensures k.KindSsh? <==> KindName(k) == "ssh"
    ensures k.KindSftp? <==> KindName(k) == "sftp"
    ensures k.KindFtp? <==> KindName(k) == "ftp"
    ensures k.KindSshKey? <==> KindName(k) == "ssh_key"
    ensures k.KindPostgres? <==> KindName(k) == "postgres"
    ensures k.KindMysql? <==> KindName(k) == "mysql"
    ensures k.KindMariadb? <==> KindName(k) == "mariadb"
    ensures KindName(k) in VAULT_KINDS
  {
  }

  /** A published credential's kind is one that Desktop stores. */
  ghost predicate KnownKinds(s: Install) {
    forall id :: id in s.credentials && ActiveOwner(s, s.credentials[id].clientId) ==>
      KindName(s.credentials[id].info.kind) in VAULT_KINDS
  }

  lemma SeenIsNormal(s: Install, id: Id, c: Credential, e: Pocket.Credential)
    requires CredentialSeen(s, id, c, e)
    ensures Pocket.NormalSecret(e.secret)
    ensures Pocket.NormalCredential(e) <==> KindName(c.info.kind) in VAULT_KINDS
  {
    hide KindName, Pocket.NormalSecret, Blobs.Read;
    assert e.secret == SecretOf(s, c);
    SecretsAreAccepted(s, c);
    SameKinds(KindName(c.info.kind));
  }

  lemma NormalExactly(s: Install, snap: Pocket.Snapshot)
    requires Shows(s, snap)
    ensures Pocket.Normal(snap) <==> KnownKinds(s)
  {
    hide Pocket.NormalSecret, CredentialSeen, KindName, Pocket.NormalCredential;
    var clients, credentials, urls :| ShowsRows(s, clients, credentials, urls, snap);
    forall j | 0 <= j < |credentials|
      ensures Pocket.NormalCredential(snap.credentials[j])
          <==> KindName(s.credentials[credentials[j]].info.kind) in VAULT_KINDS
    {
      SeenIsNormal(s, credentials[j], s.credentials[credentials[j]], snap.credentials[j]);
    }
    hide ActiveOwner;
    if Pocket.Normal(snap) {
      forall id | id in s.credentials && CredentialShown(s)(s.credentials[id])
        ensures KindName(s.credentials[id].info.kind) in VAULT_KINDS
      {
        var j :| 0 <= j < |credentials| && credentials[j] == id;
      }
    }
  }

  lemma SecretsShownAreNormal(s: Install, snap: Pocket.Snapshot)
    requires Shows(s, snap)
    ensures forall j :: 0 <= j < |snap.credentials| ==> Pocket.NormalSecret(snap.credentials[j].secret)
  {
    hide Pocket.NormalSecret, CredentialSeen, KindName, Pocket.NormalCredential;
    var clients, credentials, urls :| ShowsRows(s, clients, credentials, urls, snap);
    forall j | 0 <= j < |credentials| ensures Pocket.NormalSecret(snap.credentials[j].secret) {
      SeenIsNormal(s, credentials[j], s.credentials[credentials[j]], snap.credentials[j]);
    }
  }

  /**
   From the vault to the phone: if the texts arrive, the phone opens the published file to exactly the active clients
   and what the vault holds for them, if and only if every published kind is one that Desktop stores.
   */
  lemma VaultReachesThePhone(p: Sync.Platform, s: Install, snap: Pocket.Snapshot, key: Bytes, nonce: Bytes,
                             pocketId: string, revision: real, generatedAt: string)
    requires Shows(s, snap) && |key| == Blob.KEY_LEN && |nonce| == Blob.NONCE_LEN
    requires Sync.Delivers(p, snap, key, nonce, pocketId, revision, generatedAt)
    ensures var file := Sync.Build(p, snap, key, nonce, pocketId, revision, generatedAt);
            && file.Ok? && Sync.Parse(p, Sync.Serialize(p, file.value)) == Ok(file.value)
            && (KnownKinds(s) <==> Sync.Open(p, file.value, key) == Ok(snap))
            && (KnownKinds(s) <==> Sync.Open(p, file.value, key).Ok?)
  {
    hide Shows, KnownKinds, Sync.Delivers, Sync.Build, Sync.Parse, Sync.Serialize, Sync.Open, Pocket.SnapshotJson,
         Pocket.Validate, Pocket.Normal;
    NormalExactly(s, snap);
    SecretsShownAreNormal(s, snap);
    Pocket.AcceptedPrintIsNormal(snap);
    Sync.FileArrives(p, snap, key, nonce, pocketId, revision, generatedAt);
    if Pocket.Normal(snap) { Pocket.ValidateInvertsPrint(snap); }
  }
}

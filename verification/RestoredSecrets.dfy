/**
 The secrets of a restored vault, in the restored vault: the import writes them through the
 encrypted store, under the key it has just adopted, and they can be read back under the
 master password of the archive.
 */
module RestoredSecrets {
  import opened Common
  import opened Blob
  import opened JsonValues
  import opened RestoreLoop
  import opened RecoveryModel
  import opened Import
  import opened Export
  import opened RoundTrip
  import opened Isomorphism
  import opened ArchiveFile
  import opened ImportFile
  import CredentialBlob
  import V = VaultModel
  import Runs = VaultRuns

  /** How references and the secrets of credentials are written as strings. */
  datatype Writing = Writing(name: Ref -> string, json: JsonText)

  /** Different references have different names, and the text of each credential's secret parses back. */
  ghost predicate Faithful(wr: Writing, s: Install) {
    && (forall a, b :: wr.name(a) == wr.name(b) ==> a == b)
    && forall ref :: ref in s.blobs ==> ReadsBack(wr.json, s.blobs[ref])
  }

  // Such writings exist for any installation.

  function Letter(r: Ref): char {
    match r
    case TransportPassphrase(_) => 'a'
    case TransportPassword(_) => 'b'
    case ConnectionPassword(_) => 'c'
    case TaskDumpPassword(_) => 'd'
    case RepoPassword(_) => 'e'
    case ReplicationConfig(_, content) => if content.ResticRepo? then 'f' else 'g'
    case ReplicationCrypt(_, content) => if content.ResticRepo? then 'h' else 'i'
    case CredentialBlobRef(_) => 'j'
    case ItemBlobRef(_) => 'k'
    case OtherRef(_) => 'l'
  }

  function Tail(r: Ref): string {
    match r
    case TransportPassphrase(id) => id.text
    case TransportPassword(id) => id.text
    case ConnectionPassword(id) => id.text
    case TaskDumpPassword(id) => id.text
    case RepoPassword(client) => client.text
    case ReplicationConfig(client, _) => client.text
    case ReplicationCrypt(client, _) => client.text
    case CredentialBlobRef(id) => id.text
    case ItemBlobRef(id) => id.text
    case OtherRef(text) => text
  }

  function Named(r: Ref): string { [Letter(r)] + Tail(r) }

  lemma NamesApart(a: Ref, b: Ref)
    requires Named(a) == Named(b)
    ensures a == b
  {
    assert Named(a)[0] == Letter(a) && Named(b)[0] == Letter(b);
    assert Named(a)[1..] == Tail(a) && Named(b)[1..] == Tail(b);
  }

  lemma {:induction false} BlobsListed(blobs: map<Ref, Json>) returns (values: seq<Json>)
    ensures forall ref :: ref in blobs ==> blobs[ref] in values
    decreases |blobs|
  {
    values := [];
    if blobs != map[] {
      var ref :| ref in blobs;
      var rest := BlobsListed(blobs - {ref});
      values := [blobs[ref]] + rest;
      forall other | other in blobs ensures blobs[other] in values {
        if other != ref { assert other in blobs - {ref}; }
      }
    }
  }

  lemma WritingsExist(s: Install) returns (wr: Writing)
    ensures Faithful(wr, s)
  {
    var values := BlobsListed(s.blobs);
    wr := Writing(Named, Places(values));
    forall a, b | wr.name(a) == wr.name(b) ensures a == b { NamesApart(a, b); }
    forall ref | ref in s.blobs ensures ReadsBack(wr.json, s.blobs[ref]) { TextsExist(values, s.blobs[ref]); }
  }

  /** The text to be stored under a reference: a credential's secret as JSON, or an item's body. */
  function TextOf(wr: Writing, s: Install, ref: Ref): Option<string> {
    if ref in s.blobs then Some(wr.json.print_(s.blobs[ref]))
    else if ref in s.bodies then Some(s.bodies[ref])
    else None
  }

  /** The event stores a secret of `s` under its reference, and its write works. */
  ghost predicate Sets(wr: Writing, s: Install, e: Runs.Event, ref: Ref) {
    e.call.CallSet? && e.io.dbWrites && e.call.ref == wr.name(ref) && TextOf(wr, s, ref) == Some(e.call.value)
  }

  ghost predicate SetsOne(wr: Writing, s: Install, e: Runs.Event) {
    exists ref :: Sets(wr, s, e, ref)
  }

  ghost predicate EachSets(wr: Writing, s: Install, sets: seq<Runs.Event>) {
    forall i :: 0 <= i < |sets| ==> SetsOne(wr, s, sets[i])
  }

  /** Every event's reference is in the map. */
  ghost predicate AllKept(sets: seq<Runs.Event>, contents: map<string, string>) {
    forall i :: 0 <= i < |sets| ==> sets[i].call.CallSet? && sets[i].call.ref in contents
  }

  /** The `set` calls of an import that restores the secrets of `s`, in any order. */
  ghost predicate StoresAll(wr: Writing, s: Install, sets: seq<Runs.Event>) {
    && EachSets(wr, s, sets)
    && (forall ref :: TextOf(wr, s, ref).Some? ==> exists i :: 0 <= i < |sets| && Sets(wr, s, sets[i], ref))
  }

  /** There are such calls for any installation. */
  lemma {:induction false} SetsFor(wr: Writing, s: Install, refs: set<Ref>, io: V.Io) returns (sets: seq<Runs.Event>)
    requires io.dbWrites && forall ref :: ref in refs ==> TextOf(wr, s, ref).Some?
    ensures EachSets(wr, s, sets)
    ensures forall ref :: ref in refs ==> exists i :: 0 <= i < |sets| && Sets(wr, s, sets[i], ref)
    decreases |refs|
  {
    hide TextOf;
    sets := [];
    if refs != {} {
      var ref :| ref in refs;
      var rest := SetsFor(wr, s, refs - {ref}, io);
      var e := Runs.Event(Runs.CallSet(wr.name(ref), TextOf(wr, s, ref).value), io);
      assert Sets(wr, s, e, ref);
      sets := rest + [e];
      assert sets[|rest|] == e;
      forall i | 0 <= i < |sets| ensures SetsOne(wr, s, sets[i]) {
        if i < |rest| { assert SetsOne(wr, s, rest[i]); }
      }
      forall other | other in refs ensures exists i :: 0 <= i < |sets| && Sets(wr, s, sets[i], other) {
        if other != ref {
          assert other in refs - {ref};
          var i :| 0 <= i < |rest| && Sets(wr, s, rest[i], other);
          assert sets[i] == rest[i];
        }
      }
    }
  }

  lemma SetsExist(wr: Writing, s: Install, io: V.Io) returns (sets: seq<Runs.Event>)
    requires io.dbWrites
    ensures StoresAll(wr, s, sets)
  {
    sets := SetsFor(wr, s, s.blobs.Keys + s.bodies.Keys, io);
  }

  /** Whatever a map holds, it holds for `s`. */
  ghost predicate HoldsFor(wr: Writing, s: Install, contents: map<string, string>) {
    forall name :: name in contents ==> exists ref :: name == wr.name(ref) && TextOf(wr, s, ref) == Some(contents[name])
  }

  /** One `set` on an open vault succeeds and is remembered. */
  lemma SetSucceeds(env: V.Env, v: V.Vault, o: Runs.Observed, e: Runs.Event)
    requires V.LawfulEnv(env) && Runs.Inv(env, v, o) && v.session.Some? && e.call.CallSet? && e.io.dbWrites
    ensures var (w, r) := Runs.Step(env, v, e);
            && r == Runs.Answer(V.Done) && w.session == v.session && w.row == v.row
            && Runs.Observe(o, e, r) == o.(contents := o.contents[e.call.ref := e.call.value])
  {
    hide DecryptBytes;
    assert |o.dek| == KEY_LEN;
    EncryptDecrypt(env.aead, VAULT_MAGIC, env.utf8(e.call.value), o.dek, e.io.nonce);
  }

  lemma SetHolds(wr: Writing, s: Install, contents: map<string, string>, e: Runs.Event, ref: Ref)
    requires HoldsFor(wr, s, contents) && Sets(wr, s, e, ref)
    ensures HoldsFor(wr, s, contents[e.call.ref := e.call.value])
  {
  }

  lemma FirstKept(sets: seq<Runs.Event>, some: map<string, string>, all: map<string, string>)
    requires sets != [] && sets[0].call.CallSet? && sets[0].call.ref in some && some.Keys <= all.Keys
             && AllKept(sets[1..], all)
    ensures AllKept(sets, all)
  {
    assert forall i :: 1 <= i < |sets| ==> sets[i] == sets[1..][i - 1];
  }

  lemma RestSets(wr: Writing, s: Install, sets: seq<Runs.Event>) returns (ref: Ref)
    requires sets != [] && EachSets(wr, s, sets)
    ensures Sets(wr, s, sets[0], ref) && EachSets(wr, s, sets[1..])
  {
    assert SetsOne(wr, s, sets[0]);
    ref :| Sets(wr, s, sets[0], ref);
    assert forall i :: 0 <= i < |sets| - 1 ==> sets[1..][i] == sets[i + 1];
  }

  lemma {:induction false} AllAreSet(env: V.Env, wr: Writing, s: Install, v: V.Vault, o: Runs.Observed,
                                     sets: seq<Runs.Event>)
    requires V.LawfulEnv(env) && Runs.Inv(env, v, o) && v.session.Some?
    requires HoldsFor(wr, s, o.contents) && EachSets(wr, s, sets)
    ensures var (w, p) := Runs.RunFrom(env, v, o, sets);
            && Runs.Inv(env, w, p) && w.session == v.session && w.row == v.row && HoldsFor(wr, s, p.contents)
            && p == o.(contents := p.contents) && o.contents.Keys <= p.contents.Keys && AllKept(sets, p.contents)
    decreases |sets|
  {
    hide Runs.Step, Runs.Inv, V.LawfulEnv, Runs.Observe, EachSets, HoldsFor;
    if sets != [] {
      var e := sets[0];
      var ref := RestSets(wr, s, sets);
      SetSucceeds(env, v, o, e);
      Runs.StepKeepsInv(env, v, o, e);
      SetHolds(wr, s, o.contents, e, ref);
      var (w, r) := Runs.Step(env, v, e);
      var q := Runs.Observe(o, e, r);
      AllAreSet(env, wr, s, w, q, sets[1..]);
      hide AllKept;
      FirstKept(sets, q.contents, Runs.RunFrom(env, w, q, sets[1..]).1.contents);
    }
  }

  /** The run of sets holds a name exactly when a secret stands behind it, and then its text. */
  lemma HeldExactly(wr: Writing, s: Install, contents: map<string, string>, sets: seq<Runs.Event>, ref: Ref)
    requires Faithful(wr, s) && HoldsFor(wr, s, contents) && StoresAll(wr, s, sets)
    requires AllKept(sets, contents)
    ensures if wr.name(ref) in contents then TextOf(wr, s, ref) == Some(contents[wr.name(ref)])
            else TextOf(wr, s, ref).None?
  {
    hide TextOf;
    if TextOf(wr, s, ref).Some? {
      var i :| 0 <= i < |sets| && Sets(wr, s, sets[i], ref);
    }
    if wr.name(ref) in contents {
      var other :| wr.name(ref) == wr.name(other) && TextOf(wr, s, other) == Some(contents[wr.name(ref)]);
      assert other == ref;
    }
  }

  lemma OpenLookup(env: V.Env, v: V.Vault, o: Runs.Observed, name: string)
    requires V.LawfulEnv(env) && Runs.Inv(env, v, o) && v.session.Some?
    ensures V.GetSecret(env, v, name) == if name in o.contents then V.Present(o.contents[name]) else V.Lookup.Absent
  {
    hide DecryptBytes;
    assert name in o.contents ==> env.text(env.utf8(o.contents[name])) == o.contents[name];
  }

  function Lookup(text: Option<string>): V.Lookup {
    match text
    case Some(t) => V.Present(t)
    case None => V.Lookup.Absent
  }

  /** Every secret of `s` is read under its reference, and there is no other. */
  ghost predicate Holds(env: V.Env, wr: Writing, s: Install, v: V.Vault) {
    forall ref :: V.GetSecret(env, v, wr.name(ref)) == Lookup(TextOf(wr, s, ref))
  }

  /** What the session of a finished import knows before the first secret is stored. */
  function Adopted(password: string, dek: Bytes): Runs.Observed {
    Runs.Observed(true, true, map[], password, dek)
  }

  ghost predicate OpensWith(env: V.Env, row: V.Meta, dek: Bytes, password: string) {
    var kek := V.DeriveKek(env, password, row.kekSalt, row.params);
    kek.Some? && V.OpenRow(env, row, kek.value) == Some(dek)
  }

  lemma AdoptedKeepsInv(env: V.Env, v: V.Vault, row: V.Meta, dek: Bytes, password: string)
    requires OpensWith(env, row, dek, password)
    requires v.row == Some(row) && v.session == Some(dek) && v.secrets == map[]
    ensures Runs.Inv(env, v, Adopted(password, dek))
  {
    hide DecryptBytes;
  }

  /** A new process unlocks with the password, and the invariant is there again. */
  lemma ReopensWith(env: V.Env, v: V.Vault, o: Runs.Observed, ms: Option<int>, io: V.Io)
    requires V.LawfulEnv(env) && Runs.Inv(env, v, o) && v.row.Some?
    ensures var (w, outcome) := V.Unlock(env, V.Restart(v, ms), o.password, false, io);
            outcome == V.Done && w.session.Some? && Runs.Inv(env, w, o.(open := true))
  {
    hide V.LawfulEnv, DecryptBytes, EncryptBytes;
    var kek := V.DeriveKek(env, o.password, v.row.value.kekSalt, v.row.value.params);
    Runs.RowOpensToOneKey(env, v.row.value, o, kek.value);
    var e := Runs.Event(Runs.CallUnlock(o.password, false), io);
    var restarted := V.Restart(v, ms);
    assert Runs.Inv(env, restarted, o.(open := false));
    Runs.UnlockKeepsInv(env, restarted, o.(open := false), e);
  }

  /**
   Once the secrets have been stored, the vault gives each of them back; and so does a new process that
   unlocks the vault with the same master password.
   */
  lemma StoredSecretsOpen(env: V.Env, wr: Writing, s: Install, v: V.Vault, row: V.Meta, dek: Bytes, password: string,
                          sets: seq<Runs.Event>, ms: Option<int>, io: V.Io)
    requires V.LawfulEnv(env) && Faithful(wr, s) && OpensWith(env, row, dek, password)
    requires v.row == Some(row) && v.session == Some(dek) && v.secrets == map[]
    requires StoresAll(wr, s, sets)
    ensures var w := Runs.RunFrom(env, v, Adopted(password, dek), sets).0;
            var (again, outcome) := V.Unlock(env, V.Restart(w, ms), password, false, io);
            Holds(env, wr, s, w) && outcome == V.Done && Holds(env, wr, s, again)
  {
    var o := Adopted(password, dek);
    AdoptedKeepsInv(env, v, row, dek, password);
    AllAreSet(env, wr, s, v, o, sets);
    var (w, p) := Runs.RunFrom(env, v, o, sets);
    ReopensWith(env, w, p, ms, io);
    var again := V.Unlock(env, V.Restart(w, ms), password, false, io).0;
    hide AllKept, Runs.Inv, V.LawfulEnv, Faithful, V.GetSecret, V.Unlock, StoresAll, HoldsFor, TextOf, Runs.RunFrom;
    forall ref: Ref
      ensures V.GetSecret(env, w, wr.name(ref)) == Lookup(TextOf(wr, s, ref)) == V.GetSecret(env, again, wr.name(ref))
    {
      HeldExactly(wr, s, p.contents, sets, ref);
      OpenLookup(env, w, p, wr.name(ref));
      OpenLookup(env, again, p.(open := true), wr.name(ref));
    }
  }

  // Together with disaster recovery.

  /** A table that starts with an empty store ends with secrets under its own references only. */
  lemma OwnReferences<R(!new), S(!new), X>(rules: Rules<R, S, Ref, X>, rows: seq<Exported<R, S>>, store: map<Ref, X>,
                                         made: map<nat, nat>, first: nat, next: nat, own: Ref -> bool)
    requires SecretsStored(rules, rows, map[], store, made, first, next)
    requires forall x, n, ref :: ref in rules.secrets(x, n) ==> own(ref)
    ensures forall ref :: ref in store ==> own(ref)
  {
  }

  lemma CredentialReferences(m: Maps, uuid: Uuids, faults: Faults, x: Exported<Credential, Json>, n: nat, ref: Ref)
    requires ref in CredentialRules(m, uuid, faults).secrets(x, n)
    ensures ref.CredentialBlobRef?
  {
    assert CredentialRules(m, uuid, faults).secrets(x, n) == map[CredentialBlobRef(uuid(n)) := x.extra];
  }

  lemma ItemReferences(m: Maps, uuid: Uuids, faults: Faults, x: Exported<Item, Option<string>>, n: nat, ref: Ref)
    requires ref in ItemRules(m, uuid, faults).secrets(x, n)
    ensures ref.ItemBlobRef?
  {
    assert ItemRules(m, uuid, faults).secrets(x, n) == if x.row.isSensitive then Stored(ItemBlobRef(uuid(n)), x.extra)
           else map[];
  }

  lemma CredentialStore(b: Job, r: Rebuilt)
    requires CredentialsDone(b, r) && b.start.blobs == map[]
    ensures forall ref :: ref in r.credentials.store ==> ref.CredentialBlobRef?
  {
    hide DrawsDistinct, RefusalsExplained, RowsAdded, IdsMapped, AcceptedInTurn, SecretsStored, CredentialRules;
    var rules := CredentialRules(MapsOf(r), b.uuid, b.faults);
    forall x, n, ref | ref in rules.secrets(x, n) ensures ref.CredentialBlobRef? {
      CredentialReferences(MapsOf(r), b.uuid, b.faults, x, n, ref);
    }
    OwnReferences(rules, b.payload.credentials, r.credentials.store, r.credentials.made, r.replications.next,
                  r.credentials.next, (ref: Ref) => ref.CredentialBlobRef?);
  }

  lemma ItemStore(b: Job, r: Rebuilt)
    requires ItemsDone(b, r) && b.start.bodies == map[]
    ensures forall ref :: ref in r.items.store ==> ref.ItemBlobRef?
  {
    hide DrawsDistinct, RefusalsExplained, RowsAdded, IdsMapped, AcceptedInTurn, SecretsStored, ItemRules;
    var rules := ItemRules(MapsOf(r), b.uuid, b.faults);
    forall x, n, ref | ref in rules.secrets(x, n) ensures ref.ItemBlobRef? {
      ItemReferences(MapsOf(r), b.uuid, b.faults, x, n, ref);
    }
    OwnReferences(rules, b.payload.items, r.items.store, r.items.made, r.urls.next, r.items.next,
                  (ref: Ref) => ref.ItemBlobRef?);
  }

  /** `readCredentialSecret` through the vault; None when it throws. */
  function ReadCredential(env: V.Env, wr: Writing, v: V.Vault, ref: Option<Ref>): Option<CredentialBlob.Secret> {
    if ref.None? then Some(CredentialBlob.NO_SECRET)
    else match V.GetSecret(env, v, wr.name(ref.value))
      case Absent => Some(CredentialBlob.NO_SECRET)
      case Present(text) => Some(CredentialBlob.Read(wr.json.parse(text)))
      case Refused(_) => None
  }

  /** `v` answers for each credential of `t` what the source's store holds for the original. */
  ghost predicate CredentialsAnswer(env: V.Env, wr: Writing, s: Install, t: Install, m: Renaming, v: V.Vault) {
    forall i :: i in s.credentials ==>
      && i in m.credentials && m.credentials[i] in t.credentials
      && ReadCredential(env, wr, v, t.credentials[m.credentials[i]].blobRef)
         == Some(CredentialBlob.Read(SecretAt(s.blobs, s.credentials[i].blobRef)))
  }

  /** And likewise for each item that has a body there. */
  ghost predicate ItemsAnswer(env: V.Env, wr: Writing, s: Install, t: Install, m: Renaming, v: V.Vault) {
    forall i :: i in s.items ==>
      && i in m.items && m.items[i] in t.items
      && ItemAnswer(env, wr, v, SecretAt(s.bodies, s.items[i].bodyRef), t.items[m.items[i]].bodyRef)
  }

  ghost predicate ItemAnswer(env: V.Env, wr: Writing, v: V.Vault, body: Option<string>, ref: Option<Ref>) {
    body.Some? ==> ref.Some? && V.GetSecret(env, v, wr.name(ref.value)) == V.Present(body.value)
  }

  lemma CredentialAnswers(env: V.Env, wr: Writing, t: Install, v: V.Vault, ref: Option<Ref>)
    requires Faithful(wr, t) && Holds(env, wr, t, v) && t.blobs.Keys !! t.bodies.Keys
             && (ref.Some? ==> ref.value !in t.bodies)
    ensures ReadCredential(env, wr, v, ref) == Some(CredentialBlob.Read(SecretAt(t.blobs, ref)))
  {
    assert CredentialBlob.Read(None) == CredentialBlob.NO_SECRET;
    hide CredentialBlob.Read, V.GetSecret;
  }

  lemma ItemAnswers(env: V.Env, wr: Writing, t: Install, v: V.Vault, ref: Option<Ref>)
    requires Holds(env, wr, t, v) && t.blobs.Keys !! t.bodies.Keys
    ensures ItemAnswer(env, wr, v, SecretAt(t.bodies, ref), ref)
  {
    hide V.GetSecret;
  }

  predicate OwnBlob(c: Credential) {
    c.blobRef.Some? && c.blobRef.value.CredentialBlobRef?
  }

  lemma AllImages<R(!new), S(!new), X>(rules: Rules<R, S, Ref, X>, uuid: Uuids, rows: seq<Exported<R, S>>,
                                       after: map<Id, R>, made: map<nat, nat>, holds: R -> bool)
    requires RowsAdded(rules, uuid, rows, map[], after, made)
    requires forall x, n :: holds(rules.image(x, n))
    ensures forall id :: id in after ==> holds(after[id])
  {
  }

  lemma ImageOwnsBlob(m: Maps, uuid: Uuids, faults: Faults, x: Exported<Credential, Json>, n: nat)
    ensures OwnBlob(CredentialRules(m, uuid, faults).image(x, n))
  {
    assert CredentialRules(m, uuid, faults).image(x, n) == CredentialImage(m, uuid, x, n);
  }

  lemma CredentialBlobRefs(b: Job, r: Rebuilt)
    requires CredentialsDone(b, r) && b.start.credentials == map[]
    ensures forall id :: id in r.credentials.after ==> OwnBlob(r.credentials.after[id])
  {
    hide DrawsDistinct, RefusalsExplained, RowsAdded, IdsMapped, AcceptedInTurn, SecretsStored, CredentialRules,
         OwnBlob;
    var rules := CredentialRules(MapsOf(r), b.uuid, b.faults);
    forall x, n ensures OwnBlob(rules.image(x, n)) { ImageOwnsBlob(MapsOf(r), b.uuid, b.faults, x, n); }
    AllImages(rules, b.uuid, b.payload.credentials, r.credentials.after, r.credentials.made,
              (c: Credential) => OwnBlob(c));
  }

  /** What the restored tables look like, as far as their secrets go. */
  ghost predicate ByKind(t: Install) {
    && (forall ref :: ref in t.blobs ==> ref.CredentialBlobRef?)
    && (forall ref :: ref in t.bodies ==> ref.ItemBlobRef?)
    && (forall id :: id in t.credentials ==> OwnBlob(t.credentials[id]))
  }

  lemma FinishedByKind(w: World, o: Opening, v0: V.Vault, s0: Install, v1: V.Vault, s1: Install, r: Rebuilt)
    requires EmptyTables(s0) && Finished(w, o, v0, s0, v1, s1, r)
    ensures ByKind(s1) && v1.secrets == v0.secrets
  {
    hide KeysStored, CredentialsDone, ItemsDone, ClientsDone, SetsDone, TransportsDone, ConnectionsDone, TasksDone,
         ReposDone, FileTasksDone, ReplicationsDone, UrlsDone;
    var files, keys :| KeysStored(w.keys, o.payload.transports, |o.payload.transports|, s0.keyFiles, files, keys)
                       && Done(JobOf(w, o, s0, files, keys), r, 11) && s1 == Rebuild(JobOf(w, o, s0, files, keys), r);
    var b := JobOf(w, o, s0, files, keys);
    CredentialStore(b, r);
    ItemStore(b, r);
    CredentialBlobRefs(b, r);
  }

  lemma MatchingCredentialAnswers(env: V.Env, wr: Writing, s: Install, t: Install, m: Renaming, v: V.Vault,
                                  a: Credential, b: Credential)
    requires Faithful(wr, t) && ByKind(t) && OwnBlob(b) && Holds(env, wr, t, v) && CredentialMatches(s, t, m, a, b)
    ensures ReadCredential(env, wr, v, b.blobRef) == Some(CredentialBlob.Read(SecretAt(s.blobs, a.blobRef)))
  {
    hide Faithful, Holds, ReadCredential, CredentialBlob.Read, SecretAt;
    CredentialAnswers(env, wr, t, v, b.blobRef);
  }

  lemma MatchingItemAnswers(env: V.Env, wr: Writing, s: Install, t: Install, m: Renaming, v: V.Vault, a: Item, b: Item)
    requires ByKind(t) && Holds(env, wr, t, v) && ItemMatches(s, t, m, a, b)
    ensures ItemAnswer(env, wr, v, SecretAt(s.bodies, a.bodyRef), b.bodyRef)
  {
    hide Holds, ItemAnswer, SecretAt;
    ItemAnswers(env, wr, t, v, b.bodyRef);
  }

  /** A vault that holds the secrets of a machine isomorphic to the source answers as the source's did. */
  lemma CredentialsFollow(env: V.Env, wr: Writing, s: Install, t: Install, m: Renaming, v: V.Vault)
    requires Faithful(wr, t) && ByKind(t) && Holds(env, wr, t, v)
    requires MatchesAll(m.credentials, s.credentials, t.credentials, (a, b) => CredentialMatches(s, t, m, a, b))
    ensures CredentialsAnswer(env, wr, s, t, m, v)
  {
    assert forall id :: id in t.credentials ==> OwnBlob(t.credentials[id]);
    hide Faithful, ByKind, OwnBlob, Renames, Holds, ReadCredential, CredentialBlob.Read, SecretAt, CredentialMatches;
    forall i | i in s.credentials
      ensures i in m.credentials && m.credentials[i] in t.credentials
      ensures ReadCredential(env, wr, v, t.credentials[m.credentials[i]].blobRef)
              == Some(CredentialBlob.Read(SecretAt(s.blobs, s.credentials[i].blobRef)))
    {
      MatchingCredentialAnswers(env, wr, s, t, m, v, s.credentials[i], t.credentials[m.credentials[i]]);
    }
  }

  lemma ItemsFollow(env: V.Env, wr: Writing, s: Install, t: Install, m: Renaming, v: V.Vault)
    requires ByKind(t) && Holds(env, wr, t, v)
    requires MatchesAll(m.items, s.items, t.items, (a, b) => ItemMatches(s, t, m, a, b))
    ensures ItemsAnswer(env, wr, s, t, m, v)
  {
    hide ByKind, Renames, Holds, ItemAnswer, SecretAt, ItemMatches;
    forall i | i in s.items
      ensures i in m.items && m.items[i] in t.items
      ensures ItemAnswer(env, wr, v, SecretAt(s.bodies, s.items[i].bodyRef), t.items[m.items[i]].bodyRef)
    {
      MatchingItemAnswers(env, wr, s, t, m, v, s.items[i], t.items[m.items[i]]);
    }
  }

  /**
   Disaster recovery down to the ciphertexts. After the import of `DisasterRecovery`, with the restored secrets
   stored through the vault, the machine is restarted and unlocked with the archive's master password: the unlock
   succeeds, and the vault answers for every credential and item what the source held.
   */
  lemma SecretsComeBack(w: World, s: Install, row: V.Meta, dek: Bytes, p: Payload, nonce: Bytes, file: Archive,
                        password: string, v0: V.Vault, s0: Install, v1: V.Vault, s1: Install,
                          r: Result<Rebuilt, ImportError>, wr: Writing, sets: seq<Runs.Event>, ms: Option<int>,
                            io: V.Io)
    requires SoundSource(s) && V.LawfulEnv(w.env) && LawfulCodec(w.codec, p) && FaultFree(w)
    requires Backup(w, s, row, dek, p, nonce, file) && OpensWith(w.env, row, dek, password)
    requires v0.row.None? && v0.secrets == map[] && EmptyTables(s0) && NewIds(w.uuid, s0)
    requires Imports(w, Some(file), password, v0, s0, v1, s1, r)
    requires Faithful(wr, s1) && StoresAll(wr, s1, sets)
    ensures r.Ok?
    ensures var restored := Runs.RunFrom(w.env, v1, Adopted(password, dek), sets).0;
            var (again, outcome) := V.Unlock(w.env, V.Restart(restored, ms), password, false, io);
            outcome == V.Done && CredentialsAnswer(w.env, wr, s, s1, Names(r.value), again)
              && ItemsAnswer(w.env, wr, s, s1, Names(r.value), again)
  {
    hide SoundSource, LawfulCodec, FaultFree, NewIds, Faithful, StoresAll, Finished, KeysFail, TablesFail, EmptyTables,
         OpenArchive, V.LawfulEnv, V.DeriveKek, V.OpenRow, V.Unlock, Runs.RunFrom, MatchesAll, CredentialsAnswer,
           ItemsAnswer, Holds, ByKind, Exports, Archives;
    DisasterRecovery(w, s, row, dek, p, nonce, file, password, v0, s0, v1, s1, r);
    ExportedFileOpens(w.env, w.codec, row, dek, p, nonce, file, password);
    FinishedByKind(w, Opening(row, dek, true, p), v0, s0, v1, s1, r.value);
    StoredSecretsOpen(w.env, wr, s1, v1, row, dek, password, sets, ms, io);
    var restored := Runs.RunFrom(w.env, v1, Adopted(password, dek), sets).0;
    var again := V.Unlock(w.env, V.Restart(restored, ms), password, false, io).0;
    CredentialsFollow(w.env, wr, s, s1, Names(r.value), again);
    ItemsFollow(w.env, wr, s, s1, Names(r.value), again);
  }
}

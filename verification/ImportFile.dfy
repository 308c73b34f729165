/**
 `importVaultBuffer` as a whole (exportVault.ts): checks, key files, one transaction, and the
 cleanup that makes a failed import invisible.
 */
module ImportFile {
  import opened Common
  import opened Blob
  import opened RestoreLoop
  import opened RecoveryModel
  import opened Import
  import opened Export
  import opened RoundTrip
  import opened Isomorphism
  import opened ArchiveFile
  import Objects = VaultObjects
  import Recovery
  import V = VaultModel

  /** The key directory during one import: names drawn for key `i`, and which calls fail. */
  datatype KeyWorld = KeyWorld(
    dest: nat -> Path,
    tmp: nat -> Path,
    fault: nat -> KeyFault,
    /** What a failed write leaves behind. */
    partial: nat -> Option<Bytes>,
    unlinks: Path -> bool,
    mkdir: bool)

  /** The names are new and all different (they carry random UUIDs). */
  ghost predicate FreshNames(w: KeyWorld, files: map<Path, Bytes>) {
    && (forall i, j :: w.dest(i) != w.tmp(j))
    && (forall i, j :: w.dest(i) == w.dest(j) ==> i == j)
    && (forall i, j :: w.tmp(i) == w.tmp(j) ==> i == j)
    && (forall i :: w.dest(i) !in files && w.tmp(i) !in files)
  }

  type KeyRows = seq<Exported<Transport, TransportSecrets>>

  /** Old files stay, and the new ones are those of the exported keys. */
  ghost predicate FilesAdded(w: KeyWorld, rows: KeyRows, upto: nat, before: map<Path, Bytes>, after: map<Path, Bytes>) {
    && upto <= |rows|
    && (forall p :: p in before ==> p in after && after[p] == before[p])
    && (forall p :: p in after && p !in before ==> exists j :: 0 <= j < upto && HasKey(rows[j]) && p == w.dest(j))
    && (forall j :: 0 <= j < upto && HasKey(rows[j]) ==>
        w.dest(j) in after && after[w.dest(j)] == rows[j].extra.key.value)
  }

  /** Every exported key has its path. */
  ghost predicate KeysMapped(w: KeyWorld, rows: KeyRows, upto: nat, keys: map<Id, Path>) {
    && upto <= |rows|
    && (forall j :: 0 <= j < upto && HasKey(rows[j]) ==> rows[j].id in keys)
    && (forall x :: x in keys ==>
        exists j :: 0 <= j < upto && HasKey(rows[j]) && rows[j].id == x && keys[x] == w.dest(j))
  }

  ghost predicate KeysStored(w: KeyWorld, rows: KeyRows, upto: nat, before: map<Path, Bytes>, after: map<Path, Bytes>,
                             keys: map<Id, Path>)
  {
    FilesAdded(w, rows, upto, before, after) && KeysMapped(w, rows, upto, keys)
  }

  /** Only files whose removal failed are left over. */
  ghost predicate Cleaned(w: KeyWorld, before: map<Path, Bytes>, after: map<Path, Bytes>) {
    && (forall p :: p in before ==> p in after && after[p] == before[p])
    && (forall p :: p in after && p !in before ==> !w.unlinks(p))
  }

  /** Only the two names of key `i` may be touched. */
  ghost predicate SameElsewhere(w: KeyWorld, i: nat, before: map<Path, Bytes>, after: map<Path, Bytes>) {
    forall p :: p != w.dest(i) && p != w.tmp(i) ==>
      (p in after <==> p in before) && (p in after ==> after[p] == before[p])
  }

  /** Everything outside the program during one import. */
  datatype World = World(env: V.Env, codec: Codec, io: V.Io, uuid: Uuids, faults: Faults, keys: KeyWorld,
                         rowWrites: bool, commits: bool)

  function JobOf(w: World, o: Opening, s: Install, files: map<Path, Bytes>, keys: map<Id, Path>): Job {
    Job(o.payload, s.(keyFiles := files), keys, w.uuid, w.faults)
  }

  /** The machine after a finished import: every table rebuilt, every key in its file, the vault adopted and open. */
  ghost predicate Finished(w: World, o: Opening, v0: V.Vault, s0: Install, v1: V.Vault, s1: Install, r: Rebuilt) {
    && v1.row == Some(o.row) && v1.session == Some(o.dek) && !v1.manuallyLocked && v1.secrets == v0.secrets
      && v1.material == v0.material
    && exists files, keys ::
      && KeysStored(w.keys, o.payload.transports, |o.payload.transports|, s0.keyFiles, files, keys)
      && Done(JobOf(w, o, s0, files, keys), r, 11)
      && s1 == Rebuild(JobOf(w, o, s0, files, keys), r)
  }

  /** Some key file could not be written. */
  ghost predicate KeysFail(w: World, o: Opening) {
    o.full && (!w.keys.mkdir || exists i ::
               0 <= i < |o.payload.transports| && HasKey(o.payload.transports[i]) && w.keys.fault(i) != NoFault)
  }

  /** The database refused: the vault row, a table row, or the commit. */
  ghost predicate TablesFail(w: World, o: Opening, s0: Install) {
    || !w.rowWrites || !w.commits
    || exists files, keys, r ::
         KeysStored(w.keys, o.payload.transports, |o.payload.transports|, s0.keyFiles, files, keys)
           && Aborted(JobOf(w, o, s0, files, keys), r)
  }

  /** Once the archive is open: everything is restored, or nothing, but for failing cleanup. */
  ghost predicate Restores(w: World, o: Opening, v0: V.Vault, s0: Install, v1: V.Vault, s1: Install,
                           r: Result<Rebuilt, ImportError>)
  {
    match r
    case Ok(rebuilt) => !KeysFail(w, o) && Finished(w, o, v0, s0, v1, s1, rebuilt)
    case Err(e) =>
      && s1 == s0.(keyFiles := s1.keyFiles) && Cleaned(w.keys, s0.keyFiles, s1.keyFiles)
      && (if e.KeyFileFailed? then KeysFail(w, o) && v1 == v0
          else e.TransactionFailed? && !KeysFail(w, o) && TablesFail(w, o, s0) && v1 == V.Locked(v0))
  }

  /** All that a call of `importVaultBuffer` may do to a machine. */
  ghost predicate Imports(w: World, file: Option<Archive>, password: string, v0: V.Vault, s0: Install,
                          v1: V.Vault, s1: Install, r: Result<Rebuilt, ImportError>)
  {
    if v0.row.Some? then r == Err(AlreadyHasVault) && v1 == v0 && s1 == s0
    else match OpenArchive(w.env, w.codec, file, password)
      case Err(e) => r == Err(e) && v1 == v0 && s1 == s0
      case Ok(o) => Restores(w, o, v0, s0, v1, s1, r)
  }

  /** The machine an archive is restored on: its vault, and its tables, secrets and key directory. */
  class Machine {
    var vault: V.Vault
    var install: Install

    constructor (vault: V.Vault, install: Install)
      ensures this.vault == vault && this.install == install
    {
      this.vault, this.install := vault, install;
    }

    /** `rmSync` of each, best-effort. */
    method RemoveFiles(w: KeyWorld, paths: seq<Path>)
      modifies this`install
      ensures install == old(install).(keyFiles := install.keyFiles)
      ensures install.keyFiles == map p | p in old(install).keyFiles && !(p in paths && w.unlinks(p)) ::
              old(install).keyFiles[p]
    {
      ghost var files := install.keyFiles;
      for i := 0 to |paths|
        invariant install == old(install).(keyFiles := install.keyFiles)
        invariant install.keyFiles == map p | p in files && !(p in paths[..i] && w.unlinks(p)) :: files[p]
      {
        assert paths[..i + 1] == paths[..i] + [paths[i]];
        if w.unlinks(paths[i]) { install := install.(keyFiles := install.keyFiles - {paths[i]}); }
      }
      assert paths[..|paths|] == paths;
    }

    /** One key file: write under a temporary name, rename, harden. */
    method WriteKeyFile(w: KeyWorld, i: nat, key: Bytes) returns (ok: bool)
      requires w.dest(i) != w.tmp(i)
      modifies this`install
      ensures ok == (w.fault(i) == NoFault)
      ensures install == old(install).(keyFiles := install.keyFiles)
      ensures ok ==> install.keyFiles == old(install).keyFiles[w.dest(i) := key] - {w.tmp(i)}
      ensures SameElsewhere(w, i, old(install).keyFiles, install.keyFiles)
    {
      var files := install.keyFiles;
      if w.fault(i) == WriteFails {
        if w.partial(i).Some? { files := files[w.tmp(i) := w.partial(i).value]; }
      } else {
        files := files[w.tmp(i) := key];
        if w.fault(i) != RenameFails { files := files[w.dest(i) := key] - {w.tmp(i)}; }
      }
      ok := w.fault(i) == NoFault;
      assert ok ==> files == install.keyFiles[w.dest(i) := key] - {w.tmp(i)};
      assert SameElsewhere(w, i, install.keyFiles, files);
      hide SameElsewhere;
      install := install.(keyFiles := files);
    }

    /** The key files of a payload, before the transaction; a failure removes those already written. */
    method WriteKeyFiles(w: KeyWorld, rows: KeyRows) returns (ok: bool, keys: map<Id, Path>, written: seq<Path>)
      requires FreshNames(w, install.keyFiles)
      modifies this`install
      ensures install == old(install).(keyFiles := install.keyFiles)
      ensures ok ==> KeysStored(w, rows, |rows|, old(install).keyFiles, install.keyFiles, keys)
      ensures ok ==> forall p :: p in written <==> p in install.keyFiles && p !in old(install).keyFiles
      ensures !ok ==> Cleaned(w, old(install).keyFiles, install.keyFiles)
      ensures !ok <==> exists i :: 0 <= i < |rows| && HasKey(rows[i]) && w.fault(i) != NoFault
    {
      hide FreshNames, FilesAdded, KeysMapped, Cleaned;
      ghost var before := install.keyFiles;
      keys, written := map[], [];
      NothingStored(w, rows, before);
      for i := 0 to |rows|
        invariant install == old(install).(keyFiles := install.keyFiles)
        invariant KeysStored(w, rows, i, before, install.keyFiles, keys)
        invariant forall p :: p in written <==> p in install.keyFiles && p !in before
        invariant forall j :: 0 <= j < i && HasKey(rows[j]) ==> w.fault(j) == NoFault
      {
        if !HasKey(rows[i]) {
          NoKeyToStore(w, rows, i, before, install.keyFiles, keys);
          continue;
        }
        ghost var files, known := install.keyFiles, keys;
        NextFileAdded(w, rows, i, before, files);
        NextKeyMapped(w, rows, i, keys);
        ok := WriteKeyFile(w, i, rows[i].extra.key.value);
        if !ok {
          ghost var left := install.keyFiles;
          RemoveFiles(w, [w.tmp(i), w.dest(i)] + written);
          NothingLeft(w, rows, i, before, files, left, written, install.keyFiles);
          return;
        }
        written := written + [w.dest(i)];
        keys := keys[rows[i].id := w.dest(i)];
      }
      ok := true;
    }

    /** Everything inside the transaction; the tables are put back when it throws. */
    method Transaction(w: World, o: Opening, password: string, keys: map<Id, Path>) returns (ok: bool, r: Rebuilt)
      requires vault.row.None? && NewIds(w.uuid, install)
      requires V.DeriveKek(w.env, password, o.row.kekSalt, o.row.params).Some?
      requires V.OpenRow(w.env, o.row, V.DeriveKek(w.env, password, o.row.kekSalt, o.row.params).value) == Some(o.dek)
      modifies this
      ensures var b := JobOf(w, o, old(install), old(install).keyFiles, keys);
              if ok then Done(b, r, 11) && install == Rebuild(b, r)
                         && (vault, V.Done) == V.Unlock(w.env, old(vault).(row := Some(o.row)), password, false, w.io)
              else install == old(install) && V.Locked(vault) == V.Locked(old(vault))
                   && (w.rowWrites && w.commits ==> Aborted(b, r))
    {
      hide Done, Aborted, NewIds;
      r := NOT_RUN;
      if !w.rowWrites { return false, r; }
      vault := vault.(row := Some(o.row));
      var unlocked, outcome := V.Unlock(w.env, vault, password, false, w.io).0,
        V.Unlock(w.env, vault, password, false, w.io).1;
      vault := unlocked;
      var b := JobOf(w, o, install, install.keyFiles, keys);
      SameTablesNewIds(w.uuid, install, b.start);
      ok, r := ImportTables(b);
      ok := ok && w.commits;
      if ok {
        install := Rebuild(b, r);
      } else {
        vault := vault.(row := None);
      }
    }

    /** Key files, then the transaction, then the cleanup if either failed. */
    method Restore(w: World, o: Opening, password: string) returns (r: Result<Rebuilt, ImportError>)
      requires vault.row.None? && FreshNames(w.keys, install.keyFiles) && NewIds(w.uuid, install)
      requires V.DeriveKek(w.env, password, o.row.kekSalt, o.row.params).Some?
      requires V.OpenRow(w.env, o.row, V.DeriveKek(w.env, password, o.row.kekSalt, o.row.params).value) == Some(o.dek)
      requires !o.full ==> o.payload.transports == []
      modifies this
      ensures Restores(w, o, old(vault), old(install), vault, install, r)
    {
      hide KeysStored, Cleaned, NewIds, FreshNames, Done, Aborted, Finished, TablesFail, V.DeriveKek, V.OpenRow;
      NothingToClean(w.keys, install.keyFiles);
      if o.full && !w.keys.mkdir { return Err(KeyFileFailed); }
      var ok, keys, written := WriteKeyFiles(w.keys, o.payload.transports);
      if !ok { return Err(KeyFileFailed); }
      SameTablesNewIds(w.uuid, old(install), install);
      ghost var files := install.keyFiles;
      var rebuilt;
      ok, rebuilt := Transaction(w, o, password, keys);
      assert JobOf(w, o, old(install), files, keys) == JobOf(w, o, old(install).(keyFiles := files), files, keys);
      if !ok {
        TransactionFailedBecause(w, o, old(install), files, keys, rebuilt);
        RemoveFiles(w.keys, written);
        WrittenRemoved(w.keys, o.payload.transports, old(install).keyFiles, files, keys, written, install.keyFiles);
        vault := V.Locked(vault);
        return Err(TransactionFailed);
      }
      FinishedWith(w, password, o, old(vault), old(install), vault, install, files, keys, rebuilt);
      return Ok(rebuilt);
    }

    /**
     The two buffers that the import itself makes, `kek` and `dek`, are never wiped: whatever the outcome, a derived KEK
     and an unwrapped key are left as they are.
     */
    method ImportVault(w: World, file: Option<Archive>, password: string)
      returns (r: Result<Rebuilt, ImportError>, ghost kek: array?<byte>, ghost dek: array?<byte>)
      requires FreshNames(w.keys, install.keyFiles) && NewIds(w.uuid, install)
      modifies this
      ensures Imports(w, file, password, old(vault), old(install), vault, install, r)
      ensures kek != null <==> old(vault).row.None? && DerivedKek(w.env, w.codec, file, password).Some?
      ensures dek != null <==> old(vault).row.None? && UnwrappedDek(w.env, w.codec, file, password).Some?
      ensures kek != null ==> fresh(kek) && kek[..] == DerivedKek(w.env, w.codec, file, password).value
      ensures dek != null ==> fresh(dek) && dek[..] == UnwrappedDek(w.env, w.codec, file, password).value
    {
      hide Restores, NewIds, FreshNames, OpenArchive, DerivedKek, UnwrappedDek;
      kek, dek := null, null;
      if vault.row.Some? {
        r := Err(AlreadyHasVault);
        return;
      }
      var opening;
      opening, kek, dek := OpenFile(w.env, w.codec, file, password);
      if opening.Err? {
        r := Err(opening.error);
        return;
      }
      OpeningUnlocks(w.env, w.codec, file, password);
      r := Restore(w, opening.value, password);
    }
  }

  /** The KEK that the password derives, if the file is read so far. */
  ghost function DerivedKek(env: V.Env, c: Codec, file: Option<Archive>, password: string): Option<Bytes> {
    match ParseArchive(c, file)
    case Err(_) => None
    case Ok(f) => if !HasAllFields(f) then None else V.DeriveKek(env, password, c.unbase64(f.kekSalt.value), f.params)
  }

  /** What that KEK unwraps, accepted by the verifier or not. */
  ghost function UnwrappedDek(env: V.Env, c: Codec, file: Option<Archive>, password: string): Option<Bytes> {
    match DerivedKek(env, c, file, password)
    case None => None
    case Some(kek) =>
      if file.None? || file.value.wrappedDek.None? then None
      else match DecryptBytes(env.aead, VAULT_MAGIC, c.unbase64(file.value.wrappedDek.value), kek)
        case Err(_) => None
        case Ok(dek) => Some(dek)
  }

  /** All checks of `importVaultBuffer`, with its two key buffers. */
  method OpenFile(env: V.Env, c: Codec, file: Option<Archive>, password: string)
    returns (r: Result<Opening, ImportError>, ghost kek: array?<byte>, ghost dek: array?<byte>)
    ensures r == OpenArchive(env, c, file, password)
    ensures kek != null <==> DerivedKek(env, c, file, password).Some?
    ensures dek != null <==> UnwrappedDek(env, c, file, password).Some?
    ensures kek != null ==> fresh(kek) && kek[..] == DerivedKek(env, c, file, password).value
    ensures dek != null ==> fresh(dek) && dek[..] == UnwrappedDek(env, c, file, password).value
  {
    hide V.DeriveKek, DecryptBytes;
    kek, dek := null, null;
    var parsed := ParseArchive(c, file);
    if parsed.Err? {
      r := Err(parsed.error);
      return;
    }
    var f := parsed.value;
    if !HasAllFields(f) {
      r := Err(MissingFields);
      return;
    }
    var row := V.Meta(f.params, c.unbase64(f.kekSalt.value), c.unbase64(f.wrappedDek.value),
                      c.unbase64(f.verifier.value));
    var derived := V.DeriveKek(env, password, row.kekSalt, row.params);
    if derived.None? {
      r := Err(KdfRejected);
      return;
    }
    var key := Objects.Buffer(derived.value);
    kek := key;
    var plain := DecryptBytes(env.aead, VAULT_MAGIC, row.wrappedDek, key[..]);
    if plain.Err? {
      r := Err(WrongPassword);
      return;
    }
    var live := Objects.Buffer(plain.value);
    dek := live;
    if !V.VerifierMatches(env, row.verifier, live[..]) {
      r := Err(WrongPassword);
      return;
    }
    r := ReadPayload(env, c, f, row, live[..]);
  }

  lemma TransactionFailedBecause(w: World, o: Opening, s0: Install, files: map<Path, Bytes>, keys: map<Id, Path>,
                                 r: Rebuilt)
    requires KeysStored(w.keys, o.payload.transports, |o.payload.transports|, s0.keyFiles, files, keys)
    requires w.rowWrites && w.commits ==> Aborted(JobOf(w, o, s0, files, keys), r)
    ensures TablesFail(w, o, s0)
  {
    hide KeysStored, Aborted;
  }

  lemma FinishedWith(w: World, password: string, o: Opening, v0: V.Vault, s0: Install, v1: V.Vault, s1: Install,
                     files: map<Path, Bytes>, keys: map<Id, Path>, r: Rebuilt)
    requires V.DeriveKek(w.env, password, o.row.kekSalt, o.row.params).Some?
    requires V.OpenRow(w.env, o.row, V.DeriveKek(w.env, password, o.row.kekSalt, o.row.params).value) == Some(o.dek)
    requires KeysStored(w.keys, o.payload.transports, |o.payload.transports|, s0.keyFiles, files, keys)
    requires Done(JobOf(w, o, s0, files, keys), r, 11) && s1 == Rebuild(JobOf(w, o, s0, files, keys), r)
    requires (v1, V.Done) == V.Unlock(w.env, v0.(row := Some(o.row)), password, false, w.io)
    ensures Finished(w, o, v0, s0, v1, s1, r)
  {
    hide KeysStored, Done, V.DeriveKek, V.OpenRow;
  }

  /** The password that opened the archive will unlock the restored vault. */
  lemma OpeningUnlocks(env: V.Env, c: Codec, file: Option<Archive>, password: string)
    requires OpenArchive(env, c, file, password).Ok?
    ensures var o := OpenArchive(env, c, file, password).value;
            var kek := V.DeriveKek(env, password, o.row.kekSalt, o.row.params);
            kek.Some? && V.OpenRow(env, o.row, kek.value) == Some(o.dek)
            && (!o.full ==> o.payload.transports == [])
  {
  }

  lemma NothingToClean(w: KeyWorld, files: map<Path, Bytes>)
    ensures Cleaned(w, files, files)
  {
  }

  lemma WrittenRemoved(w: KeyWorld, rows: KeyRows, before: map<Path, Bytes>, files: map<Path, Bytes>,
                       keys: map<Id, Path>, written: seq<Path>, after: map<Path, Bytes>)
    requires KeysStored(w, rows, |rows|, before, files, keys)
    requires forall p :: p in written <==> p in files && p !in before
    requires after == map p | p in files && !(p in written && w.unlinks(p)) :: files[p]
    ensures Cleaned(w, before, after)
  {
  }

  lemma SameTablesNewIds(uuid: Uuids, s: Install, t: Install)
    requires NewIds(uuid, s) && t == s.(keyFiles := t.keyFiles)
    ensures NewIds(uuid, t)
  {
  }

  lemma NothingStored(w: KeyWorld, rows: KeyRows, before: map<Path, Bytes>)
    ensures KeysStored(w, rows, 0, before, before, map[])
  {
  }

  lemma NoKeyToStore(w: KeyWorld, rows: KeyRows, i: nat, before: map<Path, Bytes>, files: map<Path, Bytes>,
                     keys: map<Id, Path>)
    requires i < |rows| && !HasKey(rows[i]) && KeysStored(w, rows, i, before, files, keys)
    ensures KeysStored(w, rows, i + 1, before, files, keys)
  {
    forall p | p in files && p !in before ensures exists j :: 0 <= j < i + 1 && HasKey(rows[j]) && p == w.dest(j) {
      var j :| 0 <= j < i && HasKey(rows[j]) && p == w.dest(j);
    }
    forall x | x in keys
      ensures exists j :: 0 <= j < i + 1 && HasKey(rows[j]) && rows[j].id == x && keys[x] == w.dest(j)
    {
      var j :| 0 <= j < i && HasKey(rows[j]) && rows[j].id == x && keys[x] == w.dest(j);
    }
  }

  lemma NewNamesAreFree(w: KeyWorld, rows: KeyRows, i: nat, before: map<Path, Bytes>, files: map<Path, Bytes>)
    requires i < |rows| && FreshNames(w, before) && FilesAdded(w, rows, i, before, files)
    ensures w.dest(i) !in files && w.tmp(i) !in files && w.dest(i) != w.tmp(i) && w.dest(i) !in before
    ensures forall j :: 0 <= j < i ==> w.dest(j) != w.dest(i) && w.dest(j) != w.tmp(i)
  {
  }

  lemma NextFileAdded(w: KeyWorld, rows: KeyRows, i: nat, before: map<Path, Bytes>, files: map<Path, Bytes>)
    requires i < |rows| && HasKey(rows[i]) && FreshNames(w, before) && FilesAdded(w, rows, i, before, files)
    ensures FilesAdded(w, rows, i + 1, before, files[w.dest(i) := rows[i].extra.key.value] - {w.tmp(i)})
    ensures w.dest(i) !in files && w.tmp(i) !in files && w.dest(i) != w.tmp(i) && w.dest(i) !in before
  {
    NewNamesAreFree(w, rows, i, before, files);
    hide FreshNames, FilesAdded;
    OneFileMore(w, rows, i, before, files, files[w.dest(i) := rows[i].extra.key.value] - {w.tmp(i)});
  }

  lemma OneFileMore(w: KeyWorld, rows: KeyRows, i: nat, before: map<Path, Bytes>, files: map<Path, Bytes>,
                    now: map<Path, Bytes>)
    requires i < |rows| && HasKey(rows[i]) && FilesAdded(w, rows, i, before, files) && w.dest(i) !in files
    requires forall p :: p in now <==> p in files || p == w.dest(i)
    requires forall p :: p in files ==> now[p] == files[p]
    requires now[w.dest(i)] == rows[i].extra.key.value
    ensures FilesAdded(w, rows, i + 1, before, now)
  {
    forall p | p in now && p !in before ensures exists j :: 0 <= j < i + 1 && HasKey(rows[j]) && p == w.dest(j) {
      if p != w.dest(i) {
        var j :| 0 <= j < i && HasKey(rows[j]) && p == w.dest(j);
      }
    }
    hide HasKey;
  }

  lemma NextKeyMapped(w: KeyWorld, rows: KeyRows, i: nat, keys: map<Id, Path>)
    requires i < |rows| && HasKey(rows[i]) && KeysMapped(w, rows, i, keys)
    ensures KeysMapped(w, rows, i + 1, keys[rows[i].id := w.dest(i)])
  {
    var known := keys[rows[i].id := w.dest(i)];
    forall x | x in known
      ensures exists j :: 0 <= j < i + 1 && HasKey(rows[j]) && rows[j].id == x && known[x] == w.dest(j)
    {
      if x != rows[i].id {
        var j :| 0 <= j < i && HasKey(rows[j]) && rows[j].id == x && keys[x] == w.dest(j);
      }
    }
  }

  /** The cleanup after a failed key removes all that this import wrote. */
  lemma NothingLeft(w: KeyWorld, rows: KeyRows, i: nat, before: map<Path, Bytes>, files: map<Path, Bytes>,
                    left: map<Path, Bytes>, written: seq<Path>, after: map<Path, Bytes>)
    requires FilesAdded(w, rows, i, before, files) && w.dest(i) !in files && w.tmp(i) !in files
    requires forall p :: p in written <==> p in files && p !in before
    requires SameElsewhere(w, i, files, left)
    requires after == map p | p in left && !(p in [w.tmp(i), w.dest(i)] + written && w.unlinks(p)) :: left[p]
    ensures Cleaned(w, before, after)
  {
  }

  // From one machine to another.

  ghost predicate FaultFree(w: World) {
    && NoFaults(w.faults) && w.rowWrites && w.commits && w.keys.mkdir
    && forall i :: w.keys.fault(i) == NoFault
  }

  predicate EmptyTables(s: Install) {
    s == Install(map[], map[], map[], map[], map[], map[], map[], map[], map[], map[], map[], map[], map[], map[],
                 s.keyFiles)
  }

  ghost predicate SoundSource(s: Install) {
    SoundConnections(s) && SoundTasks(s) && SoundVault(s) && Complete(s)
  }

  /** The archive of a vault that this password opens. */
  ghost predicate Backup(w: World, s: Install, row: V.Meta, dek: Bytes, p: Payload, nonce: Bytes, file: Archive) {
    && Exports(s, p) && |nonce| == NONCE_LEN && Archives(w.env, w.codec, row, dek, p, nonce, file)
    && forall kek, k :: V.OpenRow(w.env, row, kek) == Some(k) ==> k == dek
  }

  lemma StoredKeysAreWritten(w: KeyWorld, rows: KeyRows, before: map<Path, Bytes>, after: map<Path, Bytes>,
                             keys: map<Id, Path>)
    requires KeysStored(w, rows, |rows|, before, after, keys) && UniqueIds(rows)
    ensures KeysWritten(rows, keys, after)
  {
    forall j | 0 <= j < |rows| && HasKey(rows[j])
      ensures rows[j].id in keys && keys[rows[j].id] in after && after[keys[rows[j].id]] == rows[j].extra.key.value
    {
      var k :| 0 <= k < |rows| && HasKey(rows[k]) && rows[k].id == rows[j].id && keys[rows[j].id] == w.dest(k);
      assert k == j;
    }
  }

  lemma JobIsSetting(w: World, s: Install, o: Opening, s0: Install, files: map<Path, Bytes>, keys: map<Id, Path>)
    requires SoundSource(s) && Exports(s, o.payload) && EmptyTables(s0) && NewIds(w.uuid, s0) && FaultFree(w)
    requires KeysStored(w.keys, o.payload.transports, |o.payload.transports|, s0.keyFiles, files, keys)
    ensures Setting(s, JobOf(w, o, s0, files, keys))
  {
    hide SoundConnections, SoundTasks, SoundVault, Complete, NewIds, KeysStored, NoFaults, KeysWritten, UniqueIds,
         Every, SetsOf, TransportsOf, ConnectionsOf, TasksOf, ReposOf, FileTasksOf, ReplicationsOf, TransportBeside,
           ConnectionBeside, TaskBeside, FileRepoBeside, ReplicationBeside, CredentialBeside, ItemBeside, Nothing;
    assert Lists(o.payload.transports, s.transports, TransportsOf(s), TransportBeside(s));
    SameTablesNewIds(w.uuid, s0, s0.(keyFiles := files));
    StoredKeysAreWritten(w.keys, o.payload.transports, s0.keyFiles, files, keys);
  }

  /**
   Disaster recovery, end to end: a file exported from a sound and complete installation, imported
   with the master password on a machine with empty tables, where nothing fails, succeeds; the machine then has
   the vault's row and key, and the source's tables, secrets and key files up to a renaming of ids.
   */
  lemma DisasterRecovery(w: World, s: Install, row: V.Meta, dek: Bytes, p: Payload, nonce: Bytes, file: Archive,
                         password: string, v0: V.Vault, s0: Install, v1: V.Vault, s1: Install,
                           r: Result<Rebuilt, ImportError>)
    requires SoundSource(s) && V.LawfulEnv(w.env) && LawfulCodec(w.codec, p) && FaultFree(w)
    requires Backup(w, s, row, dek, p, nonce, file)
    requires V.DeriveKek(w.env, password, row.kekSalt, row.params).Some?
    requires V.OpenRow(w.env, row, V.DeriveKek(w.env, password, row.kekSalt, row.params).value) == Some(dek)
    requires v0.row.None? && EmptyTables(s0) && NewIds(w.uuid, s0)
    requires Imports(w, Some(file), password, v0, s0, v1, s1, r)
    ensures r.Ok? && v1.row == Some(row) && v1.session == Some(dek)
    ensures Isomorphic(s, s1, Names(r.value))
  {
    hide SoundSource, Exports, Setting, KeysStored, KeysFail, TablesFail, FaultFree, NewIds, EmptyTables, Done,
         Isomorphic, OpenArchive, V.DeriveKek, V.OpenRow, NoFaults, Archives;
    ExportedFileOpens(w.env, w.codec, row, dek, p, nonce, file, password);
    var o := Opening(row, dek, true, p);
    NothingRefuses(w, s, o, s0);
    if r.Ok? {
      var files, keys :| KeysStored(w.keys, p.transports, |p.transports|, s0.keyFiles, files, keys)
                         && Done(JobOf(w, o, s0, files, keys), r.value, 11)
                           && s1 == Rebuild(JobOf(w, o, s0, files, keys), r.value);
      JobIsSetting(w, s, o, s0, files, keys);
      ImportInvertsExport(s, JobOf(w, o, s0, files, keys), r.value);
    }
  }

  /** Neither the key files nor the tables of a sound and complete source can be refused. */
  lemma NothingRefuses(w: World, s: Install, o: Opening, s0: Install)
    requires SoundSource(s) && Exports(s, o.payload) && EmptyTables(s0) && NewIds(w.uuid, s0) && FaultFree(w)
    ensures !KeysFail(w, o) && !TablesFail(w, o, s0)
  {
    hide SoundSource, Exports, Setting, KeysStored, NewIds, EmptyTables, Done, Aborted, Isomorphic, NoFaults;
    var rows := o.payload.transports;
    if files, keys, r :|
      KeysStored(w.keys, rows, |rows|, s0.keyFiles, files, keys) && Aborted(JobOf(w, o, s0, files, keys), r)
    {
      JobIsSetting(w, s, o, s0, files, keys);
      ImportInvertsExport(s, JobOf(w, o, s0, files, keys), r);
    }
  }

  /** With any other password the import stops before it writes anything. */
  lemma WrongPasswordWritesNothing(w: World, s: Install, row: V.Meta, dek: Bytes, p: Payload, nonce: Bytes,
                                   file: Archive, password: string, v0: V.Vault, s0: Install, v1: V.Vault, s1: Install,
                                     r: Result<Rebuilt, ImportError>)
    requires V.LawfulEnv(w.env) && LawfulCodec(w.codec, p) && Backup(w, s, row, dek, p, nonce, file) && v0.row.None?
    requires V.DeriveKek(w.env, password, row.kekSalt, row.params).Some?
    requires V.OpenRow(w.env, row, V.DeriveKek(w.env, password, row.kekSalt, row.params).value) != Some(dek)
    requires Imports(w, Some(file), password, v0, s0, v1, s1, r)
    ensures r == Err(WrongPassword) && v1 == v0 && s1 == s0
  {
    hide Exports, OpenArchive, V.DeriveKek, V.OpenRow, Archives, Restores;
    ExportedFileOpens(w.env, w.codec, row, dek, p, nonce, file, password);
  }

  /** A failed import leaves no row, no secret, no vault and no open key; if every removal works, no file either. */
  lemma FailedImportIsInvisible(w: World, file: Option<Archive>, password: string, v0: V.Vault, s0: Install,
                                v1: V.Vault, s1: Install, r: Result<Rebuilt, ImportError>)
    requires v0.row.None? && v0.session.None?
    requires Imports(w, file, password, v0, s0, v1, s1, r) && r.Err?
    ensures v1.row.None? && v1.session.None? && s1 == s0.(keyFiles := s1.keyFiles)
    ensures (forall p :: w.keys.unlinks(p)) ==> s1 == s0
  {
    hide OpenArchive, KeysFail, TablesFail;
    assert Cleaned(w.keys, s0.keyFiles, s1.keyFiles) || s1 == s0;
    if forall p :: w.keys.unlinks(p) {
      assert s1.keyFiles == s0.keyFiles;
    }
  }

  ghost predicate KeyFileUsed(before: map<Id, Transport>, r: Rebuilt, path: Path) {
    exists id :: id in r.transports.after && id !in before && r.transports.after[id].keyPath == Some(path)
  }

  lemma OwnPath(w: KeyWorld, rows: KeyRows, before: map<Path, Bytes>, files: map<Path, Bytes>, keys: map<Id, Path>,
                j: nat, k: nat)
    requires KeysStored(w, rows, |rows|, before, files, keys) && FreshNames(w, before) && UniqueIds(rows)
    requires j < |rows| && k < |rows| && HasKey(rows[j])
    ensures rows[j].id in keys && keys[rows[j].id] == w.dest(j)
    ensures rows[k].id in keys && keys[rows[k].id] == w.dest(j) ==> k == j
  {
    var a :| 0 <= a < |rows| && HasKey(rows[a]) && rows[a].id == rows[j].id && keys[rows[j].id] == w.dest(a);
    if rows[k].id in keys {
      var c :| 0 <= c < |rows| && HasKey(rows[c]) && rows[c].id == rows[k].id && keys[rows[k].id] == w.dest(c);
    }
  }

  /** No transport is refused, so those restored are those not skipped. */
  lemma WantedTransportsAreMade(b: Job, r: Rebuilt, j: nat)
    requires TransportsDone(b, r) && j < |b.payload.transports|
    ensures var x := b.payload.transports[j];
            j in r.transports.made <==> x.row.clientId in r.clients.ids && (Keyed(x.row.kind) ==> x.id in b.keys)
  {
    hide RowsAdded, IdsMapped, SecretsStored, AcceptedInTurn, TransportImage, EarlierMade;
    var rules, rows := TransportRules(r.clients.ids, b.keys, b.uuid, b.faults), b.payload.transports;
    assert forall t, n :: rules.verdict(j, t, rows[j], n) == Guard(b.faults(Transports, j));
    assert !RefusedInTurn(rules, b.start.transports, rows, r.transports.made, j);
  }

  lemma MadeTransport(b: Job, r: Rebuilt, j: nat)
    requires TransportsDone(b, r) && j in r.transports.made
    ensures j < |b.payload.transports|
    ensures var id := b.uuid(r.transports.made[j]);
            id in r.transports.after && id !in b.start.transports
            && r.transports.after[id] == TransportImage(r.clients.ids, b.keys, b.uuid, b.payload.transports[j],
                                                        r.transports.made[j])
  {
    hide RefusalsExplained, IdsMapped, SecretsStored, AcceptedInTurn, TransportImage;
  }

  lemma ImagePath(cm: map<Id, Id>, keys: map<Id, Path>, uuid: Uuids, x: Exported<Transport, TransportSecrets>, n: nat,
                  path: Path)
    ensures TransportImage(cm, keys, uuid, x, n).keyPath == Some(path) <==>
            Keyed(x.row.kind) && x.id in keys && keys[x.id] == path
  {
  }

  lemma NewTransport(b: Job, r: Rebuilt, id: Id)
    requires TransportsDone(b, r) && id in r.transports.after && id !in b.start.transports
    ensures exists j :: j in r.transports.made && id == b.uuid(r.transports.made[j])
  {
    hide DrawsDistinct, RefusalsExplained, IdsMapped, SecretsStored, AcceptedInTurn, TransportImage;
  }

  lemma UsedKeyIsRestored(w: KeyWorld, b: Job, before: map<Path, Bytes>, r: Rebuilt, j: nat)
    requires KeysStored(w, b.payload.transports, |b.payload.transports|, before, b.start.keyFiles, b.keys)
    requires FreshNames(w, before) && UniqueIds(b.payload.transports) && TransportsDone(b, r)
    requires j < |b.payload.transports| && HasKey(b.payload.transports[j])
             && KeyFileUsed(b.start.transports, r, w.dest(j))
    ensures Keyed(b.payload.transports[j].row.kind) && b.payload.transports[j].row.clientId in r.clients.ids
  {
    hide KeysStored, FreshNames, UniqueIds, TransportsDone, TransportImage, HasKey;
    var rows := b.payload.transports;
    var id :| id in r.transports.after && id !in b.start.transports
      && r.transports.after[id].keyPath == Some(w.dest(j));
    NewTransport(b, r, id);
    var k :| k in r.transports.made && id == b.uuid(r.transports.made[k]);
    MadeTransport(b, r, k);
    ImagePath(r.clients.ids, b.keys, b.uuid, rows[k], r.transports.made[k], w.dest(j));
    WantedTransportsAreMade(b, r, k);
    OwnPath(w, rows, before, b.start.keyFiles, b.keys, j, k);
  }

  lemma RestoredKeyIsUsed(w: KeyWorld, b: Job, before: map<Path, Bytes>, r: Rebuilt, j: nat)
    requires KeysStored(w, b.payload.transports, |b.payload.transports|, before, b.start.keyFiles, b.keys)
    requires FreshNames(w, before) && UniqueIds(b.payload.transports) && TransportsDone(b, r)
    requires j < |b.payload.transports| && HasKey(b.payload.transports[j])
    requires Keyed(b.payload.transports[j].row.kind) && b.payload.transports[j].row.clientId in r.clients.ids
    ensures KeyFileUsed(b.start.transports, r, w.dest(j))
  {
    hide KeysStored, FreshNames, UniqueIds, TransportsDone, TransportImage, HasKey;
    var rows := b.payload.transports;
    OwnPath(w, rows, before, b.start.keyFiles, b.keys, j, j);
    WantedTransportsAreMade(b, r, j);
    MadeTransport(b, r, j);
    ImagePath(r.clients.ids, b.keys, b.uuid, rows[j], r.transports.made[j], w.dest(j));
  }

  /**
   A successful import can leave key files that no transport uses: exactly those of the exported transports that are
   not SFTP or SSH, or whose client does not come back - because its insert fails, or its name is taken by a client
   that was there or by one that comes back before it.
   */
  lemma OrphanedKeyFiles(w: KeyWorld, b: Job, before: map<Path, Bytes>, r: Rebuilt, j: nat)
    requires KeysStored(w, b.payload.transports, |b.payload.transports|, before, b.start.keyFiles, b.keys)
    requires FreshNames(w, before) && UniqueIds(b.payload.transports)
    requires Done(b, r, 11)
    requires j < |b.payload.transports| && HasKey(b.payload.transports[j])
    ensures KeyFileUsed(b.start.transports, r, w.dest(j)) <==>
            Keyed(b.payload.transports[j].row.kind) && Recovery.ClientComesBack(b, b.payload.transports[j].row.clientId)
  {
    hide KeysStored, FreshNames, UniqueIds, ClientsDone, TransportsDone, HasKey, KeyFileUsed, Recovery.ClientComesBack;
    assert ClientsDone(b, r) && TransportsDone(b, r);
    hide Done;
    var x := b.payload.transports[j];
    Recovery.MappedClientsComeBack(b, r, x.row.clientId);
    if KeyFileUsed(b.start.transports, r, w.dest(j)) { UsedKeyIsRestored(w, b, before, r, j); }
    if Keyed(x.row.kind) && x.row.clientId in r.clients.ids { RestoredKeyIsUsed(w, b, before, r, j); }
  }

  lemma NothingListedNothingMade<R(!new), S(!new), V(!new)>(
    rules: Rules<R, S, Ref, V>, uuid: Uuids, before: map<Id, R>, store: map<Ref, V>, first: nat, o: Outcome<R, Ref, V>)
    requires Restored(rules, uuid, [], 0, before, store, first, o)
    ensures o.after == before && o.created == 0
  {
    hide IdsMapped, SecretsStored, AcceptedInTurn, RefusalsExplained;
    assert o.made == map[];
  }

  /** A version 1 file carries clients and the vault's own rows only. */
  lemma VersionOneIsReduced(env: V.Env, c: Codec, file: Option<Archive>, password: string)
    requires OpenArchive(env, c, file, password).Ok? && file.value.formatVersion.value < 2
    ensures var p := OpenArchive(env, c, file, password).value.payload; p == VaultOnly(p)
  {
  }

  ghost predicate OthersUntouched(s: Install, r: Rebuilt) {
    && r.sets.after == s.sets && r.transports.after == s.transports && r.connections.after == s.connections
      && r.tasks.after == s.tasks
    && r.repos.after == s.repos && r.fileTasks.after == s.fileTasks && r.replications.after == s.replications
  }

  /** Importing it leaves every other table as it was. */
  lemma ReducedImport(b: Job, r: Rebuilt)
    requires b.payload == VaultOnly(b.payload) && Done(b, r, 8)
    ensures OthersUntouched(b.start, r)
  {
    hide Restored;
    var f, u, m := b.faults, b.uuid, MapsOf(r);
    NothingListedNothingMade(SetRules(r.clients.ids, f), u, b.start.sets, r.clients.store, r.clients.next, r.sets);
    NothingListedNothingMade(TransportRules(r.clients.ids, b.keys, u, f), u, b.start.transports, r.sets.store,
                             r.sets.next, r.transports);
    NothingListedNothingMade(ConnectionRules(r.clients.ids, u, f), u, b.start.connections, r.transports.store,
                             r.transports.next, r.connections);
    NothingListedNothingMade(TaskRules(m, r.transports.after, r.connections.after, u, f), u, b.start.tasks,
                             r.connections.store, r.connections.next, r.tasks);
    NothingListedNothingMade(RepoRules(r.clients.ids, f), u, b.start.repos, r.tasks.store, r.tasks.next, r.repos);
    NothingListedNothingMade(FileTaskRules(m, r.repos.ids, r.transports.after, f), u, b.start.fileTasks, r.repos.store,
                             r.repos.next, r.fileTasks);
    NothingListedNothingMade(ReplicationRules(m, f), u, b.start.replications, r.fileTasks.store, r.fileTasks.next,
                             r.replications);
  }
}

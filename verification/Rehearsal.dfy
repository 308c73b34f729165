/**
 The recovery theorems with nothing assumed: the installation of `Example` is archived under a toy
 cipher and the base64 of `Base64`, and the archive is imported on an empty machine, by the code of
 `ImportFile`. So all hypotheses of `DisasterRecovery` and of `SecretsComeBack` hold at once.
 */
module Rehearsal {
  import opened Common
  import opened Blob
  import opened RestoreLoop
  import opened RecoveryModel
  import opened Import
  import opened Export
  import opened Isomorphism
  import opened ArchiveFile
  import opened ImportFile
  import opened Example
  import RestoredSecrets
  import V = VaultModel
  import Runs = VaultRuns

  const PASSWORD: string := "correct horse"
  const DEK: Bytes := Zeros(KEY_LEN)
  const NONCE: Bytes := Zeros(NONCE_LEN)
  const BLANK: Install :=
    Install(map[], map[], map[], map[], map[], map[], map[], map[], map[], map[], map[], map[], map[], map[], map[])
  const IO: V.Io := V.Io(0, [], DEK, NONCE, NONCE, true, true, true, [])

  /** The vault's row, as `init` makes it. */
  function Row(): V.Meta {
    match V.MakeRow(V.ToyEnv(), Runs.PARAMS, [], Zeros(KEY_LEN), DEK, NONCE, NONCE)
    case Ok(row) => row
    case Err(_) => V.Meta(Runs.PARAMS, [], [], [])
  }

  /** What an export writes. */
  function FileOf(env: V.Env, c: Codec, row: V.Meta, dek: Bytes, p: Payload, nonce: Bytes): Archive {
    match EncryptBytes(env.aead, VAULT_MAGIC, c.print_(Inner(true, p)), dek, nonce)
    case Ok(blob) => ArchiveOf(c, row, blob)
    case Err(_) => ArchiveOf(c, row, [])
  }

  function File(): Archive {
    FileOf(V.ToyEnv(), CodecFor(ExamplePayload()), Row(), DEK, ExamplePayload(), NONCE)
  }

  function Outside(): World {
    World(V.ToyEnv(), CodecFor(ExamplePayload()), IO, Draw, (t, j) => false, Directory(), true, true)
  }

  lemma RowIsHeld()
    ensures Runs.RowHolds(V.ToyEnv(), Row(), RestoredSecrets.Adopted(PASSWORD, DEK))
  {
    hide EncryptBytes, DecryptBytes, V.LawfulEnv, Runs.RowHolds;
    V.EnvironmentsExist();
    Runs.MadeRowHolds(V.ToyEnv(), Runs.PARAMS, [], PASSWORD, RestoredSecrets.Adopted(PASSWORD, DEK), NONCE, NONCE);
  }

  lemma RowOpens()
    ensures RestoredSecrets.OpensWith(V.ToyEnv(), Row(), DEK, PASSWORD)
    ensures forall kek, k :: V.OpenRow(V.ToyEnv(), Row(), kek) == Some(k) ==> k == DEK
  {
    V.EnvironmentsExist();
    RowIsHeld();
    var env, row, o := V.ToyEnv(), Row(), RestoredSecrets.Adopted(PASSWORD, DEK);
    hide V.LawfulEnv, V.OpenRow, Runs.RowHolds, Row;
    assert o.dek == DEK;
    forall kek ensures V.OpenRow(env, row, kek).Some? ==> V.OpenRow(env, row, kek).value == DEK {
      Runs.RowOpensToOneKey(env, row, o, kek);
    }
    RowKekOpens(env, row, o);
  }

  lemma RowKekOpens(env: V.Env, row: V.Meta, o: Runs.Observed)
    requires V.LawfulEnv(env) && Runs.RowHolds(env, row, o)
    ensures RestoredSecrets.OpensWith(env, row, o.dek, o.password)
  {
    hide DecryptBytes;
    Runs.RowOpensToOneKey(env, row, o, V.DeriveKek(env, o.password, row.kekSalt, row.params).value);
  }

  lemma FileIsArchive(env: V.Env, c: Codec, row: V.Meta, dek: Bytes, p: Payload, nonce: Bytes)
    requires V.LawfulEnv(env) && |dek| == KEY_LEN && |nonce| == NONCE_LEN
    ensures Archives(env, c, row, dek, p, nonce, FileOf(env, c, row, dek, p, nonce))
  {
    EncryptDecrypt(env.aead, VAULT_MAGIC, c.print_(Inner(true, p)), dek, nonce);
    hide EncryptBytes, DecryptBytes;
  }

  lemma FileIsBackup()
    ensures Backup(Outside(), SOURCE, Row(), DEK, ExamplePayload(), NONCE, File())
  {
    V.EnvironmentsExist();
    PayloadIsExport();
    RowOpens();
    hide V.LawfulEnv, Exports, V.OpenRow, Row, ExamplePayload, FileOf, CodecFor, V.ToyEnv, Archives;
    FileIsArchive(V.ToyEnv(), CodecFor(ExamplePayload()), Row(), DEK, ExamplePayload(), NONCE);
  }

  lemma SourceIsSound()
    ensures SoundSource(SOURCE)
  {
    ConnectionsAreSound();
    TasksAreSound();
    VaultIsSound();
    SourceIsComplete();
  }

  /** All that the theorems speak of, but for what the import makes. */
  datatype Case = Case(w: World, source: Install, row: V.Meta, dek: Bytes, payload: Payload, nonce: Bytes,
                       file: Archive, password: string, blank: Install, io: V.Io)

  /** The hypotheses of `DisasterRecovery` and `SecretsComeBack`. */
  ghost predicate Ready(c: Case) {
    && SoundSource(c.source) && V.LawfulEnv(c.w.env) && LawfulCodec(c.w.codec, c.payload) && FaultFree(c.w)
    && Backup(c.w, c.source, c.row, c.dek, c.payload, c.nonce, c.file)
    && RestoredSecrets.OpensWith(c.w.env, c.row, c.dek, c.password)
    && EmptyTables(c.blank) && NewIds(c.w.uuid, c.blank) && FreshNames(c.w.keys, c.blank.keyFiles) && c.io.dbWrites
  }

  /** With its secrets stored, and after a restart and an unlock, the vault answers for all of them. */
  ghost predicate Answers(c: Case, v: V.Vault, t: Install, names: Renaming, wr: RestoredSecrets.Writing,
                          sets: seq<Runs.Event>)
  {
    var restored := Runs.RunFrom(c.w.env, v, RestoredSecrets.Adopted(c.password, c.dek), sets).0;
    var (again, outcome) := V.Unlock(c.w.env, V.Restart(restored, None), c.password, false, c.io);
    && RestoredSecrets.Faithful(wr, t) && RestoredSecrets.StoresAll(wr, t, sets)
    && outcome == V.Done && RestoredSecrets.CredentialsAnswer(c.w.env, wr, c.source, t, names, again)
    && RestoredSecrets.ItemsAnswer(c.w.env, wr, c.source, t, names, again)
  }

  /** The import succeeds: vault and tables are the source's, and there are calls that store its secrets. */
  ghost predicate Recovered(c: Case, v: V.Vault, t: Install, r: Result<Rebuilt, ImportError>) {
    && r.Ok? && v.row == Some(c.row) && v.session == Some(c.dek) && Isomorphic(c.source, t, Names(r.value))
    && exists wr, sets :: Answers(c, v, t, Names(r.value), wr, sets)
  }

  lemma ImportRecovers(c: Case, v: V.Vault, t: Install, r: Result<Rebuilt, ImportError>)
    requires Ready(c) && Imports(c.w, Some(c.file), c.password, V.Fresh(None), c.blank, v, t, r)
    ensures Recovered(c, v, t, r)
  {
    hide SoundSource, V.LawfulEnv, LawfulCodec, Backup, FaultFree, NewIds, EmptyTables, Imports, Isomorphic,
         Runs.RunFrom, RestoredSecrets.Faithful, RestoredSecrets.StoresAll, RestoredSecrets.CredentialsAnswer,
         RestoredSecrets.ItemsAnswer, V.Unlock, V.OpenRow, V.DeriveKek;
    var empty := V.Fresh(None);
    DisasterRecovery(c.w, c.source, c.row, c.dek, c.payload, c.nonce, c.file, c.password, empty, c.blank, v, t, r);
    var wr := RestoredSecrets.WritingsExist(t);
    var sets := RestoredSecrets.SetsExist(wr, t, c.io);
    RestoredSecrets.SecretsComeBack(c.w, c.source, c.row, c.dek, c.payload, c.nonce, c.file, c.password, empty, c.blank,
                                    v, t, r, wr, sets, None, c.io);
    assert Answers(c, v, t, Names(r.value), wr, sets);
  }

  /** The import, run on an empty machine. */
  method Recover(c: Case) returns (machine: Machine, r: Result<Rebuilt, ImportError>)
    requires Ready(c)
    ensures Recovered(c, machine.vault, machine.install, r)
  {
    machine := new Machine(V.Fresh(None), c.blank);
    hide SoundSource, V.LawfulEnv, LawfulCodec, Backup, FaultFree, FreshNames, NewIds, EmptyTables, Imports, Recovered,
         RestoredSecrets.OpensWith, DerivedKek, UnwrappedDek;
    ghost var kek, key;
    r, kek, key := machine.ImportVault(c.w, Some(c.file), c.password);
    ImportRecovers(c, machine.vault, machine.install, r);
  }

  function TheCase(): Case {
    Case(Outside(), SOURCE, Row(), DEK, ExamplePayload(), NONCE, File(), PASSWORD, BLANK, IO)
  }

  /** All the hypotheses hold together. */
  lemma HypothesesHold()
    ensures Ready(TheCase())
  {
    V.EnvironmentsExist();
    CodecsExist(ExamplePayload());
    SourceIsSound();
    FileIsBackup();
    RowOpens();
    NamesDiffer();
    DrawsAreFresh();
    hide SoundSource, V.LawfulEnv, LawfulCodec, Backup, RestoredSecrets.OpensWith, FreshNames, ExamplePayload, Row,
         File;
  }

  /** So the example is recovered, with nothing assumed. */
  method Rehearse() returns (machine: Machine, r: Result<Rebuilt, ImportError>)
    ensures Recovered(TheCase(), machine.vault, machine.install, r)
  {
    HypothesesHold();
    hide Ready, Recovered, TheCase;
    machine, r := Recover(TheCase());
  }
}

/**
 Fetching dumps that already exist on a remote (fetchExistingExecutor.ts) and recording them
 (runBackupTask.ts, runsRepo.ts): each run takes the newest file that no successful run has fetched.
 */
module FetchExisting {
  import opened Common

  datatype RemoteFile = RemoteFile(fileName: string, size: nat, modifiedAt: int)

  /** What a Success row remembers of a file. */
  datatype Signature = Signature(fileName: string, size: nat)

  function Sign(f: RemoteFile): Signature { Signature(f.fileName, f.size) }

  /**
   How a run ends once a file is chosen, and how many bytes were transferred; nothing compares them with the listed
   size.
   */
  datatype Ending = Succeeded(bytes: nat) | Warned(bytes: nat) | Failed

  datatype Choice = NoFiles | NothingNew | Chosen(file: RemoteFile)

  function Unsigned(files: seq<RemoteFile>, signed: seq<Signature>): (rest: seq<RemoteFile>)
    ensures forall f :: f in rest <==> f in files && Sign(f) !in signed
  {
    if files == [] then []
    else (if Sign(files[0]) in signed then [] else [files[0]]) + Unsigned(files[1..], signed)
  }

  function Insert(f: RemoteFile, sorted: seq<RemoteFile>): (longer: seq<RemoteFile>)
    ensures forall g :: g in longer <==> g == f || g in sorted
  {
    if sorted == [] || f.modifiedAt >= sorted[0].modifiedAt then [f] + sorted else [sorted[0]] + Insert(f, sorted[1..])
  }

  /** A stable sort by descending modification time. */
  function Sorted(files: seq<RemoteFile>): (sorted: seq<RemoteFile>)
    ensures forall g :: g in sorted <==> g in files
  {
    if files == [] then [] else Insert(files[0], Sorted(files[1..]))
  }

  predicate Descending(files: seq<RemoteFile>) {
    forall i, j :: 0 <= i < j < |files| ==> files[i].modifiedAt >= files[j].modifiedAt
  }

  lemma {:induction false} InsertKeepsDescending(f: RemoteFile, sorted: seq<RemoteFile>)
    requires Descending(sorted)
    ensures Descending(Insert(f, sorted))
  {
    if sorted != [] && f.modifiedAt < sorted[0].modifiedAt {
      InsertKeepsDescending(f, sorted[1..]);
      var rest := Insert(f, sorted[1..]);
      forall j | 0 <= j < |rest| ensures sorted[0].modifiedAt >= rest[j].modifiedAt { assert rest[j] in rest; }
    }
  }

  lemma {:induction false} SortedIsDescending(files: seq<RemoteFile>)
    ensures Descending(Sorted(files))
  {
    if files != [] {
      SortedIsDescending(files[1..]);
      InsertKeepsDescending(files[0], Sorted(files[1..]));
    }
  }

  /** `produce`, up to the download. */
  function Choose(files: seq<RemoteFile>, signed: seq<Signature>): Choice {
    var candidates := Sorted(Unsigned(files, signed));
    if files == [] then NoFiles
    else if candidates == [] then NothingNew
    else Chosen(candidates[0])
  }

  /** The chosen file is a newest one among those not signed. */
  lemma ChosenIsNewest(files: seq<RemoteFile>, signed: seq<Signature>)
    ensures Choose(files, signed).Chosen? <==> Unsigned(files, signed) != []
    ensures Choose(files, signed).Chosen? ==>
      var f := Choose(files, signed).file;
      f in files && Sign(f) !in signed && forall g :: g in files && Sign(g) !in signed ==> g.modifiedAt <= f.modifiedAt
  {
    var rest := Unsigned(files, signed);
    var candidates := Sorted(rest);
    SortedIsDescending(rest);
    if rest != [] { assert rest[0] in candidates; }
    if candidates != [] { assert candidates[0] in rest && rest[0] in rest; }
    forall g | g in files && Sign(g) !in signed ensures candidates != [] && g.modifiedAt <= candidates[0].modifiedAt {
      assert g in candidates;
      var i :| 0 <= i < |candidates| && candidates[i] == g;
    }
  }

  /** Without a choice, the answer says why: there is nothing there, or all of it was fetched before. */
  lemma RefusalSaysWhy(files: seq<RemoteFile>, signed: seq<Signature>)
    ensures Choose(files, signed).NoFiles? <==> files == []
    ensures Choose(files, signed).NothingNew? <==> files != [] && forall f :: f in files ==> Sign(f) in signed
  {
    ChosenIsNewest(files, signed);
    var rest := Unsigned(files, signed);
    if rest != [] { assert rest[0] in rest; }
  }

  /** One run: only a Success row signs, with the bytes transferred; a transfer of no bytes fails. */
  function After(files: seq<RemoteFile>, signed: seq<Signature>, ending: Ending): seq<Signature> {
    match Choose(files, signed)
    case Chosen(f) => if ending.Succeeded? && ending.bytes > 0 then signed + [Signature(f.fileName, ending.bytes)]
      else signed
    case _ => signed
  }

  /** The signatures of a task's Success rows, which every run reads and a good one extends. */
  class Signatures {
    var signed: seq<Signature>

    constructor ()
      ensures signed == []
    {
      signed := [];
    }

    method Run(files: seq<RemoteFile>, ending: Ending) returns (choice: Choice)
      modifies this
      ensures choice == Choose(files, old(signed)) && signed == After(files, old(signed), ending)
    {
      choice := Choose(files, signed);
      if !choice.Chosen? || !ending.Succeeded? { return; }
      if ending.bytes <= 0 { return; }
      signed := signed + [Signature(choice.file.fileName, ending.bytes)];
    }
  }

  /** The files that `n` runs fetch from an unchanging directory, when every transfer is complete and valid. */
  function Fetched(files: seq<RemoteFile>, signed: seq<Signature>, n: nat): seq<RemoteFile>
    decreases n
  {
    if n == 0 then []
    else match Choose(files, signed)
      case Chosen(f) => [f] + Fetched(files, After(files, signed, Succeeded(f.size)), n - 1)
      case _ => Fetched(files, signed, n - 1)
  }

  predicate NoneEmpty(files: seq<RemoteFile>) {
    forall f :: f in files ==> f.size > 0
  }

  /** The signatures still to be fetched: the measure of progress. */
  function Missing(files: seq<RemoteFile>, signed: seq<Signature>): set<Signature> {
    set f | f in files && Sign(f) !in signed :: Sign(f)
  }

  lemma RunSignsOne(files: seq<RemoteFile>, signed: seq<Signature>)
    requires NoneEmpty(files) && Missing(files, signed) != {}
    ensures Choose(files, signed).Chosen? && Sign(Choose(files, signed).file) in Missing(files, signed)
    ensures var f := Choose(files, signed).file;
            && Missing(files, After(files, signed, Succeeded(f.size))) == Missing(files, signed) - {Sign(f)}
            && |Missing(files, After(files, signed, Succeeded(f.size)))| == |Missing(files, signed)| - 1
  {
    ChosenIsNewest(files, signed);
    var x :| x in Missing(files, signed);
    var f := Choose(files, signed).file;
    assert After(files, signed, Succeeded(f.size)) == signed + [Sign(f)];
    assert Missing(files, signed + [Sign(f)]) == Missing(files, signed) - {Sign(f)};
  }

  lemma NothingMissing(files: seq<RemoteFile>, signed: seq<Signature>)
    ensures Missing(files, signed) == {} <==> !Choose(files, signed).Chosen?
  {
    ChosenIsNewest(files, signed);
    var rest := Unsigned(files, signed);
    if rest != [] {
      assert rest[0] in rest;
      assert Sign(rest[0]) in Missing(files, signed);
    }
  }

  /** Newest first, no signature twice, and only missing ones. */
  ghost predicate NewOnes(files: seq<RemoteFile>, signed: seq<Signature>, fetched: seq<RemoteFile>) {
    && Descending(fetched)
    && (forall i :: 0 <= i < |fetched| ==> fetched[i] in files && Sign(fetched[i]) !in signed)
    && (forall i, j :: 0 <= i < j < |fetched| ==> Sign(fetched[i]) != Sign(fetched[j]))
  }

  lemma FetchedGrows(files: seq<RemoteFile>, signed: seq<Signature>, f: RemoteFile, rest: seq<RemoteFile>)
    requires NewOnes(files, signed + [Sign(f)], rest)
    requires f in files && Sign(f) !in signed && forall g :: g in files && Sign(g) !in signed ==>
             g.modifiedAt <= f.modifiedAt
    ensures NewOnes(files, signed, [f] + rest)
  {
    forall i | 0 <= i < |rest| ensures Sign(rest[i]) !in signed && Sign(rest[i]) != Sign(f) {
      assert Sign(f) in signed + [Sign(f)];
    }
  }

  lemma ChosenIsSigned(files: seq<RemoteFile>, signed: seq<Signature>)
    requires NoneEmpty(files) && Choose(files, signed).Chosen?
    ensures After(files, signed, Succeeded(Choose(files, signed).file.size))
            == signed + [Sign(Choose(files, signed).file)]
  {
    hide Sorted, Unsigned;
    ChosenIsNewest(files, signed);
  }

  lemma NoneIsNew(files: seq<RemoteFile>, signed: seq<Signature>)
    ensures NewOnes(files, signed, [])
  {
  }

  /**
   Successive runs against a directory that does not change never fetch a file twice, and go from newest to oldest.
   */
  lemma {:induction false} FetchedAreNew(files: seq<RemoteFile>, signed: seq<Signature>, n: nat)
    requires NoneEmpty(files)
    ensures NewOnes(files, signed, Fetched(files, signed, n))
    decreases n
  {
    hide Choose, After, NewOnes, NoneEmpty;
    NoneIsNew(files, signed);
    if n > 0 {
      if Choose(files, signed).Chosen? {
        ChosenIsNewest(files, signed);
        ChosenIsSigned(files, signed);
        var f := Choose(files, signed).file;
        FetchedAreNew(files, signed + [Sign(f)], n - 1);
        FetchedGrows(files, signed, f, Fetched(files, signed + [Sign(f)], n - 1));
      } else {
        FetchedAreNew(files, signed, n - 1);
      }
    }
  }

  function Signs(files: seq<RemoteFile>): set<Signature> {
    set f | f in files :: Sign(f)
  }

  lemma SignsPrepend(c: Choice, rest: seq<RemoteFile>)
    ensures Signs([]) == {}
    ensures c.Chosen? ==> Signs([c.file] + rest) == {Sign(c.file)} + Signs(rest)
  {
    if c.Chosen? { assert forall g :: g in [c.file] + rest <==> g == c.file || g in rest; }
  }

  /** Each run fetches one missing file while there is one; after that every run is a no-op. */
  lemma {:induction false} FetchedAreAll(files: seq<RemoteFile>, signed: seq<Signature>, n: nat)
    requires NoneEmpty(files)
    ensures |Fetched(files, signed, n)| == if n <= |Missing(files, signed)| then n else |Missing(files, signed)|
    ensures n >= |Missing(files, signed)| ==> Signs(Fetched(files, signed, n)) == Missing(files, signed)
    decreases n
  {
    hide Choose, After, Missing, Signs, NoneEmpty;
    NothingMissing(files, signed);
    SignsPrepend(Choose(files, signed), []);
    if n > 0 {
      if Missing(files, signed) == {} {
        FetchedAreAll(files, signed, n - 1);
      } else {
        RunSignsOne(files, signed);
        var f := Choose(files, signed).file;
        var next := After(files, signed, Succeeded(f.size));
        FetchedAreAll(files, next, n - 1);
        SignsPrepend(Chosen(f), Fetched(files, next, n - 1));
      }
    }
  }

  // When a run makes progress.

  /** The head of the sorted list, one entry at a time: the first of the newest. */
  lemma HeadOfSorted(f: RemoteFile, rest: seq<RemoteFile>)
    ensures Sorted([f] + rest) != []
    ensures Sorted([f] + rest)[0] == if rest == [] || f.modifiedAt >= Sorted(rest)[0].modifiedAt then f
            else Sorted(rest)[0]
  {
    assert ([f] + rest)[1..] == rest;
    if rest != [] { assert rest[0] in Sorted(rest); }
  }

  /** Signing some other file leaves the choice as it was. */
  lemma {:induction false} OthersDoNotMatter(files: seq<RemoteFile>, signed: seq<Signature>, x: Signature)
    requires Unsigned(files, signed) != [] && Sorted(Unsigned(files, signed)) != []
    requires Sign(Sorted(Unsigned(files, signed))[0]) != x
    ensures Unsigned(files, signed + [x]) != [] && Sorted(Unsigned(files, signed + [x])) != []
    ensures Sorted(Unsigned(files, signed + [x]))[0] == Sorted(Unsigned(files, signed))[0]
  {
    var g, rest, more := files[0], files[1..], signed + [x];
    var before, after := Unsigned(rest, signed), Unsigned(rest, more);
    assert forall f :: f in after ==> f in before;
    assert after == [] || after[0] in after;
    if Sign(g) in signed {
      assert Unsigned(files, signed) == before && Unsigned(files, more) == after;
      OthersDoNotMatter(rest, signed, x);
    } else {
      assert Unsigned(files, signed) == [g] + before;
      HeadOfSorted(g, before);
      if before == [] {
        HeadOfSorted(g, after);
      } else {
        ChosenIsFirst(before);
        if g.modifiedAt >= Sorted(before)[0].modifiedAt {
          HeadOfSorted(g, after);
          if after != [] {
            ChosenIsFirst(after);
            assert Sorted(after)[0] in before;
          }
        } else {
          OthersDoNotMatter(rest, signed, x);
          if Sign(g) == x { assert Unsigned(files, more) == after; } else { HeadOfSorted(g, after); }
        }
      }
    }
  }

  lemma ChosenIsFirst(files: seq<RemoteFile>)
    requires files != []
    ensures Sorted(files) != [] && Sorted(files)[0] in files && forall g :: g in files ==>
            g.modifiedAt <= Sorted(files)[0].modifiedAt
  {
    SortedIsDescending(files);
    assert files[0] in Sorted(files);
    forall g | g in files ensures g.modifiedAt <= Sorted(files)[0].modifiedAt {
      assert g in Sorted(files);
      var i :| 0 <= i < |Sorted(files)| && Sorted(files)[i] == g;
    }
  }

  /**
   A run makes progress exactly when it ends in Success after transferring as many bytes as were listed,
   and more than none. Otherwise the next run chooses the very same file, and keeps doing so while that is
   the newest: one that validates with warnings, an empty one, and one whose size changes in transfer.
   */
  lemma StuckExactly(files: seq<RemoteFile>, signed: seq<Signature>, ending: Ending)
    requires Choose(files, signed).Chosen?
    ensures Choose(files, After(files, signed, ending)) == Choose(files, signed) <==>
            !(ending.Succeeded? && ending.bytes > 0 && ending.bytes == Choose(files, signed).file.size)
  {
    ChosenIsNewest(files, signed);
    ChosenIsNewest(files, After(files, signed, ending));
    var f := Choose(files, signed).file;
    if ending.Succeeded? && ending.bytes > 0 && ending.bytes != f.size {
      OthersDoNotMatter(files, signed, Signature(f.fileName, ending.bytes));
    }
  }

  /** A listed size that the transfer does not meet: the run succeeds, is recorded, and the file is chosen again. */
  lemma ShortTransferIsFetchedAgain()
    ensures var f := RemoteFile("nightly.dump", 10, 0);
            && After([f], [], Succeeded(7)) == [Signature("nightly.dump", 7)]
            && Choose([f], After([f], [], Succeeded(7))) == Chosen(f)
  {
    var f := RemoteFile("nightly.dump", 10, 0);
    assert Unsigned([f], []) == [f] + [];
    assert Sorted([f]) == [f];
    StuckExactly([f], [], Succeeded(7));
  }
}

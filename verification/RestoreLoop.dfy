/**
 The loop shared by every table of `importVaultBuffer` (exportVault.ts): walk the exported
 rows, skip what cannot be restored, store each row's secrets, create the row under a fresh
 id, remember old id -> new id, and count. What differs from table to table is in `Rules`.
 */
module RestoreLoop {
  import opened Common

  /** A row id (a UUID in text form). */
  datatype Id = Id(text: string)

  /** A payload entry: the source row under its source id, with the secrets exported beside it. */
  datatype Exported<+R, +S> = Exported(id: Id, row: R, extra: S)

  /** What creating a row ends in: done, caught and skipped, or an exception that aborts the import. */
  datatype Verdict = Accept | Skip | Abort

  /** The random UUIDs: draw number `n` gives `uuid(n)`. */
  type Uuids = nat -> Id

  ghost predicate Distinct(uuid: Uuids) {
    forall m, n :: uuid(m) == uuid(n) ==> m == n
  }

  datatype Rules<!R, !S, !K(==), !V> = Rules(
    /** Not skipped by one of the `continue` guards. */
    wanted: Exported<R, S> -> bool,
    /** The row created for an entry, at a given draw. */
    image: (Exported<R, S>, nat) -> R,
    /** The secrets stored for an entry, under their new references. */
    secrets: (Exported<R, S>, nat) -> map<K, V>,
    /** The answer of the database for entry `j`, given the table so far. */
    verdict: (nat, map<Id, R>, Exported<R, S>, nat) -> Verdict)

  /** The rows the table can hold when entry `j` comes up: old ones, and images of earlier entries. */
  ghost predicate Earlier<R, S, K, V>(rules: Rules<R, S, K, V>, before: map<Id, R>, rows: seq<Exported<R, S>>, j: nat,
                                      t: map<Id, R>)
  {
    j <= |rows| &&
    forall id :: id in t ==>
      || (id in before && t[id] == before[id])
      || exists k, m :: 0 <= k < j && rules.wanted(rows[k]) && t[id] == rules.image(rows[k], m)
  }

  /** No row's secrets overwrite those of another row that was created. */
  ghost predicate SecretsApart<R(!new), S(!new), K(!new), V(!new)>(rules: Rules<R, S, K, V>) {
    forall x, y, m: nat, n: nat | m < n ::
      || rules.secrets(x, m).Keys !! rules.secrets(y, n).Keys
      || forall j: nat, t: map<Id, R>, id :: id in t && t[id] == rules.image(x, m) ==>
        rules.verdict(j, t, y, n) == Abort
  }

  // The outcome of the loop for one table, after `upto` entries. `made` maps each restored entry to its draw.

  ghost predicate DrawsDistinct<R, S, K, V>(rules: Rules<R, S, K, V>, rows: seq<Exported<R, S>>, upto: nat,
                                            made: map<nat, nat>, first: nat, next: nat) {
    && first <= next && upto <= |rows|
    && (forall j :: j in made ==> j < upto && first <= made[j] < next && rules.wanted(rows[j]))
    && (forall j, k :: j in made && k in made && made[j] == made[k] ==> j == k)
  }

  /** A wanted entry that was not restored was refused by the database. */
  ghost predicate RefusalsExplained<R(!new), S(!new), K(!new), V(!new)>(rules: Rules<R, S, K, V>, before: map<Id, R>,
                                                                       rows: seq<Exported<R, S>>, upto: nat,
                                                                         made: map<nat, nat>) {
    forall j :: 0 <= j < upto <= |rows| && rules.wanted(rows[j]) && j !in made ==>
      RefusedInTurn(rules, before, rows, made, j)
  }

  /** The database skipped it against a table of old rows and of images of entries restored before it. */
  ghost predicate RefusedInTurn<R(!new), S(!new), K(!new), V(!new)>(rules: Rules<R, S, K, V>, before: map<Id, R>,
                                                                   rows: seq<Exported<R, S>>, made: map<nat, nat>,
                                                                     j: nat) {
    j < |rows| && rules.wanted(rows[j]) &&
    exists t, n :: EarlierMade(rules, before, rows, made, j, t) && rules.verdict(j, t, rows[j], n) == Skip
  }

  ghost predicate EarlierMade<R, S, K, V>(rules: Rules<R, S, K, V>, before: map<Id, R>, rows: seq<Exported<R, S>>,
                                          made: map<nat, nat>, j: nat, t: map<Id, R>) {
    j <= |rows| &&
    forall id :: id in t ==>
      || (id in before && t[id] == before[id])
      || exists k, m :: 0 <= k < j && k in made && t[id] == rules.image(rows[k], m)
  }

  ghost predicate Refused<R(!new), S(!new), K(!new), V(!new)>(rules: Rules<R, S, K, V>, before: map<Id, R>,
                                                             rows: seq<Exported<R, S>>, j: nat, v: Verdict) {
    j < |rows| && rules.wanted(rows[j]) &&
    exists t, n :: Earlier(rules, before, rows, j, t) && rules.verdict(j, t, rows[j], n) == v
  }

  /** Old rows stay, and the new rows are exactly the images of the restored entries. */
  ghost predicate RowsAdded<R, S, K, V>(rules: Rules<R, S, K, V>, uuid: Uuids, rows: seq<Exported<R, S>>,
                                        before: map<Id, R>, after: map<Id, R>, made: map<nat, nat>) {
    && (forall id :: id in before ==> id in after && after[id] == before[id])
    && (forall j :: j in made ==> j < |rows| && uuid(made[j]) in after && uuid(made[j]) !in before
                                  && after[uuid(made[j])] == rules.image(rows[j], made[j]))
    && (forall id :: id in after && id !in before ==> exists j :: j in made && id == uuid(made[j]))
  }

  ghost predicate IdsMapped<R, S>(uuid: Uuids, rows: seq<Exported<R, S>>, ids: map<Id, Id>, made: map<nat, nat>) {
    && (forall j :: j in made ==> j < |rows| && rows[j].id in ids)
    && (forall x :: x in ids ==> exists j :: j in made && j < |rows| && rows[j].id == x && ids[x] == uuid(made[j]))
  }

  /** Every restored entry's secrets are in the store, and nothing else of it changed. */
  ghost predicate SecretsStored<R, S, K(!new), V>(rules: Rules<R, S, K, V>, rows: seq<Exported<R, S>>, old_: map<K, V>,
                                                  new_: map<K, V>, made: map<nat, nat>, first: nat, next: nat) {
    && (forall j, r :: j in made && j < |rows| && r in rules.secrets(rows[j], made[j]) ==>
          r in new_ && new_[r] == rules.secrets(rows[j], made[j])[r])
    && old_.Keys <= new_.Keys
    && (forall r :: r in new_ && (r !in old_ || new_[r] != old_[r]) ==> Written(rules, rows, first, next, r))
  }

  ghost predicate Written<R, S, K, V>(rules: Rules<R, S, K, V>, rows: seq<Exported<R, S>>, first: nat, next: nat, r: K)
  {
    exists j, n :: 0 <= j < |rows| && first <= n < next && r in rules.secrets(rows[j], n)
  }

  /** Every restored entry was accepted against a table that held the old rows and all rows restored before it. */
  ghost predicate AcceptedInTurn<R(!new), S(!new), K(!new), V(!new)>(rules: Rules<R, S, K, V>, uuid: Uuids,
                                                                     rows: seq<Exported<R, S>>, before: map<Id, R>,
                                                                       made: map<nat, nat>) {
    forall j :: j in made ==> exists t :: AcceptedAgainst(rules, uuid, rows, before, made, j, t)
  }

  ghost predicate AcceptedAgainst<R, S, K, V>(rules: Rules<R, S, K, V>, uuid: Uuids, rows: seq<Exported<R, S>>,
                                              before: map<Id, R>, made: map<nat, nat>, j: nat, t: map<Id, R>) {
    && j in made && j < |rows| && rules.verdict(j, t, rows[j], made[j]) == Accept
    && (forall id :: id in before ==> id in t && t[id] == before[id])
    && (forall i :: i in made && i < j ==>
        i < |rows| && uuid(made[i]) in t && t[uuid(made[i])] == rules.image(rows[i], made[i]))
  }

  /** What one table looks like afterwards. */
  datatype Outcome<R, K, V> = Outcome(
    after: map<Id, R>, store: map<K, V>, ids: map<Id, Id>, next: nat, created: nat, made: map<nat, nat>)

  ghost predicate Restored<R(!new), S(!new), K(!new), V(!new)>(
    rules: Rules<R, S, K, V>, uuid: Uuids, rows: seq<Exported<R, S>>, upto: nat,
    before: map<Id, R>, store: map<K, V>, first: nat, o: Outcome<R, K, V>)
  {
    && DrawsDistinct(rules, rows, upto, o.made, first, o.next)
    && RefusalsExplained(rules, before, rows, upto, o.made)
    && RowsAdded(rules, uuid, rows, before, o.after, o.made)
    && IdsMapped(uuid, rows, o.ids, o.made)
    && AcceptedInTurn(rules, uuid, rows, before, o.made)
    && SecretsStored(rules, rows, store, o.store, o.made, first, o.next)
    && |o.after| == |before| + o.created
    && o.created == |o.made|
  }

  lemma WriteMissesOthers<R(!new), S(!new), K(!new), V(!new)>(
    rules: Rules<R, S, K, V>, uuid: Uuids, rows: seq<Exported<R, S>>, i: nat, before: map<Id, R>, after: map<Id, R>,
    made: map<nat, nat>, first: nat, n: nat, j: nat)
    requires i < |rows| && SecretsApart(rules)
    requires DrawsDistinct(rules, rows, i, made, first, n)
    requires RowsAdded(rules, uuid, rows, before, after, made)
    requires rules.verdict(i, after, rows[i], n) != Abort
    requires j in made
    ensures j < |rows| && rules.secrets(rows[j], made[j]).Keys !! rules.secrets(rows[i], n).Keys
  {
    assert after[uuid(made[j])] == rules.image(rows[j], made[j]);
  }

  lemma WriteKeepsSecrets<R(!new), S(!new), K(!new), V(!new)>(
    rules: Rules<R, S, K, V>, uuid: Uuids, rows: seq<Exported<R, S>>, i: nat, before: map<Id, R>, after: map<Id, R>,
    old_: map<K, V>, new_: map<K, V>, made: map<nat, nat>, first: nat, n: nat)
    requires i < |rows| && SecretsApart(rules)
    requires DrawsDistinct(rules, rows, i, made, first, n)
    requires RowsAdded(rules, uuid, rows, before, after, made)
    requires SecretsStored(rules, rows, old_, new_, made, first, n)
    requires rules.verdict(i, after, rows[i], n) != Abort
    ensures SecretsStored(rules, rows, old_, new_ + rules.secrets(rows[i], n), made, first, n + 1)
  {
    forall j | j in made ensures j < |rows| && rules.secrets(rows[j], made[j]).Keys !! rules.secrets(rows[i], n).Keys {
      WriteMissesOthers(rules, uuid, rows, i, before, after, made, first, n, j);
    }
    hide SecretsApart, RowsAdded, DrawsDistinct;
    MergeKeepsStored(rules, rows, i, old_, new_, rules.secrets(rows[i], n), made, first, n);
  }

  lemma MergeKeepsStored<R(!new), S(!new), K(!new), V(!new)>(
    rules: Rules<R, S, K, V>, rows: seq<Exported<R, S>>, i: nat,
    old_: map<K, V>, new_: map<K, V>, added: map<K, V>, made: map<nat, nat>, first: nat, n: nat)
    requires i < |rows| && first <= n && added == rules.secrets(rows[i], n)
    requires SecretsStored(rules, rows, old_, new_, made, first, n)
    requires forall j :: j in made ==> j < |rows| && rules.secrets(rows[j], made[j]).Keys !! added.Keys
    ensures SecretsStored(rules, rows, old_, new_ + added, made, first, n + 1)
  {
    var now := new_ + added;
    forall j, r | j in made && j < |rows| && r in rules.secrets(rows[j], made[j])
      ensures r in now && now[r] == rules.secrets(rows[j], made[j])[r]
    {
      assert r !in added;
    }
    forall r | r in now && (r !in old_ || now[r] != old_[r]) ensures Written(rules, rows, first, n + 1, r) {
      if r in added {
        assert 0 <= i < |rows| && first <= n < n + 1 && r in rules.secrets(rows[i], n);
      } else {
        LaterDrawsWriteMore(rules, rows, first, n, r);
      }
    }
    hide Written;
  }

  lemma LaterDrawsWriteMore<R(!new), S(!new), K(!new), V(!new)>(rules: Rules<R, S, K, V>, rows: seq<Exported<R, S>>,
                                                                first: nat, n: nat, r: K)
    requires Written(rules, rows, first, n, r)
    ensures Written(rules, rows, first, n + 1, r)
  {
  }

  lemma AcceptKeepsSecrets<R(!new), S(!new), K(!new), V(!new)>(
    rules: Rules<R, S, K, V>, rows: seq<Exported<R, S>>, i: nat,
    old_: map<K, V>, new_: map<K, V>, made: map<nat, nat>, first: nat, n: nat)
    requires i < |rows| && i !in made
    requires SecretsStored(rules, rows, old_, new_ + rules.secrets(rows[i], n), made, first, n + 1)
    ensures SecretsStored(rules, rows, old_, new_ + rules.secrets(rows[i], n), made[i := n], first, n + 1)
  {
  }

  lemma NextDrawIsFresh<R(!new), S(!new), K(!new), V(!new)>(
    rules: Rules<R, S, K, V>, uuid: Uuids, rows: seq<Exported<R, S>>, i: nat, before: map<Id, R>, after: map<Id, R>,
    made: map<nat, nat>, first: nat, n: nat)
    requires Distinct(uuid) && uuid(n) !in before
    requires DrawsDistinct(rules, rows, i, made, first, n)
    requires RowsAdded(rules, uuid, rows, before, after, made)
    ensures uuid(n) !in after
  {
  }

  lemma AcceptKeepsRows<R(!new), S(!new), K(!new), V(!new)>(
    rules: Rules<R, S, K, V>, uuid: Uuids, rows: seq<Exported<R, S>>, i: nat, before: map<Id, R>, after: map<Id, R>,
    made: map<nat, nat>, first: nat, n: nat)
    requires i < |rows| && Distinct(uuid) && uuid(n) !in before
    requires DrawsDistinct(rules, rows, i, made, first, n)
    requires RowsAdded(rules, uuid, rows, before, after, made)
    ensures uuid(n) !in after
    ensures RowsAdded(rules, uuid, rows, before, after[uuid(n) := rules.image(rows[i], n)], made[i := n])
  {
    NextDrawIsFresh(rules, uuid, rows, i, before, after, made, first, n);
    hide Distinct;
    var now, added := after[uuid(n) := rules.image(rows[i], n)], made[i := n];
    forall id | id in now && id !in before ensures exists j :: j in added && id == uuid(added[j]) {
      if id == uuid(n) {
        assert i in added && added[i] == n;
      } else {
        var j :| j in made && id == uuid(made[j]);
        assert j in added && added[j] == made[j];
      }
    }
  }

  lemma AcceptKeepsIds<R, S>(uuid: Uuids, rows: seq<Exported<R, S>>, i: nat, ids: map<Id, Id>, made: map<nat, nat>,
                             n: nat)
    requires i < |rows| && i !in made && IdsMapped(uuid, rows, ids, made)
    ensures IdsMapped(uuid, rows, ids[rows[i].id := uuid(n)], made[i := n])
  {
    var now, added := ids[rows[i].id := uuid(n)], made[i := n];
    forall x | x in now ensures exists j :: j in added && j < |rows| && rows[j].id == x && now[x] == uuid(added[j]) {
      if x == rows[i].id {
        assert i in added && added[i] == n;
      } else {
        var j :| j in made && j < |rows| && rows[j].id == x && ids[x] == uuid(made[j]);
        assert j in added && added[j] == made[j];
      }
    }
  }

  lemma AcceptKeepsDraws<R(!new), S(!new), K(!new), V(!new)>(rules: Rules<R, S, K, V>, rows: seq<Exported<R, S>>,
                                                             i: nat, made: map<nat, nat>, first: nat, n: nat)
    requires i < |rows| && rules.wanted(rows[i]) && DrawsDistinct(rules, rows, i, made, first, n)
    ensures i !in made
    ensures DrawsDistinct(rules, rows, i + 1, made[i := n], first, n + 1)
  {
  }

  lemma LaterEntriesChangeNothing<R(!new), S(!new), K(!new), V(!new)>(
    rules: Rules<R, S, K, V>, uuid: Uuids, rows: seq<Exported<R, S>>, before: map<Id, R>, made: map<nat, nat>,
      added: map<nat, nat>, j: nat, t: map<Id, R>)
    requires AcceptedAgainst(rules, uuid, rows, before, made, j, t)
    requires j in added && added[j] == made[j] && forall i :: i in added && i < j ==> i in made && added[i] == made[i]
    ensures AcceptedAgainst(rules, uuid, rows, before, added, j, t)
  {
  }

  lemma AcceptedNow<R(!new), S(!new), K(!new), V(!new)>(
    rules: Rules<R, S, K, V>, uuid: Uuids, rows: seq<Exported<R, S>>, i: nat, before: map<Id, R>, after: map<Id, R>,
      made: map<nat, nat>, n: nat)
    requires i < |rows| && RowsAdded(rules, uuid, rows, before, after, made)
             && rules.verdict(i, after, rows[i], n) == Accept
    ensures AcceptedAgainst(rules, uuid, rows, before, made[i := n], i, after)
  {
  }

  lemma AcceptKeepsTurns<R(!new), S(!new), K(!new), V(!new)>(
    rules: Rules<R, S, K, V>, uuid: Uuids, rows: seq<Exported<R, S>>, i: nat, before: map<Id, R>, after: map<Id, R>,
    made: map<nat, nat>, first: nat, n: nat)
    requires i < |rows| && DrawsDistinct(rules, rows, i, made, first, n)
    requires RowsAdded(rules, uuid, rows, before, after, made)
    requires AcceptedInTurn(rules, uuid, rows, before, made)
    requires rules.verdict(i, after, rows[i], n) == Accept
    ensures AcceptedInTurn(rules, uuid, rows, before, made[i := n])
  {
    var added := made[i := n];
    assert forall j :: j in made ==> j < i;
    hide AcceptedAgainst, DrawsDistinct;
    AcceptedNow(rules, uuid, rows, i, before, after, made, n);
    hide RowsAdded;
    forall j | j in added ensures exists t :: AcceptedAgainst(rules, uuid, rows, before, added, j, t) {
      if j != i {
        var t :| AcceptedAgainst(rules, uuid, rows, before, made, j, t);
        LaterEntriesChangeNothing(rules, uuid, rows, before, made, added, j, t);
      }
    }
  }

  lemma LaterKeepsRefusal<R(!new), S(!new), K(!new), V(!new)>(
    rules: Rules<R, S, K, V>, before: map<Id, R>, rows: seq<Exported<R, S>>, made: map<nat, nat>, j: nat, i: nat,
      n: nat)
    requires RefusedInTurn(rules, before, rows, made, j)
    ensures RefusedInTurn(rules, before, rows, made[i := n], j)
  {
    var t, m :| EarlierMade(rules, before, rows, made, j, t) && rules.verdict(j, t, rows[j], m) == Skip;
    assert EarlierMade(rules, before, rows, made[i := n], j, t);
  }

  lemma AcceptKeepsRefusals<R(!new), S(!new), K(!new), V(!new)>(
    rules: Rules<R, S, K, V>, before: map<Id, R>, rows: seq<Exported<R, S>>, made: map<nat, nat>, i: nat, n: nat)
    requires RefusalsExplained(rules, before, rows, i, made)
    ensures RefusalsExplained(rules, before, rows, i + 1, made[i := n])
  {
    hide RefusedInTurn;
    forall j | 0 <= j < i < |rows| && rules.wanted(rows[j]) && j !in made[i := n]
      ensures RefusedInTurn(rules, before, rows, made[i := n], j)
    {
      LaterKeepsRefusal(rules, before, rows, made, j, i, n);
    }
  }

  /** A refusal in turn is a refusal. */
  lemma RefusedAtAll<R(!new), S(!new), K(!new), V(!new)>(
    rules: Rules<R, S, K, V>, before: map<Id, R>, rows: seq<Exported<R, S>>, upto: nat, made: map<nat, nat>, first: nat,
      next: nat, j: nat)
    requires RefusedInTurn(rules, before, rows, made, j) && DrawsDistinct(rules, rows, upto, made, first, next)
    ensures Refused(rules, before, rows, j, Skip)
  {
    var t, n :| EarlierMade(rules, before, rows, made, j, t) && rules.verdict(j, t, rows[j], n) == Skip;
    assert Earlier(rules, before, rows, j, t);
  }

  lemma AcceptKeepsRestored<R(!new), S(!new), K(!new), V(!new)>(
    rules: Rules<R, S, K, V>, uuid: Uuids, rows: seq<Exported<R, S>>, i: nat,
    before: map<Id, R>, store: map<K, V>, first: nat, o: Outcome<R, K, V>)
    requires i < |rows| && Restored(rules, uuid, rows, i, before, store, first, o) && SecretsApart(rules)
    requires Distinct(uuid) && uuid(o.next) !in before
    requires rules.wanted(rows[i]) && rules.verdict(i, o.after, rows[i], o.next) == Accept
    ensures var n := o.next;
            Restored(rules, uuid, rows, i + 1, before, store, first,
                     Outcome(o.after[uuid(n) := rules.image(rows[i], n)], o.store + rules.secrets(rows[i], n),
                             o.ids[rows[i].id := uuid(n)], n + 1, o.created + 1, o.made[i := n]))
  {
    hide DrawsDistinct, RowsAdded, IdsMapped, SecretsStored, SecretsApart, Distinct, RefusalsExplained, AcceptedInTurn;
    var n := o.next;
    AcceptKeepsRefusals(rules, before, rows, o.made, i, n);
    AcceptKeepsTurns(rules, uuid, rows, i, before, o.after, o.made, first, n);
    WriteKeepsSecrets(rules, uuid, rows, i, before, o.after, store, o.store, o.made, first, n);
    AcceptKeepsDraws(rules, rows, i, o.made, first, n);
    AcceptKeepsSecrets(rules, rows, i, store, o.store, o.made, first, n);
    AcceptKeepsRows(rules, uuid, rows, i, before, o.after, o.made, first, n);
    AcceptKeepsIds(uuid, rows, i, o.ids, o.made, n);
  }

  lemma SkipKeepsRestored<R(!new), S(!new), K(!new), V(!new)>(
    rules: Rules<R, S, K, V>, uuid: Uuids, rows: seq<Exported<R, S>>, i: nat,
    before: map<Id, R>, store: map<K, V>, first: nat, o: Outcome<R, K, V>)
    requires i < |rows| && Restored(rules, uuid, rows, i, before, store, first, o) && SecretsApart(rules)
    requires rules.wanted(rows[i]) && rules.verdict(i, o.after, rows[i], o.next) == Skip
    requires RefusedInTurn(rules, before, rows, o.made, i)
    ensures Restored(rules, uuid, rows, i + 1, before, store, first,
                     o.(store := o.store + rules.secrets(rows[i], o.next), next := o.next + 1))
  {
    hide RowsAdded, IdsMapped, SecretsStored, SecretsApart, RefusedInTurn, AcceptedInTurn;
    WriteKeepsSecrets(rules, uuid, rows, i, before, o.after, store, o.store, o.made, first, o.next);
  }

  lemma PassKeepsRestored<R(!new), S(!new), K(!new), V(!new)>(
    rules: Rules<R, S, K, V>, uuid: Uuids, rows: seq<Exported<R, S>>, i: nat,
    before: map<Id, R>, store: map<K, V>, first: nat, o: Outcome<R, K, V>)
    requires i < |rows| && Restored(rules, uuid, rows, i, before, store, first, o) && !rules.wanted(rows[i])
    ensures Restored(rules, uuid, rows, i + 1, before, store, first, o)
  {
    hide RowsAdded, IdsMapped, SecretsStored, RefusedInTurn, AcceptedInTurn;
  }

  /** The table so far holds old rows and images of earlier entries. */
  lemma TableIsEarlier<R(!new), S(!new), K(!new), V(!new)>(
    rules: Rules<R, S, K, V>, uuid: Uuids, rows: seq<Exported<R, S>>, i: nat,
    before: map<Id, R>, after: map<Id, R>, made: map<nat, nat>, first: nat, next: nat)
    requires DrawsDistinct(rules, rows, i, made, first, next) && RowsAdded(rules, uuid, rows, before, after, made)
    ensures Earlier(rules, before, rows, i, after) && EarlierMade(rules, before, rows, made, i, after)
  {
    forall id | id in after && id !in before
      ensures exists k, m :: 0 <= k < i && k in made && rules.wanted(rows[k]) && after[id] == rules.image(rows[k], m)
    {
      var j :| j in made && id == uuid(made[j]);
      assert 0 <= j < i && rules.wanted(rows[j]) && after[id] == rules.image(rows[j], made[j]);
    }
  }

  lemma NothingRestored<R(!new), S(!new), K(!new), V(!new)>(
    rules: Rules<R, S, K, V>, uuid: Uuids, rows: seq<Exported<R, S>>, before: map<Id, R>, store: map<K, V>, first: nat)
    ensures Restored(rules, uuid, rows, 0, before, store, first, Outcome(before, store, map[], first, 0, map[]))
  {
  }

  method RestoreTable<R(!new), S(!new), K(==, !new), V(!new)>(
      rules: Rules<R, S, K, V>, uuid: Uuids, rows: seq<Exported<R, S>>, before: map<Id, R>, store: map<K, V>,
        first: nat)
    returns (ok: bool, out: Outcome<R, K, V>)
    requires Distinct(uuid) && SecretsApart(rules)
    requires forall n :: n >= first ==> uuid(n) !in before
    ensures ok ==> Restored(rules, uuid, rows, |rows|, before, store, first, out)
    ensures !ok ==> exists j :: 0 <= j < |rows| && Refused(rules, before, rows, j, Abort)
  {
    hide DrawsDistinct, RowsAdded, IdsMapped, SecretsStored, RefusalsExplained, SecretsApart, Distinct, Earlier,
         EarlierMade, AcceptedInTurn;
    NothingRestored(rules, uuid, rows, before, store, first);
    var after, store', ids: map<Id, Id>, next, created, made: map<nat, nat> := before, store, map[], first, 0, map[];
    out := Outcome(after, store', ids, next, created, made);
    for i := 0 to |rows|
      invariant next >= first
      invariant Restored(rules, uuid, rows, i, before, store, first, Outcome(after, store', ids, next, created, made))
    {
      var x := rows[i];
      ghost var o := Outcome(after, store', ids, next, created, made);
      if !rules.wanted(x) {
        PassKeepsRestored(rules, uuid, rows, i, before, store, first, o);
        continue;
      }
      TableIsEarlier(rules, uuid, rows, i, before, after, made, first, next);
      var n := next;
      var verdict := rules.verdict(i, after, x, n);
      if verdict == Abort {
        assert Refused(rules, before, rows, i, Abort);
        ok := false;
        return;
      }
      next := next + 1;
      store' := store' + rules.secrets(x, n);
      if verdict == Skip {
        assert RefusedInTurn(rules, before, rows, made, i);
        SkipKeepsRestored(rules, uuid, rows, i, before, store, first, o);
        continue;
      }
      AcceptKeepsRestored(rules, uuid, rows, i, before, store, first, o);
      var id := uuid(n);
      after := after[id := rules.image(x, n)];
      ids := ids[x.id := id];
      created := created + 1;
      made := made[i := n];
    }
    ok := true;
    out := Outcome(after, store', ids, next, created, made);
  }
}

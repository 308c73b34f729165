/**
 What the database enforces survives any import (exportVault.ts and the repositories it calls):
 unique names, one repository per client, one owner per link, and only rows that the create calls accept.
 */
module Constraints {
  import opened Common
  import opened JsonValues
  import opened RestoreLoop
  import opened RecoveryModel
  import opened Import
  import opened Recovery
  import opened RoundTrip

  /** No two rows clash, as a UNIQUE index would have it. */
  ghost predicate NoClash<R(!new)>(table: map<Id, R>, clash: (R, R) -> bool) {
    forall i, k :: i in table && k in table && clash(table[i], table[k]) ==> i == k
  }

  /** The database accepts no row that clashes with one in the table. */
  ghost predicate Refuses<R(!new), S(!new), V(!new)>(rules: Rules<R, S, Ref, V>, clash: (R, R) -> bool) {
    && (forall a, b :: clash(a, b) ==> clash(b, a))
    && forall j: nat, t: map<Id, R>, x, n: nat, id :: id in t && clash(t[id], rules.image(x, n)) ==>
      rules.verdict(j, t, x, n) != Accept
  }

  lemma NewRowsWereAccepted<R(!new), S(!new), V(!new)>(
    rules: Rules<R, S, Ref, V>, uuid: Uuids, rows: seq<Exported<R, S>>, before: map<Id, R>, store: map<Ref, V>,
      first: nat, o: Outcome<R, Ref, V>, id: Id) returns (j: nat, t: map<Id, R>)
    requires Restored(rules, uuid, rows, |rows|, before, store, first, o) && New(before, o, id)
    ensures j in o.made && j < |rows| && id == uuid(o.made[j]) && o.after[id] == rules.image(rows[j], o.made[j])
    ensures AcceptedAgainst(rules, uuid, rows, before, o.made, j, t)
  {
    hide DrawsDistinct, RefusalsExplained, IdsMapped, SecretsStored, AcceptedAgainst;
    var i :| i in o.made && id == uuid(o.made[i]);
    j := i;
    t :| AcceptedAgainst(rules, uuid, rows, before, o.made, j, t);
  }

  /** An accepted row clashes with none of the table it was accepted against. */
  lemma AcceptedDoesNotClash<R(!new), S(!new), V(!new)>(
    rules: Rules<R, S, Ref, V>, clash: (R, R) -> bool, uuid: Uuids, rows: seq<Exported<R, S>>, before: map<Id, R>,
      made: map<nat, nat>, j: nat, t: map<Id, R>, id: Id)
    requires Refuses(rules, clash) && AcceptedAgainst(rules, uuid, rows, before, made, j, t) && id in t
    ensures !clash(t[id], rules.image(rows[j], made[j])) && !clash(rules.image(rows[j], made[j]), t[id])
  {
  }

  lemma OldDoesNotClash<R(!new), S(!new), V(!new)>(
    rules: Rules<R, S, Ref, V>, uuid: Uuids, rows: seq<Exported<R, S>>, before: map<Id, R>, store: map<Ref, V>,
      first: nat, o: Outcome<R, Ref, V>, clash: (R, R) -> bool, old_: Id, new_: Id)
    requires Restored(rules, uuid, rows, |rows|, before, store, first, o) && Refuses(rules, clash)
    requires old_ in before && New(before, o, new_)
    ensures !clash(before[old_], o.after[new_]) && !clash(o.after[new_], before[old_])
  {
    hide Restored, Refuses;
    var j, t := NewRowsWereAccepted(rules, uuid, rows, before, store, first, o, new_);
    assert old_ in t && t[old_] == before[old_];
    hide AcceptedAgainst;
    AcceptedDoesNotClash(rules, clash, uuid, rows, before, o.made, j, t, old_);
  }

  lemma NewDoNotClash<R(!new), S(!new), V(!new)>(
    rules: Rules<R, S, Ref, V>, uuid: Uuids, rows: seq<Exported<R, S>>, before: map<Id, R>, store: map<Ref, V>,
      first: nat, o: Outcome<R, Ref, V>, clash: (R, R) -> bool, i: Id, k: Id)
    requires Restored(rules, uuid, rows, |rows|, before, store, first, o) && Refuses(rules, clash)
    requires New(before, o, i) && New(before, o, k) && i != k
    ensures !clash(o.after[i], o.after[k])
  {
    hide Restored, Refuses;
    var j, t := NewRowsWereAccepted(rules, uuid, rows, before, store, first, o, i);
    var l, u := NewRowsWereAccepted(rules, uuid, rows, before, store, first, o, k);
    if j < l {
      assert i in u && u[i] == o.after[i];
      hide AcceptedAgainst;
      AcceptedDoesNotClash(rules, clash, uuid, rows, before, o.made, l, u, i);
    } else {
      assert k in t && t[k] == o.after[k];
      hide AcceptedAgainst;
      AcceptedDoesNotClash(rules, clash, uuid, rows, before, o.made, j, t, k);
    }
  }

  lemma OldRowsStay<R(!new), S(!new), V(!new)>(
    rules: Rules<R, S, Ref, V>, uuid: Uuids, rows: seq<Exported<R, S>>, before: map<Id, R>, store: map<Ref, V>,
      first: nat, o: Outcome<R, Ref, V>)
    requires Restored(rules, uuid, rows, |rows|, before, store, first, o)
    ensures forall id :: id in before ==> id in o.after && o.after[id] == before[id]
  {
    hide DrawsDistinct, RefusalsExplained, IdsMapped, SecretsStored, AcceptedInTurn;
  }

  lemma NewRowsDoNotClash<R(!new), S(!new), V(!new)>(
    rules: Rules<R, S, Ref, V>, uuid: Uuids, rows: seq<Exported<R, S>>, before: map<Id, R>, store: map<Ref, V>,
      first: nat, o: Outcome<R, Ref, V>, clash: (R, R) -> bool)
    requires Restored(rules, uuid, rows, |rows|, before, store, first, o)
    requires NoClash(before, clash) && Refuses(rules, clash)
    ensures NoClash(o.after, clash)
  {
    hide Restored, Refuses;
    OldRowsStay(rules, uuid, rows, before, store, first, o);
    forall i, k | i in o.after && k in o.after && clash(o.after[i], o.after[k]) ensures i == k {
      if i in before && k !in before { OldDoesNotClash(rules, uuid, rows, before, store, first, o, clash, i, k); }
      if i !in before && k in before { OldDoesNotClash(rules, uuid, rows, before, store, first, o, clash, k, i); }
      if i !in before && k !in before && i != k {
        NewDoNotClash(rules, uuid, rows, before, store, first, o, clash, i, k);
      }
    }
  }

  // The unique indexes.

  predicate SameName(a: Client, b: Client) { a.name == b.name }
  predicate SameSet(a: BackupSet, b: BackupSet) { a.clientId == b.clientId && a.name == b.name }
  predicate SameOwner(a: FileRepo, b: FileRepo) { a.clientId == b.clientId }

  ghost predicate UniqueRows(clients: map<Id, Client>, sets: map<Id, BackupSet>, repos: map<Id, FileRepo>,
                             replications: map<Id, Replication>, credentials: map<Id, Credential>) {
    && NoClash(clients, SameName) && NoClash(sets, SameSet) && NoClash(repos, SameOwner)
    && NoClash(replications, SameTarget) && NoClash(credentials, SharesLink)
  }

  lemma ClientsRefuse(f: Faults)
    ensures Refuses(ClientRules(f), SameName)
  {
    var rules := ClientRules(f);
    forall j: nat, t: map<Id, Client>, x: Exported<Client, ()>, n: nat, id | id in t
      && SameName(t[id], rules.image(x, n))
      ensures rules.verdict(j, t, x, n) != Accept
    {
      assert rules.image(x, n) == x.row.(isActive := true);
      assert NameTaken(t, x.row.name);
      assert rules.verdict(j, t, x, n) == if f(Clients, j) || NameTaken(t, x.row.name) then Skip else Accept;
    }
  }

  lemma SetsRefuse(cm: map<Id, Id>, f: Faults)
    ensures Refuses(SetRules(cm, f), SameSet)
  {
    var rules := SetRules(cm, f);
    forall j: nat, t: map<Id, BackupSet>, x: Exported<BackupSet, ()>, n: nat, id | id in t
      && SameSet(t[id], rules.image(x, n))
      ensures rules.verdict(j, t, x, n) != Accept
    {
      assert rules.image(x, n) == SetImage(cm, x.row);
      assert SetTaken(t, SetImage(cm, x.row));
      assert rules.verdict(j, t, x, n) == Guard(f(Sets, j) || SetTaken(t, SetImage(cm, x.row)));
    }
  }

  lemma ReposRefuse(cm: map<Id, Id>, f: Faults)
    ensures Refuses(RepoRules(cm, f), SameOwner)
  {
    var rules := RepoRules(cm, f);
    forall j: nat, t: map<Id, FileRepo>, x: Exported<FileRepo, Option<string>>, n: nat, id | id in t
      && SameOwner(t[id], rules.image(x, n))
      ensures rules.verdict(j, t, x, n) != Accept
    {
      assert rules.image(x, n) == RepoImage(cm, x.row);
      assert RepoTaken(t, At(cm, x.row.clientId));
      assert rules.verdict(j, t, x, n) == Guard(f(Repos, j) || RepoTaken(t, At(cm, x.row.clientId)));
    }
  }

  lemma ReplicationsRefuse(m: Maps, f: Faults)
    ensures Refuses(ReplicationRules(m, f), SameTarget)
  {
    hide ReplicationStore;
    var rules := ReplicationRules(m, f);
    forall j: nat, t: map<Id, Replication>, x: Exported<Replication, ReplicationSecrets>, n: nat, id | id in t
      && SameTarget(t[id], rules.image(x, n))
      ensures rules.verdict(j, t, x, n) != Accept
    {
      assert rules.image(x, n) == ReplicationImage(m, x);
      assert ReplicationTaken(t, At(m.clients, x.row.clientId), x.row.content);
      assert rules.verdict(j, t, x, n) == Guard(f(Replications, j)
                                                || ReplicationTaken(t, At(m.clients, x.row.clientId), x.row.content));
    }
  }

  lemma CredentialsRefuse(m: Maps, uuid: Uuids, f: Faults)
    ensures Refuses(CredentialRules(m, uuid, f), SharesLink)
  {
    hide CredentialImage, AcceptableLink;
    var rules := CredentialRules(m, uuid, f);
    forall j: nat, t: map<Id, Credential>, x: Exported<Credential, Json>, n: nat, id | id in t
      && SharesLink(t[id], rules.image(x, n))
      ensures rules.verdict(j, t, x, n) != Accept
    {
      var c := CredentialImage(m, uuid, x, n);
      assert rules.image(x, n) == c;
      assert LinkTaken(t, c);
      assert rules.verdict(j, t, x, n) == Guard(f(Credentials, j) || !AcceptableLink(c) || LinkTaken(t, c));
    }
  }

  /** Any import that finishes keeps every unique index, also against rows that were there before. */
  lemma ImportKeepsUniqueness(b: Job, r: Rebuilt)
    requires Done(b, r, 11)
    requires UniqueRows(b.start.clients, b.start.sets, b.start.repos, b.start.replications, b.start.credentials)
    ensures UniqueRows(r.clients.after, r.sets.after, r.repos.after, r.replications.after, r.credentials.after)
  {
    hide Restored, NoClash, Refuses, SameName, SameSet, SameOwner, SameTarget, SharesLink;
    var p, f, u, m := b.payload, b.faults, b.uuid, MapsOf(r);
    ClientsRefuse(f);
    NewRowsDoNotClash(ClientRules(f), u, p.clients, b.start.clients, b.start.secrets, 0, r.clients, SameName);
    SetsRefuse(r.clients.ids, f);
    NewRowsDoNotClash(SetRules(r.clients.ids, f), u, p.sets, b.start.sets, r.clients.store, r.clients.next, r.sets,
                      SameSet);
    ReposRefuse(r.clients.ids, f);
    NewRowsDoNotClash(RepoRules(r.clients.ids, f), u, p.repos, b.start.repos, r.tasks.store, r.tasks.next, r.repos,
                      SameOwner);
    ReplicationsRefuse(m, f);
    NewRowsDoNotClash(ReplicationRules(m, f), u, p.replications, b.start.replications, r.fileTasks.store,
                      r.fileTasks.next, r.replications, SameTarget);
    CredentialsRefuse(m, u, f);
    NewRowsDoNotClash(CredentialRules(m, u, f), u, p.credentials, b.start.credentials, b.start.blobs,
                      r.replications.next, r.credentials, SharesLink);
  }

  // The checks of the create calls.

  lemma RestoredScheduleIsValid(s: Schedule)
    requires RestorableSchedule(s)
    ensures ValidSchedule(RestoredSchedule(s))
  {
  }

  ghost predicate AcceptableRows(b: Job, r: Rebuilt) {
    && (forall id :: New(b.start.tasks, r.tasks, id) ==>
          AcceptableTask(r.transports.after, r.connections.after, r.tasks.after[id])
            && ValidSchedule(r.tasks.after[id].schedule))
    && (forall id :: New(b.start.fileTasks, r.fileTasks, id) ==>
          AcceptableSource(r.transports.after, r.fileTasks.after[id].source)
            && ValidSchedule(r.fileTasks.after[id].schedule))
    && (forall id :: New(b.start.credentials, r.credentials, id) ==> AcceptableLink(r.credentials.after[id]))
  }

  lemma NewTaskIsAcceptable(b: Job, r: Rebuilt, id: Id)
    requires TasksDone(b, r) && New(b.start.tasks, r.tasks, id)
    ensures AcceptableTask(r.transports.after, r.connections.after, r.tasks.after[id])
            && ValidSchedule(r.tasks.after[id].schedule)
  {
    hide Restored, AcceptableTask, LinkRestored, StrategyImage, RestorableSchedule, RestoredSchedule, ValidSchedule;
    var m, rules := MapsOf(r), TaskRules(MapsOf(r), r.transports.after, r.connections.after, b.uuid, b.faults);
    var j, t := NewRowsWereAccepted(rules, b.uuid, b.payload.tasks, b.start.tasks, r.connections.store,
                                    r.connections.next, r.tasks, id);
    var x, n := b.payload.tasks[j], r.tasks.made[j];
    assert rules.verdict(j, t, x, n) == Accept;
    assert rules.image(x, n) == TaskImage(m, b.uuid, x, n);
    assert rules.verdict(j, t, x, n)
        == if b.faults(Tasks, j) || !AcceptableTask(r.transports.after, r.connections.after, TaskImage(m, b.uuid, x, n))
          then Skip
           else Guard(b.faults(TaskSchedules, j) || !RestorableSchedule(x.row.schedule));
    RestoredScheduleIsValid(x.row.schedule);
  }

  lemma NewFileTaskIsAcceptable(b: Job, r: Rebuilt, id: Id)
    requires FileTasksDone(b, r) && New(b.start.fileTasks, r.fileTasks, id)
    ensures AcceptableSource(r.transports.after, r.fileTasks.after[id].source)
            && ValidSchedule(r.fileTasks.after[id].schedule)
  {
    hide Restored, AcceptableSource, SourceImage, RestorableSchedule, RestoredSchedule, ValidSchedule;
    var rules := FileTaskRules(MapsOf(r), r.repos.ids, r.transports.after, b.faults);
    var j, t := NewRowsWereAccepted(rules, b.uuid, b.payload.fileTasks, b.start.fileTasks, r.repos.store, r.repos.next,
                                    r.fileTasks, id);
    var x, n := b.payload.fileTasks[j].row, r.fileTasks.made[j];
    assert rules.verdict(j, t, b.payload.fileTasks[j], n) == Accept;
    assert rules.image(b.payload.fileTasks[j], n) == FileTaskImage(MapsOf(r), r.repos.ids, x);
    assert rules.verdict(j, t, b.payload.fileTasks[j], n)
        == Guard(b.faults(FileTasks, j) || !AcceptableSource(r.transports.after,
                                                             FileTaskImage(MapsOf(r), r.repos.ids, x).source)
                                                                 || !RestorableSchedule(x.schedule));
    RestoredScheduleIsValid(x.schedule);
  }

  lemma NewCredentialIsAcceptable(b: Job, r: Rebuilt, id: Id)
    requires CredentialsDone(b, r) && New(b.start.credentials, r.credentials, id)
    ensures AcceptableLink(r.credentials.after[id])
  {
    hide Restored, AcceptableLink, CredentialImage, LinkTaken;
    var rules := CredentialRules(MapsOf(r), b.uuid, b.faults);
    var j, t := NewRowsWereAccepted(rules, b.uuid, b.payload.credentials, b.start.credentials, b.start.blobs,
                                    r.replications.next, r.credentials, id);
    var x, n := b.payload.credentials[j], r.credentials.made[j];
    assert rules.verdict(j, t, x, n) == Accept;
    var c := CredentialImage(MapsOf(r), b.uuid, x, n);
    assert rules.image(x, n) == c;
    assert rules.verdict(j, t, x, n) == Guard(b.faults(Credentials, j) || !AcceptableLink(c) || LinkTaken(t, c));
  }

  /** Any import that finishes creates only tasks, sources, schedules and links that the repositories accept. */
  lemma ImportedRowsAreAcceptable(b: Job, r: Rebuilt)
    requires Done(b, r, 11)
    ensures AcceptableRows(b, r)
  {
    hide Restored, AcceptableTask, AcceptableSource, AcceptableLink, ValidSchedule;
    assert TasksDone(b, r) && FileTasksDone(b, r) && CredentialsDone(b, r);
    hide Done, TasksDone, FileTasksDone, CredentialsDone;
    forall id | New(b.start.tasks, r.tasks, id)
      ensures AcceptableTask(r.transports.after, r.connections.after, r.tasks.after[id])
              && ValidSchedule(r.tasks.after[id].schedule)
    {
      NewTaskIsAcceptable(b, r, id);
    }
    forall id | New(b.start.fileTasks, r.fileTasks, id)
      ensures AcceptableSource(r.transports.after, r.fileTasks.after[id].source)
              && ValidSchedule(r.fileTasks.after[id].schedule)
    {
      NewFileTaskIsAcceptable(b, r, id);
    }
    forall id | New(b.start.credentials, r.credentials, id) ensures AcceptableLink(r.credentials.after[id]) {
      NewCredentialIsAcceptable(b, r, id);
    }
  }
}

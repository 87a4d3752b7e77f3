/** The shape every reachable set of deployment records and work rows has, and what each
    transaction keeps of it. */
module DeploymentInvariant {
  import opened Options
  import opened Candidate
  import opened Deployment
  import HandoffPath

  /** The record an observation of kind `k` must build on, read off the stored rows. */
  function Before(db: Db, k: Kind): Option<Prior>
    requires Observes(k)
  {
    if k == Supervisor then
      if db.window.Some? && db.window.value.completedAt.Some? then Some(WindowRecord(db.window.value)) else None
    else if PriorKind(k) in db.observations && db.observations[PriorKind(k)].Passed() then
      Some(ObservationRecord(db.observations[PriorKind(k)]))
    else None
  }

  ghost predicate JournalOk(db: Db) {
    && (db.attempt.Some? ==>
          db.attempt.value.startedAt <= db.attempt.value.updatedAt && db.authorization == Some(db.attempt.value.authorization))
    && (db.health.Some? ==>
          && db.attempt.Some? && db.attempt.value.acknowledged && db.health.value.attempt == db.attempt.value
          && db.attempt.value.updatedAt <= db.health.value.observedAt)
    && (db.window.Some? ==>
          && db.window.value.Valid() && Some(db.window.value.health) == db.health
          && db.window.value.health.observedAt <= db.window.value.startedAt
          && 30 <= db.window.value.deadline - db.window.value.startedAt <= 3600)
  }

  /** A stored observation is bound to the record it builds on. */
  ghost predicate Bound(db: Db, k: Kind) {
    k in db.observations ==> Observes(k) && Binds(db.observations[k], k, Before(db, k))
  }

  ghost predicate ObservationsOk(db: Db) {
    forall k {:trigger Bound(db, k)} :: Bound(db, k)
  }

  ghost predicate RecordsInv(db: Db) {
    JournalOk(db) && ObservationsOk(db) && (db.finalization.Some? ==> Matches(db.finalization.value, Decide(db)))
  }

  /** Which rows exist, and whether each has succeeded. */
  function RowStates(work: map<Kind, Work>): map<Kind, bool> {
    map k | k in work :: work[k].status == Succeeded
  }

  ghost predicate OnePath(work: map<Kind, Work>, next: map<Kind, Kind>) {
    HandoffPath.OnePath(RowStates(work), next, Depth, Restart, 10)
  }

  ghost predicate DbInv(db: Db) {
    RecordsInv(db) && OnePath(db.work, Dictated(db))
  }

  /** What no step ever takes back: every record but an unacknowledged attempt and an open window is
      final, those two keep all they have fixed, and a succeeded row stays succeeded. */
  ghost predicate Extends(db: Db, db': Db) {
    && (db.authorization.Some? ==> db'.authorization == db.authorization)
    && (db.attempt.Some? ==>
          && db'.attempt.Some? && db'.attempt.value.authorization == db.attempt.value.authorization
          && db'.attempt.value.startedAt == db.attempt.value.startedAt
          && (db.attempt.value.acknowledged ==> db'.attempt == db.attempt))
    && (db.health.Some? ==> db'.health == db.health)
    && (db.window.Some? ==>
          && db'.window.Some? && db'.window.value.(completedAt := None) == db.window.value.(completedAt := None)
          && (db.window.value.completedAt.Some? ==> db'.window == db.window))
    && (forall k :: k in db.observations ==> k in db'.observations && db'.observations[k] == db.observations[k])
    && (db.finalization.Some? ==> db'.finalization == db.finalization)
    && (forall k :: k in db.work ==> k in db'.work)
    && (forall k :: k in db.work && db.work[k].status == Succeeded ==> db'.work[k] == db.work[k])
  }

  lemma ExtendsIsTransitive(a: Db, b: Db, c: Db)
    requires Extends(a, b) && Extends(b, c)
    ensures Extends(a, c)
  {
  }

  // ---------------------------------------------------------------- loaders

  lemma JournalLoads(db: Db)
    requires JournalOk(db)
    ensures LoadAttempt(db) == if db.attempt.Some? then Present(db.attempt.value) else Absent
    ensures LoadHealth(db) == if db.health.Some? then Present(db.health.value) else Absent
    ensures LoadWindow(db) == if db.window.Some? then Present(db.window.value) else Absent
  {
  }

  lemma {:induction false} ObservationLoads(db: Db, k: Kind)
    requires JournalOk(db) && ObservationsOk(db) && Observes(k)
    ensures Prerequisite(db, k) == Before(db, k)
    ensures k in db.observations ==> LoadObservation(db, k) == Present(db.observations[k])
    ensures k !in db.observations ==> !LoadObservation(db, k).Present?
    ensures k !in db.observations && Before(db, k).Some? ==> LoadObservation(db, k).Absent?
    decreases Depth(k)
  {
    JournalLoads(db);
    assert Bound(db, k);
    if k != Supervisor {
      ObservationLoads(db, PriorKind(k));
    }
  }

  lemma FinalizationLoads(db: Db)
    requires RecordsInv(db)
    ensures LoadFinalization(db) == if db.finalization.Some? then Present(db.finalization.value) else Absent
  {
  }

  // ---------------------------------------------------------------- decisions are stable

  lemma {:induction false} DeeperNeedsPassed(db: Db, k: Kind, q: Kind)
    requires ObservationsOk(db) && q in db.observations && Observes(k) && Depth(k) < Depth(q)
    ensures k in db.observations && db.observations[k].Passed()
    decreases Depth(q)
  {
    assert Bound(db, q);
    var p := PriorKind(q);
    if p != k {
      SameDepth(k, p);
      DeeperNeedsPassed(db, k, p);
    }
  }

  lemma SameDepth(j: Kind, k: Kind)
    ensures Depth(j) == Depth(k) && Depth(j) < 10 ==> j == k
  {
  }

  ghost predicate ObservationsGrow(db: Db, db': Db) {
    forall q :: q in db.observations ==> q in db'.observations && db'.observations[q] == db.observations[q]
  }

  lemma LoadedStaysLoaded(db: Db, db': Db, k: Kind)
    requires JournalOk(db) && ObservationsOk(db) && JournalOk(db') && ObservationsOk(db') && ObservationsGrow(db, db')
    requires Observes(k) && LoadObservation(db, k).Present?
    ensures LoadObservation(db', k) == LoadObservation(db, k)
    ensures k in db'.observations && db'.observations[k] == LoadObservation(db, k).value
  {
    ObservationLoads(db, k);
    ObservationLoads(db', k);
  }

  lemma FailedStaysLast(db: Db, k: Kind)
    requires ObservationsOk(db) && k in db.observations && !db.observations[k].Passed() && Observes(k)
    ensures NoneDeeper(db, k)
  {
    forall q | q in db.observations ensures Depth(q) <= Depth(k) {
      if Depth(q) > Depth(k) { DeeperNeedsPassed(db, k, q); }
    }
  }

  /** The two stores agree on what the decision reads at kind `k`. */
  ghost predicate SameAt(db: Db, db': Db, k: Kind)
    requires Observes(k)
  {
    LoadObservation(db', k) == LoadObservation(db, k) && (NoneDeeper(db, k) ==> NoneDeeper(db', k))
  }

  lemma LoadedIsSame(db: Db, db': Db, k: Kind)
    requires JournalOk(db) && ObservationsOk(db) && JournalOk(db') && ObservationsOk(db') && ObservationsGrow(db, db')
    requires Observes(k) && LoadObservation(db, k).Present?
    ensures LoadObservation(db', k) == LoadObservation(db, k)
    ensures !LoadObservation(db, k).value.Passed() ==> SameAt(db, db', k)
  {
    LoadedStaysLoaded(db, db', k);
    if !LoadObservation(db, k).value.Passed() {
      FailedStaysLast(db', k);
    }
  }

  lemma {:induction false} DecisionStable(db: Db, db': Db, k: Kind, evidence: seq<Observation>)
    requires JournalOk(db) && ObservationsOk(db) && JournalOk(db') && ObservationsOk(db') && ObservationsGrow(db, db')
    requires 4 <= Depth(k) <= 8 && DecideFrom(db, k, evidence).Some?
    ensures DecideFrom(db', k, evidence) == DecideFrom(db, k, evidence)
    decreases 8 - Depth(k)
  {
    LoadedIsSame(db, db', k);
    var o := LoadObservation(db, k).value;
    if k != Assertions && o.failed == 0 {
      DecisionStable(db, db', Later(k), evidence + [o]);
    }
    DecidesAlike(db, db', k, evidence);
  }

  lemma DecidesAlike(db: Db, db': Db, k: Kind, evidence: seq<Observation>)
    requires 4 <= Depth(k) <= 8 && DecideFrom(db, k, evidence).Some? && LoadObservation(db, k).Present?
    requires LoadObservation(db', k) == LoadObservation(db, k)
    requires !LoadObservation(db, k).value.Passed() ==> SameAt(db, db', k)
    requires k != Assertions && LoadObservation(db, k).value.failed == 0 ==>
      var e := evidence + [LoadObservation(db, k).value];
      DecideFrom(db', Later(k), e) == DecideFrom(db, Later(k), e)
    ensures DecideFrom(db', k, evidence) == DecideFrom(db, k, evidence)
  {
    LoadedKind(db, k);
  }

  lemma LoadedKind(db: Db, k: Kind)
    requires Observes(k) && LoadObservation(db, k).Present?
    ensures LoadObservation(db, k).value.kind == k
  {
  }

  lemma {:induction false} SameObservations(db: Db, db': Db, k: Kind)
    requires db' == db.(finalization := db'.finalization, work := db'.work) && Observes(k)
    ensures LoadObservation(db', k) == LoadObservation(db, k) && Prerequisite(db', k) == Prerequisite(db, k)
    decreases Depth(k)
  {
    if k != Supervisor {
      SameObservations(db, db', PriorKind(k));
    }
  }

  lemma {:induction false} SameDecision(db: Db, db': Db, k: Kind, evidence: seq<Observation>)
    requires db' == db.(finalization := db'.finalization, work := db'.work) && 4 <= Depth(k) <= 8
    ensures DecideFrom(db', k, evidence) == DecideFrom(db, k, evidence)
    decreases 8 - Depth(k)
  {
    SameObservations(db, db', k);
    var l := LoadObservation(db, k);
    if l.Present? && k != Assertions && l.value.failed == 0 {
      SameDecision(db, db', Later(k), evidence + [l.value]);
    }
  }

  // ---------------------------------------------------------------- transactions on records

  /** The same observations, still bound: nothing they build on has changed. */
  lemma JournalGrows(db: Db, db': Db)
    requires RecordsInv(db) && JournalOk(db') && db' == db.(authorization := db'.authorization, attempt := db'.attempt, health := db'.health, window := db'.window)
    requires db.window.Some? && db.window.value.completedAt.Some? ==> db'.window == db.window
    ensures RecordsInv(db')
  {
    forall q ensures Bound(db', q) {
      assert Bound(db, q);
    }
    if db.finalization.Some? {
      DecisionStable(db, db', StartupErrors, []);
    }
  }

  lemma TxStartKeeps(db: Db, requested: Attempt)
    requires RecordsInv(db)
    ensures var t := TxStart(db, requested); t.Some? ==> RecordsInv(t.value) && Extends(db, t.value) && t.value.work == db.work
  {
    var t := TxStart(db, requested);
    if t.Some? { JournalGrows(db, t.value); }
  }

  lemma TxAcknowledgeKeeps(db: Db, authorization: int, when: int)
    requires RecordsInv(db)
    ensures var t := TxAcknowledge(db, authorization, when); t.Some? ==> RecordsInv(t.value) && Extends(db, t.value) && t.value.work == db.work
  {
    var t := TxAcknowledge(db, authorization, when);
    if t.Some? { JournalGrows(db, t.value); }
  }

  lemma TxRecordHealthKeeps(db: Db, requested: Health)
    requires RecordsInv(db)
    ensures var t := TxRecordHealth(db, requested); t.Some? ==> RecordsInv(t.value) && Extends(db, t.value) && t.value.work == db.work
  {
    var t := TxRecordHealth(db, requested);
    JournalLoads(db);
    if t.Some? { JournalGrows(db, t.value); }
  }

  lemma TxOpenWindowKeeps(db: Db, requested: Window)
    requires RecordsInv(db) && 30 <= requested.deadline - requested.startedAt <= 3600
    ensures var t := TxOpenWindow(db, requested); t.Some? ==> RecordsInv(t.value) && Extends(db, t.value) && t.value.work == db.work
  {
    var t := TxOpenWindow(db, requested);
    JournalLoads(db);
    if t.Some? { JournalGrows(db, t.value); }
  }

  lemma TxCompleteWindowKeeps(db: Db, existing: Window, when: int)
    requires RecordsInv(db)
    ensures var t := TxCompleteWindow(db, existing, when); t.Some? ==> RecordsInv(t.value) && Extends(db, t.value) && t.value.work == db.work
  {
    var t := TxCompleteWindow(db, existing, when);
    JournalLoads(db);
    if t.Some? { JournalGrows(db, t.value); }
  }

  /** What a stored observation builds on is already stored, so a new one changes nothing for it. */
  lemma BeforeUnaffected(db: Db, o: Observation, q: Kind)
    requires Observes(o.kind) && Observes(q) && o.kind !in db.observations
    requires q == o.kind || (Before(db, q).Some? && q in db.observations)
    ensures Before(db.(observations := db.observations[o.kind := o]), q) == Before(db, q)
  {
    if q != Supervisor {
      assert q == o.kind ==> Depth(PriorKind(q)) < Depth(o.kind);
      assert PriorKind(q) != o.kind;
    }
  }

  lemma ObservationAdded(db: Db, o: Observation, db': Db)
    requires ObservationsOk(db) && Observes(o.kind) && o.kind !in db.observations && Binds(o, o.kind, Before(db, o.kind))
    requires db' == db.(observations := db.observations[o.kind := o])
    ensures ObservationsOk(db')
  {
    forall q ensures Bound(db', q) {
      assert Bound(db, q);
      if q in db'.observations {
        BeforeUnaffected(db, o, q);
      }
    }
  }

  lemma ObservationInserted(db: Db, o: Observation, db': Db)
    requires RecordsInv(db) && Observes(o.kind) && o.kind !in db.observations && Binds(o, o.kind, Before(db, o.kind))
    requires db' == db.(observations := db.observations[o.kind := o])
    ensures RecordsInv(db') && Extends(db, db')
  {
    ObservationAdded(db, o, db');
    if db.finalization.Some? {
      DecisionStable(db, db', StartupErrors, []);
    }
  }

  lemma TxRecordObservationKeeps(db: Db, requested: Observation)
    requires RecordsInv(db) && Observes(requested.kind)
    ensures var t := TxRecordObservation(db, requested); t.Some? ==> RecordsInv(t.value) && Extends(db, t.value) && t.value.work == db.work
  {
    var t := TxRecordObservation(db, requested);
    ObservationLoads(db, requested.kind);
    if t.Some? && requested.kind !in db.observations {
      ObservationInserted(db, requested, t.value);
    }
  }

  lemma Finalized(db: Db, f: Finalization, db': Db)
    requires RecordsInv(db) && db.finalization.None? && Matches(f, Decide(db)) && db' == db.(finalization := Some(f))
    ensures RecordsInv(db') && Extends(db, db')
  {
    SameDecision(db, db', StartupErrors, []);
    SameBindings(db, db');
  }

  /** Finalization and work rows play no part in how observations are bound. */
  lemma SameBindings(db: Db, db': Db)
    requires JournalOk(db) && ObservationsOk(db) && db' == db.(finalization := db'.finalization, work := db'.work)
    ensures JournalOk(db') && ObservationsOk(db')
  {
    forall q ensures Bound(db', q) {
      assert Bound(db, q);
    }
  }

  lemma TxFinalizeKeeps(db: Db, requested: Finalization)
    requires RecordsInv(db)
    ensures var t := TxFinalize(db, requested); t.Some? ==> RecordsInv(t.value) && Extends(db, t.value) && t.value.work == db.work
  {
    var t := TxFinalize(db, requested);
    FinalizationLoads(db);
    if t.Some? && db.finalization.None? {
      Finalized(db, requested, t.value);
    }
  }

  /** A dictated successor stays dictated. */
  lemma NextIsStable(db: Db, db': Db, k: Kind)
    requires Extends(db, db') && Next(db, k).Some?
    ensures Next(db', k) == Next(db, k)
  {
  }

  lemma DictatedGrows(db: Db, db': Db)
    requires Extends(db, db')
    ensures forall k :: k in Dictated(db) ==> k in Dictated(db') && Dictated(db')[k] == Dictated(db)[k]
  {
    forall k | k in Dictated(db) ensures k in Dictated(db') && Dictated(db')[k] == Dictated(db)[k] {
      NextIsStable(db, db', k);
    }
  }

  /** A transaction that only grew the records. */
  lemma RecordsGrew(db: Db, db': Db)
    requires DbInv(db) && RecordsInv(db') && Extends(db, db') && db'.work == db.work
    ensures DbInv(db')
  {
    DictatedGrows(db, db');
    HandoffPath.MoreDictatedKeepsPath(RowStates(db.work), Dictated(db), Dictated(db'), Depth, Restart, 10);
  }

  // ---------------------------------------------------------------- transactions on work rows

  lemma WorkLeavesRecords(db: Db, db': Db)
    requires RecordsInv(db) && db' == db.(work := db'.work)
    ensures RecordsInv(db')
  {
    SameDecision(db, db', StartupErrors, []);
    SameBindings(db, db');
  }

  lemma WorkLeavesDictated(db: Db, db': Db)
    requires db' == db.(work := db'.work)
    ensures Dictated(db') == Dictated(db)
  {
    forall k ensures Next(db', k) == Next(db, k) {
    }
  }

  predicate SucceededStay(work: map<Kind, Work>, work': map<Kind, Work>) {
    forall k :: k in work ==> k in work' && (work[k].status == Succeeded ==> work'[k] == work[k])
  }

  lemma OnlyWorkExtends(db: Db, db': Db)
    requires db' == db.(work := db'.work) && SucceededStay(db.work, db'.work)
    ensures Extends(db, db')
  {
  }

  lemma WorkChanged(db: Db, work': map<Kind, Work>, db': Db)
    requires DbInv(db) && db' == db.(work := work') && SucceededStay(db.work, work') && OnePath(work', Dictated(db))
    ensures DbInv(db') && Extends(db, db')
  {
    WorkLeavesRecords(db, db');
    WorkLeavesDictated(db, db');
    OnlyWorkExtends(db, db');
  }

  lemma LiveRowPath(work: map<Kind, Work>, next: map<Kind, Kind>, k: Kind, row: Work)
    requires OnePath(work, next) && k in work && work[k].status != Succeeded && row.status != Succeeded
    ensures OnePath(work[k := row], next)
  {
    assert RowStates(work[k := row]) == RowStates(work);
  }

  /** Changing a row that has not succeeded, without making it succeed. */
  lemma RowChangeKeeps(db: Db, k: Kind, row: Work)
    requires DbInv(db) && k in db.work && db.work[k].status != Succeeded && row.status != Succeeded
    ensures DbInv(db.(work := db.work[k := row])) && Extends(db, db.(work := db.work[k := row]))
  {
    LiveRowPath(db.work, Dictated(db), k, row);
    WorkChanged(db, db.work[k := row], db.(work := db.work[k := row]));
  }

  lemma FirstRowPath(work: map<Kind, Work>, next: map<Kind, Kind>, row: Work)
    requires OnePath(work, next) && Restart !in work && row.status != Succeeded
    ensures OnePath(work[Restart := row], next)
  {
    assert Restart !in RowStates(work);
    assert RowStates(work) == map[];
    assert work.Keys == RowStates(work).Keys;
    HandoffPath.FirstRow(next, Depth, Restart, 10);
    assert RowStates(work[Restart := row]) == map[Restart := false];
  }

  lemma FirstRowKeeps(db: Db, row: Work)
    requires DbInv(db) && Restart !in db.work && row.status != Succeeded
    ensures DbInv(db.(work := db.work[Restart := row])) && Extends(db, db.(work := db.work[Restart := row]))
  {
    FirstRowPath(db.work, Dictated(db), row);
    WorkChanged(db, db.work[Restart := row], db.(work := db.work[Restart := row]));
  }

  lemma HandoffRows(work: map<Kind, Work>, next: map<Kind, Kind>, k: Kind, done: Work, row: Work)
    requires OnePath(work, next) && k in work && work[k].status != Succeeded && done.status == Succeeded && row.status != Succeeded
    requires k in next && Depth(k) < Depth(next[k])
    ensures OnePath(work[k := done][next[k] := row], next)
  {
    var rows' := RowStates(work[k := done][next[k] := row]);
    assert rows' == RowStates(work)[k := true][next[k] := false];
    HandoffPath.HandoffKeepsPath(RowStates(work), next, Depth, Restart, 10, k, rows');
  }

  lemma TxHandoffKeeps(db: Db, k: Kind, passed: bool, attempts: nat, when: int)
    requires DbInv(db)
    ensures var t := TxHandoff(db, k, passed, attempts, when); t.Some? ==> DbInv(t.value) && Extends(db, t.value)
  {
    var t := TxHandoff(db, k, passed, attempts, when);
    if t.Some? {
      ProvedOutcomeIsDictated(db, k, passed);
      HandedOff(db, k, Following(k, passed).value, FinishWork(db.work[k], Succeeded, when), Work(Pending, 0, when, when, Some(when)), t.value);
    }
  }

  lemma HandedOff(db: Db, k: Kind, next: Kind, done: Work, row: Work, db': Db)
    requires DbInv(db) && k in db.work && db.work[k].status != Succeeded && Next(db, k) == Some(next)
    requires done.status == Succeeded && row.status != Succeeded && next !in db.work
    requires db' == db.(work := db.work[k := done][next := row])
    ensures DbInv(db') && Extends(db, db')
  {
    DictatedIsNext(db, k);
    HandoffRows(db.work, Dictated(db), k, done, row);
    WorkChanged(db, db.work[k := done][next := row], db');
  }

  lemma LastRowPath(work: map<Kind, Work>, next: map<Kind, Kind>, k: Kind, done: Work)
    requires OnePath(work, next) && k in work && Depth(k) == 10 && done.status == Succeeded
    ensures OnePath(work[k := done], next)
  {
    HandoffPath.LastSucceeds(RowStates(work), next, Depth, Restart, 10, k);
    assert RowStates(work[k := done]) == RowStates(work)[k := true];
  }

  lemma TxCompleteKeeps(db: Db, k: Kind, attempts: nat, when: int)
    requires DbInv(db)
    ensures var t := TxComplete(db, k, attempts, when); t.Some? ==> DbInv(t.value) && Extends(db, t.value)
  {
    var t := TxComplete(db, k, attempts, when);
    if t.Some? {
      LastRowPath(db.work, Dictated(db), k, FinishWork(db.work[k], Succeeded, when));
      WorkChanged(db, db.work[k := FinishWork(db.work[k], Succeeded, when)], t.value);
    }
  }

  lemma TxScheduleKeeps(db: Db, attempts: nat, deadline: int, when: int)
    requires DbInv(db)
    ensures var t := TxSchedule(db, attempts, deadline, when); t.Some? ==> DbInv(t.value) && Extends(db, t.value)
  {
    var t := TxSchedule(db, attempts, deadline, when);
    if t.Some? {
      RowChangeKeeps(db, Observe, t.value.work[Observe]);
    }
  }
}

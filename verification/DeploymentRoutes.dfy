/** Where each kind of work leads in a reachable store, kind by kind: which record a succeeded row left
    behind and which row it scheduled, and what must have happened for a row to be scheduled at all. */
module DeploymentRoutes {
  import opened Options
  import opened Candidate
  import opened Deployment
  import opened DeploymentInvariant
  import opened DeploymentRuns
  import opened DeploymentSteps
  import opened DeploymentSafety

  predicate Succeeds(db: Db, k: Kind) {
    k in db.work && db.work[k].status == Succeeded
  }

  /** The stored observation of this kind counted no failure. */
  predicate Passes(db: Db, k: Kind) {
    k in db.observations && db.observations[k].kind == k && db.observations[k].failed == 0
  }

  /** The stored observation of this kind counted at least one failure. */
  predicate Fails(db: Db, k: Kind) {
    k in db.observations && db.observations[k].kind == k && db.observations[k].failed > 0
  }

  predicate Acknowledged(db: Db) {
    db.attempt.Some? && db.attempt.value.acknowledged
  }

  predicate WindowCompleted(db: Db) {
    db.window.Some? && db.window.value.completedAt.Some?
  }

  /** A gating observation that passed led on to the next one, one that failed led straight to
      finalization and none of the kinds in between was ever scheduled. */
  predicate Gates(db: Db, k: Kind, next: Kind, skipped: set<Kind>) {
    Succeeds(db, k) ==>
      && (Passes(db, k) || Fails(db, k))
      && (Passes(db, k) ==> next in db.work)
      && (Fails(db, k) ==> Finalize in db.work && forall q :: q in skipped ==> q !in db.work)
  }

  /** What a succeeded row of a kind without a gate left behind. */
  predicate Linear(db: Db, k: Kind) {
    Succeeds(db, k) ==>
      match k
      case Restart => Acknowledged(db) && Observe in db.work
      case Observe => WindowCompleted(db) && Supervisor in db.work
      case Supervisor => Supervisor in db.observations && Integrations in db.work
      case Integrations => Integrations in db.observations && StartupErrors in db.work
      case Assertions => (Passes(db, Assertions) || Fails(db, Assertions)) && Finalize in db.work
      case Finalize => db.finalization.Some? && (if db.finalization.value.failure.None? then Promote else Rollback) in db.work
      case _ => true
  }

  /** What every succeeded row left behind. */
  ghost predicate LedTo(db: Db) {
    && (forall k {:trigger Linear(db, k)} :: Linear(db, k))
    && Gates(db, StartupErrors, Resources, {Resources, Entities, AutomationScripts, Assertions})
    && Gates(db, Resources, Entities, {Entities, AutomationScripts, Assertions})
    && Gates(db, Entities, AutomationScripts, {AutomationScripts, Assertions})
    && Gates(db, AutomationScripts, Assertions, {Assertions})
    && !(Promote in db.work && Rollback in db.work)
  }

  /** `p` is a kind whose recorded outcome schedules `k`. */
  predicate Scheduled(db: Db, p: Kind, k: Kind) {
    match k
    case Restart => false
    case Observe => p == Restart && Acknowledged(db)
    case Supervisor => p == Observe && WindowCompleted(db)
    case Integrations => p == Supervisor && Supervisor in db.observations
    case StartupErrors => p == Integrations && Integrations in db.observations
    case Resources => p == StartupErrors && Passes(db, StartupErrors)
    case Entities => p == Resources && Passes(db, Resources)
    case AutomationScripts => p == Entities && Passes(db, Entities)
    case Assertions => p == AutomationScripts && Passes(db, AutomationScripts)
    case Finalize => p == Assertions || (p in {StartupErrors, Resources, Entities, AutomationScripts} && Fails(db, p))
    case Promote => p == Finalize && db.finalization.Some? && db.finalization.value.failure.None?
    case Rollback => p == Finalize && db.finalization.Some? && db.finalization.value.failure.Some?
  }

  /** Each row but the first was scheduled by a succeeded row whose recorded outcome may schedule it. */
  ghost predicate CameFrom(db: Db) {
    forall k {:trigger k in db.work} :: k in db.work && k != Restart ==> exists p {:trigger Scheduled(db, p, k)} :: Succeeds(db, p) && Scheduled(db, p, k)
  }

  // ---------------------------------------------------------------- proofs

  lemma HandedOn(db: Db, k: Kind)
    requires DbInv(db) && Succeeds(db, k) && Depth(k) < 10
    ensures Next(db, k).Some? && Next(db, k).value in db.work
    ensures forall q :: q in db.work && Depth(q) > Depth(k) ==> Depth(Next(db, k).value) <= Depth(q)
    ensures k in db.observations ==> db.observations[k].kind == k
  {
    SucceededRowHandedOff(db, k);
    forall q | q in db.work && Depth(q) > Depth(k) ensures Depth(Next(db, k).value) <= Depth(q) {
      RowBefore(db, k, q);
    }
    assert Bound(db, k);
  }

  lemma GateHolds(db: Db, k: Kind, next: Kind, skipped: set<Kind>)
    requires DbInv(db) && 4 <= Depth(k) < 8
    requires Depth(next) == Depth(k) + 1 && forall q :: q in skipped ==> Depth(k) < Depth(q) < 9
    ensures Gates(db, k, next, skipped)
  {
    if Succeeds(db, k) {
      HandedOn(db, k);
    }
  }

  /** In every reachable store each succeeded row has left its record and scheduled the row the record
      calls for, by name. */
  lemma RowsLedTo(clock: int, actions: seq<Action>)
    ensures LedTo(Run(Initial(clock), actions).db)
  {
    ReachableInv(clock, actions);
    var db := Run(Initial(clock), actions).db;
    GateHolds(db, StartupErrors, Resources, {Resources, Entities, AutomationScripts, Assertions});
    GateHolds(db, Resources, Entities, {Entities, AutomationScripts, Assertions});
    GateHolds(db, Entities, AutomationScripts, {AutomationScripts, Assertions});
    GateHolds(db, AutomationScripts, Assertions, {Assertions});
    forall k ensures Linear(db, k) { LinearHolds(db, k); }
    AtMostOneLiveRow(clock, actions, Promote, Rollback);
  }

  lemma LinearHolds(db: Db, k: Kind)
    requires DbInv(db)
    ensures Linear(db, k)
  {
    if Succeeds(db, k) && Depth(k) < 10 {
      HandedOn(db, k);
    }
  }

  /** The row before `k` on the path, with what it recorded. */
  lemma ComesAfter(db: Db, k: Kind) returns (p: Kind)
    requires DbInv(db) && k in db.work && k != Restart
    ensures Succeeds(db, p) && Next(db, p) == Some(k) && (p in db.observations ==> db.observations[p].kind == p)
  {
    var path := RowsArePath(db);
    var i :| 0 <= i < |path| && path[i] == k;
    p := path[i - 1];
    assert Bound(db, p);
  }

  lemma LeadsOnlyTo(db: Db, p: Kind, k: Kind)
    requires Succeeds(db, p) && Next(db, p) == Some(k) && (p in db.observations ==> db.observations[p].kind == p)
    ensures Scheduled(db, p, k)
  {
  }

  /** In every reachable store each row but the first was scheduled by the one row, and the one outcome,
      that may schedule it. */
  lemma RowsCameFrom(clock: int, actions: seq<Action>)
    ensures CameFrom(Run(Initial(clock), actions).db)
  {
    ReachableInv(clock, actions);
    var db := Run(Initial(clock), actions).db;
    forall k | k in db.work && k != Restart ensures exists p :: Succeeds(db, p) && Scheduled(db, p, k) {
      var p := ComesAfter(db, k);
      LeadsOnlyTo(db, p, k);
    }
  }

  /** The handoff transaction itself, whatever store it runs on: the claimed row succeeds, one new row
      becomes due now, the one its proved record schedules, and nothing else changes. */
  lemma HandoffSchedules(db: Db, k: Kind, passed: bool, attempts: nat, when: int) returns (q: Kind)
    requires TxHandoff(db, k, passed, attempts, when).Some?
    ensures k in db.work && db.work[k].status == Running && db.work[k].attempts == attempts && q !in db.work && Scheduled(db, k, q)
    ensures TxHandoff(db, k, passed, attempts, when).value ==
      db.(work := db.work[k := Work(Succeeded, attempts, db.work[k].createdAt, when, None)][q := Work(Pending, 0, when, when, Some(when))])
  {
    q := Following(k, passed).value;
    ProvedRecord(db, k, passed);
  }

  lemma ProvedRecord(db: Db, k: Kind, passed: bool)
    requires OutcomeProved(db, k, passed) && Following(k, passed).Some?
    ensures Scheduled(db, k, Following(k, passed).value)
  {
  }

  // ---------------------------------------------------------------- the evidence of a finalization

  /** These observations, and no others, make up the evidence, in this order. */
  predicate Collects(db: Db, evidence: seq<Observation>, kinds: seq<Kind>) {
    |evidence| == |kinds| && forall i :: 0 <= i < |kinds| ==> kinds[i] in db.observations && evidence[i] == db.observations[kinds[i]]
  }

  /** A finalization without a failure, or with failed assertions, rests on all five gating
      observations; one with an earlier failure on those up to the failed one. */
  predicate RestsOn(db: Db, failure: Option<Kind>, evidence: seq<Observation>) {
    match failure
    case None => Collects(db, evidence, [StartupErrors, Resources, Entities, AutomationScripts, Assertions])
    case Some(StartupErrors) => Collects(db, evidence, [StartupErrors])
    case Some(Resources) => Collects(db, evidence, [StartupErrors, Resources])
    case Some(Entities) => Collects(db, evidence, [StartupErrors, Resources, Entities])
    case Some(AutomationScripts) => Collects(db, evidence, [StartupErrors, Resources, Entities, AutomationScripts])
    case Some(Assertions) => Collects(db, evidence, [StartupErrors, Resources, Entities, AutomationScripts, Assertions])
    case _ => false
  }

  /** The gating kinds from `k` up to `last`. */
  function Gating(k: Kind, last: Kind): seq<Kind>
    requires 4 <= Depth(k) <= Depth(last) <= 8
    decreases 8 - Depth(k)
  {
    if Depth(k) == Depth(last) then [k] else [k] + Gating(Later(k), last)
  }

  lemma OneMoreCollected(db: Db, k: Kind, last: Kind, tail: seq<Observation>)
    requires 4 <= Depth(k) < Depth(last) <= 8 && k in db.observations && Collects(db, tail, Gating(Later(k), last))
    ensures Collects(db, [db.observations[k]] + tail, Gating(k, last))
  {
    var kinds := Gating(k, last);
    assert kinds == [k] + Gating(Later(k), last);
  }

  lemma Regrouped(evidence: seq<Observation>, o: Observation, tail: seq<Observation>)
    ensures evidence + [o] + tail == evidence + ([o] + tail)
  {
  }

  lemma LastCollected(db: Db, k: Kind)
    requires 4 <= Depth(k) <= 8 && k in db.observations
    ensures Collects(db, [db.observations[k]], Gating(k, k))
  {
  }

  lemma DecisionStep(db: Db, k: Kind, evidence: seq<Observation>)
    requires JournalOk(db) && ObservationsOk(db) && 4 <= Depth(k) <= 8 && DecideFrom(db, k, evidence).Some?
    ensures k in db.observations
    ensures
      var o := db.observations[k];
      if k != Assertions && o.failed == 0 then DecideFrom(db, k, evidence) == DecideFrom(db, Later(k), evidence + [o])
      else
        && DecideFrom(db, k, evidence).value.evidence == evidence + [o]
        && DecideFrom(db, k, evidence).value.failure == (if o.failed == 0 then None else Some(k))
  {
    ObservationLoads(db, k);
  }

  /** Where a decision's evidence ends. */
  function Last(d: Decision): Kind {
    if d.failure.None? then Assertions else d.failure.value
  }

  lemma {:induction false} DecisionCollects(db: Db, k: Kind, evidence: seq<Observation>) returns (tail: seq<Observation>)
    requires JournalOk(db) && ObservationsOk(db) && 4 <= Depth(k) <= 8 && DecideFrom(db, k, evidence).Some?
    ensures
      var d := DecideFrom(db, k, evidence).value;
      Depth(k) <= Depth(Last(d)) <= 8 && d.evidence == evidence + tail && Collects(db, tail, Gating(k, Last(d)))
    decreases 8 - Depth(k)
  {
    DecisionStep(db, k, evidence);
    var o := db.observations[k];
    var d := DecideFrom(db, k, evidence).value;
    tail := [o];
    if k != Assertions && o.failed == 0 {
      var rest := DecisionCollects(db, Later(k), evidence + [o]);
      OneMoreCollected(db, k, Last(d), rest);
      Regrouped(evidence, o, rest);
      tail := [o] + rest;
    } else {
      LastCollected(db, k);
    }
  }

  lemma GatingKinds(last: Kind)
    requires 4 <= Depth(last) <= 8
    ensures last == StartupErrors ==> Gating(StartupErrors, last) == [StartupErrors]
    ensures last == Resources ==> Gating(StartupErrors, last) == [StartupErrors, Resources]
    ensures last == Entities ==> Gating(StartupErrors, last) == [StartupErrors, Resources, Entities]
    ensures last == AutomationScripts ==> Gating(StartupErrors, last) == [StartupErrors, Resources, Entities, AutomationScripts]
    ensures last == Assertions ==> Gating(StartupErrors, last) == [StartupErrors, Resources, Entities, AutomationScripts, Assertions]
  {
    assert Gating(Assertions, Assertions) == [Assertions];
    assert last == Assertions ==> Gating(AutomationScripts, last) == [AutomationScripts, Assertions];
    assert last == Assertions ==> Gating(Entities, last) == [Entities, AutomationScripts, Assertions];
    assert last == Assertions ==> Gating(Resources, last) == [Resources, Entities, AutomationScripts, Assertions];
    assert last == AutomationScripts ==> Gating(Entities, last) == [Entities, AutomationScripts];
    assert last == AutomationScripts ==> Gating(Resources, last) == [Resources, Entities, AutomationScripts];
    assert last == Entities ==> Gating(Resources, last) == [Resources, Entities];
  }

  /** The finalization of every reachable store names the first failed gating observation, or none, and
      carries exactly the observations it was decided on. */
  lemma FinalizationRestsOn(clock: int, actions: seq<Action>)
    ensures
      var db := Run(Initial(clock), actions).db;
      db.finalization.Some? ==> RestsOn(db, db.finalization.value.failure, db.finalization.value.evidence)
  {
    ReachableInv(clock, actions);
    var db := Run(Initial(clock), actions).db;
    if db.finalization.Some? {
      var tail := DecisionCollects(db, StartupErrors, []);
      GatingKinds(Last(Decide(db).value));
    }
  }

  // ---------------------------------------------------------------- what is worth retrying

  lemma RestartIsNeverTransient(s: System, w: nat, answer: Answer)
    requires w in s.workers && OfRestart(s.workers[w].pc)
    ensures RestartStep(s, w, answer).workers[w].pc != ToFail(true)
  {
  }

  lemma OnlyProbeOfHealth(s: System, w: nat, answer: Answer)
    requires w in s.workers && OfHealth(s.workers[w].pc) && HealthStep(s, w, answer).workers[w].pc == ToFail(true)
    ensures (s.workers[w].pc.ProbeInitial? || s.workers[w].pc.ProbeFinal?) && answer == Failure(true)
  {
  }

  lemma BegunIsNeverTransient(db: Db, worker: Worker)
    ensures AfterBegun(db, worker) != ToFail(true)
  {
  }

  lemma OnlyProbeOfObservation(s: System, w: nat, answer: Answer)
    requires w in s.workers && !OfHealth(s.workers[w].pc) && !OfRestart(s.workers[w].pc) && !s.workers[w].pc.ToFail?
    requires OtherStep(s, w, answer).workers[w].pc == ToFail(true)
    ensures s.workers[w].pc.ProbeObservation? && answer == Failure(true)
  {
    if s.workers[w].pc.Begun? { BegunIsNeverTransient(s.db, s.workers[w]); }
  }

  /** A pass fails transiently, and so is tried again, only after a probe whose failure was transient; whatever
      it finds in the records, and whatever becomes of the restart request, blocks the row. */
  lemma OnlyProbesFailTransiently(s: System, w: nat, answer: Answer)
    requires w in s.workers && !s.workers[w].pc.ToFail? && StepContinue(s, w, answer).workers[w].pc == ToFail(true)
    ensures (s.workers[w].pc.ProbeInitial? || s.workers[w].pc.ProbeFinal? || s.workers[w].pc.ProbeObservation?) && answer == Failure(true)
  {
    if OfRestart(s.workers[w].pc) { RestartIsNeverTransient(s, w, answer); }
    else if OfHealth(s.workers[w].pc) { OnlyProbeOfHealth(s, w, answer); }
    else { OnlyProbeOfObservation(s, w, answer); }
  }
}

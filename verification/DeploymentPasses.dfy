/** Whole passes of the deployment machine, each kind of work in turn: from any state a run can reach, a live
    row can be claimed and passed on, by the steps its executor takes when the outside world answers well. */
module DeploymentPasses {
  import opened Options
  import opened Candidate
  import opened Deployment
  import opened DeploymentInvariant
  import opened DeploymentRuns
  import opened DeploymentPlaces
  import opened DeploymentSteps
  import opened DeploymentSafety
  import opened DeploymentRoutes

  // ---------------------------------------------------------------- what else every run keeps

  predicate RowHasDue(db: Db, k: Kind) {
    k in db.work && (db.work[k].status == Pending || db.work[k].status == Retry) ==> db.work[k].nextAttemptAt.Some?
  }

  /** A waiting row has a due time. */
  ghost predicate HasDue(db: Db) {
    forall k {:trigger RowHasDue(db, k)} :: RowHasDue(db, k)
  }

  predicate AnswerFits(s: System, w: nat) {
    w in s.workers && s.workers[w].pc.Answered? ==> s.db.authorization == Some(s.workers[w].pc.attempt.authorization)
  }

  /** An answered request is one for the stored authorization. */
  ghost predicate AnswersFit(s: System) {
    forall w {:trigger AnswerFits(s, w)} :: AnswerFits(s, w)
  }

  lemma RestartRows(s: System, w: nat, answer: Answer)
    requires w in s.workers
    ensures RestartStep(s, w, answer).db.work == s.db.work
  {
  }

  lemma HealthRows(s: System, w: nat, answer: Answer)
    requires w in s.workers && HasDue(s.db)
    ensures HasDue(HealthStep(s, w, answer).db)
  {
    var s' := HealthStep(s, w, answer);
    forall k ensures RowHasDue(s'.db, k) { assert RowHasDue(s.db, k); }
  }

  lemma OtherRows(s: System, w: nat, answer: Answer)
    requires w in s.workers && HasDue(s.db)
    ensures HasDue(OtherStep(s, w, answer).db)
  {
    var s' := OtherStep(s, w, answer);
    forall k ensures RowHasDue(s'.db, k) { assert RowHasDue(s.db, k); }
  }

  lemma ContinueKeepsDue(s: System, w: nat, answer: Answer)
    requires w in s.workers && HasDue(s.db)
    ensures HasDue(StepContinue(s, w, answer).db)
  {
    if OfRestart(s.workers[w].pc) {
      RestartRows(s, w, answer);
      forall k ensures RowHasDue(RestartStep(s, w, answer).db, k) { assert RowHasDue(s.db, k); }
    } else if OfHealth(s.workers[w].pc) {
      HealthRows(s, w, answer);
    } else {
      OtherRows(s, w, answer);
    }
  }

  lemma StepKeepsDue(s: System, a: Action)
    requires HasDue(s.db)
    ensures HasDue(Step(s, a).db)
  {
    if a.Continue? {
      if a.w in s.workers { ContinueKeepsDue(s, a.w, a.answer); }
    } else {
      forall k ensures RowHasDue(Step(s, a).db, k) { assert RowHasDue(s.db, k); }
    }
  }

  // ---------------------------------------------------------------- who comes to hold a permit or an answer

  predicate InHand(pc: Pc) {
    pc.ConfirmStart? || pc.MaySend? || pc.Answered?
  }

  lemma RestartMoves(s: System, w: nat, answer: Answer)
    requires w in s.workers
    ensures var s' := RestartStep(s, w, answer);
      && s'.workers.Keys == s.workers.Keys && (forall v :: v in s.workers && v != w ==> s'.workers[v] == s.workers[v])
      && (s'.workers[w].pc.Answered? && !s.workers[w].pc.Answered? ==> s.workers[w].pc == MaySend(s'.workers[w].pc.attempt))
      && (s'.db.attempt != s.db.attempt || InHand(s'.workers[w].pc) ==>
            InHand(s.workers[w].pc) || !OfRestart(s.workers[w].pc) || LoadAttempt(s.db).Absent?)
  {
  }

  lemma HealthMoves(s: System, w: nat, answer: Answer)
    requires w in s.workers && OfHealth(s.workers[w].pc)
    ensures var s' := HealthStep(s, w, answer);
      && s'.workers.Keys == s.workers.Keys && (forall v :: v in s.workers && v != w ==> s'.workers[v] == s.workers[v])
      && !InHand(s'.workers[w].pc) && s'.db.attempt == s.db.attempt
  {
  }

  lemma BegunTakesNothing(db: Db, worker: Worker)
    ensures !InHand(AfterBegun(db, worker))
  {
  }

  lemma OtherMoves(s: System, w: nat, answer: Answer)
    requires w in s.workers && !OfHealth(s.workers[w].pc) && !OfRestart(s.workers[w].pc)
    ensures var s' := OtherStep(s, w, answer);
      && s'.workers.Keys == s.workers.Keys && (forall v :: v in s.workers && v != w ==> s'.workers[v] == s.workers[v])
      && !InHand(s'.workers[w].pc) && s'.db.attempt == s.db.attempt
  {
    if s.workers[w].pc.Begun? { BegunTakesNothing(s.db, s.workers[w]); } else { LaterMoves(s, w, answer); }
  }

  lemma LaterMoves(s: System, w: nat, answer: Answer)
    requires w in s.workers && !OfHealth(s.workers[w].pc) && !OfRestart(s.workers[w].pc) && !s.workers[w].pc.Begun?
    ensures var s' := OtherStep(s, w, answer);
      && s'.workers.Keys == s.workers.Keys && (forall v :: v in s.workers && v != w ==> s'.workers[v] == s.workers[v])
      && !InHand(s'.workers[w].pc) && s'.db.attempt == s.db.attempt
  {
  }

  /** One worker's step: nobody else moves, an answer follows a permit, and an attempt on record is changed,
      or a request taken in hand, only by a worker that has it in hand already. */
  lemma ContinueMoves(s: System, w: nat, answer: Answer)
    requires w in s.workers
    ensures var s' := StepContinue(s, w, answer);
      && s'.workers.Keys == s.workers.Keys && (forall v :: v in s.workers && v != w ==> s'.workers[v] == s.workers[v])
      && (s'.workers[w].pc.Answered? && !s.workers[w].pc.Answered? ==> s.workers[w].pc == MaySend(s'.workers[w].pc.attempt))
      && (s'.db.attempt != s.db.attempt || InHand(s'.workers[w].pc) ==> InHand(s.workers[w].pc) || LoadAttempt(s.db).Absent?)
  {
    if OfRestart(s.workers[w].pc) { RestartMoves(s, w, answer); }
    else if OfHealth(s.workers[w].pc) { HealthMoves(s, w, answer); }
    else { OtherMoves(s, w, answer); }
  }

  lemma AnsweredStaysFit(s: System, s': System, w: nat)
    requires AnswerFits(s, w) && Extends(s.db, s'.db) && JournalOk(s.db)
    requires w in s'.workers && s'.workers[w].pc.Answered? ==>
      w in s.workers && (s.workers[w].pc == s'.workers[w].pc || (s.workers[w].pc == MaySend(s'.workers[w].pc.attempt) && s.db.attempt == Some(s'.workers[w].pc.attempt)))
    ensures AnswerFits(s', w)
  {
  }

  lemma AnsweredStays(s: System, w: nat, answer: Answer)
    requires w in s.workers && s.workers[w].pc.Answered? && StepContinue(s, w, answer).workers.Keys == s.workers.Keys
    ensures !StepContinue(s, w, answer).workers[w].pc.Answered?
  {
  }

  lemma StepKeepsAnswers(s: System, a: Action)
    requires Inv(s) && AnswersFit(s)
    ensures AnswersFit(Step(s, a))
  {
    StepKeeps(s, a);
    var s' := Step(s, a);
    forall v ensures AnswerFits(s', v) {
      assert AnswerFits(s, v) && WorkerOk(s, v);
      if a.Continue? && a.w in s.workers {
        ContinueMoves(s, a.w, a.answer);
        if v == a.w && s.workers[v].pc.Answered? { AnsweredStays(s, v, a.answer); }
      }
      AnsweredStaysFit(s, s', v);
    }
  }

  ghost predicate Sound(s: System) {
    Inv(s) && HasDue(s.db) && AnswersFit(s)
  }

  lemma {:induction false} RunKeepsSound(s: System, actions: seq<Action>)
    requires Sound(s)
    ensures Sound(Run(s, actions))
    decreases |actions|
  {
    if actions != [] {
      StepKeeps(s, actions[0]);
      StepKeepsDue(s, actions[0]);
      StepKeepsAnswers(s, actions[0]);
      RunKeepsSound(Step(s, actions[0]), actions[1..]);
    }
  }

  lemma InitialIsSound(clock: int)
    ensures Sound(Initial(clock))
  {
    ReachableInv(clock, []);
  }

  // ---------------------------------------------------------------- runs built step by step

  datatype Route = Route(from: System, steps: seq<Action>) {
    function End(): System {
      Run(from, steps)
    }
  }

  lemma Go(r: Route, a: Action) returns (q: Route)
    ensures q.from == r.from && q.End() == Step(r.End(), a)
  {
    q := Route(r.from, r.steps + [a]);
    RunConcat(r.from, r.steps, [a]);
    assert [a][1..] == [];
    assert Run(r.End(), [a]) == Run(Step(r.End(), a), [a][1..]);
  }

  lemma RouteSound(r: Route)
    requires Sound(r.from)
    ensures Sound(r.End())
  {
    RunKeepsSound(r.from, r.steps);
  }

  /** The worker takes one step. */
  lemma Continues(r: Route, w: nat, answer: Answer) returns (q: Route)
    requires w in r.End().workers
    ensures q.from == r.from && q.End() == StepContinue(r.End(), w, answer)
  {
    q := Go(r, Continue(w, answer));
  }

  const FINE: Answer := Success(0, 0, 0)

  // ---------------------------------------------------------------- claiming a live row

  predicate Live(db: Db, k: Kind) {
    k in db.work && db.work[k].status != Succeeded
  }

  lemma {:induction false} FreshNumber(used: set<nat>) returns (n: nat)
    ensures forall u :: u in used ==> u < n
  {
    if used == {} { return 0; }
    var u :| u in used;
    var m := FreshNumber(used - {u});
    n := if u < m then m else u + 1;
    forall v | v in used ensures v < n { assert v == u || v in used - {u}; }
  }

  function Latest(a: int, b: int): (t: int)
    ensures a <= t && b <= t
  {
    if a < b then b else a
  }

  /** The records but for the rows of work; of those only the row of kind `k` may differ. */
  predicate OnlyRow(db: Db, db': Db, k: Kind) {
    db' == db.(work := db'.work) && k in db'.work && db'.work == db.work[k := db'.work[k]]
  }

  /** A pass of kind `k` stands at its beginning. */
  predicate Started(s: System, w: nat, db: Db, worker: Worker, k: Kind, bound: int) {
    && Stands(s, w, db, worker) && worker.kind == k && worker.pc == Begun && worker.probes == 0 && 30 <= worker.seconds <= 3600
    && bound <= worker.when && Deployment.Claimed(db, k, worker.attempts)
  }

  /** The row once an administrator has retried it and the process has restarted. */
  function DueRow(s: System, k: Kind): (row: Work)
    requires Live(s.db, k) && RowHasDue(s.db, k)
    ensures (row.status == Pending || row.status == Retry) && row.nextAttemptAt.Some?
  {
    Recovered(AdministrativelyRetried(s.db.work[k], s.clock), s.clock)
  }

  lemma MadeDue(s: System, k: Kind)
    requires Live(s.db, k) && RowHasDue(s.db, k)
    ensures Step(Step(s, RetryBlocked(k)), Recover(k)) == SetRow(s, k, DueRow(s, k))
  {
    var retried := AdministrativelyRetried(s.db.work[k], s.clock);
    assert Step(s, RetryBlocked(k)) == SetRow(s, k, retried);
    assert s.db.work[k := retried][k := DueRow(s, k)] == s.db.work[k := DueRow(s, k)];
  }

  lemma BeginStep(s: System, w: nat, k: Kind, when: int)
    requires w !in s.workers && ClaimableRow(s.db, k, when)
    ensures
      var row := Claim(s.db.work[k], when);
      Step(s, Begin(w, k, when, 30)) ==
        s.(db := s.db.(work := s.db.work[k := row]), workers := s.workers[w := Worker(k, when, 30, row.attempts, Begun, 0)])
  {
  }

  lemma RowIsDue(r: Route, k: Kind)
    requires Sound(r.from)
    ensures RowHasDue(r.End().db, k)
  {
    RouteSound(r);
  }

  /** An administrator retries, the process restarts, and a new pass claims the row, late enough. */
  lemma Begins(r: Route, k: Kind, bound: int) returns (q: Route, w: nat, worker: Worker)
    requires Sound(r.from) && Live(r.End().db, k)
    ensures q.from == r.from && OnlyRow(r.End().db, q.End().db, k) && Started(q.End(), w, q.End().db, worker, k, bound)
    ensures q.End().db.work[k].status == Running
  {
    RowIsDue(r, k);
    var due := SetRow(r.End(), k, DueRow(r.End(), k));
    MadeDue(r.End(), k);
    q := Go(r, RetryBlocked(k));
    q := Go(q, Recover(k));
    w := FreshNumber(due.workers.Keys);
    q, worker := BeginsDue(q, due, w, k, bound);
  }

  lemma BeginsDue(r: Route, s: System, w: nat, k: Kind, bound: int) returns (q: Route, worker: Worker)
    requires r.End() == s && k in s.db.work && (s.db.work[k].status == Pending || s.db.work[k].status == Retry)
    requires s.db.work[k].nextAttemptAt.Some? && forall u :: u in s.workers ==> u < w
    ensures q.from == r.from && OnlyRow(s.db, q.End().db, k) && Started(q.End(), w, q.End().db, worker, k, bound)
    ensures q.End().db.work[k].status == Running
  {
    var when := Latest(s.db.work[k].nextAttemptAt.value, bound);
    BeginStep(s, w, k, when);
    q := Go(r, Begin(w, k, when, 30));
    worker := Worker(k, when, 30, s.db.work[k].attempts + 1, Begun, 0);
  }

  // ---------------------------------------------------------------- handing off

  lemma NoSuccessorYet(db: Db, k: Kind)
    requires DbInv(db) && Live(db, k)
    ensures forall p: bool :: Following(k, p).Some? ==> Following(k, p).value !in db.work
  {
    forall p: bool | Following(k, p).Some? ensures Following(k, p).value !in db.work {
      if Following(k, p).value in db.work { RowBefore(db, k, Following(k, p).value); }
    }
  }

  /** The row has succeeded and its successor is live. */
  predicate Passed(db: Db, k: Kind, db': Db, next: Kind) {
    Succeeds(db', k) && Live(db', next) && db' == db.(work := db'.work) && Depth(next) > Depth(k)
  }

  lemma HandsOff(r: Route, w: nat, worker: Worker, passed: bool) returns (q: Route)
    requires Sound(r.from) && Stands(r.End(), w, r.End().db, worker) && worker.pc == ToFinish(passed)
    requires Deployment.Claimed(r.End().db, worker.kind, worker.attempts) && OutcomeProved(r.End().db, worker.kind, passed)
    ensures q.from == r.from && Following(worker.kind, passed).Some?
    ensures Passed(r.End().db, worker.kind, q.End().db, Following(worker.kind, passed).value)
  {
    RouteSound(r);
    var db := r.End().db;
    NoSuccessorYet(db, worker.kind);
    ProvedOutcomeIsDictated(db, worker.kind, passed);
    DictatedIsNext(db, worker.kind);
    FinishedStep(r.End(), w, db, worker, passed, FINE);
    q := Continues(r, w, FINE);
  }

  // ---------------------------------------------------------------- observations

  lemma BeginsObservation(s: System, w: nat, db: Db, worker: Worker, answer: Answer)
    requires Stands(s, w, db, worker) && worker.pc == Begun && Observes(worker.kind)
    ensures Stands(StepContinue(s, w, answer), w, db, worker.(pc := BeginObservation(db, worker.kind)))
  {
  }

  lemma ObservationProbed(s: System, w: nat, db: Db, worker: Worker, prior: Prior)
    requires Stands(s, w, db, worker) && worker.pc == ProbeObservation(prior) && PriorTime(prior) <= worker.when
    ensures Stands(StepContinue(s, w, FINE), w, db, worker.(pc := RecordObserved(Observation(worker.kind, prior, worker.when, 0, 0))))
  {
  }

  lemma ObservationRecorded(s: System, w: nat, db: Db, worker: Worker, o: Observation)
    requires Stands(s, w, db, worker) && worker.pc == RecordObserved(o) && Observes(o.kind)
    requires Binds(o, o.kind, Prerequisite(db, o.kind)) && LoadObservation(db, o.kind).Absent?
    ensures Stands(StepContinue(s, w, FINE), w, db.(observations := db.observations[o.kind := o]), worker.(pc := ToFinish(o.Passed())))
  {
  }

  lemma PrerequisiteStored(db: Db, k: Kind)
    requires DbInv(db) && k in db.work && Observes(k)
    ensures Before(db, k).Some?
  {
    var p := ComesAfter(db, k);
    LeadsOnlyTo(db, p, k);
    assert Bound(db, p);
  }

  predicate Gate(k: Kind) {
    4 <= Depth(k) <= 8
  }

  /** No gating observation on record has failed. */
  predicate NoFailure(db: Db) {
    forall k :: k in db.observations && Gate(k) ==> db.observations[k].failed == 0
  }

  lemma ObservationReplays(r: Route, w: nat, worker: Worker, k: Kind) returns (q: Route, next: Kind)
    requires Sound(r.from) && Observes(k) && k in r.End().db.observations && Started(r.End(), w, r.End().db, worker, k, worker.when)
    ensures q.from == r.from && Passed(r.End().db, k, q.End().db, next)
  {
    RouteSound(r);
    var db := r.End().db;
    PrerequisiteStored(db, k);
    ObservationLoads(db, k);
    BeginsObservation(r.End(), w, db, worker, FINE);
    q := Continues(r, w, FINE);
    var passed := db.observations[k].Passed();
    q := HandsOff(q, w, worker.(pc := ToFinish(passed)), passed);
    next := Following(k, passed).value;
  }

  lemma ObservationIsMade(r: Route, w: nat, worker: Worker, k: Kind) returns (q: Route)
    requires Sound(r.from) && Observes(k) && k !in r.End().db.observations && k in r.End().db.work && Before(r.End().db, k).Some?
    requires Started(r.End(), w, r.End().db, worker, k, PriorTime(Before(r.End().db, k).value))
    ensures q.from == r.from
    ensures
      var o := Observation(k, Before(r.End().db, k).value, worker.when, 0, 0);
      Stands(q.End(), w, r.End().db.(observations := r.End().db.observations[k := o]), worker.(pc := ToFinish(true)))
  {
    RouteSound(r);
    var db := r.End().db;
    ObservationLoads(db, k);
    var prior := Before(db, k).value;
    BeginsObservation(r.End(), w, db, worker, FINE);
    q := Continues(r, w, FINE);
    ObservationProbed(q.End(), w, db, worker.(pc := ProbeObservation(prior)), prior);
    q := Continues(q, w, FINE);
    var o := Observation(k, prior, worker.when, 0, 0);
    ObservationRecorded(q.End(), w, db, worker.(pc := RecordObserved(o)), o);
    q := Continues(q, w, FINE);
  }

  lemma StoredOutcome(db: Db, k: Kind)
    requires DbInv(db) && Observes(k) && k in db.observations
    ensures OutcomeProved(db, k, db.observations[k].Passed())
  {
    ObservationLoads(db, k);
  }

  lemma ObservedOutcome(r: Route, k: Kind)
    requires Sound(r.from) && Observes(k) && k in r.End().db.observations
    ensures OutcomeProved(r.End().db, k, r.End().db.observations[k].Passed())
  {
    RouteSound(r);
    StoredOutcome(r.End().db, k);
  }

  lemma OnePassedMore(db: Db, db': Db, k: Kind)
    requires k in db'.observations && db'.observations[k].failed == 0 && db'.observations == db.observations[k := db'.observations[k]]
    ensures NoFailure(db) ==> NoFailure(db')
  {
  }

  lemma ObservationAnew(r: Route, w: nat, worker: Worker, k: Kind) returns (q: Route, next: Kind)
    requires Sound(r.from) && Observes(k) && k !in r.End().db.observations && k in r.End().db.work && Before(r.End().db, k).Some?
    requires Started(r.End(), w, r.End().db, worker, k, PriorTime(Before(r.End().db, k).value))
    ensures q.from == r.from && Live(q.End().db, next) && Depth(next) > Depth(k)
    ensures NoFailure(r.End().db) ==> NoFailure(q.End().db)
    ensures q.End().db.finalization == r.End().db.finalization
  {
    q := ObservationIsMade(r, w, worker, k);
    ObservedOutcome(q, k);
    OnePassedMore(r.End().db, q.End().db, k);
    q := HandsOff(q, w, worker.(pc := ToFinish(true)), true);
    next := Following(k, true).value;
  }

  /** A live observation row can be passed; if nothing is on record yet, without a failure. */
  lemma ObservationPasses(r: Route, k: Kind) returns (q: Route, next: Kind)
    requires Sound(r.from) && Observes(k) && Live(r.End().db, k)
    ensures q.from == r.from && Live(q.End().db, next) && Depth(next) > Depth(k)
    ensures NoFailure(r.End().db) ==> NoFailure(q.End().db)
    ensures q.End().db.finalization == r.End().db.finalization
  {
    RouteSound(r);
    PrerequisiteStored(r.End().db, k);
    var w, worker;
    q, w, worker := Begins(r, k, PriorTime(Before(r.End().db, k).value));
    if k in q.End().db.observations {
      q, next := ObservationReplays(q, w, worker, k);
    } else {
      q, next := ObservationAnew(q, w, worker, k);
    }
  }

  // ---------------------------------------------------------------- the restart

  lemma BeginsRestart(s: System, w: nat, db: Db, worker: Worker)
    requires Stands(s, w, db, worker) && worker.pc == Begun && worker.kind == Restart
    ensures Stands(StepContinue(s, w, FINE), w, db, worker.(pc := BeginRestart(db)))
  {
  }

  lemma StartRecorded(s: System, w: nat, db: Db, worker: Worker, authorization: int)
    requires Stands(s, w, db, worker) && worker.pc == RecordStart(authorization) && db.authorization == Some(authorization) && LoadAttempt(db).Absent?
    ensures
      var a := Attempt(authorization, false, worker.when, worker.when);
      Stands(StepContinue(s, w, FINE), w, db.(attempt := Some(a)), worker.(pc := ConfirmStart(a)))
  {
  }

  lemma StartConfirmed(s: System, w: nat, db: Db, worker: Worker, a: Attempt)
    requires Stands(s, w, db, worker) && worker.pc == ConfirmStart(a) && LoadAttempt(db) == Present(a)
    ensures Stands(StepContinue(s, w, FINE), w, db, worker.(pc := MaySend(a)))
  {
  }

  lemma RestartSent(s: System, w: nat, db: Db, worker: Worker, a: Attempt)
    requires Stands(s, w, db, worker) && worker.pc == MaySend(a)
    ensures Stands(StepContinue(s, w, FINE), w, db, worker.(pc := Answered(a)))
  {
  }

  lemma RestartAcknowledged(s: System, w: nat, db: Db, worker: Worker, a: Attempt, at: int)
    requires Stands(s, w, db, worker) && worker.pc == Answered(a) && db.authorization == Some(a.authorization)
    requires LoadAttempt(db).Present? && !LoadAttempt(db).value.acknowledged && LoadAttempt(db).value.startedAt <= at
    ensures Stands(StepContinue(s, w, Success(0, 0, at)), w,
      db.(attempt := Some(LoadAttempt(db).value.(acknowledged := true, updatedAt := at))), worker.(pc := ToFinish(true)))
  {
  }

  /** Nothing but the restart attempt has changed, and that has been acknowledged. */
  predicate AttemptAcknowledged(db: Db, db': Db) {
    Acknowledged(db') && db' == db.(attempt := db'.attempt)
  }

  /** A request in hand can still be sent, answered and acknowledged. */
  lemma Acknowledges(r: Route, w: nat) returns (q: Route)
    requires Sound(r.from) && w in r.End().workers && InHand(r.End().workers[w].pc)
    requires r.End().db.attempt.Some? && !r.End().db.attempt.value.acknowledged
    ensures q.from == r.from && AttemptAcknowledged(r.End().db, q.End().db)
    ensures Stands(q.End(), w, q.End().db, r.End().workers[w].(pc := ToFinish(true)))
    decreases if r.End().workers[w].pc.ConfirmStart? then 2 else if r.End().workers[w].pc.MaySend? then 1 else 0
  {
    RouteSound(r);
    var s, worker := r.End(), r.End().workers[w];
    assert WorkerOk(s, w) && AnswerFits(s, w);
    JournalLoads(s.db);
    var a := worker.pc.attempt;
    if worker.pc.Answered? {
      var at := s.db.attempt.value.startedAt;
      RestartAcknowledged(s, w, s.db, worker, a, at);
      q := Continues(r, w, Success(0, 0, at));
    } else {
      if worker.pc.ConfirmStart? { StartConfirmed(s, w, s.db, worker, a); } else { RestartSent(s, w, s.db, worker, a); }
      q := Continues(r, w, FINE);
      q := Acknowledges(q, w);
    }
  }

  lemma StartsRestart(r: Route, w: nat, worker: Worker) returns (q: Route)
    requires Sound(r.from) && Started(r.End(), w, r.End().db, worker, Restart, worker.when)
    requires r.End().db.authorization.Some? && r.End().db.attempt.None?
    ensures q.from == r.from && Acknowledged(q.End().db) && q.End().db == r.End().db.(attempt := q.End().db.attempt)
    ensures Stands(q.End(), w, q.End().db, worker.(pc := ToFinish(true)))
  {
    RouteSound(r);
    var db := r.End().db;
    JournalLoads(db);
    BeginsRestart(r.End(), w, db, worker);
    q := Continues(r, w, FINE);
    StartRecorded(q.End(), w, db, worker.(pc := RecordStart(db.authorization.value)), db.authorization.value);
    q := Continues(q, w, FINE);
    q := Acknowledges(q, w);
  }

  lemma RepeatsRestart(r: Route, w: nat, worker: Worker) returns (q: Route)
    requires Sound(r.from) && Started(r.End(), w, r.End().db, worker, Restart, worker.when)
    requires r.End().db.authorization.Some? && Acknowledged(r.End().db)
    ensures q.from == r.from && q.End().db == r.End().db && Stands(q.End(), w, q.End().db, worker.(pc := ToFinish(true)))
  {
    RouteSound(r);
    JournalLoads(r.End().db);
    BeginsRestart(r.End(), w, r.End().db, worker);
    q := Continues(r, w, FINE);
  }

  /** The authorization is on record, given now if need be. */
  lemma Authorizes(r: Route) returns (q: Route)
    ensures q.from == r.from && q.End().db.authorization.Some?
    ensures q.End().db == r.End().db.(authorization := q.End().db.authorization) && q.End().workers == r.End().workers
  {
    q := r;
    if r.End().db.authorization.None? { q := Go(r, Authorize(0)); }
  }

  /** A live restart row can be passed while the request is not on record, or acknowledged. */
  lemma RestartPasses(r: Route) returns (q: Route)
    requires Sound(r.from) && Live(r.End().db, Restart) && (r.End().db.attempt.None? || Acknowledged(r.End().db))
    ensures q.from == r.from && Live(q.End().db, Observe)
    ensures q.End().db.observations == r.End().db.observations && q.End().db.finalization == r.End().db.finalization
  {
    q := Authorizes(r);
    var w, worker;
    q, w, worker := Begins(q, Restart, 0);
    if q.End().db.attempt.None? {
      q := StartsRestart(q, w, worker);
    } else {
      q := RepeatsRestart(q, w, worker);
    }
    RouteSound(q);
    JournalLoads(q.End().db);
    q := HandsOff(q, w, worker.(pc := ToFinish(true)), true);
  }

  // ---------------------------------------------------------------- the health window

  lemma RestartIsProved(s: System)
    requires Inv(s) && Observe in s.db.work
    ensures Acknowledged(s.db) && RestartProved(s.db) && LoadAttempt(s.db) == Present(s.db.attempt.value)
  {
    var p := ComesAfter(s.db, Observe);
    LeadsOnlyTo(s.db, p, Observe);
    JournalLoads(s.db);
  }

  /** A pass of the health lane at its beginning, everything before it proved. */
  lemma BeginsHealth(r: Route, bound: int) returns (q: Route, w: nat, worker: Worker)
    requires Sound(r.from) && Live(r.End().db, Observe)
    ensures q.from == r.from && OnlyRow(r.End().db, q.End().db, Observe) && Sound(q.End())
    ensures Deployment.Claimed(q.End().db, Observe, worker.attempts)
    ensures Stands(q.End(), w, q.End().db, worker) && worker.kind == Observe && bound <= worker.when && 30 <= worker.seconds <= 3600
    ensures Acknowledged(q.End().db) && worker.pc == BeginObserve(q.End().db)
  {
    var begun;
    q, w, begun := Begins(r, Observe, bound);
    RouteSound(q);
    RestartIsProved(q.End());
    BegunLooks(q.End(), w, q.End().db, begun, FINE);
    worker := begun.(pc := BeginObserve(q.End().db));
    q := Continues(q, w, FINE);
    RouteSound(q);
  }

  /** Nothing but the health record, the window and the row of the lane has changed, and the row is live. */
  predicate HealthMoved(db: Db, db': Db) {
    db' == db.(health := db'.health, window := db'.window, work := db'.work) && Live(db', Observe)
  }

  lemma FirstProbeMade(r: Route, w: nat, worker: Worker) returns (q: Route)
    requires Sound(r.End()) && r.End().db.health.None? && Acknowledged(r.End().db)
    requires Stands(r.End(), w, r.End().db, worker) && worker.pc == ProbeInitial && r.End().db.attempt.value.updatedAt <= worker.when
    ensures q.from == r.from
    ensures
      var h := Health(r.End().db.attempt.value, worker.when);
      Stands(q.End(), w, r.End().db.(health := Some(h)), worker.(pc := ToDefer, probes := worker.probes + 1))
  {
    var db := r.End().db;
    JournalLoads(db);
    InitialProbed(r.End(), w, db, worker, FINE);
    q := Continues(r, w, FINE);
    var h := Health(db.attempt.value, worker.when);
    InitialRecordedStep(q.End(), w, db, worker.(probes := worker.probes + 1, pc := RecordInitial(h)), h, FINE);
    q := Continues(q, w, FINE);
  }

  lemma FirstProbe(r: Route) returns (q: Route)
    requires Sound(r.from) && Live(r.End().db, Observe) && r.End().db.health.None? && Acknowledged(r.End().db)
    ensures q.from == r.from && HealthMoved(r.End().db, q.End().db) && q.End().db.health.Some?
  {
    var w, worker;
    q, w, worker := BeginsHealth(r, r.End().db.attempt.value.updatedAt);
    JournalLoads(q.End().db);
    q := FirstProbeMade(q, w, worker);
    DeferredStep(q.End(), w, q.End().db, worker.(pc := ToDefer, probes := worker.probes + 1), FINE);
    q := Continues(q, w, FINE);
  }

  lemma WindowIsOpened(r: Route, w: nat, worker: Worker) returns (q: Route)
    requires Sound(r.End()) && r.End().db.health.Some? && r.End().db.window.None?
    requires Stands(r.End(), w, r.End().db, worker) && worker.pc == LookWindow && 30 <= worker.seconds
    requires r.End().db.health.value.observedAt <= worker.when
    ensures q.from == r.from
    ensures
      var win := Opened(worker, r.End().db.health.value);
      Stands(q.End(), w, r.End().db.(window := Some(win)), worker.(pc := ToSchedule(win.deadline)))
  {
    var db := r.End().db;
    var h := db.health.value;
    JournalLoads(db);
    WindowLooked(r.End(), w, db, worker, FINE);
    q := Continues(r, w, FINE);
    AdvanceLooked(q.End(), w, db, worker.(pc := Advance(true)), true, FINE);
    q := Continues(q, w, FINE);
    WindowOpened(q.End(), w, db, worker.(pc := OpenWindow(h, true)), h, true, FINE);
    q := Continues(q, w, FINE);
  }

  lemma OpensWindow(r: Route) returns (q: Route)
    requires Sound(r.from) && Live(r.End().db, Observe) && r.End().db.health.Some? && r.End().db.window.None?
    ensures q.from == r.from && HealthMoved(r.End().db, q.End().db) && q.End().db.health.Some? && q.End().db.window.Some?
  {
    var w, worker;
    q, w, worker := BeginsHealth(r, r.End().db.health.value.observedAt);
    JournalLoads(q.End().db);
    q := WindowIsOpened(q, w, worker);
    RouteSound(q);
    JournalLoads(q.End().db);
    var deadline := q.End().db.window.value.deadline;
    ScheduledStep(q.End(), w, q.End().db, worker.(pc := ToSchedule(deadline)), deadline, FINE);
    q := Continues(q, w, FINE);
  }

  lemma WindowIsCompleted(r: Route, w: nat, worker: Worker) returns (q: Route)
    requires Sound(r.End()) && r.End().db.window.Some? && r.End().db.window.value.completedAt.None?
    requires Stands(r.End(), w, r.End().db, worker) && worker.pc == LookWindow && r.End().db.window.value.deadline <= worker.when
    ensures q.from == r.from
    ensures
      var win := r.End().db.window.value.(completedAt := Some(worker.when));
      Stands(q.End(), w, r.End().db.(window := Some(win)), worker.(pc := ToFinish(true), probes := worker.probes + 1))
  {
    var db := r.End().db;
    var win := db.window.value;
    JournalLoads(db);
    WindowLooked(r.End(), w, db, worker, FINE);
    q := Continues(r, w, FINE);
    AdvanceLooked(q.End(), w, db, worker.(pc := Advance(false)), false, FINE);
    q := Continues(q, w, FINE);
    FinalProbed(q.End(), w, db, worker.(pc := ProbeFinal(win, false)), win, false, FINE);
    q := Continues(q, w, FINE);
    CompletionRecorded(q.End(), w, db, worker.(pc := RecordComplete(win, false), probes := worker.probes + 1), win, false, FINE);
    q := Continues(q, w, FINE);
  }

  /** With the window open or completed, the health lane can hand off. */
  lemma WindowPasses(r: Route) returns (q: Route)
    requires Sound(r.from) && Live(r.End().db, Observe) && r.End().db.health.Some? && r.End().db.window.Some?
    ensures q.from == r.from && Live(q.End().db, Supervisor)
    ensures q.End().db.observations == r.End().db.observations && q.End().db.finalization == r.End().db.finalization
  {
    var w, worker;
    q, w, worker := BeginsHealth(r, r.End().db.window.value.deadline);
    JournalLoads(q.End().db);
    if q.End().db.window.value.completedAt.None? {
      q := WindowIsCompleted(q, w, worker);
      worker := worker.(pc := ToFinish(true), probes := worker.probes + 1);
    } else {
      WindowLooked(q.End(), w, q.End().db, worker, FINE);
      q := Continues(q, w, FINE);
      worker := worker.(pc := ToFinish(true));
    }
    RouteSound(q);
    JournalLoads(q.End().db);
    q := HandsOff(q, w, worker, true);
  }

  /** A live health row can be passed, in as many passes as it takes. */
  lemma HealthPasses(r: Route) returns (q: Route)
    requires Sound(r.from) && Live(r.End().db, Observe)
    ensures q.from == r.from && Live(q.End().db, Supervisor)
    ensures q.End().db.observations == r.End().db.observations && q.End().db.finalization == r.End().db.finalization
  {
    q := r;
    RouteSound(q);
    RestartIsProved(q.End());
    if q.End().db.health.None? { q := FirstProbe(q); }
    if q.End().db.window.None? { q := OpensWindow(q); }
    q := WindowPasses(q);
  }

  // ---------------------------------------------------------------- finalization and the end

  predicate Ended(db: Db) {
    Succeeds(db, Promote) || Succeeds(db, Rollback)
  }

  lemma {:induction false} DecisionExists(db: Db, k: Kind, last: Kind, evidence: seq<Observation>)
    requires JournalOk(db) && ObservationsOk(db) && 4 <= Depth(k) <= Depth(last) <= 8
    requires last in db.observations && (last == Assertions || db.observations[last].failed != 0)
    ensures DecideFrom(db, k, evidence).Some?
    decreases 8 - Depth(k)
  {
    if Depth(k) == Depth(last) { SameDepth(k, last); } else { DeeperNeedsPassed(db, k, last); }
    ObservationLoads(db, k);
    var o := db.observations[k];
    assert Bound(db, k);
    if k != Assertions {
      if o.failed != 0 { FailedStaysLast(db, k); } else { DecisionExists(db, Later(k), last, evidence + [o]); }
    }
  }

  lemma FinalizeDecides(db: Db)
    requires DbInv(db) && Finalize in db.work
    ensures Decide(db).Some?
  {
    var p := ComesAfter(db, Finalize);
    LeadsOnlyTo(db, p, Finalize);
    DecisionExists(db, StartupErrors, p, []);
  }

  lemma BeginsFinalize(s: System, w: nat, db: Db, worker: Worker)
    requires Stands(s, w, db, worker) && worker.pc == Begun && worker.kind == Finalize
    ensures Stands(StepContinue(s, w, FINE), w, db, worker.(pc := BeginFinalize(db, worker.when)))
  {
  }

  lemma FinalRecorded(s: System, w: nat, db: Db, worker: Worker, f: Finalization)
    requires Stands(s, w, db, worker) && worker.pc == RecordFinal(f) && Deployment.Matches(f, Decide(db)) && LoadFinalization(db).Absent?
    ensures Stands(StepContinue(s, w, FINE), w, db.(finalization := Some(f)), worker.(pc := ToFinish(f.failure.None?)))
  {
  }

  lemma FinalizesOnce(r: Route, w: nat, worker: Worker) returns (q: Route)
    requires Sound(r.from) && Started(r.End(), w, r.End().db, worker, Finalize, worker.when)
    requires Decide(r.End().db).Some? && Decide(r.End().db).value.terminalAt <= worker.when
    ensures q.from == r.from && q.End().db == r.End().db.(finalization := q.End().db.finalization) && q.End().db.finalization.Some?
    ensures Stands(q.End(), w, q.End().db, worker.(pc := ToFinish(q.End().db.finalization.value.failure.None?)))
  {
    RouteSound(r);
    var db := r.End().db;
    FinalizationLoads(db);
    BeginsFinalize(r.End(), w, db, worker);
    q := Continues(r, w, FINE);
    if db.finalization.None? {
      var f := Finalization(Decide(db).value.failure, Decide(db).value.evidence, worker.when);
      FinalRecorded(q.End(), w, db, worker.(pc := RecordFinal(f)), f);
      q := Continues(q, w, FINE);
    }
  }

  lemma FinalizePasses(r: Route) returns (q: Route, next: Kind)
    requires Sound(r.from) && Live(r.End().db, Finalize)
    ensures q.from == r.from && Live(q.End().db, next) && (next == Promote || next == Rollback) && q.End().db.observations == r.End().db.observations
  {
    RouteSound(r);
    FinalizeDecides(r.End().db);
    var w, worker;
    q, w, worker := Begins(r, Finalize, Decide(r.End().db).value.terminalAt);
    SameDecision(r.End().db, q.End().db, StartupErrors, []);
    q := FinalizesOnce(q, w, worker);
    q, next := FinalizedHandsOff(q, w, worker);
  }

  lemma FinalOutcome(r: Route)
    requires Sound(r.from) && r.End().db.finalization.Some?
    ensures OutcomeProved(r.End().db, Finalize, r.End().db.finalization.value.failure.None?)
  {
    RouteSound(r);
    FinalizationLoads(r.End().db);
  }

  lemma FinalizedHandsOff(r: Route, w: nat, worker: Worker) returns (q: Route, next: Kind)
    requires Sound(r.from) && r.End().db.finalization.Some? && worker.kind == Finalize
    requires Stands(r.End(), w, r.End().db, worker.(pc := ToFinish(r.End().db.finalization.value.failure.None?)))
    requires Deployment.Claimed(r.End().db, Finalize, worker.attempts)
    ensures q.from == r.from && Live(q.End().db, next) && (next == Promote || next == Rollback) && q.End().db.observations == r.End().db.observations
  {
    FinalOutcome(r);
    var passed := r.End().db.finalization.value.failure.None?;
    q := HandsOff(r, w, worker.(pc := ToFinish(passed)), passed);
    next := if passed then Promote else Rollback;
  }

  lemma BeginsEnd(s: System, w: nat, db: Db, worker: Worker)
    requires Stands(s, w, db, worker) && worker.pc == Begun && (worker.kind == Promote || worker.kind == Rollback)
    ensures Stands(StepContinue(s, w, FINE), w, db, worker.(pc := ToComplete))
  {
  }

  lemma EndCompleted(s: System, w: nat, db: Db, worker: Worker)
    requires Stands(s, w, db, worker) && worker.pc == ToComplete && (worker.kind == Promote || worker.kind == Rollback)
    requires Deployment.Claimed(db, worker.kind, worker.attempts)
    ensures Succeeds(StepContinue(s, w, FINE).db, worker.kind) && StepContinue(s, w, FINE).db.observations == db.observations
  {
  }

  lemma EndPasses(r: Route, k: Kind) returns (q: Route)
    requires Sound(r.from) && Live(r.End().db, k) && Depth(k) == 10
    ensures q.from == r.from && Ended(q.End().db) && q.End().db.observations == r.End().db.observations
  {
    var w, worker;
    q, w, worker := Begins(r, k, 0);
    BeginsEnd(q.End(), w, q.End().db, worker);
    q := Continues(q, w, FINE);
    EndCompleted(q.End(), w, q.End().db, worker.(pc := ToComplete));
    q := Continues(q, w, FINE);
  }
}

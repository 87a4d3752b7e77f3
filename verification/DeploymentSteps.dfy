/** The invariant of the post-Apply step machine and the proof that every step keeps it, whichever
    worker takes it and whatever the outside world answers. */
module DeploymentSteps {
  import opened Options
  import opened Candidate
  import opened Deployment
  import opened DeploymentInvariant
  import opened DeploymentRuns

  /** A pass that may still probe the Core API has not probed it yet. */
  predicate MayProbe(pc: Pc) {
    pc.Begun? || pc.ProbeInitial? || pc.LookWindow? || pc.Advance? || pc.OpenWindow? || pc.ProbeFinal?
  }

  predicate HoldsPermit(pc: Pc) {
    pc.ConfirmStart? || pc.MaySend?
  }

  ghost predicate PcOk(s: System, worker: Worker) {
    && 30 <= worker.seconds <= 3600 && worker.probes <= 1 && (MayProbe(worker.pc) ==> worker.probes == 0)
    && (HoldsPermit(worker.pc) ==> s.db.attempt == Some(worker.pc.attempt) && !worker.pc.attempt.acknowledged && s.sends == 0)
    && (worker.pc.Answered? ==> s.responses == 1)
    && (worker.pc.RecordInitial? ==> worker.pc.health.observedAt in s.healthyAt)
    && (worker.pc.RecordComplete? ==> worker.when in s.healthyAt)
  }

  ghost predicate WorkerOk(s: System, w: nat) {
    w in s.workers ==> PcOk(s, s.workers[w])
  }

  predicate OnePermit(s: System, v: nat, w: nat) {
    v in s.workers && w in s.workers && HoldsPermit(s.workers[v].pc) && HoldsPermit(s.workers[w].pc) ==> v == w
  }

  ghost predicate WorkersOk(s: System) {
    && (forall w {:trigger WorkerOk(s, w)} :: WorkerOk(s, w))
    && (forall v, w {:trigger OnePermit(s, v, w)} :: OnePermit(s, v, w))
  }

  /** Health records are dated by successful probes. */
  predicate HealthDated(db: Db, healthyAt: set<int>) {
    && (db.health.Some? ==> db.health.value.observedAt in healthyAt)
    && (db.window.Some? && db.window.value.completedAt.Some? ==> db.window.value.completedAt.value in healthyAt)
  }

  predicate SendsOk(s: System) {
    && s.responses <= s.sends <= 1
    && (s.sends == 1 ==> s.db.attempt.Some?)
    && (s.db.attempt.Some? && s.db.attempt.value.acknowledged ==> s.responses == 1)
  }

  ghost predicate Inv(s: System) {
    DbInv(s.db) && WorkersOk(s) && SendsOk(s) && HealthDated(s.db, s.healthyAt)
  }

  // ---------------------------------------------------------------- moving one worker

  /** The other workers are unaffected: their permits and what they have probed still stand. */
  predicate LeavesOthers(s: System, s': System) {
    && s.healthyAt <= s'.healthyAt && (s.responses == 1 ==> s'.responses == 1)
    && s'.db.attempt == s.db.attempt && s'.sends == s.sends
  }

  lemma PcStable(s: System, s': System, worker: Worker)
    requires PcOk(s, worker)
    requires LeavesOthers(s, s')
             || (s.healthyAt <= s'.healthyAt && (s.responses == 1 ==> s'.responses == 1) && !HoldsPermit(worker.pc))
    ensures PcOk(s', worker)
  {
  }

  lemma QuietMove(s: System, s': System, w: nat)
    requires WorkersOk(s) && w in s.workers && LeavesOthers(s, s')
    requires w in s'.workers && s'.workers == s.workers[w := s'.workers[w]] && PcOk(s', s'.workers[w])
    requires HoldsPermit(s'.workers[w].pc) ==> HoldsPermit(s.workers[w].pc)
    ensures WorkersOk(s')
  {
    forall v ensures WorkerOk(s', v) {
      assert WorkerOk(s, v);
      if v != w && v in s.workers { PcStable(s, s', s.workers[v]); }
    }
    forall u, v ensures OnePermit(s', u, v) {
      assert OnePermit(s, u, v);
    }
  }

  /** No worker but `w` holds a permit. */
  ghost predicate SoleHolder(s: System, w: nat) {
    forall v {:trigger OnePermit(s, v, v)} :: v in s.workers && v != w ==> !HoldsPermit(s.workers[v].pc)
  }

  lemma SoleMove(s: System, s': System, w: nat)
    requires WorkersOk(s) && w in s.workers && SoleHolder(s, w)
    requires s.healthyAt <= s'.healthyAt && (s.responses == 1 ==> s'.responses == 1)
    requires w in s'.workers && s'.workers == s.workers[w := s'.workers[w]] && PcOk(s', s'.workers[w])
    ensures WorkersOk(s')
  {
    forall v ensures WorkerOk(s', v) {
      assert WorkerOk(s, v) && OnePermit(s, v, v);
      if v != w && v in s.workers { PcStable(s, s', s.workers[v]); }
    }
    forall u, v ensures OnePermit(s', u, v) {
      assert OnePermit(s, u, u) && OnePermit(s, v, v);
    }
  }

  lemma NoHolderBeforeStart(s: System, w: nat)
    requires WorkersOk(s) && (s.db.attempt.None? || s.sends != 0)
    ensures SoleHolder(s, w)
  {
    forall v | v in s.workers && v != w ensures !HoldsPermit(s.workers[v].pc) {
      assert WorkerOk(s, v);
    }
  }

  lemma HolderIsSole(s: System, w: nat)
    requires WorkersOk(s) && w in s.workers && HoldsPermit(s.workers[w].pc)
    ensures SoleHolder(s, w)
  {
    forall v | v in s.workers && v != w ensures !HoldsPermit(s.workers[v].pc) {
      assert OnePermit(s, v, w);
    }
  }

  /** Program counters about which nothing needs to be known. */
  predicate Plain(worker: Worker, pc: Pc) {
    !HoldsPermit(pc) && !pc.Answered? && !pc.RecordInitial? && !pc.RecordComplete? && (MayProbe(pc) ==> worker.probes == 0)
  }

  ghost predicate Kept(s: System, s': System) {
    Inv(s') && Extends(s.db, s'.db)
  }

  lemma Moves(s: System, w: nat, pc: Pc)
    requires Inv(s) && w in s.workers && Plain(s.workers[w], pc)
    ensures Kept(s, Goto(s, w, pc))
  {
    assert WorkerOk(s, w);
    QuietMove(s, Goto(s, w, pc), w);
  }

  lemma Writes(s: System, w: nat, db: Db, pc: Pc)
    requires Inv(s) && w in s.workers && Plain(s.workers[w], pc)
    requires DbInv(db) && Extends(s.db, db) && db.attempt == s.db.attempt && HealthDated(db, s.healthyAt)
    ensures Kept(s, Goto(s.(db := db), w, pc))
  {
    assert WorkerOk(s, w);
    QuietMove(s, Goto(s.(db := db), w, pc), w);
  }

  lemma Commits(s: System, w: nat, t: Option<Db>, pc: Pc)
    requires Inv(s) && w in s.workers && (t.Some? ==> Plain(s.workers[w], pc))
    requires t.Some? ==> DbInv(t.value) && Extends(s.db, t.value) && t.value.attempt == s.db.attempt && HealthDated(t.value, s.healthyAt)
    ensures Kept(s, Commit(s, w, t, pc))
  {
    if t.Some? { Writes(s, w, t.value, pc); } else { Moves(s, w, ToFail(false)); }
  }

  // ---------------------------------------------------------------- the restart steps

  lemma RecordStartKeeps(s: System, w: nat, authorization: int)
    requires Inv(s) && w in s.workers
    ensures Kept(s, StepRecordStart(s, w, authorization))
  {
    var requested := Attempt(authorization, false, s.workers[w].when, s.workers[w].when);
    var t := TxStart(s.db, requested);
    assert WorkerOk(s, w);
    JournalLoads(s.db);
    if s.db.attempt.None? && t.Some? {
      TxStartKeeps(s.db, requested);
      RecordsGrew(s.db, t.value);
      NoHolderBeforeStart(s, w);
      SoleMove(s, Goto(s.(db := t.value), w, ConfirmStart(requested)), w);
    } else if s.db.attempt.None? {
      Moves(s, w, ToFail(false));
    } else {
      Moves(s, w, if s.db.attempt.value.acknowledged then ToFinish(true) else ToFail(false));
    }
  }

  lemma ConfirmStartKeeps(s: System, w: nat, a: Attempt)
    requires Inv(s) && w in s.workers && s.workers[w].pc == ConfirmStart(a)
    ensures Kept(s, StepConfirmStart(s, w, a))
  {
    assert WorkerOk(s, w);
    QuietMove(s, StepConfirmStart(s, w, a), w);
  }

  lemma SendKeeps(s: System, w: nat, a: Attempt, answer: Answer)
    requires Inv(s) && w in s.workers && s.workers[w].pc == MaySend(a)
    ensures Kept(s, StepSend(s, w, a, answer))
  {
    assert WorkerOk(s, w);
    HolderIsSole(s, w);
    SoleMove(s, StepSend(s, w, a, answer), w);
  }

  lemma AcknowledgeKeeps(s: System, w: nat, a: Attempt, answer: Answer)
    requires Inv(s) && w in s.workers && s.workers[w].pc == Answered(a)
    ensures Kept(s, StepAcknowledge(s, w, a, answer))
  {
    assert WorkerOk(s, w);
    if answer.Success? && TxAcknowledge(s.db, a.authorization, answer.at).Some? {
      var db := TxAcknowledge(s.db, a.authorization, answer.at).value;
      TxAcknowledgeKeeps(s.db, a.authorization, answer.at);
      RecordsGrew(s.db, db);
      NoHolderBeforeStart(s, w);
      SoleMove(s, Goto(s.(db := db), w, ToFinish(true)), w);
    } else {
      Moves(s, w, ToFail(false));
    }
  }

  lemma RestartStepKeeps(s: System, w: nat, answer: Answer)
    requires Inv(s) && w in s.workers
    ensures Kept(s, RestartStep(s, w, answer))
  {
    match s.workers[w].pc
    case RecordStart(authorization) => RecordStartKeeps(s, w, authorization);
    case ConfirmStart(a) => ConfirmStartKeeps(s, w, a);
    case MaySend(a) => SendKeeps(s, w, a, answer);
    case Answered(a) => AcknowledgeKeeps(s, w, a, answer);
    case _ =>
  }

  // ---------------------------------------------------------------- the health steps

  lemma ProbeKeeps(s: System, w: nat, answer: Answer, pc: Pc)
    requires Inv(s) && w in s.workers && MayProbe(s.workers[w].pc) && !MayProbe(pc) && !HoldsPermit(pc) && !pc.Answered?
    requires pc.RecordInitial? ==> pc.health.observedAt == s.workers[w].when
    ensures Kept(s, StepProbe(s, w, answer, pc))
  {
    assert WorkerOk(s, w);
    QuietMove(s, StepProbe(s, w, answer, pc), w);
  }

  lemma ProbeInitialKeeps(s: System, w: nat, answer: Answer)
    requires Inv(s) && w in s.workers && s.workers[w].pc.ProbeInitial?
    ensures Kept(s, StepProbeInitial(s, w, answer))
  {
    if !RestartProved(s.db) || LoadHealth(s.db).Invalid? {
      Moves(s, w, ToFail(false));
    } else if LoadHealth(s.db).Present? {
      Moves(s, w, ToDefer);
    } else {
      ProbeKeeps(s, w, answer, RecordInitial(Health(LoadAttempt(s.db).value, s.workers[w].when)));
    }
  }

  lemma RecordInitialKeeps(s: System, w: nat, h: Health)
    requires Inv(s) && w in s.workers && s.workers[w].pc == RecordInitial(h)
    ensures Kept(s, Commit(s, w, TxRecordHealth(s.db, h), ToDefer))
  {
    var t := TxRecordHealth(s.db, h);
    assert WorkerOk(s, w);
    if t.Some? {
      TxRecordHealthKeeps(s.db, h);
      RecordsGrew(s.db, t.value);
    }
    Commits(s, w, t, ToDefer);
  }

  lemma AdvanceIsPlain(s: System, w: nat, opening: bool)
    requires Inv(s) && w in s.workers && MayProbe(s.workers[w].pc)
    ensures Plain(s.workers[w], AfterAdvance(s.db, s.workers[w].when, opening))
    ensures forall win: Window :: Plain(s.workers[w], WithWindow(win, s.workers[w].when, opening))
  {
    assert WorkerOk(s, w);
  }

  lemma OpenWindowKeeps(s: System, w: nat, h: Health, opening: bool)
    requires Inv(s) && w in s.workers && s.workers[w].pc == OpenWindow(h, opening)
    ensures Kept(s, StepOpenWindow(s, w, h, opening))
  {
    var requested := Opened(s.workers[w], h);
    var t := TxOpenWindow(s.db, requested);
    assert WorkerOk(s, w);
    AdvanceIsPlain(s, w, opening);
    JournalLoads(s.db);
    if t.Some? {
      TxOpenWindowKeeps(s.db, requested);
      RecordsGrew(s.db, t.value);
    }
    Commits(s, w, t,
      if LoadWindow(s.db).Present? then WithWindow(LoadWindow(s.db).value, s.workers[w].when, opening)
      else Advanced(requested, false, opening));
  }

  lemma RecordCompleteKeeps(s: System, w: nat, win: Window, opening: bool)
    requires Inv(s) && w in s.workers && s.workers[w].pc == RecordComplete(win, opening)
    ensures Kept(s, StepRecordComplete(s, w, win, opening))
  {
    var t := TxCompleteWindow(s.db, win, s.workers[w].when);
    assert WorkerOk(s, w);
    if t.Some? {
      TxCompleteWindowKeeps(s.db, win, s.workers[w].when);
      RecordsGrew(s.db, t.value);
      JournalLoads(s.db);
    }
    Commits(s, w, t, Advanced(win, true, opening));
  }

  lemma ScheduleKeeps(s: System, w: nat, deadline: int)
    requires Inv(s) && w in s.workers
    ensures Kept(s, Commit(s, w, TxSchedule(s.db, s.workers[w].attempts, deadline, s.workers[w].when), Over))
  {
    TxScheduleKeeps(s.db, s.workers[w].attempts, deadline, s.workers[w].when);
    Commits(s, w, TxSchedule(s.db, s.workers[w].attempts, deadline, s.workers[w].when), Over);
  }

  lemma ReleaseKeeps(s: System, w: nat, row: Work)
    requires Inv(s) && w in s.workers && Claimed(s.db, s.workers[w].kind, s.workers[w].attempts) && row.status != Succeeded
    ensures Kept(s, Goto(s.(db := s.db.(work := s.db.work[s.workers[w].kind := row])), w, Over))
  {
    RowChangeKeeps(s.db, s.workers[w].kind, row);
    Writes(s, w, s.db.(work := s.db.work[s.workers[w].kind := row]), Over);
  }

  lemma DeferKeeps(s: System, w: nat)
    requires Inv(s) && w in s.workers
    ensures Kept(s, StepDefer(s, w))
  {
    var worker := s.workers[w];
    if Claimed(s.db, worker.kind, worker.attempts) {
      ReleaseKeeps(s, w, Deferred(s.db.work[worker.kind], worker.when));
    } else {
      Moves(s, w, ToFail(false));
    }
  }

  lemma LookWindowKeeps(s: System, w: nat)
    requires Inv(s) && w in s.workers && s.workers[w].pc.LookWindow?
    ensures Kept(s, Goto(s, w, AfterLookWindow(s.db, s.workers[w].when)))
  {
    assert WorkerOk(s, w);
    Moves(s, w, AfterLookWindow(s.db, s.workers[w].when));
  }

  lemma AdvanceKeeps(s: System, w: nat, opening: bool)
    requires Inv(s) && w in s.workers && s.workers[w].pc == Advance(opening)
    ensures Kept(s, Goto(s, w, AfterAdvance(s.db, s.workers[w].when, opening)))
  {
    AdvanceIsPlain(s, w, opening);
    Moves(s, w, AfterAdvance(s.db, s.workers[w].when, opening));
  }

  predicate RecordsHealth(pc: Pc) {
    pc.RecordInitial? || pc.OpenWindow? || pc.RecordComplete? || pc.ToSchedule? || pc.ToDefer?
  }

  lemma HealthRecordKeeps(s: System, w: nat, answer: Answer)
    requires Inv(s) && w in s.workers && RecordsHealth(s.workers[w].pc)
    ensures Kept(s, HealthStep(s, w, answer))
  {
    match s.workers[w].pc
    case RecordInitial(h) => RecordInitialKeeps(s, w, h);
    case OpenWindow(h, opening) => OpenWindowKeeps(s, w, h, opening);
    case RecordComplete(win, opening) => RecordCompleteKeeps(s, w, win, opening);
    case ToSchedule(deadline) => ScheduleKeeps(s, w, deadline);
    case ToDefer => DeferKeeps(s, w);
  }

  lemma HealthLookKeeps(s: System, w: nat, answer: Answer)
    requires Inv(s) && w in s.workers && OfHealth(s.workers[w].pc) && !RecordsHealth(s.workers[w].pc)
    ensures Kept(s, HealthStep(s, w, answer))
  {
    match s.workers[w].pc
    case ProbeInitial => ProbeInitialKeeps(s, w, answer);
    case LookWindow => LookWindowKeeps(s, w);
    case Advance(opening) => AdvanceKeeps(s, w, opening);
    case ProbeFinal(win, opening) => ProbeKeeps(s, w, answer, RecordComplete(win, opening));
  }

  lemma HealthStepKeeps(s: System, w: nat, answer: Answer)
    requires Inv(s) && w in s.workers && OfHealth(s.workers[w].pc)
    ensures Kept(s, HealthStep(s, w, answer))
  {
    if RecordsHealth(s.workers[w].pc) { HealthRecordKeeps(s, w, answer); } else { HealthLookKeeps(s, w, answer); }
  }

  // ---------------------------------------------------------------- observations, finalization and endings

  lemma BegunIsPlain(db: Db, worker: Worker)
    requires worker.probes == 0
    ensures Plain(worker, AfterBegun(db, worker))
  {
  }

  lemma BegunKeeps(s: System, w: nat)
    requires Inv(s) && w in s.workers && s.workers[w].pc.Begun?
    ensures Kept(s, Goto(s, w, AfterBegun(s.db, s.workers[w])))
  {
    assert WorkerOk(s, w);
    BegunIsPlain(s.db, s.workers[w]);
    Moves(s, w, AfterBegun(s.db, s.workers[w]));
  }

  lemma ProbeObservationKeeps(s: System, w: nat, prior: Prior, answer: Answer)
    requires Inv(s) && w in s.workers
    ensures Kept(s, StepProbeObservation(s, w, prior, answer))
  {
    var worker := s.workers[w];
    match answer
    case Success(expected, failed, _) =>
      if failed <= expected && PriorTime(prior) <= worker.when {
        Moves(s, w, RecordObserved(Observation(worker.kind, prior, worker.when, expected, failed)));
      } else {
        Moves(s, w, ToFail(false));
      }
    case Failure(transient) => Moves(s, w, ToFail(transient));
  }

  lemma RecordObservedKeeps(s: System, w: nat, o: Observation)
    requires Inv(s) && w in s.workers
    ensures Kept(s, StepRecordObserved(s, w, o))
  {
    if !Observes(o.kind) {
      Moves(s, w, ToFail(false));
    } else {
      var t := TxRecordObservation(s.db, o);
      if t.Some? {
        TxRecordObservationKeeps(s.db, o);
        RecordsGrew(s.db, t.value);
      }
      Commits(s, w, t, ToFinish(if LoadObservation(s.db, o.kind).Present? then LoadObservation(s.db, o.kind).value.Passed() else o.Passed()));
    }
  }

  lemma RecordFinalKeeps(s: System, w: nat, f: Finalization)
    requires Inv(s) && w in s.workers
    ensures Kept(s, StepRecordFinal(s, w, f))
  {
    var t := TxFinalize(s.db, f);
    if t.Some? {
      TxFinalizeKeeps(s.db, f);
      RecordsGrew(s.db, t.value);
    }
    Commits(s, w, t, ToFinish(if LoadFinalization(s.db).Present? then LoadFinalization(s.db).value.failure.None? else f.failure.None?));
  }

  lemma FinishKeeps(s: System, w: nat, passed: bool)
    requires Inv(s) && w in s.workers
    ensures Kept(s, Commit(s, w, TxHandoff(s.db, s.workers[w].kind, passed, s.workers[w].attempts, s.workers[w].when), Over))
  {
    TxHandoffKeeps(s.db, s.workers[w].kind, passed, s.workers[w].attempts, s.workers[w].when);
    Commits(s, w, TxHandoff(s.db, s.workers[w].kind, passed, s.workers[w].attempts, s.workers[w].when), Over);
  }

  lemma CompleteKeeps(s: System, w: nat)
    requires Inv(s) && w in s.workers
    ensures Kept(s, Commit(s, w, TxComplete(s.db, s.workers[w].kind, s.workers[w].attempts, s.workers[w].when), Over))
  {
    TxCompleteKeeps(s.db, s.workers[w].kind, s.workers[w].attempts, s.workers[w].when);
    Commits(s, w, TxComplete(s.db, s.workers[w].kind, s.workers[w].attempts, s.workers[w].when), Over);
  }

  lemma FailKeeps(s: System, w: nat, transient: bool)
    requires Inv(s) && w in s.workers
    ensures Kept(s, StepFail(s, w, transient))
  {
    var worker := s.workers[w];
    if Claimed(s.db, worker.kind, worker.attempts) && worker.attempts >= 1 {
      ReleaseKeeps(s, w, Failed(s.db.work[worker.kind], transient, worker.when));
    } else {
      Moves(s, w, Over);
    }
  }

  predicate Ending(pc: Pc) {
    pc.ToFinish? || pc.ToComplete? || pc.ToFail?
  }

  lemma EndingStepKeeps(s: System, w: nat, answer: Answer)
    requires Inv(s) && w in s.workers && Ending(s.workers[w].pc)
    ensures Kept(s, OtherStep(s, w, answer))
  {
    match s.workers[w].pc
    case ToFinish(passed) => FinishKeeps(s, w, passed);
    case ToComplete => CompleteKeeps(s, w);
    case ToFail(transient) => FailKeeps(s, w, transient);
  }

  lemma OtherStepKeeps(s: System, w: nat, answer: Answer)
    requires Inv(s) && w in s.workers
    ensures Kept(s, OtherStep(s, w, answer))
  {
    if Ending(s.workers[w].pc) {
      EndingStepKeeps(s, w, answer);
    } else {
      match s.workers[w].pc
      case Begun => BegunKeeps(s, w);
      case ProbeObservation(prior) => ProbeObservationKeeps(s, w, prior, answer);
      case RecordObserved(o) => RecordObservedKeeps(s, w, o);
      case RecordFinal(f) => RecordFinalKeeps(s, w, f);
      case _ =>
    }
  }

  lemma ContinueKeeps(s: System, w: nat, answer: Answer)
    requires Inv(s) && w in s.workers
    ensures Kept(s, StepContinue(s, w, answer))
  {
    if OfRestart(s.workers[w].pc) { RestartStepKeeps(s, w, answer); }
    else if OfHealth(s.workers[w].pc) { HealthStepKeeps(s, w, answer); }
    else { OtherStepKeeps(s, w, answer); }
  }

  // ---------------------------------------------------------------- the other steps

  lemma SameWorkers(s: System, s': System)
    requires WorkersOk(s) && LeavesOthers(s, s') && (forall w :: w in s'.workers ==> w in s.workers && s'.workers[w] == s.workers[w])
    ensures WorkersOk(s')
  {
    forall w ensures WorkerOk(s', w) {
      assert WorkerOk(s, w);
      if w in s'.workers { PcStable(s, s', s.workers[w]); }
    }
    forall v, w ensures OnePermit(s', v, w) { assert OnePermit(s, v, w); }
  }

  lemma RowSet(s: System, k: Kind, row: Work)
    requires Inv(s) && k in s.db.work && s.db.work[k].status != Succeeded && row.status != Succeeded
    ensures Kept(s, SetRow(s, k, row))
  {
    RowChangeKeeps(s.db, k, row);
    SameWorkers(s, SetRow(s, k, row));
  }

  lemma WorkerAdded(s: System, w: nat, worker: Worker)
    requires Inv(s) && w !in s.workers && worker.pc == Begun && worker.probes == 0 && 30 <= worker.seconds <= 3600
    ensures Inv(s.(workers := s.workers[w := worker]))
  {
    var s' := s.(workers := s.workers[w := worker]);
    forall v ensures WorkerOk(s', v) {
      assert WorkerOk(s, v);
      if v in s.workers { PcStable(s, s', s.workers[v]); }
    }
    forall u, v ensures OnePermit(s', u, v) { assert OnePermit(s, u, v); }
  }

  lemma BeginKeeps(s: System, w: nat, k: Kind, when: int, seconds: int)
    requires Inv(s)
    ensures Kept(s, StepBegin(s, w, k, when, seconds))
  {
    if !(w in s.workers || !(30 <= seconds <= 3600) || !ClaimableRow(s.db, k, when)) {
      var claimed := Claim(s.db.work[k], when);
      RowSet(s, k, claimed);
      WorkerAdded(SetRow(s, k, claimed), w, Worker(k, when, seconds, claimed.attempts, Begun, 0));
    } else {
      NothingChanges(s);
    }
  }

  lemma AuthorizeKeeps(s: System, record: int)
    requires Inv(s)
    ensures Kept(s, Step(s, Authorize(record)))
  {
    if s.db.authorization.None? {
      var db := s.db.(authorization := Some(record));
      JournalGrows(s.db, db);
      RecordsGrew(s.db, db);
      SameWorkers(s, s.(db := db));
    }
  }

  lemma EnqueueKeeps(s: System)
    requires Inv(s)
    ensures Kept(s, Step(s, EnqueueRestart))
  {
    if s.db.authorization.Some? && Restart !in s.db.work {
      var row := Work(Pending, 0, s.clock, s.clock, Some(s.clock));
      FirstRowKeeps(s.db, row);
      SameWorkers(s, SetRow(s, Restart, row));
    }
  }

  lemma StepKeeps(s: System, a: Action)
    requires Inv(s)
    ensures Kept(s, Step(s, a))
  {
    match a
    case Tick(_) => SameWorkers(s, Step(s, a));
    case Authorize(record) => AuthorizeKeeps(s, record);
    case EnqueueRestart => EnqueueKeeps(s);
    case Recover(k) => RecoverKeeps(s, k);
    case RetryBlocked(k) => RetryBlockedKeeps(s, k);
    case Begin(w, k, when, seconds) => BeginKeeps(s, w, k, when, seconds);
    case Crash(_) => SameWorkers(s, Step(s, a));
    case Continue(w, answer) => if w in s.workers { ContinueKeeps(s, w, answer); }
  }

  lemma SameRow(s: System, k: Kind)
    requires k in s.db.work
    ensures SetRow(s, k, s.db.work[k]) == s
  {
    assert s.db.work[k := s.db.work[k]] == s.db.work;
  }

  lemma NothingChanges(s: System)
    requires Inv(s)
    ensures Kept(s, s)
  {
  }

  /** The row as it was, or another one of a row that has not succeeded. */
  lemma RowSetOrSame(s: System, k: Kind, row: Work)
    requires Inv(s) && k in s.db.work
    requires row == s.db.work[k] || (s.db.work[k].status != Succeeded && row.status != Succeeded)
    ensures Kept(s, SetRow(s, k, row))
  {
    if row == s.db.work[k] {
      SameRow(s, k);
      NothingChanges(s);
    } else {
      RowSet(s, k, row);
    }
  }

  lemma RecoverKeeps(s: System, k: Kind)
    requires Inv(s)
    ensures Kept(s, Step(s, Recover(k)))
  {
    if k in s.db.work { RowSetOrSame(s, k, Recovered(s.db.work[k], s.clock)); } else { NothingChanges(s); }
  }

  lemma RetryBlockedKeeps(s: System, k: Kind)
    requires Inv(s)
    ensures Kept(s, Step(s, RetryBlocked(k)))
  {
    if k in s.db.work { RowSetOrSame(s, k, AdministrativelyRetried(s.db.work[k], s.clock)); } else { NothingChanges(s); }
  }

  lemma {:induction false} RunKeeps(s: System, actions: seq<Action>)
    requires Inv(s)
    ensures Kept(s, Run(s, actions))
    decreases |actions|
  {
    if actions != [] {
      StepKeeps(s, actions[0]);
      RunKeeps(Step(s, actions[0]), actions[1..]);
      ExtendsIsTransitive(s.db, Step(s, actions[0]).db, Run(s, actions).db);
    }
  }

  lemma ReachableInv(clock: int, actions: seq<Action>)
    ensures Inv(Run(Initial(clock), actions))
  {
    var s := Initial(clock);
    assert RowStates(s.db.work) == map[];
    forall v ensures WorkerOk(s, v) {}
    RunKeeps(s, actions);
  }
}

/** The post-Apply pipeline as a step machine. Any number of workers interleave; each runs one pass
    of the executor of its kind as a program counter, every read, transaction and external call being
    its own step, and may crash between any two. */
module DeploymentRuns {
  import opened Options
  import opened Candidate
  import opened Deployment

  datatype Pc =
    | Begun
    // restart
    | RecordStart(authorization: int)
    | ConfirmStart(attempt: Attempt)
    | MaySend(attempt: Attempt)
    | Answered(attempt: Attempt)
    // Core health
    | ProbeInitial
    | RecordInitial(health: Health)
    | LookWindow
    | Advance(opening: bool)
    | OpenWindow(health: Health, opening: bool)
    | ProbeFinal(window: Window, opening: bool)
    | RecordComplete(window: Window, opening: bool)
    | ToSchedule(deadline: int)
    | ToDefer
    // observations and finalization
    | ProbeObservation(prior: Prior)
    | RecordObserved(observation: Observation)
    | RecordFinal(finalization: Finalization)
    // endings
    | ToFinish(passed: bool)
    | ToComplete
    | ToFail(transient: bool)
    | Over

  datatype Worker = Worker(kind: Kind, when: int, seconds: int, attempts: nat, pc: Pc, probes: nat)

  /** What the outside world tells a step: an external call's answer, or the time. */
  datatype Answer = Success(expected: nat, failed: nat, at: int) | Failure(transient: bool)

  /** `sends` counts restart requests sent, `responses` valid responses to them, and `healthyAt` holds
      the reference times of the successful Core probes. */
  datatype System = System(
    db: Db, clock: int, workers: map<nat, Worker>, sends: nat, responses: nat, healthyAt: set<int>)

  datatype Action =
    | Tick(time: int)
    | Authorize(record: int)
    | EnqueueRestart
    | Recover(kind: Kind)
    | RetryBlocked(kind: Kind)
    | Begin(w: nat, kind: Kind, when: int, seconds: int)
    | Crash(w: nat)
    | Continue(w: nat, answer: Answer)

  // ---------------------------------------------------------------- one worker's steps

  function Goto(s: System, w: nat, pc: Pc): System
    requires w in s.workers
  {
    s.(workers := s.workers[w := s.workers[w].(pc := pc)])
  }

  /** A transaction that commits moves the worker on; one that rolls back fails the pass. */
  function Commit(s: System, w: nat, t: Option<Db>, pc: Pc): System
    requires w in s.workers
  {
    if t.Some? then Goto(s.(db := t.value), w, pc) else Goto(s, w, ToFail(false))
  }

  function BeginRestart(db: Db): Pc {
    if db.authorization.None? then ToFail(false)
    else match LoadAttempt(db)
      case Absent => RecordStart(db.authorization.value)
      case Present(a) => if a.acknowledged then ToFinish(true) else ToFail(false)
      case Invalid => ToFail(false)
  }

  function BeginObserve(db: Db): Pc {
    if !RestartProved(db) then ToFail(false)
    else match LoadHealth(db)
      case Absent => ProbeInitial
      case Present(_) => LookWindow
      case Invalid => ToFail(false)
  }

  function BeginObservation(db: Db, k: Kind): Pc
    requires Observes(k)
  {
    match LoadObservation(db, k)
    case Present(o) => if Prerequisite(db, k).Some? then ToFinish(o.Passed()) else ToFail(false)
    case Absent => if Prerequisite(db, k).Some? then ProbeObservation(Prerequisite(db, k).value) else ToFail(false)
    case Invalid => ToFail(false)
  }

  function BeginFinalize(db: Db, when: int): Pc {
    match LoadFinalization(db)
    case Present(f) => ToFinish(f.failure.None?)
    case Absent =>
      if Decide(db).Some? && Decide(db).value.terminalAt <= when
      then RecordFinal(Finalization(Decide(db).value.failure, Decide(db).value.evidence, when)) else ToFail(false)
    case Invalid => ToFail(false)
  }

  function AfterBegun(db: Db, worker: Worker): Pc {
    match worker.kind
    case Restart => BeginRestart(db)
    case Observe => BeginObserve(db)
    case Finalize => BeginFinalize(db, worker.when)
    case Promote => ToComplete
    case Rollback => ToComplete
    case _ => BeginObservation(db, worker.kind)
  }

  function StepRecordStart(s: System, w: nat, authorization: int): System
    requires w in s.workers
  {
    var requested := Attempt(authorization, false, s.workers[w].when, s.workers[w].when);
    match LoadAttempt(s.db)
    case Absent => Commit(s, w, TxStart(s.db, requested), ConfirmStart(requested))
    case Present(a) => Goto(s, w, if a.acknowledged then ToFinish(true) else ToFail(false))
    case Invalid => Goto(s, w, ToFail(false))
  }

  function StepConfirmStart(s: System, w: nat, a: Attempt): System
    requires w in s.workers
  {
    Goto(s, w, if LoadAttempt(s.db) == Present(a) then MaySend(a) else ToFail(false))
  }

  /** The one external restart request. */
  function StepSend(s: System, w: nat, a: Attempt, answer: Answer): System
    requires w in s.workers
  {
    var sent := s.(sends := s.sends + 1);
    match answer
    case Success(_, _, _) => Goto(sent.(responses := s.responses + 1), w, Answered(a))
    case Failure(_) => Goto(sent, w, ToFail(false))
  }

  function StepAcknowledge(s: System, w: nat, a: Attempt, answer: Answer): System
    requires w in s.workers
  {
    if answer.Success? then Commit(s, w, TxAcknowledge(s.db, a.authorization, answer.at), ToFinish(true))
    else Goto(s, w, ToFail(false))
  }

  /** A Core probe by this pass; a success is dated by the pass's reference time. */
  function StepProbe(s: System, w: nat, answer: Answer, pc: Pc): System
    requires w in s.workers
  {
    var worker := s.workers[w].(probes := s.workers[w].probes + 1);
    match answer
    case Success(_, _, _) => s.(workers := s.workers[w := worker.(pc := pc)], healthyAt := s.healthyAt + {worker.when})
    case Failure(transient) => s.(workers := s.workers[w := worker.(pc := ToFail(transient))])
  }

  function StepProbeInitial(s: System, w: nat, answer: Answer): System
    requires w in s.workers
  {
    if !RestartProved(s.db) then Goto(s, w, ToFail(false))
    else match LoadHealth(s.db)
      case Present(_) => Goto(s, w, ToDefer)
      case Invalid => Goto(s, w, ToFail(false))
      case Absent => StepProbe(s, w, answer, RecordInitial(Health(LoadAttempt(s.db).value, s.workers[w].when)))
  }

  function AfterLookWindow(db: Db, when: int): Pc {
    match LoadWindow(db)
    case Absent => Advance(true)
    case Present(win) =>
      if win.completedAt.Some? then ToFinish(true)
      else if when < win.deadline then ToSchedule(win.deadline)
      else Advance(false)
    case Invalid => ToFail(false)
  }

  /** Where `advance_core_health_window_once` goes once it holds an existing window. */
  function WithWindow(win: Window, when: int, opening: bool): Pc {
    if win.completedAt.Some? then Advanced(win, true, opening)
    else if when < win.startedAt then ToFail(false)
    else if when < win.deadline then Advanced(win, false, opening)
    else ProbeFinal(win, opening)
  }

  /** What the pass does with the answer of `advance_core_health_window_once`. */
  function Advanced(win: Window, healthy: bool, opening: bool): Pc {
    if opening then ToSchedule(win.deadline) else if healthy then ToFinish(true) else ToFail(false)
  }

  function AfterAdvance(db: Db, when: int, opening: bool): Pc {
    if !LoadHealth(db).Present? then ToFail(false)
    else match LoadWindow(db)
      case Absent => if when < LoadHealth(db).value.observedAt then ToFail(false) else OpenWindow(LoadHealth(db).value, opening)
      case Present(win) => WithWindow(win, when, opening)
      case Invalid => ToFail(false)
  }

  function Opened(worker: Worker, health: Health): Window {
    Window(health, worker.when, worker.when + worker.seconds, None)
  }

  function StepOpenWindow(s: System, w: nat, health: Health, opening: bool): System
    requires w in s.workers
  {
    var requested := Opened(s.workers[w], health);
    var t := TxOpenWindow(s.db, requested);
    Commit(s, w, t,
      if LoadWindow(s.db).Present? then WithWindow(LoadWindow(s.db).value, s.workers[w].when, opening)
      else Advanced(requested, false, opening))
  }

  function StepRecordComplete(s: System, w: nat, win: Window, opening: bool): System
    requires w in s.workers
  {
    Commit(s, w, TxCompleteWindow(s.db, win, s.workers[w].when), Advanced(win, true, opening))
  }

  function StepProbeObservation(s: System, w: nat, prior: Prior, answer: Answer): System
    requires w in s.workers
  {
    var worker := s.workers[w];
    match answer
    case Success(expected, failed, _) =>
      if failed <= expected && PriorTime(prior) <= worker.when
      then Goto(s, w, RecordObserved(Observation(worker.kind, prior, worker.when, expected, failed)))
      else Goto(s, w, ToFail(false))
    case Failure(transient) => Goto(s, w, ToFail(transient))
  }

  /** Record what was observed, or replay what an earlier pass recorded. */
  function StepRecordObserved(s: System, w: nat, o: Observation): System
    requires w in s.workers
  {
    if !Observes(o.kind) then Goto(s, w, ToFail(false))
    else
      Commit(s, w, TxRecordObservation(s.db, o),
        ToFinish(if LoadObservation(s.db, o.kind).Present? then LoadObservation(s.db, o.kind).value.Passed() else o.Passed()))
  }

  function StepRecordFinal(s: System, w: nat, f: Finalization): System
    requires w in s.workers
  {
    Commit(s, w, TxFinalize(s.db, f),
      ToFinish(if LoadFinalization(s.db).Present? then LoadFinalization(s.db).value.failure.None? else f.failure.None?))
  }

  function StepFail(s: System, w: nat, transient: bool): System
    requires w in s.workers
  {
    var worker := s.workers[w];
    if Claimed(s.db, worker.kind, worker.attempts) && worker.attempts >= 1
    then Goto(s.(db := s.db.(work := s.db.work[worker.kind := Failed(s.db.work[worker.kind], transient, worker.when)])), w, Over)
    else Goto(s, w, Over)
  }

  function StepDefer(s: System, w: nat): System
    requires w in s.workers
  {
    var worker := s.workers[w];
    if Claimed(s.db, worker.kind, worker.attempts)
    then Goto(s.(db := s.db.(work := s.db.work[worker.kind := Deferred(s.db.work[worker.kind], worker.when)])), w, Over)
    else Goto(s, w, ToFail(false))
  }

  function HealthStep(s: System, w: nat, answer: Answer): System
    requires w in s.workers
  {
    var worker := s.workers[w];
    match worker.pc
    case ProbeInitial => StepProbeInitial(s, w, answer)
    case RecordInitial(h) => Commit(s, w, TxRecordHealth(s.db, h), ToDefer)
    case LookWindow => Goto(s, w, AfterLookWindow(s.db, worker.when))
    case Advance(opening) => Goto(s, w, AfterAdvance(s.db, worker.when, opening))
    case OpenWindow(h, opening) => StepOpenWindow(s, w, h, opening)
    case ProbeFinal(win, opening) => StepProbe(s, w, answer, RecordComplete(win, opening))
    case RecordComplete(win, opening) => StepRecordComplete(s, w, win, opening)
    case ToSchedule(deadline) => Commit(s, w, TxSchedule(s.db, worker.attempts, deadline, worker.when), Over)
    case ToDefer => StepDefer(s, w)
    case _ => s
  }

  function RestartStep(s: System, w: nat, answer: Answer): System
    requires w in s.workers
  {
    match s.workers[w].pc
    case RecordStart(authorization) => StepRecordStart(s, w, authorization)
    case ConfirmStart(a) => StepConfirmStart(s, w, a)
    case MaySend(a) => StepSend(s, w, a, answer)
    case Answered(a) => StepAcknowledge(s, w, a, answer)
    case _ => s
  }

  function OtherStep(s: System, w: nat, answer: Answer): System
    requires w in s.workers
  {
    var worker := s.workers[w];
    match worker.pc
    case Begun => Goto(s, w, AfterBegun(s.db, worker))
    case ProbeObservation(prior) => StepProbeObservation(s, w, prior, answer)
    case RecordObserved(o) => StepRecordObserved(s, w, o)
    case RecordFinal(f) => StepRecordFinal(s, w, f)
    case ToFinish(passed) => Commit(s, w, TxHandoff(s.db, worker.kind, passed, worker.attempts, worker.when), Over)
    case ToComplete => Commit(s, w, TxComplete(s.db, worker.kind, worker.attempts, worker.when), Over)
    case ToFail(transient) => StepFail(s, w, transient)
    case _ => s
  }

  predicate OfRestart(pc: Pc) {
    pc.RecordStart? || pc.ConfirmStart? || pc.MaySend? || pc.Answered?
  }

  predicate OfHealth(pc: Pc) {
    pc.ProbeInitial? || pc.RecordInitial? || pc.LookWindow? || pc.Advance? || pc.OpenWindow? || pc.ProbeFinal?
    || pc.RecordComplete? || pc.ToSchedule? || pc.ToDefer?
  }

  function StepContinue(s: System, w: nat, answer: Answer): System
    requires w in s.workers
  {
    if OfRestart(s.workers[w].pc) then RestartStep(s, w, answer)
    else if OfHealth(s.workers[w].pc) then HealthStep(s, w, answer)
    else OtherStep(s, w, answer)
  }

  // ---------------------------------------------------------------- runs

  predicate ClaimableRow(db: Db, k: Kind, when: int) {
    k in db.work && (db.work[k].status == Pending || db.work[k].status == Retry) && Due(db.work[k], when)
  }

  function SetRow(s: System, k: Kind, row: Work): System {
    s.(db := s.db.(work := s.db.work[k := row]))
  }

  function StepBegin(s: System, w: nat, k: Kind, when: int, seconds: int): System {
    if w in s.workers || !(30 <= seconds <= 3600) || !ClaimableRow(s.db, k, when) then s
    else
      var claimed := Claim(s.db.work[k], when);
      SetRow(s, k, claimed).(workers := s.workers[w := Worker(k, when, seconds, claimed.attempts, Begun, 0)])
  }

  function Step(s: System, a: Action): System {
    match a
    case Tick(time) => if s.clock <= time then s.(clock := time) else s
    case Authorize(record) => if s.db.authorization.None? then s.(db := s.db.(authorization := Some(record))) else s
    case EnqueueRestart =>
      if s.db.authorization.Some? && Restart !in s.db.work then SetRow(s, Restart, Work(Pending, 0, s.clock, s.clock, Some(s.clock))) else s
    case Recover(k) => if k in s.db.work then SetRow(s, k, Recovered(s.db.work[k], s.clock)) else s
    case RetryBlocked(k) => if k in s.db.work then SetRow(s, k, AdministrativelyRetried(s.db.work[k], s.clock)) else s
    case Begin(w, k, when, seconds) => StepBegin(s, w, k, when, seconds)
    case Crash(w) => s.(workers := s.workers - {w})
    case Continue(w, answer) => if w in s.workers then StepContinue(s, w, answer) else s
  }

  function Initial(clock: int): System {
    System(Db(None, None, None, None, map[], None, map[]), clock, map[], 0, 0, {})
  }

  function Run(s: System, actions: seq<Action>): System
    decreases |actions|
  {
    if actions == [] then s else Run(Step(s, actions[0]), actions[1..])
  }

  lemma {:induction false} RunConcat(s: System, a: seq<Action>, b: seq<Action>)
    ensures Run(s, a + b) == Run(Run(s, a), b)
    decreases |a|
  {
    if a == [] {
      assert a + b == b;
    } else {
      assert (a + b)[0] == a[0] && (a + b)[1..] == a[1..] + b;
      RunConcat(Step(s, a[0]), a[1..], b);
    }
  }
}

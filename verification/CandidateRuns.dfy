/** The candidate pipeline as a step machine over the durable rows of one candidate.

    Any number of workers interleave. Each holds only its claim, its reference time, the records it
    has read so far and, inside the backup stage, what the code is about to do next. Every database
    transaction, every read and every Supervisor call is its own step, and a worker may crash
    between any two of them. A step whose guard fails (where the code raises or rolls back) changes
    nothing. */
module CandidateRuns {
  import opened Options
  import opened Candidate
  import opened CandidateInvariant
  import opened BackupInventory

  /** A backup bearing the candidate's request name that the Supervisor has made. */
  datatype Made = Made(slug: string, date: int)

  datatype Ticket =
    | NoTicket
    | StartCommitted(started: Checkpoint)
    | MayCreate(started: Checkpoint)
    | CreateFailed(started: Checkpoint)
    | Created(started: Checkpoint, slug: string)
    | Reconciled(uncertain: Checkpoint, found: Option<string>)

  datatype Worker = Worker(
    when: int, claimed: Work, current: Option<Orchestration>, seen: map<Stage, Checkpoint>, ticket: Ticket)

  datatype System = System(
    id: Identity, clock: int, rows: Rows, workers: map<nat, Worker>, issued: nat, made: seq<Made>)

  datatype Outcome = Accept(evidence: Evidence) | Reject

  datatype Action =
    | Tick(time: int)
    | Detect
    | Recover
    | RetryBlocked
    | ApplyLane(work: Work)
    | Begin(w: nat, lane: Lane, when: int)
    | Crash(w: nat)
    | Register(w: nat)
    | ReadOrchestration(w: nat)
    | ReadCheckpoint(w: nat, stage: Stage)
    | RecordPlan(w: nat, stage: Stage)
    | Conclude(w: nat, stage: Stage, outcome: Outcome)
    | StartBackup(w: nat)
    | ConfirmStart(w: nat)
    | CreateBackup(w: nat, answer: Option<string>)
    | Materialise(slug: string)
    | DeclareUncertain(w: nat)
    | MarkStartedUncertain(w: nat)
    | Reconcile(w: nat, reachable: bool, items: seq<Item>)
    | FinishBackup(w: nat)
    | Defer(w: nat)
    | Fail(w: nat, transient: bool)

  // ---------------------------------------------------------------- steps

  function SetRows(s: System, t: Option<Rows>): System {
    if t.Some? then s.(rows := t.value) else s
  }

  function SetWork(s: System, w: Work): System {
    s.(rows := s.rows.(work := Some(w)))
  }

  function SetWorker(s: System, w: nat, worker: Worker): System {
    s.(workers := s.workers[w := worker])
  }

  /** The worker has read the current orchestration and it is in the phase `stage` runs in. */
  predicate At(worker: Worker, stage: Stage) {
    worker.current.Some? && worker.current.value.phase == PhaseBefore(stage)
    && worker.current.value.action == ActionOf(PhaseBefore(stage))
  }

  predicate SeenPredecessors(worker: Worker, stage: Stage) {
    HasAll(worker.seen, PredecessorStages(stage))
    && forall p :: p in PredecessorStages(stage) ==> worker.seen[p].phase == Done
  }

  /** An existing row is used only if it is bound to the current orchestration and predecessors. */
  predicate SeenBound(worker: Worker, stage: Stage) {
    && At(worker, stage) && SeenPredecessors(worker, stage) && stage in worker.seen
    && worker.seen[stage].orchestration == OrchestrationDigest(worker.current.value)
    && worker.seen[stage].predecessors == Digests(worker.seen, PredecessorStages(stage))
  }

  function StepBegin(s: System, w: nat, lane: Lane, when: int): System {
    if w in s.workers || when > s.clock || !Claimable(s.rows, lane, when) then s
    else
      var claimed := Claim(s.rows.work.value, when);
      SetWorker(SetWork(s, claimed), w, Worker(when, claimed, None, map[], NoTicket))
  }

  function StepReadOrchestration(s: System, w: nat): System
    requires w in s.workers
  {
    match LoadOrchestration(s.rows)
    case Present(o) => SetWorker(s, w, s.workers[w].(current := Some(o), seen := map[]))
    case _ => s
  }

  function StepReadCheckpoint(s: System, w: nat, stage: Stage): System
    requires w in s.workers
  {
    var worker := s.workers[w];
    if worker.current.None? then s else
    match LoadCheckpoint(s.rows, stage)
    case Present(c) => SetWorker(s, w, worker.(seen := worker.seen[stage := c]))
    case Absent => SetWorker(s, w, worker.(seen := worker.seen - {stage}))
    case Invalid => s
  }

  function StepRecordPlan(s: System, w: nat, stage: Stage): System
    requires w in s.workers
  {
    var worker := s.workers[w];
    if At(worker, stage) && SeenPredecessors(worker, stage) && stage !in worker.seen then
      var plan := Plan(stage, worker.current.value, Digests(worker.seen, PredecessorStages(stage)), worker.when);
      SetRows(s, TxPlan(s.rows, worker.current.value, plan))
    else s
  }

  /** The checkpoint a stage before Backup commits, if its constructor accepts the values. */
  function Finished(planned: Checkpoint, outcome: Outcome, when: int): Option<Checkpoint> {
    match outcome
    case Accept(e) =>
      if planned.stage == FetchStage || Complete(planned, e, when).Valid() then Some(Complete(planned, e, when)) else None
    case Reject =>
      if planned.stage == Semantic && Block(planned, when).Valid() then Some(Block(planned, when)) else None
  }

  /** The planned row a worker holds and the row it would commit for it. */
  function Conclusion(worker: Worker, stage: Stage, outcome: Outcome): (t: Option<(Checkpoint, Checkpoint)>)
    ensures t.Some? ==> t.value.0.stage == t.value.1.stage == stage != Backup && worker.current.Some?
    ensures t.Some? ==> Successor(worker.current.value, t.value.1, worker.when).Valid()
  {
    if stage != Backup && SeenBound(worker, stage) && worker.seen[stage].stage == stage then
      var finished := Finished(worker.seen[stage], outcome, worker.when);
      if finished.Some? && Successor(worker.current.value, finished.value, worker.when).Valid()
      then Some((worker.seen[stage], finished.value)) else None
    else None
  }

  function StepConclude(s: System, w: nat, stage: Stage, outcome: Outcome): System
    requires w in s.workers
  {
    var worker := s.workers[w];
    match Conclusion(worker, stage, outcome)
    case None => s
    case Some((planned, finished)) =>
      var current := worker.current.value;
      SetRows(s, TxAdvance(s.rows, planned, finished, current, Successor(current, finished, worker.when)))
  }

  function StepStartBackup(s: System, w: nat): System
    requires w in s.workers
  {
    var worker := s.workers[w];
    if SeenBound(worker, Backup) && worker.seen[Backup].phase == Planned && Start(worker.seen[Backup], worker.when).Valid() then
      var started := Start(worker.seen[Backup], worker.when);
      var t := TxTransition(s.rows, worker.seen[Backup], started);
      if t.None? then s
      else SetWorker(SetRows(s, t), w, worker.(ticket := StartCommitted(started)))
    else s
  }

  function StepConfirmStart(s: System, w: nat): System
    requires w in s.workers
  {
    var worker := s.workers[w];
    if !worker.ticket.StartCommitted? then s
    else if LoadCheckpoint(s.rows, Backup) == Present(worker.ticket.started)
    then SetWorker(s, w, worker.(ticket := MayCreate(worker.ticket.started)))
    else SetWorker(s, w, worker.(ticket := NoTicket))
  }

  /** The one external mutation. Without an answer the backup may still appear later. */
  function StepCreateBackup(s: System, w: nat, answer: Option<string>): System
    requires w in s.workers
  {
    var worker := s.workers[w];
    if !worker.ticket.MayCreate? then s
    else
      var called := s.(issued := s.issued + 1);
      match answer
      case Some(slug) =>
        SetWorker(called.(made := s.made + [Made(slug, s.clock)]), w, worker.(ticket := Created(worker.ticket.started, slug)))
      case None =>
        SetWorker(called, w, worker.(ticket := CreateFailed(worker.ticket.started)))
  }

  function StepDeclareUncertain(s: System, w: nat): System
    requires w in s.workers
  {
    var worker := s.workers[w];
    if !worker.ticket.CreateFailed? then s
    else SetWorker(SetRows(s, TxTransition(s.rows, worker.ticket.started, MarkUncertain(worker.ticket.started))),
                   w, worker.(ticket := NoTicket))
  }

  function StepMarkStartedUncertain(s: System, w: nat): System
    requires w in s.workers
  {
    var worker := s.workers[w];
    if SeenBound(worker, Backup) && worker.seen[Backup].phase == MutationStarted then
      SetRows(s, TxTransition(s.rows, worker.seen[Backup], MarkUncertain(worker.seen[Backup])))
    else s
  }

  /** Inventories list only backups the Supervisor made; some may have been deleted since. */
  predicate Honest(s: System, items: seq<Item>) {
    forall i :: 0 <= i < |items| && items[i].Named? && items[i].slug.Some? && items[i].date.Some? ==>
      Made(items[i].slug.value, items[i].date.value) in s.made
  }

  function StepReconcile(s: System, w: nat, reachable: bool, items: seq<Item>): System
    requires w in s.workers
  {
    var worker := s.workers[w];
    if SeenBound(worker, Backup) && worker.seen[Backup].phase == Uncertain && worker.seen[Backup].startedAt.Some?
       && Honest(s, items)
    then
      var found := if reachable then ReconciledSlug(items, worker.seen[Backup].startedAt.value) else None;
      SetWorker(s, w, worker.(ticket := Reconciled(worker.seen[Backup], found)))
    else s
  }

  /** The journal row and its replacement that a worker holding this ticket would commit. */
  function BackupEnding(t: Ticket, when: int): Option<(Checkpoint, Checkpoint)> {
    match t
    case Created(c, slug) => Some((c, Complete(c, Evidence(slug, true), when)))
    case Reconciled(c, Some(slug)) => Some((c, Complete(c, Evidence(slug, true), when)))
    case Reconciled(c, None) => Some((c, Block(c, when)))
    case _ => None
  }

  function StepFinishBackup(s: System, w: nat): System
    requires w in s.workers
  {
    var worker := s.workers[w];
    var ending := BackupEnding(worker.ticket, worker.when);
    if ending.Some? && At(worker, Backup) && ending.value.1.Valid() then
      var current := worker.current.value;
      var advanced := Successor(current, ending.value.1, worker.when);
      if !advanced.Valid() then s
      else SetWorker(SetRows(s, TxFinishBackup(s.rows, ending.value.0, ending.value.1, current, advanced, worker.when)),
                     w, worker.(ticket := NoTicket))
    else s
  }

  function StepRelease(s: System, w: nat, released: Work): System
    requires w in s.workers
  {
    if StillClaimed(s.rows, s.workers[w].claimed.attempts) then SetWork(s, released) else s
  }

  predicate ByWorker(a: Action) {
    !(a.Tick? || a.Detect? || a.Recover? || a.RetryBlocked? || a.ApplyLane? || a.Crash? || a.Begin? || a.Materialise?)
  }

  predicate OfBackup(a: Action) {
    a.StartBackup? || a.ConfirmStart? || a.CreateBackup? || a.DeclareUncertain? || a.MarkStartedUncertain? || a.Reconcile? || a.FinishBackup?
  }

  /** The steps of the backup stage after its plan. */
  function BackupStep(s: System, a: Action): System
    requires OfBackup(a) && a.w in s.workers
  {
    match a
    case StartBackup(w) => StepStartBackup(s, w)
    case ConfirmStart(w) => StepConfirmStart(s, w)
    case CreateBackup(w, answer) => StepCreateBackup(s, w, answer)
    case DeclareUncertain(w) => StepDeclareUncertain(s, w)
    case MarkStartedUncertain(w) => StepMarkStartedUncertain(s, w)
    case Reconcile(w, reachable, items) => StepReconcile(s, w, reachable, items)
    case FinishBackup(w) => StepFinishBackup(s, w)
  }

  function StepDefer(s: System, w: nat): System
    requires w in s.workers
  {
    if s.rows.work.Some? then StepRelease(s, w, Deferred(s.rows.work.value, s.workers[w].when)) else s
  }

  function StepFail(s: System, w: nat, transient: bool): System
    requires w in s.workers
  {
    if s.rows.work.Some? && s.rows.work.value.attempts >= 1
    then StepRelease(s, w, Failed(s.rows.work.value, transient, s.workers[w].when)) else s
  }

  function StepRegister(s: System, w: nat): System
    requires w in s.workers
  {
    SetRows(s, TxRegister(s.rows, s.workers[w].claimed, s.id, s.workers[w].when))
  }

  /** The steps every stage shares. */
  function StageStep(s: System, a: Action): System
    requires ByWorker(a) && !OfBackup(a) && a.w in s.workers
  {
    match a
    case Register(w) => StepRegister(s, w)
    case ReadOrchestration(w) => StepReadOrchestration(s, w)
    case ReadCheckpoint(w, stage) => StepReadCheckpoint(s, w, stage)
    case RecordPlan(w, stage) => StepRecordPlan(s, w, stage)
    case Conclude(w, stage, outcome) => StepConclude(s, w, stage, outcome)
    case Defer(w) => StepDefer(s, w)
    case Fail(w, transient) => StepFail(s, w, transient)
  }

  /** The steps a live worker takes. */
  function WorkerStep(s: System, a: Action): System
    requires ByWorker(a) && a.w in s.workers
  {
    if OfBackup(a) then BackupStep(s, a) else StageStep(s, a)
  }

  function Step(s: System, a: Action): System {
    match a
    case Tick(time) => if s.clock <= time then s.(clock := time) else s
    case Detect => if s.rows.work.None? then SetWork(s, Work(Pending, 0, s.clock, s.clock, Some(s.clock))) else s
    case Recover => if s.rows.work.Some? then SetWork(s, Recovered(s.rows.work.value, s.clock)) else s
    case RetryBlocked => if s.rows.work.Some? then SetWork(s, AdministrativelyRetried(s.rows.work.value, s.clock)) else s
    case ApplyLane(work) => if s.rows.apply.Some? then s.(rows := s.rows.(apply := Some(work))) else s
    case Begin(w, lane, when) => StepBegin(s, w, lane, when)
    case Crash(w) => s.(workers := s.workers - {w})
    case Materialise(slug) => if |s.made| < s.issued then s.(made := s.made + [Made(slug, s.clock)]) else s
    case _ => if a.w in s.workers then WorkerStep(s, a) else s
  }

  lemma StepOfWorker(s: System, a: Action)
    requires ByWorker(a) && a.w in s.workers
    ensures Step(s, a) == WorkerStep(s, a)
  {
  }

  lemma StepOfBackup(s: System, a: Action)
    requires OfBackup(a) && a.w in s.workers
    ensures Step(s, a) == BackupStep(s, a)
  {
    StepOfWorker(s, a);
  }

  function Initial(id: Identity, clock: int): System {
    System(id, clock, Rows(None, None, map[], None, None), map[], 0, [])
  }

  function Run(s: System, actions: seq<Action>): System
    decreases |actions|
  {
    if actions == [] then s else Run(Step(s, actions[0]), actions[1..])
  }

  /** Reference times do not decrease from a Fetch/Stage plan to its completion. */
  predicate InOrder(s: System, a: Action) {
    a.Conclude? && a.stage == FetchStage && a.w in s.workers && FetchStage in s.workers[a.w].seen ==>
      s.workers[a.w].seen[FetchStage].plannedAt <= s.workers[a.w].when
  }

  predicate RunInOrder(s: System, actions: seq<Action>)
    decreases |actions|
  {
    actions == [] || (InOrder(s, actions[0]) && RunInOrder(Step(s, actions[0]), actions[1..]))
  }

  lemma {:induction false} RunConcat(s: System, a: seq<Action>, b: seq<Action>)
    ensures Run(s, a + b) == Run(Run(s, a), b)
    ensures RunInOrder(s, a + b) <==> RunInOrder(s, a) && RunInOrder(Run(s, a), b)
    decreases |a|
  {
    if a == [] {
      assert a + b == b;
    } else {
      assert (a + b)[0] == a[0] && (a + b)[1..] == a[1..] + b;
      RunConcat(Step(s, a[0]), a[1..], b);
    }
  }

  // ---------------------------------------------------------------- the invariant

  /** A row read before the orchestration's phase is final, so it is still current. */
  predicate SeenFinal(r: Rows, current: Option<Orchestration>, seen: map<Stage, Checkpoint>, p: Stage) {
    current.Some? && current.value.phase != Blocked && p in seen && Rank(p) < PhaseRank(current.value.phase) ==>
      seen[p].Ended() && p in r.checkpoints && r.checkpoints[p] == seen[p]
  }

  predicate CurrentFits(id: Identity, r: Rows, current: Option<Orchestration>) {
    current.Some? ==>
      && current.value.Valid() && current.value.id == id && r.orchestration.Some?
      && (current.value.phase != Blocked ==> PhaseRank(current.value.phase) <= Progress(r))
  }

  predicate JournalSeen(r: Rows, seen: map<Stage, Checkpoint>) {
    Backup in seen && seen[Backup].phase in {MutationStarted, Uncertain} ==> Opened(r, seen[Backup])
  }

  ghost predicate SnapshotOk(id: Identity, r: Rows, worker: Worker) {
    && CurrentFits(id, r, worker.current) && JournalSeen(r, worker.seen)
    && (forall p {:trigger SeenFinal(r, worker.current, worker.seen, p)} :: SeenFinal(r, worker.current, worker.seen, p))
  }

  /** The journal row records the start that this ticket's checkpoint records. */
  predicate Opened(r: Rows, c: Checkpoint) {
    && Backup in r.checkpoints && r.checkpoints[Backup].phase != Planned
    && c.stage == Backup && c.startedAt.Some? && c.startedAt == r.checkpoints[Backup].startedAt
  }

  ghost predicate TicketOk(s: System, t: Ticket) {
    match t
    case NoTicket => true
    case StartCommitted(c) => Opened(s.rows, c) && c.phase == MutationStarted && c.Valid() && s.issued == 0
    case MayCreate(c) => Opened(s.rows, c) && c.phase == MutationStarted && c.Valid() && s.issued == 0
    case CreateFailed(c) => Opened(s.rows, c) && c.phase == MutationStarted && c.Valid() && s.issued == 1
    case Created(c, slug) => Opened(s.rows, c) && c.phase == MutationStarted && |s.made| == 1 && s.made[0].slug == slug
    case Reconciled(c, found) =>
      Opened(s.rows, c) && c.phase == Uncertain && (found.Some? ==> |s.made| == 1 && s.made[0].slug == found.value)
  }

  predicate HoldsPermit(t: Ticket) {
    t.StartCommitted? || t.MayCreate?
  }

  /** What the journal row says about calls issued and backups made. */
  ghost predicate JournalInv(s: System) {
    var r := s.rows;
    && s.issued <= 1 && |s.made| <= s.issued
    && (s.issued == 1 ==> Backup in r.checkpoints && r.checkpoints[Backup].phase != Planned && r.checkpoints[Backup].startedAt.Some?)
    && (Backup in r.checkpoints && r.checkpoints[Backup].startedAt.Some? ==>
          && r.checkpoints[Backup].startedAt.value <= s.clock
          && (forall i :: 0 <= i < |s.made| ==> r.checkpoints[Backup].startedAt.value <= s.made[i].date))
    && (Backup in r.checkpoints && r.checkpoints[Backup].phase == Done ==>
          |s.made| == 1 && r.checkpoints[Backup].evidence == Some(Evidence(s.made[0].slug, true)))
  }

  /** What holds of one worker: its time has come, its memory is current and its ticket is covered. */
  ghost predicate WorkerFits(s: System, w: nat) {
    w in s.workers ==>
      s.workers[w].when <= s.clock && SnapshotOk(s.id, s.rows, s.workers[w]) && TicketOk(s, s.workers[w].ticket)
  }

  predicate OnePermit(s: System, v: nat, w: nat) {
    v in s.workers && w in s.workers && HoldsPermit(s.workers[v].ticket) && HoldsPermit(s.workers[w].ticket) ==> v == w
  }

  ghost predicate WorkersInv(s: System) {
    && (forall w {:trigger WorkerFits(s, w)} :: WorkerFits(s, w))
    && (forall v, w {:trigger OnePermit(s, v, w)} :: OnePermit(s, v, w))
  }

  ghost predicate Inv(s: System) {
    RowsInv(s.rows, s.id) && JournalInv(s) && WorkersInv(s)
  }

  // ---------------------------------------------------------------- every step keeps it

  lemma SnapshotStable(id: Identity, r: Rows, r': Rows, worker: Worker)
    requires SnapshotOk(id, r, worker) && Extends(r, r')
    ensures SnapshotOk(id, r', worker)
  {
    forall p ensures SeenFinal(r', worker.current, worker.seen, p) { assert SeenFinal(r, worker.current, worker.seen, p); }
  }

  lemma TicketStable(s: System, s': System, t: Ticket)
    requires TicketOk(s, t) && Extends(s.rows, s'.rows) && s'.issued == s.issued && s'.made == s.made
    ensures TicketOk(s', t)
  {
  }

  /** No worker has come by a permit it did not hold. */
  lemma SamePermits(s: System, s': System)
    requires WorkersInv(s) && forall w {:trigger WorkerFits(s', w)} :: WorkerFits(s', w)
    requires forall w :: w in s'.workers && HoldsPermit(s'.workers[w].ticket) ==> w in s.workers && HoldsPermit(s.workers[w].ticket)
    ensures WorkersInv(s')
  {
    forall v, w ensures OnePermit(s', v, w) { assert OnePermit(s, v, w); }
  }

  /** A step that changes only rows, growing them, and neither finishes the journal nor starts it. */
  lemma RowsGrow(s: System, r': Rows)
    requires Inv(s) && RowsInv(r', s.id) && Extends(s.rows, r')
    requires Backup in r'.checkpoints && r'.checkpoints[Backup].phase != Planned ==>
               Backup in s.rows.checkpoints && s.rows.checkpoints[Backup].phase != Planned
    requires Backup in r'.checkpoints && r'.checkpoints[Backup].startedAt.Some? ==>
               Backup in s.rows.checkpoints && s.rows.checkpoints[Backup].startedAt == r'.checkpoints[Backup].startedAt
    requires Backup in r'.checkpoints && r'.checkpoints[Backup].phase == Done ==>
               && |s.made| == 1 && r'.checkpoints[Backup].evidence == Some(Evidence(s.made[0].slug, true))
    ensures Inv(s.(rows := r'))
  {
    var s' := s.(rows := r');
    forall w ensures WorkerFits(s', w) {
      assert WorkerFits(s, w);
      if w in s.workers {
        SnapshotStable(s.id, s.rows, r', s.workers[w]);
        TicketStable(s, s', s.workers[w].ticket);
      }
    }
    SamePermits(s, s');
  }

  lemma WorkStepKeeps(s: System, w: Work)
    requires Inv(s) && w.status != Succeeded
    requires s.rows.work.Some? ==> s.rows.work.value.status != Succeeded
    requires s.rows.orchestration.Some? && s.rows.orchestration.value.phase == Blocked ==> w.status in {WorkBlocked, Pending}
    ensures Inv(SetWork(s, w))
  {
    WorkChangeKeeps(s.rows, s.id, w);
    RowsGrow(s, s.rows.(work := Some(w)));
  }

  lemma ClaimableIsLive(r: Rows, id: Identity, lane: Lane, when: int)
    requires RowsInv(r, id) && Claimable(r, lane, when)
    ensures r.work.Some? && r.work.value.status in {Pending, Retry}
    ensures r.orchestration.Some? ==> !Terminal(r.orchestration.value.phase)
  {
    if r.orchestration.Some? && Terminal(r.orchestration.value.phase) {
      EndedIsNeverClaimed(r, lane, when);
    }
  }

  lemma FreshWorkerKeeps(s: System, w: nat, worker: Worker)
    requires Inv(s) && w !in s.workers && worker.when <= s.clock
    requires worker.current.None? && worker.seen == map[] && worker.ticket == NoTicket
    ensures Inv(SetWorker(s, w, worker))
  {
    var s' := SetWorker(s, w, worker);
    forall v ensures WorkerFits(s', v) {
      assert WorkerFits(s, v);
      if v in s.workers { TicketStable(s, s', s.workers[v].ticket); }
    }
    SamePermits(s, s');
  }

  lemma BeginKeeps(s: System, w: nat, lane: Lane, when: int)
    requires Inv(s)
    ensures Inv(StepBegin(s, w, lane, when))
  {
    if !(w in s.workers || when > s.clock || !Claimable(s.rows, lane, when)) {
      ClaimableIsLive(s.rows, s.id, lane, when);
      var claimed := Claim(s.rows.work.value, when);
      WorkStepKeeps(s, claimed);
      FreshWorkerKeeps(SetWork(s, claimed), w, Worker(when, claimed, None, map[], NoTicket));
    }
  }

  /** What a read adds to a worker's memory is the stored row, final if its stage has passed. */
  lemma ReadSnapshot(id: Identity, r: Rows, worker: Worker, stage: Stage)
    requires RowsInv(r, id) && SnapshotOk(id, r, worker) && worker.current.Some? && stage in r.checkpoints
    ensures SnapshotOk(id, r, worker.(seen := worker.seen[stage := r.checkpoints[stage]]))
  {
    var seen := worker.seen[stage := r.checkpoints[stage]];
    ReadIsFinal(id, r, worker.current, stage);
    forall p ensures SeenFinal(r, worker.current, seen, p) {
      assert SeenFinal(r, worker.current, worker.seen, p);
    }
    if stage == Backup { StoredJournal(r, id); }
  }

  lemma ReadIsFinal(id: Identity, r: Rows, current: Option<Orchestration>, stage: Stage)
    requires RowsInv(r, id) && stage in r.checkpoints && CurrentFits(id, r, current)
    ensures current.Some? && current.value.phase != Blocked && Rank(stage) < PhaseRank(current.value.phase) ==> r.checkpoints[stage].Ended()
  {
    assert Slot(r, id, stage);
  }

  lemma StoredJournal(r: Rows, id: Identity)
    requires RowsInv(r, id) && Backup in r.checkpoints
    ensures r.checkpoints[Backup].phase in {MutationStarted, Uncertain} ==> Opened(r, r.checkpoints[Backup])
  {
    assert Slot(r, id, Backup);
  }

  lemma ForgetSnapshot(id: Identity, r: Rows, worker: Worker, stage: Stage)
    requires SnapshotOk(id, r, worker)
    ensures SnapshotOk(id, r, worker.(seen := worker.seen - {stage}))
  {
    var seen := worker.seen - {stage};
    forall p ensures SeenFinal(r, worker.current, seen, p) { assert SeenFinal(r, worker.current, worker.seen, p); }
  }

  lemma ReadKeeps(s: System, w: nat, stage: Stage)
    requires Inv(s) && w in s.workers
    ensures Inv(StepReadCheckpoint(s, w, stage))
  {
    var s' := StepReadCheckpoint(s, w, stage);
    LoadersAccept(s.rows, s.id, stage);
    assert WorkerFits(s, w);
    if s.workers[w].current.Some? {
      if stage in s.rows.checkpoints {
        ReadSnapshot(s.id, s.rows, s.workers[w], stage);
      } else {
        ForgetSnapshot(s.id, s.rows, s.workers[w], stage);
      }
      WorkerChangeKeeps(s, w, s'.workers[w]);
    }
  }

  lemma OneWorkerChanged(s: System, w: nat, worker: Worker)
    requires WorkersInv(s) && w in s.workers && worker.when == s.workers[w].when
    requires SnapshotOk(s.id, s.rows, worker) && TicketOk(s, worker.ticket)
    requires HoldsPermit(worker.ticket) ==> HoldsPermit(s.workers[w].ticket)
    ensures WorkersInv(SetWorker(s, w, worker))
  {
    var s' := SetWorker(s, w, worker);
    forall v ensures WorkerFits(s', v) {
      assert WorkerFits(s, v);
      if v == w { TicketStable(s, s', worker.ticket); } else if v in s.workers { TicketStable(s, s', s.workers[v].ticket); }
    }
    SamePermits(s, s');
  }

  /** Replacing one worker's memory, without giving it a permit it did not have. */
  lemma WorkerChangeKeeps(s: System, w: nat, worker: Worker)
    requires Inv(s) && w in s.workers && worker.when == s.workers[w].when
    requires SnapshotOk(s.id, s.rows, worker) && TicketOk(s, worker.ticket)
    requires HoldsPermit(worker.ticket) ==> HoldsPermit(s.workers[w].ticket)
    ensures Inv(SetWorker(s, w, worker))
  {
    OneWorkerChanged(s, w, worker);
  }

  /** Predecessor rows read under the current orchestration are the stored ones. */
  lemma SeenPredecessorsAreCurrent(s: System, w: nat, stage: Stage)
    requires Inv(s) && w in s.workers && At(s.workers[w], stage) && SeenPredecessors(s.workers[w], stage)
    ensures HasAll(s.rows.checkpoints, PredecessorStages(stage))
    ensures Digests(s.workers[w].seen, PredecessorStages(stage)) == Digests(s.rows.checkpoints, PredecessorStages(stage))
  {
    var worker := s.workers[w];
    assert WorkerFits(s, w);
    forall p | p in PredecessorStages(stage) ensures p in s.rows.checkpoints && s.rows.checkpoints[p] == worker.seen[p] {
      assert Rank(p) < Rank(stage) == PhaseRank(worker.current.value.phase);
      assert SeenFinal(s.rows, worker.current, worker.seen, p);
    }
    DigestsUnchanged(worker.seen, s.rows.checkpoints, PredecessorStages(stage));
  }

  lemma PlanCommitKeeps(s: System, current: Orchestration, stage: Stage, predecessors: seq<Digest>, when: int)
    requires Inv(s) && current.phase == PhaseBefore(stage)
    requires HasAll(s.rows.checkpoints, PredecessorStages(stage))
    requires predecessors == Digests(s.rows.checkpoints, PredecessorStages(stage))
    ensures Inv(SetRows(s, TxPlan(s.rows, current, Plan(stage, current, predecessors, when))))
  {
    var t := TxPlan(s.rows, current, Plan(stage, current, predecessors, when));
    TxPlanKeeps(s.rows, s.id, current, stage, when);
    if t.Some? {
      RowsGrow(s, t.value);
    }
  }

  lemma RecordPlanKeeps(s: System, w: nat, stage: Stage)
    requires Inv(s) && w in s.workers
    ensures Inv(StepRecordPlan(s, w, stage))
  {
    var worker := s.workers[w];
    if At(worker, stage) && SeenPredecessors(worker, stage) && stage !in worker.seen {
      SeenPredecessorsAreCurrent(s, w, stage);
      PlanCommitKeeps(s, worker.current.value, stage, Digests(worker.seen, PredecessorStages(stage)), worker.when);
    }
  }

  lemma FinishedEnds(planned: Checkpoint, outcome: Outcome, when: int)
    requires planned.stage == FetchStage ==> planned.plannedAt <= when
    requires Finished(planned, outcome, when).Some?
    ensures Ends(planned, Finished(planned, outcome, when).value, when)
    ensures planned.Valid() ==> Finished(planned, outcome, when).value.Valid()
    ensures Finished(planned, outcome, when).value.stage == planned.stage
  {
  }

  lemma ConcludeKeeps(s: System, w: nat, stage: Stage, outcome: Outcome)
    requires Inv(s) && w in s.workers && InOrder(s, Conclude(w, stage, outcome))
    ensures Inv(StepConclude(s, w, stage, outcome))
  {
    var t := Conclusion(s.workers[w], stage, outcome);
    if t.Some? {
      ConclusionFits(s, w, stage, outcome);
      var (planned, finished) := t.value;
      CommitKeeps(s, planned, finished, s.workers[w].current.value, s.workers[w].when);
    }
  }

  lemma ConclusionFits(s: System, w: nat, stage: Stage, outcome: Outcome)
    requires w in s.workers && InOrder(s, Conclude(w, stage, outcome)) && Conclusion(s.workers[w], stage, outcome).Some?
    ensures var (planned, finished) := Conclusion(s.workers[w], stage, outcome).value;
      && Ends(planned, finished, s.workers[w].when) && (planned.Valid() ==> finished.Valid())
  {
    FinishedEnds(s.workers[w].seen[stage], outcome, s.workers[w].when);
  }

  lemma CommitKeeps(s: System, planned: Checkpoint, finished: Checkpoint, current: Orchestration, when: int)
    requires Inv(s) && planned.stage != Backup && Ends(planned, finished, when)
    requires planned.Valid() ==> finished.Valid()
    requires Successor(current, finished, when).Valid()
    ensures Inv(SetRows(s, TxAdvance(s.rows, planned, finished, current, Successor(current, finished, when))))
  {
    var t := TxAdvance(s.rows, planned, finished, current, Successor(current, finished, when));
    if t.Some? {
      TxAdvanceKeeps(s.rows, s.id, planned, finished, current, when);
      RowsGrow(s, t.value);
    }
  }

  lemma NoPermitWhilePlanned(s: System)
    requires Inv(s) && Backup in s.rows.checkpoints && s.rows.checkpoints[Backup].phase == Planned
    ensures s.issued == 0 && s.made == [] && forall w :: w in s.workers ==> s.workers[w].ticket == NoTicket
  {
    forall w | w in s.workers ensures s.workers[w].ticket == NoTicket {
      assert WorkerFits(s, w);
    }
  }

  lemma StartBackupKeeps(s: System, w: nat)
    requires Inv(s) && w in s.workers
    ensures Inv(StepStartBackup(s, w))
  {
    var worker := s.workers[w];
    if SeenBound(worker, Backup) && worker.seen[Backup].phase == Planned && Start(worker.seen[Backup], worker.when).Valid() {
      var started := Start(worker.seen[Backup], worker.when);
      var t := TxTransition(s.rows, worker.seen[Backup], started);
      if t.Some? {
        NoPermitWhilePlanned(s);
        TxTransitionKeeps(s.rows, s.id, worker.seen[Backup], started, worker.when);
        SlotIdentifies(s.rows, s.id, Backup);
        PermitGranted(s, w, started, t.value);
      }
    }
  }

  lemma SlotIdentifies(r: Rows, id: Identity, stage: Stage)
    requires RowsInv(r, id) && stage in r.checkpoints
    ensures r.checkpoints[stage].stage == stage && r.checkpoints[stage].Valid()
  {
    assert Slot(r, id, stage);
  }

  lemma PermitGranted(s: System, w: nat, started: Checkpoint, r': Rows)
    requires Inv(s) && w in s.workers && s.issued == 0 && s.made == []
    requires forall v :: v in s.workers ==> s.workers[v].ticket == NoTicket
    requires RowsInv(r', s.id) && Extends(s.rows, r') && Backup in r'.checkpoints && r'.checkpoints[Backup] == started
    requires started.stage == Backup && started.phase == MutationStarted && started.Valid()
    requires started.startedAt == Some(s.workers[w].when)
    ensures Inv(SetWorker(s.(rows := r'), w, s.workers[w].(ticket := StartCommitted(started))))
  {
    var s' := SetWorker(s.(rows := r'), w, s.workers[w].(ticket := StartCommitted(started)));
    assert WorkerFits(s, w);
    forall v ensures WorkerFits(s', v) {
      assert WorkerFits(s, v);
      if v in s.workers { SnapshotStable(s.id, s.rows, r', s.workers[v]); }
    }
    forall u, v ensures OnePermit(s', u, v) { }
  }

  lemma CreateBackupKeeps(s: System, w: nat, answer: Option<string>)
    requires Inv(s) && w in s.workers
    ensures Inv(StepCreateBackup(s, w, answer))
  {
    if s.workers[w].ticket.MayCreate? {
      PermitSpent(s, w, answer, StepCreateBackup(s, w, answer));
    }
  }

  lemma PermitSpent(s: System, w: nat, answer: Option<string>, s': System)
    requires JournalInv(s) && WorkersInv(s) && w in s.workers && s.workers[w].ticket.MayCreate?
    requires s' == StepCreateBackup(s, w, answer)
    ensures JournalInv(s') && WorkersInv(s')
  {
    assert WorkerFits(s, w);
    forall v ensures WorkerFits(s', v) && (v in s'.workers ==> !HoldsPermit(s'.workers[v].ticket)) {
      assert WorkerFits(s, v) && OnePermit(s, v, w);
    }
    forall u, v ensures OnePermit(s', u, v) { }
  }

  lemma MaterialiseKeeps(s: System, slug: string)
    requires Inv(s)
    ensures Inv(Step(s, Materialise(slug)))
  {
    var s' := Step(s, Materialise(slug));
    forall w ensures WorkerFits(s', w) { assert WorkerFits(s, w); }
    SamePermits(s, s');
  }

  lemma TransitionToUncertainKeeps(s: System, c: Checkpoint)
    requires Inv(s) && c.phase == MutationStarted
    ensures Inv(SetRows(s, TxTransition(s.rows, c, MarkUncertain(c))))
  {
    var t := TxTransition(s.rows, c, MarkUncertain(c));
    if t.Some? {
      assert Slot(s.rows, s.id, Backup);
      TxTransitionKeeps(s.rows, s.id, c, MarkUncertain(c), 0);
      RowsGrow(s, t.value);
    }
  }

  /** A reconciled slug is the slug of the one backup made. */
  lemma ReconciledIsMade(s: System, items: seq<Item>, startedAt: int)
    requires JournalInv(s) && Honest(s, items) && ReconciledSlug(items, startedAt).Some?
    ensures |s.made| == 1 && s.made[0].slug == ReconciledSlug(items, startedAt).value
  {
    ReconciledSlugIsTheOnlyMatch(items, startedAt);
  }

  lemma ReconcileKeeps(s: System, w: nat, reachable: bool, items: seq<Item>)
    requires Inv(s) && w in s.workers
    ensures Inv(StepReconcile(s, w, reachable, items))
  {
    var worker := s.workers[w];
    if SeenBound(worker, Backup) && worker.seen[Backup].phase == Uncertain && worker.seen[Backup].startedAt.Some?
       && Honest(s, items)
    {
      var c := worker.seen[Backup];
      var found := if reachable then ReconciledSlug(items, c.startedAt.value) else None;
      if found.Some? {
        ReconciledIsMade(s, items, c.startedAt.value);
      }
      assert WorkerFits(s, w);
      assert TicketOk(s, Reconciled(c, found));
      WorkerChangeKeeps(s, w, worker.(ticket := Reconciled(c, found)));
    }
  }

  /** What a worker holding a finished create or reconciliation may commit. */
  lemma EndingFits(s: System, t: Ticket, when: int)
    requires JournalInv(s) && TicketOk(s, t) && BackupEnding(t, when).Some?
    ensures var (previous, finished) := BackupEnding(t, when).value;
      && previous.stage == Backup && Ends(previous, finished, when)
      && (previous.phase == Uncertain || (previous.phase == MutationStarted && finished.phase == Done))
      && Backup in s.rows.checkpoints && previous.startedAt == s.rows.checkpoints[Backup].startedAt
      && s.rows.checkpoints[Backup].phase != Planned
      && (finished.phase == Done ==> |s.made| == 1 && finished.evidence == Some(Evidence(s.made[0].slug, true)))
  {
  }

  lemma BackupCommitKeeps(s: System, previous: Checkpoint, finished: Checkpoint, current: Orchestration, when: int)
    requires Inv(s) && previous.stage == Backup && Ends(previous, finished, when) && finished.Valid()
    requires previous.phase == Uncertain || (previous.phase == MutationStarted && finished.phase == Done)
    requires finished.phase == Done ==> |s.made| == 1 && finished.evidence == Some(Evidence(s.made[0].slug, true))
    requires Successor(current, finished, when).Valid()
    ensures Inv(SetRows(s, TxFinishBackup(s.rows, previous, finished, current, Successor(current, finished, when), when)))
  {
    var t := TxFinishBackup(s.rows, previous, finished, current, Successor(current, finished, when), when);
    if t.Some? {
      TxFinishBackupKeeps(s.rows, s.id, previous, finished, current, when);
      RowsGrow(s, t.value);
    }
  }

  lemma FinishBackupKeeps(s: System, w: nat)
    requires Inv(s) && w in s.workers
    ensures Inv(StepFinishBackup(s, w))
  {
    var worker := s.workers[w];
    var ending := BackupEnding(worker.ticket, worker.when);
    if ending.Some? && At(worker, Backup) && ending.value.1.Valid() {
      var previous, finished, current := ending.value.0, ending.value.1, worker.current.value;
      assert WorkerFits(s, w);
      EndingFits(s, worker.ticket, worker.when);
      var advanced := Successor(current, finished, worker.when);
      if advanced.Valid() {
        BackupCommitKeeps(s, previous, finished, current, worker.when);
        DropTicketKeeps(SetRows(s, TxFinishBackup(s.rows, previous, finished, current, advanced, worker.when)), w);
      }
    }
  }

  lemma DropTicketKeeps(s: System, w: nat)
    requires Inv(s) && w in s.workers
    ensures Inv(SetWorker(s, w, s.workers[w].(ticket := NoTicket)))
  {
    assert WorkerFits(s, w);
    WorkerChangeKeeps(s, w, s.workers[w].(ticket := NoTicket));
  }

  lemma ReleaseKeeps(s: System, w: nat, released: Work)
    requires Inv(s) && w in s.workers && released.status != Succeeded
    ensures Inv(StepRelease(s, w, released))
  {
    if StillClaimed(s.rows, s.workers[w].claimed.attempts) {
      WorkStepKeeps(s, released);
    }
  }

  lemma ConfirmStartKeeps(s: System, w: nat)
    requires Inv(s) && w in s.workers
    ensures Inv(StepConfirmStart(s, w))
  {
    var worker := s.workers[w];
    if worker.ticket.StartCommitted? {
      assert WorkerFits(s, w);
      if LoadCheckpoint(s.rows, Backup) == Present(worker.ticket.started) {
        WorkerChangeKeeps(s, w, worker.(ticket := MayCreate(worker.ticket.started)));
      } else {
        DropTicketKeeps(s, w);
      }
    }
  }

  lemma RegisterKeeps(s: System, w: nat)
    requires Inv(s) && w in s.workers
    ensures Inv(StepRegister(s, w))
  {
    var t := TxRegister(s.rows, s.workers[w].claimed, s.id, s.workers[w].when);
    TxRegisterKeeps(s.rows, s.workers[w].claimed, s.id, s.workers[w].when);
    if t.Some? {
      RowsGrow(s, t.value);
    }
  }

  lemma ReadOrchestrationKeeps(s: System, w: nat)
    requires Inv(s) && w in s.workers
    ensures Inv(StepReadOrchestration(s, w))
  {
    if s.rows.orchestration.Some? {
      assert WorkerFits(s, w);
      WorkerChangeKeeps(s, w, s.workers[w].(current := s.rows.orchestration, seen := map[]));
    }
  }

  lemma DeclareUncertainKeeps(s: System, w: nat)
    requires Inv(s) && w in s.workers
    ensures Inv(StepDeclareUncertain(s, w))
  {
    if s.workers[w].ticket.CreateFailed? {
      assert WorkerFits(s, w);
      TransitionToUncertainKeeps(s, s.workers[w].ticket.started);
      DropTicketKeeps(SetRows(s, TxTransition(s.rows, s.workers[w].ticket.started, MarkUncertain(s.workers[w].ticket.started))), w);
    }
  }

  /** Time passing, or workers vanishing. */
  lemma OutsideStepKeeps(s: System, s': System)
    requires Inv(s) && s' == s.(clock := s'.clock, workers := s'.workers) && s.clock <= s'.clock
    requires forall w :: w in s'.workers ==> w in s.workers && s'.workers[w] == s.workers[w]
    ensures Inv(s')
  {
    forall w ensures WorkerFits(s', w) { assert WorkerFits(s, w); }
    SamePermits(s, s');
  }

  lemma ApplyLaneKeeps(s: System, work: Work)
    requires Inv(s)
    ensures Inv(Step(s, ApplyLane(work)))
  {
    if s.rows.apply.Some? {
      ApplyRowKeeps(s.rows, s.id, work);
      RowsGrow(s, s.rows.(apply := Some(work)));
    }
  }

  lemma WorkRowStepKeeps(s: System, a: Action)
    requires Inv(s) && (a.Detect? || a.Recover? || a.RetryBlocked?)
    ensures Inv(Step(s, a))
  {
    var s' := Step(s, a);
    if s' != s { WorkStepKeeps(s, s'.rows.work.value); }
  }

  lemma EnvironmentStepKeeps(s: System, a: Action)
    requires Inv(s) && (a.Tick? || a.Detect? || a.Recover? || a.RetryBlocked? || a.ApplyLane? || a.Crash?)
    ensures Inv(Step(s, a))
  {
    if a.Tick? || a.Crash? {
      OutsideStepKeeps(s, Step(s, a));
    } else if a.ApplyLane? {
      ApplyLaneKeeps(s, a.work);
    } else {
      WorkRowStepKeeps(s, a);
    }
  }

  lemma ApplyRowKeeps(r: Rows, id: Identity, work: Work)
    requires RowsInv(r, id) && r.apply.Some?
    ensures RowsInv(r.(apply := Some(work)), id) && Extends(r, r.(apply := Some(work)))
  {
    var r' := r.(apply := Some(work));
    forall q | q in r'.checkpoints ensures Slot(r', id, q) { assert Slot(r, id, q); }
  }

  lemma StepKeeps(s: System, a: Action)
    requires Inv(s) && InOrder(s, a)
    ensures Inv(Step(s, a))
  {
    if ByWorker(a) {
      if a.w in s.workers {
        WorkerStepKeeps(s, a);
        StepOfWorker(s, a);
      }
    } else if a.Begin? {
      BeginKeeps(s, a.w, a.lane, a.when);
    } else if a.Materialise? {
      MaterialiseKeeps(s, a.slug);
    } else {
      EnvironmentStepKeeps(s, a);
    }
  }

  lemma MarkStartedUncertainKeeps(s: System, w: nat)
    requires Inv(s) && w in s.workers
    ensures Inv(StepMarkStartedUncertain(s, w))
  {
    if SeenBound(s.workers[w], Backup) && s.workers[w].seen[Backup].phase == MutationStarted {
      TransitionToUncertainKeeps(s, s.workers[w].seen[Backup]);
    }
  }

  lemma BackupStepKeeps(s: System, a: Action)
    requires Inv(s) && OfBackup(a) && a.w in s.workers
    ensures Inv(BackupStep(s, a))
  {
    match a
    case StartBackup(w) => StartBackupKeeps(s, w);
    case ConfirmStart(w) => ConfirmStartKeeps(s, w);
    case CreateBackup(w, answer) => CreateBackupKeeps(s, w, answer);
    case DeclareUncertain(w) => DeclareUncertainKeeps(s, w);
    case MarkStartedUncertain(w) => MarkStartedUncertainKeeps(s, w);
    case Reconcile(w, reachable, items) => ReconcileKeeps(s, w, reachable, items);
    case FinishBackup(w) => FinishBackupKeeps(s, w);
  }

  lemma DeferKeeps(s: System, w: nat)
    requires Inv(s) && w in s.workers
    ensures Inv(StepDefer(s, w))
  {
    if s.rows.work.Some? {
      ReleaseKeeps(s, w, Deferred(s.rows.work.value, s.workers[w].when));
    }
  }

  lemma FailKeeps(s: System, w: nat, transient: bool)
    requires Inv(s) && w in s.workers
    ensures Inv(StepFail(s, w, transient))
  {
    if s.rows.work.Some? && s.rows.work.value.attempts >= 1 {
      ReleaseKeeps(s, w, Failed(s.rows.work.value, transient, s.workers[w].when));
    }
  }

  lemma StageStepKeeps(s: System, a: Action)
    requires Inv(s) && InOrder(s, a) && ByWorker(a) && !OfBackup(a) && a.w in s.workers
    ensures Inv(StageStep(s, a))
  {
    match a
    case Register(w) => RegisterKeeps(s, w);
    case ReadOrchestration(w) => ReadOrchestrationKeeps(s, w);
    case ReadCheckpoint(w, stage) => ReadKeeps(s, w, stage);
    case RecordPlan(w, stage) => RecordPlanKeeps(s, w, stage);
    case Conclude(w, stage, outcome) => ConcludeKeeps(s, w, stage, outcome);
    case Defer(w) => DeferKeeps(s, w);
    case Fail(w, transient) => FailKeeps(s, w, transient);
  }

  lemma WorkerStepKeeps(s: System, a: Action)
    requires Inv(s) && InOrder(s, a) && ByWorker(a) && a.w in s.workers
    ensures Inv(WorkerStep(s, a))
  {
    if OfBackup(a) {
      BackupStepKeeps(s, a);
    } else {
      StageStepKeeps(s, a);
    }
  }

  lemma {:induction false} EveryRunKeepsInv(s: System, actions: seq<Action>)
    requires Inv(s) && RunInOrder(s, actions)
    ensures Inv(Run(s, actions))
    decreases |actions|
  {
    if actions != [] {
      StepKeeps(s, actions[0]);
      EveryRunKeepsInv(Step(s, actions[0]), actions[1..]);
    }
  }
}

/** Durable records of one candidate SHA: the orchestration row, the seven stage checkpoints, the
    work row and the prepared deployment, together with the loaders that re-validate them and the
    transactions that change them. A transaction yields None when it rolls back.

    A record digest is a free constructor over the digested record, so it is injective by
    construction and "WHERE record_sha256=?" is equality of records. */
module Candidate {
  import opened Options

  datatype Loaded<+T> = Absent | Present(value: T) | Invalid

  datatype Identity = Identity(sha: string, target: string, repositoryId: int)

  datatype Stage = FetchStage | Integrity | Dependency | Risk | Static | Semantic | Backup

  datatype Phase =
    | Detected | Staged | IntegrityVerified | DependenciesAnalyzed | RiskClassified
    | StaticValidated | SemanticallyValidated | Completed | Blocked

  datatype NextAction =
    | DoFetchStage | DoAnalyze | DoAnalyzeDependencies | DoClassifyRisk | DoValidate
    | DoValidateSemantics | DoPrepareBackup | NoAction

  const STAGES: set<Stage> := {FetchStage, Integrity, Dependency, Risk, Static, Semantic, Backup}

  function Rank(s: Stage): (r: nat)
    ensures r < 7
  {
    match s
    case FetchStage => 0
    case Integrity => 1
    case Dependency => 2
    case Risk => 3
    case Static => 4
    case Semantic => 5
    case Backup => 6
  }

  function PhaseRank(p: Phase): nat {
    match p
    case Detected => 0
    case Staged => 1
    case IntegrityVerified => 2
    case DependenciesAnalyzed => 3
    case RiskClassified => 4
    case StaticValidated => 5
    case SemanticallyValidated => 6
    case Completed => 7
    case Blocked => 8
  }

  /** The phase a candidate must be in for a stage to run. */
  function PhaseBefore(s: Stage): Phase {
    match s
    case FetchStage => Detected
    case Integrity => Staged
    case Dependency => IntegrityVerified
    case Risk => DependenciesAnalyzed
    case Static => RiskClassified
    case Semantic => StaticValidated
    case Backup => SemanticallyValidated
  }

  /** The phase a candidate enters when a stage succeeds. */
  function PhaseAfter(s: Stage): Phase {
    match s
    case FetchStage => Staged
    case Integrity => IntegrityVerified
    case Dependency => DependenciesAnalyzed
    case Risk => RiskClassified
    case Static => StaticValidated
    case Semantic => SemanticallyValidated
    case Backup => Completed
  }

  function ActionOf(p: Phase): NextAction {
    match p
    case Detected => DoFetchStage
    case Staged => DoAnalyze
    case IntegrityVerified => DoAnalyzeDependencies
    case DependenciesAnalyzed => DoClassifyRisk
    case RiskClassified => DoValidate
    case StaticValidated => DoValidateSemantics
    case SemanticallyValidated => DoPrepareBackup
    case Completed => NoAction
    case Blocked => NoAction
  }

  predicate Terminal(p: Phase) {
    p == Completed || p == Blocked
  }

  // ---------------------------------------------------------------- records

  datatype Digest = OrchestrationDigest(orchestration: Orchestration) | CheckpointDigest(checkpoint: Checkpoint)

  datatype Orchestration = Orchestration(
    id: Identity, phase: Phase, action: NextAction, registeredAt: int, updatedAt: int)
  {
    predicate Valid() {
      && ((phase == Detected) == (action == DoFetchStage))
      && ((phase == Staged) == (action == DoAnalyze))
      && ((phase == IntegrityVerified) == (action == DoAnalyzeDependencies))
      && ((phase == DependenciesAnalyzed) == (action == DoClassifyRisk))
      && ((phase == RiskClassified) == (action == DoValidate))
      && ((phase == StaticValidated) == (action == DoValidateSemantics))
      && ((phase == SemanticallyValidated) == (action == DoPrepareBackup))
      && (Terminal(phase) == (action == NoAction))
      && registeredAt <= updatedAt
    }
  }

  lemma ValidActionIsDetermined(o: Orchestration)
    ensures o.Valid() <==> o.action == ActionOf(o.phase) && o.registeredAt <= o.updatedAt
  {
  }

  /** What a completed stage stored: its canonical evidence text (for Backup, the backup slug).
      Only the Static stage reads `syntaxValid`. */
  datatype Evidence = Evidence(text: string, syntaxValid: bool)

  datatype CheckpointPhase = Planned | MutationStarted | Uncertain | Done | Stopped

  datatype Checkpoint = Checkpoint(
    stage: Stage, id: Identity, orchestration: Digest, predecessors: seq<Digest>,
    phase: CheckpointPhase, evidence: Option<Evidence>,
    plannedAt: int, startedAt: Option<int>, completedAt: Option<int>)
  {
    predicate Ended() {
      phase == Done || phase == Stopped
    }

    predicate Valid() {
      && |predecessors| == |PredecessorStages(stage)|
      && (phase == Stopped ==> stage == Semantic || stage == Backup)
      && (phase == MutationStarted || phase == Uncertain ==> stage == Backup)
      && (stage != Backup ==> startedAt.None?)
      && (stage == Backup && phase in {MutationStarted, Uncertain, Done} ==> startedAt.Some?)
      && (phase == Planned ==> startedAt.None?)
      && (Ended() == completedAt.Some?)
      && ((phase == Done) == evidence.Some?)
      && (startedAt.Some? ==> plannedAt <= startedAt.value)
      && (completedAt.Some? ==> (if startedAt.Some? then startedAt.value else plannedAt) <= completedAt.value)
    }
  }

  /** The predecessor digests each checkpoint row stores, in column order. */
  function PredecessorStages(s: Stage): (ps: seq<Stage>)
    ensures forall p :: p in ps ==> Rank(p) < Rank(s)
  {
    match s
    case FetchStage => []
    case Integrity => [FetchStage]
    case Dependency => [FetchStage, Integrity]
    case Risk => [Dependency]
    case Static => [FetchStage, Integrity, Dependency, Risk]
    case Semantic => [FetchStage, Integrity, Dependency, Risk, Static]
    case Backup => [FetchStage, Integrity, Dependency, Risk, Static, Semantic]
  }

  /** The predecessor rows a checkpoint loader loads (and so re-validates) itself. */
  function ReloadedStages(s: Stage): (ps: seq<Stage>)
    ensures forall p :: p in ps ==> Rank(p) < Rank(s)
  {
    match s
    case FetchStage => []
    case Integrity => []
    case Dependency => []
    case Risk => [Dependency]
    case Static => [FetchStage, Integrity, Dependency, Risk]
    case Semantic => [FetchStage, Integrity, Dependency, Risk, Static]
    case Backup => [Semantic]
  }

  predicate HasAll(cs: map<Stage, Checkpoint>, ps: seq<Stage>) {
    forall p :: p in ps ==> p in cs
  }

  function Digests(cs: map<Stage, Checkpoint>, ps: seq<Stage>): (ds: seq<Digest>)
    requires HasAll(cs, ps)
    ensures |ds| == |ps|
    ensures forall i :: 0 <= i < |ps| ==> ds[i] == CheckpointDigest(cs[ps[i]])
  {
    seq(|ps|, i requires 0 <= i < |ps| => assert ps[i] in ps; CheckpointDigest(cs[ps[i]]))
  }

  datatype WorkStatus = Pending | Running | Retry | WorkBlocked | Succeeded

  datatype Work = Work(status: WorkStatus, attempts: nat, createdAt: int, updatedAt: int, nextAttemptAt: Option<int>)

  datatype Prepared = Prepared(id: Identity, evidence: Evidence, preparedAt: int)

  datatype Rows = Rows(
    work: Option<Work>, orchestration: Option<Orchestration>, checkpoints: map<Stage, Checkpoint>,
    prepared: Option<Prepared>, apply: Option<Work>)

  // ---------------------------------------------------------------- record transitions

  function Plan(s: Stage, current: Orchestration, predecessors: seq<Digest>, when: int): Checkpoint {
    Checkpoint(s, current.id, OrchestrationDigest(current), predecessors, Planned, None, when, None, None)
  }

  function Start(c: Checkpoint, when: int): Checkpoint {
    c.(phase := MutationStarted, startedAt := Some(when))
  }

  function MarkUncertain(c: Checkpoint): Checkpoint {
    c.(phase := Uncertain)
  }

  function Complete(c: Checkpoint, evidence: Evidence, when: int): Checkpoint {
    c.(phase := Done, evidence := Some(evidence), completedAt := Some(when))
  }

  function Block(c: Checkpoint, when: int): Checkpoint {
    c.(phase := Stopped, completedAt := Some(when))
  }

  function Advance(current: Orchestration, p: Phase, when: int): Orchestration {
    current.(phase := p, action := ActionOf(p), updatedAt := when)
  }

  /** Whether ending a stage this way blocks the candidate. */
  predicate Blocks(finished: Checkpoint) {
    finished.phase == Stopped
    || (finished.stage == Static && finished.evidence.Some? && !finished.evidence.value.syntaxValid)
  }

  function Successor(current: Orchestration, finished: Checkpoint, when: int): Orchestration {
    Advance(current, if Blocks(finished) then Blocked else PhaseAfter(finished.stage), when)
  }

  // ---------------------------------------------------------------- loaders

  function LoadOrchestration(r: Rows): Loaded<Orchestration> {
    if r.orchestration.None? then Absent
    else if r.orchestration.value.Valid() then Present(r.orchestration.value)
    else Invalid
  }

  predicate PhaseAdmits(c: Checkpoint, o: Orchestration) {
    match c.phase
    case Planned =>
      if c.stage == Backup then o.phase == SemanticallyValidated
      else c.orchestration == OrchestrationDigest(o)
    case MutationStarted => o.phase == SemanticallyValidated
    case Uncertain => o.phase == SemanticallyValidated
    case Done => if c.stage == Backup then o.phase == Completed else PhaseRank(o.phase) > Rank(c.stage)
    case Stopped => o.phase == Blocked
  }

  predicate BindingAdmits(c: Checkpoint, cs: map<Stage, Checkpoint>) {
    match c.stage
    case FetchStage => true
    case Integrity => true
    case Dependency => true
    case Risk => HasAll(cs, PredecessorStages(Risk)) && c.predecessors == Digests(cs, PredecessorStages(Risk))
    case Static => HasAll(cs, PredecessorStages(Static)) && c.predecessors == Digests(cs, PredecessorStages(Static))
    case Semantic => HasAll(cs, PredecessorStages(Semantic)) && c.predecessors == Digests(cs, PredecessorStages(Semantic))
    case Backup =>
      && Semantic in cs && cs[Semantic].phase == Done
      && c.predecessors == cs[Semantic].predecessors + [CheckpointDigest(cs[Semantic])]
  }

  function LoadCheckpoint(r: Rows, s: Stage): (l: Loaded<Checkpoint>)
    ensures l.Present? ==> s in r.checkpoints && l.value == r.checkpoints[s] && l.value.stage == s && l.value.Valid()
    ensures l.Absent? <==> s !in r.checkpoints
    decreases Rank(s)
  {
    if s !in r.checkpoints then Absent
    else
      var c := r.checkpoints[s];
      var o := LoadOrchestration(r);
      if && c.stage == s && c.Valid() && o.Present? && c.id == o.value.id
         && (forall p :: p in ReloadedStages(s) ==> LoadCheckpoint(r, p).Present?)
         && BindingAdmits(c, r.checkpoints)
         && PhaseAdmits(c, o.value)
      then Present(c) else Invalid
  }

  // ---------------------------------------------------------------- transactions

  function FinishWork(w: Work, status: WorkStatus, when: int): Work {
    w.(status := status, updatedAt := when, nextAttemptAt := None)
  }

  predicate IsRunning(w: Option<Work>) {
    w.Some? && w.value.status == Running
  }

  /** `_record_plan`: the orchestration must still be `current`, and the row must not exist. */
  function TxPlan(r: Rows, current: Orchestration, plan: Checkpoint): Option<Rows> {
    if && plan.Valid() && LoadOrchestration(r) == Present(current) && plan.stage !in r.checkpoints
       && (plan.stage == Backup ==> Semantic in r.checkpoints)
    then Some(r.(checkpoints := r.checkpoints[plan.stage := plan]))
    else None
  }

  /** The rows once a stage before Backup has ended. */
  function Committed(r: Rows, finished: Checkpoint, advanced: Orchestration): Rows
    requires Blocks(finished) ==> IsRunning(r.work)
  {
    r.(checkpoints := r.checkpoints[finished.stage := finished],
       orchestration := Some(advanced),
       work := if Blocks(finished) then Some(FinishWork(r.work.value, WorkBlocked, advanced.updatedAt)) else r.work)
  }

  /** `_complete_atomically` / `_finish_atomically` of the six stages before Backup. */
  function TxAdvance(r: Rows, planned: Checkpoint, finished: Checkpoint, current: Orchestration, advanced: Orchestration): Option<Rows>
    requires planned.stage == finished.stage != Backup
  {
    if && LoadCheckpoint(r, planned.stage) == Present(planned) && planned.phase == Planned
       && LoadOrchestration(r) == Present(current)
       && (Blocks(finished) ==> IsRunning(r.work))
    then Some(Committed(r, finished, advanced)) else None
  }

  /** `_transition_checkpoint`: compare-and-swap of the backup row on its record digest. */
  function TxTransition(r: Rows, previous: Checkpoint, replacement: Checkpoint): Option<Rows> {
    if Backup in r.checkpoints && r.checkpoints[Backup] == previous
    then Some(r.(checkpoints := r.checkpoints[Backup := replacement]))
    else None
  }

  /** `_finish_atomically` of the backup stage. */
  function TxFinishBackup(r: Rows, previous: Checkpoint, finished: Checkpoint, current: Orchestration, advanced: Orchestration, when: int): Option<Rows> {
    if && Backup in r.checkpoints && r.checkpoints[Backup] == previous
       && r.orchestration == Some(current)
       && IsRunning(r.work)
       && (finished.phase == Done ==> finished.evidence.Some? && r.prepared.None? && r.apply.None?)
    then
      var done := r.(checkpoints := r.checkpoints[Backup := finished], orchestration := Some(advanced),
                     work := Some(FinishWork(r.work.value, if finished.phase == Done then Succeeded else WorkBlocked, when)));
      Some(if finished.phase == Done
           then done.(prepared := Some(Prepared(current.id, finished.evidence.value, when)),
                      apply := Some(Work(Pending, 0, when, when, Some(when))))
           else done)
    else None
  }

  /** `register_claimed_candidate`, when the exact claimed work row is still running. */
  function TxRegister(r: Rows, claimed: Work, id: Identity, when: int): Option<Rows> {
    if r.work != Some(claimed) || claimed.status != Running then None
    else match LoadOrchestration(r)
      case Invalid => None
      case Present(o) => if o.id == id then Some(r) else None
      case Absent => Some(r.(orchestration := Some(Orchestration(id, Detected, DoFetchStage, when, when))))
  }

  // ---------------------------------------------------------------- work rows

  const MAX_WORK_ATTEMPTS: nat := 8
  const MAX_WORK_BACKOFF_SECONDS: nat := 3600

  datatype Lane = Preflight | StageLane(stage: Stage)

  predicate Due(w: Work, when: int) {
    w.nextAttemptAt.Some? && w.nextAttemptAt.value <= when
  }

  /** The claim query of each lane, restricted to one candidate. */
  predicate Claimable(r: Rows, lane: Lane, when: int) {
    && r.work.Some? && Due(r.work.value, when)
    && match lane
       case Preflight =>
         && r.work.value.status == Pending && r.work.value.attempts < MAX_WORK_ATTEMPTS
         && (r.orchestration.None?
             || (exists s :: s in STAGES - {Backup} && r.orchestration.value.phase == PhaseBefore(s)
                             && r.orchestration.value.action == ActionOf(PhaseBefore(s))))
       case StageLane(s) =>
         && (r.work.value.status == Pending || r.work.value.status == Retry)
         && (if r.orchestration.None? then s == FetchStage
             else r.orchestration.value.action == ActionOf(PhaseBefore(s)))
  }

  function Claim(w: Work, when: int): Work {
    w.(status := Running, attempts := w.attempts + 1, updatedAt := when, nextAttemptAt := None)
  }

  function Recovered(w: Work, when: int): Work {
    if w.status == Running then w.(status := Retry, updatedAt := when, nextAttemptAt := Some(when)) else w
  }

  function Power2(n: nat): nat {
    if n == 0 then 1 else 2 * Power2(n - 1)
  }

  function Failed(w: Work, transient: bool, when: int): Work
    requires w.attempts >= 1
  {
    if transient && w.attempts < MAX_WORK_ATTEMPTS then
      var delay := if 60 * Power2(w.attempts - 1) < MAX_WORK_BACKOFF_SECONDS then 60 * Power2(w.attempts - 1) else MAX_WORK_BACKOFF_SECONDS;
      w.(status := Retry, updatedAt := when, nextAttemptAt := Some(when + delay))
    else w.(status := WorkBlocked, updatedAt := when, nextAttemptAt := None)
  }

  function Deferred(w: Work, when: int): Work {
    w.(status := Pending, attempts := 0, updatedAt := when, nextAttemptAt := Some(when))
  }

  /** `fail_work`/`defer_work` touch only a row still running with the claimed attempts. */
  predicate StillClaimed(r: Rows, attempts: nat) {
    IsRunning(r.work) && r.work.value.attempts == attempts && attempts >= 1
  }

  /** An administrative retry makes one blocked row pending again. */
  function AdministrativelyRetried(w: Work, when: int): Work {
    if w.status == WorkBlocked then Deferred(w, when) else w
  }

  /** `n` attempts in a row, each claimed and then failed transiently. */
  function Attempted(w: Work, n: nat, when: int): Work {
    if n == 0 then w else Failed(Claim(Attempted(w, n - 1, when), when), true, when)
  }

  lemma Powers()
    ensures Power2(0) == 1 && Power2(1) == 2 && Power2(2) == 4 && Power2(3) == 8 && Power2(4) == 16 && Power2(5) == 32 && Power2(6) == 64
    ensures Power2(7) == 128
  {
    assert Power2(1) == 2 * Power2(0);
    assert Power2(3) == 2 * Power2(2) && Power2(2) == 2 * Power2(1);
    assert Power2(5) == 2 * Power2(4) && Power2(4) == 2 * Power2(3);
    assert Power2(7) == 2 * Power2(6) && Power2(6) == 2 * Power2(5);
  }

  /** The seconds after which each attempt but the last is made again. */
  const DELAYS: seq<int> := [60, 120, 240, 480, 960, 1920, 3600]

  /** Transient failures are retried, first after a minute, then after twice as long each time but never
      more than an hour, until the eighth attempt blocks the row for good. */
  lemma {:induction false} EighthAttemptBlocks(w: Work, n: nat, when: int)
    requires w.attempts == 0 && 1 <= n <= MAX_WORK_ATTEMPTS
    ensures
      var after := Attempted(w, n, when);
      && after.attempts == n
      && (n < MAX_WORK_ATTEMPTS ==>
            after.status == Retry && after.nextAttemptAt == Some(when + DELAYS[n - 1]))
      && (n == MAX_WORK_ATTEMPTS ==> after.status == WorkBlocked && after.nextAttemptAt.None?)
  {
    if n > 1 { EighthAttemptBlocks(w, n - 1, when); }
    Powers();
  }

  /** A row that was blocked has all eight attempts again once an administrator has retried it. */
  lemma RetryGivesEightAttempts(w: Work, n: nat, when: int)
    requires w.status == WorkBlocked && 1 <= n <= MAX_WORK_ATTEMPTS
    ensures
      var after := Attempted(AdministrativelyRetried(w, when), n, when);
      after.status == if n < 8 then Retry else WorkBlocked
  {
    EighthAttemptBlocks(AdministrativelyRetried(w, when), n, when);
  }
}

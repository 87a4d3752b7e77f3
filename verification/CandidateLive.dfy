/** From where the pipeline can still end. Safety alone would hold of a pipeline that never does anything;
    here every reachable state is shown to have a continuation that ends the candidate, completed unless a
    backup start is already on record, with the one exception of a backdated Fetch/Stage row. */
module CandidateLive {
  import opened Options
  import opened Candidate
  import opened CandidateInvariant
  import opened BackupOutcome
  import opened CandidateRuns
  import opened CandidateProgress
  import opened CandidateStuck
  import opened CandidateSafety
  import opened CandidatePaths

  // ---------------------------------------------------------------- a waiting row has a due time

  predicate HasDue(r: Rows) {
    r.work.Some? && (r.work.value.status == Pending || r.work.value.status == Retry) ==> r.work.value.nextAttemptAt.Some?
  }

  lemma StageStepKeepsDue(s: System, a: Action)
    requires HasDue(s.rows) && ByWorker(a) && !OfBackup(a) && a.w in s.workers
    ensures HasDue(StageStep(s, a).rows)
  {
  }

  lemma BackupStepKeepsDue(s: System, a: Action)
    requires HasDue(s.rows) && OfBackup(a) && a.w in s.workers
    ensures HasDue(BackupStep(s, a).rows)
  {
  }

  lemma StepKeepsDue(s: System, a: Action)
    requires HasDue(s.rows)
    ensures HasDue(Step(s, a).rows)
  {
    if ByWorker(a) && a.w in s.workers {
      StepOfWorker(s, a);
      if OfBackup(a) { BackupStepKeepsDue(s, a); } else { StageStepKeepsDue(s, a); }
    }
  }

  lemma {:induction false} RunKeepsDue(s: System, actions: seq<Action>)
    requires HasDue(s.rows)
    ensures HasDue(Run(s, actions).rows)
    decreases |actions|
  {
    if actions != [] {
      StepKeepsDue(s, actions[0]);
      RunKeepsDue(Step(s, actions[0]), actions[1..]);
    }
  }

  ghost predicate Sound(s: System) {
    Good(s) && HasDue(s.rows)
  }

  lemma PathKeepsSound(p: Path)
    requires p.Valid() && Sound(p.From())
    ensures Sound(p.End())
  {
    PathIsRun(p);
    InOrderIsGood(p.From(), p.steps);
    RunKeepsDue(p.From(), p.steps);
  }

  // ---------------------------------------------------------------- claiming

  /** The candidate waits for this stage. */
  predicate Awaits(r: Rows, stage: Stage) {
    && r.work.Some? && r.work.value.status != Succeeded
    && if r.orchestration.None? then stage == FetchStage
       else r.orchestration.value.Valid() && r.orchestration.value.phase == PhaseBefore(stage)
  }

  function Later(a: int, b: Option<int>): (t: int)
    ensures a <= t && (b.Some? ==> b.value <= t)
  {
    if b.Some? && a < b.value then b.value else a
  }

  /** A time no earlier than the clock and whatever the stage's records carry. */
  function LateTime(s: System, stage: Stage): (t: int)
    requires s.rows.work.Some?
    ensures s.clock <= t && (s.rows.work.value.nextAttemptAt.Some? ==> s.rows.work.value.nextAttemptAt.value <= t)
    ensures s.rows.orchestration.Some? ==> s.rows.orchestration.value.registeredAt <= t
    ensures stage in s.rows.checkpoints ==>
      && s.rows.checkpoints[stage].plannedAt <= t
      && (s.rows.checkpoints[stage].startedAt.Some? ==> s.rows.checkpoints[stage].startedAt.value <= t)
  {
    var due := Later(s.clock, s.rows.work.value.nextAttemptAt);
    var registered := if s.rows.orchestration.Some? then Later(due, Some(s.rows.orchestration.value.registeredAt)) else due;
    if stage in s.rows.checkpoints then Later(Later(registered, Some(s.rows.checkpoints[stage].plannedAt)), s.rows.checkpoints[stage].startedAt)
    else registered
  }

  lemma {:induction false} FreshNumber(used: set<nat>) returns (n: nat)
    ensures forall u :: u in used ==> u < n
  {
    if used == {} { return 0; }
    var u :| u in used;
    var m := FreshNumber(used - {u});
    n := if u < m then m else u + 1;
    forall v | v in used ensures v < n { assert v == u || v in used - {u}; }
  }

  /** A worker that has claimed the candidate and read nothing yet. */
  predicate Claimed(s: System, w: nat, when: int) {
    && w in s.workers && s.workers[w].when == when && s.workers[w].current == None && s.workers[w].seen == map[]
    && s.workers[w].ticket == NoTicket && s.rows.work == Some(s.workers[w].claimed) && s.workers[w].claimed.status == Running
  }

  /** The state but for the clock, the workers and the work row. */
  predicate SameBut(s: System, s': System) {
    s'.id == s.id && s'.rows == s.rows.(work := s'.rows.work) && s'.issued == s.issued && s'.made == s.made
  }

  /** Time passes, an administrator retries, the process restarts: the row is due for the lane of its stage. */
  lemma MadeDue(p: Path, stage: Stage) returns (q: Path)
    requires p.Valid() && HasDue(p.End().rows) && Awaits(p.End().rows, stage)
    ensures q.Valid() && q.From() == p.From() && SameBut(p.End(), q.End()) && q.End().workers == p.End().workers
    ensures var t := LateTime(p.End(), stage); q.End().clock == t && Claimable(q.End().rows, StageLane(stage), t)
  {
    var s := p.End();
    var t := LateTime(s, stage);
    var ticked := s.(clock := t);
    q := ExtendTo(p, Tick(t), ticked);
    var retried := SetWork(ticked, AdministrativelyRetried(s.rows.work.value, t));
    q := ExtendTo(q, RetryBlocked, retried);
    q := ExtendTo(q, Recover, SetWork(retried, Recovered(retried.rows.work.value, t)));
    if s.rows.orchestration.Some? { ValidActionIsDetermined(s.rows.orchestration.value); }
  }

  lemma Claims(p: Path, stage: Stage) returns (q: Path, w: nat)
    requires p.Valid() && HasDue(p.End().rows) && Awaits(p.End().rows, stage)
    ensures q.Valid() && q.From() == p.From() && SameBut(p.End(), q.End())
    ensures Claimed(q.End(), w, LateTime(p.End(), stage))
  {
    q := MadeDue(p, stage);
    w := FreshNumber(q.End().workers.Keys);
    assert w !in q.End().workers;
    q := Extend(q, Begin(w, StageLane(stage), q.End().clock));
  }

  // ---------------------------------------------------------------- reading the authority

  /** Well-formed rows of a candidate in the phase of this stage, its work row claimed. */
  ghost predicate Current(r: Rows, o: Orchestration, stage: Stage) {
    RowsInv(r, o.id) && r.orchestration == Some(o) && o.phase == PhaseBefore(stage) && IsRunning(r.work)
  }

  lemma PredecessorStored(r: Rows, o: Orchestration, stage: Stage, p: Stage)
    requires Current(r, o, stage) && p in PredecessorStages(stage)
    ensures p in r.checkpoints && r.checkpoints[p].phase == Done && LoadCheckpoint(r, p) == Present(r.checkpoints[p])
  {
    CompletedPrefix(r, o.id, p);
    LoadersAccept(r, o.id, p);
  }

  lemma RowStored(r: Rows, o: Orchestration, stage: Stage)
    requires Current(r, o, stage) && stage in r.checkpoints
    ensures var c := r.checkpoints[stage];
            && c.stage == stage && c.Valid() && c.orchestration == OrchestrationDigest(o) && c.evidence.None?
            && HasAll(r.checkpoints, PredecessorStages(stage)) && c.predecessors == Digests(r.checkpoints, PredecessorStages(stage))
            && LoadCheckpoint(r, stage) == Present(c) && (stage != Backup ==> c.phase == Planned)
  {
    CompletedPrefix(r, o.id, stage);
    LoadersAccept(r, o.id, stage);
    assert Slot(r, o.id, stage);
  }

  lemma {:induction false} ReadsAll(p: Path, s: System, w: nat, ps: seq<Stage>) returns (q: Path, seen: map<Stage, Checkpoint>)
    requires p.Valid() && p.End() == s && w in s.workers && s.workers[w].current.Some? && s.workers[w].seen == map[]
    requires forall x :: x in ps ==> x in s.rows.checkpoints && LoadCheckpoint(s.rows, x) == Present(s.rows.checkpoints[x])
    ensures q.Valid() && q.From() == p.From() && q.End() == SetWorker(s, w, s.workers[w].(seen := seen))
    ensures forall x :: x in seen <==> x in ps
    ensures forall x :: x in seen ==> x in s.rows.checkpoints && seen[x] == s.rows.checkpoints[x]
  {
    if ps == [] {
      q, seen := p, map[];
      SameMemory(s, w);
    } else {
      var front, last := ps[..|ps| - 1], ps[|ps| - 1];
      assert ps == front + [last];
      q, seen := ReadsAll(p, s, w, front);
      q := ReadsAnother(s, q, w, seen, last, s.rows.checkpoints[last]);
      seen := seen[last := s.rows.checkpoints[last]];
    }
  }

  /** The worker has read the current orchestration and the completed predecessors of the stage. */
  ghost predicate HasAuthority(s: System, w: nat, stage: Stage, o: Orchestration, when: int) {
    && w in s.workers && s.workers[w].when == when && s.workers[w].current == Some(o) && At(s.workers[w], stage)
    && SeenPredecessors(s.workers[w], stage) && stage !in s.workers[w].seen && HasAll(s.rows.checkpoints, PredecessorStages(stage))
    && Digests(s.workers[w].seen, PredecessorStages(stage)) == Digests(s.rows.checkpoints, PredecessorStages(stage))
  }

  lemma ReadsAuthority(p: Path, w: nat, stage: Stage, o: Orchestration, when: int) returns (q: Path)
    requires p.Valid() && Claimed(p.End(), w, when) && Current(p.End().rows, o, stage)
    ensures q.Valid() && q.From() == p.From() && q.End().rows == p.End().rows && SameBut(p.End(), q.End())
    ensures HasAuthority(q.End(), w, stage, o, when)
  {
    var r := p.End().rows;
    var ps := PredecessorStages(stage);
    ValidActionIsDetermined(o);
    q := ReadsOrchestration(p, w, o);
    forall x | x in ps ensures x in r.checkpoints && r.checkpoints[x].phase == Done && LoadCheckpoint(r, x) == Present(r.checkpoints[x]) {
      PredecessorStored(r, o, stage, x);
    }
    var seen;
    q, seen := ReadsAll(q, q.End(), w, ps);
    DigestsUnchanged(seen, r.checkpoints, ps);
  }

  // ---------------------------------------------------------------- planning

  lemma StagePlanned(r: Rows, o: Orchestration, stage: Stage, when: int)
    requires Current(r, o, stage) && stage !in r.checkpoints && HasAll(r.checkpoints, PredecessorStages(stage))
    ensures
      var plan := Plan(stage, o, Digests(r.checkpoints, PredecessorStages(stage)), when);
      var r' := r.(checkpoints := r.checkpoints[stage := plan]);
      TxPlan(r, o, plan) == Some(r')
  {
    assert stage == Backup ==> Semantic in PredecessorStages(stage);
  }

  lemma PlanKeepsCurrent(r: Rows, o: Orchestration, stage: Stage, when: int)
    requires Current(r, o, stage) && stage !in r.checkpoints && HasAll(r.checkpoints, PredecessorStages(stage))
    ensures
      var plan := Plan(stage, o, Digests(r.checkpoints, PredecessorStages(stage)), when);
      Current(r.(checkpoints := r.checkpoints[stage := plan]), o, stage)
  {
    StagePlanned(r, o, stage, when);
    TxPlanKeeps(r, o.id, o, stage, when);
  }

  /** The worker holds the stored row of its stage, bound to what it has read. */
  ghost predicate HoldsRow(s: System, w: nat, stage: Stage, o: Orchestration, when: int) {
    && Current(s.rows, o, stage) && stage in s.rows.checkpoints
    && w in s.workers && s.workers[w].when == when && s.workers[w].current == Some(o) && SeenBound(s.workers[w], stage)
    && s.workers[w].seen[stage] == s.rows.checkpoints[stage]
  }

  lemma PlanStep(s: System, w: nat, stage: Stage, o: Orchestration, when: int)
    requires HasAuthority(s, w, stage, o, when) && Current(s.rows, o, stage) && stage !in s.rows.checkpoints
    ensures Step(s, RecordPlan(w, stage)) == s.(rows := WithPlan(s.rows, o, stage, when))
    ensures Current(WithPlan(s.rows, o, stage, when), o, stage)
  {
    StagePlanned(s.rows, o, stage, when);
    PlanKeepsCurrent(s.rows, o, stage, when);
  }

  lemma StillHasAuthority(s: System, s': System, w: nat, stage: Stage, o: Orchestration, when: int)
    requires HasAuthority(s, w, stage, o, when) && s'.workers == s.workers
    requires s'.rows.checkpoints.Keys == s.rows.checkpoints.Keys + {stage}
    requires forall x :: x in s.rows.checkpoints && x != stage ==> s'.rows.checkpoints[x] == s.rows.checkpoints[x]
    ensures HasAuthority(s', w, stage, o, when)
  {
    assert stage !in PredecessorStages(stage);
    DigestsUnchanged(s.rows.checkpoints, s'.rows.checkpoints, PredecessorStages(stage));
  }

  /** The rows with the stage's row, planned now if there was none. */
  function WithPlan(r: Rows, o: Orchestration, stage: Stage, when: int): Rows
    requires HasAll(r.checkpoints, PredecessorStages(stage))
  {
    if stage in r.checkpoints then r
    else r.(checkpoints := r.checkpoints[stage := Plan(stage, o, Digests(r.checkpoints, PredecessorStages(stage)), when)])
  }

  lemma RecordsStagePlan(p: Path, w: nat, stage: Stage, o: Orchestration, when: int) returns (q: Path)
    requires p.Valid() && HasAuthority(p.End(), w, stage, o, when) && Current(p.End().rows, o, stage)
    ensures q.Valid() && q.From() == p.From() && HasAuthority(q.End(), w, stage, o, when) && Current(q.End().rows, o, stage)
    ensures q.End() == p.End().(rows := WithPlan(p.End().rows, o, stage, when))
  {
    q := p;
    if stage !in p.End().rows.checkpoints {
      PlanStep(p.End(), w, stage, o, when);
      q := Extend(p, RecordPlan(w, stage));
      StillHasAuthority(p.End(), q.End(), w, stage, o, when);
    }
  }

  lemma ReadsItsRow(p: Path, w: nat, stage: Stage, o: Orchestration, when: int) returns (q: Path)
    requires p.Valid() && HasAuthority(p.End(), w, stage, o, when) && Current(p.End().rows, o, stage) && stage in p.End().rows.checkpoints
    ensures q.Valid() && q.From() == p.From() && q.End().rows == p.End().rows && HoldsRow(q.End(), w, stage, o, when)
    ensures q.End().issued == p.End().issued && q.End().made == p.End().made && q.End().workers[w].ticket == p.End().workers[w].ticket
  {
    RowStored(p.End().rows, o, stage);
    q := ReadsCheckpoint(p, w, stage, p.End().rows.checkpoints[stage]);
    DigestsUnchanged(p.End().workers[w].seen, q.End().workers[w].seen, PredecessorStages(stage));
  }

  // ---------------------------------------------------------------- concluding a stage before Backup

  const CLEAN: Evidence := Evidence("", true)

  lemma StageConcludes(r: Rows, o: Orchestration, stage: Stage, when: int)
    requires Current(r, o, stage) && stage != Backup && stage in r.checkpoints
    requires r.checkpoints[stage].plannedAt <= when && o.registeredAt <= when
    ensures
      var finished := Complete(r.checkpoints[stage], CLEAN, when);
      var advanced := Orchestration(o.id, PhaseAfter(stage), ActionOf(PhaseAfter(stage)), o.registeredAt, when);
      && finished.Valid() && !Blocks(finished) && Successor(o, finished, when) == advanced && advanced.Valid()
      && TxAdvance(r, r.checkpoints[stage], finished, o, advanced)
           == Some(r.(checkpoints := r.checkpoints[stage := finished], orchestration := Some(advanced)))
  {
    RowStored(r, o, stage);
  }

  lemma ConcludesStage(p: Path, w: nat, stage: Stage, o: Orchestration, when: int) returns (q: Path)
    requires p.Valid() && HoldsRow(p.End(), w, stage, o, when) && stage != Backup
    requires p.End().rows.checkpoints[stage].plannedAt <= when && o.registeredAt <= when
    ensures q.Valid() && q.From() == p.From()
    ensures q.End().rows == p.End().rows.(
      checkpoints := p.End().rows.checkpoints[stage := Complete(p.End().rows.checkpoints[stage], CLEAN, when)],
      orchestration := Some(Orchestration(o.id, PhaseAfter(stage), ActionOf(PhaseAfter(stage)), o.registeredAt, when)))
  {
    RowStored(p.End().rows, o, stage);
    StageConcludes(p.End().rows, o, stage, when);
    ConcludeIsStep(p.End(), w, stage, Accept(CLEAN));
    q := Extend(p, Conclude(w, stage, Accept(CLEAN)));
  }

  /** One whole pass of a stage before Backup: the phase moves on by one stage. */
  ghost predicate Advanced(r: Rows, stage: Stage, r': Rows) {
    && r'.orchestration.Some? && r'.orchestration.value.phase == PhaseAfter(stage)
    && r'.orchestration.value.action == ActionOf(PhaseAfter(stage))
    && stage in r'.checkpoints && r'.checkpoints[stage].phase == Done && r'.checkpoints[stage].evidence == Some(CLEAN)
    && (forall x :: x in r'.checkpoints ==> x == stage || x in r.checkpoints)
    && r'.work.Some? && r'.work.value.status == Running
  }

  /** From the claim up to the stage's own row. */
  lemma PassToRow(p: Path, w: nat, stage: Stage, o: Orchestration, when: int) returns (q: Path)
    requires p.Valid() && Claimed(p.End(), w, when) && Current(p.End().rows, o, stage)
    ensures q.Valid() && q.From() == p.From() && HoldsRow(q.End(), w, stage, o, when)
    ensures q.End().rows.orchestration == p.End().rows.orchestration && q.End().rows.work == p.End().rows.work
    ensures forall x :: x in q.End().rows.checkpoints <==> x == stage || x in p.End().rows.checkpoints
    ensures var c := q.End().rows.checkpoints[stage];
            if stage in p.End().rows.checkpoints then c == p.End().rows.checkpoints[stage]
            else c.phase == Planned && c.plannedAt == when && c.startedAt.None?
  {
    q := ReadsAuthority(p, w, stage, o, when);
    q := RecordsStagePlan(q, w, stage, o, when);
    q := ReadsItsRow(q, w, stage, o, when);
  }

  /** From the claim on. */
  lemma PassFromClaim(p: Path, w: nat, stage: Stage, o: Orchestration, when: int) returns (q: Path)
    requires p.Valid() && Claimed(p.End(), w, when) && Current(p.End().rows, o, stage) && stage != Backup
    requires o.registeredAt <= when && (stage in p.End().rows.checkpoints ==> p.End().rows.checkpoints[stage].plannedAt <= when)
    ensures q.Valid() && q.From() == p.From() && Advanced(p.End().rows, stage, q.End().rows)
  {
    q := PassToRow(p, w, stage, o, when);
    q := ConcludesStage(q, w, stage, o, when);
  }

  lemma CurrentAfterClaim(s: System, s': System, w: nat, when: int, stage: Stage)
    requires Good(s') && SameBut(s, s') && Claimed(s', w, when) && s.rows.orchestration.Some? && s.rows.orchestration.value.phase == PhaseBefore(stage)
    ensures Current(s'.rows, s.rows.orchestration.value, stage)
  {
  }

  /** Whatever state it is in, a candidate waiting for a stage before Backup can pass it. */
  lemma StagePasses(p: Path, stage: Stage) returns (q: Path)
    requires p.Valid() && Sound(p.From()) && stage != Backup
    requires p.End().rows.orchestration.Some? && p.End().rows.orchestration.value.phase == PhaseBefore(stage)
    ensures q.Valid() && q.From() == p.From() && Advanced(p.End().rows, stage, q.End().rows)
  {
    PathKeepsSound(p);
    UnpreparedBeforeBackup(p.End().rows, p.End().id);
    var w;
    q, w := Claims(p, stage);
    PathKeepsSound(q);
    CurrentAfterClaim(p.End(), q.End(), w, LateTime(p.End(), stage), stage);
    q := PassFromClaim(q, w, stage, p.End().rows.orchestration.value, LateTime(p.End(), stage));
  }

  // ---------------------------------------------------------------- registering

  lemma UnregisteredWork(r: Rows, id: Identity)
    requires RowsInv(r, id) && r.orchestration.None?
    ensures r.work.Some? ==> r.work.value.status != Succeeded
  {
  }

  lemma RegisterStep(s: System, w: nat, when: int)
    requires Claimed(s, w, when) && s.rows.orchestration.None?
    ensures Step(s, Register(w)) == s.(rows := s.rows.(orchestration := Some(Orchestration(s.id, Detected, DoFetchStage, when, when))))
  {
  }

  /** A candidate without an orchestration, detected or not, can be registered. */
  lemma Registers(p: Path) returns (q: Path)
    requires p.Valid() && Sound(p.From()) && p.End().rows.orchestration.None?
    ensures q.Valid() && q.From() == p.From()
    ensures q.End().rows.orchestration.Some? && q.End().rows.orchestration.value.phase == Detected && q.End().rows.checkpoints == map[]
  {
    q := p;
    if p.End().rows.work.None? { q := Extend(p, Detect); }
    PathKeepsSound(q);
    UnregisteredWork(q.End().rows, q.End().id);
    var w, when := 0, LateTime(q.End(), FetchStage);
    q, w := Claims(q, FetchStage);
    RegisterStep(q.End(), w, when);
    q := Extend(q, Register(w));
    PathKeepsSound(q);
  }

  // ---------------------------------------------------------------- the backup

  /** A worker at its unstarted journal row starts it, is answered and finishes. */
  lemma BackupCompletes(p: Path, w: nat, o: Orchestration, when: int) returns (q: Path)
    requires p.Valid() && HoldsRow(p.End(), w, Backup, o, when) && ReadyAt(p.End().rows, o, p.End().rows.checkpoints[Backup], when)
    requires p.End().rows.checkpoints[Backup].phase == Planned
    ensures q.Valid() && q.From() == p.From()
    ensures q.End().rows.orchestration.Some? && q.End().rows.orchestration.value.phase == Completed
  {
    var started := Start(p.End().rows.checkpoints[Backup], when);
    q := BackupStarts(p, w, o, when);
    q := CreatesBackup(q, w, started, Some("a"));
    CompletionFits(q.End().rows, o, started, "a", when);
    q := FinishesBackup(q, w, started, Complete(started, Evidence("a", true), when), o, when);
  }

  lemma BackupStarts(p: Path, w: nat, o: Orchestration, when: int) returns (q: Path)
    requires p.Valid() && HoldsRow(p.End(), w, Backup, o, when) && ReadyAt(p.End().rows, o, p.End().rows.checkpoints[Backup], when)
    requires p.End().rows.checkpoints[Backup].phase == Planned
    ensures q.Valid() && q.From() == p.From()
    ensures
      var started := Start(p.End().rows.checkpoints[Backup], when);
      && ReadyAt(q.End().rows, o, started, when)
      && w in q.End().workers && q.End().workers[w] == p.End().workers[w].(ticket := MayCreate(started))
  {
    var planned := p.End().rows.checkpoints[Backup];
    StartFits(p.End().rows, o, planned, when);
    q := StartsBackup(p, w, planned, Start(planned, when));
    q := ConfirmsStart(q, w, Start(planned, when));
  }

  /** A worker at a journal row already started declares it uncertain. */
  lemma BackupUncertain(p: Path, w: nat, o: Orchestration, when: int) returns (q: Path)
    requires p.Valid() && HoldsRow(p.End(), w, Backup, o, when) && ReadyAt(p.End().rows, o, p.End().rows.checkpoints[Backup], when)
    requires p.End().rows.checkpoints[Backup].phase == MutationStarted
    ensures q.Valid() && q.From() == p.From()
    ensures HoldsRow(q.End(), w, Backup, o, when) && ReadyAt(q.End().rows, o, q.End().rows.checkpoints[Backup], when)
    ensures q.End().rows.checkpoints[Backup].phase == Uncertain
  {
    var r, started := p.End().rows, p.End().rows.checkpoints[Backup];
    UncertainFits(r, o, started, when);
    q := MarksUncertain(p, w, started);
    q := ReadsCheckpoint(q, w, Backup, MarkUncertain(started));
    DigestsUnchanged(p.End().workers[w].seen, q.End().workers[w].seen, PREDECESSORS);
  }

  /** A worker at an uncertain journal row finds nothing and blocks the candidate. */
  lemma BackupBlocks(p: Path, w: nat, o: Orchestration, when: int) returns (q: Path)
    requires p.Valid() && HoldsRow(p.End(), w, Backup, o, when) && ReadyAt(p.End().rows, o, p.End().rows.checkpoints[Backup], when)
    requires p.End().rows.checkpoints[Backup].phase == Uncertain
    ensures q.Valid() && q.From() == p.From()
    ensures q.End().rows.orchestration.Some? && q.End().rows.orchestration.value.phase == Blocked
  {
    var r, uncertain := p.End().rows, p.End().rows.checkpoints[Backup];
    RowFound(r, o);
    q := Reconciles(p, w, uncertain, false, []);
    BlockFits(r, o, uncertain, when);
    q := FinishesBackup(q, w, uncertain, Block(uncertain, when), o, when);
  }

  lemma BackupEnds(p: Path) returns (q: Path)
    requires p.Valid() && Sound(p.From())
    requires p.End().rows.orchestration.Some? && p.End().rows.orchestration.value.phase == SemanticallyValidated
    ensures q.Valid() && q.From() == p.From()
    ensures q.End().rows.orchestration.Some? && Terminal(q.End().rows.orchestration.value.phase)
    ensures Backup !in p.End().rows.checkpoints || p.End().rows.checkpoints[Backup].phase == Planned ==>
      q.End().rows.orchestration.value.phase == Completed
  {
    PathKeepsSound(p);
    UnpreparedBeforeBackup(p.End().rows, p.End().id);
    var o, when, w := p.End().rows.orchestration.value, LateTime(p.End(), Backup), 0;
    q, w := Claims(p, Backup);
    PathKeepsSound(q);
    CurrentAfterClaim(p.End(), q.End(), w, when, Backup);
    q := PassToRow(q, w, Backup, o, when);
    RowStored(q.End().rows, o, Backup);
    if q.End().rows.checkpoints[Backup].phase == Planned {
      q := BackupCompletes(q, w, o, when);
    } else {
      if q.End().rows.checkpoints[Backup].phase == MutationStarted { q := BackupUncertain(q, w, o, when); }
      q := BackupBlocks(q, w, o, when);
    }
  }

  // ---------------------------------------------------------------- to the end

  function Remaining(r: Rows): nat {
    if r.orchestration.None? then 9 else 8 - PhaseRank(r.orchestration.value.phase)
  }

  function StageAt(p: Phase): (s: Stage)
    requires !Terminal(p)
    ensures PhaseBefore(s) == p
  {
    match p
    case Detected => FetchStage
    case Staged => Integrity
    case IntegrityVerified => Dependency
    case DependenciesAnalyzed => Risk
    case RiskClassified => Static
    case StaticValidated => Semantic
    case SemanticallyValidated => Backup
  }

  /** No backup start is on record, and the candidate has not been blocked. */
  predicate Unstarted(r: Rows) {
    && (r.orchestration.Some? ==> r.orchestration.value.phase != Blocked)
    && (Backup in r.checkpoints ==> r.checkpoints[Backup].phase == Planned || r.checkpoints[Backup].phase == Done)
  }

  lemma {:induction false} EndsFrom(p: Path) returns (q: Path)
    requires p.Valid() && Sound(p.From())
    ensures q.Valid() && q.From() == p.From()
    ensures q.End().rows.orchestration.Some? && Terminal(q.End().rows.orchestration.value.phase)
    ensures Unstarted(p.End().rows) ==> q.End().rows.orchestration.value.phase == Completed
    decreases Remaining(p.End().rows)
  {
    var r := p.End().rows;
    if r.orchestration.None? {
      q := Registers(p);
      q := EndsFrom(q);
    } else if Terminal(r.orchestration.value.phase) {
      q := p;
    } else {
      var stage := StageAt(r.orchestration.value.phase);
      if stage == Backup {
        PathKeepsSound(p);
        UnpreparedBeforeBackup(r, p.End().id);
        q := BackupEnds(p);
      } else {
        PathKeepsSound(p);
        CompletedPrefix(r, p.End().id, Backup);
        q := StagePasses(p, stage);
        q := EndsFrom(q);
      }
    }
  }

  lemma {:induction false} StuckForGood(s: System, actions: seq<Action>)
    requires Stuck(s)
    ensures Stuck(Run(s, actions))
    decreases |actions|
  {
    if actions != [] {
      StuckStep(s, actions[0]);
      StuckForGood(Step(s, actions[0]), actions[1..]);
    }
  }

  /** A state from which some continuation ends the candidate in this phase. */
  ghost predicate CanReach(s: System, phase: Phase) {
    exists actions {:trigger Run(s, actions)} :: Run(s, actions).rows.orchestration.Some? && Run(s, actions).rows.orchestration.value.phase == phase
  }

  /** From every reachable state the candidate can still end exactly when no backdated Fetch/Stage row is
      stored, whatever has crashed, failed or been blocked on the way; and while it has not been blocked and
      no backup start is on record, it can still complete. */
  lemma EndingIsReachable(id: Identity, clock: int, actions: seq<Action>)
    ensures
      var s := Run(Initial(id, clock), actions);
      && ((CanReach(s, Completed) || CanReach(s, Blocked)) <==> !StoredBackdated(s.rows))
      && (!StoredBackdated(s.rows) && Unstarted(s.rows) ==> CanReach(s, Completed))
  {
    ReachableIsGoodOrStuck(id, clock, actions);
    RunKeepsDue(Initial(id, clock), actions);
    var s := Run(Initial(id, clock), actions);
    if Good(s) {
      NeverBackdated(s);
      var q := EndsFrom(Path([s], []));
      PathIsRun(q);
      var reached := Run(s, q.steps);
      assert reached == q.End();
    } else {
      forall after ensures Stuck(Run(s, after)) { StuckForGood(s, after); }
    }
  }
}

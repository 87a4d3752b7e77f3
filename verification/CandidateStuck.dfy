/** What becomes of a candidate whose Fetch/Stage completion is dated before its plan. The commit does not
    look at the two times, the loader does: the row is stored and can never be loaded again. Every step from
    every reachable state therefore either keeps the invariant or leads to such a state, and nothing but work
    rows changes from there on. */
module CandidateStuck {
  import opened Options
  import opened Candidate
  import opened CandidateInvariant
  import opened CandidateRuns
  import opened CandidateProgress

  // ---------------------------------------------------------------- what workers remember

  /** A remembered row is stored, and one remembered as ended is still as remembered. */
  predicate Remembered(r: Rows, worker: Worker, p: Stage) {
    p in worker.seen ==> p in r.checkpoints && (worker.seen[p].Ended() ==> r.checkpoints[p] == worker.seen[p])
  }

  ghost predicate RemembersStored(r: Rows, worker: Worker) {
    forall p {:trigger Remembered(r, worker, p)} :: Remembered(r, worker, p)
  }

  ghost predicate Good(s: System) {
    Inv(s) && forall w {:trigger s.workers[w]} :: w in s.workers ==> RemembersStored(s.rows, s.workers[w])
  }

  lemma StillRemembered(r: Rows, r': Rows, worker: Worker)
    requires RemembersStored(r, worker) && Extends(r, r')
    ensures RemembersStored(r', worker)
  {
    forall p ensures Remembered(r', worker, p) { assert Remembered(r, worker, p); }
  }

  /** What a step leaves of a worker's memory: the same, nothing, one stored row more or one row less. */
  predicate SeenFrom(s: System, before: map<Stage, Checkpoint>, after: map<Stage, Checkpoint>) {
    forall p :: p in after ==> (p in before && after[p] == before[p]) || (p in s.rows.checkpoints && after[p] == s.rows.checkpoints[p])
  }

  function SeenBy(s: System, v: nat): map<Stage, Checkpoint> {
    if v in s.workers then s.workers[v].seen else map[]
  }

  lemma StageMemoryStep(s: System, a: Action, v: nat)
    requires ByWorker(a) && !OfBackup(a) && a.w in s.workers
    ensures SeenFrom(s, SeenBy(s, v), SeenBy(StageStep(s, a), v))
  {
  }

  lemma BackupMemoryStep(s: System, a: Action, v: nat)
    requires OfBackup(a) && a.w in s.workers
    ensures SeenBy(BackupStep(s, a), v) == SeenBy(s, v)
  {
  }

  lemma MemoryStep(s: System, a: Action, v: nat)
    ensures SeenFrom(s, SeenBy(s, v), SeenBy(Step(s, a), v))
  {
    if ByWorker(a) && a.w in s.workers {
      StepOfWorker(s, a);
      if OfBackup(a) { BackupMemoryStep(s, a, v); } else { StageMemoryStep(s, a, v); }
    }
  }

  lemma MemoryKeeps(s: System, a: Action, v: nat)
    requires Good(s) && Extends(s.rows, Step(s, a).rows) && v in Step(s, a).workers
    ensures RemembersStored(Step(s, a).rows, Step(s, a).workers[v])
  {
    MemoryStep(s, a, v);
    var worker := Step(s, a).workers[v];
    assert v in s.workers ==> RemembersStored(s.rows, s.workers[v]);
    forall p ensures Remembered(s.rows, worker, p) {
      assert v in s.workers ==> Remembered(s.rows, s.workers[v], p);
    }
    StillRemembered(s.rows, Step(s, a).rows, worker);
  }

  lemma OrderedStepKeepsGood(s: System, a: Action)
    requires Good(s) && InOrder(s, a)
    ensures Good(Step(s, a))
  {
    StepKeeps(s, a);
    StepExtends(s, a);
    forall v | v in Step(s, a).workers ensures RemembersStored(Step(s, a).rows, Step(s, a).workers[v]) {
      MemoryKeeps(s, a, v);
    }
  }

  // ---------------------------------------------------------------- the stuck state

  /** Completed before it was planned. */
  predicate Backdated(c: Checkpoint) {
    c.startedAt.None? && c.completedAt.Some? && c.completedAt.value < c.plannedAt
  }

  predicate StuckRows(r: Rows, id: Identity) {
    && r.orchestration.Some? && r.orchestration.value.Valid() && r.orchestration.value.id == id && r.orchestration.value.phase == Staged
    && r.checkpoints.Keys == {FetchStage} && r.checkpoints[FetchStage].stage == FetchStage
    && r.checkpoints[FetchStage].phase == Done && r.checkpoints[FetchStage].predecessors == [] && Backdated(r.checkpoints[FetchStage])
    && r.prepared.None? && r.apply.None? && r.work.Some? && r.work.value.status != Succeeded
  }

  predicate StuckWorker(worker: Worker) {
    worker.ticket == NoTicket && forall p :: p in worker.seen ==> p == FetchStage && !worker.seen[p].Ended()
  }

  ghost predicate Stuck(s: System) {
    && StuckRows(s.rows, s.id) && s.issued == 0 && s.made == []
    && forall w {:trigger s.workers[w]} :: w in s.workers ==> StuckWorker(s.workers[w])
  }

  lemma StuckRowNeverLoads(r: Rows, id: Identity, stage: Stage)
    requires StuckRows(r, id)
    ensures LoadCheckpoint(r, stage) == if stage == FetchStage then Invalid else Absent
  {
  }

  lemma StuckSeesNoPredecessor(worker: Worker, stage: Stage)
    requires StuckWorker(worker) && stage != FetchStage
    ensures !SeenPredecessors(worker, stage)
  {
    var first := PredecessorStages(stage)[0];
    assert first in PredecessorStages(stage);
  }

  lemma StuckWorkerStep(s: System, a: Action)
    requires Stuck(s) && ByWorker(a) && !OfBackup(a) && a.w in s.workers
    ensures Stuck(StageStep(s, a)) && SameRecords(s.rows, StageStep(s, a).rows)
  {
    var worker := s.workers[a.w];
    match a
    case ReadCheckpoint(_, stage) => StuckRowNeverLoads(s.rows, s.id, stage);
    case RecordPlan(_, stage) => if stage != FetchStage { StuckSeesNoPredecessor(worker, stage); }
    case Conclude(_, stage, _) =>
      StuckRowNeverLoads(s.rows, s.id, FetchStage);
      if stage != FetchStage { StuckSeesNoPredecessor(worker, stage); }
    case _ =>
  }

  lemma StuckBackupStep(s: System, a: Action)
    requires Stuck(s) && OfBackup(a) && a.w in s.workers
    ensures Stuck(BackupStep(s, a)) && SameRecords(s.rows, BackupStep(s, a).rows)
  {
    StuckSeesNoPredecessor(s.workers[a.w], Backup);
  }

  /** Time, work rows and vanishing workers do not matter. */
  lemma StuckStays(s: System, s': System)
    requires Stuck(s) && SameRecords(s.rows, s'.rows) && s'.rows.apply == s.rows.apply
    requires s'.id == s.id && s'.issued == s.issued && s'.made == s.made
    requires s'.rows.work.Some? && s'.rows.work.value.status != Succeeded
    requires forall w :: w in s'.workers ==> w in s.workers && s'.workers[w] == s.workers[w]
    ensures Stuck(s')
  {
  }

  lemma StuckOutsideStep(s: System, a: Action)
    requires Stuck(s) && !ByWorker(a) && !a.Begin?
    ensures Stuck(Step(s, a)) && SameRecords(s.rows, Step(s, a).rows)
  {
    StuckStays(s, Step(s, a));
  }

  lemma StuckBegin(s: System, w: nat, lane: Lane, when: int)
    requires Stuck(s)
    ensures Stuck(StepBegin(s, w, lane, when)) && SameRecords(s.rows, StepBegin(s, w, lane, when).rows)
  {
  }

  /** Nothing but work rows changes any more. */
  lemma StuckStep(s: System, a: Action)
    requires Stuck(s)
    ensures Stuck(Step(s, a)) && SameRecords(s.rows, Step(s, a).rows)
  {
    if a.Begin? {
      StuckBegin(s, a.w, a.lane, a.when);
    } else if !ByWorker(a) {
      StuckOutsideStep(s, a);
    } else if a.w in s.workers {
      StepOfWorker(s, a);
      if OfBackup(a) { StuckBackupStep(s, a); } else { StuckWorkerStep(s, a); }
    }
  }

  // ---------------------------------------------------------------- how it comes about

  /** The rows of a candidate whose Fetch/Stage row is planned hold nothing else. */
  lemma OnlyPlanned(s: System)
    requires Inv(s) && FetchStage in s.rows.checkpoints && !s.rows.checkpoints[FetchStage].Ended()
    ensures s.rows.checkpoints.Keys == {FetchStage} && s.rows.orchestration.Some? && s.rows.orchestration.value.phase == Detected
    ensures s.rows.prepared.None? && s.rows.apply.None? && s.rows.work.Some? && s.rows.work.value.status != Succeeded
    ensures s.issued == 0 && s.made == []
    ensures forall w :: w in s.workers ==> s.workers[w].ticket == NoTicket
  {
    CurrentStage(s.rows, s.id, FetchStage);
    UnpreparedBeforeBackup(s.rows, s.id);
    assert forall q :: q in s.rows.checkpoints ==> Rank(q) == 0;
    forall q | q in s.rows.checkpoints ensures q == FetchStage { RankDeterminesStage(q, FetchStage); }
    forall w | w in s.workers ensures s.workers[w].ticket == NoTicket { assert WorkerFits(s, w); }
  }

  lemma LateFetchRow(planned: Checkpoint, e: Evidence, when: int)
    requires planned.stage == FetchStage && planned.Valid() && planned.phase == Planned && when < planned.plannedAt
    ensures var late := Complete(planned, e, when);
            Backdated(late) && !Blocks(late) && late.phase == Done && late.stage == FetchStage && late.predecessors == []
  {
  }

  lemma ConcludeIsStep(s: System, w: nat, stage: Stage, outcome: Outcome)
    requires w in s.workers
    ensures Step(s, Conclude(w, stage, outcome)) == StepConclude(s, w, stage, outcome)
  {
  }

  lemma WorkersAreStuck(s: System)
    requires Good(s) && s.rows.checkpoints.Keys == {FetchStage} && !s.rows.checkpoints[FetchStage].Ended()
    requires forall w :: w in s.workers ==> s.workers[w].ticket == NoTicket
    ensures forall w :: w in s.workers ==> StuckWorker(s.workers[w])
  {
    forall v | v in s.workers ensures StuckWorker(s.workers[v]) {
      assert RemembersStored(s.rows, s.workers[v]);
      forall p | p in s.workers[v].seen ensures p == FetchStage && !s.workers[v].seen[p].Ended() {
        assert Remembered(s.rows, s.workers[v], p);
      }
    }
  }

  /** A completion dated before its plan either is refused or leaves the candidate stuck. */
  lemma DisorderedConclude(s: System, w: nat, outcome: Outcome, s': System)
    requires Good(s) && w in s.workers && FetchStage in s.workers[w].seen && s.workers[w].when < s.workers[w].seen[FetchStage].plannedAt
    requires s' == StepConclude(s, w, FetchStage, outcome)
    ensures s' == s || (Stuck(s') && Extends(s.rows, s'.rows) && Depth(s'.rows) == Depth(s.rows) + 1 && PhaseChanges(s.rows, s'.rows))
  {
    var worker := s.workers[w];
    var t := Conclusion(worker, FetchStage, outcome);
    if t.Some? {
      var (planned, finished) := t.value;
      var current := worker.current.value;
      var u := TxAdvance(s.rows, planned, finished, current, Successor(current, finished, worker.when));
      if u.Some? {
        OnlyPlanned(s);
        LateFetchRow(planned, outcome.evidence, worker.when);
        StuckRowsFollow(s, planned, finished, current, worker.when, u.value);
        WorkersAreStuck(s);
      }
    }
  }

  lemma DisorderedStep(s: System, a: Action)
    requires Good(s) && !InOrder(s, a)
    ensures var s' := Step(s, a);
            s' == s || (Stuck(s') && Extends(s.rows, s'.rows) && Depth(s'.rows) == Depth(s.rows) + 1 && PhaseChanges(s.rows, s'.rows))
  {
    ConcludeIsStep(s, a.w, FetchStage, a.outcome);
    DisorderedConclude(s, a.w, a.outcome, StepConclude(s, a.w, FetchStage, a.outcome));
  }

  lemma StuckRowsFollow(s: System, planned: Checkpoint, finished: Checkpoint, current: Orchestration, when: int, r': Rows)
    requires Inv(s) && s.rows.checkpoints.Keys == {FetchStage} && s.rows.orchestration == Some(current) && current.phase == Detected
    requires s.rows.prepared.None? && s.rows.apply.None? && s.rows.work.Some? && s.rows.work.value.status != Succeeded
    requires s.rows.checkpoints[FetchStage] == planned && !planned.Ended()
    requires Backdated(finished) && finished.phase == Done && finished.stage == FetchStage && finished.predecessors == []
    requires Successor(current, finished, when).Valid() && r' == Committed(s.rows, finished, Successor(current, finished, when))
    ensures StuckRows(r', s.id) && Extends(s.rows, r') && Depth(r') == Depth(s.rows) + 1 && PhaseChanges(s.rows, r')
  {
  }

  // ---------------------------------------------------------------- every run

  ghost predicate GoodOrStuck(s: System) {
    Good(s) || Stuck(s)
  }

  lemma InitialIsGood(id: Identity, clock: int)
    ensures Good(Initial(id, clock))
  {
  }

  /** Every step of every worker keeps the state good or stuck, takes nothing back and ends at most one stage. */
  lemma StepKeepsGoodOrStuck(s: System, a: Action)
    requires GoodOrStuck(s)
    ensures GoodOrStuck(Step(s, a)) && Extends(s.rows, Step(s, a).rows)
    ensures Depth(Step(s, a).rows) == Depth(s.rows) + if PhaseChanges(s.rows, Step(s, a).rows) then 1 else 0
  {
    if Stuck(s) {
      StuckStep(s, a);
      SameRecordsExtend(s.rows, Step(s, a).rows);
    } else if InOrder(s, a) {
      OrderedStepKeepsGood(s, a);
      StepExtends(s, a);
      StepDepth(s, a);
    } else {
      DisorderedStep(s, a);
      SameRecordsExtend(s.rows, s.rows);
    }
  }

  lemma {:induction false} EveryRunIsGoodOrStuck(s: System, actions: seq<Action>)
    requires GoodOrStuck(s)
    ensures GoodOrStuck(Run(s, actions))
    decreases |actions|
  {
    if actions != [] {
      StepKeepsGoodOrStuck(s, actions[0]);
      EveryRunIsGoodOrStuck(Step(s, actions[0]), actions[1..]);
    }
  }
}

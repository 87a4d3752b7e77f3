/** What one undisturbed backup pass must achieve: the records of a completed, an uncertain and a
    blocked backup written out field by field, and the pieces that show each durable step of a pass
    over well-formed rows goes through. */
module BackupOutcome {
  import opened Options
  import opened Candidate
  import opened CandidateInvariant
  import opened BackupInventory

  datatype Ended = Finished(blocked: bool) | Replayed | ToReconcile | Rejected | Crashed

  /** Well-formed rows of a candidate that waits for its backup, its work row claimed. */
  ghost predicate Ready(r: Rows, current: Orchestration) {
    && RowsInv(r, current.id) && r.orchestration == Some(current)
    && current.phase == SemanticallyValidated
    && r.work.Some? && r.work.value.status == Running
  }

  /** The pass's reference time is not before any time already recorded. */
  predicate TimesFit(r: Rows, current: Orchestration, when: int) {
    && current.registeredAt <= when
    && (Backup in r.checkpoints ==>
          && r.checkpoints[Backup].plannedAt <= when
          && (r.checkpoints[Backup].startedAt.Some? ==> r.checkpoints[Backup].startedAt.value <= when))
  }

  /** The journal row of a waiting candidate, at a time that fits. */
  ghost predicate ReadyAt(r: Rows, current: Orchestration, row: Checkpoint, when: int) {
    Ready(r, current) && TimesFit(r, current, when) && Backup in r.checkpoints && r.checkpoints[Backup] == row
  }

  /** The rows once the backup `slug` has been recorded for the journal row `row`. */
  function CompletedRows(r: Rows, current: Orchestration, row: Checkpoint, slug: string, when: int): Rows
    requires r.work.Some?
  {
    Rows(Some(Work(Succeeded, r.work.value.attempts, r.work.value.createdAt, when, None)),
         Some(Orchestration(current.id, Completed, NoAction, current.registeredAt, when)),
         r.checkpoints[Backup := Checkpoint(Backup, row.id, row.orchestration, row.predecessors, Done, Some(Evidence(slug, true)),
                                            row.plannedAt, row.startedAt, Some(when))],
         Some(Prepared(current.id, Evidence(slug, true), when)),
         Some(Work(Pending, 0, when, when, Some(when))))
  }

  /** The rows once the candidate has been blocked because no backup could be attributed to its start. */
  function BlockedRows(r: Rows, current: Orchestration, row: Checkpoint, when: int): Rows
    requires r.work.Some?
  {
    Rows(Some(Work(WorkBlocked, r.work.value.attempts, r.work.value.createdAt, when, None)),
         Some(Orchestration(current.id, Blocked, NoAction, current.registeredAt, when)),
         r.checkpoints[Backup := Checkpoint(Backup, row.id, row.orchestration, row.predecessors, Stopped, None,
                                            row.plannedAt, row.startedAt, Some(when))],
         r.prepared, r.apply)
  }

  /** The rows once the call of the started row `row` has gone unanswered. */
  function UncertainRows(r: Rows, row: Checkpoint): Rows {
    Rows(r.work, r.orchestration,
         r.checkpoints[Backup := Checkpoint(Backup, row.id, row.orchestration, row.predecessors, Uncertain, None,
                                            row.plannedAt, row.startedAt, None)],
         r.prepared, r.apply)
  }

  /** After the create call: an answer completes the candidate with the answered backup, no answer
      leaves the start to be reconciled. */
  predicate CreateOutcome(r: Rows, current: Orchestration, started: Checkpoint, when: int, answer: Option<string>, ended: Ended, r': Rows)
    requires r.work.Some?
  {
    match answer
    case Some(slug) => ended == Finished(false) && r' == CompletedRows(r, current, started, slug, when)
    case None => ended == ToReconcile && r' == UncertainRows(r, started)
  }

  /** After reading the inventory back: the backup found completes the candidate, none blocks it. */
  predicate ReconcileOutcome(r: Rows, current: Orchestration, row: Checkpoint, when: int, found: Option<string>, ended: Ended, r': Rows)
    requires r.work.Some?
  {
    match found
    case Some(slug) => ended == Finished(false) && r' == CompletedRows(r, current, row, slug, when)
    case None => ended == Finished(true) && r' == BlockedRows(r, current, row, when)
  }

  /** The journal row a pass puts before its create call. */
  function StartedRow(planned: Checkpoint, when: int): Checkpoint {
    Checkpoint(Backup, planned.id, planned.orchestration, planned.predecessors, MutationStarted, None, planned.plannedAt, Some(when), None)
  }

  /** The journal row of a candidate that has none yet: bound to the current orchestration and to the
      six completed stages, in their order. */
  function FreshRow(r: Rows, current: Orchestration, when: int): Checkpoint
    requires FetchStage in r.checkpoints && Integrity in r.checkpoints && Dependency in r.checkpoints
    requires Risk in r.checkpoints && Static in r.checkpoints && Semantic in r.checkpoints
  {
    Checkpoint(Backup, current.id, OrchestrationDigest(current),
               [CheckpointDigest(r.checkpoints[FetchStage]), CheckpointDigest(r.checkpoints[Integrity]),
                CheckpointDigest(r.checkpoints[Dependency]), CheckpointDigest(r.checkpoints[Risk]),
                CheckpointDigest(r.checkpoints[Static]), CheckpointDigest(r.checkpoints[Semantic])],
               Planned, None, when, None, None)
  }

  /** The backup the inventory attributes to the start of this row. */
  function Found(row: Checkpoint, reachable: bool, items: seq<Item>): Option<string> {
    if reachable && row.startedAt.Some? then ReconciledSlug(items, row.startedAt.value) else None
  }

  /** What a whole pass achieves, by the journal row it finds. */
  ghost predicate PassOutcome(r: Rows, current: Orchestration, when: int, answer: Option<string>, reachable: bool, items: seq<Item>,
                              ended: Ended, r': Rows)
    requires Ready(r, current)
  {
    if Backup !in r.checkpoints then
      PredecessorsDone(r, current);
      CreateOutcome(r, current, StartedRow(FreshRow(r, current, when), when), when, answer, ended, r')
    else
      var row := r.checkpoints[Backup];
      RowFound(r, current);
      if row.phase == Planned then CreateOutcome(r, current, StartedRow(row, when), when, answer, ended, r')
      else
        ReconcileOutcome(r, current, row, when, Found(row, reachable, items), ended, r')
  }

  /** How many durable steps a pass takes, by the journal row it finds. */
  function DurableSteps(r: Rows): nat {
    if Backup !in r.checkpoints then 4
    else if r.checkpoints[Backup].phase == Planned then 3
    else if r.checkpoints[Backup].phase == MutationStarted then 2
    else 1
  }

  // ---------------------------------------------------------------- what well-formed rows give

  lemma PredecessorsDone(r: Rows, current: Orchestration)
    requires Ready(r, current)
    ensures HasAll(r.checkpoints, PredecessorStages(Backup))
    ensures FetchStage in r.checkpoints && Integrity in r.checkpoints && Dependency in r.checkpoints
    ensures Risk in r.checkpoints && Static in r.checkpoints && Semantic in r.checkpoints
    ensures forall p :: p in PredecessorStages(Backup) ==>
      r.checkpoints[p].phase == Done && LoadCheckpoint(r, p) == Present(r.checkpoints[p])
  {
    forall p | p in PredecessorStages(Backup)
      ensures p in r.checkpoints && r.checkpoints[p].phase == Done && LoadCheckpoint(r, p) == Present(r.checkpoints[p])
    {
      CompletedPrefix(r, current.id, p);
      LoadersAccept(r, current.id, p);
    }
  }

  lemma RowFound(r: Rows, current: Orchestration)
    requires Ready(r, current) && Backup in r.checkpoints
    ensures var row := r.checkpoints[Backup];
            && row.stage == Backup && row.Valid() && !row.Ended() && row.id == current.id && row.evidence.None? && row.completedAt.None?
            && row.orchestration == OrchestrationDigest(current)
            && HasAll(r.checkpoints, PredecessorStages(Backup)) && row.predecessors == Digests(r.checkpoints, PredecessorStages(Backup))
            && (row.phase != Planned ==> row.startedAt.Some?)
            && LoadCheckpoint(r, Backup) == Present(row)
  {
    LoadersAccept(r, current.id, Backup);
    assert Slot(r, current.id, Backup);
  }

  // ---------------------------------------------------------------- each durable step goes through

  lemma PlanCommits(r: Rows, current: Orchestration, plan: Checkpoint)
    requires Ready(r, current) && Backup !in r.checkpoints && Semantic in r.checkpoints
    requires plan.stage == Backup && plan.Valid()
    ensures TxPlan(r, current, plan) == Some(r.(checkpoints := r.checkpoints[Backup := plan]))
  {
  }

  lemma PlanKeepsReady(r: Rows, current: Orchestration, plan: Checkpoint, when: int)
    requires Ready(r, current) && Backup !in r.checkpoints && HasAll(r.checkpoints, PredecessorStages(Backup))
    requires plan == Plan(Backup, current, Digests(r.checkpoints, PredecessorStages(Backup)), when)
    requires TxPlan(r, current, plan) == Some(r.(checkpoints := r.checkpoints[Backup := plan]))
    ensures Ready(r.(checkpoints := r.checkpoints[Backup := plan]), current)
  {
    TxPlanKeeps(r, current.id, current, Backup, when);
  }

  lemma PlanFits(r: Rows, current: Orchestration, when: int)
    requires Ready(r, current) && Backup !in r.checkpoints
    ensures HasAll(r.checkpoints, PredecessorStages(Backup)) && Semantic in r.checkpoints
    ensures
      var plan := Plan(Backup, current, Digests(r.checkpoints, PredecessorStages(Backup)), when);
      var r' := r.(checkpoints := r.checkpoints[Backup := plan]);
      TxPlan(r, current, plan) == Some(r') && Ready(r', current) && LoadCheckpoint(r', Backup) == Present(plan)
  {
    PredecessorsDone(r, current);
    var plan := Plan(Backup, current, Digests(r.checkpoints, PredecessorStages(Backup)), when);
    PlanCommits(r, current, plan);
    PlanKeepsReady(r, current, plan, when);
    ReadyLoads(r.(checkpoints := r.checkpoints[Backup := plan]), current);
  }

  lemma ReadyLoads(r: Rows, current: Orchestration)
    requires Ready(r, current) && Backup in r.checkpoints
    ensures LoadCheckpoint(r, Backup) == Present(r.checkpoints[Backup])
  {
    LoadersAccept(r, current.id, Backup);
  }

  lemma FreshRowIsThePlan(r: Rows, current: Orchestration, when: int)
    requires Ready(r, current)
    requires HasAll(r.checkpoints, PredecessorStages(Backup))
    requires FetchStage in r.checkpoints && Integrity in r.checkpoints && Dependency in r.checkpoints
    requires Risk in r.checkpoints && Static in r.checkpoints && Semantic in r.checkpoints
    ensures Plan(Backup, current, Digests(r.checkpoints, PredecessorStages(Backup)), when) == FreshRow(r, current, when)
  {
    var a, b := Digests(r.checkpoints, PredecessorStages(Backup)), FreshRow(r, current, when).predecessors;
    assert |a| == 6 == |b|;
    forall i | 0 <= i < 6 ensures a[i] == b[i] { }
  }

  lemma StartFits(r: Rows, current: Orchestration, planned: Checkpoint, when: int)
    requires ReadyAt(r, current, planned, when) && planned.phase == Planned
    ensures planned.stage == Backup && Start(planned, when).Valid() && Start(planned, when) == StartedRow(planned, when)
    ensures
      var r' := r.(checkpoints := r.checkpoints[Backup := Start(planned, when)]);
      && TxTransition(r, planned, Start(planned, when)) == Some(r')
      && ReadyAt(r', current, Start(planned, when), when) && LoadCheckpoint(r', Backup) == Present(Start(planned, when))
  {
    RowFound(r, current);
    TxTransitionKeeps(r, current.id, planned, Start(planned, when), when);
    ReadyLoads(r.(checkpoints := r.checkpoints[Backup := Start(planned, when)]), current);
  }

  lemma UncertainFits(r: Rows, current: Orchestration, started: Checkpoint, when: int)
    requires ReadyAt(r, current, started, when) && started.phase == MutationStarted
    ensures started.stage == Backup
    ensures
      var r' := UncertainRows(r, started);
      && r'.checkpoints == r.checkpoints[Backup := MarkUncertain(started)]
      && TxTransition(r, started, MarkUncertain(started)) == Some(r')
      && ReadyAt(r', current, MarkUncertain(started), when) && LoadCheckpoint(r', Backup) == Present(MarkUncertain(started))
  {
    RowFound(r, current);
    TxTransitionKeeps(r, current.id, started, MarkUncertain(started), when);
    ReadyLoads(UncertainRows(r, started), current);
  }

  lemma CompletionFits(r: Rows, current: Orchestration, row: Checkpoint, slug: string, when: int)
    requires ReadyAt(r, current, row, when) && row.phase != Planned
    ensures
      var finished := Complete(row, Evidence(slug, true), when);
      && row.stage == Backup && finished.Valid() && Successor(current, finished, when).Valid()
      && TxFinishBackup(r, row, finished, current, Successor(current, finished, when), when) == Some(CompletedRows(r, current, row, slug, when))
  {
    RowFound(r, current);
    UnpreparedBeforeBackup(r, current.id);
  }

  /** What recording the outcome of the create call writes. */
  lemma AnswerFits(r: Rows, current: Orchestration, started: Checkpoint, when: int, answer: Option<string>)
    requires ReadyAt(r, current, started, when) && started.phase == MutationStarted
    ensures answer.Some? ==>
      var finished := Complete(started, Evidence(answer.value, true), when);
      && finished.Valid() && Successor(current, finished, when).Valid()
      && TxFinishBackup(r, started, finished, current, Successor(current, finished, when), when)
           == Some(CompletedRows(r, current, started, answer.value, when))
    ensures answer.None? ==> TxTransition(r, started, MarkUncertain(started)) == Some(UncertainRows(r, started))
  {
    if answer.Some? {
      CompletionFits(r, current, started, answer.value, when);
    } else {
      UncertainFits(r, current, started, when);
    }
  }

  /** An outcome is written over whatever journal row was there. */
  lemma SameCreateOutcome(r: Rows, between: Rows, current: Orchestration, written: Checkpoint, row: Checkpoint, when: int,
                          answer: Option<string>, ended: Ended, r': Rows)
    requires between == r.(checkpoints := r.checkpoints[Backup := written])
    requires r.work.Some? && CreateOutcome(between, current, row, when, answer, ended, r')
    ensures CreateOutcome(r, current, row, when, answer, ended, r')
  {
  }

  lemma SameReconcileOutcome(r: Rows, between: Rows, current: Orchestration, row: Checkpoint, when: int, found: Option<string>,
                             ended: Ended, r': Rows)
    requires between == r || between == r.(checkpoints := r.checkpoints[Backup := MarkUncertain(row)])
    requires r.work.Some? && ReconcileOutcome(between, current, MarkUncertain(row), when, found, ended, r')
    ensures ReconcileOutcome(r, current, row, when, found, ended, r')
  {
  }

  lemma BlockFits(r: Rows, current: Orchestration, row: Checkpoint, when: int)
    requires ReadyAt(r, current, row, when) && row.phase == Uncertain
    ensures
      var finished := Block(row, when);
      && row.stage == Backup && finished.Valid() && Successor(current, finished, when).Valid()
      && TxFinishBackup(r, row, finished, current, Successor(current, finished, when), when) == Some(BlockedRows(r, current, row, when))
  {
    RowFound(r, current);
  }
}

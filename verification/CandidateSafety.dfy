/** What holds over every run of the candidate pipeline: any interleaving of any number of workers,
    crashes, recoveries, retries and administrative retries, from the empty store. Only where a theorem
    says so does it depend on the order of reference times. */
module CandidateSafety {
  import opened Options
  import opened Candidate
  import opened CandidateInvariant
  import opened CandidateRuns
  import opened CandidateProgress
  import opened CandidateStuck

  lemma ReachableIsGoodOrStuck(id: Identity, clock: int, actions: seq<Action>)
    ensures GoodOrStuck(Run(Initial(id, clock), actions))
  {
    InitialIsGood(id, clock);
    EveryRunIsGoodOrStuck(Initial(id, clock), actions);
  }

  // ---------------------------------------------------------------- the backup journal

  /** At most one create call is ever issued; one has been issued only if a started journal row is
      durable; and a completed candidate names the one backup made, dated no earlier than the start. */
  lemma BackupIsCreatedAtMostOnce(id: Identity, clock: int, actions: seq<Action>)
    ensures
      var s := Run(Initial(id, clock), actions);
      && s.issued <= 1
      && (Backup !in s.rows.checkpoints || s.rows.checkpoints[Backup].phase == Planned ==> s.issued == 0)
      && (s.rows.orchestration.Some? && s.rows.orchestration.value.phase == Completed ==>
            && Backup in s.rows.checkpoints && |s.made| == 1
            && s.rows.checkpoints[Backup].evidence == Some(Evidence(s.made[0].slug, true))
            && s.rows.checkpoints[Backup].startedAt.Some?
            && s.rows.checkpoints[Backup].startedAt.value <= s.made[0].date)
  {
    ReachableIsGoodOrStuck(id, clock, actions);
    var s := Run(Initial(id, clock), actions);
    if Good(s) && Backup in s.rows.checkpoints {
      SlotIdentifies(s.rows, s.id, Backup);
    }
  }

  /** When a create call is issued the started row is already durable, it is the first call, and no
      other worker could issue another. */
  ghost predicate FirstCall(s: System, a: Action) {
    && a.CreateBackup? && a.w in s.workers && s.issued == 0
    && Backup in s.rows.checkpoints && s.rows.checkpoints[Backup].phase != Planned
    && s.rows.checkpoints[Backup].startedAt.Some?
    && forall v :: v in s.workers && v != a.w ==> !s.workers[v].ticket.MayCreate?
  }

  lemma OnlyCreateIssues(s: System, a: Action)
    requires Step(s, a).issued != s.issued
    ensures a.CreateBackup? && a.w in s.workers && s.workers[a.w].ticket.MayCreate?
  {
    if ByWorker(a) && a.w in s.workers && !OfBackup(a) { StageStepsIssueNothing(s, a); }
  }

  lemma StageStepsIssueNothing(s: System, a: Action)
    requires ByWorker(a) && !OfBackup(a) && a.w in s.workers
    ensures StageStep(s, a).issued == s.issued
  {
  }

  lemma CallIsFirst(s: System, a: Action)
    requires GoodOrStuck(s) && Step(s, a).issued != s.issued
    ensures FirstCall(s, a)
  {
    OnlyCreateIssues(s, a);
    if Stuck(s) { StuckStep(s, a); }
    assert WorkerFits(s, a.w);
    forall v | v in s.workers && v != a.w ensures !s.workers[v].ticket.MayCreate? { assert OnePermit(s, v, a.w); }
  }

  lemma CreateFollowsDurableStart(id: Identity, clock: int, actions: seq<Action>, a: Action)
    requires Step(Run(Initial(id, clock), actions), a).issued != Run(Initial(id, clock), actions).issued
    ensures FirstCall(Run(Initial(id, clock), actions), a)
  {
    ReachableIsGoodOrStuck(id, clock, actions);
    CallIsFirst(Run(Initial(id, clock), actions), a);
  }

  // ---------------------------------------------------------------- the checkpoint chain

  lemma {:induction false} InOrderIsGood(s: System, actions: seq<Action>)
    requires Good(s) && RunInOrder(s, actions)
    ensures Good(Run(s, actions))
    decreases |actions|
  {
    if actions != [] {
      OrderedStepKeepsGood(s, actions[0]);
      InOrderIsGood(Step(s, actions[0]), actions[1..]);
    }
  }

  /** The Fetch/Stage row is completed at a time before the one it was planned at. */
  predicate StoredBackdated(r: Rows) {
    FetchStage in r.checkpoints && Backdated(r.checkpoints[FetchStage])
  }

  /** In every reachable store a loader returns exactly the stored row, unless it is a backdated Fetch/Stage
      row, which no loader accepts and no run in order stores. */
  lemma EveryLoaderAccepts(id: Identity, clock: int, actions: seq<Action>, stage: Stage)
    ensures
      var r := Run(Initial(id, clock), actions).rows;
      && LoadOrchestration(r) == (if r.orchestration.Some? then Present(r.orchestration.value) else Absent)
      && LoadCheckpoint(r, stage) ==
           (if stage !in r.checkpoints then Absent
            else if stage == FetchStage && StoredBackdated(r) then Invalid
            else Present(r.checkpoints[stage]))
    ensures RunInOrder(Initial(id, clock), actions) ==> !StoredBackdated(Run(Initial(id, clock), actions).rows)
  {
    ReachableIsGoodOrStuck(id, clock, actions);
    var s := Run(Initial(id, clock), actions);
    if Good(s) {
      LoadersAccept(s.rows, s.id, stage);
      NeverBackdated(s);
    } else {
      StuckRowNeverLoads(s.rows, s.id, stage);
    }
    if RunInOrder(Initial(id, clock), actions) {
      InitialIsGood(id, clock);
      InOrderIsGood(Initial(id, clock), actions);
      NeverBackdated(s);
    }
  }

  lemma NeverBackdated(s: System)
    requires Inv(s)
    ensures !StoredBackdated(s.rows)
  {
    if FetchStage in s.rows.checkpoints { SlotIdentifies(s.rows, s.id, FetchStage); }
  }

  /** In every reachable store the checkpoints are a completed prefix chained by record digests. */
  lemma CheckpointsFormChain(id: Identity, clock: int, actions: seq<Action>, stage: Stage)
    ensures
      var r := Run(Initial(id, clock), actions).rows;
      && (r.orchestration.None? ==> stage !in r.checkpoints)
      && (r.orchestration.Some? && r.orchestration.value.phase != Blocked ==>
            var n := PhaseRank(r.orchestration.value.phase);
            && (Rank(stage) < n ==> stage in r.checkpoints && r.checkpoints[stage].phase == Done)
            && (Rank(stage) > n ==> stage !in r.checkpoints)
            && (Rank(stage) == n && stage in r.checkpoints ==>
                  && !r.checkpoints[stage].Ended()
                  && r.checkpoints[stage].orchestration == OrchestrationDigest(r.orchestration.value)))
      && (stage in r.checkpoints ==>
            && HasAll(r.checkpoints, PredecessorStages(stage))
            && r.checkpoints[stage].predecessors == Digests(r.checkpoints, PredecessorStages(stage)))
  {
    ReachableIsGoodOrStuck(id, clock, actions);
    var s := Run(Initial(id, clock), actions);
    if Good(s) {
      if stage in s.rows.checkpoints {
        assert Slot(s.rows, s.id, stage);
      }
      if s.rows.orchestration.Some? && s.rows.orchestration.value.phase != Blocked {
        CompletedPrefix(s.rows, s.id, stage);
      }
    }
  }

  /** The completed backup row, the prepared deployment with the same evidence, the apply row, the
      completed orchestration and the succeeded candidate row exist together or not at all. */
  lemma PreparationIsAllOrNothing(id: Identity, clock: int, actions: seq<Action>)
    ensures
      var r := Run(Initial(id, clock), actions).rows;
      var finished := Backup in r.checkpoints && r.checkpoints[Backup].phase == Done;
      && (finished <==> r.orchestration.Some? && r.orchestration.value.phase == Completed)
      && (finished <==> r.prepared.Some?)
      && (finished <==> r.apply.Some?)
      && (finished <==> r.work.Some? && r.work.value.status == Succeeded)
      && (finished ==> Some(r.prepared.value.evidence) == r.checkpoints[Backup].evidence)
  {
    ReachableIsGoodOrStuck(id, clock, actions);
  }

  // ---------------------------------------------------------------- progress and finality

  lemma {:induction false} RunExtends(s: System, actions: seq<Action>)
    requires GoodOrStuck(s)
    ensures Extends(s.rows, Run(s, actions).rows)
    decreases |actions|
  {
    if actions != [] {
      StepKeepsGoodOrStuck(s, actions[0]);
      RunExtends(Step(s, actions[0]), actions[1..]);
      ExtendsIsTransitive(s.rows, Step(s, actions[0]).rows, Run(s, actions).rows);
    }
  }

  lemma EndedRecordsAreFixed(r: Rows, r': Rows)
    requires Extends(r, r') && r.orchestration.Some? && Terminal(r.orchestration.value.phase)
    ensures SameRecords(r, r')
  {
  }

  lemma EndedWorkRests(r: Rows, id: Identity)
    requires RowsInv(r, id) && r.orchestration.Some? && Terminal(r.orchestration.value.phase)
    ensures r.work.Some? && r.work.value.status in {Succeeded, WorkBlocked, Pending}
  {
  }

  lemma RefusedClaimChangesNothing(s: System, w: nat, lane: Lane, when: int)
    requires !Claimable(s.rows, lane, when)
    ensures Step(s, Begin(w, lane, when)) == s
  {
  }

  lemma EndedStateIsFinal(s: System, after: seq<Action>, w: nat, lane: Lane, when: int)
    requires GoodOrStuck(s)
    requires s.rows.orchestration.Some? && Terminal(s.rows.orchestration.value.phase)
    ensures
      var s' := Run(s, after);
      && SameRecords(s.rows, s'.rows)
      && Step(s', Begin(w, lane, when)) == s'
      && s'.rows.work.Some? && s'.rows.work.value.status in {Succeeded, WorkBlocked, Pending}
  {
    RunExtends(s, after);
    EveryRunIsGoodOrStuck(s, after);
    var s' := Run(s, after);
    EndedRecordsAreFixed(s.rows, s'.rows);
    EndedIsNeverClaimed(s'.rows, lane, when);
    EndedWorkRests(s'.rows, s'.id);
    RefusedClaimChangesNothing(s', w, lane, when);
  }

  /** A completed or blocked orchestration stays as it is, with its checkpoints and preparation,
      whatever happens next, and no lane claims it again (not even after an administrative retry). */
  lemma EndedForGood(id: Identity, clock: int, before: seq<Action>, after: seq<Action>, w: nat, lane: Lane, when: int)
    requires Run(Initial(id, clock), before).rows.orchestration.Some?
    requires Terminal(Run(Initial(id, clock), before).rows.orchestration.value.phase)
    ensures
      var s, s' := Run(Initial(id, clock), before), Run(Initial(id, clock), before + after);
      && SameRecords(s.rows, s'.rows)
      && Step(s', Begin(w, lane, when)) == s'
      && s'.rows.work.Some? && s'.rows.work.value.status in {Succeeded, WorkBlocked, Pending}
  {
    RunConcat(Initial(id, clock), before, after);
    ReachableIsGoodOrStuck(id, clock, before);
    EndedStateIsFinal(Run(Initial(id, clock), before), after, w, lane, when);
  }

  /** In every reachable store, even behind a backdated row, an administrative retry of a blocked work row
      makes the candidate claimable by some lane exactly while its orchestration has not ended. */
  lemma RetryRevivesUnlessEnded(id: Identity, clock: int, actions: seq<Action>, when: int)
    requires var work := Run(Initial(id, clock), actions).rows.work; work.Some? && work.value.status == WorkBlocked
    ensures
      var r := Run(Initial(id, clock), actions).rows;
      var retried := r.(work := Some(AdministrativelyRetried(r.work.value, when)));
      (exists lane :: Claimable(retried, lane, when)) <==> r.orchestration.None? || !Terminal(r.orchestration.value.phase)
  {
    ReachableIsGoodOrStuck(id, clock, actions);
    RetryEligibility(Run(Initial(id, clock), actions).rows, when);
  }

  function PhaseChangesIn(s: System, actions: seq<Action>): nat
    decreases |actions|
  {
    if actions == [] then 0
    else (if PhaseChanges(s.rows, Step(s, actions[0]).rows) then 1 else 0) + PhaseChangesIn(Step(s, actions[0]), actions[1..])
  }

  lemma {:induction false} DepthCountsPhaseChanges(s: System, actions: seq<Action>)
    requires GoodOrStuck(s)
    ensures Depth(s.rows) + PhaseChangesIn(s, actions) == Depth(Run(s, actions).rows)
    decreases |actions|
  {
    if actions != [] {
      StepKeepsGoodOrStuck(s, actions[0]);
      DepthCountsPhaseChanges(Step(s, actions[0]), actions[1..]);
    }
  }

  /** Every run changes a candidate's phase at most seven times, each time one stage further, and a
      candidate reaches `completed` after exactly seven changes. */
  lemma AtMostSevenPhaseChanges(id: Identity, clock: int, actions: seq<Action>)
    ensures
      var s := Initial(id, clock);
      var r := Run(s, actions).rows;
      && PhaseChangesIn(s, actions) == Depth(r) <= 7
      && (r.orchestration.Some? && r.orchestration.value.phase == Completed ==> PhaseChangesIn(s, actions) == 7)
      && (r.orchestration.Some? && !Terminal(r.orchestration.value.phase) ==> PhaseChangesIn(s, actions) == PhaseRank(r.orchestration.value.phase))
  {
    InitialIsGood(id, clock);
    ReachableIsGoodOrStuck(id, clock, actions);
    DepthCountsPhaseChanges(Initial(id, clock), actions);
  }
}

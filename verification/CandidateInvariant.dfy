/** The shape every reachable set of candidate rows has, and what each transaction keeps of it. */
module CandidateInvariant {
  import opened Options
  import opened Candidate

  /** How many leading stages have succeeded. */
  function Progress(r: Rows): nat {
    if r.orchestration.None? then 0
    else if r.orchestration.value.phase != Blocked then PhaseRank(r.orchestration.value.phase)
    else if Backup in r.checkpoints then Rank(Backup)
    else if Semantic in r.checkpoints then Rank(Semantic)
    else Rank(Static)
  }

  /** One stored checkpoint is well formed, carries the record digests of its predecessors, was
      planned under an orchestration record of its own phase, and has ended exactly when its stage
      lies before the current one (or blocked the candidate). */
  ghost predicate Slot(r: Rows, id: Identity, s: Stage)
    requires s in r.checkpoints && r.orchestration.Some?
  {
    var c := r.checkpoints[s];
    var o := r.orchestration.value;
    && c.stage == s && c.Valid() && c.id == id
    && HasAll(r.checkpoints, PredecessorStages(s))
    && c.predecessors == Digests(r.checkpoints, PredecessorStages(s))
    && c.orchestration.OrchestrationDigest? && c.orchestration.orchestration.phase == PhaseBefore(s)
    && Rank(s) <= Progress(r)
    && (Rank(s) < Progress(r) ==> c.phase == Done && !Blocks(c))
    && (Rank(s) == Progress(r) ==>
          if o.phase == Blocked then c.Ended() && Blocks(c)
          else !c.Ended() && c.orchestration == OrchestrationDigest(o))
  }

  /** Everything that exists only once the candidate has been prepared. */
  ghost predicate PreparedTogether(r: Rows, id: Identity) {
    var finished := r.orchestration.Some? && r.orchestration.value.phase == Completed;
    && (finished <==> Backup in r.checkpoints && r.checkpoints[Backup].phase == Done)
    && (finished <==> r.prepared.Some?)
    && (finished <==> r.apply.Some?)
    && (finished <==> r.work.Some? && r.work.value.status == Succeeded)
    && (finished ==> r.checkpoints[Backup].evidence.Some? && r.checkpoints[Backup].completedAt.Some?
                     && r.prepared.value == Prepared(id, r.checkpoints[Backup].evidence.value, r.checkpoints[Backup].completedAt.value))
  }

  ghost predicate RowsInv(r: Rows, id: Identity) {
    && (r.orchestration.None? ==> r.checkpoints == map[])
    && (r.orchestration.Some? ==>
          && r.work.Some?
          && r.orchestration.value.Valid() && r.orchestration.value.id == id
          && (forall s {:trigger Slot(r, id, s)} :: s in r.checkpoints ==> Slot(r, id, s))
          && (forall s :: Rank(s) < Progress(r) ==> s in r.checkpoints)
          && (r.orchestration.value.phase == Blocked ==>
                && (exists s :: s in r.checkpoints && Rank(s) == Progress(r))
                && r.work.value.status in {WorkBlocked, Pending}))
    && PreparedTogether(r, id)
  }

  /** What no transaction ever takes back. */
  ghost predicate Extends(r: Rows, r': Rows) {
    && (r.orchestration.Some? ==> r'.orchestration.Some? && Progress(r) <= Progress(r'))
    && (forall s :: s in r.checkpoints ==> s in r'.checkpoints)
    && (forall s :: s in r.checkpoints && r.checkpoints[s].Ended() ==> r'.checkpoints[s] == r.checkpoints[s])
    && (Backup in r.checkpoints && r.checkpoints[Backup].phase != Planned ==>
          r'.checkpoints[Backup].phase != Planned && r'.checkpoints[Backup].startedAt == r.checkpoints[Backup].startedAt)
    && (r.orchestration.Some? && Terminal(r.orchestration.value.phase) ==>
          r'.orchestration == r.orchestration && r'.checkpoints == r.checkpoints && r'.prepared == r.prepared)
  }

  lemma ExtendsIsTransitive(a: Rows, b: Rows, c: Rows)
    requires Extends(a, b) && Extends(b, c)
    ensures Extends(a, c)
  {
  }

  lemma DigestsUnchanged(cs: map<Stage, Checkpoint>, cs': map<Stage, Checkpoint>, ps: seq<Stage>)
    requires HasAll(cs, ps) && HasAll(cs', ps)
    requires forall p :: p in ps ==> cs[p] == cs'[p]
    ensures Digests(cs, ps) == Digests(cs', ps)
  {
    forall i | 0 <= i < |ps| ensures Digests(cs, ps)[i] == Digests(cs', ps)[i] {
      assert ps[i] in ps;
    }
  }

  // ---------------------------------------------------------------- transactions keep the shape

  lemma PlannedSlot(r: Rows, id: Identity, plan: Checkpoint, r': Rows, q: Stage)
    requires r.orchestration.Some? && plan.stage !in r.checkpoints && r'.orchestration == r.orchestration
    requires r'.checkpoints == r.checkpoints[plan.stage := plan] && Progress(r') == Progress(r)
    requires q in r.checkpoints && Slot(r, id, q)
    ensures Slot(r', id, q)
  {
    DigestsUnchanged(r.checkpoints, r'.checkpoints, PredecessorStages(q));
  }

  lemma NewSlot(r: Rows, id: Identity, plan: Checkpoint, r': Rows)
    requires r.orchestration.Some? && plan.Valid() && plan.phase == Planned && plan.id == id
    requires plan.stage !in r.checkpoints && r.orchestration.value.phase == PhaseBefore(plan.stage)
    requires plan.orchestration == OrchestrationDigest(r.orchestration.value)
    requires HasAll(r.checkpoints, PredecessorStages(plan.stage))
    requires plan.predecessors == Digests(r.checkpoints, PredecessorStages(plan.stage))
    requires r' == r.(checkpoints := r.checkpoints[plan.stage := plan])
    ensures Slot(r', id, plan.stage) && Progress(r') == Progress(r) && Extends(r, r')
  {
    DigestsUnchanged(r.checkpoints, r'.checkpoints, PredecessorStages(plan.stage));
  }

  lemma PlannedRows(r: Rows, id: Identity, plan: Checkpoint, r': Rows)
    requires RowsInv(r, id) && r.orchestration.Some? && plan.Valid() && plan.phase == Planned && plan.id == id
    requires plan.stage !in r.checkpoints && r.orchestration.value.phase == PhaseBefore(plan.stage)
    requires plan.orchestration == OrchestrationDigest(r.orchestration.value)
    requires HasAll(r.checkpoints, PredecessorStages(plan.stage))
    requires plan.predecessors == Digests(r.checkpoints, PredecessorStages(plan.stage))
    requires r' == r.(checkpoints := r.checkpoints[plan.stage := plan])
    ensures RowsInv(r', id) && Extends(r, r')
  {
    UnpreparedBeforeBackup(r, id);
    NotPrepared(r', id);
    NewSlot(r, id, plan, r');
    forall q | q in r'.checkpoints ensures Slot(r', id, q) {
      if q != plan.stage {
        PlannedSlot(r, id, plan, r', q);
      }
    }
  }

  lemma TxPlanKeeps(r: Rows, id: Identity, current: Orchestration, s: Stage, when: int)
    requires RowsInv(r, id) && current.phase == PhaseBefore(s)
    requires HasAll(r.checkpoints, PredecessorStages(s))
    ensures
      var plan := Plan(s, current, Digests(r.checkpoints, PredecessorStages(s)), when);
      var t := TxPlan(r, current, plan);
      t.Some? ==> RowsInv(t.value, id) && Extends(r, t.value)
  {
    var plan := Plan(s, current, Digests(r.checkpoints, PredecessorStages(s)), when);
    var t := TxPlan(r, current, plan);
    if t.Some? {
      PlannedRows(r, id, plan, t.value);
    }
  }

  /** `finished` ends `c` at `when`, by completing it or by blocking it. */
  predicate Ends(c: Checkpoint, finished: Checkpoint, when: int) {
    finished == Block(c, when) || (finished.evidence.Some? && finished == Complete(c, finished.evidence.value, when))
  }

  lemma CurrentStage(r: Rows, id: Identity, s: Stage)
    requires RowsInv(r, id) && r.orchestration.Some? && s in r.checkpoints && !r.checkpoints[s].Ended()
    ensures Progress(r) == Rank(s) && r.orchestration.value.phase == PhaseBefore(s)
    ensures r.checkpoints[s].orchestration == OrchestrationDigest(r.orchestration.value)
    ensures forall q :: q in r.checkpoints ==> Rank(q) <= Rank(s)
  {
    assert Slot(r, id, s);
    forall q | q in r.checkpoints ensures Rank(q) <= Rank(s) { assert Slot(r, id, q); }
  }

  lemma RankDeterminesStage(s: Stage, q: Stage)
    requires Rank(s) == Rank(q)
    ensures s == q
  {
  }

  lemma ProgressAfterEnding(r: Rows, s: Stage, finished: Checkpoint, r': Rows, when: int)
    requires s in r.checkpoints && forall q :: q in r.checkpoints ==> Rank(q) <= Rank(s)
    requires r.orchestration.Some? && finished.stage == s && finished.Valid()
    requires r'.checkpoints == r.checkpoints[s := finished]
    requires r'.orchestration == Some(Successor(r.orchestration.value, finished, when))
    ensures Progress(r') == if Blocks(finished) then Rank(s) else Rank(s) + 1
  {
    if Blocks(finished) {
      assert s in {Static, Semantic, Backup};
    }
  }

  lemma SlotAfterEnding(r: Rows, id: Identity, s: Stage, finished: Checkpoint, r': Rows, when: int, q: Stage)
    requires s in r.checkpoints && r.orchestration.Some? && Ends(r.checkpoints[s], finished, when) && finished.Valid()
    requires Progress(r) == Rank(s) && !r.checkpoints[s].Ended()
    requires r'.checkpoints == r.checkpoints[s := finished]
    requires r'.orchestration == Some(Successor(r.orchestration.value, finished, when))
    requires Progress(r') == if Blocks(finished) then Rank(s) else Rank(s) + 1
    requires q in r.checkpoints && Slot(r, id, q) && finished.stage == s
    ensures Slot(r', id, q)
  {
    assert s !in PredecessorStages(q);
    DigestsUnchanged(r.checkpoints, r'.checkpoints, PredecessorStages(q));
    if Rank(q) == Rank(s) {
      RankDeterminesStage(q, s);
    }
  }

  lemma EndingKeepsSlots(r: Rows, id: Identity, s: Stage, finished: Checkpoint, r': Rows, when: int)
    requires RowsInv(r, id) && s in r.checkpoints && r.orchestration.Some? && !r.checkpoints[s].Ended()
    requires Ends(r.checkpoints[s], finished, when) && finished.Valid()
    requires r'.checkpoints == r.checkpoints[s := finished]
    requires r'.orchestration == Some(Successor(r.orchestration.value, finished, when))
    ensures Progress(r) == Rank(s) && r.orchestration.value.phase == PhaseBefore(s)
    ensures Progress(r') == if Blocks(finished) then Rank(s) else Rank(s) + 1
    ensures forall q :: q in r'.checkpoints ==> Slot(r', id, q)
    ensures forall q :: Rank(q) < Progress(r') ==> q in r'.checkpoints
  {
    CurrentStage(r, id, s);
    assert Slot(r, id, s);
    ProgressAfterEnding(r, s, finished, r', when);
    forall q | q in r'.checkpoints ensures Slot(r', id, q) {
      assert Slot(r, id, q);
      SlotAfterEnding(r, id, s, finished, r', when, q);
    }
    forall q | Rank(q) < Progress(r') ensures q in r'.checkpoints {
      if Rank(q) == Rank(s) { RankDeterminesStage(q, s); }
    }
  }

  /** Only an unfinished Backup stage can be missing its prepared deployment's counterpart. */
  lemma UnpreparedBeforeBackup(r: Rows, id: Identity)
    requires RowsInv(r, id) && r.orchestration.Some? && r.orchestration.value.phase != Completed
    ensures r.prepared.None? && r.apply.None? && r.work.value.status != Succeeded
    ensures Backup in r.checkpoints ==> r.checkpoints[Backup].phase != Done
  {
  }

  lemma ExtendsAfterEnding(r: Rows, id: Identity, s: Stage, finished: Checkpoint, r': Rows, when: int)
    requires s in r.checkpoints && r.orchestration.Some? && !r.checkpoints[s].Ended()
    requires r.orchestration.value.phase == PhaseBefore(s) && Progress(r) == Rank(s)
    requires Ends(r.checkpoints[s], finished, when)
    requires s == Backup ==> r.checkpoints[s].phase != Planned || finished.phase == Stopped
    requires r'.checkpoints == r.checkpoints[s := finished] && r'.orchestration.Some?
    requires Progress(r') == if Blocks(finished) then Rank(s) else Rank(s) + 1
    ensures Extends(r, r')
  {
  }

  lemma NotPrepared(r: Rows, id: Identity)
    requires r.prepared.None? && r.apply.None? && (r.work.Some? ==> r.work.value.status != Succeeded)
    requires r.orchestration.Some? ==> r.orchestration.value.phase != Completed
    requires Backup in r.checkpoints ==> r.checkpoints[Backup].phase != Done
    ensures PreparedTogether(r, id)
  {
  }

  lemma CommittedSlots(r: Rows, id: Identity, finished: Checkpoint, when: int, r': Rows)
    requires RowsInv(r, id) && r.orchestration.Some? && finished.stage != Backup && finished.stage in r.checkpoints
    requires !r.checkpoints[finished.stage].Ended()
    requires Ends(r.checkpoints[finished.stage], finished, when) && finished.Valid()
    requires Blocks(finished) ==> IsRunning(r.work)
    requires r' == Committed(r, finished, Successor(r.orchestration.value, finished, when))
    ensures Progress(r') == if Blocks(finished) then Rank(finished.stage) else Rank(finished.stage) + 1
    ensures forall q :: q in r'.checkpoints ==> Slot(r', id, q)
    ensures forall q :: Rank(q) < Progress(r') ==> q in r'.checkpoints
    ensures r'.orchestration.value.phase != Completed && PreparedTogether(r', id) && Extends(r, r')
  {
    var s := finished.stage;
    CurrentStage(r, id, s);
    UnpreparedBeforeBackup(r, id);
    EndingKeepsSlots(r, id, s, finished, r', when);
    ExtendsAfterEnding(r, id, s, finished, r', when);
    NotPrepared(r', id);
  }

  lemma CommittedKeeps(r: Rows, id: Identity, finished: Checkpoint, when: int, r': Rows)
    requires RowsInv(r, id) && r.orchestration.Some? && finished.stage != Backup && finished.stage in r.checkpoints
    requires !r.checkpoints[finished.stage].Ended()
    requires Ends(r.checkpoints[finished.stage], finished, when) && finished.Valid() && r.orchestration.value.registeredAt <= when
    requires Blocks(finished) ==> IsRunning(r.work)
    requires r' == Committed(r, finished, Successor(r.orchestration.value, finished, when))
    ensures RowsInv(r', id) && Extends(r, r')
  {
    CommittedSlots(r, id, finished, when, r');
    ValidActionIsDetermined(r'.orchestration.value);
    assert finished.stage in r'.checkpoints;
  }

  lemma TxAdvanceKeeps(r: Rows, id: Identity, planned: Checkpoint, finished: Checkpoint, current: Orchestration, when: int)
    requires RowsInv(r, id) && planned.stage != Backup
    requires Ends(planned, finished, when)
    requires finished.Valid() && current.registeredAt <= when
    ensures
      var t := TxAdvance(r, planned, finished, current, Successor(current, finished, when));
      t.Some? ==> RowsInv(t.value, id) && Extends(r, t.value)
  {
    var t := TxAdvance(r, planned, finished, current, Successor(current, finished, when));
    if t.Some? {
      CommittedKeeps(r, id, finished, when, t.value);
    }
  }

  /** The journal row moves one step on, before it ends. */
  predicate Moves(previous: Checkpoint, replacement: Checkpoint, when: int) {
    || (previous.phase == Planned && replacement == Start(previous, when))
    || (previous.phase == MutationStarted && replacement == MarkUncertain(previous))
  }

  lemma TransitionSlots(r: Rows, id: Identity, replacement: Checkpoint, when: int, r': Rows, q: Stage)
    requires r.orchestration.Some? && Backup in r.checkpoints && q in r.checkpoints && Slot(r, id, q)
    requires Moves(r.checkpoints[Backup], replacement, when) && replacement.Valid()
    requires r' == r.(checkpoints := r.checkpoints[Backup := replacement])
    ensures Slot(r', id, q)
  {
    assert Progress(r) == Progress(r');
    assert Backup !in PredecessorStages(q);
    DigestsUnchanged(r.checkpoints, r'.checkpoints, PredecessorStages(q));
  }

  lemma TransitionShape(r: Rows, replacement: Checkpoint, when: int, r': Rows)
    requires r.orchestration.Some? && Backup in r.checkpoints && Moves(r.checkpoints[Backup], replacement, when)
    requires r.orchestration.value.phase == SemanticallyValidated
    requires r' == r.(checkpoints := r.checkpoints[Backup := replacement])
    ensures Progress(r') == Progress(r) && Extends(r, r')
  {
  }

  lemma TransitionKeeps(r: Rows, id: Identity, replacement: Checkpoint, when: int, r': Rows)
    requires RowsInv(r, id) && Backup in r.checkpoints && replacement.Valid()
    requires Moves(r.checkpoints[Backup], replacement, when)
    requires r' == r.(checkpoints := r.checkpoints[Backup := replacement])
    ensures RowsInv(r', id) && Extends(r, r')
  {
    CurrentStage(r, id, Backup);
    UnpreparedBeforeBackup(r, id);
    TransitionShape(r, replacement, when, r');
    forall q | q in r'.checkpoints ensures Slot(r', id, q) {
      TransitionSlots(r, id, replacement, when, r', q);
    }
  }

  lemma TxTransitionKeeps(r: Rows, id: Identity, previous: Checkpoint, replacement: Checkpoint, when: int)
    requires RowsInv(r, id) && replacement.Valid() && Moves(previous, replacement, when)
    ensures
      var t := TxTransition(r, previous, replacement);
      t.Some? ==> RowsInv(t.value, id) && Extends(r, t.value)
  {
    var t := TxTransition(r, previous, replacement);
    if t.Some? {
      TransitionKeeps(r, id, replacement, when, t.value);
    }
  }

  lemma BackupSlotsKeep(r: Rows, id: Identity, finished: Checkpoint, when: int, r': Rows)
    requires RowsInv(r, id) && r.orchestration.Some? && finished.stage == Backup && Backup in r.checkpoints
    requires r.checkpoints[Backup].phase == Uncertain || (r.checkpoints[Backup].phase == MutationStarted && finished.phase == Done)
    requires Ends(r.checkpoints[Backup], finished, when) && finished.Valid() && r.orchestration.value.registeredAt <= when
    requires r'.checkpoints == r.checkpoints[Backup := finished]
    requires r'.orchestration == Some(Successor(r.orchestration.value, finished, when))
    ensures r.orchestration.value.phase == SemanticallyValidated && r'.orchestration.value.Valid() && Extends(r, r')
    ensures Progress(r') == if Blocks(finished) then 6 else 7
    ensures forall q :: q in r'.checkpoints ==> Slot(r', id, q)
    ensures forall q :: Rank(q) < Progress(r') ==> q in r'.checkpoints
  {
    CurrentStage(r, id, Backup);
    EndingKeepsSlots(r, id, Backup, finished, r', when);
    ExtendsAfterEnding(r, id, Backup, finished, r', when);
    ValidActionIsDetermined(r'.orchestration.value);
  }

  lemma TxFinishBackupKeeps(r: Rows, id: Identity, previous: Checkpoint, finished: Checkpoint, current: Orchestration, when: int)
    requires RowsInv(r, id) && previous.stage == Backup && current.registeredAt <= when
    requires previous.phase == Uncertain || (previous.phase == MutationStarted && finished.phase == Done)
    requires Ends(previous, finished, when) && finished.Valid()
    ensures
      var t := TxFinishBackup(r, previous, finished, current, Successor(current, finished, when), when);
      t.Some? ==> RowsInv(t.value, id) && Extends(r, t.value)
  {
    var t := TxFinishBackup(r, previous, finished, current, Successor(current, finished, when), when);
    if t.Some? {
      BackupSlotsKeep(r, id, finished, when, t.value);
      UnpreparedBeforeBackup(r, id);
      assert PreparedTogether(t.value, id);
      assert Backup in t.value.checkpoints && Rank(Backup) == 6;
    }
  }

  lemma TxRegisterKeeps(r: Rows, claimed: Work, id: Identity, when: int)
    requires RowsInv(r, id)
    ensures
      var t := TxRegister(r, claimed, id, when);
      t.Some? ==> RowsInv(t.value, id) && Extends(r, t.value) && t.value.checkpoints == r.checkpoints
  {
  }

  /** Any change of the work row alone, short of marking it succeeded or touching a succeeded row. */
  lemma WorkChangeKeeps(r: Rows, id: Identity, w: Work)
    requires RowsInv(r, id)
    requires w.status != Succeeded && (r.work.Some? ==> r.work.value.status != Succeeded)
    requires r.orchestration.Some? && r.orchestration.value.phase == Blocked ==> w.status in {WorkBlocked, Pending}
    ensures RowsInv(r.(work := Some(w)), id) && Extends(r, r.(work := Some(w)))
  {
    var r' := r.(work := Some(w));
    if r.orchestration.Some? {
      forall q | q in r'.checkpoints ensures Slot(r', id, q) {
        assert Slot(r, id, q);
      }
      if r.orchestration.value.phase == Blocked {
        var s :| s in r.checkpoints && Rank(s) == Progress(r);
        assert s in r'.checkpoints && Rank(s) == Progress(r');
      }
    }
  }

  // ---------------------------------------------------------------- what the shape gives

  lemma SlotBinds(r: Rows, id: Identity, s: Stage)
    requires RowsInv(r, id) && s in r.checkpoints
    ensures BindingAdmits(r.checkpoints[s], r.checkpoints)
  {
    assert Slot(r, id, s);
    if s == Backup {
      assert Semantic in PredecessorStages(Backup);
      assert Slot(r, id, Semantic);
      BackupBindingFollowsSemantic(r.checkpoints);
    }
  }

  lemma SlotPhaseFits(r: Rows, id: Identity, s: Stage)
    requires RowsInv(r, id) && s in r.checkpoints
    ensures PhaseAdmits(r.checkpoints[s], r.orchestration.value)
  {
    assert Slot(r, id, s);
  }

  /** Every checkpoint loader accepts the row it finds. */
  lemma {:induction false} LoadersAccept(r: Rows, id: Identity, s: Stage)
    requires RowsInv(r, id)
    ensures LoadCheckpoint(r, s) == if s in r.checkpoints then Present(r.checkpoints[s]) else Absent
    decreases Rank(s)
  {
    if s in r.checkpoints {
      assert Slot(r, id, s);
      SlotBinds(r, id, s);
      SlotPhaseFits(r, id, s);
      var reloaded := ReloadedStages(s);
      forall p | p in reloaded ensures LoadCheckpoint(r, p).Present? {
        assert p in PredecessorStages(s);
        LoadersAccept(r, id, p);
      }
    }
  }

  lemma BackupBindingFollowsSemantic(cs: map<Stage, Checkpoint>)
    requires HasAll(cs, PredecessorStages(Backup)) && HasAll(cs, PredecessorStages(Semantic)) && Semantic in cs
    ensures Digests(cs, PredecessorStages(Backup)) == Digests(cs, PredecessorStages(Semantic)) + [CheckpointDigest(cs[Semantic])]
  {
    var a := PredecessorStages(Backup);
    var b := PredecessorStages(Semantic);
    assert a == b + [Semantic];
    forall i | 0 <= i < |a| ensures Digests(cs, a)[i] == (Digests(cs, b) + [CheckpointDigest(cs[Semantic])])[i] {
    }
  }

  /** The checkpoints form a completed prefix of the stage order that matches the phase. */
  lemma CompletedPrefix(r: Rows, id: Identity, s: Stage)
    requires RowsInv(r, id) && r.orchestration.Some? && r.orchestration.value.phase != Blocked
    ensures var n := PhaseRank(r.orchestration.value.phase);
            && (Rank(s) < n ==> s in r.checkpoints && r.checkpoints[s].phase == Done)
            && (Rank(s) > n ==> s !in r.checkpoints)
            && (Rank(s) == n && s in r.checkpoints ==>
                  !r.checkpoints[s].Ended() && r.checkpoints[s].orchestration == OrchestrationDigest(r.orchestration.value))
    ensures s in r.checkpoints ==>
      forall i :: 0 <= i < |PredecessorStages(s)| ==>
        && |r.checkpoints[s].predecessors| == |PredecessorStages(s)|
        && PredecessorStages(s)[i] in r.checkpoints
        && r.checkpoints[s].predecessors[i] == CheckpointDigest(r.checkpoints[PredecessorStages(s)[i]])
  {
    if s in r.checkpoints {
      assert Slot(r, id, s);
      forall i | 0 <= i < |PredecessorStages(s)| ensures PredecessorStages(s)[i] in r.checkpoints {
        assert PredecessorStages(s)[i] in PredecessorStages(s);
      }
    }
  }

  /** The only blocked endings: an invalid Static result, or a blocked Semantic or Backup row, with
      every earlier stage completed and every later one absent. */
  lemma BlockedEndings(r: Rows, id: Identity) returns (at: Stage)
    requires RowsInv(r, id) && r.orchestration.Some? && r.orchestration.value.phase == Blocked
    ensures at in {Static, Semantic, Backup} && at in r.checkpoints
    ensures if at == Static then
              r.checkpoints[at].phase == Done && r.checkpoints[at].evidence.Some? && !r.checkpoints[at].evidence.value.syntaxValid
            else r.checkpoints[at].phase == Stopped
    ensures forall s :: Rank(s) < Rank(at) ==> s in r.checkpoints && r.checkpoints[s].phase == Done
    ensures forall s :: Rank(s) > Rank(at) ==> s !in r.checkpoints
  {
    at :| at in r.checkpoints && Rank(at) == Progress(r);
    assert Slot(r, id, at);
    forall s | s in r.checkpoints ensures Rank(s) <= Rank(at) { assert Slot(r, id, s); }
    forall s | Rank(s) < Rank(at) ensures s in r.checkpoints && r.checkpoints[s].phase == Done {
      assert Slot(r, id, s);
    }
  }

  /** No lane can claim a candidate whose orchestration has ended. */
  lemma EndedIsNeverClaimed(r: Rows, lane: Lane, when: int)
    requires r.orchestration.Some? && r.orchestration.value.Valid() && Terminal(r.orchestration.value.phase)
    ensures !Claimable(r, lane, when)
  {
  }

  /** The lane that picks up a candidate in each phase that has not ended. */
  function LaneOf(o: Option<Orchestration>): Lane {
    if o.None? then StageLane(FetchStage)
    else match o.value.phase
      case Detected => StageLane(FetchStage)
      case Staged => StageLane(Integrity)
      case IntegrityVerified => StageLane(Dependency)
      case DependenciesAnalyzed => StageLane(Risk)
      case RiskClassified => StageLane(Static)
      case StaticValidated => StageLane(Semantic)
      case _ => StageLane(Backup)
  }

  /** An administrative retry of a blocked work row makes the candidate eligible for some lane exactly
      when its orchestration has not ended; once that is blocked, no retry brings it back. */
  lemma RetryEligibility(r: Rows, when: int)
    requires r.orchestration.Some? ==> r.orchestration.value.Valid()
    requires r.work.Some? && r.work.value.status == WorkBlocked
    ensures
      var retried := r.(work := Some(AdministrativelyRetried(r.work.value, when)));
      (exists lane :: Claimable(retried, lane, when)) <==> r.orchestration.None? || !Terminal(r.orchestration.value.phase)
  {
    var retried := r.(work := Some(AdministrativelyRetried(r.work.value, when)));
    if r.orchestration.Some? && Terminal(r.orchestration.value.phase) {
      forall lane ensures !Claimable(retried, lane, when) { EndedIsNeverClaimed(retried, lane, when); }
    } else {
      if r.orchestration.Some? { ValidActionIsDetermined(r.orchestration.value); }
      assert Claimable(retried, LaneOf(r.orchestration), when);
    }
  }

  /** `CandidateFetchStageCheckpoint.complete` does not re-validate. The commit goes through whatever
      the completion time is, and the stored row loads again exactly when that time is not before
      the planned one. */
  lemma FetchCompletionTime(r: Rows, id: Identity, e: Evidence, when: int)
    requires RowsInv(r, id) && FetchStage in r.checkpoints && r.checkpoints[FetchStage].phase == Planned
    requires r.orchestration.Some? && r.orchestration.value.registeredAt <= when
    ensures r.checkpoints[FetchStage].stage == FetchStage
    ensures
      var planned := r.checkpoints[FetchStage];
      var current := r.orchestration.value;
      var finished := Complete(planned, e, when);
      var t := TxAdvance(r, planned, finished, current, Successor(current, finished, when));
      && t.Some?
      && (LoadCheckpoint(t.value, FetchStage) == Present(finished) <==> planned.plannedAt <= when)
      && (LoadCheckpoint(t.value, FetchStage) == Invalid <==> when < planned.plannedAt)
  {
    LoadersAccept(r, id, FetchStage);
    assert Slot(r, id, FetchStage);
  }
}

/** What one step of the candidate pipeline takes back (nothing) and how far it gets (at most one stage). */
module CandidateProgress {
  import opened Options
  import opened Candidate
  import opened CandidateInvariant
  import opened CandidateRuns

  // ---------------------------------------------------------------- nothing is taken back

  lemma ConcludeExtends(s: System, w: nat, stage: Stage, outcome: Outcome)
    requires Inv(s) && w in s.workers && InOrder(s, Conclude(w, stage, outcome))
    ensures Extends(s.rows, StepConclude(s, w, stage, outcome).rows)
  {
    var t := Conclusion(s.workers[w], stage, outcome);
    if t.Some? {
      ConclusionFits(s, w, stage, outcome);
      var (planned, finished) := t.value;
      var current, when := s.workers[w].current.value, s.workers[w].when;
      var u := TxAdvance(s.rows, planned, finished, current, Successor(current, finished, when));
      if u.Some? {
        TxAdvanceKeeps(s.rows, s.id, planned, finished, current, when);
      }
    }
  }

  lemma FinishBackupExtends(s: System, w: nat)
    requires Inv(s) && w in s.workers
    ensures Extends(s.rows, StepFinishBackup(s, w).rows)
  {
    var worker := s.workers[w];
    var ending := BackupEnding(worker.ticket, worker.when);
    if ending.Some? && At(worker, Backup) && ending.value.1.Valid() {
      assert WorkerFits(s, w);
      EndingFits(s, worker.ticket, worker.when);
      var advanced := Successor(worker.current.value, ending.value.1, worker.when);
      if advanced.Valid() && TxFinishBackup(s.rows, ending.value.0, ending.value.1, worker.current.value, advanced, worker.when).Some? {
        TxFinishBackupKeeps(s.rows, s.id, ending.value.0, ending.value.1, worker.current.value, worker.when);
      }
    }
  }

  lemma RecordPlanExtends(s: System, w: nat, stage: Stage)
    requires Inv(s) && w in s.workers
    ensures Extends(s.rows, StepRecordPlan(s, w, stage).rows)
  {
    var worker := s.workers[w];
    if At(worker, stage) && SeenPredecessors(worker, stage) && stage !in worker.seen {
      SeenPredecessorsAreCurrent(s, w, stage);
      TxPlanKeeps(s.rows, s.id, worker.current.value, stage, worker.when);
    }
  }

  lemma TransitionExtends(s: System, previous: Checkpoint, replacement: Checkpoint, when: int)
    requires Inv(s)
    requires (previous.phase == Planned && replacement == Start(previous, when) && replacement.Valid())
             || (previous.phase == MutationStarted && replacement == MarkUncertain(previous))
    ensures Extends(s.rows, SetRows(s, TxTransition(s.rows, previous, replacement)).rows)
  {
    if TxTransition(s.rows, previous, replacement).Some? {
      SlotIdentifies(s.rows, s.id, Backup);
      TxTransitionKeeps(s.rows, s.id, previous, replacement, when);
    }
  }

  predicate WritesRecords(a: Action) {
    a.Register? || a.RecordPlan? || a.Conclude? || a.StartBackup? || a.DeclareUncertain? || a.MarkStartedUncertain? || a.FinishBackup?
  }

  predicate SameRecords(r: Rows, r': Rows) {
    r'.orchestration == r.orchestration && r'.checkpoints == r.checkpoints && r'.prepared == r.prepared
  }

  lemma OtherStepsWriteNoRecords(s: System, a: Action)
    requires !WritesRecords(a) || a.w !in s.workers
    ensures SameRecords(s.rows, Step(s, a).rows)
  {
  }

  predicate JournalStep(s: System, s': System) {
    s'.rows.orchestration == s.rows.orchestration && s'.rows.checkpoints.Keys == s.rows.checkpoints.Keys
  }

  lemma JournalStepsKeepDepth(s: System, a: Action)
    requires (a.StartBackup? || a.DeclareUncertain? || a.MarkStartedUncertain?) && a.w in s.workers
    ensures JournalStep(s, Step(s, a))
  {
  }

  lemma StartBackupExtends(s: System, w: nat)
    requires Inv(s) && w in s.workers
    ensures Extends(s.rows, StepStartBackup(s, w).rows)
  {
    var worker := s.workers[w];
    if SeenBound(worker, Backup) && worker.seen[Backup].phase == Planned && Start(worker.seen[Backup], worker.when).Valid() {
      TransitionExtends(s, worker.seen[Backup], Start(worker.seen[Backup], worker.when), worker.when);
    }
  }

  lemma DeclareUncertainExtends(s: System, w: nat)
    requires Inv(s) && w in s.workers
    ensures Extends(s.rows, StepDeclareUncertain(s, w).rows)
  {
    var worker := s.workers[w];
    if worker.ticket.CreateFailed? {
      assert WorkerFits(s, w);
      TransitionExtends(s, worker.ticket.started, MarkUncertain(worker.ticket.started), 0);
    }
  }

  lemma MarkStartedUncertainExtends(s: System, w: nat)
    requires Inv(s) && w in s.workers
    ensures Extends(s.rows, StepMarkStartedUncertain(s, w).rows)
  {
    var worker := s.workers[w];
    if SeenBound(worker, Backup) && worker.seen[Backup].phase == MutationStarted {
      TransitionExtends(s, worker.seen[Backup], MarkUncertain(worker.seen[Backup]), 0);
    }
  }

  lemma RegisterStep(s: System, w: nat)
    requires Inv(s) && w in s.workers
    ensures var r' := StepRegister(s, w).rows;
            Extends(s.rows, r') && Depth(r') == Depth(s.rows) && !PhaseChanges(s.rows, r')
  {
    TxRegisterKeeps(s.rows, s.workers[w].claimed, s.id, s.workers[w].when);
  }

  lemma SameRecordsExtend(r: Rows, r': Rows)
    requires SameRecords(r, r')
    ensures Extends(r, r') && Depth(r') == Depth(r) && !PhaseChanges(r, r')
  {
  }

  /** The system after one of the record-writing steps of a live worker. */
  function Written(s: System, a: Action): System
    requires WritesRecords(a) && a.w in s.workers
  {
    match a
    case Register(w) => StepRegister(s, w)
    case RecordPlan(w, stage) => StepRecordPlan(s, w, stage)
    case Conclude(w, stage, outcome) => StepConclude(s, w, stage, outcome)
    case StartBackup(w) => StepStartBackup(s, w)
    case DeclareUncertain(w) => StepDeclareUncertain(s, w)
    case MarkStartedUncertain(w) => StepMarkStartedUncertain(s, w)
    case FinishBackup(w) => StepFinishBackup(s, w)
  }

  lemma StepIsWritten(s: System, a: Action)
    requires WritesRecords(a) && a.w in s.workers
    ensures Step(s, a) == Written(s, a)
  {
    StepOfWorker(s, a);
    if OfBackup(a) {
      assert BackupStep(s, a) == Written(s, a);
    } else {
      assert StageStep(s, a) == Written(s, a);
    }
  }

  lemma WrittenExtends(s: System, a: Action, s': System)
    requires Inv(s) && InOrder(s, a) && WritesRecords(a) && a.w in s.workers && s' == Written(s, a)
    ensures Extends(s.rows, s'.rows)
  {
    match a
    case Register(w) => RegisterStep(s, w);
    case RecordPlan(w, stage) => RecordPlanExtends(s, w, stage);
    case Conclude(w, stage, outcome) => ConcludeExtends(s, w, stage, outcome);
    case StartBackup(w) => StartBackupExtends(s, w);
    case DeclareUncertain(w) => DeclareUncertainExtends(s, w);
    case MarkStartedUncertain(w) => MarkStartedUncertainExtends(s, w);
    case FinishBackup(w) => FinishBackupExtends(s, w);
  }

  lemma StepExtends(s: System, a: Action)
    requires Inv(s) && InOrder(s, a)
    ensures Extends(s.rows, Step(s, a).rows)
  {
    if !WritesRecords(a) || a.w !in s.workers {
      OtherStepsWriteNoRecords(s, a);
      SameRecordsExtend(s.rows, Step(s, a).rows);
    } else {
      StepIsWritten(s, a);
      WrittenExtends(s, a, Step(s, a));
    }
  }

  // ---------------------------------------------------------------- one stage at a time

  /** How many stages have ended, whether by advancing the candidate or by blocking it. */
  function Depth(r: Rows): nat {
    Progress(r) + if r.orchestration.Some? && r.orchestration.value.phase == Blocked then 1 else 0
  }

  predicate PhaseChanges(r: Rows, r': Rows) {
    r.orchestration.Some? && r'.orchestration.Some? && r.orchestration.value.phase != r'.orchestration.value.phase
  }

  lemma AdvanceDeepens(r: Rows, id: Identity, stage: Stage, finished: Checkpoint, r': Rows, when: int)
    requires RowsInv(r, id) && stage in r.checkpoints && r.orchestration.Some? && !r.checkpoints[stage].Ended()
    requires Ends(r.checkpoints[stage], finished, when) && finished.Valid()
    requires r'.checkpoints == r.checkpoints[stage := finished]
    requires r'.orchestration == Some(Successor(r.orchestration.value, finished, when))
    ensures PhaseChanges(r, r') && Depth(r') == Depth(r) + 1
  {
    EndingKeepsSlots(r, id, stage, finished, r', when);
  }

  lemma ConcludeDepth(s: System, w: nat, stage: Stage, outcome: Outcome)
    requires Inv(s) && w in s.workers && InOrder(s, Conclude(w, stage, outcome))
    ensures var r' := StepConclude(s, w, stage, outcome).rows; Depth(r') == Depth(s.rows) + if PhaseChanges(s.rows, r') then 1 else 0
  {
    if Conclusion(s.workers[w], stage, outcome).Some? {
      ConclusionFits(s, w, stage, outcome);
      var (planned, finished) := Conclusion(s.workers[w], stage, outcome).value;
      var current, when := s.workers[w].current.value, s.workers[w].when;
      var t := TxAdvance(s.rows, planned, finished, current, Successor(current, finished, when));
      if t.Some? {
        AdvanceDeepens(s.rows, s.id, stage, finished, t.value, when);
      }
    }
  }

  lemma BackupCommitDepth(s: System, previous: Checkpoint, finished: Checkpoint, current: Orchestration, when: int)
    requires Inv(s) && previous.stage == Backup && !previous.Ended() && Ends(previous, finished, when) && finished.Valid()
    ensures
      var r' := SetRows(s, TxFinishBackup(s.rows, previous, finished, current, Successor(current, finished, when), when)).rows;
      Depth(r') == Depth(s.rows) + if PhaseChanges(s.rows, r') then 1 else 0
  {
    var t := TxFinishBackup(s.rows, previous, finished, current, Successor(current, finished, when), when);
    if t.Some? {
      AdvanceDeepens(s.rows, s.id, Backup, finished, t.value, when);
    }
  }

  lemma FinishBackupDepth(s: System, w: nat)
    requires Inv(s) && w in s.workers
    ensures var r' := StepFinishBackup(s, w).rows; Depth(r') == Depth(s.rows) + if PhaseChanges(s.rows, r') then 1 else 0
  {
    var worker := s.workers[w];
    var ending := BackupEnding(worker.ticket, worker.when);
    if ending.Some? && At(worker, Backup) && ending.value.1.Valid() {
      assert WorkerFits(s, w);
      EndingFits(s, worker.ticket, worker.when);
      if Successor(worker.current.value, ending.value.1, worker.when).Valid() {
        BackupCommitDepth(s, ending.value.0, ending.value.1, worker.current.value, worker.when);
      }
    }
  }

  lemma JournalStepDepth(s: System, s': System)
    requires JournalStep(s, s')
    ensures Depth(s'.rows) == Depth(s.rows) && !PhaseChanges(s.rows, s'.rows)
  {
  }

  lemma WrittenDepth(s: System, a: Action, s': System)
    requires Inv(s) && InOrder(s, a) && WritesRecords(a) && a.w in s.workers && s' == Written(s, a)
    ensures Depth(s'.rows) == Depth(s.rows) + if PhaseChanges(s.rows, s'.rows) then 1 else 0
  {
    match a
    case Register(w) => RegisterStep(s, w);
    case RecordPlan(w, stage) => RecordPlanDepth(s, w, stage);
    case Conclude(w, stage, outcome) => ConcludeDepth(s, w, stage, outcome);
    case FinishBackup(w) => FinishBackupDepth(s, w);
    case _ =>
      StepIsWritten(s, a);
      JournalStepsKeepDepth(s, a);
      JournalStepDepth(s, s');
  }

  /** A step deepens the candidate by exactly one when it changes the phase, and otherwise not. */
  lemma StepDepth(s: System, a: Action)
    requires Inv(s) && InOrder(s, a)
    ensures Depth(Step(s, a).rows) == Depth(s.rows) + if PhaseChanges(s.rows, Step(s, a).rows) then 1 else 0
  {
    if !WritesRecords(a) || a.w !in s.workers {
      OtherStepsWriteNoRecords(s, a);
      SameRecordsExtend(s.rows, Step(s, a).rows);
    } else {
      StepIsWritten(s, a);
      WrittenDepth(s, a, Step(s, a));
    }
  }

  lemma RecordPlanDepth(s: System, w: nat, stage: Stage)
    requires Inv(s) && w in s.workers
    ensures var r' := StepRecordPlan(s, w, stage).rows; Depth(r') == Depth(s.rows) && !PhaseChanges(s.rows, r')
  {
  }
}

/** What the deployment step machine does with a worker at each place of its pass. */
module DeploymentPlaces {
  import opened Options
  import opened Candidate
  import opened Deployment
  import opened DeploymentRuns

  /** The machine's worker stands where the pass does. */
  predicate Stands(s: System, w: nat, db: Db, worker: Worker) {
    w in s.workers && s.db == db && s.workers[w] == worker
  }

  // ---------------------------------------------------------------- what the machine does at each place

  lemma BegunLooks(s: System, w: nat, db: Db, worker: Worker, answer: Answer)
    requires Stands(s, w, db, worker) && worker.kind == Observe && worker.pc == Begun
    ensures Stands(StepContinue(s, w, answer), w, db, worker.(pc := BeginObserve(db)))
  {
  }

  lemma InitialProbed(s: System, w: nat, db: Db, worker: Worker, answer: Answer)
    requires Stands(s, w, db, worker) && worker.pc == ProbeInitial && RestartProved(db) && LoadHealth(db).Absent?
    ensures Stands(StepContinue(s, w, answer), w, db,
      worker.(probes := worker.probes + 1,
              pc := if answer.Success? then RecordInitial(Health(LoadAttempt(db).value, worker.when)) else ToFail(answer.transient)))
  {
  }

  lemma InitialRecordedStep(s: System, w: nat, db: Db, worker: Worker, h: Health, answer: Answer)
    requires Stands(s, w, db, worker) && worker.pc == RecordInitial(h)
    ensures
      var t := TxRecordHealth(db, h);
      Stands(StepContinue(s, w, answer), w, if t.Some? then t.value else db, worker.(pc := if t.Some? then ToDefer else ToFail(false)))
  {
  }

  lemma DeferredStep(s: System, w: nat, db: Db, worker: Worker, answer: Answer)
    requires Stands(s, w, db, worker) && worker.pc == ToDefer
    ensures
      var claimed := Claimed(db, worker.kind, worker.attempts);
      Stands(StepContinue(s, w, answer), w,
        if claimed then db.(work := db.work[worker.kind := Deferred(db.work[worker.kind], worker.when)]) else db,
        worker.(pc := if claimed then Over else ToFail(false)))
  {
  }

  lemma WindowLooked(s: System, w: nat, db: Db, worker: Worker, answer: Answer)
    requires Stands(s, w, db, worker) && worker.pc == LookWindow
    ensures Stands(StepContinue(s, w, answer), w, db, worker.(pc := AfterLookWindow(db, worker.when)))
  {
  }

  lemma AdvanceLooked(s: System, w: nat, db: Db, worker: Worker, opening: bool, answer: Answer)
    requires Stands(s, w, db, worker) && worker.pc == Advance(opening)
    ensures Stands(StepContinue(s, w, answer), w, db, worker.(pc := AfterAdvance(db, worker.when, opening)))
  {
  }

  lemma WindowOpened(s: System, w: nat, db: Db, worker: Worker, h: Health, opening: bool, answer: Answer)
    requires Stands(s, w, db, worker) && worker.pc == OpenWindow(h, opening) && LoadWindow(db).Absent?
    ensures
      var t := TxOpenWindow(db, Opened(worker, h));
      Stands(StepContinue(s, w, answer), w, if t.Some? then t.value else db,
             worker.(pc := if t.Some? then Advanced(Opened(worker, h), false, opening) else ToFail(false)))
  {
  }

  lemma FinalProbed(s: System, w: nat, db: Db, worker: Worker, win: Window, opening: bool, answer: Answer)
    requires Stands(s, w, db, worker) && worker.pc == ProbeFinal(win, opening)
    ensures Stands(StepContinue(s, w, answer), w, db,
      worker.(probes := worker.probes + 1, pc := if answer.Success? then RecordComplete(win, opening) else ToFail(answer.transient)))
  {
  }

  lemma CompletionRecorded(s: System, w: nat, db: Db, worker: Worker, win: Window, opening: bool, answer: Answer)
    requires Stands(s, w, db, worker) && worker.pc == RecordComplete(win, opening)
    ensures
      var t := TxCompleteWindow(db, win, worker.when);
      Stands(StepContinue(s, w, answer), w, if t.Some? then t.value else db,
             worker.(pc := if t.Some? then Advanced(win, true, opening) else ToFail(false)))
  {
  }

  lemma ScheduledStep(s: System, w: nat, db: Db, worker: Worker, deadline: int, answer: Answer)
    requires Stands(s, w, db, worker) && worker.pc == ToSchedule(deadline)
    ensures
      var t := TxSchedule(db, worker.attempts, deadline, worker.when);
      Stands(StepContinue(s, w, answer), w, if t.Some? then t.value else db, worker.(pc := if t.Some? then Over else ToFail(false)))
  {
  }

  lemma FinishedStep(s: System, w: nat, db: Db, worker: Worker, passed: bool, answer: Answer)
    requires Stands(s, w, db, worker) && worker.pc == ToFinish(passed)
    ensures
      var t := TxHandoff(db, worker.kind, passed, worker.attempts, worker.when);
      Stands(StepContinue(s, w, answer), w, if t.Some? then t.value else db, worker.(pc := if t.Some? then Over else ToFail(false)))
  {
  }
}

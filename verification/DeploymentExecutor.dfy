/** One pass of the Core observation executor over the tables and the Core API, proved to be a run of
    the deployment step machine, so everything proved over runs holds of what the pass leaves behind. */
module DeploymentExecutor {
  import opened Options
  import opened Candidate
  import opened Deployment
  import opened DeploymentRuns
  import opened DeploymentStore
  import opened DeploymentPlaces

  /** A run of one worker's steps from `sys`, and the state it has reached. */
  ghost predicate Reached(sys: System, steps: seq<Action>, s: System) {
    Run(sys, steps) == s
  }

  lemma Took(sys: System, steps: seq<Action>, s: System, w: nat, answer: Answer)
    requires Reached(sys, steps, s) && w in s.workers
    ensures Reached(sys, steps + [Continue(w, answer)], StepContinue(s, w, answer))
  {
    var a := Continue(w, answer);
    RunConcat(sys, steps, [a]);
    assert [a][1..] == [];
    assert Run(s, [a]) == Run(Step(s, a), [a][1..]);
  }

  // ---------------------------------------------------------------- the pass

  datatype Ended = InitialHealthRecorded | WindowStarted(deadline: int) | Waiting(deadline: int) | SupervisorScheduled | Failing(transient: bool)

  /** The machine's worker is done exactly when the pass reports something stored; otherwise it is about to
      fail the row, and as transiently as the pass says. */
  predicate EndsAs(last: Worker, ended: Ended) {
    last.pc == if ended.Failing? then ToFail(ended.transient) else Over
  }

  /** Where the pass has got to: the tables, the worker's place and the probes made agree with the machine. */
  ghost predicate Follows(store: Store, core: Core, id: string, sys: System, steps: seq<Action>, s: System, w: nat, worker: Worker, probes: nat)
    reads store, core
  {
    Reached(sys, steps, s) && Stands(s, w, store.DbOf(id), worker) && core.probes == probes + worker.probes
  }

  /** The first probe: make it, record it, put the row back for the next pass. */
  method RecordFirstProbe(store: Store, core: Core, id: string, attempt: Attempt, answer: Answer, worker: Worker,
                          ghost sys: System, ghost before: seq<Action>, ghost start: System, ghost w: nat, ghost probes: nat)
    returns (ended: Ended, last: Worker, ghost steps: seq<Action>, ghost s: System)
    requires Follows(store, core, id, sys, before, start, w, worker, probes) && worker.kind == Observe && worker.pc == ProbeInitial && worker.probes == 0
    requires RestartProved(store.DbOf(id)) && LoadHealth(store.DbOf(id)).Absent? && LoadAttempt(store.DbOf(id)) == Present(attempt)
    modifies store, core`probes
    ensures store.OthersUnchanged(id) && Follows(store, core, id, sys, steps, s, w, last, probes) && last.probes == 1
    ensures EndsAs(last, ended) && (ended == InitialHealthRecorded || ended.Failing?)
    ensures ended.InitialHealthRecorded? ==>
      && store.DbOf(id).health == Some(Health(attempt, worker.when))
      && Observe in store.DbOf(id).work && store.DbOf(id).work[Observe].status == Pending
  {
    InitialProbed(start, w, store.DbOf(id), worker, answer);
    Took(sys, before, start, w, answer);
    s, steps := StepContinue(start, w, answer), before + [Continue(w, answer)];
    last := worker.(probes := 1, pc := if answer.Success? then RecordInitial(Health(attempt, worker.when)) else ToFail(answer.transient));
    var healthy := core.Probe(answer.Success?);
    if !healthy { return Failing(answer.transient), last, steps, s; }

    var requested := Health(attempt, worker.when);
    InitialRecordedStep(s, w, store.DbOf(id), last, requested, answer);
    Took(sys, steps, s, w, answer);
    s, steps := StepContinue(s, w, answer), steps + [Continue(w, answer)];
    var recorded := store.RecordObservedHealth(id, requested);
    last := last.(pc := if recorded then ToDefer else ToFail(false));
    if !recorded { return Failing(false), last, steps, s; }

    DeferredStep(s, w, store.DbOf(id), last, answer);
    Took(sys, steps, s, w, answer);
    s, steps := StepContinue(s, w, answer), steps + [Continue(w, answer)];
    var deferred := store.Defer(id, Observe, worker.attempts, worker.when);
    last := last.(pc := if deferred then Over else ToFail(false));
    ended := if deferred then InitialHealthRecorded else Failing(false);
  }

  /** `_schedule_at`. */
  method Schedule(store: Store, core: Core, id: string, deadline: int, worker: Worker,
                  ghost sys: System, ghost before: seq<Action>, ghost start: System, ghost w: nat, ghost probes: nat)
    returns (ok: bool, last: Worker, ghost steps: seq<Action>, ghost s: System)
    requires Follows(store, core, id, sys, before, start, w, worker, probes) && worker.kind == Observe && worker.pc == ToSchedule(deadline)
    modifies store`work
    ensures store.OthersUnchanged(id) && Follows(store, core, id, sys, steps, s, w, last, probes) && last.probes == worker.probes
    ensures last.pc == if ok then Over else ToFail(false)
    ensures store.DbOf(id).window == old(store.DbOf(id)).window
    ensures ok ==>
      && store.DbOf(id).window.Some? && store.DbOf(id).window.value.deadline == deadline
      && Observe in store.DbOf(id).work && store.DbOf(id).work[Observe].status == Retry && store.DbOf(id).work[Observe].nextAttemptAt == Some(deadline)
  {
    var answer := Failure(false);
    ScheduledStep(start, w, store.DbOf(id), worker, deadline, answer);
    Took(sys, before, start, w, answer);
    s, steps := StepContinue(start, w, answer), before + [Continue(w, answer)];
    ok := store.ScheduleAt(id, worker.attempts, deadline, worker.when);
    last := worker.(pc := if ok then Over else ToFail(false));
  }

  /** The deadline has not passed: come back when it has. */
  method Wait(store: Store, core: Core, id: string, deadline: int, worker: Worker,
              ghost sys: System, ghost before: seq<Action>, ghost start: System, ghost w: nat, ghost probes: nat)
    returns (ended: Ended, last: Worker, ghost steps: seq<Action>, ghost s: System)
    requires Follows(store, core, id, sys, before, start, w, worker, probes) && worker.kind == Observe && worker.pc == ToSchedule(deadline)
    modifies store`work
    ensures store.OthersUnchanged(id) && Follows(store, core, id, sys, steps, s, w, last, probes) && last.probes == worker.probes
    ensures EndsAs(last, ended) && (ended == Waiting(deadline) || ended.Failing?)
    ensures store.DbOf(id).window == old(store.DbOf(id)).window
  {
    var ok;
    ok, last, steps, s := Schedule(store, core, id, deadline, worker, sys, before, start, w, probes);
    ended := if ok then Waiting(deadline) else Failing(false);
  }

  /** Open the window and wait for its deadline. */
  method StartWindow(store: Store, core: Core, id: string, worker: Worker,
                     ghost sys: System, ghost before: seq<Action>, ghost start: System, ghost w: nat, ghost probes: nat)
    returns (ended: Ended, last: Worker, ghost steps: seq<Action>, ghost s: System)
    requires Follows(store, core, id, sys, before, start, w, worker, probes) && worker.kind == Observe && worker.pc == Advance(true) && worker.probes == 0
    requires LoadWindow(store.DbOf(id)).Absent? && LoadHealth(store.DbOf(id)).Present?
    modifies store
    ensures store.OthersUnchanged(id) && Follows(store, core, id, sys, steps, s, w, last, probes) && last.probes == 0
    ensures EndsAs(last, ended) && (ended.WindowStarted? || ended.Failing?)
    ensures ended.WindowStarted? ==>
      && ended.deadline == worker.when + worker.seconds && store.DbOf(id).window.Some? && store.DbOf(id).window.value.deadline == ended.deadline
      && Observe in store.DbOf(id).work && store.DbOf(id).work[Observe].nextAttemptAt == Some(ended.deadline)
  {
    var answer := Failure(false);
    var initial := LoadHealth(store.DbOf(id)).value;
    AdvanceLooked(start, w, store.DbOf(id), worker, true, answer);
    Took(sys, before, start, w, answer);
    s, steps := StepContinue(start, w, answer), before + [Continue(w, answer)];
    if worker.when < initial.observedAt { return Failing(false), worker.(pc := ToFail(false)), steps, s; }
    last := worker.(pc := OpenWindow(initial, true));

    var requested := Opened(worker, initial);
    WindowOpened(s, w, store.DbOf(id), last, initial, true, answer);
    Took(sys, steps, s, w, answer);
    s, steps := StepContinue(s, w, answer), steps + [Continue(w, answer)];
    var started := store.RecordWindowStarted(id, requested);
    last := last.(pc := if started then ToSchedule(requested.deadline) else ToFail(false));
    if !started { return Failing(false), last, steps, s; }
    var ok;
    ok, last, steps, s := Schedule(store, core, id, requested.deadline, last, sys, steps, s, w, probes);
    ended := if ok then WindowStarted(requested.deadline) else Failing(false);
  }

  /** `_finish_completed`. */
  method Finish(store: Store, core: Core, id: string, worker: Worker,
                ghost sys: System, ghost before: seq<Action>, ghost start: System, ghost w: nat, ghost probes: nat)
    returns (ended: Ended, last: Worker, ghost steps: seq<Action>, ghost s: System)
    requires Follows(store, core, id, sys, before, start, w, worker, probes) && worker.kind == Observe && worker.pc == ToFinish(true)
    modifies store`work
    ensures store.OthersUnchanged(id) && Follows(store, core, id, sys, steps, s, w, last, probes) && last.probes == worker.probes
    ensures EndsAs(last, ended) && (ended == SupervisorScheduled || ended.Failing?)
    ensures ended.SupervisorScheduled? ==> WindowProved(old(store.DbOf(id))) && Supervisor in store.DbOf(id).work
  {
    var answer := Failure(false);
    FinishedStep(start, w, store.DbOf(id), worker, true, answer);
    Took(sys, before, start, w, answer);
    s, steps := StepContinue(start, w, answer), before + [Continue(w, answer)];
    var ok := store.Finish(id, Observe, true, worker.attempts, worker.when);
    last := worker.(pc := if ok then Over else ToFail(false));
    ended := if ok then SupervisorScheduled else Failing(false);
  }

  /** The deadline has passed: probe once more, complete the window, hand off. */
  method CompleteWindow(store: Store, core: Core, id: string, window: Window, answer: Answer, worker: Worker,
                        ghost sys: System, ghost before: seq<Action>, ghost start: System, ghost w: nat, ghost probes: nat)
    returns (ended: Ended, last: Worker, ghost steps: seq<Action>, ghost s: System)
    requires Follows(store, core, id, sys, before, start, w, worker, probes) && worker.kind == Observe && worker.pc == Advance(false) && worker.probes == 0
    requires LoadWindow(store.DbOf(id)) == Present(window) && window.completedAt.None? && window.deadline <= worker.when
    modifies store, core`probes
    ensures store.OthersUnchanged(id) && Follows(store, core, id, sys, steps, s, w, last, probes) && last.probes <= 1
    ensures EndsAs(last, ended) && (ended == SupervisorScheduled || ended.Failing?)
    ensures ended.SupervisorScheduled? ==> Supervisor in store.DbOf(id).work
  {
    AdvanceLooked(start, w, store.DbOf(id), worker, false, answer);
    Took(sys, before, start, w, answer);
    s, steps := StepContinue(start, w, answer), before + [Continue(w, answer)];
    assert LoadHealth(store.DbOf(id)).Present? && window.Valid();
    last := worker.(pc := ProbeFinal(window, false));

    FinalProbed(s, w, store.DbOf(id), last, window, false, answer);
    Took(sys, steps, s, w, answer);
    s, steps := StepContinue(s, w, answer), steps + [Continue(w, answer)];
    last := last.(probes := 1, pc := if answer.Success? then RecordComplete(window, false) else ToFail(answer.transient));
    var healthy := core.Probe(answer.Success?);
    if !healthy { return Failing(answer.transient), last, steps, s; }

    CompletionRecorded(s, w, store.DbOf(id), last, window, false, answer);
    Took(sys, steps, s, w, answer);
    s, steps := StepContinue(s, w, answer), steps + [Continue(w, answer)];
    var completed := store.RecordWindowCompleted(id, window, worker.when);
    last := last.(pc := if completed then ToFinish(true) else ToFail(false));
    if !completed { return Failing(false), last, steps, s; }
    ended, last, steps, s := Finish(store, core, id, last, sys, steps, s, w, probes);
  }

  /** With the first probe on record: open the window, wait for it, complete it, or hand off a completed one. */
  method AdvanceWindow(store: Store, core: Core, id: string, answer: Answer, worker: Worker,
                       ghost sys: System, ghost before: seq<Action>, ghost start: System, ghost w: nat, ghost probes: nat)
    returns (ended: Ended, last: Worker, ghost steps: seq<Action>, ghost s: System)
    requires Follows(store, core, id, sys, before, start, w, worker, probes) && worker.kind == Observe && worker.pc == LookWindow && worker.probes == 0
    requires LoadHealth(store.DbOf(id)).Present?
    modifies store, core`probes
    ensures store.OthersUnchanged(id) && Follows(store, core, id, sys, steps, s, w, last, probes) && last.probes <= 1
    ensures EndsAs(last, ended) && !ended.InitialHealthRecorded?
    ensures ended.WindowStarted? ==>
      && ended.deadline == worker.when + worker.seconds && last.probes == 0
      && store.DbOf(id).window.Some? && store.DbOf(id).window.value.deadline == ended.deadline
    ensures ended.Waiting? ==> worker.when < ended.deadline && store.DbOf(id).window == old(store.DbOf(id)).window && last.probes == 0
    ensures ended.SupervisorScheduled? ==> Supervisor in store.DbOf(id).work
  {
    WindowLooked(start, w, store.DbOf(id), worker, answer);
    Took(sys, before, start, w, answer);
    s, steps := StepContinue(start, w, answer), before + [Continue(w, answer)];
    last := worker.(pc := AfterLookWindow(store.DbOf(id), worker.when));
    var window := LoadWindow(store.DbOf(id));
    if window.Invalid? { return Failing(false), last, steps, s; }
    if window.Absent? {
      ended, last, steps, s := StartWindow(store, core, id, last, sys, steps, s, w, probes);
    } else if window.value.completedAt.Some? {
      ended, last, steps, s := Finish(store, core, id, last, sys, steps, s, w, probes);
    } else if worker.when < window.value.deadline {
      ended, last, steps, s := Wait(store, core, id, window.value.deadline, last, sys, steps, s, w, probes);
    } else {
      ended, last, steps, s := CompleteWindow(store, core, id, window.value, answer, last, sys, steps, s, w, probes);
    }
  }

  /** One pass for a claimed `candidate_observe` row. Whatever the Core API answers, the tables end where
      a run of the step machine ends, the pass probes at most once, and what it reports is stored. */
  method ExecuteCoreObservationOnce(store: Store, core: Core, id: string, attempts: nat, when: int, seconds: int, answer: Answer,
                                    ghost sys: System, ghost w: nat)
    returns (ended: Ended, last: Worker, ghost steps: seq<Action>)
    requires Stands(sys, w, store.DbOf(id), Worker(Observe, when, seconds, attempts, Begun, 0))
    modifies store, core`probes
    ensures store.OthersUnchanged(id)
    ensures Stands(Run(sys, steps), w, store.DbOf(id), last) && EndsAs(last, ended)
    ensures core.probes == old(core.probes) + last.probes && last.probes <= 1
    ensures ended.InitialHealthRecorded? ==> store.DbOf(id).health.Some? && last.probes == 1
    ensures ended.WindowStarted? ==>
      ended.deadline == when + seconds && store.DbOf(id).window.Some? && store.DbOf(id).window.value.deadline == ended.deadline && last.probes == 0
    ensures ended.Waiting? ==> when < ended.deadline && store.DbOf(id).window == old(store.DbOf(id)).window && last.probes == 0
    ensures ended.SupervisorScheduled? ==> Supervisor in store.DbOf(id).work
  {
    ghost var s;
    var worker := Worker(Observe, when, seconds, attempts, Begun, 0);
    ghost var probes := core.probes;
    assert Reached(sys, [], sys);
    BegunLooks(sys, w, store.DbOf(id), worker, answer);
    Took(sys, [], sys, w, answer);
    s, steps := StepContinue(sys, w, answer), [] + [Continue(w, answer)];
    last := worker.(pc := BeginObserve(store.DbOf(id)));
    if !RestartProved(store.DbOf(id)) { return Failing(false), last, steps; }
    var initial := LoadHealth(store.DbOf(id));
    if initial.Invalid? { return Failing(false), last, steps; }
    if initial.Absent? {
      ended, last, steps, s := RecordFirstProbe(store, core, id, LoadAttempt(store.DbOf(id)).value, answer, last, sys, steps, s, w, probes);
      return;
    }
    ended, last, steps, s := AdvanceWindow(store, core, id, answer, last, sys, steps, s, w, probes);
  }
}

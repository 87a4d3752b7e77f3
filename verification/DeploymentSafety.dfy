/** What holds over every run of the post-Apply pipeline: any interleaving of any number of workers,
    crashes, recoveries, failures, retries and administrative retries, from the empty store. */
module DeploymentSafety {
  import opened Options
  import opened Candidate
  import opened Deployment
  import opened DeploymentInvariant
  import opened DeploymentRuns
  import opened DeploymentSteps
  import HandoffPath

  // ---------------------------------------------------------------- rows and records

  lemma RowBefore(db: Db, j: Kind, k: Kind)
    requires DbInv(db) && k in db.work && Depth(j) < Depth(k) && j in db.work
    ensures db.work[j].status == Succeeded && Next(db, j).Some? && Depth(Next(db, j).value) <= Depth(k)
  {
    assert HandoffPath.Ordered(RowStates(db.work), Dictated(db), Depth, j, k);
    DictatedIsNext(db, j);
  }

  lemma SameDepthSameRow(db: Db, j: Kind, k: Kind)
    requires DbInv(db) && j in db.work && k in db.work && Depth(j) == Depth(k)
    ensures j == k
  {
    assert HandoffPath.Ordered(RowStates(db.work), Dictated(db), Depth, j, k);
  }

  lemma SucceededRowHandedOff(db: Db, k: Kind)
    requires DbInv(db) && k in db.work && db.work[k].status == Succeeded && Depth(k) < 10
    ensures Next(db, k).Some? && Next(db, k).value in db.work
  {
    assert HandoffPath.HandedOff(RowStates(db.work), Dictated(db), Depth, 10, k);
    DictatedIsNext(db, k);
  }

  lemma RootExists(db: Db, k: Kind)
    requires DbInv(db) && k in db.work
    ensures Restart in db.work
  {
    assert k in RowStates(db.work);
    assert Restart in RowStates(db.work);
  }

  /** A row of kind `k` implies the row and the record its handoff came from, for the linear part. */
  lemma {:induction false} LinearPredecessor(db: Db, j: Kind, k: Kind)
    requires DbInv(db) && k in db.work && Depth(j) < Depth(k) && Depth(j) <= 4
    ensures j in db.work && db.work[j].status == Succeeded && Next(db, j).Some?
    decreases Depth(j)
  {
    if j == Restart {
      RootExists(db, k);
    } else {
      var p := if j == Observe then Restart else if j == Supervisor then Observe else PriorKind(j);
      LinearPredecessor(db, p, k);
      SucceededRowHandedOff(db, p);
    }
    RowBefore(db, j, k);
  }

  // ---------------------------------------------------------------- one path

  /** The path the rows of a store form. */
  ghost predicate RowsFormPath(db: Db, path: seq<Kind>) {
    && (forall k :: k in db.work <==> k in path)
    && (path != [] ==> path[0] == Restart)
    && (forall i :: 0 <= i < |path| - 1 ==>
          && path[i] in db.work && db.work[path[i]].status == Succeeded
          && Next(db, path[i]) == Some(path[i + 1]) && Depth(path[i]) < Depth(path[i + 1]))
  }

  lemma RowsArePath(db: Db) returns (path: seq<Kind>)
    requires DbInv(db)
    ensures RowsFormPath(db, path)
  {
    if db.work == map[] { return []; }
    var k :| k in db.work;
    RootExists(db, k);
    var rows, next := RowStates(db.work), Dictated(db);
    forall q ensures q in next <==> Next(db, q).Some? {
      DictatedIsNext(db, q);
    }
    forall q | q in next ensures Depth(q) < Depth(next[q]) { DictatedIsNext(db, q); }
    HandoffPath.PathFromCoversRows(rows, next, Depth, Restart, 10, Restart);
    path := HandoffPath.PathFrom(rows, next, Depth, 10, Restart);
    forall q | q in db.work ensures q in path { assert q in rows; }
    forall i | 0 <= i < |path| - 1
      ensures path[i] in db.work && db.work[path[i]].status == Succeeded && Next(db, path[i]) == Some(path[i + 1])
    {
      DictatedIsNext(db, path[i]);
    }
  }

  /** In every reachable store the work rows from `candidate_restart` on form one path of the handoff
      graph: every row but the last has succeeded and its successor is the one its stored record
      dictates. */
  lemma RowsFormOnePath(clock: int, actions: seq<Action>)
    ensures exists path :: RowsFormPath(Run(Initial(clock), actions).db, path)
  {
    ReachableInv(clock, actions);
    var path := RowsArePath(Run(Initial(clock), actions).db);
  }

  /** So at most one row is live, no two rows stand at the same place of the graph, and promotion and
      rollback exclude each other. */
  lemma AtMostOneLiveRow(clock: int, actions: seq<Action>, j: Kind, k: Kind)
    ensures
      var db := Run(Initial(clock), actions).db;
      && (j in db.work && k in db.work && db.work[j].status != Succeeded && db.work[k].status != Succeeded ==> j == k)
      && !(Promote in db.work && Rollback in db.work)
  {
    ReachableInv(clock, actions);
    var db := Run(Initial(clock), actions).db;
    if j in db.work && k in db.work && j != k {
      if Depth(j) < Depth(k) { RowBefore(db, j, k); }
      else if Depth(k) < Depth(j) { RowBefore(db, k, j); }
      else { SameDepthSameRow(db, j, k); }
    }
    if Promote in db.work && Rollback in db.work {
      SameDepthSameRow(db, Promote, Rollback);
    }
  }

  // ---------------------------------------------------------------- the restart request

  /** At most one restart request is ever sent, none before a started attempt is durable, and the
      observation row exists only after that one request was answered and the answer recorded under
      the stored authorization. */
  lemma RestartIsSentAtMostOnce(clock: int, actions: seq<Action>)
    ensures
      var s := Run(Initial(clock), actions);
      && s.sends <= 1
      && (s.db.attempt.None? ==> s.sends == 0)
      && (Observe in s.db.work ==>
            && s.sends == 1 && s.responses == 1
            && s.db.attempt.Some? && s.db.attempt.value.acknowledged
            && s.db.authorization == Some(s.db.attempt.value.authorization))
  {
    ReachableInv(clock, actions);
    var s := Run(Initial(clock), actions);
    if Observe in s.db.work {
      LinearPredecessor(s.db, Restart, Observe);
    }
  }

  /** The request itself: whoever sends it holds the started attempt that is durable at that moment,
      and nobody else may send another. */
  lemma SendFollowsDurableStart(clock: int, actions: seq<Action>, a: Action)
    requires Step(Run(Initial(clock), actions), a).sends != Run(Initial(clock), actions).sends
    ensures
      var s := Run(Initial(clock), actions);
      && s.sends == 0 && a.Continue? && a.w in s.workers && s.workers[a.w].pc.MaySend?
      && s.db.attempt == Some(s.workers[a.w].pc.attempt) && !s.db.attempt.value.acknowledged
      && forall v :: v in s.workers && v != a.w ==> !HoldsPermit(s.workers[v].pc)
  {
    ReachableInv(clock, actions);
    var s := Run(Initial(clock), actions);
    SendingStep(s, a);
    assert WorkerOk(s, a.w);
    HolderIsSole(s, a.w);
    forall v | v in s.workers && v != a.w ensures !HoldsPermit(s.workers[v].pc) {
      assert OnePermit(s, v, v);
    }
  }

  lemma SendingStep(s: System, a: Action)
    requires Step(s, a).sends != s.sends
    ensures a.Continue? && a.w in s.workers && s.workers[a.w].pc.MaySend?
  {
    if a.Continue? && a.w in s.workers && !s.workers[a.w].pc.MaySend? {
      OnlySendSends(s, a.w, a.answer);
    }
  }

  lemma OnlySendSends(s: System, w: nat, answer: Answer)
    requires w in s.workers && !s.workers[w].pc.MaySend?
    ensures StepContinue(s, w, answer).sends == s.sends
  {
  }

  // ---------------------------------------------------------------- the health window

  /** Supervisor observation is scheduled only when two successful Core probes are on record, at least
      as far apart as the window that was opened between them. */
  lemma SupervisorNeedsTwoProbes(clock: int, actions: seq<Action>)
    requires Supervisor in Run(Initial(clock), actions).db.work
    ensures
      var s := Run(Initial(clock), actions);
      && s.db.window.Some? && s.db.window.value.completedAt.Some? && s.db.health == Some(s.db.window.value.health)
      && var win := s.db.window.value;
      && win.health.observedAt in s.healthyAt && win.completedAt.value in s.healthyAt
      && win.completedAt.value - win.health.observedAt >= win.deadline - win.startedAt >= 30
  {
    ReachableInv(clock, actions);
    LinearPredecessor(Run(Initial(clock), actions).db, Observe, Supervisor);
  }

  /** The step that opens a window fixes its deadline by its own pass's observation seconds. */
  lemma OpeningFixesDeadline(clock: int, actions: seq<Action>, a: Action)
    requires Run(Initial(clock), actions).db.window.None? && Step(Run(Initial(clock), actions), a).db.window.Some?
    ensures
      var s := Run(Initial(clock), actions);
      var win := Step(s, a).db.window.value;
      && a.Continue? && a.w in s.workers && win.completedAt.None? && win.startedAt == s.workers[a.w].when
      && win.deadline == win.startedAt + s.workers[a.w].seconds && 30 <= s.workers[a.w].seconds <= 3600
  {
    ReachableInv(clock, actions);
    var s := Run(Initial(clock), actions);
    assert WorkerOk(s, a.w);
    OpeningStep(s, a.w, a.answer);
  }

  lemma OpeningStep(s: System, w: nat, answer: Answer)
    requires w in s.workers && s.db.window.None? && StepContinue(s, w, answer).db.window.Some?
    ensures s.workers[w].pc.OpenWindow?
    ensures StepContinue(s, w, answer).db.window.value == Opened(s.workers[w], s.workers[w].pc.health)
  {
    if OfRestart(s.workers[w].pc) { RestartStepsLeaveWindow(s, w, answer); }
    else if OfHealth(s.workers[w].pc) { HealthStepOpens(s, w, answer); }
    else { OtherStepsLeaveWindow(s, w, answer); }
  }

  lemma RestartStepsLeaveWindow(s: System, w: nat, answer: Answer)
    requires w in s.workers
    ensures RestartStep(s, w, answer).db.window == s.db.window
  {
  }

  lemma OtherStepsLeaveWindow(s: System, w: nat, answer: Answer)
    requires w in s.workers
    ensures OtherStep(s, w, answer).db.window == s.db.window
  {
  }

  lemma HealthStepOpens(s: System, w: nat, answer: Answer)
    requires w in s.workers && s.db.window.None? && HealthStep(s, w, answer).db.window.Some?
    ensures s.workers[w].pc.OpenWindow?
    ensures HealthStep(s, w, answer).db.window.value == Opened(s.workers[w], s.workers[w].pc.health)
  {
  }

  /** Whatever happens after that (crashes, repeats, other durations), the window stays as opened, its
      completion apart, and once completed it is final. */
  lemma DeadlineNeverMoves(clock: int, before: seq<Action>, after: seq<Action>)
    requires Run(Initial(clock), before).db.window.Some?
    ensures
      var win := Run(Initial(clock), before).db.window.value;
      var later := Run(Initial(clock), before + after).db.window;
      && later.Some? && later.value.startedAt == win.startedAt && later.value.deadline == win.deadline
      && later.value.health == win.health && (win.completedAt.Some? ==> later.value == win)
  {
    ReachableInv(clock, before);
    RunConcat(Initial(clock), before, after);
    RunKeeps(Run(Initial(clock), before), after);
  }

  /** A run that has opened the window has one step that opened it. */
  lemma {:induction false} OpeningInRun(clock: int, actions: seq<Action>) returns (n: nat)
    requires Run(Initial(clock), actions).db.window.Some?
    ensures n < |actions| && Run(Initial(clock), actions[..n]).db.window.None?
    ensures Step(Run(Initial(clock), actions[..n]), actions[n]).db.window.Some?
    ensures Run(Initial(clock), actions[..n + 1]) == Step(Run(Initial(clock), actions[..n]), actions[n])
    decreases |actions|
  {
    n := |actions| - 1;
    var front := actions[..n];
    assert actions == front + [actions[n]] && actions[..n + 1] == actions;
    RunConcat(Initial(clock), front, [actions[n]]);
    assert [actions[n]][1..] == [];
    assert Run(Run(Initial(clock), front), [actions[n]]) == Step(Run(Initial(clock), front), actions[n]);
    if Run(Initial(clock), front).db.window.Some? {
      n := OpeningInRun(clock, front);
      assert front[..n] == actions[..n] && front[..n + 1] == actions[..n + 1];
    }
  }

  /** When Supervisor observation is scheduled, some earlier step opened the window, and the two successful
      probes are at least as far apart as the observation seconds of the pass that took that step, whatever
      durations other passes were given. */
  lemma ProbesApartBySecondsOfOpening(clock: int, actions: seq<Action>) returns (n: nat)
    requires Supervisor in Run(Initial(clock), actions).db.work
    ensures n < |actions| && actions[n].Continue? && actions[n].w in Run(Initial(clock), actions[..n]).workers
    ensures Run(Initial(clock), actions[..n]).db.window.None?
    ensures
      var s := Run(Initial(clock), actions);
      var opener := Run(Initial(clock), actions[..n]).workers[actions[n].w];
      && s.db.window.Some? && s.db.window.value.completedAt.Some?
      && var win := s.db.window.value;
      && win.startedAt == opener.when && win.deadline == opener.when + opener.seconds && 30 <= opener.seconds <= 3600
      && win.health.observedAt in s.healthyAt && win.completedAt.value in s.healthyAt
      && win.completedAt.value - win.health.observedAt >= opener.seconds
  {
    SupervisorNeedsTwoProbes(clock, actions);
    n := OpeningInRun(clock, actions);
    OpeningFixesDeadline(clock, actions[..n], actions[n]);
    DeadlineNeverMoves(clock, actions[..n + 1], actions[n + 1..]);
    assert actions[..n + 1] + actions[n + 1..] == actions;
  }

  /** Whatever the deadline was, no pass claims the scheduled row before it. */
  lemma ScheduledRowWaits(db: Db, attempts: nat, deadline: int, when: int, now: int)
    requires TxSchedule(db, attempts, deadline, when).Some?
    ensures
      var later := TxSchedule(db, attempts, deadline, when).value;
      && (ClaimableRow(later, Observe, now) <==> later.window.value.deadline <= now)
      && later.window == db.window && later.window.Some?
  {
    var later := TxSchedule(db, attempts, deadline, when).value;
    assert LoadWindow(db).value == db.window.value;
    assert later.work[Observe].nextAttemptAt == Some(deadline);
  }

  /** No pass probes the Core API more than once. */
  lemma AtMostOneProbePerPass(clock: int, actions: seq<Action>, w: nat)
    requires w in Run(Initial(clock), actions).workers
    ensures Run(Initial(clock), actions).workers[w].probes <= 1
  {
    ReachableInv(clock, actions);
    assert WorkerOk(Run(Initial(clock), actions), w);
  }

  // ---------------------------------------------------------------- observations and finalization

  /** A recorded observation, and the finalization, never change afterwards. */
  lemma RecordsAreFinal(clock: int, before: seq<Action>, after: seq<Action>, k: Kind)
    ensures
      var db, db' := Run(Initial(clock), before).db, Run(Initial(clock), before + after).db;
      && (k in db.observations ==> k in db'.observations && db'.observations[k] == db.observations[k])
      && (db.finalization.Some? ==> db'.finalization == db.finalization)
      && (k in db.work && db.work[k].status == Succeeded ==> k in db'.work && db'.work[k] == db.work[k])
  {
    ReachableInv(clock, before);
    RunConcat(Initial(clock), before, after);
    RunKeeps(Run(Initial(clock), before), after);
  }

  /** After any crash between recording an observation and its handoff, the successor is the one the
      stored counts dictate, whatever later probes would have returned. */
  lemma SuccessorFollowsStoredCounts(clock: int, before: seq<Action>, after: seq<Action>, k: Kind)
    requires Observes(k) && k in Run(Initial(clock), before).db.observations
    ensures
      var o := Run(Initial(clock), before).db.observations[k];
      var db := Run(Initial(clock), before + after).db;
      k in db.work && db.work[k].status == Succeeded ==>
        && Following(k, o.Passed()).value in db.work
        && (Following(k, !o.Passed()) != Following(k, o.Passed()) ==>
              forall q :: q in db.work && Depth(q) > Depth(k) ==> Depth(Following(k, o.Passed()).value) <= Depth(q))
  {
    ReachableInv(clock, before);
    ReachableInv(clock, before + after);
    RecordsAreFinal(clock, before, after, k);
    var db := Run(Initial(clock), before + after).db;
    if k in db.work && db.work[k].status == Succeeded {
      SucceededRowHandedOff(db, k);
      forall q | q in db.work && Depth(q) > Depth(k) ensures Depth(Next(db, k).value) <= Depth(q) {
        RowBefore(db, k, q);
      }
    }
  }

  /** An observation of kind `k` is stored and counted no failure. */
  predicate Clear(db: Db, k: Kind) {
    k in db.observations && db.observations[k].failed == 0
  }

  ghost predicate ClearBetween(db: Db, from: nat, to: nat) {
    forall q {:trigger Clear(db, q)} :: from <= Depth(q) < to ==> Clear(db, q)
  }

  lemma OneMoreClear(db: Db, k: Kind, to: nat)
    requires Clear(db, k) && Depth(k) < 10 && ClearBetween(db, Depth(k) + 1, to)
    ensures ClearBetween(db, Depth(k), to)
  {
    forall q | Depth(k) <= Depth(q) < to ensures Clear(db, q) {
      SameDepth(k, q);
    }
  }

  lemma AssertionsAreDeepest(db: Db)
    requires ObservationsOk(db)
    ensures NoneDeeper(db, Assertions)
  {
    forall q | q in db.observations ensures Depth(q) <= 8 { assert Bound(db, q); }
  }

  /** The first failed observation at or after depth `from`, with nothing recorded beyond it. */
  ghost predicate FirstFailure(db: Db, from: nat, f: Kind) {
    from <= Depth(f) <= 8 && f in db.observations && db.observations[f].failed != 0
    && ClearBetween(db, from, Depth(f)) && NoneDeeper(db, f)
  }

  /** What a decision says about the observations it was taken on. */
  lemma {:induction false} DecisionMeans(db: Db, k: Kind, evidence: seq<Observation>)
    requires JournalOk(db) && ObservationsOk(db) && 4 <= Depth(k) <= 8 && DecideFrom(db, k, evidence).Some?
    ensures
      var d := DecideFrom(db, k, evidence).value;
      if d.failure.None? then ClearBetween(db, Depth(k), 9) else FirstFailure(db, Depth(k), d.failure.value)
    decreases 8 - Depth(k)
  {
    ObservationLoads(db, k);
    var o := db.observations[k];
    if k == Assertions {
      AssertionsAreDeepest(db);
      if o.failed == 0 { OneMoreClear(db, k, 9); }
    } else if o.failed == 0 {
      DecisionMeans(db, Later(k), evidence + [o]);
      var d := DecideFrom(db, Later(k), evidence + [o]).value;
      OneMoreClear(db, k, if d.failure.None? then 9 else Depth(d.failure.value));
    }
  }

  lemma OnlyFinalizationEnds(db: Db, p: Kind, k: Kind)
    requires Next(db, p) == Some(k) && Depth(k) == 10
    ensures db.finalization.Some? && k == (if db.finalization.value.failure.None? then Promote else Rollback)
  {
  }

  lemma PredecessorOnPath(db: Db, path: seq<Kind>, k: Kind) returns (p: Kind)
    requires RowsFormPath(db, path) && k in db.work && k != Restart
    ensures Next(db, p) == Some(k)
  {
    var i :| 0 <= i < |path| && path[i] == k;
    p := path[i - 1];
  }

  lemma FinalizedBefore(db: Db, k: Kind)
    requires DbInv(db) && k in db.work && Depth(k) == 10
    ensures db.finalization.Some? && k == (if db.finalization.value.failure.None? then Promote else Rollback)
  {
    var path := RowsArePath(db);
    var p := PredecessorOnPath(db, path, k);
    OnlyFinalizationEnds(db, p, k);
  }

  lemma FinalizationMeans(db: Db)
    requires RecordsInv(db) && db.finalization.Some?
    ensures
      if db.finalization.value.failure.None? then ClearBetween(db, 4, 9) else FirstFailure(db, 4, db.finalization.value.failure.value)
  {
    DecisionMeans(db, StartupErrors, []);
  }

  ghost predicate JustifiedEnds(db: Db) {
    && (Promote in db.work ==> ClearBetween(db, 4, 9))
    && (Rollback in db.work ==>
          && db.finalization.Some? && db.finalization.value.failure.Some?
          && FirstFailure(db, 4, db.finalization.value.failure.value))
  }

  lemma EndsAreJustified(db: Db)
    requires DbInv(db)
    ensures JustifiedEnds(db)
  {
    if Promote in db.work { FinalizedBefore(db, Promote); FinalizationMeans(db); }
    if Rollback in db.work { FinalizedBefore(db, Rollback); FinalizationMeans(db); }
  }

  /** Promotion is scheduled only if every gating observation, from startup errors to assertions,
      passed; rollback only if one of them failed, and then the recorded failure is the first one and
      nothing after it was ever observed. */
  lemma PromotionAndRollbackMean(clock: int, actions: seq<Action>)
    ensures JustifiedEnds(Run(Initial(clock), actions).db)
  {
    ReachableInv(clock, actions);
    EndsAreJustified(Run(Initial(clock), actions).db);
  }

  /** Every loader accepts what any reachable store holds. */
  lemma EveryLoaderAccepts(clock: int, actions: seq<Action>, k: Kind)
    ensures
      var db := Run(Initial(clock), actions).db;
      && LoadAttempt(db) == (if db.attempt.Some? then Present(db.attempt.value) else Absent)
      && LoadHealth(db) == (if db.health.Some? then Present(db.health.value) else Absent)
      && LoadWindow(db) == (if db.window.Some? then Present(db.window.value) else Absent)
      && (k in db.observations ==> Observes(k) && LoadObservation(db, k) == Present(db.observations[k]))
      && LoadFinalization(db) == (if db.finalization.Some? then Present(db.finalization.value) else Absent)
  {
    ReachableInv(clock, actions);
    var db := Run(Initial(clock), actions).db;
    JournalLoads(db);
    FinalizationLoads(db);
    assert Bound(db, k);
    if k in db.observations { ObservationLoads(db, k); }
  }
}

/** From where a deployment can still end. Every reachable state has a continuation that ends it in
    promotion or rollback, with one exception: a restart request whose start is on record, unanswered, and
    which no worker still has in hand is never sent again, and the deployment stays where it is. */
module DeploymentLive {
  import opened Options
  import opened Candidate
  import opened Deployment
  import opened DeploymentInvariant
  import opened DeploymentRuns
  import opened DeploymentSteps
  import opened DeploymentSafety
  import opened DeploymentRoutes
  import opened DeploymentPasses

  // ---------------------------------------------------------------- the one way to get stuck

  /** A restart request is on record, unanswered, and no worker has it in hand. */
  ghost predicate Wedged(s: System) {
    && s.db.attempt.Some? && !s.db.attempt.value.acknowledged
    && forall w {:trigger s.workers[w]} :: w in s.workers ==> !InHand(s.workers[w].pc)
  }

  lemma WedgedStep(s: System, a: Action)
    requires Inv(s) && Wedged(s)
    ensures Wedged(Step(s, a))
  {
    if a.Continue? && a.w in s.workers {
      JournalLoads(s.db);
      ContinueMoves(s, a.w, a.answer);
    }
  }

  lemma {:induction false} WedgedForGood(s: System, actions: seq<Action>)
    requires Inv(s) && Wedged(s)
    ensures Inv(Run(s, actions)) && Wedged(Run(s, actions))
    decreases |actions|
  {
    if actions != [] {
      WedgedStep(s, actions[0]);
      StepKeeps(s, actions[0]);
      WedgedForGood(Step(s, actions[0]), actions[1..]);
    }
  }

  lemma WedgedNeverEnds(s: System)
    requires Inv(s) && Wedged(s)
    ensures !Ended(s.db)
  {
    if Ended(s.db) {
      LinearPredecessor(s.db, Restart, if Promote in s.db.work then Promote else Rollback);
    }
  }

  // ---------------------------------------------------------------- to the end

  /** The restart request is not on record yet, or has been acknowledged. */
  predicate Unwedged(db: Db) {
    db.attempt.None? || Acknowledged(db)
  }

  lemma {:induction false} EndsFrom(r: Route, k: Kind) returns (q: Route)
    requires Sound(r.from) && Live(r.End().db, k) && Unwedged(r.End().db)
    ensures q.from == r.from && Ended(q.End().db) && (NoFailure(r.End().db) ==> NoFailure(q.End().db))
    decreases 11 - Depth(k)
  {
    var next := k;
    if Depth(k) == 10 {
      q := EndPasses(r, k);
    } else {
      if k == Restart {
        q := RestartPasses(r);
        next := Observe;
      } else if k == Observe {
        q := HealthPasses(r);
        next := Supervisor;
      } else if k == Finalize {
        q, next := FinalizePasses(r);
      } else {
        q, next := ObservationPasses(r, k);
      }
      StillUnwedged(q, next);
      q := EndsFrom(q, next);
    }
  }

  lemma StillUnwedged(r: Route, k: Kind)
    requires Sound(r.from) && k in r.End().db.work && Depth(k) > 0
    ensures Unwedged(r.End().db)
  {
    RouteSound(r);
    LinearPredecessor(r.End().db, Restart, k);
  }

  /** Following the succeeded rows from `k` on leads to a live row or to the end. */
  lemma {:induction false} LiveOrEnded(db: Db, k: Kind) returns (live: Kind)
    requires DbInv(db) && k in db.work
    ensures Ended(db) || Live(db, live)
    decreases 11 - Depth(k)
  {
    live := k;
    if db.work[k].status == Succeeded && Depth(k) < 10 {
      SucceededRowHandedOff(db, k);
      DictatedIsNext(db, k);
      live := LiveOrEnded(db, Next(db, k).value);
    }
  }

  /** A deployment without rows gets its first. */
  lemma Enqueues(r: Route) returns (q: Route)
    requires r.End().db.work == map[]
    ensures q.from == r.from && Live(q.End().db, Restart)
    ensures q.End().db.attempt == r.End().db.attempt && q.End().db.observations == r.End().db.observations
  {
    q := Authorizes(r);
    q := Go(q, EnqueueRestart);
  }

  lemma EndsSomehow(s: System) returns (q: Route)
    requires Sound(s) && !Wedged(s)
    ensures q.from == s && Ended(q.End().db) && (NoFailure(s.db) ==> NoFailure(q.End().db))
  {
    q := Route(s, []);
    if s.db.attempt.Some? && !s.db.attempt.value.acknowledged {
      var w :| w in s.workers && InHand(s.workers[w].pc);
      q := Acknowledges(q, w);
    }
    if q.End().db.work == map[] { q := Enqueues(q); }
    RouteSound(q);
    var k :| k in q.End().db.work;
    var live := LiveOrEnded(q.End().db, k);
    if !Ended(q.End().db) { q := EndsFrom(q, live); }
  }

  ghost predicate CanReach(s: System, k: Kind) {
    exists actions {:trigger Run(s, actions)} :: Succeeds(Run(s, actions).db, k)
  }

  lemma EndedWithoutFailure(db: Db)
    requires DbInv(db) && Ended(db) && NoFailure(db)
    ensures Succeeds(db, Promote)
  {
    EndsAreJustified(db);
  }

  lemma FailureForbidsPromotion(s: System, actions: seq<Action>)
    requires Sound(s) && Succeeds(Run(s, actions).db, Promote)
    ensures NoFailure(s.db)
  {
    RunKeeps(s, actions);
    EndsAreJustified(Run(s, actions).db);
    forall k | k in s.db.observations && Gate(k) ensures s.db.observations[k].failed == 0 {
      assert Clear(Run(s, actions).db, k);
    }
  }

  /** From every reachable state the deployment can still end exactly when no unanswered restart request is
      out of every worker's hands; and it can still be promoted exactly when, besides, no gating
      observation on record has failed. */
  lemma EndingIsReachable(clock: int, actions: seq<Action>)
    ensures
      var s := Run(Initial(clock), actions);
      && (CanReach(s, Promote) || CanReach(s, Rollback) <==> !Wedged(s))
      && (CanReach(s, Promote) <==> !Wedged(s) && NoFailure(s.db))
  {
    InitialIsSound(clock);
    RunKeepsSound(Initial(clock), actions);
    var s := Run(Initial(clock), actions);
    if Wedged(s) {
      forall after ensures !Ended(Run(s, after).db) {
        WedgedForGood(s, after);
        WedgedNeverEnds(Run(s, after));
      }
    } else {
      var q := EndsSomehow(s);
      RouteSound(q);
      assert Run(s, q.steps) == q.End();
      if NoFailure(s.db) { EndedWithoutFailure(q.End().db); }
    }
    forall after | Succeeds(Run(s, after).db, Promote) ensures NoFailure(s.db) { FailureForbidsPromotion(s, after); }
  }
}

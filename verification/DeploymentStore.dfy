/** The deployment tables and the transactions the executors run on them, and the restart request
    as one call. Each method's contract is the transaction function of the deployment's rows, with the
    rows of every other deployment unchanged. */
module DeploymentStore {
  import opened Options
  import opened Candidate
  import opened Deployment
  import DeploymentInvariant

  function Lookup<V>(m: map<string, V>, id: string): Option<V> {
    if id in m then Some(m[id]) else None
  }

  function Table<V>(m: map<string, map<Kind, V>>, id: string): map<Kind, V> {
    if id in m then m[id] else map[]
  }

  /** What an observation builds on does not depend on whether it is recorded. */
  lemma {:induction false} PrerequisiteKept(db: Db, o: Observation, k: Kind)
    requires Observes(o.kind) && Observes(k) && Depth(k) <= Depth(o.kind)
    ensures Prerequisite(db.(observations := db.observations[o.kind := o]), k) == Prerequisite(db, k)
    decreases Depth(k)
  {
    if k != Supervisor { PrerequisiteKept(db, o, PriorKind(k)); }
  }

  /** A bound observation can be loaded once it is inserted. */
  lemma InsertedObservationLoads(db: Db, o: Observation)
    requires Observes(o.kind) && Binds(o, o.kind, Prerequisite(db, o.kind))
    ensures LoadObservation(db.(observations := db.observations[o.kind := o]), o.kind) == Present(o)
  {
    PrerequisiteKept(db, o, o.kind);
  }

  lemma InsertedFinalizationLoads(db: Db, f: Finalization)
    requires Matches(f, Decide(db))
    ensures LoadFinalization(db.(finalization := Some(f))) == Present(f)
  {
    DeploymentInvariant.SameDecision(db, db.(finalization := Some(f)), StartupErrors, []);
  }

  lemma ProvedKindsHandOff(db: Db, k: Kind, passed: bool)
    requires OutcomeProved(db, k, passed)
    ensures Following(k, true).Some? && Following(k, false).Some? && Following(k, passed).value != k
  {
  }

  lemma HandoffByCases(db: Db, k: Kind, passed: bool, attempts: nat, when: int)
    requires OutcomeProved(db, k, passed) && Following(k, true).Some? && Following(k, false).Some?
    ensures
      var next := Following(k, passed).value;
      TxHandoff(db, k, passed, attempts, when) ==
        if Claimed(db, k, attempts) && Following(k, true).value !in db.work && Following(k, false).value !in db.work
        then Some(db.(work := db.work[k := FinishWork(db.work[k], Succeeded, when)][next := Work(Pending, 0, when, when, Some(when))]))
        else None
  {
    assert forall p: bool :: Following(k, p) == if p then Following(k, true) else Following(k, false);
  }

  class Store {
    var authorizations: map<string, int>
    var attempts: map<string, Attempt>
    var healths: map<string, Health>
    var windows: map<string, Window>
    var observations: map<string, map<Kind, Observation>>
    var finalizations: map<string, Finalization>
    var work: map<string, map<Kind, Work>>

    constructor ()
      ensures forall id :: DbOf(id) == Db(None, None, None, None, map[], None, map[])
    {
      authorizations, attempts, healths, windows, observations, finalizations, work := map[], map[], map[], map[], map[], map[], map[];
    }

    function DbOf(id: string): Db
      reads this
    {
      Db(Lookup(authorizations, id), Lookup(attempts, id), Lookup(healths, id), Lookup(windows, id),
         Table(observations, id), Lookup(finalizations, id), Table(work, id))
    }

    twostate predicate OthersUnchanged(id: string)
      reads this
    {
      forall k :: k != id ==> DbOf(k) == old(DbOf(k))
    }

    /** What a transaction leaves: its function's result, or the old rows when it rolls back. */
    twostate predicate Ran(id: string, ok: bool, t: Option<Db>)
      reads this
    {
      ok == t.Some? && DbOf(id) == (if ok then t.value else old(DbOf(id))) && OthersUnchanged(id)
    }

    method RecordStarted(id: string, requested: Attempt) returns (ok: bool, inserted: bool)
      modifies this`attempts
      ensures Ran(id, ok, TxStart(old(DbOf(id)), requested))
      ensures inserted ==> ok
      ensures ok ==> (inserted <==> id !in old(attempts))
    {
      inserted := false;
      if id !in authorizations || authorizations[id] != requested.authorization || requested.acknowledged
         || requested.updatedAt < requested.startedAt
      {
        return false, false;
      }
      match LoadAttempt(DbOf(id)) {
        case Present(_) => return true, false;
        case Invalid => return false, false;
        case Absent =>
          attempts := attempts[id := requested];
          return true, true;
      }
    }

    method RecordAcknowledged(id: string, authorization: int, when: int) returns (ok: bool)
      modifies this`attempts
      ensures Ran(id, ok, TxAcknowledge(old(DbOf(id)), authorization, when))
    {
      if id !in authorizations || authorizations[id] != authorization { return false; }
      var existing := LoadAttempt(DbOf(id));
      if !existing.Present? || existing.value.acknowledged || when < existing.value.startedAt { return false; }
      var replacement := existing.value.(acknowledged := true, updatedAt := when);
      var changed := UpdateStarted(id, existing.value, replacement);
      return changed == 1 && LoadAttempt(DbOf(id)) == Present(replacement);
    }

    /** UPDATE of one attempt WHERE it is still started and has the digest that was read. */
    method UpdateStarted(id: string, expected: Attempt, row: Attempt) returns (count: nat)
      modifies this`attempts
      ensures count == if id in old(attempts) && !old(attempts)[id].acknowledged && old(attempts)[id] == expected then 1 else 0
      ensures attempts == if count == 1 then old(attempts)[id := row] else old(attempts)
    {
      count := 0;
      if id in attempts && !attempts[id].acknowledged && attempts[id] == expected {
        attempts, count := attempts[id := row], 1;
      }
    }

    method RecordObservedHealth(id: string, requested: Health) returns (ok: bool)
      modifies this`healths
      ensures Ran(id, ok, TxRecordHealth(old(DbOf(id)), requested))
    {
      var restart := LoadAttempt(DbOf(id));
      if !restart.Present? || !restart.value.acknowledged || requested.attempt != restart.value
         || requested.observedAt < restart.value.updatedAt
      {
        return false;
      }
      match LoadHealth(DbOf(id)) {
        case Present(_) => return true;
        case Invalid => return false;
        case Absent =>
          healths := healths[id := requested];
          return LoadHealth(DbOf(id)) == Present(requested);
      }
    }

    method RecordWindowStarted(id: string, requested: Window) returns (ok: bool)
      modifies this`windows
      ensures Ran(id, ok, TxOpenWindow(old(DbOf(id)), requested))
    {
      if !requested.Valid() || requested.completedAt.Some? { return false; }
      if LoadHealth(DbOf(id)) != Present(requested.health) || requested.startedAt < requested.health.observedAt { return false; }
      match LoadWindow(DbOf(id)) {
        case Present(_) => return true;
        case Invalid => return false;
        case Absent =>
          windows := windows[id := requested];
          return LoadWindow(DbOf(id)) == Present(requested);
      }
    }

    method RecordWindowCompleted(id: string, existing: Window, when: int) returns (ok: bool)
      modifies this`windows
      ensures Ran(id, ok, TxCompleteWindow(old(DbOf(id)), existing, when))
    {
      var current := LoadWindow(DbOf(id));
      if !current.Present? { return false; }
      if current.value.completedAt.Some? { return true; }
      if current.value != existing || when < current.value.deadline { return false; }
      var replacement := current.value.(completedAt := Some(when));
      var changed := UpdateOpen(id, current.value, replacement);
      return changed == 1 && LoadWindow(DbOf(id)) == Present(replacement);
    }

    /** UPDATE of one window WHERE it is still open and has the digest that was read. */
    method UpdateOpen(id: string, expected: Window, row: Window) returns (count: nat)
      modifies this`windows
      ensures count == if id in old(windows) && old(windows)[id].completedAt.None? && old(windows)[id] == expected then 1 else 0
      ensures windows == if count == 1 then old(windows)[id := row] else old(windows)
    {
      count := 0;
      if id in windows && windows[id].completedAt.None? && windows[id] == expected {
        windows, count := windows[id := row], 1;
      }
    }

    method RecordObservation(id: string, requested: Observation) returns (ok: bool)
      requires Observes(requested.kind)
      modifies this`observations
      ensures Ran(id, ok, TxRecordObservation(old(DbOf(id)), requested))
    {
      if !Binds(requested, requested.kind, Prerequisite(DbOf(id), requested.kind)) { return false; }
      match LoadObservation(DbOf(id), requested.kind) {
        case Present(_) => return true;
        case Invalid => return false;
        case Absent =>
          InsertedObservationLoads(DbOf(id), requested);
          observations := observations[id := Table(observations, id)[requested.kind := requested]];
          return LoadObservation(DbOf(id), requested.kind) == Present(requested);
      }
    }

    method RecordFinalization(id: string, requested: Finalization) returns (ok: bool)
      modifies this`finalizations
      ensures Ran(id, ok, TxFinalize(old(DbOf(id)), requested))
    {
      if !Matches(requested, Decide(DbOf(id))) { return false; }
      match LoadFinalization(DbOf(id)) {
        case Present(_) => return true;
        case Invalid => return false;
        case Absent =>
          InsertedFinalizationLoads(DbOf(id), requested);
          finalizations := finalizations[id := requested];
          return LoadFinalization(DbOf(id)) == Present(requested);
      }
    }

    /** UPDATE of one row WHERE it is running with the claimed attempts. */
    method UpdateRunning(id: string, k: Kind, attempts: nat, row: Work) returns (count: nat)
      modifies this`work
      ensures count == if old(Claimed(DbOf(id), k, attempts)) then 1 else 0
      ensures work == if count == 1 then old(work)[id := Table(old(work), id)[k := row]] else old(work)
    {
      count := 0;
      if id in work && k in work[id] && work[id][k].status == Running && work[id][k].attempts == attempts {
        work, count := work[id := work[id][k := row]], 1;
      }
    }

    /** `defer_work` for a row still running with the claimed attempts. */
    method Defer(id: string, k: Kind, attempts: nat, when: int) returns (ok: bool)
      modifies this`work
      ensures OthersUnchanged(id) && ok == old(Claimed(DbOf(id), k, attempts))
      ensures DbOf(id) == if ok then old(DbOf(id)).(work := old(DbOf(id)).work[k := Deferred(old(DbOf(id)).work[k], when)]) else old(DbOf(id))
    {
      if !(id in work && k in work[id]) { return false; }
      var changed := UpdateRunning(id, k, attempts, Deferred(work[id][k], when));
      return changed == 1;
    }

    method ScheduleAt(id: string, attempts: nat, deadline: int, when: int) returns (ok: bool)
      modifies this`work
      ensures Ran(id, ok, TxSchedule(old(DbOf(id)), attempts, deadline, when))
    {
      if !RestartProved(DbOf(id)) { return false; }
      var window := LoadWindow(DbOf(id));
      if !window.Present? || window.value.completedAt.Some? || window.value.deadline != deadline { return false; }
      if !(id in work && Observe in work[id]) { return false; }
      var row := work[id][Observe].(status := Retry, attempts := 0, updatedAt := when, nextAttemptAt := Some(deadline));
      var changed := UpdateRunning(id, Observe, attempts, row);
      return changed == 1;
    }

    /** INSERT of a pending row; a primary key already present aborts. */
    method InsertPending(id: string, k: Kind, when: int) returns (ok: bool)
      modifies this`work
      ensures ok == (k !in Table(old(work), id))
      ensures work == if ok then old(work)[id := Table(old(work), id)[k := Work(Pending, 0, when, when, Some(when))]] else old(work)
    {
      ok := k !in Table(work, id);
      if ok { work := work[id := Table(work, id)[k := Work(Pending, 0, when, when, Some(when))]]; }
    }

    /** Insert the successor and succeed the running row, or roll both back. */
    method HandOff(id: string, k: Kind, next: Kind, attempts: nat, when: int) returns (ok: bool)
      requires k != next
      modifies this`work
      ensures ok == (old(Claimed(DbOf(id), k, attempts)) && next !in Table(old(work), id))
      ensures ok ==> work == old(work)[id := Table(old(work), id)[k := FinishWork(Table(old(work), id)[k], Succeeded, when)]
                                                                   [next := Work(Pending, 0, when, when, Some(when))]]
      ensures !ok ==> work == old(work)
    {
      var rows := Table(work, id);
      if k !in rows { return false; }
      var saved := work;
      var inserted := InsertPending(id, next, when);
      var changed := UpdateRunning(id, k, attempts, FinishWork(rows[k], Succeeded, when));
      if !inserted || changed != 1 {
        work := saved;
        return false;
      }
      assert rows[next := Work(Pending, 0, when, when, Some(when))][k := FinishWork(rows[k], Succeeded, when)]
          == rows[k := FinishWork(rows[k], Succeeded, when)][next := Work(Pending, 0, when, when, Some(when))];
      return true;
    }

    /** `_finish` of every executor: re-prove the outcome, refuse any conflicting successor, hand off. */
    method Finish(id: string, k: Kind, passed: bool, attempts: nat, when: int) returns (ok: bool)
      modifies this`work
      ensures Ran(id, ok, TxHandoff(old(DbOf(id)), k, passed, attempts, when))
    {
      if !OutcomeProved(DbOf(id), k, passed) { return false; }
      ProvedKindsHandOff(DbOf(id), k, passed);
      HandoffByCases(DbOf(id), k, passed, attempts, when);
      ok := FinishProved(id, k, passed, Following(k, true).value, Following(k, false).value, attempts, when);
    }

    method FinishProved(id: string, k: Kind, passed: bool, yes: Kind, no: Kind, attempts: nat, when: int) returns (ok: bool)
      requires k != if passed then yes else no
      modifies this`work
      ensures OthersUnchanged(id)
      ensures ok == (old(Claimed(DbOf(id), k, attempts)) && yes !in old(DbOf(id)).work && no !in old(DbOf(id)).work)
      ensures DbOf(id) ==
        if ok then old(DbOf(id)).(work := old(DbOf(id)).work[k := FinishWork(old(DbOf(id)).work[k], Succeeded, when)]
                                                            [if passed then yes else no := Work(Pending, 0, when, when, Some(when))])
        else old(DbOf(id))
    {
      if yes in Table(work, id) || no in Table(work, id) { return false; }
      ok := HandOff(id, k, if passed then yes else no, attempts, when);
    }
  }

  /** The Core API as the restart transport and the health probe see it. */
  class Core {
    var requests: nat
    var probes: nat

    constructor ()
      ensures requests == 0 && probes == 0
    {
      requests, probes := 0, 0;
    }

    method Restart(answered: bool) returns (ok: bool)
      modifies this`requests
      ensures requests == old(requests) + 1 && ok == answered
    {
      requests := requests + 1;
      return answered;
    }

    method Probe(healthy: bool) returns (ok: bool)
      modifies this`probes
      ensures probes == old(probes) + 1 && ok == healthy
    {
      probes := probes + 1;
      return healthy;
    }
  }

  datatype RestartStatus = Acknowledged(replayed: bool) | ReconciliationRequired | RestartFailed

  /** `request_core_restart_once`. The request goes out exactly when this call made the started
      attempt durable; an attempt found started is never sent again; and the call reports an
      acknowledgement exactly when an acknowledged attempt is stored under the given authorization. */
  method RequestCoreRestartOnce(store: Store, core: Core, id: string, authorization: int, when: int, answered: bool, answeredAt: int)
    returns (status: RestartStatus)
    modifies store`attempts, core`requests
    ensures store.OthersUnchanged(id)
    ensures
      var before := old(store.DbOf(id));
      var sent := before.attempt.None? && before.authorization == Some(authorization);
      && core.requests == old(core.requests) + (if sent then 1 else 0)
      && store.DbOf(id) == before.(attempt :=
           if !sent then before.attempt
           else Some(Attempt(authorization, answered && when <= answeredAt, when, if answered && when <= answeredAt then answeredAt else when)))
    ensures status.Acknowledged? <==> RestartProved(store.DbOf(id)) && store.DbOf(id).authorization == Some(authorization)
    ensures status.ReconciliationRequired? ==> core.requests == old(core.requests) && store.DbOf(id) == old(store.DbOf(id))
  {
    if !(id in store.authorizations && store.authorizations[id] == authorization) { return RestartFailed; }
    var existing := LoadAttempt(store.DbOf(id));
    if existing.Invalid? { return RestartFailed; }
    if existing.Present? {
      return if existing.value.acknowledged then Acknowledged(true) else ReconciliationRequired;
    }
    var requested := Attempt(authorization, false, when, when);
    var ok, inserted := store.RecordStarted(id, requested);
    if !ok { return RestartFailed; }
    if !inserted { return ReconciliationRequired; }
    if LoadAttempt(store.DbOf(id)) != Present(requested) { return RestartFailed; }
    var response := core.Restart(answered);
    if !response { return RestartFailed; }
    var acknowledged := store.RecordAcknowledged(id, authorization, answeredAt);
    return if acknowledged then Acknowledged(false) else RestartFailed;
  }
}

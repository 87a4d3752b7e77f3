/** Durable records of one deployment after Apply: the restart journal, the first health probe, the
    health window, the observations, the finalization and the work rows, with the loaders that
    re-validate each record and the transactions that write them. A record that stores another
    record's digest is modelled as holding that record. */
module Deployment {
  import opened Options
  import opened Candidate

  datatype Kind =
    | Restart | Observe | Supervisor | Integrations | StartupErrors | Resources | Entities
    | AutomationScripts | Assertions | Finalize | Promote | Rollback

  function Depth(k: Kind): nat {
    match k
    case Restart => 0
    case Observe => 1
    case Supervisor => 2
    case Integrations => 3
    case StartupErrors => 4
    case Resources => 5
    case Entities => 6
    case AutomationScripts => 7
    case Assertions => 8
    case Finalize => 9
    case Promote => 10
    case Rollback => 10
  }

  predicate Observes(k: Kind) {
    2 <= Depth(k) <= 8
  }

  /** The kind a successful item of kind `k` hands off to, and where a failed observation goes. */
  function Following(k: Kind, passed: bool): Option<Kind> {
    match k
    case Restart => Some(Observe)
    case Observe => Some(Supervisor)
    case Supervisor => Some(Integrations)
    case Integrations => Some(StartupErrors)
    case StartupErrors => Some(if passed then Resources else Finalize)
    case Resources => Some(if passed then Entities else Finalize)
    case Entities => Some(if passed then AutomationScripts else Finalize)
    case AutomationScripts => Some(if passed then Assertions else Finalize)
    case Assertions => Some(Finalize)
    case Finalize => Some(if passed then Promote else Rollback)
    case Promote => None
    case Rollback => None
  }

  /** The next observation after a passed one, from StartupErrors to AutomationScripts. */
  function Later(k: Kind): (n: Kind)
    requires 4 <= Depth(k) < 8
    ensures Depth(n) == Depth(k) + 1 && Following(k, true) == Some(n)
  {
    Following(k, true).value
  }

  // ---------------------------------------------------------------- records

  datatype Attempt = Attempt(authorization: int, acknowledged: bool, startedAt: int, updatedAt: int)

  datatype Health = Health(attempt: Attempt, observedAt: int)

  datatype Window = Window(health: Health, startedAt: int, deadline: int, completedAt: Option<int>) {
    predicate Valid() {
      startedAt < deadline && (completedAt.Some? ==> deadline <= completedAt.value)
    }
  }

  datatype Prior = WindowRecord(window: Window) | ObservationRecord(observation: Observation)

  /** Whatever an observation counted, `failed` is the count its handoff looks at. */
  datatype Observation = Observation(kind: Kind, prior: Prior, observedAt: int, expected: nat, failed: nat) {
    predicate Valid() {
      failed <= expected
    }

    predicate Passed() {
      kind == Supervisor || kind == Integrations || failed == 0
    }
  }

  datatype Finalization = Finalization(failure: Option<Kind>, evidence: seq<Observation>, finalizedAt: int)

  datatype Db = Db(
    authorization: Option<int>, attempt: Option<Attempt>, health: Option<Health>, window: Option<Window>,
    observations: map<Kind, Observation>, finalization: Option<Finalization>, work: map<Kind, Work>)

  // ---------------------------------------------------------------- loaders

  function LoadAttempt(db: Db): Loaded<Attempt> {
    if db.attempt.None? then Absent
    else if db.attempt.value.startedAt <= db.attempt.value.updatedAt && db.authorization == Some(db.attempt.value.authorization)
    then Present(db.attempt.value) else Invalid
  }

  /** The restart was acknowledged under the stored authorization. */
  predicate RestartProved(db: Db) {
    LoadAttempt(db).Present? && LoadAttempt(db).value.acknowledged
  }

  function LoadHealth(db: Db): Loaded<Health> {
    if db.health.None? then Absent
    else if RestartProved(db) && db.health.value.attempt == LoadAttempt(db).value
            && LoadAttempt(db).value.updatedAt <= db.health.value.observedAt
    then Present(db.health.value) else Invalid
  }

  function LoadWindow(db: Db): Loaded<Window> {
    if db.window.None? then Absent
    else if db.window.value.Valid() && LoadHealth(db) == Present(db.window.value.health)
            && db.window.value.health.observedAt <= db.window.value.startedAt
    then Present(db.window.value) else Invalid
  }

  predicate WindowProved(db: Db) {
    LoadWindow(db).Present? && LoadWindow(db).value.completedAt.Some?
  }

  /** The observation kind whose record an observation of kind `k` builds on, for k after Supervisor. */
  function PriorKind(k: Kind): (p: Kind)
    requires Observes(k) && k != Supervisor
    ensures Observes(p) && Depth(p) + 1 == Depth(k) && Following(p, true) == Some(k)
  {
    match k
    case Integrations => Supervisor
    case StartupErrors => Integrations
    case Resources => StartupErrors
    case Entities => Resources
    case AutomationScripts => Entities
    case Assertions => AutomationScripts
  }

  /** `_prerequisite`: the successful record an observation must build on, None where it raises. */
  function Prerequisite(db: Db, k: Kind): Option<Prior>
    requires Observes(k)
    decreases Depth(k), 0
  {
    if k == Supervisor then
      if WindowProved(db) then Some(WindowRecord(LoadWindow(db).value)) else None
    else
      match LoadObservation(db, PriorKind(k))
      case Present(o) => if o.Passed() then Some(ObservationRecord(o)) else None
      case _ => None
  }

  function PriorTime(p: Prior): int {
    match p
    case WindowRecord(w) => if w.completedAt.Some? then w.completedAt.value else w.deadline
    case ObservationRecord(o) => o.observedAt
  }

  predicate Binds(o: Observation, k: Kind, prior: Option<Prior>) {
    o.kind == k && o.Valid() && Some(o.prior) == prior && PriorTime(o.prior) <= o.observedAt
  }

  /** From Resources on the loader demands its prerequisite even when it has no row to load. */
  function LoadObservation(db: Db, k: Kind): Loaded<Observation>
    requires Observes(k)
    decreases Depth(k), 1
  {
    if k !in db.observations then
      if Depth(k) >= 5 && Prerequisite(db, k).None? then Invalid else Absent
    else if Binds(db.observations[k], k, Prerequisite(db, k)) then Present(db.observations[k])
    else Invalid
  }

  // ---------------------------------------------------------------- finalization

  datatype Decision = Decision(failure: Option<Kind>, evidence: seq<Observation>, terminalAt: int)

  predicate NoneDeeper(db: Db, k: Kind) {
    forall q :: q in db.observations ==> Depth(q) <= Depth(k)
  }

  /** `_decision`: the first failed observation, with nothing recorded after it, else the assertions. */
  function DecideFrom(db: Db, k: Kind, evidence: seq<Observation>): Option<Decision>
    requires 4 <= Depth(k) <= 8
    decreases 8 - Depth(k)
  {
    match LoadObservation(db, k)
    case Present(o) =>
      if k == Assertions then Some(Decision(if o.failed != 0 then Some(k) else None, evidence + [o], o.observedAt))
      else if o.failed != 0 then
        if NoneDeeper(db, k) then Some(Decision(Some(k), evidence + [o], o.observedAt)) else None
      else DecideFrom(db, Later(k), evidence + [o])
    case _ => None
  }

  function Decide(db: Db): Option<Decision> {
    DecideFrom(db, StartupErrors, [])
  }

  predicate Matches(f: Finalization, d: Option<Decision>) {
    d.Some? && f.failure == d.value.failure && f.evidence == d.value.evidence && d.value.terminalAt <= f.finalizedAt
  }

  function LoadFinalization(db: Db): Loaded<Finalization> {
    if db.finalization.None? then Absent
    else if Matches(db.finalization.value, Decide(db)) then Present(db.finalization.value) else Invalid
  }

  // ---------------------------------------------------------------- transactions

  /** Insert a started attempt, or find the existing one. */
  function TxStart(db: Db, requested: Attempt): Option<Db> {
    if db.authorization != Some(requested.authorization) || requested.acknowledged || requested.updatedAt < requested.startedAt then None
    else match LoadAttempt(db)
      case Absent => Some(db.(attempt := Some(requested)))
      case Present(_) => Some(db)
      case Invalid => None
  }

  function TxAcknowledge(db: Db, authorization: int, when: int): Option<Db> {
    if db.authorization != Some(authorization) then None
    else match LoadAttempt(db)
      case Present(a) =>
        if a.acknowledged || when < a.startedAt then None
        else Some(db.(attempt := Some(a.(acknowledged := true, updatedAt := when))))
      case _ => None
  }

  function TxRecordHealth(db: Db, requested: Health): Option<Db> {
    if !RestartProved(db) || requested.attempt != LoadAttempt(db).value || requested.observedAt < requested.attempt.updatedAt then None
    else match LoadHealth(db)
      case Absent => Some(db.(health := Some(requested)))
      case Present(_) => Some(db)
      case Invalid => None
  }

  function TxOpenWindow(db: Db, requested: Window): Option<Db> {
    if !requested.Valid() || requested.completedAt.Some? || LoadHealth(db) != Present(requested.health)
       || requested.startedAt < requested.health.observedAt
    then None
    else match LoadWindow(db)
      case Absent => Some(db.(window := Some(requested)))
      case Present(_) => Some(db)
      case Invalid => None
  }

  function TxCompleteWindow(db: Db, existing: Window, when: int): Option<Db> {
    match LoadWindow(db)
    case Present(w) =>
      if w.completedAt.Some? then Some(db)
      else if w != existing || when < w.deadline then None
      else Some(db.(window := Some(w.(completedAt := Some(when)))))
    case _ => None
  }

  function TxRecordObservation(db: Db, requested: Observation): Option<Db>
    requires Observes(requested.kind)
  {
    if !Binds(requested, requested.kind, Prerequisite(db, requested.kind)) then None
    else match LoadObservation(db, requested.kind)
      case Absent => Some(db.(observations := db.observations[requested.kind := requested]))
      case Present(_) => Some(db)
      case Invalid => None
  }

  function TxFinalize(db: Db, requested: Finalization): Option<Db> {
    if !Matches(requested, Decide(db)) then None
    else match LoadFinalization(db)
      case Absent => Some(db.(finalization := Some(requested)))
      case Present(_) => Some(db)
      case Invalid => None
  }

  predicate Claimed(db: Db, k: Kind, attempts: nat) {
    k in db.work && db.work[k].status == Running && db.work[k].attempts == attempts
  }

  /** `_schedule_at`: the row waits for the deadline of the open window. */
  function TxSchedule(db: Db, attempts: nat, deadline: int, when: int): Option<Db> {
    if && RestartProved(db) && LoadWindow(db).Present? && LoadWindow(db).value.completedAt.None?
       && LoadWindow(db).value.deadline == deadline && Claimed(db, Observe, attempts)
    then Some(db.(work := db.work[Observe := db.work[Observe].(status := Retry, attempts := 0, updatedAt := when, nextAttemptAt := Some(deadline))]))
    else None
  }

  /** What each handoff re-proves inside its transaction before it believes the outcome. */
  predicate OutcomeProved(db: Db, k: Kind, passed: bool) {
    match k
    case Restart => RestartProved(db)
    case Observe => WindowProved(db)
    case Finalize => LoadFinalization(db).Present? && passed == LoadFinalization(db).value.failure.None?
    case Promote => false
    case Rollback => false
    case _ => LoadObservation(db, k).Present? && passed == LoadObservation(db, k).value.Passed()
  }

  /** `_finish` of every executor up to finalization: insert the successor and succeed, atomically. */
  function TxHandoff(db: Db, k: Kind, passed: bool, attempts: nat, when: int): Option<Db> {
    if && OutcomeProved(db, k, passed) && Claimed(db, k, attempts)
       && (forall p: bool :: Following(k, p).Some? && Following(k, p).value !in db.work)
    then Some(db.(work := db.work[k := FinishWork(db.work[k], Succeeded, when)]
                                 [Following(k, passed).value := Work(Pending, 0, when, when, Some(when))]))
    else None
  }

  /** Promotion and rollback end the pipeline. */
  function TxComplete(db: Db, k: Kind, attempts: nat, when: int): Option<Db> {
    if (k == Promote || k == Rollback) && Claimed(db, k, attempts)
    then Some(db.(work := db.work[k := FinishWork(db.work[k], Succeeded, when)])) else None
  }

  // ---------------------------------------------------------------- what the records dictate

  /** The successor the stored records dictate for kind `k`, None while its outcome is not recorded. */
  function Next(db: Db, k: Kind): Option<Kind> {
    match k
    case Restart => if db.attempt.Some? && db.attempt.value.acknowledged then Following(k, true) else None
    case Observe => if db.window.Some? && db.window.value.completedAt.Some? then Following(k, true) else None
    case Finalize => if db.finalization.Some? then Following(k, db.finalization.value.failure.None?) else None
    case Promote => None
    case Rollback => None
    case _ => if k in db.observations then Following(k, db.observations[k].Passed()) else None
  }

  const KINDS: set<Kind> := {Restart, Observe, Supervisor, Integrations, StartupErrors, Resources, Entities,
                             AutomationScripts, Assertions, Finalize, Promote, Rollback}

  /** The handoffs the stored records dictate. */
  function Dictated(db: Db): map<Kind, Kind> {
    map k | k in KINDS && Next(db, k).Some? :: Next(db, k).value
  }

  lemma DictatedIsNext(db: Db, k: Kind)
    ensures k in Dictated(db) <==> Next(db, k).Some?
    ensures k in Dictated(db) ==> Dictated(db)[k] == Next(db, k).value && Depth(Dictated(db)[k]) > Depth(k)
  {
  }

  lemma ProvedOutcomeIsDictated(db: Db, k: Kind, passed: bool)
    requires OutcomeProved(db, k, passed)
    ensures Next(db, k).Some? && Next(db, k) == Following(k, passed)
  {
  }
}

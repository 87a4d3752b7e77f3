/** The durable tables themselves and the statements the executors run on them. Every method that
    opens a transaction saves the tables it may touch, updates them statement by statement, and
    restores them when a row count is wrong; its contract is the transaction function of the
    candidate's rows, with the rows of every other candidate unchanged. */
module CandidateStore {
  import opened Options
  import opened Candidate
  import opened CandidateRuns

  type Tables = map<Stage, map<string, Checkpoint>>

  /** The checkpoint rows of one candidate. */
  function CheckpointsOf(t: Tables, sha: string): map<Stage, Checkpoint> {
    map s | s in t && sha in t[s] :: t[s][sha]
  }

  function Put(t: Tables, s: Stage, sha: string, c: Checkpoint): (t': Tables)
    requires s in t
    ensures t'.Keys == t.Keys
  {
    t[s := t[s][sha := c]]
  }

  lemma StageInStages(s: Stage)
    ensures s in STAGES
  {
    match s case FetchStage => case Integrity => case Dependency => case Risk => case Static => case Semantic => case Backup =>
  }

  predicate Stored(t: Tables, sha: string, c: Checkpoint) {
    c.stage in t && sha in t[c.stage] && t[c.stage][sha] == c
  }

  lemma PutIsLocal(t: Tables, s: Stage, sha: string, c: Checkpoint)
    requires s in t
    ensures CheckpointsOf(Put(t, s, sha, c), sha) == CheckpointsOf(t, sha)[s := c]
    ensures forall k :: k != sha ==> CheckpointsOf(Put(t, s, sha, c), k) == CheckpointsOf(t, k)
  {
  }

  function Lookup<V>(m: map<string, V>, sha: string): Option<V> {
    if sha in m then Some(m[sha]) else None
  }

  /** The rows of one candidate in the five tables. */
  function RowsIn(work: map<string, Work>, orchestrations: map<string, Orchestration>, checkpoints: Tables,
                  prepared: map<string, Prepared>, apply: map<string, Work>, sha: string): Rows
  {
    Rows(Lookup(work, sha), Lookup(orchestrations, sha), CheckpointsOf(checkpoints, sha), Lookup(prepared, sha), Lookup(apply, sha))
  }

  function With<V>(m: map<string, V>, sha: string, v: Option<V>): map<string, V> {
    if v.Some? then m[sha := v.value] else m
  }

  /** Writing one candidate's rows changes its rows as written and nobody else's. */
  lemma WriteIsLocal(work: map<string, Work>, orchestrations: map<string, Orchestration>, checkpoints: Tables,
                     prepared: map<string, Prepared>, apply: map<string, Work>,
                     sha: string, w: Option<Work>, o: Orchestration, c: Checkpoint, s: Stage, p: Option<Prepared>, a: Option<Work>, k: string)
    requires s in checkpoints
    ensures
      RowsIn(With(work, sha, w), orchestrations[sha := o], Put(checkpoints, s, sha, c), With(prepared, sha, p), With(apply, sha, a), k) ==
        var before := RowsIn(work, orchestrations, checkpoints, prepared, apply, k);
        if k != sha then before
        else Rows(if w.Some? then w else before.work, Some(o), before.checkpoints[s := c],
                  if p.Some? then p else before.prepared, if a.Some? then a else before.apply)
  {
    PutIsLocal(checkpoints, s, sha, c);
  }

  function PreparationOf(finished: Checkpoint, current: Orchestration, when: int): Option<Prepared>
    requires finished.phase == Done ==> finished.evidence.Some?
  {
    if finished.phase == Done then Some(Prepared(current.id, finished.evidence.value, when)) else None
  }

  function ApplyOf(finished: Checkpoint, when: int): Option<Work> {
    if finished.phase == Done then Some(Work(Pending, 0, when, when, Some(when))) else None
  }

  class Store {
    var work: map<string, Work>
    var orchestrations: map<string, Orchestration>
    var checkpoints: Tables
    var prepared: map<string, Prepared>
    var apply: map<string, Work>

    ghost predicate Valid()
      reads this
    {
      checkpoints.Keys == STAGES
    }

    constructor ()
      ensures Valid() && forall sha :: RowsOf(sha) == Rows(None, None, map[], None, None)
    {
      work, orchestrations, prepared, apply := map[], map[], map[], map[];
      checkpoints := map s | s in STAGES :: map[];
    }

    function RowsOf(sha: string): Rows
      reads this
    {
      RowsIn(work, orchestrations, checkpoints, prepared, apply, sha)
    }

    twostate predicate OthersUnchanged(sha: string)
      reads this
    {
      forall k :: k != sha ==> RowsOf(k) == old(RowsOf(k))
    }

    method RecordPlan(sha: string, current: Orchestration, plan: Checkpoint) returns (ok: bool)
      requires Valid()
      modifies this`checkpoints
      ensures Valid() && OthersUnchanged(sha)
      ensures ok == TxPlan(old(RowsOf(sha)), current, plan).Some?
      ensures RowsOf(sha) == if ok then TxPlan(old(RowsOf(sha)), current, plan).value else old(RowsOf(sha))
    {
      if LoadOrchestration(RowsOf(sha)) != Present(current) || !plan.Valid() { return false; }
      if sha in checkpoints[plan.stage] { return false; }
      if plan.stage == Backup && sha !in checkpoints[Semantic] { return false; }
      PutIsLocal(checkpoints, plan.stage, sha, plan);
      checkpoints := Put(checkpoints, plan.stage, sha, plan);
      return true;
    }

    /** UPDATE of one checkpoint row WHERE its record digest is `previous`'s. */
    method UpdateCheckpoint(sha: string, previous: Checkpoint, replacement: Checkpoint) returns (count: nat)
      requires Valid()
      modifies this`checkpoints
      ensures Valid()
      ensures count == if Stored(old(checkpoints), sha, previous) then 1 else 0
      ensures checkpoints == if count == 1 then Put(old(checkpoints), previous.stage, sha, replacement) else old(checkpoints)
    {
      var s := previous.stage;
      StageInStages(s);
      count := 0;
      if sha in checkpoints[s] && checkpoints[s][sha] == previous {
        checkpoints, count := Put(checkpoints, s, sha, replacement), 1;
      }
    }

    method UpdateOrchestration(sha: string, current: Orchestration, advanced: Orchestration) returns (count: nat)
      modifies this`orchestrations
      ensures count == if sha in old(orchestrations) && old(orchestrations)[sha] == current then 1 else 0
      ensures orchestrations == if count == 1 then old(orchestrations)[sha := advanced] else old(orchestrations)
    {
      count := 0;
      if sha in orchestrations && orchestrations[sha] == current {
        orchestrations, count := orchestrations[sha := advanced], 1;
      }
    }

    method FinishRunningWork(sha: string, status: WorkStatus, when: int) returns (count: nat)
      modifies this`work
      ensures count == if sha in old(work) && old(work)[sha].status == Running then 1 else 0
      ensures work == if count == 1 then old(work)[sha := FinishWork(old(work)[sha], status, when)] else old(work)
    {
      count := 0;
      if sha in work && work[sha].status == Running {
        work, count := work[sha := FinishWork(work[sha], status, when)], 1;
      }
    }

    /** Both INSERTs of a finished preparation; a primary key already present aborts. */
    method InsertPreparation(sha: string, record: Prepared, item: Work) returns (ok: bool)
      modifies this`prepared, this`apply
      ensures ok == (sha !in old(prepared) && sha !in old(apply))
      ensures prepared == if ok then old(prepared)[sha := record] else old(prepared)
      ensures apply == if ok then old(apply)[sha := item] else old(apply)
    {
      ok := sha !in prepared && sha !in apply;
      if ok { prepared, apply := prepared[sha := record], apply[sha := item]; }
    }

    /** The UPDATEs of `_complete_atomically`; when a row count is wrong the caller rolls back. */
    method WriteCompletion(sha: string, planned: Checkpoint, finished: Checkpoint, current: Orchestration, advanced: Orchestration)
      returns (ok: bool)
      requires Valid() && planned.stage == finished.stage
      modifies this`checkpoints, this`orchestrations, this`work
      ensures ok == (Stored(old(checkpoints), sha, planned) && old(sha in orchestrations && orchestrations[sha] == current)
                     && (Blocks(finished) ==> old(sha in work && work[sha].status == Running)))
      ensures ok ==> checkpoints == Put(old(checkpoints), planned.stage, sha, finished)
                     && orchestrations == old(orchestrations)[sha := advanced]
                     && work == if Blocks(finished) then old(work)[sha := FinishWork(old(work)[sha], WorkBlocked, advanced.updatedAt)] else old(work)
    {
      StageInStages(planned.stage);
      var first := UpdateCheckpoint(sha, planned, finished);
      var second := UpdateOrchestration(sha, current, advanced);
      var third := 1;
      if Blocks(finished) {
        third := FinishRunningWork(sha, WorkBlocked, advanced.updatedAt);
      }
      ok := first == 1 && second == 1 && third == 1;
    }

    /** The transaction after its re-reads: both rows, and the work row when the stage blocks. */
    method CommitCompletion(sha: string, planned: Checkpoint, finished: Checkpoint, current: Orchestration, advanced: Orchestration)
      returns (ok: bool)
      requires Valid() && planned.stage == finished.stage
      modifies this`checkpoints, this`orchestrations, this`work
      ensures Valid() && OthersUnchanged(sha)
      ensures ok == (Stored(old(checkpoints), sha, planned) && old(RowsOf(sha)).orchestration == Some(current)
                     && (Blocks(finished) ==> IsRunning(old(RowsOf(sha)).work)))
      ensures ok ==> RowsOf(sha) == Committed(old(RowsOf(sha)), finished, advanced)
      ensures !ok ==> RowsOf(sha) == old(RowsOf(sha))
    {
      StageInStages(planned.stage);
      var savedCheckpoints, savedOrchestrations, savedWork := checkpoints, orchestrations, work;
      PutIsLocal(checkpoints, planned.stage, sha, finished);
      ok := WriteCompletion(sha, planned, finished, current, advanced);
      if !ok {
        checkpoints, orchestrations, work := savedCheckpoints, savedOrchestrations, savedWork;
        return;
      }
      forall k | k != sha ensures RowsOf(k) == old(RowsOf(k)) {
        assert CheckpointsOf(checkpoints, k) == CheckpointsOf(old(checkpoints), k);
      }
    }

    method CompleteAtomically(sha: string, planned: Checkpoint, finished: Checkpoint, current: Orchestration, advanced: Orchestration)
      returns (ok: bool)
      requires Valid() && planned.stage == finished.stage != Backup
      modifies this`checkpoints, this`orchestrations, this`work
      ensures Valid() && OthersUnchanged(sha)
      ensures ok == TxAdvance(old(RowsOf(sha)), planned, finished, current, advanced).Some?
      ensures RowsOf(sha) == if ok then TxAdvance(old(RowsOf(sha)), planned, finished, current, advanced).value else old(RowsOf(sha))
    {
      if LoadCheckpoint(RowsOf(sha), planned.stage) != Present(planned) || LoadOrchestration(RowsOf(sha)) != Present(current)
         || planned.phase != Planned
      {
        return false;
      }
      ok := CommitCompletion(sha, planned, finished, current, advanced);
    }

    method TransitionCheckpoint(sha: string, previous: Checkpoint, replacement: Checkpoint) returns (ok: bool)
      requires Valid() && previous.stage == Backup
      modifies this`checkpoints
      ensures Valid() && OthersUnchanged(sha)
      ensures ok == TxTransition(old(RowsOf(sha)), previous, replacement).Some?
      ensures RowsOf(sha) == if ok then TxTransition(old(RowsOf(sha)), previous, replacement).value else old(RowsOf(sha))
    {
      PutIsLocal(checkpoints, Backup, sha, replacement);
      var changed := UpdateCheckpoint(sha, previous, replacement);
      return changed == 1;
    }

    /** The statements of the backup stage's `_finish_atomically`. */
    method WriteEnding(sha: string, previous: Checkpoint, finished: Checkpoint, current: Orchestration, advanced: Orchestration, when: int)
      returns (ok: bool)
      requires Valid() && previous.stage == Backup && (finished.phase == Done ==> finished.evidence.Some?)
      modifies this
      ensures ok == (Stored(old(checkpoints), sha, previous) && old(sha in orchestrations && orchestrations[sha] == current)
                     && old(sha in work && work[sha].status == Running)
                     && (finished.phase == Done ==> old(sha !in prepared && sha !in apply)))
      ensures ok ==> checkpoints == Put(old(checkpoints), Backup, sha, finished)
                     && orchestrations == old(orchestrations)[sha := advanced]
                     && work == old(work)[sha := FinishWork(old(work)[sha], if finished.phase == Done then Succeeded else WorkBlocked, when)]
                     && prepared == (if finished.phase == Done then old(prepared)[sha := Prepared(current.id, finished.evidence.value, when)] else old(prepared))
                     && apply == (if finished.phase == Done then old(apply)[sha := Work(Pending, 0, when, when, Some(when))] else old(apply))
    {
      var inserted := true;
      var first := UpdateCheckpoint(sha, previous, finished);
      if finished.phase == Done {
        inserted := InsertPreparation(sha, Prepared(current.id, finished.evidence.value, when), Work(Pending, 0, when, when, Some(when)));
      }
      var second := UpdateOrchestration(sha, current, advanced);
      var third := FinishRunningWork(sha, if finished.phase == Done then Succeeded else WorkBlocked, when);
      ok := inserted && first == 1 && second == 1 && third == 1;
    }

    /** The statements as a whole, or none of them. */
    method WriteEndingOrRollBack(sha: string, previous: Checkpoint, finished: Checkpoint, current: Orchestration, advanced: Orchestration, when: int)
      returns (ok: bool)
      requires Valid() && previous.stage == Backup && (finished.phase == Done ==> finished.evidence.Some?)
      modifies this
      ensures ok == (Stored(old(checkpoints), sha, previous) && Lookup(old(orchestrations), sha) == Some(current)
                     && IsRunning(Lookup(old(work), sha))
                     && (finished.phase == Done ==> old(sha !in prepared && sha !in apply)))
      ensures !ok ==>
        && checkpoints == old(checkpoints) && orchestrations == old(orchestrations) && work == old(work)
        && prepared == old(prepared) && apply == old(apply)
      ensures ok ==>
        && checkpoints == Put(old(checkpoints), Backup, sha, finished) && orchestrations == old(orchestrations)[sha := advanced]
        && work == With(old(work), sha, Some(FinishWork(old(work)[sha], if finished.phase == Done then Succeeded else WorkBlocked, when)))
        && prepared == With(old(prepared), sha, PreparationOf(finished, current, when))
        && apply == With(old(apply), sha, ApplyOf(finished, when))
    {
      var savedCheckpoints, savedOrchestrations, savedWork, savedPrepared, savedApply := checkpoints, orchestrations, work, prepared, apply;
      ok := WriteEnding(sha, previous, finished, current, advanced, when);
      if !ok {
        checkpoints, orchestrations, work, prepared, apply := savedCheckpoints, savedOrchestrations, savedWork, savedPrepared, savedApply;
      }
    }

    method FinishAtomically(sha: string, previous: Checkpoint, finished: Checkpoint, current: Orchestration, advanced: Orchestration, when: int)
      returns (ok: bool)
      requires Valid() && previous.stage == Backup && (finished.phase == Done ==> finished.evidence.Some?)
      modifies this
      ensures Valid() && OthersUnchanged(sha)
      ensures ok == TxFinishBackup(old(RowsOf(sha)), previous, finished, current, advanced, when).Some?
      ensures RowsOf(sha) == if ok then TxFinishBackup(old(RowsOf(sha)), previous, finished, current, advanced, when).value
                             else old(RowsOf(sha))
    {
      ok := WriteEndingOrRollBack(sha, previous, finished, current, advanced, when);
      if !ok { return; }
      ghost var w := Some(FinishWork(old(work)[sha], if finished.phase == Done then Succeeded else WorkBlocked, when));
      ghost var p, a := PreparationOf(finished, current, when), ApplyOf(finished, when);
      forall k | k != sha ensures RowsOf(k) == old(RowsOf(k)) {
        WriteIsLocal(old(work), old(orchestrations), old(checkpoints), old(prepared), old(apply), sha, w, advanced, finished, Backup, p, a, k);
      }
      WriteIsLocal(old(work), old(orchestrations), old(checkpoints), old(prepared), old(apply), sha, w, advanced, finished, Backup, p, a, sha);
    }

    method RegisterClaimedCandidate(claimed: Work, id: Identity, when: int) returns (ok: bool)
      requires Valid()
      modifies this`orchestrations
      ensures Valid() && OthersUnchanged(id.sha)
      ensures ok == TxRegister(old(RowsOf(id.sha)), claimed, id, when).Some?
      ensures RowsOf(id.sha) == if ok then TxRegister(old(RowsOf(id.sha)), claimed, id, when).value else old(RowsOf(id.sha))
    {
      var sha := id.sha;
      if sha !in work || work[sha] != claimed || claimed.status != Running { return false; }
      match LoadOrchestration(RowsOf(sha)) {
        case Invalid => return false;
        case Present(existing) => return existing.id == id;
        case Absent =>
          orchestrations := orchestrations[sha := Orchestration(id, Detected, DoFetchStage, when, when)];
          return true;
      }
    }

    /** Claim one candidate for a lane, if its claim query selects the row. */
    method ClaimCandidate(sha: string, lane: Lane, when: int) returns (claimed: Option<Work>)
      requires Valid()
      modifies this`work
      ensures Valid() && OthersUnchanged(sha)
      ensures claimed.Some? == Claimable(old(RowsOf(sha)), lane, when)
      ensures claimed.Some? ==> claimed.value == Claim(old(RowsOf(sha)).work.value, when)
                                && RowsOf(sha) == old(RowsOf(sha)).(work := claimed)
      ensures claimed.None? ==> RowsOf(sha) == old(RowsOf(sha))
    {
      if Claimable(RowsOf(sha), lane, when) {
        work := work[sha := Claim(work[sha], when)];
        return Some(work[sha]);
      }
      return None;
    }

    /** `fail_work` and `defer_work`: only a row still running with the claimed attempts changes. */
    method ReleaseWork(sha: string, attempts: nat, released: Work) returns (ok: bool)
      requires Valid()
      modifies this`work
      ensures Valid() && OthersUnchanged(sha)
      ensures ok == StillClaimed(old(RowsOf(sha)), attempts)
      ensures RowsOf(sha) == if ok then old(RowsOf(sha)).(work := Some(released)) else old(RowsOf(sha))
    {
      if sha in work && work[sha].status == Running && work[sha].attempts == attempts && attempts >= 1 {
        work := work[sha := released];
        return true;
      }
      return false;
    }
  }

  /** The Supervisor as this candidate sees it: create calls answered, and backups made for them. */
  class Supervisor {
    var issued: nat
    var made: seq<Made>

    constructor ()
      ensures issued == 0 && made == []
    {
      issued, made := 0, [];
    }

    method Create(answer: Option<string>, clock: int)
      modifies this
      ensures issued == old(issued) + 1
      ensures made == old(made) + if answer.Some? then [Made(answer.value, clock)] else []
    {
      issued := issued + 1;
      if answer.Some? { made := made + [Made(answer.value, clock)]; }
    }
  }
}

/** One pass of the backup executor over the tables and the Supervisor, proved to be a run of the
    step machine, so everything proved over runs holds of what the pass leaves behind. */
module BackupExecutor {
  import opened Options
  import opened Candidate
  import opened CandidateInvariant
  import opened CandidateRuns
  import opened CandidateStore
  import opened BackupInventory
  import opened BackupOutcome
  import opened CandidatePaths

  /** The tables and the Supervisor are in the state the machine is in. */
  ghost predicate Mirrors(store: Store, supervisor: Supervisor, s: System)
    reads store, supervisor
  {
    store.Valid() && store.RowsOf(s.id.sha) == s.rows && supervisor.issued == s.issued && supervisor.made == s.made
  }

  // ---------------------------------------------------------------- the pass

  /** The loader of this predecessor accepts a completed row. */
  predicate LoadsDone(r: Rows, p: Stage) {
    LoadCheckpoint(r, p).Present? && LoadCheckpoint(r, p).value.phase == Done
  }

  /** The worker has this completed row in memory as it is stored. */
  predicate ReadOne(seen: map<Stage, Checkpoint>, r: Rows, p: Stage) {
    LoadsDone(r, p) && p in seen && seen[p] == r.checkpoints[p]
  }

  /** The first `n` predecessor rows have been read, all completed. */
  predicate ReadUpTo(seen: map<Stage, Checkpoint>, r: Rows, n: nat)
    requires n <= |PREDECESSORS|
  {
    forall i {:trigger PREDECESSORS[i]} :: 0 <= i < n ==> ReadOne(seen, r, PREDECESSORS[i])
  }

  predicate ReadEvery(seen: map<Stage, Checkpoint>, r: Rows) {
    forall p {:trigger ReadOne(seen, r, p)} :: p in PREDECESSORS ==> ReadOne(seen, r, p)
  }

  /** Every predecessor loader accepts a completed row. */
  predicate LoadsEvery(r: Rows) {
    forall p {:trigger LoadsDone(r, p)} :: p in PREDECESSORS ==> LoadsDone(r, p)
  }

  lemma LoadsNone(r: Rows, n: nat)
    requires n < |PREDECESSORS| && !LoadsDone(r, PREDECESSORS[n])
    ensures !LoadsEvery(r)
  {
    assert PREDECESSORS[n] in PREDECESSORS;
  }

  lemma ReadOneMore(seen: map<Stage, Checkpoint>, r: Rows, n: nat, row: Checkpoint)
    requires n < |PREDECESSORS| && ReadUpTo(seen, r, n)
    requires LoadCheckpoint(r, PREDECESSORS[n]) == Present(row) && row.phase == Done
    ensures ReadUpTo(seen[PREDECESSORS[n] := row], r, n + 1)
    ensures var seen' := seen[PREDECESSORS[n] := row];
            (Backup in seen <==> Backup in seen') && (Backup in seen ==> seen'[Backup] == seen[Backup])
  {
    NotItsOwnPredecessor(n);
  }

  lemma ReadAll(seen: map<Stage, Checkpoint>, r: Rows)
    requires ReadUpTo(seen, r, |PREDECESSORS|)
    ensures ReadEvery(seen, r) && LoadsEvery(r)
    ensures HasAll(seen, PREDECESSORS) && forall p :: p in PREDECESSORS ==> seen[p].phase == Done
  {
    forall p | p in PREDECESSORS ensures ReadOne(seen, r, p) {
      var i :| 0 <= i < |PREDECESSORS| && PREDECESSORS[i] == p;
    }
  }

  lemma SameDigests(seen: map<Stage, Checkpoint>, r: Rows)
    requires ReadEvery(seen, r)
    ensures HasAll(seen, PREDECESSORS) && HasAll(r.checkpoints, PREDECESSORS)
    ensures Digests(seen, PREDECESSORS) == Digests(r.checkpoints, PREDECESSORS)
  {
    forall p | p in PREDECESSORS ensures p in seen && p in r.checkpoints && seen[p] == r.checkpoints[p] { assert ReadOne(seen, r, p); }
    DigestsUnchanged(seen, r.checkpoints, PREDECESSORS);
  }

  /** Load every predecessor row; each must be completed. */
  method ReadPredecessors(store: Store, supervisor: Supervisor, sha: string, memory: map<Stage, Checkpoint>, ghost path: Path, ghost w: nat)
    returns (ok: bool, seen: map<Stage, Checkpoint>, ghost reached: Path)
    requires path.Valid() && Mirrors(store, supervisor, path.End()) && path.End().id.sha == sha
    requires w in path.End().workers && path.End().workers[w].current.Some? && path.End().workers[w].seen == memory
    ensures reached.Valid() && reached.From() == path.From()
    ensures reached.End() == SetWorker(path.End(), w, path.End().workers[w].(seen := seen))
    ensures Backup in memory <==> Backup in seen
    ensures Backup in memory ==> seen[Backup] == memory[Backup]
    ensures ok <==> LoadsEvery(path.End().rows)
    ensures ok ==> ReadEvery(seen, path.End().rows)
    ensures ok ==> HasAll(seen, PREDECESSORS) && forall p :: p in PREDECESSORS ==> seen[p].phase == Done
  {
    seen, reached := memory, path;
    ghost var s := path.End();
    SameMemory(s, w);
    for n := 0 to |PREDECESSORS|
      invariant reached.Valid() && reached.From() == path.From()
      invariant reached.End() == SetWorker(s, w, s.workers[w].(seen := seen))
      invariant Backup in memory <==> Backup in seen
      invariant Backup in memory ==> seen[Backup] == memory[Backup]
      invariant ReadUpTo(seen, s.rows, n)
    {
      var row := LoadCheckpoint(store.RowsOf(sha), PREDECESSORS[n]);
      if !row.Present? || row.value.phase != Done {
        LoadsNone(s.rows, n);
        return false, seen, reached;
      }
      reached := ReadsAnother(s, reached, w, seen, PREDECESSORS[n], row.value);
      ReadOneMore(seen, s.rows, n, row.value);
      seen := seen[PREDECESSORS[n] := row.value];
    }
    ReadAll(seen, s.rows);
    ok := true;
  }

  /** Read the journal row into the worker's memory. */
  ghost method ReadBack(path: Path, w: nat, row: Checkpoint) returns (reached: Path)
    requires path.Valid() && w in path.End().workers && path.End().workers[w].current.Some?
    requires LoadCheckpoint(path.End().rows, Backup) == Present(row)
    ensures reached.Valid() && reached.From() == path.From()
    ensures reached.End() == SetWorker(path.End(), w, path.End().workers[w].(seen := path.End().workers[w].seen[Backup := row]))
  {
    reached := ReadsCheckpoint(path, w, Backup, row);
  }

  /** A waiting candidate without a journal row, its predecessors read as they are stored. */
  ghost predicate Plannable(r: Rows, current: Orchestration, seen: map<Stage, Checkpoint>) {
    Ready(r, current) && Backup !in r.checkpoints && ReadEvery(seen, r)
  }

  lemma PlanIsFresh(r: Rows, current: Orchestration, seen: map<Stage, Checkpoint>, when: int)
    requires Plannable(r, current, seen)
    ensures HasAll(seen, PREDECESSORS)
    ensures
      var plan := Plan(Backup, current, Digests(seen, PREDECESSORS), when);
      var r' := r.(checkpoints := r.checkpoints[Backup := plan]);
      && TxPlan(r, current, plan) == Some(r') && LoadCheckpoint(r', Backup) == Present(plan)
      && (current.registeredAt <= when ==> ReadyAt(r', current, plan, when))
  {
    SameDigests(seen, r);
    PlanFits(r, current, when);
  }

  method PlanBackup(store: Store, supervisor: Supervisor, sha: string, current: Orchestration, seen: map<Stage, Checkpoint>,
                    when: int, ghost path: Path, ghost w: nat)
    returns (plan: Option<Checkpoint>, ghost reached: Path)
    requires path.Valid() && Mirrors(store, supervisor, path.End()) && path.End().id.sha == sha
    requires Authorized(path.End(), w, when, current, seen) && Backup !in seen
    modifies store
    ensures reached.Valid() && reached.From() == path.From() && Mirrors(store, supervisor, reached.End()) && store.OthersUnchanged(sha)
    ensures SameOutside(path.End(), reached.End())
    ensures plan.Some? ==>
      && plan.value.phase == Planned && plan.value.stage == Backup && Authorized(reached.End(), w, when, current, seen[Backup := plan.value])
      && SeenBound(reached.End().workers[w], Backup)
    ensures HasAll(seen, PREDECESSORS)
    ensures
      var row := Plan(Backup, current, Digests(seen, PREDECESSORS), when);
      var t := TxPlan(path.End().rows, current, row);
      && plan == (if t.Some? && LoadCheckpoint(t.value, Backup) == Present(row) then Some(row) else None)
      && (plan.Some? ==> reached.End().rows == t.value)
  {
    HasAllSeen(seen, path.End().workers[w]);
    var row := Plan(Backup, current, Digests(seen, PREDECESSORS), when);
    reached := RecordsPlan(path, w, when, current, seen);
    var ok := store.RecordPlan(sha, current, row);
    if !ok || LoadCheckpoint(store.RowsOf(sha), Backup) != Present(row) { return None, reached; }
    reached := ReadBack(reached, w, row);
    DigestsIgnoreBackup(seen, row);
    plan := Some(row);
  }

  lemma HasAllSeen(seen: map<Stage, Checkpoint>, worker: Worker)
    requires worker.seen == seen && SeenPredecessors(worker, Backup)
    ensures HasAll(seen, PREDECESSORS)
  {
  }

  lemma DigestsIgnoreBackup(seen: map<Stage, Checkpoint>, row: Checkpoint)
    requires HasAll(seen, PREDECESSORS)
    ensures HasAll(seen[Backup := row], PREDECESSORS)
    ensures Digests(seen[Backup := row], PREDECESSORS) == Digests(seen, PREDECESSORS)
  {
    var a, b := Digests(seen[Backup := row], PREDECESSORS), Digests(seen, PREDECESSORS);
    forall i | 0 <= i < |PREDECESSORS| ensures a[i] == b[i] {
      assert PREDECESSORS[i] in PREDECESSORS && PREDECESSORS[i] != Backup;
    }
  }

  /** `_finish_success` and `_finish_block`: end the journal row, if the records accept the time. */
  method FinishBackupRow(store: Store, supervisor: Supervisor, sha: string, previous: Checkpoint, finished: Checkpoint,
                         current: Orchestration, when: int, ghost path: Path, ghost w: nat)
    returns (ended: Ended, ghost reached: Path)
    requires path.Valid() && Mirrors(store, supervisor, path.End()) && path.End().id.sha == sha
    requires w in path.End().workers && path.End().workers[w].when == when && path.End().workers[w].current == Some(current)
    requires At(path.End().workers[w], Backup) && previous.stage == Backup == finished.stage
    requires BackupEnding(path.End().workers[w].ticket, when) == Some((previous, finished))
    modifies store
    ensures reached.Valid() && reached.From() == path.From() && Mirrors(store, supervisor, reached.End()) && store.OthersUnchanged(sha)
    ensures SameOutside(path.End(), reached.End())
    ensures ended == Rejected || ended == Finished(finished.phase == Stopped)
    ensures ended.Finished? ==>
      reached.End().rows.orchestration == Some(Advance(current, if finished.phase == Stopped then Blocked else Completed, when))
    ensures ended.Rejected? ==> reached.End().rows == path.End().rows
    ensures
      var t := TxFinishBackup(path.End().rows, previous, finished, current, Successor(current, finished, when), when);
      finished.Valid() && Successor(current, finished, when).Valid() && t.Some? ==> ended.Finished? && reached.End().rows == t.value
  {
    reached := path;
    var advanced := Successor(current, finished, when);
    if !finished.Valid() || !advanced.Valid() { return Rejected, reached; }
    reached := FinishesBackup(path, w, previous, finished, current, when);
    var ok := store.FinishAtomically(sha, previous, finished, current, advanced, when);
    ended := if ok then Finished(finished.phase == Stopped) else Rejected;
  }

  /** Make the start durable and read it back, if the record accepts the time. */
  method DurableStart(store: Store, supervisor: Supervisor, sha: string, planned: Checkpoint, when: int, ghost path: Path, ghost w: nat)
    returns (ok: bool, ghost reached: Path)
    requires path.Valid() && Mirrors(store, supervisor, path.End()) && path.End().id.sha == sha && w in path.End().workers
    requires SeenBound(path.End().workers[w], Backup) && path.End().workers[w].seen[Backup] == planned
    requires planned.phase == Planned && planned.stage == Backup && path.End().workers[w].when == when
    modifies store
    ensures reached.Valid() && reached.From() == path.From() && Mirrors(store, supervisor, reached.End()) && store.OthersUnchanged(sha)
    ensures SameOutside(path.End(), reached.End())
    ensures ok ==>
      && w in reached.End().workers && reached.End().workers[w] == path.End().workers[w].(ticket := MayCreate(Start(planned, when)))
      && Backup in reached.End().rows.checkpoints && reached.End().rows.checkpoints[Backup] == Start(planned, when)
    ensures
      var started := Start(planned, when);
      var t := TxTransition(path.End().rows, planned, started);
      && ok == (started.Valid() && t.Some? && LoadCheckpoint(t.value, Backup) == Present(started))
      && (ok ==> reached.End().rows == t.value)
  {
    var started := Start(planned, when);
    if !started.Valid() { return false, path; }
    reached := StartsBackup(path, w, planned, started);
    ok := store.TransitionCheckpoint(sha, planned, started);
    if !ok || LoadCheckpoint(store.RowsOf(sha), Backup) != Present(started) { return false, reached; }
    reached := ConfirmsStart(reached, w, started);
  }

  lemma StartGoesThrough(r: Rows, current: Orchestration, planned: Checkpoint, when: int)
    requires planned.phase == Planned
    ensures ReadyAt(r, current, planned, when) ==>
      var t := TxTransition(r, planned, Start(planned, when));
      Start(planned, when).Valid() && t.Some? && LoadCheckpoint(t.value, Backup) == Present(Start(planned, when))
  {
    if ReadyAt(r, current, planned, when) {
      StartFits(r, current, planned, when);
    }
  }

  lemma StartedOutcome(r: Rows, current: Orchestration, planned: Checkpoint, when: int, between: Rows,
                       answer: Option<string>, ended: Ended, r': Rows)
    requires planned.phase == Planned && TxTransition(r, planned, Start(planned, when)) == Some(between)
    requires ReadyAt(between, current, Start(planned, when), when) ==>
      CreateOutcome(between, current, Start(planned, when), when, answer, ended, r')
    ensures ReadyAt(r, current, planned, when) ==> CreateOutcome(r, current, StartedRow(planned, when), when, answer, ended, r')
  {
    if ReadyAt(r, current, planned, when) {
      StartFits(r, current, planned, when);
      SameCreateOutcome(r, between, current, Start(planned, when), Start(planned, when), when, answer, ended, r');
    }
  }

  /** The planned branch: make the start durable, call the Supervisor once, record the outcome. */
  method CreateOnce(store: Store, supervisor: Supervisor, sha: string, planned: Checkpoint, current: Orchestration,
                    when: int, clock: int, answer: Option<string>, budget: nat, ghost path: Path, ghost w: nat)
    returns (ended: Ended, ghost reached: Path)
    requires path.Valid() && Mirrors(store, supervisor, path.End()) && path.End().id.sha == sha && path.End().clock == clock
    requires w in path.End().workers && path.End().workers[w].when == when && path.End().workers[w].current == Some(current)
    requires SeenBound(path.End().workers[w], Backup) && path.End().workers[w].seen[Backup] == planned
    requires planned.phase == Planned && planned.stage == Backup
    modifies store, supervisor
    ensures !ended.Replayed?
    ensures reached.Valid() && reached.From() == path.From() && Mirrors(store, supervisor, reached.End()) && store.OthersUnchanged(sha)
    ensures reached.End().id == path.End().id
    ensures old(supervisor.issued) <= supervisor.issued <= old(supervisor.issued) + 1
    ensures ended.Finished? ==> !ended.blocked && reached.End().rows.orchestration == Some(Advance(current, Completed, when))
    ensures ReadyAt(path.End().rows, current, planned, when) && budget >= 3 ==>
      CreateOutcome(path.End().rows, current, StartedRow(planned, when), when, answer, ended, reached.End().rows)
  {
    reached := path;
    if budget == 0 { return Crashed, reached; }
    StartGoesThrough(path.End().rows, current, planned, when);
    var ok;
    ok, reached := DurableStart(store, supervisor, sha, planned, when, path, w);
    if !ok { return Rejected, reached; }
    if budget == 1 { return Crashed, reached; }
    ghost var between := reached.End().rows;
    ended, reached := CallAndRecord(store, supervisor, sha, Start(planned, when), current, when, clock, answer, budget - 1, reached, w);
    if budget >= 3 { StartedOutcome(path.End().rows, current, planned, when, between, answer, ended, reached.End().rows); }
  }

  /** What the pass wrote after its call, in terms of the two transactions. */
  ghost predicate Recorded(r: Rows, current: Orchestration, started: Checkpoint, when: int, answer: Option<string>, ended: Ended, r': Rows) {
    match answer
    case None =>
      var t := TxTransition(r, started, MarkUncertain(started));
      t.Some? ==> ended == ToReconcile && r' == t.value
    case Some(slug) =>
      var finished := Complete(started, Evidence(slug, true), when);
      var t := TxFinishBackup(r, started, finished, current, Successor(current, finished, when), when);
      finished.Valid() && Successor(current, finished, when).Valid() && t.Some? ==> ended == Finished(false) && r' == t.value
  }

  lemma RecordedOutcome(r: Rows, current: Orchestration, started: Checkpoint, when: int, answer: Option<string>, ended: Ended, r': Rows)
    requires started.phase == MutationStarted && Recorded(r, current, started, when, answer, ended, r')
    ensures ReadyAt(r, current, started, when) ==> CreateOutcome(r, current, started, when, answer, ended, r')
  {
    if ReadyAt(r, current, started, when) {
      AnswerFits(r, current, started, when, answer);
    }
  }

  method CallAndRecord(store: Store, supervisor: Supervisor, sha: string, started: Checkpoint, current: Orchestration,
                       when: int, clock: int, answer: Option<string>, budget: nat, ghost path: Path, ghost w: nat)
    returns (ended: Ended, ghost reached: Path)
    requires path.Valid() && Mirrors(store, supervisor, path.End()) && path.End().id.sha == sha && path.End().clock == clock
    requires w in path.End().workers && path.End().workers[w].when == when && path.End().workers[w].current == Some(current)
    requires At(path.End().workers[w], Backup) && path.End().workers[w].ticket == MayCreate(started)
    requires Backup in path.End().rows.checkpoints && path.End().rows.checkpoints[Backup] == started
    requires started.phase == MutationStarted && started.stage == Backup && budget > 0
    modifies store, supervisor
    ensures !ended.Replayed?
    ensures reached.Valid() && reached.From() == path.From() && Mirrors(store, supervisor, reached.End()) && store.OthersUnchanged(sha)
    ensures reached.End().id == path.End().id
    ensures supervisor.issued == old(supervisor.issued) + 1
    ensures ended.Finished? ==> !ended.blocked && reached.End().rows.orchestration == Some(Advance(current, Completed, when))
    ensures ReadyAt(path.End().rows, current, started, when) && budget >= 2 ==>
      CreateOutcome(path.End().rows, current, started, when, answer, ended, reached.End().rows)
  {
    ghost var r := path.End().rows;
    reached := CreatesBackup(path, w, started, answer);
    supervisor.Create(answer, clock);
    if budget == 1 { return Crashed, reached; }
    match answer {
      case None =>
        ended, reached := RecordUnanswered(store, supervisor, sha, started, reached, w);
      case Some(slug) =>
        ended, reached := FinishBackupRow(store, supervisor, sha, started, Complete(started, Evidence(slug, true), when), current, when, reached, w);
    }
    RecordedOutcome(r, current, started, when, answer, ended, reached.End().rows);
  }

  /** A call without an answer: the start becomes uncertain. */
  method RecordUnanswered(store: Store, supervisor: Supervisor, sha: string, started: Checkpoint, ghost path: Path, ghost w: nat)
    returns (ended: Ended, ghost reached: Path)
    requires path.Valid() && Mirrors(store, supervisor, path.End()) && path.End().id.sha == sha && w in path.End().workers
    requires path.End().workers[w].ticket == CreateFailed(started) && started.stage == Backup
    modifies store
    ensures reached.Valid() && reached.From() == path.From() && Mirrors(store, supervisor, reached.End()) && store.OthersUnchanged(sha)
    ensures SameOutside(path.End(), reached.End())
    ensures
      var t := TxTransition(path.End().rows, started, MarkUncertain(started));
      if t.Some? then ended == ToReconcile && reached.End().rows == t.value else ended == Rejected
  {
    reached := DeclaresUncertain(path, w, started);
    var ok := store.TransitionCheckpoint(sha, started, MarkUncertain(started));
    ended := if ok then ToReconcile else Rejected;
  }

  /** A start found in the journal, its call never confirmed, becomes uncertain first. */
  method DeclareStartUncertain(store: Store, supervisor: Supervisor, sha: string, started: Checkpoint, current: Orchestration,
                               when: int, ghost path: Path, ghost w: nat)
    returns (ok: bool, ghost reached: Path)
    requires path.Valid() && Mirrors(store, supervisor, path.End()) && path.End().id.sha == sha
    requires w in path.End().workers && path.End().workers[w].when == when && path.End().workers[w].current == Some(current)
    requires SeenBound(path.End().workers[w], Backup) && path.End().workers[w].seen[Backup] == started
    requires started.stage == Backup && started.phase == MutationStarted
    modifies store
    ensures store.OthersUnchanged(sha)
    ensures reached.Valid() && reached.From() == path.From() && Mirrors(store, supervisor, reached.End())
    ensures SameOutside(path.End(), reached.End())
    ensures ok ==>
      && w in reached.End().workers && reached.End().workers[w].when == when && reached.End().workers[w].current == Some(current)
      && SeenBound(reached.End().workers[w], Backup) && reached.End().workers[w].seen[Backup] == MarkUncertain(started)
    ensures
      var t := TxTransition(path.End().rows, started, MarkUncertain(started));
      && ok == (t.Some? && LoadCheckpoint(t.value, Backup) == Present(MarkUncertain(started)))
      && (ok ==> reached.End().rows == t.value)
  {
    reached := MarksUncertain(path, w, started);
    var uncertain := MarkUncertain(started);
    ok := store.TransitionCheckpoint(sha, started, uncertain);
    if !ok || LoadCheckpoint(store.RowsOf(sha), Backup) != Present(uncertain) { return false, reached; }
    DigestsIgnoreBackup(path.End().workers[w].seen, uncertain);
    reached := ReadBack(reached, w, uncertain);
  }

  lemma ReconcileGoesThrough(r: Rows, current: Orchestration, uncertain: Checkpoint, when: int, found: Option<string>)
    requires uncertain.phase == Uncertain
    ensures ReadyAt(r, current, uncertain, when) ==>
      var finished := if found.Some? then Complete(uncertain, Evidence(found.value, true), when) else Block(uncertain, when);
      var t := TxFinishBackup(r, uncertain, finished, current, Successor(current, finished, when), when);
      && uncertain.startedAt.Some? && finished.Valid() && Successor(current, finished, when).Valid() && t.Some?
      && ReconcileOutcome(r, current, uncertain, when, found, Finished(found.None?), t.value)
  {
    if ReadyAt(r, current, uncertain, when) {
      RowFound(r, current);
      if found.Some? {
        CompletionFits(r, current, uncertain, found.value, when);
      } else {
        BlockFits(r, current, uncertain, when);
      }
    }
  }

  /** A start whose outcome is unknown: read the inventory back, never create. */
  method ReconcileUncertain(store: Store, supervisor: Supervisor, sha: string, uncertain: Checkpoint, current: Orchestration,
                            when: int, reachable: bool, items: seq<Item>, ghost path: Path, ghost w: nat)
    returns (ended: Ended, ghost reached: Path)
    requires path.Valid() && Mirrors(store, supervisor, path.End()) && path.End().id.sha == sha && Honest(path.End(), items)
    requires w in path.End().workers && path.End().workers[w].when == when && path.End().workers[w].current == Some(current)
    requires SeenBound(path.End().workers[w], Backup) && path.End().workers[w].seen[Backup] == uncertain
    requires uncertain.stage == Backup && uncertain.phase == Uncertain
    modifies store
    ensures !ended.Replayed?
    ensures store.OthersUnchanged(sha)
    ensures reached.Valid() && reached.From() == path.From() && Mirrors(store, supervisor, reached.End())
    ensures SameOutside(path.End(), reached.End())
    ensures ended.Finished? ==>
      && uncertain.startedAt.Some?
      && (ended.blocked <==> !reachable || ReconciledSlug(items, uncertain.startedAt.value).None?)
      && reached.End().rows.orchestration == Some(Advance(current, if ended.blocked then Blocked else Completed, when))
    ensures ReadyAt(path.End().rows, current, uncertain, when) ==>
      ReconcileOutcome(path.End().rows, current, uncertain, when, Found(uncertain, reachable, items), ended, reached.End().rows)
  {
    reached := path;
    ReconcileGoesThrough(path.End().rows, current, uncertain, when, Found(uncertain, reachable, items));
    if uncertain.startedAt.None? { return Rejected, reached; }
    reached := Reconciles(path, w, uncertain, reachable, items);
    var found := None;
    if reachable { found := ReconcileBackupSlug(items, uncertain.startedAt.value); }
    var finished := if found.Some? then Complete(uncertain, Evidence(found.value, true), when) else Block(uncertain, when);
    ended, reached := FinishBackupRow(store, supervisor, sha, uncertain, finished, current, when, reached, w);
  }

  lemma RowFoundIsBound(r: Rows, current: Orchestration, row: Checkpoint, seen: map<Stage, Checkpoint>, when: int)
    ensures ReadyAt(r, current, row, when) && ReadEvery(seen, r) ==>
      && row.orchestration == OrchestrationDigest(current)
      && HasAll(seen, PREDECESSORS) && row.predecessors == Digests(seen, PREDECESSORS)
    ensures ReadyAt(r, current, row, when) && row.phase == MutationStarted ==>
      var t := TxTransition(r, row, MarkUncertain(row));
      t.Some? && LoadCheckpoint(t.value, Backup) == Present(MarkUncertain(row))
  {
    if ReadyAt(r, current, row, when) {
      RowFound(r, current);
      if ReadEvery(seen, r) { SameDigests(seen, r); }
      if row.phase == MutationStarted { UncertainFits(r, current, row, when); }
    }
  }

  lemma ResumedOutcome(r: Rows, current: Orchestration, row: Checkpoint, when: int, between: Rows,
                       answer: Option<string>, reachable: bool, items: seq<Item>, ended: Ended, r': Rows)
    requires row.phase == MutationStarted || row.phase == Uncertain
    requires if row.phase == Uncertain then between == r else TxTransition(r, row, MarkUncertain(row)) == Some(between)
    requires ReadyAt(between, current, MarkUncertain(row), when) ==>
      ReconcileOutcome(between, current, MarkUncertain(row), when, Found(MarkUncertain(row), reachable, items), ended, r')
    ensures ReadyAt(r, current, row, when) ==> PassOutcome(r, current, when, answer, reachable, items, ended, r')
  {
    if ReadyAt(r, current, row, when) {
      RowFound(r, current);
      if row.phase == MutationStarted { UncertainFits(r, current, row, when); }
      SameReconcileOutcome(r, between, current, row, when, Found(row, reachable, items), ended, r');
    }
  }

  /** A row found in the journal: create once if it is planned, otherwise only reconcile. */
  method ResumeOnce(store: Store, supervisor: Supervisor, orchestration: Orchestration, row: Checkpoint, seen: map<Stage, Checkpoint>,
                    when: int, clock: int, answer: Option<string>, reachable: bool, items: seq<Item>, budget: nat, ghost path: Path, ghost w: nat)
    returns (ended: Ended, ghost reached: Path)
    requires path.Valid() && Mirrors(store, supervisor, path.End()) && path.End().id == orchestration.id && path.End().clock == clock
    requires Honest(path.End(), items) && Remembers(path.End(), w, when, orchestration, seen)
    requires HasAll(seen, PREDECESSORS) && forall p :: p in PREDECESSORS ==> seen[p].phase == Done
    requires Backup in seen && seen[Backup] == row && !row.Ended() && row.stage == Backup
    requires orchestration.phase == SemanticallyValidated && orchestration.action == DoPrepareBackup
    modifies store, supervisor
    ensures !ended.Replayed?
    ensures store.OthersUnchanged(orchestration.id.sha)
    ensures reached.Valid() && reached.From() == path.From() && Mirrors(store, supervisor, reached.End())
    ensures supervisor.issued <= old(supervisor.issued) + 1
    ensures row.phase != Planned ==> supervisor.issued == old(supervisor.issued)
    ensures ended.Finished? ==>
      reached.End().rows.orchestration == Some(Advance(orchestration, if ended.blocked then Blocked else Completed, when))
    ensures ReadyAt(path.End().rows, orchestration, row, when) && ReadEvery(seen, path.End().rows) && budget >= DurableSteps(path.End().rows) ==>
      PassOutcome(path.End().rows, orchestration, when, answer, reachable, items, ended, reached.End().rows)
  {
    var sha := orchestration.id.sha;
    reached := path;
    var c := row;
    RowFoundIsBound(path.End().rows, orchestration, row, seen, when);
    if c.orchestration != OrchestrationDigest(orchestration) || c.predecessors != Digests(seen, PREDECESSORS) { return Rejected, reached; }
    if c.phase == Planned {
      ended, reached := CreateOnce(store, supervisor, sha, c, orchestration, when, clock, answer, budget, path, w);
      return;
    }
    if budget == 0 { return Crashed, reached; }
    if c.phase == MutationStarted {
      var ok;
      ok, reached := DeclareStartUncertain(store, supervisor, sha, c, orchestration, when, path, w);
      if !ok { return Rejected, reached; }
      if budget == 1 { return Crashed, reached; }
      c := MarkUncertain(c);
    }
    ghost var between := reached.End().rows;
    ended, reached := ReconcileUncertain(store, supervisor, sha, c, orchestration, when, reachable, items, reached, w);
    ResumedOutcome(path.End().rows, orchestration, row, when, between, answer, reachable, items, ended, reached.End().rows);
  }

  /** The rows of a waiting candidate with what the pass has read of them. */
  ghost predicate Actable(r: Rows, current: Orchestration, row: Loaded<Checkpoint>, seen: map<Stage, Checkpoint>, when: int) {
    && Ready(r, current) && TimesFit(r, current, when) && ReadEvery(seen, r)
    && row == (if Backup in r.checkpoints then Present(r.checkpoints[Backup]) else Absent)
  }

  lemma PlanGoesThrough(r: Rows, current: Orchestration, seen: map<Stage, Checkpoint>, when: int)
    ensures Plannable(r, current, seen) ==>
      && HasAll(seen, PREDECESSORS)
      && var plan := Plan(Backup, current, Digests(seen, PREDECESSORS), when);
         var t := TxPlan(r, current, plan);
         t.Some? && LoadCheckpoint(t.value, Backup) == Present(plan)
  {
    if Plannable(r, current, seen) {
      PlanIsFresh(r, current, seen, when);
    }
  }

  /** A pass without a journal row: the outcome of the create call for the row it planned itself. */
  ghost predicate FreshOutcome(r: Rows, current: Orchestration, seen: map<Stage, Checkpoint>, when: int, answer: Option<string>,
                               ended: Ended, r': Rows)
    requires Ready(r, current)
  {
    PredecessorsDone(r, current);
    CreateOutcome(r, current, StartedRow(FreshRow(r, current, when), when), when, answer, ended, r')
  }

  lemma PlannedOutcome(r: Rows, current: Orchestration, seen: map<Stage, Checkpoint>, when: int, between: Rows, plan: Checkpoint,
                       answer: Option<string>, ended: Ended, r': Rows)
    requires HasAll(seen, PREDECESSORS) && plan == Plan(Backup, current, Digests(seen, PREDECESSORS), when)
    requires TxPlan(r, current, plan) == Some(between)
    requires ReadyAt(between, current, plan, when) ==> CreateOutcome(between, current, StartedRow(plan, when), when, answer, ended, r')
    ensures Plannable(r, current, seen) && current.registeredAt <= when ==> FreshOutcome(r, current, seen, when, answer, ended, r')
  {
    if Plannable(r, current, seen) && current.registeredAt <= when {
      PlanIsFresh(r, current, seen, when);
      SameCreateOutcome(r, between, current, plan, StartedRow(plan, when), when, answer, ended, r');
      SameDigests(seen, r);
      PredecessorsDone(r, current);
      FreshRowIsThePlan(r, current, when);
    }
  }

  lemma PlannedPass(r: Rows, current: Orchestration, seen: map<Stage, Checkpoint>, when: int,
                    answer: Option<string>, reachable: bool, items: seq<Item>, ended: Ended, r': Rows)
    requires Plannable(r, current, seen) && current.registeredAt <= when ==> FreshOutcome(r, current, seen, when, answer, ended, r')
    ensures Actable(r, current, Absent, seen, when) ==> PassOutcome(r, current, when, answer, reachable, items, ended, r')
  {
  }

  /** No journal row yet: plan one, then create. */
  method PlanAndCreate(store: Store, supervisor: Supervisor, sha: string, current: Orchestration, seen: map<Stage, Checkpoint>,
                       when: int, clock: int, answer: Option<string>, budget: nat, ghost path: Path, ghost w: nat)
    returns (ended: Ended, ghost reached: Path)
    requires path.Valid() && Mirrors(store, supervisor, path.End()) && path.End().id.sha == sha && path.End().clock == clock
    requires Authorized(path.End(), w, when, current, seen) && Backup !in seen
    modifies store, supervisor
    ensures !ended.Replayed?
    ensures reached.Valid() && reached.From() == path.From() && Mirrors(store, supervisor, reached.End()) && store.OthersUnchanged(sha)
    ensures supervisor.issued <= old(supervisor.issued) + 1
    ensures ended.Finished? ==> !ended.blocked && reached.End().rows.orchestration == Some(Advance(current, Completed, when))
    ensures Plannable(path.End().rows, current, seen) && current.registeredAt <= when && budget >= 4 ==>
      FreshOutcome(path.End().rows, current, seen, when, answer, ended, reached.End().rows)
  {
    reached := path;
    if budget == 0 { return Crashed, reached; }
    PlanGoesThrough(path.End().rows, current, seen, when);
    var plan;
    plan, reached := PlanBackup(store, supervisor, sha, current, seen, when, path, w);
    if plan.None? { return Rejected, reached; }
    ghost var between := reached.End().rows;
    ended, reached := CreateOnce(store, supervisor, sha, plan.value, current, when, clock, answer, budget - 1, reached, w);
    if budget >= 4 { PlannedOutcome(path.End().rows, current, seen, when, between, plan.value, answer, ended, reached.End().rows); }
  }

  /** From the authority on: plan if there is no row yet, then create once or reconcile. */
  method ActOnce(store: Store, supervisor: Supervisor, orchestration: Orchestration, row: Loaded<Checkpoint>, seen: map<Stage, Checkpoint>,
                 when: int, clock: int, answer: Option<string>, reachable: bool, items: seq<Item>, budget: nat, ghost path: Path, ghost w: nat)
    returns (ended: Ended, ghost reached: Path)
    requires path.Valid() && Mirrors(store, supervisor, path.End()) && path.End().id == orchestration.id && path.End().clock == clock
    requires Honest(path.End(), items) && Remembers(path.End(), w, when, orchestration, seen)
    requires HasAll(seen, PREDECESSORS) && forall p :: p in PREDECESSORS ==> seen[p].phase == Done
    requires !row.Invalid? && (row.Present? <==> Backup in seen)
    requires row.Present? ==> seen[Backup] == row.value && !row.value.Ended() && row.value.stage == Backup
                              && orchestration.phase == SemanticallyValidated && orchestration.action == DoPrepareBackup
    modifies store, supervisor
    ensures !ended.Replayed?
    ensures store.OthersUnchanged(orchestration.id.sha)
    ensures reached.Valid() && reached.From() == path.From() && Mirrors(store, supervisor, reached.End())
    ensures supervisor.issued <= old(supervisor.issued) + 1
    ensures row.Present? && row.value.phase != Planned ==> supervisor.issued == old(supervisor.issued)
    ensures ended.Finished? ==>
      reached.End().rows.orchestration == Some(Advance(orchestration, if ended.blocked then Blocked else Completed, when))
    ensures Actable(path.End().rows, orchestration, row, seen, when) && budget >= DurableSteps(path.End().rows) ==>
      PassOutcome(path.End().rows, orchestration, when, answer, reachable, items, ended, reached.End().rows)
  {
    var sha := orchestration.id.sha;
    reached := path;
    if row.Absent? {
      if orchestration.phase != SemanticallyValidated || orchestration.action != DoPrepareBackup { return Rejected, reached; }
      ended, reached := PlanAndCreate(store, supervisor, sha, orchestration, seen, when, clock, answer, budget, path, w);
      if budget >= 4 { PlannedPass(path.End().rows, orchestration, seen, when, answer, reachable, items, ended, reached.End().rows); }
    } else {
      ended, reached := ResumeOnce(store, supervisor, orchestration, row.value, seen, when, clock, answer, reachable, items, budget, path, w);
    }
  }

  lemma AuthorityLoads(r: Rows, current: Orchestration)
    ensures Ready(r, current) ==>
      && LoadOrchestration(r) == Present(current)
      && LoadCheckpoint(r, Backup) == (if Backup in r.checkpoints then Present(r.checkpoints[Backup]) else Absent)
      && (Backup in r.checkpoints ==> !r.checkpoints[Backup].Ended())
  {
    if Ready(r, current) && Backup in r.checkpoints {
      RowFound(r, current);
    }
  }

  lemma PredecessorsLoad(r: Rows, current: Orchestration)
    ensures Ready(r, current) ==> LoadsEvery(r)
  {
    if Ready(r, current) {
      PredecessorsDone(r, current);
    }
  }

  /** A completed row is replayed only with the prepared deployment that carries its evidence. */
  predicate Replays(r: Rows, row: Checkpoint) {
    row.phase == Done ==> r.prepared.Some? && Some(r.prepared.value.evidence) == row.evidence
  }

  /** The well-formed rows of a candidate whose backup has ended. */
  ghost predicate HasEnded(r: Rows, current: Orchestration) {
    && RowsInv(r, current.id) && r.orchestration == Some(current) && Backup in r.checkpoints
    && (r.checkpoints[Backup].phase == Done || r.checkpoints[Backup].phase == Stopped)
  }

  lemma EndedReplays(r: Rows, current: Orchestration)
    ensures HasEnded(r, current) ==>
      && LoadOrchestration(r) == Present(current) && LoadCheckpoint(r, Backup) == Present(r.checkpoints[Backup])
      && Replays(r, r.checkpoints[Backup])
  {
    if HasEnded(r, current) {
      LoadersAccept(r, current.id, Backup);
    }
  }

  /** The rest of a pass whose orchestration is current and whose journal row has not ended. */
  method ProceedOnce(store: Store, supervisor: Supervisor, orchestration: Orchestration, row: Loaded<Checkpoint>, when: int, clock: int,
                     answer: Option<string>, reachable: bool, items: seq<Item>, budget: nat, ghost sys: System, ghost w: nat)
    returns (ended: Ended, ghost reached: Path)
    requires Mirrors(store, supervisor, sys) && sys.id == orchestration.id && sys.clock == clock && Honest(sys, items)
    requires w in sys.workers && sys.workers[w].when == when
    requires LoadOrchestration(sys.rows) == Present(orchestration)
    requires row == LoadCheckpoint(sys.rows, Backup) && !row.Invalid? && (row.Present? ==> !row.value.Ended())
    modifies store, supervisor
    ensures store.OthersUnchanged(orchestration.id.sha)
    ensures reached.Valid() && reached.From() == sys && Mirrors(store, supervisor, reached.End())
    ensures supervisor.issued <= old(supervisor.issued) + 1
    ensures row.Present? && row.value.phase != Planned ==> supervisor.issued == old(supervisor.issued)
    ensures !ended.Replayed?
    ensures ended.Finished? ==>
      reached.End().rows.orchestration == Some(Advance(orchestration, if ended.blocked then Blocked else Completed, when))
    ensures Ready(sys.rows, orchestration) && TimesFit(sys.rows, orchestration, when) && budget >= DurableSteps(sys.rows) ==>
      PassOutcome(sys.rows, orchestration, when, answer, reachable, items, ended, reached.End().rows)
  {
    var sha := orchestration.id.sha;
    reached := ReadsOrchestration(Path([sys], []), w, orchestration);
    var seen: map<Stage, Checkpoint> := map[];
    if row.Present? {
      reached := ReadBack(reached, w, row.value);
      seen := map[Backup := row.value];
    }
    PredecessorsLoad(sys.rows, orchestration);
    var ok;
    ok, seen, reached := ReadPredecessors(store, supervisor, sha, seen, reached, w);
    if !ok { return Rejected, reached; }
    ended, reached := ActOnce(store, supervisor, orchestration, row, seen, when, clock, answer, reachable, items, budget, reached, w);
  }

  /** One pass for a claimed candidate, cut short by a crash after `budget` durable steps. Whatever
      the Supervisor answers, what the pass leaves in the tables and at the Supervisor is what a run
      of the step machine leaves. It issues at most one create call, and none when it finds the
      journal row already past `planned`. */
  method ExecuteBackupOnce(store: Store, supervisor: Supervisor, orchestration: Orchestration, when: int, clock: int,
                           answer: Option<string>, reachable: bool, items: seq<Item>, budget: nat, ghost sys: System, ghost w: nat)
    returns (ended: Ended, ghost reached: Path)
    requires Mirrors(store, supervisor, sys) && sys.id == orchestration.id && sys.clock == clock && Honest(sys, items)
    requires w in sys.workers && sys.workers[w].when == when
    modifies store, supervisor
    ensures store.OthersUnchanged(orchestration.id.sha)
    ensures reached.Valid() && reached.From() == sys && Mirrors(store, supervisor, reached.End())
    ensures supervisor.issued <= old(supervisor.issued) + 1
    ensures Backup in sys.rows.checkpoints && sys.rows.checkpoints[Backup].phase != Planned ==> supervisor.issued == old(supervisor.issued)
    ensures ended.Finished? ==>
      reached.End().rows.orchestration == Some(Advance(orchestration, if ended.blocked then Blocked else Completed, when))
    ensures HasEnded(sys.rows, orchestration) ==> ended == Replayed
    ensures ended.Replayed? || sys.rows.orchestration != Some(orchestration) ==>
      !ended.Finished? && reached.End() == sys && supervisor.issued == old(supervisor.issued)
    ensures Ready(sys.rows, orchestration) && TimesFit(sys.rows, orchestration, when) && budget >= DurableSteps(sys.rows) ==>
      PassOutcome(sys.rows, orchestration, when, answer, reachable, items, ended, reached.End().rows)
  {
    var sha := orchestration.id.sha;
    AuthorityLoads(sys.rows, orchestration);
    EndedReplays(sys.rows, orchestration);
    reached := Path([sys], []);
    if LoadOrchestration(store.RowsOf(sha)) != Present(orchestration) { return Rejected, reached; }
    var row := LoadCheckpoint(store.RowsOf(sha), Backup);
    if row.Invalid? { return Rejected, reached; }
    if row.Present? && row.value.Ended() {
      return if Replays(store.RowsOf(sha), row.value) then Replayed else Rejected, reached;
    }
    ended, reached := ProceedOnce(store, supervisor, orchestration, row, when, clock, answer, reachable, items, budget, sys, w);
  }
}

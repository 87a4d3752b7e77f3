/** Runs of the step machine built one step at a time, with every state they pass through, and what each
    step adds for a worker that stands where the step applies. */
module CandidatePaths {
  import opened Options
  import opened Candidate
  import opened CandidateRuns
  import opened BackupInventory

  /** The predecessors of Backup, in the order the executor loads them. */
  const PREDECESSORS: seq<Stage> := PredecessorStages(Backup)

  /** A run of the step machine with every state it passes through. */
  datatype Path = Path(states: seq<System>, steps: seq<Action>) {
    ghost predicate Linked(i: nat)
      requires i < |steps| && |states| == |steps| + 1
    {
      InOrder(states[i], steps[i]) && states[i + 1] == Step(states[i], steps[i])
    }

    ghost predicate Valid() {
      |states| == |steps| + 1 && forall i :: 0 <= i < |steps| ==> Linked(i)
    }

    ghost function From(): System
      requires Valid()
    {
      states[0]
    }

    ghost function End(): System
      requires Valid()
    {
      states[|steps|]
    }
  }

  lemma Extend(p: Path, a: Action) returns (q: Path)
    requires p.Valid() && InOrder(p.End(), a)
    ensures q.Valid() && q.From() == p.From()
    ensures q.End() == Step(p.End(), a)
  {
    q := Path(p.states + [Step(p.End(), a)], p.steps + [a]);
    forall i | 0 <= i < |q.steps| ensures q.Linked(i) {
      assert i < |p.steps| ==> p.Linked(i);
    }
  }

  lemma ExtendTo(p: Path, a: Action, s: System) returns (q: Path)
    requires p.Valid() && InOrder(p.End(), a) && Step(p.End(), a) == s
    ensures q.Valid() && q.From() == p.From() && q.End() == s
  {
    q := Extend(p, a);
  }

  /** A path is a run, so what is proved over runs holds at its end. */
  lemma {:induction false} PathIsRun(p: Path)
    requires p.Valid()
    ensures RunInOrder(p.From(), p.steps) && Run(p.From(), p.steps) == p.End()
    decreases |p.steps|
  {
    if p.steps != [] {
      assert p.Linked(0);
      var q := Path(p.states[1..], p.steps[1..]);
      forall i | 0 <= i < |q.steps| ensures q.Linked(i) { assert p.Linked(i + 1); }
      PathIsRun(q);
    }
  }

  /** What the pass itself has in memory is what the machine's worker has. */
  predicate Remembers(s: System, w: nat, when: int, current: Orchestration, seen: map<Stage, Checkpoint>) {
    w in s.workers && s.workers[w].when == when && s.workers[w].current == Some(current) && s.workers[w].seen == seen
  }

  predicate Authorized(s: System, w: nat, when: int, current: Orchestration, seen: map<Stage, Checkpoint>) {
    Remembers(s, w, when, current, seen) && At(s.workers[w], Backup) && SeenPredecessors(s.workers[w], Backup)
  }

  predicate SameOutside(s: System, s': System) {
    s'.id == s.id && s'.clock == s.clock && s'.issued == s.issued && s'.made == s.made
  }

  // ---------------------------------------------------------------- what each step of the machine does

  lemma ReadsOrchestration(p: Path, w: nat, current: Orchestration) returns (q: Path)
    requires p.Valid() && w in p.End().workers && LoadOrchestration(p.End().rows) == Present(current)
    ensures q.Valid() && q.From() == p.From()
    ensures q.End() == SetWorker(p.End(), w, p.End().workers[w].(current := Some(current), seen := map[]))
  {
    q := Extend(p, ReadOrchestration(w));
  }

  lemma ReadsCheckpoint(p: Path, w: nat, stage: Stage, row: Checkpoint) returns (q: Path)
    requires p.Valid() && w in p.End().workers && p.End().workers[w].current.Some?
    requires LoadCheckpoint(p.End().rows, stage) == Present(row)
    ensures q.Valid() && q.From() == p.From()
    ensures q.End() == SetWorker(p.End(), w, p.End().workers[w].(seen := p.End().workers[w].seen[stage := row]))
  {
    q := Extend(p, ReadCheckpoint(w, stage));
  }

  lemma ReadsAnother(s: System, p: Path, w: nat, seen: map<Stage, Checkpoint>, stage: Stage, row: Checkpoint) returns (q: Path)
    requires w in s.workers && s.workers[w].current.Some? && LoadCheckpoint(s.rows, stage) == Present(row)
    requires p.Valid() && p.End() == SetWorker(s, w, s.workers[w].(seen := seen))
    ensures q.Valid() && q.From() == p.From()
    ensures q.End() == SetWorker(s, w, s.workers[w].(seen := seen[stage := row]))
  {
    q := ReadsCheckpoint(p, w, stage, row);
    assert q.End().workers == s.workers[w := s.workers[w].(seen := seen[stage := row])];
  }

  lemma NotItsOwnPredecessor(n: nat)
    requires n < |PREDECESSORS|
    ensures PREDECESSORS[n] != Backup
  {
    assert PREDECESSORS[n] in PREDECESSORS;
  }

  lemma SameMemory(s: System, w: nat)
    requires w in s.workers
    ensures SetWorker(s, w, s.workers[w].(seen := s.workers[w].seen)) == s
  {
    assert s.workers == s.workers[w := s.workers[w]];
  }

  lemma RecordsPlan(p: Path, w: nat, when: int, current: Orchestration, seen: map<Stage, Checkpoint>) returns (q: Path)
    requires p.Valid() && Authorized(p.End(), w, when, current, seen) && Backup !in seen
    ensures q.Valid() && q.From() == p.From()
    ensures q.End() == SetRows(p.End(), TxPlan(p.End().rows, current, Plan(Backup, current, Digests(seen, PREDECESSORS), when)))
  {
    q := Extend(p, RecordPlan(w, Backup));
  }

  lemma StartsBackup(p: Path, w: nat, planned: Checkpoint, started: Checkpoint) returns (q: Path)
    requires p.Valid() && w in p.End().workers && SeenBound(p.End().workers[w], Backup) && p.End().workers[w].seen[Backup] == planned
    requires planned.phase == Planned && started == Start(planned, p.End().workers[w].when) && started.Valid()
    ensures q.Valid() && q.From() == p.From()
    ensures var t := TxTransition(p.End().rows, planned, started);
      q.End() == if t.None? then p.End()
                    else SetWorker(p.End().(rows := t.value), w, p.End().workers[w].(ticket := StartCommitted(started)))
  {
    q := Extend(p, StartBackup(w));
  }

  lemma ConfirmsStart(p: Path, w: nat, started: Checkpoint) returns (q: Path)
    requires p.Valid() && w in p.End().workers && p.End().workers[w].ticket == StartCommitted(started)
    requires LoadCheckpoint(p.End().rows, Backup) == Present(started)
    ensures q.Valid() && q.From() == p.From()
    ensures q.End() == SetWorker(p.End(), w, p.End().workers[w].(ticket := MayCreate(started)))
  {
    q := Extend(p, ConfirmStart(w));
  }

  lemma CreatesBackup(p: Path, w: nat, started: Checkpoint, answer: Option<string>) returns (q: Path)
    requires p.Valid() && w in p.End().workers && p.End().workers[w].ticket == MayCreate(started)
    ensures q.Valid() && q.From() == p.From()
    ensures var s, s' := p.End(), q.End();
      && s'.rows == s.rows && s'.id == s.id && s'.clock == s.clock && s'.issued == s.issued + 1
      && s'.made == s.made + (if answer.Some? then [Made(answer.value, s.clock)] else [])
      && w in s'.workers
      && s'.workers[w] == s.workers[w].(ticket := if answer.Some? then Created(started, answer.value) else CreateFailed(started))
  {
    q := Extend(p, CreateBackup(w, answer));
  }

  lemma DeclaresUncertain(p: Path, w: nat, started: Checkpoint) returns (q: Path)
    requires p.Valid() && w in p.End().workers && p.End().workers[w].ticket == CreateFailed(started)
    ensures q.Valid() && q.From() == p.From()
    ensures var t := TxTransition(p.End().rows, started, MarkUncertain(started));
      && SameOutside(p.End(), q.End())
      && q.End().rows == if t.Some? then t.value else p.End().rows
  {
    q := Extend(p, DeclareUncertain(w));
  }

  lemma MarksUncertain(p: Path, w: nat, row: Checkpoint) returns (q: Path)
    requires p.Valid() && w in p.End().workers && SeenBound(p.End().workers[w], Backup)
    requires p.End().workers[w].seen[Backup] == row && row.phase == MutationStarted
    ensures q.Valid() && q.From() == p.From()
    ensures q.End() == SetRows(p.End(), TxTransition(p.End().rows, row, MarkUncertain(row)))
  {
    q := Extend(p, MarkStartedUncertain(w));
  }

  lemma Reconciles(p: Path, w: nat, row: Checkpoint, reachable: bool, items: seq<Item>) returns (q: Path)
    requires p.Valid() && w in p.End().workers && SeenBound(p.End().workers[w], Backup)
    requires p.End().workers[w].seen[Backup] == row && row.phase == Uncertain && row.startedAt.Some? && Honest(p.End(), items)
    ensures q.Valid() && q.From() == p.From()
    ensures
      var found := if reachable then ReconciledSlug(items, row.startedAt.value) else None;
      q.End() == SetWorker(p.End(), w, p.End().workers[w].(ticket := Reconciled(row, found)))
  {
    q := Extend(p, Reconcile(w, reachable, items));
  }

  lemma FinishedRows(s: System, w: nat, previous: Checkpoint, finished: Checkpoint, current: Orchestration, when: int)
    requires w in s.workers && s.workers[w].when == when && BackupEnding(s.workers[w].ticket, when) == Some((previous, finished))
    requires s.workers[w].current == Some(current) && At(s.workers[w], Backup)
    requires finished.Valid() && Successor(current, finished, when).Valid()
    ensures
      var s' := StepFinishBackup(s, w);
      var t := TxFinishBackup(s.rows, previous, finished, current, Successor(current, finished, when), when);
      SameOutside(s, s') && s'.rows == if t.Some? then t.value else s.rows
  {
  }

  lemma FinishesBackup(p: Path, w: nat, previous: Checkpoint, finished: Checkpoint, current: Orchestration, when: int) returns (q: Path)
    requires p.Valid() && w in p.End().workers && p.End().workers[w].when == when
    requires BackupEnding(p.End().workers[w].ticket, when) == Some((previous, finished))
    requires p.End().workers[w].current == Some(current) && At(p.End().workers[w], Backup)
    requires finished.Valid() && Successor(current, finished, when).Valid()
    ensures q.Valid() && q.From() == p.From()
    ensures
      var t := TxFinishBackup(p.End().rows, previous, finished, current, Successor(current, finished, when), when);
      && SameOutside(p.End(), q.End())
      && q.End().rows == if t.Some? then t.value else p.End().rows
  {
    FinishedRows(p.End(), w, previous, finished, current, when);
    StepOfBackup(p.End(), FinishBackup(w));
    q := ExtendTo(p, FinishBackup(w), StepFinishBackup(p.End(), w));
  }
}

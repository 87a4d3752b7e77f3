/** One-shot administrative retries: a request makes at most its one blocked work row eligible again,
    once, and leaves a receipt that every later use of its identifier replays. */
module AdministrativeRetry {
  import opened Options
  import opened Candidate

  /** The work row a request names; its digest is the identity itself. */
  datatype Identity = Identity(kind: string, key: string)

  datatype Request = Request(id: string, identity: Identity)

  datatype Outcome = Retried | Rejected

  datatype Receipt = Receipt(identity: Identity, outcome: Outcome, processedAt: int)

  datatype State = State(work: map<Identity, Work>, receipts: map<string, Receipt>)

  /** What `apply_administrative_retry_request` answers; Refused where it raises. */
  datatype Answer = Answered(outcome: Outcome, replayed: bool) | Refused

  predicate Blocked(work: map<Identity, Work>, identity: Identity) {
    identity in work && work[identity].status == WorkBlocked
  }

  function Reset(w: Work, now: int): Work {
    w.(status := Pending, attempts := 0, updatedAt := now, nextAttemptAt := Some(now))
  }

  function Apply(s: State, r: Request, now: int): (State, Answer) {
    if r.id in s.receipts then
      (s, if s.receipts[r.id].identity == r.identity then Answered(s.receipts[r.id].outcome, true) else Refused)
    else if Blocked(s.work, r.identity) then
      (State(s.work[r.identity := Reset(s.work[r.identity], now)], s.receipts[r.id := Receipt(r.identity, Retried, now)]), Answered(Retried, false))
    else
      (s.(receipts := s.receipts[r.id := Receipt(r.identity, Rejected, now)]), Answered(Rejected, false))
  }

  /** The tables, and one request as one transaction on them. */
  class Store {
    var work: map<Identity, Work>
    var receipts: map<string, Receipt>

    constructor ()
      ensures Contents() == State(map[], map[])
    {
      work, receipts := map[], map[];
    }

    function Contents(): State
      reads this
    {
      State(work, receipts)
    }

    method ApplyRequest(r: Request, now: int) returns (answer: Answer)
      modifies this
      ensures (Contents(), answer) == Apply(old(Contents()), r, now)
      ensures answer == Answered(Retried, false) ==>
        && r.identity in old(work) && old(work)[r.identity].status == WorkBlocked
        && work == old(work)[r.identity := Work(Pending, 0, old(work)[r.identity].createdAt, now, Some(now))]
        && receipts == old(receipts)[r.id := Receipt(r.identity, Retried, now)]
      ensures answer == Answered(Rejected, false) ==>
        && (r.identity in old(work) ==> old(work)[r.identity].status != WorkBlocked)
        && work == old(work) && receipts == old(receipts)[r.id := Receipt(r.identity, Rejected, now)]
      ensures r.id in old(receipts) <==> answer.Refused? || answer.replayed
    {
      if r.id in receipts {
        if receipts[r.id].identity != r.identity { return Refused; }
        return Answered(receipts[r.id].outcome, true);
      }
      var outcome := Rejected;
      if r.identity in work && work[r.identity].status == WorkBlocked {
        work := work[r.identity := Reset(work[r.identity], now)];
        outcome := Retried;
      }
      receipts := receipts[r.id := Receipt(r.identity, outcome, now)];
      return Answered(outcome, false);
    }
  }

  // ---------------------------------------------------------------- runs

  /** A request, or any change another lane makes to a work row. */
  datatype Action = Use(request: Request, now: int) | Change(identity: Identity, row: Work)

  function Step(s: State, a: Action): State {
    match a
    case Use(r, now) => Apply(s, r, now).0
    case Change(identity, row) => s.(work := s.work[identity := row])
  }

  function Run(s: State, actions: seq<Action>): State
    decreases |actions|
  {
    if actions == [] then s else Run(Step(s, actions[0]), actions[1..])
  }

  /** The requests with identifier `id` in a run that reset a row: those answered afresh with a retry. */
  function Resets(s: State, actions: seq<Action>, id: string): nat
    decreases |actions|
  {
    if actions == [] then 0
    else
      var a := actions[0];
      (if a.Use? && a.request.id == id && Apply(s, a.request, a.now).1 == Answered(Retried, false) then 1 else 0)
      + Resets(Step(s, a), actions[1..], id)
  }

  lemma {:induction false} ReceiptsAreFinal(s: State, actions: seq<Action>, id: string)
    requires id in s.receipts
    ensures id in Run(s, actions).receipts && Run(s, actions).receipts[id] == s.receipts[id]
    ensures Resets(s, actions, id) == 0
    decreases |actions|
  {
    if actions != [] { ReceiptsAreFinal(Step(s, actions[0]), actions[1..], id); }
  }

  /** Over any run an identifier resets a row at most once, and exactly when its receipt says so. */
  lemma {:induction false} ResetsAtMostOnce(s: State, actions: seq<Action>, id: string)
    requires id !in s.receipts
    ensures Resets(s, actions, id) <= 1
    ensures Resets(s, actions, id) == 1 <==> id in Run(s, actions).receipts && Run(s, actions).receipts[id].outcome == Retried
    decreases |actions|
  {
    if actions != [] {
      var s' := Step(s, actions[0]);
      if id in s'.receipts {
        ReceiptsAreFinal(s', actions[1..], id);
      } else {
        ResetsAtMostOnce(s', actions[1..], id);
      }
    }
  }

  /** Once used, an identifier changes no row whatever happens in between: the same request is answered
      with its first outcome, and one for another row is refused. */
  lemma ReplaysReturnFirstOutcome(s: State, first: Request, now: int, between: seq<Action>, again: Request, later: int)
    requires again.id == first.id && Apply(s, first, now).1.Answered?
    ensures
      var s' := Run(Apply(s, first, now).0, between);
      && Apply(s', again, later).0 == s'
      && (again.identity == first.identity ==> Apply(s', again, later).1 == Answered(Apply(s, first, now).1.outcome, true))
      && (again.identity != first.identity ==> Apply(s', again, later).1 == Refused)
  {
    ReceiptsAreFinal(Apply(s, first, now).0, between, first.id);
  }

  /** A fresh request for a blocked row makes it pending, untried and due at once. */
  lemma RetriedRowIsDueAtOnce(s: State, r: Request, now: int)
    requires r.id !in s.receipts && r.identity in s.work && s.work[r.identity].status == WorkBlocked
    ensures
      var (s', answer) := Apply(s, r, now);
      && answer == Answered(Retried, false) && r.identity in s'.work
      && s'.work[r.identity] == Work(Pending, 0, s.work[r.identity].createdAt, now, Some(now)) && Due(s'.work[r.identity], now)
  {
  }

  /** A request touches no row but the one it names, and that one only if it was blocked. */
  lemma OnlyItsBlockedRow(s: State, r: Request, now: int, other: Identity)
    requires other != r.identity || !Blocked(s.work, r.identity)
    ensures other in Apply(s, r, now).0.work <==> other in s.work
    ensures other in s.work ==> Apply(s, r, now).0.work[other] == s.work[other]
  {
  }
}

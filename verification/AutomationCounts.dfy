/** Counting which automations and scripts of the derived target came up loaded. */
module AutomationCounts {

  /** One item of the states answer; anything that is not an object is `Other`. */
  datatype StateItem = Item(entityId: string, state: string) | Other

  const LOADED: set<string> := {"on", "off"}

  predicate About(item: StateItem, entity: string) {
    item.Item? && item.entityId == entity
  }

  /** The items about one entity, in order. */
  function Matches(states: seq<StateItem>, entity: string): (ms: seq<StateItem>)
    ensures forall i :: 0 <= i < |ms| ==> ms[i].Item?
  {
    if states == [] then []
    else
      Matches(states[..|states| - 1], entity)
      + if About(states[|states| - 1], entity) then [states[|states| - 1]] else []
  }

  lemma {:induction false} MatchesAreTheItemsAbout(states: seq<StateItem>, entity: string, x: StateItem)
    ensures multiset(Matches(states, entity))[x] == if x.Item? && x.entityId == entity then multiset(states)[x] else 0
  {
    if states != [] {
      var front, last := states[..|states| - 1], states[|states| - 1];
      MatchesAreTheItemsAbout(front, entity, x);
      assert states == front + [last];
      assert multiset(states)[x] == multiset(front)[x] + multiset([last])[x];
    }
  }

  /** An entity is loaded when exactly one item is about it, and that item is on or off. */
  predicate Loaded(states: seq<StateItem>, entity: string) {
    |Matches(states, entity)| == 1 && Matches(states, entity)[0].state in LOADED
  }

  /** Item `i` is about the entity, and no other item is. */
  predicate OnlyAbout(states: seq<StateItem>, entity: string, i: int) {
    && 0 <= i < |states| && About(states[i], entity)
    && forall j {:trigger About(states[j], entity)} :: 0 <= j < |states| && j != i ==> !About(states[j], entity)
  }

  /** Among the states the entity occurs once, as on or off. */
  ghost predicate CameUp(states: seq<StateItem>, entity: string) {
    exists i :: OnlyAbout(states, entity, i) && (states[i].state == "on" || states[i].state == "off")
  }

  lemma {:induction false} NoMatches(states: seq<StateItem>, entity: string)
    ensures Matches(states, entity) == [] <==> forall j {:trigger About(states[j], entity)} :: 0 <= j < |states| ==> !About(states[j], entity)
  {
    if states != [] {
      var front := states[..|states| - 1];
      NoMatches(front, entity);
      assert forall j {:trigger About(states[j], entity)} :: 0 <= j < |front| ==> (About(states[j], entity) <==> About(front[j], entity));
    }
  }

  lemma {:induction false} OnlyMatch(states: seq<StateItem>, entity: string, i: int)
    requires OnlyAbout(states, entity, i)
    ensures Matches(states, entity) == [states[i]]
  {
    var front := states[..|states| - 1];
    assert forall j {:trigger About(states[j], entity)} :: 0 <= j < |front| ==> (About(states[j], entity) <==> About(front[j], entity));
    if i == |front| {
      NoMatches(front, entity);
    } else {
      assert OnlyAbout(front, entity, i);
      OnlyMatch(front, entity, i);
    }
  }

  lemma {:induction false} TheMatch(states: seq<StateItem>, entity: string) returns (i: int)
    requires |Matches(states, entity)| == 1
    ensures OnlyAbout(states, entity, i)
  {
    var front := states[..|states| - 1];
    NoMatches(front, entity);
    if |Matches(front, entity)| == 1 { i := TheMatch(front, entity); } else { i := |states| - 1; }
    assert forall j {:trigger About(states[j], entity)} :: 0 <= j < |front| ==> (About(states[j], entity) <==> About(front[j], entity));
  }

  /** What the filter and the length test come to, said of the states themselves. */
  lemma LoadedMeansCameUp(states: seq<StateItem>, entity: string)
    ensures Loaded(states, entity) <==> CameUp(states, entity)
  {
    if Loaded(states, entity) {
      var i := TheMatch(states, entity);
      OnlyMatch(states, entity, i);
    }
    if CameUp(states, entity) {
      var i :| OnlyAbout(states, entity, i) && (states[i].state == "on" || states[i].state == "off");
      OnlyMatch(states, entity, i);
    }
  }

  /** The positions of the target that came up. */
  ghost function CameUpAt(target: seq<string>, states: seq<StateItem>): set<nat> {
    set i: nat | i < |target| && CameUp(states, target[i])
  }

  function LoadedAt(target: seq<string>, states: seq<StateItem>): set<nat> {
    set i: nat | i < |target| && Loaded(states, target[i])
  }

  /** `[item for item in states if ...]`. */
  method FindMatches(states: seq<StateItem>, entity: string) returns (found: seq<StateItem>)
    ensures found == Matches(states, entity)
    ensures forall x :: multiset(found)[x] == if x.Item? && x.entityId == entity then multiset(states)[x] else 0
  {
    found := [];
    for n := 0 to |states|
      invariant found == Matches(states[..n], entity)
    {
      assert states[..n + 1][..n] == states[..n];
      if states[n].Item? && states[n].entityId == entity { found := found + [states[n]]; }
    }
    assert states[..|states|] == states;
    forall x ensures multiset(found)[x] == if x.Item? && x.entityId == entity then multiset(states)[x] else 0 {
      MatchesAreTheItemsAbout(states, entity, x);
    }
  }

  lemma LoadedOneMore(target: seq<string>, states: seq<StateItem>, n: nat)
    requires n < |target|
    ensures |LoadedAt(target[..n + 1], states)| == |LoadedAt(target[..n], states)| + (if Loaded(states, target[n]) then 1 else 0)
  {
    var before, after := LoadedAt(target[..n], states), LoadedAt(target[..n + 1], states);
    assert after == before + (if Loaded(states, target[n]) then {n} else {});
    assert n !in before;
  }

  lemma LoadedAreThoseThatCameUp(target: seq<string>, states: seq<StateItem>)
    ensures LoadedAt(target, states) == CameUpAt(target, states)
  {
    forall i: nat | i < |target| ensures Loaded(states, target[i]) <==> CameUp(states, target[i]) {
      LoadedMeansCameUp(states, target[i]);
    }
  }

  lemma {:induction false} AllOfTarget(target: seq<string>, states: seq<StateItem>)
    ensures |LoadedAt(target, states)| == |target| <==> forall i :: 0 <= i < |target| ==> Loaded(states, target[i])
    ensures |LoadedAt(target, states)| <= |target|
  {
    if target != [] {
      var n := |target| - 1;
      AllOfTarget(target[..n], states);
      LoadedOneMore(target, states, n);
      assert target[..n + 1] == target;
      assert forall i :: 0 <= i < n ==> target[..n][i] == target[i];
    }
  }

  /** The counting loop: the two counts are the entries of the target that came up and all the others, so
      they partition it, and nothing has failed exactly when every entry came up. */
  method CountLoaded(target: seq<string>, states: seq<StateItem>) returns (loaded: nat, failed: nat)
    ensures loaded == |CameUpAt(target, states)| && loaded + failed == |target|
    ensures failed == 0 <==> forall i :: 0 <= i < |target| ==> CameUp(states, target[i])
  {
    loaded, failed := 0, 0;
    for n := 0 to |target|
      invariant loaded == |LoadedAt(target[..n], states)| && loaded + failed == n
    {
      LoadedOneMore(target, states, n);
      var matches := FindMatches(states, target[n]);
      if |matches| == 1 && matches[0].state in LOADED {
        loaded := loaded + 1;
      } else {
        failed := failed + 1;
      }
    }
    assert target[..|target|] == target;
    AllOfTarget(target, states);
    LoadedAreThoseThatCameUp(target, states);
    forall i | 0 <= i < |target| ensures Loaded(states, target[i]) <==> CameUp(states, target[i]) {
      LoadedMeansCameUp(states, target[i]);
    }
  }
}

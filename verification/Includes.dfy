/** The include check of semantic validation: a worklist over a YAML node graph whose nodes may be
    shared or form cycles. */
module Includes {
  import opened Options
  import opened Separated
  import opened Utf8
  import opened TreeRecords

  const MAX_NODES: nat := 100000

  type NodeId = nat

  /** A composed node: `includes` when its tag starts with `!include`. */
  datatype YamlNode =
    | Scalar(includes: bool, value: Text)
    | Mapping(includes: bool, pairs: seq<(NodeId, NodeId)>)
    | Sequence(includes: bool, items: seq<NodeId>)

  type Graph = map<NodeId, YamlNode>

  function Flattened(pairs: seq<(NodeId, NodeId)>): (ids: seq<NodeId>)
    ensures forall i :: 0 <= i < |pairs| ==> pairs[i].0 in ids && pairs[i].1 in ids
  {
    if pairs == [] then [] else [pairs[0].0, pairs[0].1] + Flattened(pairs[1..])
  }

  function Children(n: YamlNode): seq<NodeId> {
    match n
    case Scalar(_, _) => []
    case Mapping(_, pairs) => Flattened(pairs)
    case Sequence(_, items) => items
  }

  /** `c` is an item of the list `n`, or a key or a value of the mapping `n`. */
  predicate Below(n: YamlNode, c: NodeId) {
    match n
    case Scalar(_, _) => false
    case Mapping(_, pairs) => exists i :: 0 <= i < |pairs| && (pairs[i].0 == c || pairs[i].1 == c)
    case Sequence(_, items) => exists i :: 0 <= i < |items| && items[i] == c
  }

  lemma {:induction false} FlattenedHolds(pairs: seq<(NodeId, NodeId)>, c: NodeId)
    ensures c in Flattened(pairs) <==> exists i :: 0 <= i < |pairs| && (pairs[i].0 == c || pairs[i].1 == c)
  {
    if pairs != [] {
      var rest := pairs[1..];
      FlattenedHolds(rest, c);
      if i :| 0 <= i < |pairs| && (pairs[i].0 == c || pairs[i].1 == c) {
        assert i > 0 ==> rest[i - 1] == pairs[i];
      }
    }
  }

  lemma ChildrenAreBelow(n: YamlNode, c: NodeId)
    ensures c in Children(n) <==> Below(n, c)
  {
    if n.Mapping? { FlattenedHolds(n.pairs, c); }
  }

  ghost predicate Closed(g: Graph) {
    forall n, c :: n in g && c in Children(g[n]) ==> c in g
  }

  // ---------------------------------------------------------------- reachability

  /** A way from the first node of `path` to its last, child by child. */
  ghost predicate Leads(g: Graph, path: seq<NodeId>) {
    && path != [] && path[0] in g
    && forall i :: 0 <= i < |path| - 1 ==> path[i] in g && path[i + 1] in Children(g[path[i]])
  }

  ghost predicate Reaches(g: Graph, root: NodeId, n: NodeId) {
    exists path :: Leads(g, path) && path[0] == root && path[|path| - 1] == n
  }

  ghost function Reachable(g: Graph, root: NodeId): set<NodeId> {
    set n | n in g && Reaches(g, root, n)
  }

  lemma RootIsReachable(g: Graph, root: NodeId)
    requires root in g
    ensures root in Reachable(g, root)
  {
    assert Leads(g, [root]);
  }

  lemma ChildIsReachable(g: Graph, root: NodeId, n: NodeId, c: NodeId)
    requires Closed(g) && n in Reachable(g, root) && c in Children(g[n])
    ensures c in Reachable(g, root)
  {
    var path :| Leads(g, path) && path[0] == root && path[|path| - 1] == n;
    assert Leads(g, path + [c]);
  }

  /** A set with the root that is closed under children holds everything reachable. */
  lemma {:induction false} ClosedSetCovers(g: Graph, root: NodeId, nodes: set<NodeId>, path: seq<NodeId>)
    requires root in nodes && forall n, c :: n in nodes && n in g && c in Children(g[n]) ==> c in nodes
    requires Leads(g, path) && path[0] == root
    ensures path[|path| - 1] in nodes
    decreases |path|
  {
    if |path| > 1 {
      var front := path[..|path| - 1];
      assert forall i :: 0 <= i < |front| ==> front[i] == path[i];
      ClosedSetCovers(g, root, nodes, front);
      assert path[|path| - 1] in Children(g[front[|front| - 1]]);
    }
  }

  // ---------------------------------------------------------------- the rule for one node

  const SLASH: Scalar := 47
  const BACKSLASH: Scalar := 92
  const UP: Text := [46, 46]

  predicate Relative(value: Text) {
    value != [] && value[0] != SLASH
  }

  predicate NoParentStep(value: Text) {
    UP !in Split(value, SLASH)
  }

  predicate PlainText(value: Text) {
    BACKSLASH !in value && forall i :: 0 <= i < |value| ==> value[i] >= 32
  }

  predicate TargetAllowed(value: Text) {
    Relative(value) && NoParentStep(value) && PlainText(value)
  }

  predicate Allowed(n: YamlNode) {
    n.includes ==> n.Scalar? && TargetAllowed(n.value)
  }

  /** An include must be a scalar whose text is not empty, does not start with `/`, has no component
      `..`, and holds neither a backslash nor a character below 32. */
  ghost predicate Permitted(n: YamlNode) {
    n.includes ==>
      && n.Scalar? && n.value != [] && n.value[0] != 47
      && (forall i: nat, j: nat {:trigger Component(n.value, i, j)} :: Component(n.value, i, j) ==> n.value[i..j] != [46, 46])
      && (forall i :: 0 <= i < |n.value| ==> n.value[i] != 92 && n.value[i] >= 32)
  }

  lemma NoParentComponent(value: Text)
    ensures NoParentStep(value) <==>
      forall i: nat, j: nat {:trigger Component(value, i, j)} :: Component(value, i, j) ==> value[i..j] != [46, 46]
  {
    if UP in Split(value, SLASH) {
      var n :| 0 <= n < |Split(value, SLASH)| && Split(value, SLASH)[n] == UP;
      var i, j := PieceIsComponent(value, n);
    }
    forall i: nat, j: nat | Component(value, i, j) ensures value[i..j] in Split(value, SLASH) {
      var n := ComponentIsPiece(value, i, j);
    }
  }

  lemma AllowedIsPermitted(n: YamlNode)
    ensures Allowed(n) <==> Permitted(n)
  {
    if n.includes && n.Scalar? { NoParentComponent(n.value); }
  }

  // ---------------------------------------------------------------- staying under the candidate root

  /** Follow the parts of a relative path from a directory `depth` levels below the root, None once it
      leaves the root; `.` and empty parts stay where they are. */
  function Follow(depth: nat, parts: seq<Text>): Option<nat>
    decreases |parts|
  {
    if parts == [] then Some(depth)
    else if parts[0] == UP then (if depth == 0 then None else Follow(depth - 1, parts[1..]))
    else if parts[0] == [] || parts[0] == [46] then Follow(depth, parts[1..])
    else Follow(depth + 1, parts[1..])
  }

  /** Resolved against a directory `depth` levels down, the target never leaves the candidate root. */
  predicate StaysInside(depth: nat, value: Text) {
    Relative(value) && Follow(depth, Split(value, SLASH)).Some?
  }

  lemma {:induction false} NeverUpStays(depth: nat, parts: seq<Text>)
    requires UP !in parts
    ensures Follow(depth, parts).Some? && Follow(depth, parts).value >= depth
    decreases |parts|
  {
    if parts != [] {
      var next := if parts[0] == [] || parts[0] == [46] then depth else depth + 1;
      NeverUpStays(next, parts[1..]);
    }
  }

  /** An allowed target stays under the candidate root, and under the directory of the including file. */
  lemma AllowedTargetStaysInside(depth: nat, value: Text)
    requires TargetAllowed(value)
    ensures StaysInside(depth, value) && Follow(depth, Split(value, SLASH)).value >= depth
  {
    NeverUpStays(depth, Split(value, SLASH));
  }

  /** `x/../y` stays under the root of every candidate and is refused all the same. */
  lemma StayingInsideIsNotEnough(depth: nat)
    ensures StaysInside(depth, [120, 47, 46, 46, 47, 121]) && !TargetAllowed([120, 47, 46, 46, 47, 121])
  {
    var value: Text := [120, 47, 46, 46, 47, 121];
    SplitSkips<Scalar>([120], [46, 46, 47, 121], SLASH);
    SplitSkips<Scalar>([46, 46], [121], SLASH);
    SplitSkips<Scalar>([121], [], SLASH);
    assert value == [120] + [SLASH] + [46, 46, 47, 121];
    assert [46, 46, 47, 121] == UP + [SLASH] + [121];
    var parts := Split(value, SLASH);
    var x: Text, y: Text := [120], [121];
    assert parts == [x] + ([UP] + [y]);
    assert parts[1..] == [UP] + [y] && ([UP] + [y])[1..] == [y] && [y][1..] == [];
    assert Follow(depth + 1, [UP] + [y]) == Follow(depth, [y]) == Follow(depth + 1, []);
  }

  /** `a\b` and a target with a control character climb nowhere and are refused as well. */
  lemma PlainPathsAreRefusedToo(depth: nat, odd: Scalar)
    requires odd == 92 || odd < 32
    ensures var value := [97, odd, 98];
            StaysInside(depth, value) && NoParentStep(value) && !TargetAllowed(value)
  {
    var value: Text := [97, odd, 98];
    SplitSkips<Scalar>(value, [], SLASH);
    NeverUpStays(depth, [value]);
    assert value[1] == odd;
  }

  /** The rule for every target and depth: it demands that the target stays inside, and exactly two things
      more that a caller can look up in the text, no `..` part and neither backslash nor control character. */
  lemma RuleIsExact(depth: nat, value: Text)
    ensures TargetAllowed(value) <==> StaysInside(depth, value) && NoParentStep(value) && PlainText(value)
  {
    if TargetAllowed(value) { AllowedTargetStaysInside(depth, value); }
  }

  /** Of the targets that stay inside, the rule takes exactly those. */
  lemma InsideTargetIsAllowedExactly(depth: nat, value: Text)
    requires StaysInside(depth, value)
    ensures TargetAllowed(value) <==> NoParentStep(value) && PlainText(value)
  {
  }

  // ---------------------------------------------------------------- what accepting a document means

  ghost predicate Accepts(g: Graph, root: NodeId) {
    |Reachable(g, root)| <= MAX_NODES && forall n :: n in Reachable(g, root) ==> Allowed(g[n])
  }

  /** Every include of a document in a file `depth` directories down leads to a place under the root. */
  ghost predicate IncludesStayInside(g: Graph, root: NodeId, depth: nat) {
    forall n :: n in Reachable(g, root) && g[n].includes ==> g[n].Scalar? && StaysInside(depth, g[n].value)
  }

  /** No include target has a `..` part, a backslash or a control character. */
  ghost predicate IncludesArePlain(g: Graph, root: NodeId) {
    forall n :: n in Reachable(g, root) && g[n].includes && g[n].Scalar? ==> NoParentStep(g[n].value) && PlainText(g[n].value)
  }

  /** A document is accepted exactly when it is small enough, its includes stay inside and they are plain:
      wherever its file lies, no include leads out of the root, and refusal of a small document whose
      includes all stay inside is always the fault of one that is not plain. */
  lemma DocumentRuleIsExact(g: Graph, root: NodeId, depth: nat)
    ensures Accepts(g, root) <==>
      |Reachable(g, root)| <= MAX_NODES && IncludesStayInside(g, root, depth) && IncludesArePlain(g, root)
  {
    forall n | n in Reachable(g, root) && g[n].includes && g[n].Scalar?
      ensures TargetAllowed(g[n].value) <==>
        StaysInside(depth, g[n].value) && NoParentStep(g[n].value) && PlainText(g[n].value)
    {
      RuleIsExact(depth, g[n].value);
    }
  }

  /** An accepted include stays under the directory of the file it stands in. */
  lemma AcceptedIncludeStaysBelow(g: Graph, root: NodeId, depth: nat, n: NodeId)
    requires Accepts(g, root) && n in Reachable(g, root) && g[n].includes
    ensures g[n].Scalar? && StaysInside(depth, g[n].value) && Follow(depth, Split(g[n].value, SLASH)).value >= depth
  {
    AllowedTargetStaysInside(depth, g[n].value);
  }

  // ---------------------------------------------------------------- the worklist

  ghost predicate Distinct(order: seq<NodeId>) {
    forall i, j :: 0 <= i < j < |order| ==> order[i] != order[j]
  }

  /** What has been visited is reachable, allowed and explored up to what is pending. */
  ghost predicate Explored(g: Graph, root: NodeId, visited: set<NodeId>, pending: seq<NodeId>) {
    && visited <= Reachable(g, root)
    && (forall i :: 0 <= i < |pending| ==> pending[i] in Reachable(g, root))
    && (root in visited || root in pending)
    && (forall n :: n in visited ==> Allowed(g[n]))
    && (forall n, c :: n in visited && c in Children(g[n]) ==> c in visited || c in pending)
  }

  lemma FullyExplored(g: Graph, root: NodeId, visited: set<NodeId>)
    requires Explored(g, root, visited, [])
    ensures visited == Reachable(g, root)
  {
    forall n | n in Reachable(g, root) ensures n in visited {
      var path :| Leads(g, path) && path[0] == root && path[|path| - 1] == n;
      ClosedSetCovers(g, root, visited, path);
    }
  }

  lemma Subset<T>(a: set<T>, b: set<T>)
    requires a <= b
    ensures |a| <= |b|
  {
    assert b == a + (b - a);
  }

  lemma ExploredSkips(g: Graph, root: NodeId, visited: set<NodeId>, pending: seq<NodeId>)
    requires Explored(g, root, visited, pending) && pending != [] && pending[|pending| - 1] in visited
    ensures Explored(g, root, visited, pending[..|pending| - 1])
  {
    var rest := pending[..|pending| - 1];
    assert pending == rest + [pending[|pending| - 1]];
    forall c | c in pending && c !in visited ensures c in rest { }
  }

  lemma ExploredVisits(g: Graph, root: NodeId, visited: set<NodeId>, pending: seq<NodeId>)
    requires Closed(g) && Explored(g, root, visited, pending) && pending != [] && Allowed(g[pending[|pending| - 1]])
    ensures var n := pending[|pending| - 1]; Explored(g, root, visited + {n}, pending[..|pending| - 1] + Children(g[n]))
  {
    var rest, n := pending[..|pending| - 1], pending[|pending| - 1];
    var more := rest + Children(g[n]);
    assert pending == rest + [n];
    forall i | 0 <= i < |more| ensures more[i] in Reachable(g, root) {
      if i >= |rest| { ChildIsReachable(g, root, n, more[i]); }
    }
  }

  lemma TooManyNodes(g: Graph, root: NodeId, visited: set<NodeId>, pending: seq<NodeId>)
    requires Explored(g, root, visited, pending) && pending != [] && |visited + {pending[|pending| - 1]}| > MAX_NODES
    ensures !Accepts(g, root)
  {
    Subset(visited + {pending[|pending| - 1]}, Reachable(g, root));
  }

  lemma BadNode(g: Graph, root: NodeId, visited: set<NodeId>, pending: seq<NodeId>)
    requires Explored(g, root, visited, pending) && pending != [] && !Allowed(g[pending[|pending| - 1]])
    ensures !Accepts(g, root)
  {
    assert pending[|pending| - 1] in Reachable(g, root);
  }

  lemma AllVisited(g: Graph, root: NodeId, visited: set<NodeId>)
    requires Explored(g, root, visited, []) && |visited| <= MAX_NODES
    ensures Accepts(g, root) && visited == Reachable(g, root)
    ensures forall depth: nat :: IncludesStayInside(g, root, depth)
  {
    FullyExplored(g, root, visited);
    forall depth: nat ensures IncludesStayInside(g, root, depth) { DocumentRuleIsExact(g, root, depth); }
  }

  /** The order of the visits so far. */
  ghost predicate Visits(order: seq<NodeId>, visited: set<NodeId>) {
    Distinct(order) && forall n :: n in order <==> n in visited
  }

  lemma VisitsMore(order: seq<NodeId>, visited: set<NodeId>, n: NodeId)
    requires Visits(order, visited) && n !in visited
    ensures Visits(order + [n], visited + {n})
  {
  }

  /** Found on the way: the root, or below a node of the list. */
  ghost predicate FoundFrom(g: Graph, root: NodeId, order: seq<NodeId>, c: NodeId) {
    c == root || exists i :: 0 <= i < |order| && order[i] in g && Below(g[order[i]], c)
  }

  /** Every visited node is the root or hangs below one visited before it. */
  ghost predicate Grown(g: Graph, root: NodeId, order: seq<NodeId>) {
    forall j {:trigger order[j]} :: 0 <= j < |order| ==> order[j] in g && FoundFrom(g, root, order[..j], order[j])
  }

  ghost predicate AllFound(g: Graph, root: NodeId, order: seq<NodeId>, pending: seq<NodeId>) {
    forall i :: 0 <= i < |pending| ==> FoundFrom(g, root, order, pending[i])
  }

  lemma GrowsMore(g: Graph, root: NodeId, order: seq<NodeId>, n: NodeId)
    requires Grown(g, root, order) && n in g && FoundFrom(g, root, order, n)
    ensures Grown(g, root, order + [n])
  {
    var more := order + [n];
    forall j | 0 <= j < |more| ensures more[j] in g && FoundFrom(g, root, more[..j], more[j]) {
      if j < |order| { assert more[..j] == order[..j] && more[j] == order[j]; }
      else { assert more[..j] == order; }
    }
  }

  lemma FoundMore(g: Graph, root: NodeId, order: seq<NodeId>, pending: seq<NodeId>, n: NodeId)
    requires AllFound(g, root, order, pending) && pending != [] && n in g
    ensures AllFound(g, root, order + [n], pending[..|pending| - 1] + Children(g[n]))
  {
    var rest := pending[..|pending| - 1];
    var all := rest + Children(g[n]);
    assert (order + [n])[|order|] == n;
    forall i | 0 <= i < |all| ensures FoundFrom(g, root, order + [n], all[i]) {
      if i < |rest| {
        assert FoundFrom(g, root, order, pending[i]);
        if all[i] != root {
          var k :| 0 <= k < |order| && order[k] in g && Below(g[order[k]], pending[i]);
          assert (order + [n])[k] == order[k];
        }
      } else {
        ChildrenAreBelow(g[n], all[i]);
      }
    }
  }

  /** Nothing is left out: the root, and whatever hangs below a visited node, has been visited. */
  ghost predicate Complete(g: Graph, root: NodeId, order: seq<NodeId>) {
    root in order && forall n, c {:trigger Below(g[n], c)} :: n in order && n in g && Below(g[n], c) ==> c in order
  }

  ghost predicate AllPermitted(g: Graph, order: seq<NodeId>) {
    forall n :: n in order ==> n in g && Permitted(g[n])
  }

  lemma VisitedDocument(g: Graph, root: NodeId, visited: set<NodeId>, order: seq<NodeId>)
    requires Explored(g, root, visited, []) && |visited| <= MAX_NODES && Visits(order, visited)
    ensures Complete(g, root, order) && AllPermitted(g, order) && |order| <= 100000
  {
    forall n, c | n in order && n in g && Below(g[n], c) ensures c in order { ChildrenAreBelow(g[n], c); }
    forall n | n in order ensures n in g && Permitted(g[n]) { AllowedIsPermitted(g[n]); }
    DistinctCount(order, visited);
  }

  lemma {:induction false} DistinctCount(order: seq<NodeId>, visited: set<NodeId>)
    requires Visits(order, visited)
    ensures |order| == |visited|
  {
    if order == [] {
      assert visited == {};
    } else {
      var front, n := order[..|order| - 1], order[|order| - 1];
      assert order == front + [n];
      assert n !in front;
      DistinctCount(front, visited - {n});
    }
  }

  /** `_check_includes`: accepts exactly the documents with at most 100000 reachable nodes whose
      reachable include nodes are all allowed scalars. `order` is the order of its visits: from the root
      on, never twice, down to every item, key and value when it accepts, and up to the offending node
      when it refuses. */
  method CheckIncludes(g: Graph, root: NodeId) returns (ok: bool, ghost order: seq<NodeId>)
    requires Closed(g) && root in g
    ensures ok <==> Accepts(g, root)
    ensures ok ==> forall depth: nat :: IncludesStayInside(g, root, depth)
    ensures Distinct(order) && forall n :: n in order ==> n in Reachable(g, root)
    ensures ok ==> forall n :: n in Reachable(g, root) ==> n in order
    ensures Grown(g, root, order)
    ensures ok ==> Complete(g, root, order) && AllPermitted(g, order) && |order| <= 100000
    ensures !ok ==> order != [] && (|order| == 100001 || !Permitted(g[order[|order| - 1]]))
  {
    order := [];
    var pending: seq<NodeId>, visited: set<NodeId> := [root], {};
    RootIsReachable(g, root);
    while pending != []
      invariant Explored(g, root, visited, pending) && |visited| <= MAX_NODES
      invariant Visits(order, visited) && Grown(g, root, order) && AllFound(g, root, order, pending)
      decreases g.Keys - visited, |pending|
    {
      var node := pending[|pending| - 1];
      if node in visited {
        ExploredSkips(g, root, visited, pending);
        pending := pending[..|pending| - 1];
        continue;
      }
      VisitsMore(order, visited, node);
      assert node in Reachable(g, root);
      GrowsMore(g, root, order, node);
      FoundMore(g, root, order, pending, node);
      order := order + [node];
      if |visited + {node}| > MAX_NODES {
        TooManyNodes(g, root, visited, pending);
        DistinctCount(order, visited + {node});
        return false, order;
      }
      if !Allowed(g[node]) {
        BadNode(g, root, visited, pending);
        AllowedIsPermitted(g[node]);
        return false, order;
      }
      ExploredVisits(g, root, visited, pending);
      pending := pending[..|pending| - 1] + Children(g[node]);
      visited := visited + {node};
    }
    AllVisited(g, root, visited);
    VisitedDocument(g, root, visited, order);
    ok := true;
  }
}

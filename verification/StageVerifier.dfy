/** The recursive walk that verifies a staged tree against its manifest entries. */
module StageVerifier {
  import opened Options
  import opened Separated
  import opened Utf8
  import opened GitTree
  import opened StageTree

  /** File names on disk: not empty, no separator. */
  predicate ProperName(x: Text) {
    x != [] && SLASH !in x
  }

  predicate ProperPlace(p: Place) {
    forall i :: 0 <= i < |p| ==> ProperName(p[i])
  }

  function Parent(p: Place): Place
    requires p != []
  {
    p[..|p| - 1]
  }

  /** A file system below the tree root: every place hangs in a directory. */
  ghost predicate WellFormed(nodes: Nodes) {
    forall p :: p in nodes ==> ProperPlace(p) && (p != [] ==> Parent(p) in nodes && nodes[Parent(p)].Dir?)
  }

  /** The path of a place relative to the tree root, as the walk computes it. */
  function Relative(p: Place): Text {
    if p == [] then [] else Join(p, SLASH)
  }

  lemma {:induction false} JoinIsNotEmpty(p: Place)
    requires p != [] && ProperPlace(p)
    ensures Join(p, SLASH) != []
  {
  }

  lemma RelativeIsInjective(p: Place, q: Place)
    requires ProperPlace(p) && ProperPlace(q)
    ensures Relative(p) == Relative(q) <==> p == q
    ensures p != [] ==> PlaceOf(Relative(p)) == p
  {
    if p != [] { SplitUndoesJoin(p, SLASH); JoinIsNotEmpty(p); }
    if q != [] { SplitUndoesJoin(q, SLASH); JoinIsNotEmpty(q); }
  }

  lemma SafePathIsProper(path: Text)
    requires SafePath(path)
    ensures ProperPlace(PlaceOf(path)) && Relative(PlaceOf(path)) == path
  {
    JoinUndoesSplit(path, SLASH);
  }

  // ---------------------------------------------------------------- the tree a list calls for

  /** What the evidence check demands of a list before the walk: valid entries, strictly sorted by their
      encoded paths. A list with both `a` and `a/b` passes. */
  predicate Evidence(staged: seq<StagedEntry>) {
    && (forall i :: 0 <= i < |staged| ==> ValidEntry(staged[i].entry) && 0 <= staged[i].size)
    && StrictlySorted(EntriesOf(staged))
  }

  ghost predicate DirectoryAt(staged: seq<StagedEntry>, p: Place) {
    p == [] || exists i :: 0 <= i < |staged| && Above(p, PlaceOf(staged[i].entry.path))
  }

  ghost predicate EntryAt(staged: seq<StagedEntry>, p: Place) {
    exists i :: 0 <= i < |staged| && PlaceOf(staged[i].entry.path) == p
  }

  /** The entry's file is there, with its mode and content. */
  predicate HoldsEntry(nodes: Nodes, e: StagedEntry) {
    Lookup(nodes, PlaceOf(e.entry.path)) == Some(File(FileModeOf(e.entry.mode), e.digest.data))
  }

  /** The list calls for the node: a private directory above an entry, or an entry's file. */
  ghost predicate Belongs(staged: seq<StagedEntry>, p: Place, node: Node) {
    match node
    case Dir(private) => private && DirectoryAt(staged, p)
    case File(_, _) => EntryAt(staged, p)
    case Symlink => false
  }

  /** Exactly the files of the list, exactly the directories above them, and nothing else. */
  ghost predicate ExactTree(nodes: Nodes, staged: seq<StagedEntry>) {
    && (forall i :: 0 <= i < |staged| ==> HoldsEntry(nodes, staged[i]))
    && (forall p {:trigger DirectoryAt(staged, p)} :: DirectoryAt(staged, p) ==> Lookup(nodes, p) == Some(Dir(true)))
    && (forall p :: p in nodes ==> Belongs(staged, p, nodes[p]))
  }

  predicate Honest(e: StagedEntry) {
    e.size == |e.digest.data|
  }

  predicate AllHonest(staged: seq<StagedEntry>) {
    forall i :: 0 <= i < |staged| ==> Honest(staged[i])
  }

  lemma EntryPlaceIsProper(staged: seq<StagedEntry>, i: nat)
    requires Evidence(staged) && i < |staged|
    ensures ProperPlace(PlaceOf(staged[i].entry.path)) && Relative(PlaceOf(staged[i].entry.path)) == staged[i].entry.path
  {
    SafePathIsProper(staged[i].entry.path);
  }

  lemma DistinctPaths(staged: seq<StagedEntry>, i: nat, j: nat)
    requires Evidence(staged) && i < j < |staged|
    ensures staged[i].entry.path != staged[j].entry.path
  {
    var es := EntriesOf(staged);
    assert PathLess(es[i].path, es[j].path);
    PathOrderIsTotal(es[i].path, es[j].path);
  }

  lemma SamePlaceSameEntry(staged: seq<StagedEntry>, i: nat, j: nat)
    requires Evidence(staged) && i < |staged| && j < |staged| && PlaceOf(staged[i].entry.path) == PlaceOf(staged[j].entry.path)
    ensures i == j
  {
    PathsDifferAsPlaces(staged[i].entry.path, staged[j].entry.path);
    if i < j { DistinctPaths(staged, i, j); } else if j < i { DistinctPaths(staged, j, i); }
  }

  lemma FrontIsValid(staged: seq<StagedEntry>)
    requires ValidStage(staged) && staged != []
    ensures ValidStage(staged[..|staged| - 1])
    ensures forall i :: 0 <= i < |staged| - 1 ==> Compatible(staged[i].entry.path, staged[|staged| - 1].entry.path)
  {
    var es, front := EntriesOf(staged), EntriesOf(staged[..|staged| - 1]);
    assert front == es[..|es| - 1];
    forall i | 0 <= i < |staged| - 1 ensures Compatible(staged[i].entry.path, staged[|staged| - 1].entry.path) {
      assert Compatible(es[i].path, es[|es| - 1].path);
    }
  }

  lemma {:induction false} FileExpected(staged: seq<StagedEntry>, i: nat)
    requires ValidStage(staged) && i < |staged|
    ensures ExpectedAt(staged, PlaceOf(staged[i].entry.path)) == Some(File(FileModeOf(staged[i].entry.mode), staged[i].digest.data))
    decreases |staged|
  {
    FrontIsValid(staged);
    var n := |staged| - 1;
    if i < n {
      FileExpected(staged[..n], i);
      PathsDifferAsPlaces(staged[i].entry.path, staged[n].entry.path);
      InsideIsAbove(staged[i].entry.path, staged[n].entry.path);
    }
  }

  lemma DirectoryOneMore(staged: seq<StagedEntry>, p: Place)
    requires staged != []
    ensures DirectoryAt(staged, p) <==>
      DirectoryAt(staged[..|staged| - 1], p) || Above(p, PlaceOf(staged[|staged| - 1].entry.path))
  {
    var n := |staged| - 1;
    var front := staged[..n];
    assert forall i :: 0 <= i < n ==> front[i] == staged[i];
    if p != [] && DirectoryAt(front, p) {
      var i :| 0 <= i < n && Above(p, PlaceOf(front[i].entry.path));
      assert Above(p, PlaceOf(staged[i].entry.path));
    }
  }

  /** No other entry lies below an entry's place. */
  lemma NothingBelowEntry(staged: seq<StagedEntry>)
    requires ValidStage(staged) && staged != []
    ensures !DirectoryAt(staged[..|staged| - 1], PlaceOf(staged[|staged| - 1].entry.path))
  {
    FrontIsValid(staged);
    forall i | 0 <= i < |staged| - 1 ensures !Above(PlaceOf(staged[|staged| - 1].entry.path), PlaceOf(staged[i].entry.path)) {
      InsideIsAbove(staged[|staged| - 1].entry.path, staged[i].entry.path);
    }
  }

  /** A directory is expected exactly at the root and above the entries. */
  lemma {:induction false} DirectoryExpected(staged: seq<StagedEntry>, p: Place)
    requires ValidStage(staged)
    ensures ExpectedAt(staged, p) == Some(Dir(true)) <==> DirectoryAt(staged, p)
  {
    if staged != [] {
      FrontIsValid(staged);
      DirectoryExpected(staged[..|staged| - 1], p);
      DirectoryOneMore(staged, p);
      NothingBelowEntry(staged);
    }
  }

  /** Whatever else is expected is an entry's file. */
  lemma {:induction false} OtherwiseFile(staged: seq<StagedEntry>, p: Place) returns (i: nat)
    requires ExpectedAt(staged, p).Some? && ExpectedAt(staged, p) != Some(Dir(true))
    ensures i < |staged| && PlaceOf(staged[i].entry.path) == p
    ensures ExpectedAt(staged, p) == Some(File(FileModeOf(staged[i].entry.mode), staged[i].digest.data))
  {
    i := |staged| - 1;
    if PlaceOf(staged[i].entry.path) != p { i := OtherwiseFile(staged[..i], p); }
  }

  /** For a list without conflicts this is the tree materialising it leaves. */
  lemma ExactTreeIsTreeFor(nodes: Nodes, staged: seq<StagedEntry>)
    requires ValidStage(staged)
    ensures ExactTree(nodes, staged) <==> IsTreeFor(nodes, staged)
  {
    forall i | 0 <= i < |staged|
      ensures ExpectedAt(staged, PlaceOf(staged[i].entry.path)) == Some(File(FileModeOf(staged[i].entry.mode), staged[i].digest.data))
    {
      FileExpected(staged, i);
    }
    if IsTreeFor(nodes, staged) {
      forall p ensures (DirectoryAt(staged, p) ==> Lookup(nodes, p) == Some(Dir(true))) && (p in nodes ==> Belongs(staged, p, nodes[p])) {
        assert Lookup(nodes, p) == ExpectedAt(staged, p);
        DirectoryExpected(staged, p);
        if p in nodes && nodes[p] != Dir(true) { var i := OtherwiseFile(staged, p); }
      }
      forall i | 0 <= i < |staged| ensures HoldsEntry(nodes, staged[i]) {
        assert Lookup(nodes, PlaceOf(staged[i].entry.path)) == ExpectedAt(staged, PlaceOf(staged[i].entry.path));
      }
    }
    if ExactTree(nodes, staged) {
      forall p ensures Lookup(nodes, p) == ExpectedAt(staged, p) {
        ExactNode(nodes, staged, p);
      }
    }
  }

  lemma ExactNode(nodes: Nodes, staged: seq<StagedEntry>, p: Place)
    requires ValidStage(staged) && ExactTree(nodes, staged)
    ensures Lookup(nodes, p) == ExpectedAt(staged, p)
  {
    DirectoryExpected(staged, p);
    if p in nodes && nodes[p].File? {
      assert EntryAt(staged, p);
      var i :| 0 <= i < |staged| && PlaceOf(staged[i].entry.path) == p;
      assert HoldsEntry(nodes, staged[i]);
      FileExpected(staged, i);
    } else {
      forall i | 0 <= i < |staged| ensures PlaceOf(staged[i].entry.path) != p {
        assert HoldsEntry(nodes, staged[i]);
      }
      if ExpectedAt(staged, p).Some? && !DirectoryAt(staged, p) { var i := OtherwiseFile(staged, p); }
    }
  }

  /** No tree matches a list in which one path lies inside another. */
  lemma NoTreeForConflicts(nodes: Nodes, staged: seq<StagedEntry>)
    requires Evidence(staged) && ExactTree(nodes, staged)
    ensures ValidStage(staged)
  {
    var es := EntriesOf(staged);
    forall i, j | 0 <= i < j < |es| ensures Compatible(es[i].path, es[j].path) {
      DistinctPaths(staged, i, j);
      assert HoldsEntry(nodes, staged[i]) && HoldsEntry(nodes, staged[j]);
      InsideIsAbove(es[i].path, es[j].path);
      InsideIsAbove(es[j].path, es[i].path);
      assert !DirectoryAt(staged, PlaceOf(es[i].path)) && !DirectoryAt(staged, PlaceOf(es[j].path));
    }
  }

  // ---------------------------------------------------------------- the expected sets, as text

  /** Some proper prefix of `parts`, of fewer than `k` names, joins to `s`. */
  ghost predicate PrefixText(parts: Place, k: nat, s: Text)
    requires k <= |parts|
  {
    exists j :: 1 <= j < k && s == Join(parts[..j], SLASH)
  }

  lemma PrefixTextOneMore(parts: Place, k: nat, s: Text)
    requires 1 <= k < |parts|
    ensures PrefixText(parts, k + 1, s) <==> PrefixText(parts, k, s) || s == Join(parts[..k], SLASH)
  {
    if PrefixText(parts, k, s) {
      var j :| 1 <= j < k && s == Join(parts[..j], SLASH);
      assert 1 <= j < k + 1;
    }
  }

  ghost predicate DirectoryText(staged: seq<StagedEntry>, n: nat, s: Text)
    requires n <= |staged|
  {
    s == [] || exists i :: 0 <= i < n && PrefixText(PlaceOf(staged[i].entry.path), |PlaceOf(staged[i].entry.path)|, s)
  }

  lemma DirectoryTextOneMore(staged: seq<StagedEntry>, n: nat, s: Text)
    requires n < |staged|
    ensures DirectoryText(staged, n + 1, s) <==>
      DirectoryText(staged, n, s) || PrefixText(PlaceOf(staged[n].entry.path), |PlaceOf(staged[n].entry.path)|, s)
  {
  }

  /** `expected_directories`: the root and every prefix of an entry's parent. */
  method ExpectedDirectories(staged: seq<StagedEntry>) returns (dirs: set<Text>)
    ensures forall s {:trigger DirectoryText(staged, |staged|, s)} :: s in dirs <==> DirectoryText(staged, |staged|, s)
  {
    dirs := {[]};
    for n := 0 to |staged|
      invariant forall s {:trigger DirectoryText(staged, n, s)} :: s in dirs <==> DirectoryText(staged, n, s)
    {
      var parts := PlaceOf(staged[n].entry.path);
      ghost var before := dirs;
      var k := 1;
      while k < |parts|
        invariant 1 <= k <= |parts|
        invariant forall s {:trigger PrefixText(parts, k, s)} :: s in dirs <==> s in before || PrefixText(parts, k, s)
      {
        forall s ensures s in dirs + {Join(parts[..k], SLASH)} <==> s in before || PrefixText(parts, k + 1, s) {
          PrefixTextOneMore(parts, k, s);
        }
        dirs := dirs + {Join(parts[..k], SLASH)};
        k := k + 1;
      }
      forall s ensures s in dirs <==> DirectoryText(staged, n + 1, s) {
        assert s in before <==> DirectoryText(staged, n, s);
        assert s in dirs <==> s in before || PrefixText(parts, k, s);
        DirectoryTextOneMore(staged, n, s);
      }
    }
  }

  lemma ProperPrefix(p: Place, k: nat)
    requires ProperPlace(p) && k <= |p|
    ensures ProperPlace(p[..k])
  {
  }

  /** A prefix of an entry's place is met as text exactly when it is met as a place. */
  lemma PrefixTextMeans(path: Text, p: Place)
    requires SafePath(path) && ProperPlace(p) && p != []
    ensures PrefixText(PlaceOf(path), |PlaceOf(path)|, Relative(p)) <==> Above(p, PlaceOf(path))
  {
    var q := PlaceOf(path);
    SafePathIsProper(path);
    forall k | 1 <= k < |q| ensures Relative(p) == Join(q[..k], SLASH) <==> p == q[..k] {
      ProperPrefix(q, k);
      RelativeIsInjective(p, q[..k]);
    }
    if Above(p, q) { assert p == q[..|p|]; }
  }

  /** The text set answers for places: a directory is expected there. */
  lemma DirectoryTextMeans(staged: seq<StagedEntry>, p: Place)
    requires Evidence(staged) && ProperPlace(p)
    ensures DirectoryText(staged, |staged|, Relative(p)) <==> DirectoryAt(staged, p)
  {
    if p != [] {
      JoinIsNotEmpty(p);
      forall i | 0 <= i < |staged|
        ensures PrefixText(PlaceOf(staged[i].entry.path), |PlaceOf(staged[i].entry.path)|, Relative(p)) <==> Above(p, PlaceOf(staged[i].entry.path))
      {
        PrefixTextMeans(staged[i].entry.path, p);
      }
    }
  }

  /** The dictionary holds each entry under its path, and nothing else. */
  ghost predicate Indexes(expected: map<Text, StagedEntry>, staged: seq<StagedEntry>) {
    && (forall i :: 0 <= i < |staged| ==> staged[i].entry.path in expected && expected[staged[i].entry.path] == staged[i])
    && (forall s :: s in expected ==> exists i :: 0 <= i < |staged| && staged[i].entry.path == s && expected[s] == staged[i])
  }

  /** `{entry.path: entry for entry in entries}`. */
  method EntriesByPath(staged: seq<StagedEntry>) returns (expected: map<Text, StagedEntry>)
    requires Evidence(staged)
    ensures Indexes(expected, staged)
  {
    expected := map[];
    for n := 0 to |staged|
      invariant forall i :: 0 <= i < n ==> staged[i].entry.path in expected && expected[staged[i].entry.path] == staged[i]
      invariant forall s :: s in expected ==> exists i :: 0 <= i < n && staged[i].entry.path == s && expected[s] == staged[i]
    {
      forall i | 0 <= i < n ensures staged[i].entry.path != staged[n].entry.path {
        DistinctPaths(staged, i, n);
      }
      expected := expected[staged[n].entry.path := staged[n]];
    }
  }

  // ---------------------------------------------------------------- checking one node

  /** `_verify_staged_file`: mode, size and digest. */
  predicate FileMatches(node: Node, e: StagedEntry) {
    node.File? && node.mode == FileModeOf(e.entry.mode) && |node.data| == e.size && Sha256(node.data) == e.digest
  }

  /** What the walk demands of one node, in terms of the entries. */
  ghost predicate NodeOk(nodes: Nodes, staged: seq<StagedEntry>, p: Place) {
    p in nodes ==>
      && Belongs(staged, p, nodes[p])
      && (nodes[p].File? ==> exists i :: 0 <= i < |staged| && PlaceOf(staged[i].entry.path) == p && FileMatches(nodes[p], staged[i]))
  }

  lemma DirectoryCheck(nodes: Nodes, staged: seq<StagedEntry>, p: Place)
    requires Evidence(staged) && p in nodes && nodes[p].Dir? && ProperPlace(p)
    ensures NodeOk(nodes, staged, p) <==> DirectoryText(staged, |staged|, Relative(p)) && nodes[p] == Dir(true)
  {
    DirectoryTextMeans(staged, p);
  }

  lemma FileCheck(nodes: Nodes, staged: seq<StagedEntry>, expected: map<Text, StagedEntry>, p: Place)
    requires Evidence(staged) && p in nodes && nodes[p].File? && ProperPlace(p) && p != []
    requires Indexes(expected, staged)
    ensures NodeOk(nodes, staged, p) <==> Relative(p) in expected && FileMatches(nodes[p], expected[Relative(p)])
  {
    RelativeIsInjective(p, p);
    forall i | 0 <= i < |staged| ensures PlaceOf(staged[i].entry.path) == p <==> staged[i].entry.path == Relative(p) {
      PathsDifferAsPlaces(staged[i].entry.path, Relative(p));
    }
    if Relative(p) in expected {
      var i :| 0 <= i < |staged| && staged[i].entry.path == Relative(p) && expected[Relative(p)] == staged[i];
      OneEntryDecides(nodes, staged, p, i);
    }
  }

  lemma OneEntryDecides(nodes: Nodes, staged: seq<StagedEntry>, p: Place, i: nat)
    requires Evidence(staged) && p in nodes && nodes[p].File? && i < |staged| && PlaceOf(staged[i].entry.path) == p
    ensures NodeOk(nodes, staged, p) <==> FileMatches(nodes[p], staged[i])
  {
    forall j | 0 <= j < |staged| && PlaceOf(staged[j].entry.path) == p ensures j == i {
      SamePlaceSameEntry(staged, i, j);
    }
    assert EntryAt(staged, p);
  }

  // ---------------------------------------------------------------- the walk

  /** The names a directory lists. */
  function NamesIn(nodes: Nodes, d: Place): set<Text> {
    set p | p in nodes && |p| == |d| + 1 && p[..|d|] == d :: p[|d|]
  }

  lemma ListedName(nodes: Nodes, d: Place, x: Text)
    ensures x in NamesIn(nodes, d) <==> d + [x] in nodes
  {
    assert (d + [x])[..|d|] == d && (d + [x])[|d|] == x;
    if x in NamesIn(nodes, d) {
      var p :| p in nodes && |p| == |d| + 1 && p[..|d|] == d && p[|d|] == x;
      assert p == d + [x];
    }
  }

  /** Everything directly below `d` has been looked at: directories are queued or visited, files and
      directories are as expected. */
  ghost predicate ChildSeen(nodes: Nodes, staged: seq<StagedEntry>, visited: set<Place>, pending: seq<Place>, d: Place, x: Text) {
    d + [x] in nodes ==>
      if nodes[d + [x]].Dir? then d + [x] in visited || d + [x] in pending
      else NodeOk(nodes, staged, d + [x])
  }

  ghost predicate VisitedOk(nodes: Nodes, staged: seq<StagedEntry>, d: Place) {
    d in nodes && nodes[d].Dir? && NodeOk(nodes, staged, d)
  }

  ghost predicate Walked(nodes: Nodes, staged: seq<StagedEntry>, visited: set<Place>, pending: seq<Place>) {
    && (forall d {:trigger VisitedOk(nodes, staged, d)} :: d in visited ==> VisitedOk(nodes, staged, d))
    && (forall d, x {:trigger ChildSeen(nodes, staged, visited, pending, d, x)} :: d in visited ==> ChildSeen(nodes, staged, visited, pending, d, x))
    && (forall i :: 0 <= i < |pending| ==>
          && pending[i] in nodes && nodes[pending[i]].Dir? && pending[i] !in visited
          && (pending[i] != [] ==> Parent(pending[i]) in visited))
    && (forall i, j :: 0 <= i < j < |pending| ==> pending[i] != pending[j])
    && ([] in visited || [] in pending)
  }

  /** When nothing is pending, the whole tree has been visited and is as expected. */
  lemma {:induction false} WalkCovers(nodes: Nodes, staged: seq<StagedEntry>, visited: set<Place>, p: Place)
    requires WellFormed(nodes) && Walked(nodes, staged, visited, []) && p in nodes
    ensures NodeOk(nodes, staged, p) && (nodes[p].Dir? ==> p in visited)
    decreases |p|
  {
    if p != [] {
      WalkCovers(nodes, staged, visited, Parent(p));
      assert p == Parent(p) + [p[|p| - 1]];
      assert ChildSeen(nodes, staged, visited, [], Parent(p), p[|p| - 1]);
    }
    assert p in visited ==> VisitedOk(nodes, staged, p);
  }

  lemma FaithfulTreePasses(nodes: Nodes, staged: seq<StagedEntry>, p: Place)
    requires ExactTree(nodes, staged) && AllHonest(staged)
    ensures NodeOk(nodes, staged, p)
  {
    if p in nodes && nodes[p].File? {
      assert EntryAt(staged, p);
      var i :| 0 <= i < |staged| && PlaceOf(staged[i].entry.path) == p;
      assert HoldsEntry(nodes, staged[i]) && FileMatches(nodes[p], staged[i]);
    }
  }

  /** The texts the walk collected: relative paths of the visited directories and of the files in them. */
  ghost predicate Collected(nodes: Nodes, visited: set<Place>, actual: set<Text>, actualDirs: set<Text>) {
    && (forall s :: s in actualDirs <==> exists d :: d in visited && s == Relative(d))
    && (forall s :: s in actual <==> exists c :: IsFileIn(nodes, visited, c) && s == Relative(c))
  }

  predicate IsFileIn(nodes: Nodes, visited: set<Place>, c: Place) {
    c in nodes && nodes[c].File? && c != [] && Parent(c) in visited
  }

  /** Every expected file of a complete walk is on disk. */
  lemma ExpectedFilePresent(nodes: Nodes, staged: seq<StagedEntry>, visited: set<Place>, actual: set<Text>, actualDirs: set<Text>, i: nat)
    requires WellFormed(nodes) && Evidence(staged) && i < |staged| && Collected(nodes, visited, actual, actualDirs)
    requires staged[i].entry.path in actual
    ensures PlaceOf(staged[i].entry.path) in nodes && nodes[PlaceOf(staged[i].entry.path)].File?
  {
    var c :| IsFileIn(nodes, visited, c) && staged[i].entry.path == Relative(c);
    RelativeIsInjective(c, c);
  }

  lemma ExpectedDirectoryPresent(nodes: Nodes, staged: seq<StagedEntry>, visited: set<Place>, actual: set<Text>, dirs: set<Text>, p: Place)
    requires WellFormed(nodes) && Evidence(staged) && DirectoryAt(staged, p) && Collected(nodes, visited, actual, dirs)
    requires forall s {:trigger DirectoryText(staged, |staged|, s)} :: s in dirs <==> DirectoryText(staged, |staged|, s)
    requires Walked(nodes, staged, visited, [])
    ensures p in visited && p in nodes
  {
    if p != [] {
      var i :| 0 <= i < |staged| && Above(p, PlaceOf(staged[i].entry.path));
      EntryPlaceIsProper(staged, i);
      assert p == PlaceOf(staged[i].entry.path)[..|p|];
      ProperPrefix(PlaceOf(staged[i].entry.path), |p|);
    }
    DirectoryTextMeans(staged, p);
    assert Relative(p) in dirs;
    var d :| d in visited && Relative(p) == Relative(d);
    assert VisitedOk(nodes, staged, d);
    RelativeIsInjective(p, d);
  }

  /** A complete walk whose two sets are the expected ones saw exactly the tree of the entries. */
  lemma CompleteWalkIsFaithful(nodes: Nodes, staged: seq<StagedEntry>, visited: set<Place>, actual: set<Text>, dirs: set<Text>)
    requires WellFormed(nodes) && Evidence(staged) && Walked(nodes, staged, visited, []) && Collected(nodes, visited, actual, dirs)
    requires forall s {:trigger DirectoryText(staged, |staged|, s)} :: s in dirs <==> DirectoryText(staged, |staged|, s)
    requires forall i :: 0 <= i < |staged| ==> staged[i].entry.path in actual
    ensures ExactTree(nodes, staged) && AllHonest(staged)
  {
    forall i | 0 <= i < |staged| ensures HoldsEntry(nodes, staged[i]) && Honest(staged[i]) {
      ExpectedFilePresent(nodes, staged, visited, actual, dirs, i);
      WalkCovers(nodes, staged, visited, PlaceOf(staged[i].entry.path));
      var j :| 0 <= j < |staged| && PlaceOf(staged[j].entry.path) == PlaceOf(staged[i].entry.path)
               && FileMatches(nodes[PlaceOf(staged[i].entry.path)], staged[j]);
      SamePlaceSameEntry(staged, i, j);
    }
    forall p | DirectoryAt(staged, p) ensures Lookup(nodes, p) == Some(Dir(true)) {
      ExpectedDirectoryPresent(nodes, staged, visited, actual, dirs, p);
      assert VisitedOk(nodes, staged, p);
    }
    forall p | p in nodes ensures Belongs(staged, p, nodes[p]) {
      WalkCovers(nodes, staged, visited, p);
    }
  }

  /** On the tree of the entries a complete walk collects exactly the expected sets. */
  lemma FaithfulWalkCollects(nodes: Nodes, staged: seq<StagedEntry>, visited: set<Place>, actual: set<Text>, dirs: set<Text>, s: Text)
    requires WellFormed(nodes) && Evidence(staged) && Walked(nodes, staged, visited, []) && Collected(nodes, visited, actual, dirs)
    requires ExactTree(nodes, staged)
    ensures s in actual <==> exists i :: 0 <= i < |staged| && staged[i].entry.path == s
    ensures s in dirs <==> DirectoryText(staged, |staged|, s)
  {
    forall i | 0 <= i < |staged| && staged[i].entry.path == s ensures s in actual {
      EntryPlaceIsProper(staged, i);
      assert HoldsEntry(nodes, staged[i]);
      var p := PlaceOf(s);
      WalkCovers(nodes, staged, visited, Parent(p));
      assert IsFileIn(nodes, visited, p);
    }
    if s in actual {
      var c :| IsFileIn(nodes, visited, c) && s == Relative(c);
      WalkCovers(nodes, staged, visited, c);
      var i :| 0 <= i < |staged| && PlaceOf(staged[i].entry.path) == c && FileMatches(nodes[c], staged[i]);
      EntryPlaceIsProper(staged, i);
    }
    FaithfulDirectories(nodes, staged, visited, actual, dirs, s);
  }

  lemma FaithfulDirectories(nodes: Nodes, staged: seq<StagedEntry>, visited: set<Place>, actual: set<Text>, dirs: set<Text>, s: Text)
    requires WellFormed(nodes) && Evidence(staged) && Walked(nodes, staged, visited, []) && Collected(nodes, visited, actual, dirs)
    requires ExactTree(nodes, staged)
    ensures s in dirs <==> DirectoryText(staged, |staged|, s)
  {
    if s in dirs {
      var d :| d in visited && s == Relative(d);
      assert VisitedOk(nodes, staged, d);
      DirectoryTextMeans(staged, d);
    }
    if DirectoryText(staged, |staged|, s) {
      var p := DirectoryPlace(staged, s);
      WalkCovers(nodes, staged, visited, p);
    }
  }

  lemma DirectoryPlace(staged: seq<StagedEntry>, s: Text) returns (p: Place)
    requires Evidence(staged) && DirectoryText(staged, |staged|, s)
    ensures DirectoryAt(staged, p) && Relative(p) == s
  {
    if s == [] { return []; }
    var i :| 0 <= i < |staged| && PrefixText(PlaceOf(staged[i].entry.path), |PlaceOf(staged[i].entry.path)|, s);
    var q := PlaceOf(staged[i].entry.path);
    var k :| 1 <= k < |q| && s == Join(q[..k], SLASH);
    p := q[..k];
    assert Above(p, q);
  }

  /** A name in `d` has been looked at: its directory is queued, or its file is as expected. */
  ghost predicate ChildOk(nodes: Nodes, staged: seq<StagedEntry>, found: seq<Place>, d: Place, x: Text) {
    d + [x] in nodes && if nodes[d + [x]].Dir? then d + [x] in found else nodes[d + [x]].File? && NodeOk(nodes, staged, d + [x])
  }

  /** `s` is the relative path of a file in `d`, under one of the names. */
  ghost predicate FileText(nodes: Nodes, d: Place, names: set<Text>, s: Text) {
    exists x :: x in names && d + [x] in nodes && nodes[d + [x]].File? && s == Relative(d + [x])
  }

  ghost predicate Queued(nodes: Nodes, d: Place, names: set<Text>, c: Place) {
    c in nodes && nodes[c].Dir? && exists x :: x in names && c == d + [x]
  }

  /** The names looked at so far, the file paths collected and the directories queued. */
  ghost predicate Listed(nodes: Nodes, staged: seq<StagedEntry>, d: Place, done: set<Text>, files: set<Text>, found: seq<Place>) {
    && (forall x {:trigger ChildOk(nodes, staged, found, d, x)} :: x in done ==> ChildOk(nodes, staged, found, d, x))
    && (forall i {:trigger Queued(nodes, d, done, found[i])} :: 0 <= i < |found| ==> Queued(nodes, d, done, found[i]))
    && (forall i, j :: 0 <= i < j < |found| ==> found[i] != found[j])
    && (forall s {:trigger FileText(nodes, d, done, s)} :: s in files <==> FileText(nodes, d, done, s))
  }

  lemma FileTextOneMore(nodes: Nodes, d: Place, done: set<Text>, x: Text, s: Text)
    ensures FileText(nodes, d, done + {x}, s) <==> FileText(nodes, d, done, s) || (d + [x] in nodes && nodes[d + [x]].File? && s == Relative(d + [x]))
  {
    if FileText(nodes, d, done, s) {
      var y :| y in done && d + [y] in nodes && nodes[d + [y]].File? && s == Relative(d + [y]);
      assert y in done + {x};
    }
    if d + [x] in nodes && nodes[d + [x]].File? && s == Relative(d + [x]) {
      assert x in done + {x};
    }
  }

  lemma QueuedMore(nodes: Nodes, d: Place, done: set<Text>, x: Text, c: Place)
    requires Queued(nodes, d, done, c)
    ensures Queued(nodes, d, done + {x}, c)
    ensures x !in done ==> c != d + [x]
  {
    var y :| y in done && c == d + [y];
    assert y in done + {x};
    assert (d + [y])[|d|] == y && (d + [x])[|d|] == x;
  }

  lemma ListedDirectory(nodes: Nodes, staged: seq<StagedEntry>, d: Place, done: set<Text>, files: set<Text>, found: seq<Place>, x: Text)
    requires Listed(nodes, staged, d, done, files, found) && x !in done && d + [x] in nodes && nodes[d + [x]].Dir?
    ensures Listed(nodes, staged, d, done + {x}, files, found + [d + [x]])
  {
    var found' := found + [d + [x]];
    forall y | y in done + {x} ensures ChildOk(nodes, staged, found', d, y) {
      if y in done { assert ChildOk(nodes, staged, found, d, y); } else { assert found'[|found|] == d + [x]; }
    }
    forall i | 0 <= i < |found'| ensures Queued(nodes, d, done + {x}, found'[i]) && (i < |found| ==> found'[i] != d + [x]) {
      if i < |found| {
        assert Queued(nodes, d, done, found[i]);
        QueuedMore(nodes, d, done, x, found[i]);
      }
    }
    forall s ensures s in files <==> FileText(nodes, d, done + {x}, s) {
      assert s in files <==> FileText(nodes, d, done, s);
      FileTextOneMore(nodes, d, done, x, s);
    }
  }

  lemma ListedFile(nodes: Nodes, staged: seq<StagedEntry>, d: Place, done: set<Text>, files: set<Text>, found: seq<Place>, x: Text)
    requires Listed(nodes, staged, d, done, files, found) && x !in done && d + [x] in nodes && nodes[d + [x]].File?
    requires NodeOk(nodes, staged, d + [x])
    ensures Listed(nodes, staged, d, done + {x}, files + {Relative(d + [x])}, found)
  {
    forall y | y in done + {x} ensures ChildOk(nodes, staged, found, d, y) {
      if y in done { assert ChildOk(nodes, staged, found, d, y); }
    }
    forall i | 0 <= i < |found| ensures Queued(nodes, d, done + {x}, found[i]) {
      assert Queued(nodes, d, done, found[i]);
      QueuedMore(nodes, d, done, x, found[i]);
    }
    forall s ensures s in files + {Relative(d + [x])} <==> FileText(nodes, d, done + {x}, s) {
      assert s in files <==> FileText(nodes, d, done, s);
      FileTextOneMore(nodes, d, done, x, s);
    }
  }

  /** Look at one name in `d`: queue a directory, check a file, refuse anything else. */
  method CheckChild(nodes: Nodes, ghost staged: seq<StagedEntry>, expected: map<Text, StagedEntry>, d: Place, x: Text,
                    ghost done: set<Text>, files: set<Text>, found: seq<Place>)
    returns (ok: bool, files': set<Text>, found': seq<Place>)
    requires Evidence(staged) && Indexes(expected, staged) && d + [x] in nodes && ProperPlace(d + [x])
    requires Listed(nodes, staged, d, done, files, found) && x !in done
    ensures !ok ==> exists p :: !NodeOk(nodes, staged, p)
    ensures ok ==> Listed(nodes, staged, d, done + {x}, files', found')
  {
    var c := d + [x];
    match nodes[c] {
      case Symlink =>
        assert !NodeOk(nodes, staged, c);
        return false, files, found;
      case Dir(_) =>
        ListedDirectory(nodes, staged, d, done, files, found, x);
        return true, files, found + [c];
      case File(_, _) =>
        FileCheck(nodes, staged, expected, c);
        if Relative(c) !in expected || !FileMatches(nodes[c], expected[Relative(c)]) { return false, files, found; }
        ListedFile(nodes, staged, d, done, files, found, x);
        return true, files + {Relative(c)}, found;
    }
  }

  lemma ListedNothing(nodes: Nodes, staged: seq<StagedEntry>, d: Place)
    ensures Listed(nodes, staged, d, {}, {}, [])
  {
  }

  predicate Lists(nodes: Nodes, d: Place, x: Text) {
    d + [x] in nodes && ProperPlace(d + [x])
  }

  method CheckNames(nodes: Nodes, ghost staged: seq<StagedEntry>, expected: map<Text, StagedEntry>, d: Place, names: set<Text>)
    returns (ok: bool, files: set<Text>, found: seq<Place>)
    requires Evidence(staged) && Indexes(expected, staged)
    requires forall x {:trigger Lists(nodes, d, x)} :: x in names ==> Lists(nodes, d, x)
    ensures !ok ==> exists p :: !NodeOk(nodes, staged, p)
    ensures ok ==> Listed(nodes, staged, d, names, files, found)
  {
    files, found := {}, [];
    var rest := names;
    ListedNothing(nodes, staged, d);
    assert names - rest == {};
    while rest != {}
      invariant rest <= names
      invariant Listed(nodes, staged, d, names - rest, files, found)
      decreases |rest|
    {
      var x :| x in rest;
      assert Lists(nodes, d, x);
      ok, files, found := CheckChild(nodes, staged, expected, d, x, names - rest, files, found);
      if !ok { return; }
      assert names - (rest - {x}) == (names - rest) + {x};
      rest := rest - {x};
    }
    assert names - rest == names;
    ok := true;
  }

  /** Look at everything directly below `d`. */
  method CheckChildren(nodes: Nodes, ghost staged: seq<StagedEntry>, expected: map<Text, StagedEntry>, d: Place)
    returns (ok: bool, files: set<Text>, found: seq<Place>)
    requires WellFormed(nodes) && Evidence(staged) && d in nodes && nodes[d].Dir? && Indexes(expected, staged)
    ensures !ok ==> exists p :: !NodeOk(nodes, staged, p)
    ensures ok ==> Listed(nodes, staged, d, NamesIn(nodes, d), files, found)
  {
    forall x | x in NamesIn(nodes, d) ensures Lists(nodes, d, x) { ListedName(nodes, d, x); }
    ok, files, found := CheckNames(nodes, staged, expected, d, NamesIn(nodes, d));
  }

  lemma WalkOneMore(nodes: Nodes, staged: seq<StagedEntry>, visited: set<Place>, pending: seq<Place>, rest: seq<Place>, d: Place, files: set<Text>, found: seq<Place>)
    requires WellFormed(nodes) && Walked(nodes, staged, visited, pending) && pending == rest + [d] && NodeOk(nodes, staged, d)
    requires Listed(nodes, staged, d, NamesIn(nodes, d), files, found)
    requires forall q :: q in visited && q != [] ==> Parent(q) in visited
    ensures Walked(nodes, staged, visited + {d}, rest + found)
  {
    var visited', pending' := visited + {d}, rest + found;
    assert d in pending && pending[|rest|] == d;
    forall q | q in visited' ensures VisitedOk(nodes, staged, q) {
      assert q in visited ==> VisitedOk(nodes, staged, q);
    }
    forall q, x | q in visited' ensures ChildSeen(nodes, staged, visited', pending', q, x) {
      if q in visited {
        assert ChildSeen(nodes, staged, visited, pending, q, x);
      } else {
        ListedName(nodes, d, x);
        assert d + [x] in nodes ==> ChildOk(nodes, staged, found, d, x);
      }
    }
    forall i | 0 <= i < |found| ensures found[i] in nodes && nodes[found[i]].Dir? && found[i] != [] && Parent(found[i]) == d {
      assert Queued(nodes, d, NamesIn(nodes, d), found[i]);
      var x :| x in NamesIn(nodes, d) && found[i] == d + [x];
      assert (d + [x])[..|d|] == d;
    }
    assert forall i :: 0 <= i < |rest| ==> rest[i] == pending[i];
  }

  lemma CollectedOneMore(nodes: Nodes, staged: seq<StagedEntry>, visited: set<Place>, actual: set<Text>, dirs: set<Text>, d: Place, files: set<Text>, found: seq<Place>)
    requires Collected(nodes, visited, actual, dirs) && Listed(nodes, staged, d, NamesIn(nodes, d), files, found)
    ensures Collected(nodes, visited + {d}, actual + files, dirs + {Relative(d)})
  {
    forall c ensures IsFileIn(nodes, visited + {d}, c) <==> IsFileIn(nodes, visited, c) || IsFileIn(nodes, {d}, c) { }
    forall s ensures s in files <==> exists c :: IsFileIn(nodes, {d}, c) && s == Relative(c) {
      assert s in files <==> FileText(nodes, d, NamesIn(nodes, d), s);
      FileTextMeans(nodes, d, s);
    }
  }

  lemma FileTextMeans(nodes: Nodes, d: Place, s: Text)
    ensures FileText(nodes, d, NamesIn(nodes, d), s) <==> exists c :: IsFileIn(nodes, {d}, c) && s == Relative(c)
  {
    if FileText(nodes, d, NamesIn(nodes, d), s) {
      var x :| x in NamesIn(nodes, d) && d + [x] in nodes && nodes[d + [x]].File? && s == Relative(d + [x]);
      assert Parent(d + [x]) == d && IsFileIn(nodes, {d}, d + [x]);
    }
    if c :| IsFileIn(nodes, {d}, c) && s == Relative(c) {
      assert c == d + [c[|c| - 1]];
      ListedName(nodes, d, c[|c| - 1]);
    }
  }

  /** `_verify_staged_tree`: the walk accepts exactly the tree the entries call for: those files with
      those modes and contents, exactly the directories above them, and nothing else. */
  method VerifyStagedTree(nodes: Nodes, staged: seq<StagedEntry>) returns (ok: bool)
    requires WellFormed(nodes) && Evidence(staged)
    ensures ok <==> ExactTree(nodes, staged) && AllHonest(staged)
  {
    var expected := EntriesByPath(staged);
    var expectedDirs := ExpectedDirectories(staged);
    if [] !in nodes || !nodes[[]].Dir? {
      assert DirectoryAt(staged, []);
      return false;
    }
    var pending: seq<Place>, actual: set<Text>, actualDirs: set<Text> := [[]], {}, {};
    ghost var visited: set<Place> := {};
    while pending != []
      invariant Walked(nodes, staged, visited, pending) && Collected(nodes, visited, actual, actualDirs)
      invariant forall q :: q in visited && q != [] ==> Parent(q) in visited
      decreases nodes.Keys - visited
    {
      var rest, d := pending[..|pending| - 1], pending[|pending| - 1];
      assert pending == rest + [d];
      DirectoryCheck(nodes, staged, d);
      if Relative(d) !in expectedDirs || nodes[d] != Dir(true) {
        assert !DirectoryText(staged, |staged|, Relative(d)) || nodes[d] != Dir(true);
        RejectedWalk(nodes, staged, d);
        return false;
      }
      assert DirectoryText(staged, |staged|, Relative(d));
      var clean, files, found := CheckChildren(nodes, staged, expected, d);
      if !clean {
        ghost var p :| !NodeOk(nodes, staged, p);
        RejectedWalk(nodes, staged, p);
        return false;
      }
      WalkOneMore(nodes, staged, visited, pending, rest, d, files, found);
      CollectedOneMore(nodes, staged, visited, actual, actualDirs, d, files, found);
      pending, actual, actualDirs, visited := rest + found, actual + files, actualDirs + {Relative(d)}, visited + {d};
    }
    ok := actual == expected.Keys && actualDirs == expectedDirs;
    WalkDecides(nodes, staged, expected, expectedDirs, visited, actual, actualDirs);
  }

  lemma RejectedWalk(nodes: Nodes, staged: seq<StagedEntry>, p: Place)
    requires Evidence(staged) && !NodeOk(nodes, staged, p)
    ensures !(ExactTree(nodes, staged) && AllHonest(staged))
  {
    if ExactTree(nodes, staged) && AllHonest(staged) {
      FaithfulTreePasses(nodes, staged, p);
    }
  }

  lemma WalkDecides(nodes: Nodes, staged: seq<StagedEntry>, expected: map<Text, StagedEntry>, expectedDirs: set<Text>,
                    visited: set<Place>, actual: set<Text>, dirs: set<Text>)
    requires WellFormed(nodes) && Evidence(staged) && Walked(nodes, staged, visited, []) && Collected(nodes, visited, actual, dirs)
    requires Indexes(expected, staged)
    requires forall s {:trigger DirectoryText(staged, |staged|, s)} :: s in expectedDirs <==> DirectoryText(staged, |staged|, s)
    ensures actual == expected.Keys && dirs == expectedDirs
            <==> ExactTree(nodes, staged) && AllHonest(staged)
  {
    if actual == expected.Keys && dirs == expectedDirs {
      CompleteWalkIsFaithful(nodes, staged, visited, actual, dirs);
    }
    if ExactTree(nodes, staged) {
      forall s ensures (s in actual <==> s in expected) && (s in dirs <==> s in expectedDirs) {
        FaithfulWalkCollects(nodes, staged, visited, actual, dirs, s);
        assert s in expectedDirs <==> DirectoryText(staged, |staged|, s);
      }
    }
  }

  lemma ExactNodeHangs(nodes: Nodes, staged: seq<StagedEntry>, p: Place, i: nat)
    requires Evidence(staged) && ExactTree(nodes, staged) && i < |staged| && p != []
    requires Above(p, PlaceOf(staged[i].entry.path)) || p == PlaceOf(staged[i].entry.path)
    ensures ProperPlace(p) && Lookup(nodes, Parent(p)) == Some(Dir(true))
  {
    EntryPlaceIsProper(staged, i);
    assert p == PlaceOf(staged[i].entry.path)[..|p|];
    assert Above(Parent(p), PlaceOf(staged[i].entry.path));
    assert DirectoryAt(staged, Parent(p));
  }

  /** A tree that matches a list of valid entries hangs together as a file system. */
  lemma ExactIsWellFormed(nodes: Nodes, staged: seq<StagedEntry>)
    requires Evidence(staged) && ExactTree(nodes, staged)
    ensures WellFormed(nodes)
  {
    forall p | p in nodes && p != [] ensures ProperPlace(p) && Parent(p) in nodes && nodes[Parent(p)].Dir? {
      assert Belongs(staged, p, nodes[p]);
      assert DirectoryAt(staged, p) || EntryAt(staged, p);
      var i :| 0 <= i < |staged| && (Above(p, PlaceOf(staged[i].entry.path)) || p == PlaceOf(staged[i].entry.path));
      ExactNodeHangs(nodes, staged, p, i);
    }
  }

  // ---------------------------------------------------------------- from the Git output to a verified tree

  /** Everything verification asks of a tree: an admissible list, its exact tree, true sizes. */
  ghost predicate Verifies(nodes: Nodes, staged: seq<StagedEntry>) {
    Evidence(staged) && ExactTree(nodes, staged) && AllHonest(staged)
  }

  lemma MaterialisedVerifies(es: seq<Entry>, blobs: map<Bytes, Bytes>, nodes: Nodes)
    requires ValidTree(es) && StrictlySorted(es) && Available(es, blobs) && IsTreeFor(nodes, StagedFrom(es, blobs))
    ensures Verifies(nodes, StagedFrom(es, blobs)) && WellFormed(nodes)
  {
    var staged := StagedFrom(es, blobs);
    forall i | 0 <= i < |staged| ensures ValidEntry(staged[i].entry) && 0 <= staged[i].size && Honest(staged[i]) {
      assert staged[i].entry == es[i];
    }
    ExactTreeIsTreeFor(nodes, staged);
    ExactIsWellFormed(nodes, staged);
  }

  predicate EvidenceUpTo(staged: seq<StagedEntry>, n: nat)
    requires n <= |staged|
  {
    && (forall i :: 0 <= i < n ==> ValidEntry(staged[i].entry) && 0 <= staged[i].size)
    && StrictlySorted(EntriesOf(staged)[..n])
  }

  /** One round: the entry extends the admitted prefix, or the list is refused. */
  lemma EvidenceRound(staged: seq<StagedEntry>, n: nat)
    requires n < |staged| && EvidenceUpTo(staged, n)
    ensures
      if && ValidEntry(staged[n].entry) && 0 <= staged[n].size
         && (n == 0 || PathLess(staged[n - 1].entry.path, staged[n].entry.path))
      then EvidenceUpTo(staged, n + 1)
      else !Evidence(staged)
  {
    var es := EntriesOf(staged);
    assert es[n] == staged[n].entry && (n > 0 ==> es[n - 1] == staged[n - 1].entry);
    if n == 0 || PathLess(es[n - 1].path, es[n].path) {
      SortedOneMore(es, n);
    }
  }

  /** The evidence check as it runs, comparing each path with the one before. */
  method ValidateEvidence(staged: seq<StagedEntry>) returns (ok: bool)
    ensures ok <==> Evidence(staged)
  {
    var previous: Option<Text> := None;
    for n := 0 to |staged|
      invariant previous == if n == 0 then None else Some(staged[n - 1].entry.path)
      invariant EvidenceUpTo(staged, n)
    {
      EvidenceRound(staged, n);
      if !ValidEntry(staged[n].entry) || staged[n].size < 0 { return false; }
      if previous.Some? && !PathLess(previous.value, staged[n].entry.path) { return false; }
      previous := Some(staged[n].entry.path);
    }
    assert EntriesOf(staged)[..|staged|] == EntriesOf(staged);
    ok := true;
  }

  lemma SortedOneMore(es: seq<Entry>, n: nat)
    requires n < |es| && StrictlySorted(es[..n]) && (n > 0 ==> PathLess(es[n - 1].path, es[n].path))
    ensures StrictlySorted(es[..n + 1])
  {
    var front, more := es[..n], es[..n + 1];
    forall i, j | 0 <= i < j < |more| ensures PathLess(more[i].path, more[j].path) {
      if j < n {
        assert PathLess(front[i].path, front[j].path);
      } else if i < n - 1 {
        assert PathLess(front[i].path, front[n - 1].path);
        PathLessIsTransitive(es[i].path, es[n - 1].path, es[n].path);
      }
    }
  }
}

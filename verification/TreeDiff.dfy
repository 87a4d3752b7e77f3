/** The path-level difference of two Git trees, and the checkers that later stages run on it. */
module TreeDiff {
  import opened Options
  import opened JsonText
  import opened Utf8
  import opened GitTree
  import opened TreeRecords

  datatype Status = Added | Deleted | Modified | ModeChanged | ModifiedAndModeChanged | OtherStatus(text: string)

  /** One change as later stages receive it; nothing about its fields is taken for granted. */
  datatype Change = Change(
    path: Text, status: Status,
    baselineMode: Option<Bytes>, baselineId: Option<Bytes>, candidateMode: Option<Bytes>, candidateId: Option<Bytes>)

  /** What a path holds in a tree. */
  datatype Blob = Blob(mode: Mode, objectId: Bytes)

  type Tree = map<Text, Blob>

  function TreeOf(es: seq<Entry>): Tree {
    map p | p in PathSet(es) :: BlobAt(es, p)
  }

  function PathSet(es: seq<Entry>): set<Text> {
    set i | 0 <= i < |es| :: es[i].path
  }

  /** The last entry wins, as when a dictionary is built from the list; paths of a tree are distinct. */
  function BlobAt(es: seq<Entry>, p: Text): Blob
    requires p in PathSet(es)
  {
    if es[|es| - 1].path == p then Blob(es[|es| - 1].mode, es[|es| - 1].objectId) else BlobAt(es[..|es| - 1], p)
  }

  function At(t: Tree, p: Text): Option<Blob> {
    if p in t then Some(t[p]) else None
  }

  // ---------------------------------------------------------------- the difference

  function StatusOf(before: Option<Blob>, after: Option<Blob>): Status
    requires before != after
  {
    if before.None? then Added
    else if after.None? then Deleted
    else if before.value.objectId != after.value.objectId && before.value.mode != after.value.mode then ModifiedAndModeChanged
    else if before.value.objectId != after.value.objectId then Modified
    else ModeChanged
  }

  function ModeField(b: Option<Blob>): Option<Bytes> {
    if b.None? then None else Some(ModeBytes(b.value.mode))
  }

  function IdField(b: Option<Blob>): Option<Bytes> {
    if b.None? then None else Some(b.value.objectId)
  }

  /** The change that takes `before` to `after` at a path. */
  function ChangeAt(p: Text, before: Option<Blob>, after: Option<Blob>): Change
    requires before != after
  {
    Change(p, StatusOf(before, after), ModeField(before), IdField(before), ModeField(after), IdField(after))
  }

  predicate Ordered(cs: seq<Change>) {
    forall i, j :: 0 <= i < j < |cs| ==> PathLess(cs[i].path, cs[j].path)
  }

  /** One of the first `n` changes is about path `p`. */
  ghost predicate Touches(cs: seq<Change>, n: nat, p: Text)
    requires n <= |cs|
  {
    exists i :: 0 <= i < n && cs[i].path == p
  }

  /** The change is the one between the trees at its path, and the trees do differ there. */
  predicate Differs(c: Change, before: Tree, after: Tree) {
    && At(before, c.path) != At(after, c.path)
    && c == ChangeAt(c.path, At(before, c.path), At(after, c.path))
  }

  /** The list consists of exactly the changes between the trees, in strict byte order. */
  ghost predicate IsDiff(cs: seq<Change>, before: Tree, after: Tree) {
    && Ordered(cs)
    && (forall i :: 0 <= i < |cs| ==> Differs(cs[i], before, after))
    && (forall p :: At(before, p) != At(after, p) ==> Touches(cs, |cs|, p))
  }

  // ---------------------------------------------------------------- patching

  function BlobFrom(mode: Option<Bytes>, id: Option<Bytes>): Option<Blob> {
    if mode.Some? && id.Some? && ParseMode(mode.value).Some? then Some(Blob(ParseMode(mode.value).value, id.value)) else None
  }

  function Put(t: Tree, p: Text, b: Option<Blob>): Tree {
    if b.Some? then t[p := b.value] else t - {p}
  }

  function Patch(t: Tree, cs: seq<Change>): Tree {
    if cs == [] then t
    else
      var c := cs[|cs| - 1];
      Put(Patch(t, cs[..|cs| - 1]), c.path, BlobFrom(c.candidateMode, c.candidateId))
  }

  function Reversed(c: Change): Change {
    c.(status := match c.status case Added => Deleted case Deleted => Added case s => s,
       baselineMode := c.candidateMode, baselineId := c.candidateId, candidateMode := c.baselineMode, candidateId := c.baselineId)
  }

  function ReversedAll(cs: seq<Change>): (rs: seq<Change>)
    ensures |rs| == |cs| && forall i :: 0 <= i < |cs| ==> rs[i] == Reversed(cs[i])
  {
    seq(|cs|, i requires 0 <= i < |cs| => Reversed(cs[i]))
  }

  lemma FieldsRoundTrip(b: Option<Blob>)
    ensures BlobFrom(ModeField(b), IdField(b)) == b
  {
  }

  lemma TouchesOneMore(cs: seq<Change>, n: nat, p: Text)
    requires n < |cs|
    ensures Touches(cs, n + 1, p) <==> Touches(cs, n, p) || cs[n].path == p
  {
    if Touches(cs, n, p) {
      var i :| 0 <= i < n && cs[i].path == p;
      assert 0 <= i < n + 1;
    }
  }

  /** After any prefix of a difference, the paths listed so far are as in `after`, the rest as before. */
  lemma {:induction false} PatchedSoFar(before: Tree, after: Tree, cs: seq<Change>, n: nat, p: Text)
    requires IsDiff(cs, before, after) && n <= |cs|
    ensures At(Patch(before, cs[..n]), p) == if Touches(cs, n, p) then At(after, p) else At(before, p)
    decreases n
  {
    if n > 0 {
      var c := cs[n - 1];
      assert cs[..n][..n - 1] == cs[..n - 1];
      PatchedSoFar(before, after, cs, n - 1, p);
      TouchesOneMore(cs, n - 1, p);
      assert Differs(c, before, after);
      FieldsRoundTrip(At(after, c.path));
    }
  }

  /** Patching the baseline with the difference gives the candidate. */
  lemma PatchGivesCandidate(before: Tree, after: Tree, cs: seq<Change>)
    requires IsDiff(cs, before, after)
    ensures Patch(before, cs) == after
  {
    assert cs[..|cs|] == cs;
    forall p ensures At(Patch(before, cs), p) == At(after, p) {
      PatchedSoFar(before, after, cs, |cs|, p);
    }
    SameLookups(Patch(before, cs), after);
  }

  lemma SameLookups(a: Tree, b: Tree)
    requires forall p :: At(a, p) == At(b, p)
    ensures a == b
  {
    forall p ensures p in a <==> p in b { assert At(a, p) == At(b, p); }
    forall p | p in a ensures a[p] == b[p] { assert At(a, p) == At(b, p); }
  }

  lemma ReverseIsDiff(before: Tree, after: Tree, cs: seq<Change>)
    requires IsDiff(cs, before, after)
    ensures IsDiff(ReversedAll(cs), after, before)
  {
    var rs := ReversedAll(cs);
    forall i | 0 <= i < |rs| ensures Differs(rs[i], after, before) {
      assert Differs(cs[i], before, after);
    }
    forall p | At(after, p) != At(before, p) ensures Touches(rs, |rs|, p) {
      assert Touches(cs, |cs|, p);
      var i :| 0 <= i < |cs| && cs[i].path == p;
      assert rs[i].path == p;
    }
  }

  /** Reversing the difference and patching gives the baseline back. */
  lemma ReverseGivesBaseline(before: Tree, after: Tree, cs: seq<Change>)
    requires IsDiff(cs, before, after)
    ensures Patch(after, ReversedAll(cs)) == before
  {
    ReverseIsDiff(before, after, cs);
    PatchGivesCandidate(after, before, ReversedAll(cs));
  }

  // ---------------------------------------------------------------- change shapes

  predicate ModeAllowed(m: Option<Bytes>) {
    m.Some? ==> ParseMode(m.value).Some?
  }

  predicate IdAllowed(id: Option<Bytes>) {
    id.Some? ==> ValidObjectId(id.value)
  }

  /** `_validate_change_shape`. */
  predicate ShapeValid(c: Change) {
    var before := c.baselineMode.Some? || c.baselineId.Some?;
    var after := c.candidateMode.Some? || c.candidateId.Some?;
    var content := before && after && c.baselineId != c.candidateId;
    var mode := before && after && c.baselineMode != c.candidateMode;
    && !c.status.OtherStatus?
    && before == (c.baselineMode.Some? && c.baselineId.Some?)
    && after == (c.candidateMode.Some? && c.candidateId.Some?)
    && ModeAllowed(c.baselineMode) && ModeAllowed(c.candidateMode) && IdAllowed(c.baselineId) && IdAllowed(c.candidateId)
    && match c.status
       case Added => !before && after
       case Deleted => before && !after
       case Modified => before && after && content && !mode
       case ModeChanged => before && after && !content && mode
       case ModifiedAndModeChanged => before && after && content && mode
       case OtherStatus(_) => false
  }

  /** One side of a change: a mode of the two there are, and an object id. */
  predicate Side(mode: Option<Bytes>, id: Option<Bytes>) {
    && (mode == Some([49, 48, 48, 54, 52, 52]) || mode == Some([49, 48, 48, 55, 53, 53]))
    && id.Some? && AllowedId(id.value)
  }

  predicate NoSide(mode: Option<Bytes>, id: Option<Bytes>) {
    mode == None && id == None
  }

  /** The shapes by name: which sides each status needs, and what may differ between them. */
  lemma ShapeByStatus(c: Change)
    ensures ShapeValid(c) <==>
      match c.status
      case Added => NoSide(c.baselineMode, c.baselineId) && Side(c.candidateMode, c.candidateId)
      case Deleted => Side(c.baselineMode, c.baselineId) && NoSide(c.candidateMode, c.candidateId)
      case Modified =>
        && Side(c.baselineMode, c.baselineId) && Side(c.candidateMode, c.candidateId)
        && c.baselineMode == c.candidateMode && c.baselineId != c.candidateId
      case ModeChanged =>
        && Side(c.baselineMode, c.baselineId) && Side(c.candidateMode, c.candidateId)
        && c.baselineMode != c.candidateMode && c.baselineId == c.candidateId
      case ModifiedAndModeChanged =>
        && Side(c.baselineMode, c.baselineId) && Side(c.candidateMode, c.candidateId)
        && c.baselineMode != c.candidateMode && c.baselineId != c.candidateId
      case OtherStatus(_) => false
  {
    forall id: Bytes ensures ValidObjectId(id) <==> AllowedId(id) { }
  }

  /** The change states what its path holds in both trees. */
  predicate Consistent(c: Change, before: Tree, after: Tree) {
    && c.baselineMode == ModeField(At(before, c.path)) && c.baselineId == IdField(At(before, c.path))
    && c.candidateMode == ModeField(At(after, c.path)) && c.candidateId == IdField(At(after, c.path))
  }

  predicate ValidBlobs(t: Tree) {
    forall p :: p in t ==> SafePath(p) && ValidObjectId(t[p].objectId)
  }

  lemma ModeBytesInjective(a: Mode, b: Mode)
    requires ModeBytes(a) == ModeBytes(b)
    ensures a == b
  {
    assert ModeBytes(Plain)[3] != ModeBytes(Executable)[3];
  }

  lemma FieldsDetermineBlob(a: Option<Blob>, b: Option<Blob>)
    ensures ModeField(a) == ModeField(b) && IdField(a) == IdField(b) <==> a == b
  {
    FieldsRoundTrip(a);
    FieldsRoundTrip(b);
  }

  /** A consistent change is shape-valid exactly when it is the change between the two trees there. */
  lemma ConsistentShape(c: Change, before: Tree, after: Tree)
    requires Consistent(c, before, after) && ValidBlobs(before) && ValidBlobs(after)
    ensures ShapeValid(c) <==> At(before, c.path) != At(after, c.path) && c == ChangeAt(c.path, At(before, c.path), At(after, c.path))
  {
    var a, b := At(before, c.path), At(after, c.path);
    FieldsDetermineBlob(a, b);
    if a.Some? && b.Some? && ModeBytes(a.value.mode) == ModeBytes(b.value.mode) {
      ModeBytesInjective(a.value.mode, b.value.mode);
    }
  }

  ghost predicate SameMembers(a: seq<Change>, b: seq<Change>) {
    forall c :: c in a <==> c in b
  }

  lemma BothEmptyOrNeither(a: seq<Change>, b: seq<Change>)
    requires SameMembers(a, b)
    ensures a == [] <==> b == []
  {
    if a != [] { assert a[0] in b; }
    if b != [] { assert b[0] in a; }
  }

  lemma HeadsAgree(a: seq<Change>, b: seq<Change>)
    requires Ordered(a) && Ordered(b) && a != [] && b != [] && SameMembers(a, b)
    ensures a[0] == b[0]
  {
    assert a[0] in a && b[0] in b;
    var j :| 0 <= j < |b| && b[j] == a[0];
    var i :| 0 <= i < |a| && a[i] == b[0];
    if i > 0 && j > 0 {
      assert PathLess(a[0].path, a[i].path) && PathLess(b[0].path, b[j].path);
      PathOrderIsTotal(a[0].path, b[0].path);
    }
  }

  lemma HeadNotInTail(a: seq<Change>)
    requires Ordered(a) && a != []
    ensures a[0] !in a[1..] && Ordered(a[1..]) && forall c :: c in a <==> c == a[0] || c in a[1..]
  {
    forall i | 0 <= i < |a[1..]| ensures a[1..][i] != a[0] {
      PathOrderIsTotal(a[0].path, a[i + 1].path);
    }
    assert a == [a[0]] + a[1..];
  }

  lemma {:induction false} SameMembersSameList(a: seq<Change>, b: seq<Change>)
    requires Ordered(a) && Ordered(b) && SameMembers(a, b)
    ensures a == b
  {
    BothEmptyOrNeither(a, b);
    if a != [] {
      HeadsAgree(a, b);
      HeadNotInTail(a);
      HeadNotInTail(b);
      SameMembersSameList(a[1..], b[1..]);
      assert a == [a[0]] + a[1..] && b == [b[0]] + b[1..];
    }
  }

  /** The difference is canonical: it is the only strictly byte-ordered, shape-valid list of changes
      consistent with both trees that covers every path where they differ. */
  lemma DiffIsUnique(before: Tree, after: Tree, cs: seq<Change>, others: seq<Change>)
    requires ValidBlobs(before) && ValidBlobs(after) && IsDiff(cs, before, after)
    requires Ordered(others) && forall i :: 0 <= i < |others| ==> ShapeValid(others[i]) && Consistent(others[i], before, after)
    requires forall p :: At(before, p) != At(after, p) ==> Touches(others, |others|, p)
    ensures others == cs
  {
    forall i | 0 <= i < |others| ensures others[i] in cs {
      ConsistentShape(others[i], before, after);
      assert Touches(cs, |cs|, others[i].path);
      var j :| 0 <= j < |cs| && cs[j].path == others[i].path;
      assert Differs(cs[j], before, after) && cs[j] == others[i];
    }
    forall j | 0 <= j < |cs| ensures cs[j] in others {
      assert Differs(cs[j], before, after) && Touches(others, |others|, cs[j].path);
      var i :| 0 <= i < |others| && others[i].path == cs[j].path;
      ConsistentShape(others[i], before, after);
      assert others[i] == cs[j];
    }
    SameMembersSameList(others, cs);
  }

  // ---------------------------------------------------------------- the checkers

  const MAX_CHANGES: nat := 4096
  const MAX_CHANGES_BYTES: nat := 4 * 1024 * 1024

  /** What the integrity checker accepts: canonical order, safe paths, valid shapes, and every
      candidate side found in the stage. It says nothing about deleted paths in the stage. */
  predicate IntegrityAdmits(cs: seq<Change>, stage: Tree) {
    Ordered(cs) && WellShapedUpTo(cs, |cs|) && forall i :: 0 <= i < |cs| ==> StageAgrees(cs[i], stage)
  }

  predicate WellShaped(cs: seq<Change>, i: nat)
    requires i < |cs|
  {
    SafePath(cs[i].path) && ShapeValid(cs[i])
  }

  predicate WellShapedUpTo(cs: seq<Change>, n: nat)
    requires n <= |cs|
  {
    forall i {:trigger WellShaped(cs, i)} :: 0 <= i < n ==> WellShaped(cs, i)
  }

  predicate StageAgrees(c: Change, stage: Tree) {
    c.candidateId.Some? ==>
      c.path in stage && c.candidateMode == Some(ModeBytes(stage[c.path].mode)) && c.candidateId == Some(stage[c.path].objectId)
  }

  function StatusText(s: Status): string {
    match s
    case Added => "added"
    case Deleted => "deleted"
    case Modified => "modified"
    case ModeChanged => "mode_changed"
    case ModifiedAndModeChanged => "modified_and_mode_changed"
    case OtherStatus(text) => text
  }

  /** `null`, or a string in quotes. */
  function OptionalLength(b: Option<Bytes>): nat {
    if b.None? then 4 else 2 + TextLength(b.value)
  }

  const CHANGE_FRAME: string :=
    "{\"baseline_mode\":,\"baseline_object_id\":,\"candidate_mode\":,\"candidate_object_id\":,\"path\":\"\",\"status\":\"\"}"

  function ChangeLength(c: Change): nat {
    |CHANGE_FRAME| + OptionalLength(c.baselineMode) + OptionalLength(c.baselineId) + OptionalLength(c.candidateMode)
    + OptionalLength(c.candidateId) + TextLength(c.path) + TextLength(Codes(StatusText(c.status)))
  }

  function ItemsLength(cs: seq<Change>): nat {
    if cs == [] then 0
    else ItemsLength(cs[..|cs| - 1]) + (if |cs| > 1 then 1 else 0) + ChangeLength(cs[|cs| - 1])
  }

  /** The length of the canonical JSON text of a change list, a list of objects in brackets. */
  function EncodedLength(cs: seq<Change>): nat {
    2 + ItemsLength(cs)
  }

  predicate CheckpointAdmits(cs: seq<Change>) {
    && |cs| <= MAX_CHANGES && EncodedLength(cs) <= MAX_CHANGES_BYTES
    && Ordered(cs) && WellShapedUpTo(cs, |cs|)
  }

  /** `tuple(sorted(set(paths))) == paths`, in the order of Python strings. */
  predicate TextSorted(paths: seq<Text>) {
    forall i, j :: 0 <= i < j < |paths| ==> Less(paths[i], paths[j])
  }

  function ChangedPaths(cs: seq<Change>): (ps: seq<Text>)
    ensures |ps| == |cs| && forall i :: 0 <= i < |cs| ==> ps[i] == cs[i].path
  {
    seq(|cs|, i requires 0 <= i < |cs| => cs[i].path)
  }

  /** Byte order and text order of the changed paths are the same requirement. */
  lemma OrderedIsTextSorted(cs: seq<Change>)
    ensures Ordered(cs) <==> TextSorted(ChangedPaths(cs))
  {
    forall i, j | 0 <= i < j < |cs| ensures PathLess(cs[i].path, cs[j].path) <==> Less(ChangedPaths(cs)[i], ChangedPaths(cs)[j]) {
      ByteOrderIsTextOrder(cs[i].path, cs[j].path);
    }
    if TextSorted(ChangedPaths(cs)) {
      forall i, j | 0 <= i < j < |cs| ensures PathLess(cs[i].path, cs[j].path) {
        assert Less(ChangedPaths(cs)[i], ChangedPaths(cs)[j]);
      }
    }
  }

  /** Every later checker accepts the difference of two parsed trees: integrity against a stage that
      is the candidate tree, dependencies whatever the paths, and the checkpoint within its caps. */
  lemma EveryCheckerAccepts(before: Tree, after: Tree, cs: seq<Change>)
    requires ValidBlobs(before) && ValidBlobs(after) && IsDiff(cs, before, after)
    ensures IntegrityAdmits(cs, after)
    ensures TextSorted(ChangedPaths(cs))
    ensures CheckpointAdmits(cs) <==> |cs| <= MAX_CHANGES && EncodedLength(cs) <= MAX_CHANGES_BYTES
  {
    forall i | 0 <= i < |cs| ensures WellShaped(cs, i) && StageAgrees(cs[i], after) {
      var p := cs[i].path;
      assert Differs(cs[i], before, after);
      assert p in before || p in after;
      ConsistentShape(cs[i], before, after);
    }
    OrderedIsTextSorted(cs);
  }

  /** What acceptance by the integrity checker does give: on every listed path the patched baseline
      agrees with the stage, except where the change deletes a path the stage still holds. */
  lemma {:induction false} AcceptedPatchAgrees(base: Tree, stage: Tree, cs: seq<Change>, i: nat)
    requires IntegrityAdmits(cs, stage) && i < |cs|
    ensures At(Patch(base, cs), cs[i].path) == At(stage, cs[i].path) <==> !(cs[i].status == Deleted && cs[i].path in stage)
    decreases |cs|
  {
    var front, last := cs[..|cs| - 1], cs[|cs| - 1];
    FieldsRoundTrip(At(stage, last.path));
    assert WellShaped(cs, i);
    if i < |cs| - 1 {
      forall k | 0 <= k < |front| ensures WellShaped(front, k) { assert WellShaped(cs, k); }
      PathOrderIsTotal(cs[i].path, last.path);
      AcceptedPatchAgrees(base, stage, front, i);
    }
  }

  /** The integrity checker accepts a deletion of a path that is still staged. */
  lemma DeletedPathMayBeStaged(p: Text, b: Blob)
    requires SafePath(p) && ValidObjectId(b.objectId)
    ensures
      var cs := [ChangeAt(p, Some(b), None)];
      IntegrityAdmits(cs, map[p := b]) && cs[0].status == Deleted && p in map[p := b] && Patch(map[p := b], cs) != map[p := b]
  {
    var stage := map[p := b];
    var cs := [ChangeAt(p, Some(b), None)];
    ConsistentShape(cs[0], stage, map[]);
    assert WellShaped(cs, 0);
    assert p !in Patch(stage, cs);
  }

  // ---------------------------------------------------------------- as they run

  lemma {:induction false} BlobOfEntry(es: seq<Entry>, i: nat)
    requires i < |es| && forall j :: i < j < |es| ==> es[j].path != es[i].path
    ensures es[i].path in PathSet(es) && BlobAt(es, es[i].path) == Blob(es[i].mode, es[i].objectId)
    decreases |es|
  {
    if i < |es| - 1 {
      BlobOfEntry(es[..|es| - 1], i);
    }
  }

  /** A tree parsed from Git holds, at each path, what its one entry says. */
  lemma TreeHoldsEntries(es: seq<Entry>)
    requires ValidTree(es)
    ensures ValidBlobs(TreeOf(es))
    ensures forall i :: 0 <= i < |es| ==> At(TreeOf(es), es[i].path) == Some(Blob(es[i].mode, es[i].objectId))
  {
    forall i | 0 <= i < |es| ensures At(TreeOf(es), es[i].path) == Some(Blob(es[i].mode, es[i].objectId)) {
      BlobOfEntry(es, i);
    }
    forall p | p in TreeOf(es) ensures SafePath(p) && ValidObjectId(TreeOf(es)[p].objectId) {
      var i :| 0 <= i < |es| && es[i].path == p;
      assert At(TreeOf(es), p) == Some(Blob(es[i].mode, es[i].objectId));
    }
  }

  /** The dictionary of a tree by path, built entry by entry. */
  method ByPath(es: seq<Entry>) returns (t: Tree)
    ensures t == TreeOf(es)
  {
    t := map[];
    for n := 0 to |es|
      invariant t == TreeOf(es[..n])
    {
      assert es[..n + 1][..n] == es[..n];
      t := t[es[n].path := Blob(es[n].mode, es[n].objectId)];
    }
    assert es[..|es|] == es;
  }

  /** `sorted(paths, key=encode)`: every path once, in strict byte order. */
  method SortedPaths(paths: set<Text>) returns (sorted: seq<Text>)
    ensures PathsSorted(sorted)
    ensures forall p :: p in paths <==> p in sorted
  {
    sorted := [];
    var rest := paths;
    while rest != {}
      invariant rest <= paths
      invariant PathsSorted(sorted)
      invariant forall p :: p in paths <==> p in sorted || p in rest
      invariant forall p, q :: p in sorted && q in rest ==> PathLess(p, q)
      decreases |rest|
    {
      var least := LeastPath(rest);
      sorted := sorted + [least];
      rest := rest - {least};
    }
  }

  method LeastPath(paths: set<Text>) returns (least: Text)
    requires paths != {}
    ensures least in paths && forall p :: p in paths && p != least ==> PathLess(least, p)
  {
    least :| least in paths;
    var rest := paths - {least};
    while rest != {}
      invariant rest <= paths && least in paths && least !in rest
      invariant forall p :: p in paths && p !in rest && p != least ==> PathLess(least, p)
      decreases |rest|
    {
      var p :| p in rest;
      PathOrderIsTotal(p, least);
      if PathLess(p, least) {
        forall q | q in paths && q !in rest && q != least ensures PathLess(p, q) {
          LessIsTransitive(Encode(p), Encode(least), Encode(q));
        }
        least := p;
      }
      rest := rest - {p};
    }
  }

  predicate PathsSorted(paths: seq<Text>) {
    forall i, j :: 0 <= i < j < |paths| ==> PathLess(paths[i], paths[j])
  }

  /** The changes found on the first `n` paths. */
  ghost predicate BuiltSoFar(cs: seq<Change>, before: Tree, after: Tree, paths: seq<Text>, n: nat)
    requires n <= |paths|
  {
    && Ordered(cs)
    && (forall i :: 0 <= i < |cs| ==> Differs(cs[i], before, after))
    && (forall i :: 0 <= i < |cs| ==> cs[i].path in paths[..n])
    && (forall k :: 0 <= k < n && At(before, paths[k]) != At(after, paths[k]) ==> Touches(cs, |cs|, paths[k]))
  }

  lemma EarlierPath(paths: seq<Text>, n: nat, p: Text)
    requires n < |paths| && p in paths[..n]
    ensures p in paths[..n + 1] && (PathsSorted(paths) ==> PathLess(p, paths[n]))
  {
    assert paths[..n + 1] == paths[..n] + [paths[n]];
    var k :| 0 <= k < n && paths[..n][k] == p;
    assert paths[k] == p;
  }

  lemma BuildsOn(cs: seq<Change>, before: Tree, after: Tree, paths: seq<Text>, n: nat)
    requires n < |paths| && PathsSorted(paths) && BuiltSoFar(cs, before, after, paths, n)
    requires At(before, paths[n]) != At(after, paths[n])
    ensures BuiltSoFar(cs + [ChangeAt(paths[n], At(before, paths[n]), At(after, paths[n]))], before, after, paths, n + 1)
  {
    var c := ChangeAt(paths[n], At(before, paths[n]), At(after, paths[n]));
    forall i | 0 <= i < |cs| ensures PathLess(cs[i].path, c.path) && cs[i].path in paths[..n + 1] {
      EarlierPath(paths, n, cs[i].path);
    }
    assert paths[..n + 1][n] == c.path;
    KeepsTouching(cs, c);
  }

  lemma BuildsPast(cs: seq<Change>, before: Tree, after: Tree, paths: seq<Text>, n: nat)
    requires n < |paths| && BuiltSoFar(cs, before, after, paths, n) && At(before, paths[n]) == At(after, paths[n])
    ensures BuiltSoFar(cs, before, after, paths, n + 1)
  {
    forall i | 0 <= i < |cs| ensures cs[i].path in paths[..n + 1] {
      EarlierPath(paths, n, cs[i].path);
    }
  }

  lemma BuiltIsDiff(cs: seq<Change>, before: Tree, after: Tree, paths: seq<Text>)
    requires BuiltSoFar(cs, before, after, paths, |paths|)
    requires forall p :: p in before.Keys + after.Keys <==> p in paths
    ensures IsDiff(cs, before, after)
  {
    forall p | At(before, p) != At(after, p) ensures Touches(cs, |cs|, p) {
      assert p in before.Keys + after.Keys;
      assert p in paths;
    }
  }

  /** `_build_changes`. */
  method BuildChanges(baseline: seq<Entry>, candidate: seq<Entry>) returns (changes: seq<Change>)
    ensures IsDiff(changes, TreeOf(baseline), TreeOf(candidate))
  {
    var before := ByPath(baseline);
    var after := ByPath(candidate);
    var paths := SortedPaths(before.Keys + after.Keys);
    changes := [];
    for n := 0 to |paths|
      invariant BuiltSoFar(changes, before, after, paths, n)
    {
      var last, next := At(before, paths[n]), At(after, paths[n]);
      if last == next {
        BuildsPast(changes, before, after, paths, n);
        continue;
      }
      BuildsOn(changes, before, after, paths, n);
      changes := changes + [ChangeAt(paths[n], last, next)];
    }
    BuiltIsDiff(changes, before, after, paths);
  }

  lemma KeepsTouching(cs: seq<Change>, c: Change)
    ensures Touches(cs + [c], |cs| + 1, c.path)
    ensures forall p :: Touches(cs, |cs|, p) ==> Touches(cs + [c], |cs| + 1, p)
  {
    assert (cs + [c])[|cs|] == c;
    forall p | Touches(cs, |cs|, p) ensures Touches(cs + [c], |cs| + 1, p) {
      var i :| 0 <= i < |cs| && cs[i].path == p;
      assert (cs + [c])[i].path == p;
    }
  }

  lemma BeyondAllBefore(cs: seq<Change>, n: nat, i: nat)
    requires i < n < |cs| && Ordered(cs[..n]) && PathLess(cs[n - 1].path, cs[n].path)
    ensures PathLess(cs[i].path, cs[n].path)
  {
    var front := cs[..n];
    if i < n - 1 {
      assert PathLess(front[i].path, front[n - 1].path);
      PathLessIsTransitive(cs[i].path, cs[n - 1].path, cs[n].path);
    }
  }

  /** A strictly growing chain of neighbours is strictly ordered throughout. */
  lemma NeighboursOrder(cs: seq<Change>, n: nat)
    requires n < |cs| && Ordered(cs[..n]) && (n > 0 ==> PathLess(cs[n - 1].path, cs[n].path))
    ensures Ordered(cs[..n + 1])
  {
    var front, more := cs[..n], cs[..n + 1];
    forall i, j | 0 <= i < j < |more| ensures PathLess(more[i].path, more[j].path) {
      if j < n { assert PathLess(front[i].path, front[j].path); } else { BeyondAllBefore(cs, n, i); }
    }
  }

  /** `_validate_result`: known statuses, each path beyond the previous one. */
  method ValidateResult(cs: seq<Change>) returns (ok: bool)
    ensures ok <==> Ordered(cs) && forall i :: 0 <= i < |cs| ==> !cs[i].status.OtherStatus?
  {
    var previous: Option<Text> := None;
    for n := 0 to |cs|
      invariant previous == if n == 0 then None else Some(cs[n - 1].path)
      invariant Ordered(cs[..n]) && forall i :: 0 <= i < n ==> !cs[i].status.OtherStatus?
    {
      if cs[n].status.OtherStatus? { return false; }
      if previous.Some? && !PathLess(previous.value, cs[n].path) {
        BrokenNeighbours(cs, n);
        return false;
      }
      NeighboursOrder(cs, n);
      previous := Some(cs[n].path);
    }
    assert cs[..|cs|] == cs;
    return true;
  }

  ghost predicate SeenUpTo(seen: set<Text>, cs: seq<Change>, n: nat)
    requires n <= |cs|
  {
    forall p {:trigger Touches(cs, n, p)} :: p in seen <==> Touches(cs, n, p)
  }

  /** A path met again is not beyond the last one. */
  lemma SeenOneMore(seen: set<Text>, cs: seq<Change>, n: nat)
    requires n < |cs| && Ordered(cs[..n]) && SeenUpTo(seen, cs, n)
    ensures SeenUpTo(seen + {cs[n].path}, cs, n + 1)
    ensures cs[n].path in seen ==> n > 0 && !PathLess(cs[n - 1].path, cs[n].path)
  {
    var path := cs[n].path;
    forall p ensures p in seen + {path} <==> Touches(cs, n + 1, p) { TouchesOneMore(cs, n, p); }
    if path in seen {
      assert Touches(cs, n, path);
      var i :| 0 <= i < n && cs[i].path == path;
      PathOrderIsTotal(cs[n - 1].path, path);
      assert i < n - 1 ==> PathLess(cs[..n][i].path, cs[..n][n - 1].path);
    }
  }

  lemma BrokenNeighbours(cs: seq<Change>, n: nat)
    requires 0 < n < |cs| && !PathLess(cs[n - 1].path, cs[n].path)
    ensures !Ordered(cs)
  {
  }

  /** `_validate_changes` of the integrity check, in its order of checks. */
  method ValidateAgainstStage(cs: seq<Change>, stage: seq<Entry>) returns (ok: bool)
    ensures ok <==> IntegrityAdmits(cs, TreeOf(stage))
  {
    var staged := ByPath(stage);
    ok := ValidateAgainstTree(cs, staged);
  }

  ghost predicate AdmittedUpTo(cs: seq<Change>, stage: Tree, n: nat)
    requires n <= |cs|
  {
    Ordered(cs[..n]) && WellShapedUpTo(cs, n) && forall i :: 0 <= i < n ==> StageAgrees(cs[i], stage)
  }

  /** One round: the change extends the admitted prefix, or the whole list is inadmissible. */
  lemma StageRound(cs: seq<Change>, stage: Tree, n: nat)
    requires n < |cs| && AdmittedUpTo(cs, stage, n)
    ensures
      if SafePath(cs[n].path) && (n == 0 || PathLess(cs[n - 1].path, cs[n].path)) && ShapeValid(cs[n]) && StageAgrees(cs[n], stage)
      then AdmittedUpTo(cs, stage, n + 1)
      else !IntegrityAdmits(cs, stage)
  {
    assert WellShaped(cs, n) <==> SafePath(cs[n].path) && ShapeValid(cs[n]);
    if n == 0 || PathLess(cs[n - 1].path, cs[n].path) {
      NeighboursOrder(cs, n);
    } else {
      BrokenNeighbours(cs, n);
    }
  }

  method ValidateAgainstTree(cs: seq<Change>, staged: Tree) returns (ok: bool)
    ensures ok <==> IntegrityAdmits(cs, staged)
  {
    var previous: Option<Text>, seen: set<Text> := None, {};
    for n := 0 to |cs|
      invariant previous == if n == 0 then None else Some(cs[n - 1].path)
      invariant SeenUpTo(seen, cs, n) && AdmittedUpTo(cs, staged, n)
    {
      var c := cs[n];
      StageRound(cs, staged, n);
      SeenOneMore(seen, cs, n);
      if !SafePath(c.path) { return false; }
      if c.path in seen || (previous.Some? && !PathLess(previous.value, c.path)) { return false; }
      seen := seen + {c.path};
      previous := Some(c.path);
      if !ShapeValid(c) || !StageAgrees(c, staged) { return false; }
    }
    assert cs[..|cs|] == cs;
    return true;
  }

  /** One round of the checkpoint's loop. */
  lemma CheckpointRound(cs: seq<Change>, n: nat)
    requires n < |cs| && Ordered(cs[..n]) && WellShapedUpTo(cs, n)
    ensures
      if SafePath(cs[n].path) && (n == 0 || PathLess(cs[n - 1].path, cs[n].path)) && ShapeValid(cs[n])
      then Ordered(cs[..n + 1]) && WellShapedUpTo(cs, n + 1)
      else !(Ordered(cs) && WellShapedUpTo(cs, |cs|))
  {
    assert WellShaped(cs, n) <==> SafePath(cs[n].path) && ShapeValid(cs[n]);
    if n == 0 || PathLess(cs[n - 1].path, cs[n].path) {
      NeighboursOrder(cs, n);
    } else {
      BrokenNeighbours(cs, n);
    }
  }

  /** `_validate_changes` and the size caps of the integrity checkpoint. */
  method ValidateForCheckpoint(cs: seq<Change>) returns (ok: bool)
    ensures ok <==> CheckpointAdmits(cs)
  {
    if |cs| > MAX_CHANGES { return false; }
    var previous: Option<Text> := None;
    for n := 0 to |cs|
      invariant previous == if n == 0 then None else Some(cs[n - 1].path)
      invariant Ordered(cs[..n]) && WellShapedUpTo(cs, n)
    {
      CheckpointRound(cs, n);
      if !SafePath(cs[n].path) || cs[n].status.OtherStatus? { return false; }
      if previous.Some? && !PathLess(previous.value, cs[n].path) { return false; }
      previous := Some(cs[n].path);
      if !ShapeValid(cs[n]) { return false; }
    }
    assert cs[..|cs|] == cs;
    return EncodedLength(cs) <= MAX_CHANGES_BYTES;
  }

  /** `_bind_candidate_tree_to_stage`: the same entries, one by one. */
  method BindToStage(candidate: seq<Entry>, stage: seq<Entry>) returns (ok: bool)
    ensures ok <==> candidate == stage
  {
    if |candidate| != |stage| { return false; }
    for n := 0 to |candidate|
      invariant candidate[..n] == stage[..n]
    {
      var a, b := candidate[n], stage[n];
      if a.path != b.path || a.mode != b.mode || a.objectId != b.objectId { return false; }
    }
    return true;
  }

  lemma DetectedChanges(baseline: seq<Entry>, stage: seq<Entry>, result: seq<Change>)
    requires ValidTree(baseline) && ValidTree(stage) && IsDiff(result, TreeOf(baseline), TreeOf(stage))
    ensures Patch(TreeOf(baseline), result) == TreeOf(stage) && Patch(TreeOf(stage), ReversedAll(result)) == TreeOf(baseline)
    ensures IntegrityAdmits(result, TreeOf(stage)) && TextSorted(ChangedPaths(result))
    ensures Ordered(result) && forall i :: 0 <= i < |result| ==> !result[i].status.OtherStatus?
  {
    TreeHoldsEntries(baseline);
    TreeHoldsEntries(stage);
    EveryCheckerAccepts(TreeOf(baseline), TreeOf(stage), result);
    PatchGivesCandidate(TreeOf(baseline), TreeOf(stage), result);
    ReverseGivesBaseline(TreeOf(baseline), TreeOf(stage), result);
    forall i | 0 <= i < |result| ensures !result[i].status.OtherStatus? { assert WellShaped(result, i); }
  }

  /** From raw `ls-tree` output to accepted evidence: whatever two trees parse, bind and differ, their
      change list passes its own check, the integrity check and the text re-sort. */
  method DetectChanges(baselineRaw: Bytes, candidateRaw: Bytes, stage: seq<Entry>) returns (changes: Option<seq<Change>>)
    ensures changes.Some? <==>
      ParseTree(baselineRaw).Some? && ParseTree(candidateRaw) == Some(stage)
    ensures changes.Some? ==>
      var base := TreeOf(ParseTree(baselineRaw).value);
      && Patch(base, changes.value) == TreeOf(stage)
      && Patch(TreeOf(stage), ReversedAll(changes.value)) == base
      && IntegrityAdmits(changes.value, TreeOf(stage)) && TextSorted(ChangedPaths(changes.value))
  {
    var candidate := ParseChangeTree(candidateRaw);
    if candidate.None? { return None; }
    var baseline := ParseChangeTree(baselineRaw);
    if baseline.None? { return None; }
    var bound := BindToStage(candidate.value, stage);
    if !bound { return None; }
    var result := BuildChanges(baseline.value, candidate.value);
    AcceptedExactly(baselineRaw);
    AcceptedExactly(candidateRaw);
    DetectedChanges(baseline.value, stage, result);
    var valid := ValidateResult(result);
    if !valid { return None; }
    return Some(result);
  }
}

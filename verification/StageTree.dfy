/** Materialising a list of tree entries on disk, and the walk that verifies a staged tree. */
module StageTree {
  import opened Options
  import opened Separated
  import opened Utf8
  import opened GitTree

  /** A place below the tree root: the names on the way down. */
  type Place = seq<Text>

  datatype FileMode = Private600 | Private700 | OtherFileMode

  datatype Node = Dir(mode700: bool) | File(mode: FileMode, data: Bytes) | Symlink

  type Nodes = map<Place, Node>

  /** SHA-256, taken to be injective. */
  datatype Sha256 = Sha256(data: Bytes)

  datatype StagedEntry = StagedEntry(entry: Entry, size: int, digest: Sha256)

  function PlaceOf(path: Text): (p: Place)
    ensures |p| >= 1
  {
    Split(path, SLASH)
  }

  function FileModeOf(m: Mode): FileMode {
    match m
    case Plain => Private600
    case Executable => Private700
  }

  /** `p` is a proper ancestor of `q`. */
  predicate Above(p: Place, q: Place) {
    p < q
  }

  // ---------------------------------------------------------------- paths and places

  lemma {:induction false} SplitConcat(a: Text, b: Text)
    ensures Split(a + [SLASH] + b, SLASH) == Split(a, SLASH) + Split(b, SLASH)
  {
    var s := a + [SLASH] + b;
    if a == [] {
      assert s[1..] == b;
    } else {
      SplitConcat(a[1..], b);
      assert s[1..] == a[1..] + [SLASH] + b;
      SplitOfFirst(s, Split(a[1..], SLASH), Split(b, SLASH));
    }
  }

  lemma PrependsToFirst(x: Scalar, first: Place, rest: Place)
    requires |first| >= 1
    ensures [[x] + (first + rest)[0]] + (first + rest)[1..] == ([[x] + first[0]] + first[1..]) + rest
  {
    assert (first + rest)[1..] == first[1..] + rest;
  }

  lemma SplitOfFirst(s: Text, first: Place, rest: Place)
    requires s != [] && |first| >= 1 && Split(s[1..], SLASH) == first + rest
    ensures Split(s, SLASH) == (if s[0] == SLASH then [[]] + first else [[s[0]] + first[0]] + first[1..]) + rest
  {
    SplitFirst(s, SLASH);
    if s[0] == SLASH {
      assert [[]] + (first + rest) == ([[]] + first) + rest;
    } else {
      PrependsToFirst(s[0], first, rest);
    }
  }

  lemma {:induction false} JoinConcat(p: Place, q: Place)
    requires |p| >= 1 && |q| >= 1
    ensures Join(p + q, SLASH) == Join(p, SLASH) + [SLASH] + Join(q, SLASH)
  {
    if |p| == 1 {
      assert (p + q)[1..] == q;
    } else {
      assert (p + q)[1..] == p[1..] + q;
      JoinConcat(p[1..], q);
    }
  }

  lemma PathsDifferAsPlaces(a: Text, b: Text)
    ensures PlaceOf(a) == PlaceOf(b) <==> a == b
  {
    JoinUndoesSplit(a, SLASH);
    JoinUndoesSplit(b, SLASH);
  }

  /** One path lies inside another exactly when its place lies below the other's. */
  lemma InsideIsAbove(a: Text, b: Text)
    ensures Inside(a, b) <==> Above(PlaceOf(a), PlaceOf(b))
  {
    JoinUndoesSplit(a, SLASH);
    JoinUndoesSplit(b, SLASH);
    if Inside(a, b) {
      var rest := b[|a| + 1..];
      assert b == a + [SLASH] + rest;
      SplitConcat(a, rest);
    }
    if Above(PlaceOf(a), PlaceOf(b)) {
      var rest := PlaceOf(b)[|PlaceOf(a)|..];
      assert PlaceOf(b) == PlaceOf(a) + rest;
      JoinConcat(PlaceOf(a), rest);
      assert b == a + [SLASH] + Join(rest, SLASH);
    }
  }

  // ---------------------------------------------------------------- the tree a list of entries stands for

  /** What stands at a place of the tree: the entry's file, a private directory above an entry, or nothing. */
  function ExpectedAt(staged: seq<StagedEntry>, p: Place): Option<Node> {
    if staged == [] then (if p == [] then Some(Dir(true)) else None)
    else
      var e := staged[|staged| - 1];
      if PlaceOf(e.entry.path) == p then Some(File(FileModeOf(e.entry.mode), e.digest.data))
      else if Above(p, PlaceOf(e.entry.path)) then Some(Dir(true))
      else ExpectedAt(staged[..|staged| - 1], p)
  }

  function Lookup(nodes: Nodes, p: Place): Option<Node> {
    if p in nodes then Some(nodes[p]) else None
  }

  /** The tree on disk is exactly the one the entries stand for. */
  ghost predicate IsTreeFor(nodes: Nodes, staged: seq<StagedEntry>) {
    forall p {:trigger Lookup(nodes, p)} :: Lookup(nodes, p) == ExpectedAt(staged, p)
  }

  predicate ValidStage(staged: seq<StagedEntry>) {
    ValidTree(EntriesOf(staged))
  }

  function EntriesOf(staged: seq<StagedEntry>): (es: seq<Entry>)
    ensures |es| == |staged| && forall i :: 0 <= i < |es| ==> es[i] == staged[i].entry
  {
    seq(|staged|, i requires 0 <= i < |staged| => staged[i].entry)
  }

  lemma OneTreePerStage(a: Nodes, b: Nodes, staged: seq<StagedEntry>)
    requires IsTreeFor(a, staged) && IsTreeFor(b, staged)
    ensures a == b
  {
    forall p ensures p in a <==> p in b { assert Lookup(a, p) == Lookup(b, p); }
    forall p | p in a ensures a[p] == b[p] { assert Lookup(a, p) == Lookup(b, p); }
  }

  /** No place of the entries so far is in the way of a compatible new one. */
  lemma {:induction false} NewEntryFits(staged: seq<StagedEntry>, e: StagedEntry, p: Place)
    requires forall i :: 0 <= i < |staged| ==> Compatible(staged[i].entry.path, e.entry.path)
    ensures Above(p, PlaceOf(e.entry.path)) ==> ExpectedAt(staged, p) == None || ExpectedAt(staged, p) == Some(Dir(true))
    ensures p == PlaceOf(e.entry.path) ==> ExpectedAt(staged, p) == None
  {
    if staged != [] {
      var last := staged[|staged| - 1].entry.path;
      PathsDifferAsPlaces(last, e.entry.path);
      InsideIsAbove(last, e.entry.path);
      InsideIsAbove(e.entry.path, last);
      NewEntryFits(staged[..|staged| - 1], e, p);
    }
  }

  // ---------------------------------------------------------------- materialising

  /** The staging directory while it is written. */
  class Disk {
    var nodes: Nodes

    constructor ()
      ensures nodes == map[[] := Dir(true)]
    {
      nodes := map[[] := Dir(true)];
    }

    /** `mkdir`; fails when the place is taken or there is no directory to hold it. */
    method MakeDirectory(p: Place) returns (ok: bool)
      requires p != []
      modifies this
      ensures ok == (p !in old(nodes) && p[..|p| - 1] in old(nodes) && old(nodes)[p[..|p| - 1]].Dir?)
      ensures nodes == if ok then old(nodes)[p := Dir(true)] else old(nodes)
    {
      ok := p !in nodes && p[..|p| - 1] in nodes && nodes[p[..|p| - 1]].Dir?;
      if ok { nodes := nodes[p := Dir(true)]; }
    }

    /** `open` with O_CREAT | O_EXCL and `write`. */
    method WriteExclusive(p: Place, mode: FileMode, data: Bytes) returns (ok: bool)
      requires p != []
      modifies this
      ensures ok == (p !in old(nodes) && p[..|p| - 1] in old(nodes) && old(nodes)[p[..|p| - 1]].Dir?)
      ensures nodes == if ok then old(nodes)[p := File(mode, data)] else old(nodes)
    {
      ok := p !in nodes && p[..|p| - 1] in nodes && nodes[p[..|p| - 1]].Dir?;
      if ok { nodes := nodes[p := File(mode, data)]; }
    }

    /** `_create_private_parents`: every directory above `p`, made or found, and made private. */
    method CreatePrivateParents(p: Place) returns (ok: bool)
      requires p != [] && [] in nodes && nodes[[]] == Dir(true)
      requires forall q :: Above(q, p) ==> Lookup(nodes, q) == None || Lookup(nodes, q) == Some(Dir(true))
      modifies this
      ensures ok
      ensures forall q {:trigger Lookup(nodes, q)} :: Lookup(nodes, q) == if Above(q, p) then Some(Dir(true)) else Lookup(old(nodes), q)
    {
      for n := 1 to |p|
        invariant forall q {:trigger Lookup(nodes, q)} ::
          Lookup(nodes, q) == if Above(q, p) && |q| < n then Some(Dir(true)) else Lookup(old(nodes), q)
      {
        var current := p[..n];
        assert Above(current, p) && current[..n - 1] == p[..n - 1] && Above(p[..n - 1], p);
        assert Lookup(nodes, p[..n - 1]) == Some(Dir(true)) by {
          if n == 1 { assert p[..0] == [] && Lookup(old(nodes), []) == Some(Dir(true)); }
        }
        assert Lookup(nodes, current) == Lookup(old(nodes), current);
        ghost var previous := nodes;
        var made := MakeDirectory(current);
        if !made {
          if !nodes[current].Dir? { return false; }
          nodes := nodes[current := Dir(true)];
        }
        forall q ensures Lookup(nodes, q) == if Above(q, p) && |q| < n + 1 then Some(Dir(true)) else Lookup(old(nodes), q) {
          assert Lookup(previous, q) == if Above(q, p) && |q| < n then Some(Dir(true)) else Lookup(old(nodes), q);
          if Above(q, p) && |q| == n { assert q == current; }
        }
      }
      ok := true;
    }

    /** `_materialize_entry`. */
    method MaterialiseEntry(e: Entry, data: Bytes, ghost before: seq<StagedEntry>) returns (ok: bool, staged: StagedEntry)
      requires IsTreeFor(nodes, before) && forall i :: 0 <= i < |before| ==> Compatible(before[i].entry.path, e.path)
      modifies this
      ensures ok && staged == StagedEntry(e, |data|, Sha256(data)) && IsTreeFor(nodes, before + [staged])
    {
      staged := StagedEntry(e, |data|, Sha256(data));
      var p := PlaceOf(e.path);
      forall q ensures Above(q, p) ==> Lookup(nodes, q) == None || Lookup(nodes, q) == Some(Dir(true)) {
        NewEntryFits(before, staged, q);
      }
      NewEntryFits(before, staged, p);
      RootIsDirectory(before);
      assert Lookup(nodes, []) == Some(Dir(true)) && Lookup(nodes, p) == None;
      ok := CreatePrivateParents(p);
      assert Above(p[..|p| - 1], p) && Lookup(nodes, p[..|p| - 1]) == Some(Dir(true));
      assert Lookup(nodes, p) == None;
      ghost var previous := nodes;
      ok := WriteExclusive(p, FileModeOf(e.mode), data);
      assert (before + [staged])[..|before|] == before;
      forall q ensures Lookup(nodes, q) == ExpectedAt(before + [staged], q) {
        assert Lookup(previous, q) == if Above(q, p) then Some(Dir(true)) else Lookup(old(nodes), q);
        assert Lookup(old(nodes), q) == ExpectedAt(before, q);
      }
    }
  }

  lemma {:induction false} RootIsDirectory(staged: seq<StagedEntry>)
    ensures ExpectedAt(staged, []) == Some(Dir(true))
  {
    if staged != [] { RootIsDirectory(staged[..|staged| - 1]); }
  }

  /** Every blob the entries name can be read. */
  predicate Available(es: seq<Entry>, blobs: map<Bytes, Bytes>) {
    forall i :: 0 <= i < |es| ==> es[i].objectId in blobs
  }

  /** The entries with the size and digest of their blobs. */
  function StagedFrom(es: seq<Entry>, blobs: map<Bytes, Bytes>): (staged: seq<StagedEntry>)
    requires Available(es, blobs)
    ensures EntriesOf(staged) == es
  {
    seq(|es|, i requires 0 <= i < |es| => StagedEntry(es[i], |blobs[es[i].objectId]|, Sha256(blobs[es[i].objectId])))
  }

  /** Materialising a valid list of entries never fails, and leaves exactly the tree they stand for. */
  method Materialise(es: seq<Entry>, blobs: map<Bytes, Bytes>) returns (disk: Disk, staged: Option<seq<StagedEntry>>)
    requires ValidTree(es)
    ensures fresh(disk)
    ensures staged.Some? <==> Available(es, blobs)
    ensures staged.Some? ==> staged.value == StagedFrom(es, blobs) && IsTreeFor(disk.nodes, staged.value)
  {
    disk := new Disk();
    var done: seq<StagedEntry> := [];
    assert IsTreeFor(disk.nodes, []);
    for n := 0 to |es|
      invariant |done| == n && fresh(disk)
      invariant forall i :: 0 <= i < n ==> es[i].objectId in blobs && done[i] == StagedEntry(es[i], |blobs[es[i].objectId]|, Sha256(blobs[es[i].objectId]))
      invariant IsTreeFor(disk.nodes, done)
    {
      if es[n].objectId !in blobs { return disk, None; }
      var ok, entry := disk.MaterialiseEntry(es[n], blobs[es[n].objectId], done);
      done := done + [entry];
    }
    assert done == StagedFrom(es, blobs);
    return disk, Some(done);
  }
}

/** The bytes of a tree listing written out, and what the parsers make of them: which byte strings they
    accept and which entries those list, without reference to how parsing or rendering is done. */
module TreeRecords {
  import opened Options
  import opened Separated
  import opened Utf8
  import opened GitTree

  /** One record: the mode, ` blob `, the object id, a tab and the path. */
  function Spelling(e: Entry): Bytes {
    (if e.mode == Executable then [49, 48, 48, 55, 53, 53] else [49, 48, 48, 54, 52, 52])
    + [32, 98, 108, 111, 98, 32] + e.objectId + [9] + Encode(e.path)
  }

  /** The records of a listing, each ended by a NUL byte. */
  function Output(es: seq<Entry>): Bytes {
    if es == [] then [] else Spelling(es[0]) + [0] + Output(es[1..])
  }

  /** `t[i..j]` is a whole component of the path: no slash inside, and a slash or an end on both sides. */
  predicate Component(t: Text, i: nat, j: nat) {
    && i <= j <= |t| && (i == 0 || t[i - 1] == 47) && (j == |t| || t[j] == 47)
    && forall k :: i <= k < j ==> t[k] != 47
  }

  /** Nothing, `.`, `..`, or `.git` in any case. */
  predicate Forbidden(part: Text) {
    || part == [] || part == [46] || part == [46, 46]
    || (|part| == 4 && part[0] == 46 && part[1] in {71, 103} && part[2] in {73, 105} && part[3] in {84, 116})
  }

  ghost predicate AllowedPath(t: Text) {
    forall i: nat, j: nat {:trigger Component(t, i, j)} :: Component(t, i, j) ==> !Forbidden(t[i..j])
  }

  /** 40 or 64 lower-case hexadecimal digits. */
  predicate AllowedId(b: Bytes) {
    (|b| == 40 || |b| == 64)
    && forall k :: 0 <= k < |b| ==> b[k] in {48, 49, 50, 51, 52, 53, 54, 55, 56, 57, 97, 98, 99, 100, 101, 102}
  }

  ghost predicate Allowed(e: Entry) {
    AllowedPath(e.path) && AllowedId(e.objectId) && 0 !in e.path
  }

  /** The second path is the first one or lies below it. */
  predicate AtOrBelow(a: Text, b: Text) {
    a == b || a + [47] <= b
  }

  /** No two entries share a path, and none lies below another. */
  predicate Apart(es: seq<Entry>) {
    forall i, j :: 0 <= i < |es| && 0 <= j < |es| && i != j ==> !AtOrBelow(es[i].path, es[j].path)
  }

  /** `raw` lists these entries in this order; the last NUL may be missing. */
  ghost predicate Listing(raw: Bytes, es: seq<Entry>) {
    && (forall i :: 0 <= i < |es| ==> Allowed(es[i])) && Apart(es)
    && (raw == Output(es) || (es != [] && raw + [0] == Output(es)))
  }

  /** Strictly ascending by encoded path. */
  ghost predicate Ascending(es: seq<Entry>) {
    forall i, j :: 0 <= i < j < |es| ==> Before(Encode(es[i].path), Encode(es[j].path))
  }

  // ---------------------------------------------------------------- components

  lemma {:induction false} PieceIsComponent(t: Text, n: nat) returns (i: nat, j: nat)
    requires n < |Split(t, SLASH)|
    ensures Component(t, i, j) && t[i..j] == Split(t, SLASH)[n]
    ensures n == 0 <==> i == 0
  {
    if t == [] {
      return 0, 0;
    }
    SplitFirst(t, SLASH);
    if t[0] == SLASH && n == 0 {
      return 0, 0;
    }
    i, j := PieceIsComponent(t[1..], if t[0] == SLASH then n - 1 else n);
    if t[0] != SLASH && n == 0 {
      LongerSlice(t, j);
      LongerComponent(t, j);
      i, j := 0, j + 1;
    } else {
      LaterSlice(t, i, j);
      LaterComponent(t, i, j);
      i, j := i + 1, j + 1;
    }
  }

  lemma LongerSlice(t: Text, j: nat)
    requires t != [] && j <= |t| - 1
    ensures t[0..j + 1] == [t[0]] + t[1..][0..j]
  {
    var a, b := t[0..j + 1], [t[0]] + t[1..][0..j];
    assert |a| == |b| && forall k :: 0 <= k < |a| ==> a[k] == b[k];
  }

  lemma LaterSlice(t: Text, i: nat, j: nat)
    requires t != [] && i <= j <= |t| - 1
    ensures t[i + 1..j + 1] == t[1..][i..j]
  {
    var a, b := t[i + 1..j + 1], t[1..][i..j];
    assert |a| == |b| && forall k :: 0 <= k < |a| ==> a[k] == b[k];
  }

  lemma LongerComponent(t: Text, j: nat)
    requires t != [] && t[0] != 47 && Component(t[1..], 0, j)
    ensures Component(t, 0, j + 1)
  {
    assert j < |t| - 1 ==> t[1..][j] == t[j + 1];
    forall k | 0 <= k < j + 1 ensures t[k] != 47 {
      assert k > 0 ==> t[1..][k - 1] == t[k];
    }
  }

  lemma LaterComponent(t: Text, i: nat, j: nat)
    requires t != [] && Component(t[1..], i, j) && (i == 0 ==> t[0] == 47)
    ensures Component(t, i + 1, j + 1)
  {
    assert i > 0 ==> t[1..][i - 1] == t[i];
    assert j < |t| - 1 ==> t[1..][j] == t[j + 1];
    forall k | i + 1 <= k < j + 1 ensures t[k] != 47 {
      assert t[1..][k - 1] == t[k];
    }
  }

  lemma {:induction false} ComponentIsPiece(t: Text, i: nat, j: nat) returns (n: nat)
    requires Component(t, i, j)
    ensures n < |Split(t, SLASH)| && Split(t, SLASH)[n] == t[i..j]
    ensures n == 0 <==> i == 0
    decreases |t|
  {
    if t == [] || (i == 0 && j == 0) {
      return 0;
    }
    SplitFirst(t, SLASH);
    if i == 0 {
      assert t[0] != 47;
      EarlierComponent(t, 0, j);
      n := ComponentIsPiece(t[1..], 0, j - 1);
      LongerSlice(t, j - 1);
    } else {
      EarlierComponent(t, i, j);
      n := ComponentIsPiece(t[1..], i - 1, j - 1);
      LaterSlice(t, i - 1, j - 1);
      n := if t[0] == SLASH then n + 1 else n;
    }
  }

  lemma EarlierComponent(t: Text, i: nat, j: nat)
    requires Component(t, i, j) && j > 0
    ensures Component(t[1..], if i == 0 then 0 else i - 1, j - 1)
  {
    var from := if i == 0 then 0 else i - 1;
    assert from > 0 ==> t[1..][from - 1] == t[i - 1];
    assert j < |t| ==> t[1..][j - 1] == t[j];
    forall k | from <= k < j - 1 ensures t[1..][k] != 47 {
      assert t[1..][k] == t[k + 1];
    }
  }

  lemma ForbiddenPart(part: Text)
    ensures Forbidden(part) <==> !SafePart(part)
  {
  }

  lemma EmptyComponent(t: Text)
    requires t == [] || t[0] == 47
    ensures Component(t, 0, 0) && Forbidden(t[0..0])
  {
  }

  lemma AllowedPathIsSafe(t: Text)
    ensures AllowedPath(t) <==> SafePath(t)
  {
    if t == [] || t[0] == SLASH {
      EmptyComponent(t);
    } else {
      AllowedParts(t);
    }
  }

  lemma AllowedParts(t: Text)
    ensures AllowedPath(t) <==> forall n :: 0 <= n < |Split(t, SLASH)| ==> SafePart(Split(t, SLASH)[n])
    ensures t != [] && t[0] != SLASH ==> (AllowedPath(t) <==> SafePath(t))
  {
    forall n | AllowedPath(t) && 0 <= n < |Split(t, SLASH)| ensures SafePart(Split(t, SLASH)[n]) {
      var i, j := PieceIsComponent(t, n);
      ForbiddenPart(t[i..j]);
    }
    forall i: nat, j: nat | Component(t, i, j) ensures t[i..j] in Split(t, SLASH) && (Forbidden(t[i..j]) <==> !SafePart(t[i..j])) {
      var n := ComponentIsPiece(t, i, j);
      ForbiddenPart(t[i..j]);
    }
  }

  lemma AllowedIsValid(e: Entry)
    ensures Allowed(e) <==> ValidEntry(e) && 0 !in e.path
  {
    AllowedPathIsSafe(e.path);
  }

  lemma ApartIsCompatible(a: Text, b: Text)
    ensures Compatible(a, b) <==> !AtOrBelow(a, b) && !AtOrBelow(b, a)
  {
    assert a + [47] <= b <==> Inside(a, b) by {
      if Inside(a, b) { assert b == a + [47] + b[|a| + 1..]; }
    }
    assert b + [47] <= a <==> Inside(b, a) by {
      if Inside(b, a) { assert a == b + [47] + a[|b| + 1..]; }
    }
  }

  // ---------------------------------------------------------------- one record

  lemma SpellingIsRecord(e: Entry)
    ensures RenderRecord(e) == Spelling(e)
  {
    var more := BLOB + [SPACE] + e.objectId;
    assert [SPACE] + more == [32, 98, 108, 111, 98, 32] + e.objectId;
    assert ModeBytes(e.mode) + [SPACE] + more == ModeBytes(e.mode) + ([SPACE] + more);
    assert ModeBytes(e.mode) + ([32, 98, 108, 111, 98, 32] + e.objectId) == ModeBytes(e.mode) + [32, 98, 108, 111, 98, 32] + e.objectId;
  }

  /** A record parses to an entry exactly when it spells that entry and the entry is allowed. */
  lemma RecordExactly(record: Bytes, e: Entry)
    ensures ParseRecord(record) == Some(e) <==> record == Spelling(e) && AllowedPath(e.path) && AllowedId(e.objectId)
  {
    AllowedPathIsSafe(e.path);
    SpellingIsRecord(e);
    if ParseRecord(record) == Some(e) { RenderUndoesParseRecord(record); }
    if ValidEntry(e) { ParseUndoesRenderRecord(e); }
  }

  /** The first six bytes of an accepted record are its mode: `100755` for an executable, `100644` for
      a plain file. */
  lemma FirstBytesAreTheMode(record: Bytes)
    requires ParseRecord(record).Some?
    ensures |record| >= 6
    ensures ParseRecord(record).value.mode == Executable <==> record[..6] == [49, 48, 48, 55, 53, 53]
    ensures ParseRecord(record).value.mode == Plain <==> record[..6] == [49, 48, 48, 54, 52, 52]
  {
    var e := ParseRecord(record).value;
    RecordExactly(record, e);
    assert Spelling(e)[..6] == if e.mode == Executable then [49, 48, 48, 55, 53, 53] else [49, 48, 48, 54, 52, 52];
  }

  // ---------------------------------------------------------------- a whole listing

  lemma {:induction false} OutputIsRender(es: seq<Entry>)
    ensures Output(es) == Render(es)
  {
    if es != [] {
      OutputIsRender(es[1..]);
      SpellingIsRecord(es[0]);
      assert RecordsOf(es)[1..] == RecordsOf(es[1..]);
    }
  }

  lemma ListingIsRendering(raw: Bytes, es: seq<Entry>)
    ensures Listing(raw, es) <==> ValidTree(es) && NulFree(es) && Renders(raw, es)
  {
    OutputIsRender(es);
    forall i | 0 <= i < |es| ensures Allowed(es[i]) <==> ValidEntry(es[i]) && 0 !in es[i].path { AllowedIsValid(es[i]); }
    forall i, j | 0 <= i < |es| && 0 <= j < |es|
      ensures Compatible(es[i].path, es[j].path) <==> !AtOrBelow(es[i].path, es[j].path) && !AtOrBelow(es[j].path, es[i].path)
    {
      ApartIsCompatible(es[i].path, es[j].path);
    }
  }

  lemma AscendingIsSorted(es: seq<Entry>)
    ensures Ascending(es) <==> StrictlySorted(es)
  {
    forall i, j | 0 <= i < j < |es| ensures Before(Encode(es[i].path), Encode(es[j].path)) <==> PathLess(es[i].path, es[j].path) {
      LessIsBefore(Encode(es[i].path), Encode(es[j].path));
    }
  }

  /** The parsers return the ascending list `es` exactly for the byte strings that list its entries, in
      whatever order. */
  lemma ParsedExactly(raw: Bytes, es: seq<Entry>)
    ensures ParseTree(raw) == Some(es) <==>
      Ascending(es) && exists listed {:trigger Listing(raw, listed)} :: multiset(listed) == multiset(es) && Listing(raw, listed)
  {
    AscendingIsSorted(es);
    if ParseTree(raw) == Some(es) {
      AcceptedExactly(raw);
      var listed := ListedBy(raw);
      assert Listing(raw, listed);
    }
    forall listed | multiset(listed) == multiset(es) && Listing(raw, listed) && StrictlySorted(es) ensures ParseTree(raw) == Some(es) {
      ListedParses(raw, listed, es);
    }
  }

  lemma ListedBy(raw: Bytes) returns (listed: seq<Entry>)
    requires ParseTree(raw).Some?
    ensures Listing(raw, listed) && multiset(listed) == multiset(ParseTree(raw).value)
  {
    listed := ParseRecords(Records(raw, NUL)).value;
    ParsedIsValid(Records(raw, NUL));
    ParsedRecordsRender(Records(raw, NUL));
    ParsedNulFree(raw, listed);
    SortKeeps(listed);
    ListingIsRendering(raw, listed);
  }

  lemma ListedParses(raw: Bytes, listed: seq<Entry>, es: seq<Entry>)
    requires Listing(raw, listed) && multiset(listed) == multiset(es) && StrictlySorted(es)
    ensures ParseTree(raw) == Some(es)
  {
    ListedIsParsed(raw, listed);
    AcceptedExactly(raw);
    SortedIsUnique(ParseTree(raw).value, es);
  }

  /** What a byte string lists is what it parses to. */
  lemma ListedIsParsed(raw: Bytes, listed: seq<Entry>)
    requires Listing(raw, listed)
    ensures ParseTree(raw).Some? && multiset(listed) == multiset(ParseTree(raw).value)
  {
    ListingIsRendering(raw, listed);
    ParseUndoesRender(raw, listed);
    forall i, j | 0 <= i < j < |listed| ensures listed[i].path != listed[j].path {
      assert Compatible(listed[i].path, listed[j].path);
    }
    SortKeeps(listed);
  }
}

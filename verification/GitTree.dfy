/** The NUL-delimited tree records of `git ls-tree -rz`: what the two parsers accept and return. */
module GitTree {
  import opened Options
  import opened Separated
  import opened Utf8

  const NUL: Byte := 0
  const TAB: Byte := 9
  const SPACE: Byte := 32
  const DOT: Scalar := 46
  const SLASH: Scalar := 47

  datatype Mode = Plain | Executable

  datatype Entry = Entry(path: Text, mode: Mode, objectId: Bytes)

  const BLOB: Bytes := [98, 108, 111, 98]

  function ModeBytes(m: Mode): Bytes {
    match m
    case Plain => [49, 48, 48, 54, 52, 52]
    case Executable => [49, 48, 48, 55, 53, 53]
  }

  function ParseMode(b: Bytes): Option<Mode> {
    if b == ModeBytes(Plain) then Some(Plain) else if b == ModeBytes(Executable) then Some(Executable) else None
  }

  // ---------------------------------------------------------------- valid entries

  function Folded(c: int): int {
    if 65 <= c <= 90 then c + 32 else c
  }

  /** No other character case-folds to a letter of `.git`, so folding the ASCII capitals is enough. */
  predicate NamesGit(part: Text) {
    |part| == 4 && part[0] == DOT && Folded(part[1]) == 103 && Folded(part[2]) == 105 && Folded(part[3]) == 116
  }

  predicate SafePart(part: Text) {
    part != [] && part != [DOT] && part != [DOT, DOT] && !NamesGit(part)
  }

  predicate SafePath(path: Text) {
    path != [] && path[0] != SLASH
    && forall i :: 0 <= i < |Split(path, SLASH)| ==> SafePart(Split(path, SLASH)[i])
  }

  predicate LowerHex(b: Bytes) {
    forall i :: 0 <= i < |b| ==> 48 <= b[i] <= 57 || 97 <= b[i] <= 102
  }

  predicate ValidObjectId(b: Bytes) {
    (|b| == 40 || |b| == 64) && LowerHex(b)
  }

  /** `b.startswith(a + "/")`. */
  predicate Inside(a: Text, b: Text) {
    |a| < |b| && b[..|a|] == a && b[|a|] == SLASH
  }

  predicate Compatible(a: Text, b: Text) {
    a != b && !Inside(a, b) && !Inside(b, a)
  }

  predicate ValidEntry(e: Entry) {
    SafePath(e.path) && ValidObjectId(e.objectId)
  }

  /** Every entry is valid, and no path equals or lies inside another. */
  predicate ValidTree(es: seq<Entry>) {
    && (forall i :: 0 <= i < |es| ==> ValidEntry(es[i]))
    && (forall i, j :: 0 <= i < j < |es| ==> Compatible(es[i].path, es[j].path))
  }

  // ---------------------------------------------------------------- rendering

  function RenderRecord(e: Entry): Bytes {
    ModeBytes(e.mode) + [SPACE] + (BLOB + [SPACE] + e.objectId) + [TAB] + Encode(e.path)
  }

  function RecordsOf(es: seq<Entry>): (rs: seq<Bytes>)
    ensures |rs| == |es| && forall i :: 0 <= i < |es| ==> rs[i] == RenderRecord(es[i])
  {
    seq(|es|, i requires 0 <= i < |es| => RenderRecord(es[i]))
  }

  /** The output for a list of entries, as Git writes it. */
  function Render(es: seq<Entry>): Bytes {
    Terminate(RecordsOf(es), NUL)
  }

  // ---------------------------------------------------------------- parsing one record

  function ParseRecord(record: Bytes): (e: Option<Entry>)
    ensures e.Some? ==> ValidEntry(e.value)
  {
    match Cut(record, TAB)
    case None => None
    case Some((metadata, rawPath)) =>
      match Cut(metadata, SPACE)
      case None => None
      case Some((rawMode, more)) =>
        match Cut(more, SPACE)
        case None => None
        case Some((rawType, rawObject)) => ParsedEntry(rawMode, rawType, rawObject, rawPath)
  }

  function ParsedEntry(rawMode: Bytes, rawType: Bytes, rawObject: Bytes, rawPath: Bytes): (e: Option<Entry>)
    ensures e.Some? ==> ValidEntry(e.value)
  {
    if Decode(rawPath).None? || ParseMode(rawMode).None? then None
    else
      var entry := Entry(Decode(rawPath).value, ParseMode(rawMode).value, rawObject);
      if ValidEntry(entry) && rawType == BLOB then Some(entry) else None
  }

  lemma MetadataHasNoTab(e: Entry)
    requires ValidEntry(e)
    ensures TAB !in ModeBytes(e.mode) + [SPACE] + (BLOB + [SPACE] + e.objectId)
  {
  }

  lemma ParsedEntryOf(e: Entry)
    requires ValidEntry(e)
    ensures ParsedEntry(ModeBytes(e.mode), BLOB, e.objectId, Encode(e.path)) == Some(e)
  {
    DecodeUndoesEncode(e.path);
  }

  lemma CutsOfRecord(e: Entry)
    requires ValidEntry(e)
    ensures
      var more := BLOB + [SPACE] + e.objectId;
      var metadata := ModeBytes(e.mode) + [SPACE] + more;
      && Cut(RenderRecord(e), TAB) == Some((metadata, Encode(e.path)))
      && Cut(metadata, SPACE) == Some((ModeBytes(e.mode), more))
      && Cut(more, SPACE) == Some((BLOB, e.objectId))
  {
    var more := BLOB + [SPACE] + e.objectId;
    MetadataHasNoTab(e);
    CutsAt(ModeBytes(e.mode) + [SPACE] + more, Encode(e.path), TAB);
    CutsAt(ModeBytes(e.mode), more, SPACE);
    CutsAt(BLOB, e.objectId, SPACE);
  }

  lemma ParseUndoesRenderRecord(e: Entry)
    requires ValidEntry(e)
    ensures ParseRecord(RenderRecord(e)) == Some(e)
  {
    CutsOfRecord(e);
    ParsedEntryOf(e);
  }

  /** A record parses only if it is the rendering of what it parses to. */
  lemma RenderUndoesParseRecord(record: Bytes)
    requires ParseRecord(record).Some?
    ensures RenderRecord(ParseRecord(record).value) == record
  {
    CutExactly(record, TAB);
    var (metadata, rawPath) := Cut(record, TAB).value;
    CutExactly(metadata, SPACE);
    var (rawMode, more) := Cut(metadata, SPACE).value;
    CutExactly(more, SPACE);
    EncodeUndoesDecode(rawPath);
  }

  // ---------------------------------------------------------------- parsing a tree

  predicate Admits(es: seq<Entry>, e: Entry) {
    forall i :: 0 <= i < |es| ==> Compatible(es[i].path, e.path)
  }

  function ParseRecords(records: seq<Bytes>): (es: Option<seq<Entry>>)
    ensures es.Some? ==> |es.value| == |records|
  {
    if records == [] then Some([])
    else
      match ParseRecords(records[..|records| - 1])
      case None => None
      case Some(es) =>
        match ParseRecord(records[|records| - 1])
        case None => None
        case Some(e) => if Admits(es, e) then Some(es + [e]) else None
  }

  lemma {:induction false} ParsedIsValid(records: seq<Bytes>)
    requires ParseRecords(records).Some?
    ensures ValidTree(ParseRecords(records).value)
  {
    if records != [] { ParsedIsValid(records[..|records| - 1]); }
  }

  function ParseTree(raw: Bytes): Option<seq<Entry>> {
    match ParseRecords(Records(raw, NUL))
    case None => None
    case Some(es) => Some(SortByPath(es))
  }

  // ---------------------------------------------------------------- sorting by encoded path

  predicate PathLess(a: Text, b: Text) {
    Less(Encode(a), Encode(b))
  }

  function InsertByPath(e: Entry, es: seq<Entry>): seq<Entry> {
    if es == [] then [e]
    else if PathLess(es[0].path, e.path) then [es[0]] + InsertByPath(e, es[1..])
    else [e] + es
  }

  function SortByPath(es: seq<Entry>): seq<Entry> {
    if es == [] then [] else InsertByPath(es[0], SortByPath(es[1..]))
  }

  predicate StrictlySorted(es: seq<Entry>) {
    forall i, j :: 0 <= i < j < |es| ==> PathLess(es[i].path, es[j].path)
  }

  lemma {:induction false} InsertedElements(e: Entry, es: seq<Entry>)
    ensures multiset(InsertByPath(e, es)) == multiset(es) + multiset{e}
  {
    if es != [] {
      assert es == [es[0]] + es[1..];
      InsertedElements(e, es[1..]);
    }
  }

  lemma {:induction false} InsertedMember(e: Entry, es: seq<Entry>, x: Entry)
    ensures x in InsertByPath(e, es) <==> x == e || x in es
  {
    if es != [] {
      assert es == [es[0]] + es[1..];
      InsertedMember(e, es[1..], x);
    }
  }

  lemma PrependKeepsSorted(e: Entry, es: seq<Entry>)
    requires StrictlySorted(es) && forall i :: 0 <= i < |es| ==> PathLess(e.path, es[i].path)
    ensures StrictlySorted([e] + es)
  {
  }

  lemma {:induction false} InsertKeepsSorted(e: Entry, es: seq<Entry>)
    requires StrictlySorted(es) && forall i :: 0 <= i < |es| ==> es[i].path != e.path
    ensures StrictlySorted(InsertByPath(e, es))
  {
    if es == [] {
    } else if PathLess(es[0].path, e.path) {
      var rest := InsertByPath(e, es[1..]);
      InsertKeepsSorted(e, es[1..]);
      forall i | 0 <= i < |rest| ensures PathLess(es[0].path, rest[i].path) {
        InsertedMember(e, es[1..], rest[i]);
      }
      PrependKeepsSorted(es[0], rest);
    } else {
      PathOrderIsTotal(es[0].path, e.path);
      forall i | 0 <= i < |es| ensures PathLess(e.path, es[i].path) {
        if i > 0 { PathLessIsTransitive(e.path, es[0].path, es[i].path); }
      }
      PrependKeepsSorted(e, es);
    }
  }

  lemma PathOrderIsTotal(a: Text, b: Text)
    ensures PathLess(a, b) || PathLess(b, a) || a == b
    ensures !(PathLess(a, b) && PathLess(b, a)) && !PathLess(a, a)
  {
    LessIsTotal(Encode(a), Encode(b));
    if Encode(a) == Encode(b) { EncodeIsInjective(a, b); }
  }

  lemma PathLessIsTransitive(a: Text, b: Text, c: Text)
    requires PathLess(a, b) && PathLess(b, c)
    ensures PathLess(a, c)
  {
    LessIsTransitive(Encode(a), Encode(b), Encode(c));
  }

  lemma SameMember(a: seq<Entry>, b: seq<Entry>, x: Entry)
    requires multiset(a) == multiset(b) && x in a
    ensures x in b
  {
    assert x in multiset(a);
  }

  lemma {:induction false} SortKeeps(es: seq<Entry>)
    requires forall i, j :: 0 <= i < j < |es| ==> es[i].path != es[j].path
    ensures multiset(SortByPath(es)) == multiset(es) && StrictlySorted(SortByPath(es))
  {
    if es != [] {
      var tail, rest := es[1..], SortByPath(es[1..]);
      assert es == [es[0]] + tail;
      SortKeeps(tail);
      forall i | 0 <= i < |rest| ensures rest[i].path != es[0].path { SameMember(rest, tail, rest[i]); }
      InsertKeepsSorted(es[0], rest);
      InsertedElements(es[0], rest);
    }
  }

  /** The first entry of a strictly sorted list is its least. */
  lemma LeastFirst(a: seq<Entry>, b: seq<Entry>)
    requires StrictlySorted(a) && StrictlySorted(b) && multiset(a) == multiset(b) && a != []
    ensures b != [] && a[0] == b[0]
  {
    assert a[0] in multiset(b);
    assert b[0] in multiset(a);
    if a[0] != b[0] {
      var i :| 0 <= i < |b| && b[i] == a[0];
      var j :| 0 <= j < |a| && a[j] == b[0];
      assert PathLess(b[0].path, b[i].path) && PathLess(a[0].path, a[j].path);
      PathOrderIsTotal(a[0].path, b[0].path);
    }
  }

  lemma TailsMatch(a: seq<Entry>, b: seq<Entry>)
    requires a != [] && b != [] && a[0] == b[0] && multiset(a) == multiset(b)
    ensures multiset(a[1..]) == multiset(b[1..])
  {
    assert a == [a[0]] + a[1..] && b == [b[0]] + b[1..];
    assert multiset(a[1..]) == multiset(a) - multiset{a[0]};
    assert multiset(b[1..]) == multiset(b) - multiset{b[0]};
  }

  /** A strictly sorted list is determined by its elements. */
  lemma {:induction false} SortedIsUnique(a: seq<Entry>, b: seq<Entry>)
    requires StrictlySorted(a) && StrictlySorted(b) && multiset(a) == multiset(b)
    ensures a == b
  {
    if a == [] {
      if b != [] { LeastFirst(b, a); }
    } else {
      LeastFirst(a, b);
      TailsMatch(a, b);
      SortedIsUnique(a[1..], b[1..]);
      assert a == [a[0]] + a[1..] && b == [b[0]] + b[1..];
    }
  }

  lemma SortedStays(es: seq<Entry>)
    requires StrictlySorted(es)
    ensures SortByPath(es) == es
  {
    forall i, j | 0 <= i < j < |es| ensures es[i].path != es[j].path {
      PathOrderIsTotal(es[i].path, es[j].path);
    }
    SortKeeps(es);
    SortedIsUnique(SortByPath(es), es);
  }

  lemma MembersAreCompatible(es: seq<Entry>, x: Entry, y: Entry)
    requires ValidTree(es) && x in es && y in es && x.path != y.path
    ensures Compatible(x.path, y.path)
  {
    var i :| 0 <= i < |es| && es[i] == x;
    var j :| 0 <= j < |es| && es[j] == y;
    assert if i < j then Compatible(es[i].path, es[j].path) else Compatible(es[j].path, es[i].path);
  }

  lemma SameElementsSameValidity(a: seq<Entry>, b: seq<Entry>)
    requires ValidTree(a) && StrictlySorted(b) && multiset(a) == multiset(b)
    ensures ValidTree(b)
  {
    forall i | 0 <= i < |b| ensures b[i] in a && ValidEntry(b[i]) {
      assert b[i] in multiset(a);
    }
    forall i, j | 0 <= i < j < |b| ensures Compatible(b[i].path, b[j].path) {
      PathOrderIsTotal(b[i].path, b[j].path);
      MembersAreCompatible(a, b[i], b[j]);
    }
  }

  // ---------------------------------------------------------------- what is accepted

  /** Git paths never contain NUL, which ends a record. */
  predicate NulFree(es: seq<Entry>) {
    forall i :: 0 <= i < |es| ==> 0 !in es[i].path
  }

  lemma {:induction false} EncodingHasNul(t: Text)
    ensures NUL in Encode(t) <==> 0 in t
  {
    if t != [] {
      EncodingHasNul(t[1..]);
      assert t == [t[0]] + t[1..];
      var head := EncodeOne(t[0]);
      assert NUL in head <==> t[0] == 0 by {
        if t[0] == 0 { assert head[0] == NUL; }
      }
    }
  }

  lemma RecordHasNul(e: Entry)
    requires ValidEntry(e)
    ensures NUL in RenderRecord(e) <==> 0 in e.path
  {
    EncodingHasNul(e.path);
  }

  lemma RecordsAreProper(es: seq<Entry>)
    requires NulFree(es) && forall i :: 0 <= i < |es| ==> ValidEntry(es[i])
    ensures forall i :: 0 <= i < |es| ==> NUL !in RecordsOf(es)[i] && RecordsOf(es)[i] != []
  {
    forall i | 0 <= i < |es| ensures NUL !in RecordsOf(es)[i] && RecordsOf(es)[i] != [] {
      RecordHasNul(es[i]);
    }
  }

  /** The output for a list of entries, perhaps with the last NUL missing. */
  predicate Renders(raw: Bytes, es: seq<Entry>) {
    raw == Render(es) || (es != [] && raw + [NUL] == Render(es))
  }

  lemma FrontIsValid(es: seq<Entry>)
    requires ValidTree(es) && es != []
    ensures ValidTree(es[..|es| - 1]) && Admits(es[..|es| - 1], es[|es| - 1])
  {
  }

  lemma ParseLast(records: seq<Bytes>, es: seq<Entry>, e: Entry)
    requires records != [] && ParseRecords(records[..|records| - 1]) == Some(es)
    requires ParseRecord(records[|records| - 1]) == Some(e) && Admits(es, e)
    ensures ParseRecords(records) == Some(es + [e])
  {
  }

  lemma ParsedLast(records: seq<Bytes>) returns (es: seq<Entry>, e: Entry)
    requires records != [] && ParseRecords(records).Some?
    ensures ParseRecords(records[..|records| - 1]) == Some(es) && RenderRecord(e) == records[|records| - 1]
    ensures ParseRecords(records) == Some(es + [e])
  {
    RenderUndoesParseRecord(records[|records| - 1]);
    es, e := ParseRecords(records[..|records| - 1]).value, ParseRecord(records[|records| - 1]).value;
  }

  lemma RecordsOfMore(es: seq<Entry>, e: Entry)
    ensures RecordsOf(es + [e]) == RecordsOf(es) + [RenderRecord(e)]
  {
  }

  lemma {:induction false} ParsesRecordsOf(es: seq<Entry>)
    requires ValidTree(es)
    ensures ParseRecords(RecordsOf(es)) == Some(es)
  {
    if es != [] {
      var front, last := es[..|es| - 1], es[|es| - 1];
      assert es == front + [last];
      RecordsOfMore(front, last);
      FrontIsValid(es);
      ParsesRecordsOf(front);
      ParseUndoesRenderRecord(last);
      var records := RecordsOf(es);
      assert records[..|records| - 1] == RecordsOf(front);
      ParseLast(records, front, last);
    }
  }

  lemma {:induction false} ParsedRecordsRender(records: seq<Bytes>)
    requires ParseRecords(records).Some?
    ensures RecordsOf(ParseRecords(records).value) == records
  {
    if records != [] {
      var front, last := records[..|records| - 1], records[|records| - 1];
      assert records == front + [last];
      var es, e := ParsedLast(records);
      ParsedRecordsRender(front);
      assert RecordsOf(es) == front && RenderRecord(e) == last;
      RecordsOfMore(es, e);
    }
  }

  /** Parsing undoes rendering, for every valid set of entries in any order; paths may hold tabs,
      spaces and newlines. */
  lemma ParseUndoesRender(raw: Bytes, es: seq<Entry>)
    requires ValidTree(es) && NulFree(es) && Renders(raw, es)
    ensures ParseTree(raw) == Some(SortByPath(es))
    ensures StrictlySorted(es) ==> ParseTree(raw) == Some(es)
  {
    RecordsAreProper(es);
    RecordsOfSpelling(raw, RecordsOf(es), NUL);
    ParsesRecordsOf(es);
    if StrictlySorted(es) { SortedStays(es); }
  }

  lemma ParsedNulFree(raw: Bytes, es: seq<Entry>)
    requires Records(raw, NUL) == RecordsOf(es) && forall i :: 0 <= i < |es| ==> ValidEntry(es[i])
    ensures NulFree(es) && Renders(raw, es)
  {
    RecordsSpell(raw, NUL);
    forall i | 0 <= i < |es| ensures 0 !in es[i].path {
      assert NUL !in RecordsOf(es)[i];
      RecordHasNul(es[i]);
    }
  }

  /** A byte string is accepted exactly when it renders a valid set of entries, and then the result is
      that set, sorted. */
  lemma AcceptedExactly(raw: Bytes)
    ensures ParseTree(raw).Some? <==> exists es :: ValidTree(es) && NulFree(es) && Renders(raw, es)
    ensures ParseTree(raw).Some? ==>
      var es := ParseTree(raw).value;
      StrictlySorted(es) && ValidTree(es) && NulFree(es)
  {
    if ParseTree(raw).Some? {
      var es := ParseRecords(Records(raw, NUL)).value;
      ParsedIsValid(Records(raw, NUL));
      ParsedRecordsRender(Records(raw, NUL));
      ParsedNulFree(raw, es);
      SortKeeps(es);
      var sorted := SortByPath(es);
      SameElementsSameValidity(es, sorted);
      forall i | 0 <= i < |sorted| ensures 0 !in sorted[i].path {
        assert sorted[i] in multiset(es);
      }
    }
    forall es | ValidTree(es) && NulFree(es) && Renders(raw, es) ensures ParseTree(raw).Some? {
      ParseUndoesRender(raw, es);
    }
  }

  // ---------------------------------------------------------------- the two parsers as they run

  lemma ParseRecordsStep(records: seq<Bytes>, n: nat)
    requires n < |records|
    ensures ParseRecords(records[..n + 1]) ==
      match ParseRecords(records[..n])
      case None => None
      case Some(es) =>
        match ParseRecord(records[n])
        case None => None
        case Some(e) => if Admits(es, e) then Some(es + [e]) else None
  {
    assert records[..n + 1][..n] == records[..n];
  }

  lemma {:induction false} RejectedPrefix(records: seq<Bytes>, n: nat)
    requires n <= |records| && ParseRecords(records[..n]).None?
    ensures ParseRecords(records).None?
    decreases |records| - n
  {
    if n == |records| {
      assert records[..n] == records;
    } else {
      ParseRecordsStep(records, n);
      RejectedPrefix(records, n + 1);
    }
  }

  /** `seen` holds exactly the paths of the entries so far. */
  ghost predicate Tracks(seen: set<Text>, es: seq<Entry>) {
    && (forall i :: 0 <= i < |es| ==> es[i].path in seen)
    && (forall p :: p in seen ==> exists i :: 0 <= i < |es| && es[i].path == p)
  }

  /** The check of one new path against the paths seen. */
  predicate Conflicts(seen: set<Text>, path: Text) {
    path in seen || exists existing :: existing in seen && (Inside(existing, path) || Inside(path, existing))
  }

  lemma ConflictsAreInadmissible(seen: set<Text>, es: seq<Entry>, e: Entry)
    requires Tracks(seen, es)
    ensures Conflicts(seen, e.path) <==> !Admits(es, e)
  {
    if Conflicts(seen, e.path) {
      var p :| p in seen && (p == e.path || Inside(p, e.path) || Inside(e.path, p));
      var i :| 0 <= i < |es| && es[i].path == p;
      assert !Compatible(es[i].path, e.path);
    }
  }

  lemma TracksMore(seen: set<Text>, es: seq<Entry>, e: Entry)
    requires Tracks(seen, es)
    ensures Tracks(seen + {e.path}, es + [e])
  {
    var more := es + [e];
    assert more[|es|] == e;
    forall p | p in seen + {e.path} ensures exists i :: 0 <= i < |more| && more[i].path == p {
      if p in seen {
        var i :| 0 <= i < |es| && es[i].path == p;
        assert more[i].path == p;
      }
    }
  }

  lemma UnparsedRejects(records: seq<Bytes>, n: nat)
    requires n < |records| && ParseRecord(records[n]).None?
    ensures ParseRecords(records).None?
  {
    ParseRecordsStep(records, n);
    RejectedPrefix(records, n + 1);
  }

  lemma InadmissibleRejects(records: seq<Bytes>, n: nat, entries: seq<Entry>, e: Entry)
    requires n < |records| && ParseRecords(records[..n]) == Some(entries)
    requires ParseRecord(records[n]) == Some(e) && !Admits(entries, e)
    ensures ParseRecords(records).None?
  {
    ParseRecordsStep(records, n);
    RejectedPrefix(records, n + 1);
  }

  lemma RoundRejects(records: seq<Bytes>, n: nat, entries: seq<Entry>, seen: set<Text>)
    requires n < |records| && ParseRecords(records[..n]) == Some(entries) && Tracks(seen, entries)
    requires ParseRecord(records[n]).None? || Conflicts(seen, ParseRecord(records[n]).value.path)
    ensures ParseRecords(records).None?
  {
    match ParseRecord(records[n])
    case None => UnparsedRejects(records, n);
    case Some(e) =>
      ConflictsAreInadmissible(seen, entries, e);
      InadmissibleRejects(records, n, entries, e);
  }

  lemma RoundAccepts(records: seq<Bytes>, n: nat, entries: seq<Entry>, seen: set<Text>, e: Entry)
    requires n < |records| && ParseRecords(records[..n]) == Some(entries) && Tracks(seen, entries)
    requires ParseRecord(records[n]) == Some(e) && !Conflicts(seen, e.path)
    ensures ParseRecords(records[..n + 1]) == Some(entries + [e])
  {
    ParseRecordsStep(records, n);
    ConflictsAreInadmissible(seen, entries, e);
  }

  /** One round of either loop. */
  lemma ParseOneMore(records: seq<Bytes>, n: nat, entries: seq<Entry>, seen: set<Text>)
    requires n < |records| && ParseRecords(records[..n]) == Some(entries) && Tracks(seen, entries)
    ensures
      var e := ParseRecord(records[n]);
      if e.None? || Conflicts(seen, e.value.path) then ParseRecords(records).None?
      else ParseRecords(records[..n + 1]) == Some(entries + [e.value]) && Tracks(seen + {e.value.path}, entries + [e.value])
  {
    var e := ParseRecord(records[n]);
    if e.None? || Conflicts(seen, e.value.path) {
      RoundRejects(records, n, entries, seen);
    } else {
      RoundAccepts(records, n, entries, seen, e.value);
      TracksMore(seen, entries, e.value);
    }
  }

  /** `_parse_tree` of the candidate stage. */
  method ParseStageTree(raw: Bytes) returns (result: Option<seq<Entry>>)
    ensures result == ParseTree(raw)
  {
    var entries: seq<Entry>, seen: set<Text> := [], {};
    var records := Records(raw, NUL);
    for n := 0 to |records|
      invariant ParseRecords(records[..n]) == Some(entries) && Tracks(seen, entries)
    {
      ParseOneMore(records, n, entries, seen);
      var parsed := ParseRecord(records[n]);
      if parsed.None? { return None; }
      if Conflicts(seen, parsed.value.path) { return None; }
      seen := seen + {parsed.value.path};
      entries := entries + [parsed.value];
    }
    assert records[..|records|] == records;
    return Some(SortByPath(entries));
  }

  /** The fields of one record, before anything is validated. */
  method SplitRecord(record: Bytes) returns (fields: Option<(Bytes, Bytes, Bytes, Text)>)
    ensures fields.Some? ==>
      var (mode, kind, objectId, path) := fields.value;
      ParseRecord(record) == if ParseMode(mode).Some? && kind == BLOB && ValidObjectId(objectId) && SafePath(path)
                             then Some(Entry(path, ParseMode(mode).value, objectId)) else None
    ensures fields.None? ==> ParseRecord(record).None?
  {
    var first := Cut(record, TAB);
    if first.None? { return None; }
    var second := Cut(first.value.0, SPACE);
    if second.None? { return None; }
    var third := Cut(second.value.1, SPACE);
    if third.None? { return None; }
    var path := Decode(first.value.1);
    if path.None? { return None; }
    return Some((second.value.0, third.value.0, third.value.1, path.value));
  }

  /** `_parse_tree` of the change detector, which splits a record first and validates all its fields
      together. */
  method ParseChangeTree(raw: Bytes) returns (result: Option<seq<Entry>>)
    ensures result == ParseTree(raw)
  {
    var entries: seq<Entry>, seen: set<Text> := [], {};
    var records := Records(raw, NUL);
    for n := 0 to |records|
      invariant ParseRecords(records[..n]) == Some(entries) && Tracks(seen, entries)
    {
      ParseOneMore(records, n, entries, seen);
      var fields := SplitRecord(records[n]);
      if fields.None? { return None; }
      var (mode, kind, objectId, path) := fields.value;
      if !SafePath(path) || ParseMode(mode).None? || kind != BLOB || !ValidObjectId(objectId) || path in seen { return None; }
      if exists existing :: existing in seen && (Inside(existing, path) || Inside(path, existing)) { return None; }
      seen := seen + {path};
      entries := entries + [Entry(path, ParseMode(mode).value, objectId)];
    }
    assert records[..|records|] == records;
    return Some(SortByPath(entries));
  }
}

/** Splitting a sequence at a separator, and joining it again. */
module Separated {
  import opened Options

  /** The parts between separators; at least one, as with `split` in Python. */
  function Split<T(==)>(s: seq<T>, sep: T): (parts: seq<seq<T>>)
    ensures |parts| >= 1
  {
    if s == [] then [[]]
    else
      var rest := Split(s[1..], sep);
      if s[0] == sep then [[]] + rest else [[s[0]] + rest[0]] + rest[1..]
  }

  /** Splitting goes element by element. */
  lemma SplitFirst<T>(s: seq<T>, sep: T)
    requires s != []
    ensures
      var rest := Split(s[1..], sep);
      Split(s, sep) == if s[0] == sep then [[]] + rest else [[s[0]] + rest[0]] + rest[1..]
  {
  }

  function Join<T>(parts: seq<seq<T>>, sep: T): seq<T>
    requires |parts| >= 1
  {
    if |parts| == 1 then parts[0] else parts[0] + [sep] + Join(parts[1..], sep)
  }

  lemma {:induction false} JoinUndoesSplit<T>(s: seq<T>, sep: T)
    ensures Join(Split(s, sep), sep) == s
    ensures forall i :: 0 <= i < |Split(s, sep)| ==> sep !in Split(s, sep)[i]
  {
    if s != [] {
      JoinUndoesSplit(s[1..], sep);
      var rest := Split(s[1..], sep);
      var parts := Split(s, sep);
      assert s == [s[0]] + s[1..];
      if s[0] == sep {
        assert parts[1..] == rest;
      } else {
        assert parts[1..] == rest[1..];
        forall i | 0 <= i < |parts| ensures sep !in parts[i] {
          assert i > 0 ==> parts[i] == rest[i];
          assert i == 0 ==> parts[i] == [s[0]] + rest[0];
        }
      }
    }
  }

  lemma {:induction false} SplitSkips<T>(part: seq<T>, rest: seq<T>, sep: T)
    requires sep !in part
    ensures Split(part + [sep] + rest, sep) == [part] + Split(rest, sep)
    ensures Split(part, sep) == [part]
  {
    var s := part + [sep] + rest;
    if part == [] {
      assert s[1..] == rest;
    } else {
      assert s[1..] == part[1..] + [sep] + rest;
      SplitSkips(part[1..], rest, sep);
      assert [part[0]] + part[1..] == part;
    }
  }

  lemma {:induction false} SplitUndoesJoin<T>(parts: seq<seq<T>>, sep: T)
    requires |parts| >= 1 && forall i :: 0 <= i < |parts| ==> sep !in parts[i]
    ensures Split(Join(parts, sep), sep) == parts
  {
    if |parts| == 1 {
      SplitSkips(parts[0], [], sep);
    } else {
      SplitSkips(parts[0], Join(parts[1..], sep), sep);
      SplitUndoesJoin(parts[1..], sep);
      assert [parts[0]] + parts[1..] == parts;
    }
  }

  /** What stands before and after the first separator, as `split(sep, 1)` demanding two parts. */
  function Cut<T(==)>(s: seq<T>, sep: T): Option<(seq<T>, seq<T>)> {
    if s == [] then None
    else if s[0] == sep then Some(([], s[1..]))
    else
      match Cut(s[1..], sep)
      case None => None
      case Some((before, after)) => Some(([s[0]] + before, after))
  }

  /** Cutting finds exactly the decompositions at a first separator. */
  lemma {:induction false} CutExactly<T>(s: seq<T>, sep: T)
    ensures Cut(s, sep).Some? <==> sep in s
    ensures Cut(s, sep).Some? ==>
      var (before, after) := Cut(s, sep).value; sep !in before && s == before + [sep] + after
  {
    if s != [] && s[0] != sep {
      CutExactly(s[1..], sep);
      assert s == [s[0]] + s[1..];
    }
  }

  lemma {:induction false} CutsAt<T>(before: seq<T>, after: seq<T>, sep: T)
    requires sep !in before
    ensures Cut(before + [sep] + after, sep) == Some((before, after))
  {
    var s := before + [sep] + after;
    if before == [] {
      assert s[1..] == after;
    } else {
      assert s[1..] == before[1..] + [sep] + after;
      CutsAt(before[1..], after, sep);
      assert [before[0]] + before[1..] == before;
    }
  }

  // ---------------------------------------------------------------- terminated records

  /** Every part followed by the separator. */
  function Terminate<T>(parts: seq<seq<T>>, sep: T): seq<T> {
    if parts == [] then [] else parts[0] + [sep] + Terminate(parts[1..], sep)
  }

  /** The parts of a split, without a last empty one. */
  function Records<T(==)>(s: seq<T>, sep: T): seq<seq<T>> {
    var parts := Split(s, sep);
    if parts[|parts| - 1] == [] then parts[..|parts| - 1] else parts
  }

  lemma {:induction false} TerminateIsJoin<T>(parts: seq<seq<T>>, sep: T)
    requires parts != []
    ensures Terminate(parts, sep) == Join(parts, sep) + [sep] == Join(parts + [[]], sep)
  {
    var longer := parts + [[]];
    assert longer[1..] == parts[1..] + [[]];
    if |parts| > 1 {
      TerminateIsJoin(parts[1..], sep);
    } else {
      assert Terminate(parts[1..], sep) == [];
      assert Join(longer[1..], sep) == [];
    }
  }

  /** Some text whose records are `parts`: each part terminated, or the last left open. */
  predicate Spells<T(==)>(s: seq<T>, parts: seq<seq<T>>, sep: T) {
    s == Terminate(parts, sep) || (parts != [] && s + [sep] == Terminate(parts, sep))
  }

  lemma RecordsOfSpelling<T>(s: seq<T>, parts: seq<seq<T>>, sep: T)
    requires Spells(s, parts, sep) && forall i :: 0 <= i < |parts| ==> sep !in parts[i] && parts[i] != []
    ensures Records(s, sep) == parts
  {
    if parts == [] {
      assert s == [];
    } else {
      TerminateIsJoin(parts, sep);
      if s == Terminate(parts, sep) {
        SplitUndoesJoin(parts + [[]], sep);
      } else {
        assert s == (s + [sep])[..|s|] == (Join(parts, sep) + [sep])[..|s|] == Join(parts, sep);
        SplitUndoesJoin(parts, sep);
      }
    }
  }

  lemma RecordsSpell<T>(s: seq<T>, sep: T)
    ensures Spells(s, Records(s, sep), sep)
    ensures forall i :: 0 <= i < |Records(s, sep)| ==> sep !in Records(s, sep)[i]
  {
    var all := Split(s, sep);
    JoinUndoesSplit(s, sep);
    LastPartOpenOrEmpty(s, all, Records(s, sep), sep);
  }

  lemma LastPartOpenOrEmpty<T>(s: seq<T>, all: seq<seq<T>>, parts: seq<seq<T>>, sep: T)
    requires |all| >= 1 && s == Join(all, sep)
    requires parts == if all[|all| - 1] == [] then all[..|all| - 1] else all
    ensures Spells(s, parts, sep)
  {
    if parts != [] { TerminateIsJoin(parts, sep); }
    if all[|all| - 1] == [] {
      assert all == parts + [[]];
      if parts == [] { assert all == [[]]; }
    }
  }
}

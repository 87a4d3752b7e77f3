/** Work rows handed off along a graph: what it means that they form one path, for any set of kinds,
    any dictated successors and any depth that grows along them. `rows` tells of each row whether it
    has succeeded. */
module HandoffPath {

  /** A succeeded row short of the end was handed off to its dictated successor. */
  predicate HandedOff<K>(rows: map<K, bool>, next: map<K, K>, depth: K -> nat, last: nat, k: K) {
    k in rows && rows[k] && depth(k) < last ==> k in next && next[k] in rows
  }

  /** Of two rows the shallower has succeeded, and its successor is not beyond the deeper. */
  predicate Ordered<K(==)>(rows: map<K, bool>, next: map<K, K>, depth: K -> nat, j: K, k: K) {
    j in rows && k in rows && j != k && depth(j) <= depth(k) ==> depth(j) < depth(k) && rows[j] && j in next && depth(next[j]) <= depth(k)
  }

  ghost predicate OnePath<K(!new)>(rows: map<K, bool>, next: map<K, K>, depth: K -> nat, root: K, last: nat) {
    && (rows != map[] ==> root in rows)
    && (forall k {:trigger HandedOff(rows, next, depth, last, k)} :: HandedOff(rows, next, depth, last, k))
    && (forall j, k {:trigger Ordered(rows, next, depth, j, k)} :: Ordered(rows, next, depth, j, k))
  }

  lemma MoreDictatedKeepsPath<K(!new)>(rows: map<K, bool>, next: map<K, K>, next': map<K, K>, depth: K -> nat, root: K, last: nat)
    requires OnePath(rows, next, depth, root, last)
    requires forall k :: k in next ==> k in next' && next'[k] == next[k]
    ensures OnePath(rows, next', depth, root, last)
  {
    forall k ensures HandedOff(rows, next', depth, last, k) { assert HandedOff(rows, next, depth, last, k); }
    forall j, k ensures Ordered(rows, next', depth, j, k) { assert Ordered(rows, next, depth, j, k); }
  }

  lemma NothingBeyondLive<K(!new)>(rows: map<K, bool>, next: map<K, K>, depth: K -> nat, root: K, last: nat, k: K, q: K)
    requires OnePath(rows, next, depth, root, last) && k in rows && !rows[k] && q in rows && q != k
    ensures depth(q) < depth(k) && rows[q] && q in next && depth(next[q]) <= depth(k)
  {
    assert Ordered(rows, next, depth, k, q) && Ordered(rows, next, depth, q, k);
  }

  /** Handing off from the row that has not succeeded, to the successor dictated for it. */
  lemma HandoffKeepsPath<K(!new)>(rows: map<K, bool>, next: map<K, K>, depth: K -> nat, root: K, last: nat, k: K, rows': map<K, bool>)
    requires OnePath(rows, next, depth, root, last) && k in rows && !rows[k]
    requires k in next && depth(k) < depth(next[k]) && rows' == rows[k := true][next[k] := false]
    ensures OnePath(rows', next, depth, root, last)
  {
    forall q | q in rows && q != k ensures q != next[k] && depth(q) < depth(k) && rows[q] && q in next && depth(next[q]) <= depth(k) {
      NothingBeyondLive(rows, next, depth, root, last, k, q);
    }
    forall q ensures HandedOff(rows', next, depth, last, q) { assert HandedOff(rows, next, depth, last, q); }
    forall j, q ensures Ordered(rows', next, depth, j, q) { assert Ordered(rows, next, depth, j, q); }
  }

  lemma LastSucceeds<K(!new)>(rows: map<K, bool>, next: map<K, K>, depth: K -> nat, root: K, last: nat, k: K)
    requires OnePath(rows, next, depth, root, last) && k in rows && depth(k) >= last
    ensures OnePath(rows[k := true], next, depth, root, last)
  {
    var rows' := rows[k := true];
    forall q ensures HandedOff(rows', next, depth, last, q) { assert HandedOff(rows, next, depth, last, q); }
    forall j, q ensures Ordered(rows', next, depth, j, q) { assert Ordered(rows, next, depth, j, q); }
  }

  lemma FirstRow<K(!new)>(next: map<K, K>, depth: K -> nat, root: K, last: nat)
    ensures OnePath(map[root := false], next, depth, root, last)
  {
  }

  // ---------------------------------------------------------------- the path itself

  /** The rows from `k` on, following dictated successors out of succeeded rows. */
  ghost function PathFrom<K(!new)>(rows: map<K, bool>, next: map<K, K>, depth: K -> nat, last: nat, k: K): (path: seq<K>)
    requires k in rows
    ensures |path| >= 1 && path[0] == k
    decreases if depth(k) <= last then last - depth(k) else 0
  {
    if rows[k] && k in next && next[k] in rows && depth(k) < depth(next[k]) <= last
    then [k] + PathFrom(rows, next, depth, last, next[k]) else [k]
  }

  /** Consecutive rows of a path: each has succeeded and was handed off to the next. */
  ghost predicate Linked<K(!new)>(rows: map<K, bool>, next: map<K, K>, path: seq<K>) {
    forall i :: 0 <= i < |path| - 1 ==> path[i] in rows && rows[path[i]] && path[i] in next && next[path[i]] == path[i + 1]
  }

  lemma {:induction false} PathFromCoversRows<K(!new)>(rows: map<K, bool>, next: map<K, K>, depth: K -> nat, root: K, last: nat, k: K)
    requires OnePath(rows, next, depth, root, last) && k in rows
    requires forall q :: q in rows ==> depth(q) <= last
    requires forall q :: q in next ==> depth(q) < depth(next[q])
    ensures var path := PathFrom(rows, next, depth, last, k);
      && Linked(rows, next, path)
      && (forall q :: q in path ==> q in rows)
      && (forall q :: q in rows && depth(q) >= depth(k) ==> q in path)
    decreases last - depth(k)
  {
    var path := PathFrom(rows, next, depth, last, k);
    forall q | q in rows && q != k && depth(q) >= depth(k) ensures rows[k] && k in next && depth(next[k]) <= depth(q) {
      assert Ordered(rows, next, depth, k, q);
    }
    if rows[k] && k in next && next[k] in rows {
      PathFromCoversRows(rows, next, depth, root, last, next[k]);
      var rest := PathFrom(rows, next, depth, last, next[k]);
      forall i | 0 <= i < |path| - 1 ensures path[i] in rows && rows[path[i]] && path[i] in next && next[path[i]] == path[i + 1] {
        if i > 0 { assert path[i] == rest[i - 1] && path[i + 1] == rest[i]; }
      }
    } else {
      assert HandedOff(rows, next, depth, last, k);
      forall q | q in rows && depth(q) >= depth(k) ensures q == k {
      }
    }
  }
}

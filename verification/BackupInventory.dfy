/** Reading one Supervisor backup inventory back after an uncertain create. */
module BackupInventory {
  import opened Options

  const MAX_BACKUP_INVENTORY: nat := 64

  /** One inventory item: `Foreign` bears another name (or is no object at all); an item bearing the
      requested name carries its slug and date, None when that field is missing or malformed. */
  datatype Item = Foreign | Named(slug: Option<string>, date: Option<int>, fieldsAdmitted: bool)

  predicate Admissible(i: Item, startedAt: int) {
    i.Foreign? || (i.fieldsAdmitted && i.slug.Some? && i.date.Some? && startedAt <= i.date.value)
  }

  function NamedItems(items: seq<Item>): (named: seq<Item>)
    ensures forall i :: 0 <= i < |named| ==> named[i].Named?
  {
    if items == [] then [] else
      var rest := NamedItems(items[..|items| - 1]);
      if items[|items| - 1].Named? then rest + [items[|items| - 1]] else rest
  }

  /** The slug of the only item with the requested name, if the whole inventory is admissible. */
  function ReconciledSlug(items: seq<Item>, startedAt: int): Option<string> {
    if |items| <= MAX_BACKUP_INVENTORY && (forall i :: 0 <= i < |items| ==> Admissible(items[i], startedAt))
       && |NamedItems(items)| == 1 && NamedItems(items)[0].slug.Some?
    then Some(NamedItems(items)[0].slug.value) else None
  }

  lemma {:induction false} NamedItemsAreItems(items: seq<Item>, i: nat)
    requires i < |NamedItems(items)|
    ensures NamedItems(items)[i] in items && NamedItems(items)[i].Named?
    decreases |items|
  {
    var front := items[..|items| - 1];
    if i < |NamedItems(front)| {
      NamedItemsAreItems(front, i);
    }
  }

  lemma {:induction false} EveryNamedItemIsKept(items: seq<Item>, i: nat)
    requires i < |items| && items[i].Named?
    ensures items[i] in NamedItems(items)
    decreases |items|
  {
    if i < |items| - 1 {
      EveryNamedItemIsKept(items[..|items| - 1], i);
    }
  }

  /** A reconciled slug belongs to an item of the requested name dated no earlier than the start,
      and every item of that name in the inventory is that same item. */
  lemma ReconciledSlugIsTheOnlyMatch(items: seq<Item>, startedAt: int)
    requires ReconciledSlug(items, startedAt).Some?
    ensures exists i :: && 0 <= i < |items| && items[i].Named? && items[i].slug == ReconciledSlug(items, startedAt)
                        && items[i].date.Some? && startedAt <= items[i].date.value
                        && forall j :: 0 <= j < |items| && items[j].Named? ==> items[j] == items[i]
  {
    NamedItemsAreItems(items, 0);
    var i :| 0 <= i < |items| && items[i] == NamedItems(items)[0];
    assert Admissible(items[i], startedAt);
    forall j | 0 <= j < |items| && items[j].Named? ensures items[j] == items[i] {
      EveryNamedItemIsKept(items, j);
    }
  }

  /** The inventory bears the requested name at `i` and nowhere else. */
  ghost predicate OnlyNamed(items: seq<Item>, i: int) {
    0 <= i < |items| && items[i].Named? && forall j :: 0 <= j < |items| && j != i ==> items[j].Foreign?
  }

  lemma {:induction false} NothingNamed(items: seq<Item>)
    ensures NamedItems(items) == [] <==> forall i :: 0 <= i < |items| ==> items[i].Foreign?
  {
    if items != [] { NothingNamed(items[..|items| - 1]); }
  }

  lemma {:induction false} OneNamed(items: seq<Item>) returns (i: int)
    requires |NamedItems(items)| == 1
    ensures OnlyNamed(items, i) && NamedItems(items) == [items[i]]
  {
    var front := items[..|items| - 1];
    if items[|items| - 1].Named? {
      NothingNamed(front);
      i := |items| - 1;
      assert forall j :: 0 <= j < |front| ==> items[j] == front[j];
    } else {
      i := OneNamed(front);
      assert forall j :: 0 <= j < |front| ==> items[j] == front[j];
    }
  }

  lemma {:induction false} OnlyNamedIsOne(items: seq<Item>, i: int)
    requires OnlyNamed(items, i)
    ensures NamedItems(items) == [items[i]]
  {
    var front := items[..|items| - 1];
    if i == |front| { NothingNamed(front); } else { OnlyNamedIsOne(front, i); }
  }

  /** A slug is reconciled exactly when the inventory is not too long, every item in it is admissible and
      one item alone bears the name; in every other case nothing is, and the candidate is blocked. */
  lemma ReconciledExactly(items: seq<Item>, startedAt: int)
    ensures ReconciledSlug(items, startedAt).None? <==>
      || |items| > MAX_BACKUP_INVENTORY
      || (exists i :: 0 <= i < |items| && !Admissible(items[i], startedAt))
      || !exists i :: OnlyNamed(items, i)
    ensures forall i :: ReconciledSlug(items, startedAt).Some? && OnlyNamed(items, i) ==>
      ReconciledSlug(items, startedAt) == items[i].slug
  {
    forall i | OnlyNamed(items, i) ensures NamedItems(items) == [items[i]] && items[i] in items {
      OnlyNamedIsOne(items, i);
    }
    if |NamedItems(items)| == 1 {
      var i := OneNamed(items);
    }
  }

  lemma NamedItemsGrow(items: seq<Item>, n: nat)
    requires n < |items|
    ensures NamedItems(items[..n + 1]) == if items[n].Named? then NamedItems(items[..n]) + [items[n]] else NamedItems(items[..n])
  {
    assert items[..n + 1][..n] == items[..n];
  }

  /** The inventory scan as it runs: reject on the first bad item, then require exactly one match. */
  method ReconcileBackupSlug(items: seq<Item>, startedAt: int) returns (slug: Option<string>)
    ensures slug == ReconciledSlug(items, startedAt)
  {
    if |items| > MAX_BACKUP_INVENTORY { return None; }
    var matches: seq<string> := [];
    for n := 0 to |items|
      invariant forall i :: 0 <= i < n ==> Admissible(items[i], startedAt)
      invariant |matches| == |NamedItems(items[..n])|
      invariant forall i :: 0 <= i < |matches| ==> NamedItems(items[..n])[i].slug == Some(matches[i])
    {
      NamedItemsGrow(items, n);
      var item := items[n];
      if item.Foreign? { continue; }
      if !item.fieldsAdmitted || item.slug.None? || item.date.None? { return None; }
      if item.date.value < startedAt { return None; }
      matches := matches + [item.slug.value];
    }
    assert items[..|items|] == items;
    if |matches| != 1 { return None; }
    return Some(matches[0]);
  }
}

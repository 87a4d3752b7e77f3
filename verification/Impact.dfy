/** Runtime impact of a candidate entity: the edge index grouped by source, and the expansion of one
    entity through it. */
module Impact {
  import opened Options
  import opened Separated

  type Key = (string, string)

  datatype Edge = Edge(sourceType: string, sourceId: string, relation: string, targetType: string, targetId: string, authority: string)

  function KeyOf(e: Edge): Key {
    (e.sourceType, e.sourceId)
  }

  // ---------------------------------------------------------------- the index

  /** The edges from one source, in their order. */
  function From(edges: seq<Edge>, key: Key): (own: seq<Edge>)
    ensures forall e :: e in own <==> e in edges && KeyOf(e) == key
  {
    if edges == [] then []
    else
      var front, last := edges[..|edges| - 1], edges[|edges| - 1];
      assert edges == front + [last];
      From(front, key) + if KeyOf(last) == key then [last] else []
  }

  /** Two edges of one source keep their order in the index. */
  lemma {:induction false} FromKeepsOrder(edges: seq<Edge>, key: Key, i: nat, j: nat) returns (x: nat, y: nat)
    requires i < j < |edges| && KeyOf(edges[i]) == key == KeyOf(edges[j])
    ensures x < y < |From(edges, key)| && From(edges, key)[x] == edges[i] && From(edges, key)[y] == edges[j]
    decreases |edges|
  {
    var front := edges[..|edges| - 1];
    if j < |edges| - 1 {
      x, y := FromKeepsOrder(front, key, i, j);
    } else {
      assert front[i] in From(front, key);
      x :| 0 <= x < |From(front, key)| && From(front, key)[x] == edges[i];
      y := |From(front, key)|;
    }
  }

  type Index = map<Key, seq<Edge>>

  /** `outgoing.get(key, ())`. */
  function Get(index: Index, key: Key): seq<Edge> {
    if key in index then index[key] else []
  }

  /** The index answers every source with exactly its own edges in order, and lists no other source. */
  ghost predicate Indexes(index: Index, edges: seq<Edge>) {
    forall key {:trigger Get(index, key)} :: Get(index, key) == From(edges, key) && (key in index <==> From(edges, key) != [])
  }

  /** `_group_edges`. */
  method GroupEdges(edges: seq<Edge>) returns (index: Index)
    ensures Indexes(index, edges)
  {
    index := map[];
    for n := 0 to |edges|
      invariant Indexes(index, edges[..n])
    {
      var key := KeyOf(edges[n]);
      ghost var before := index;
      assert edges[..n + 1][..n] == edges[..n];
      index := index[key := Get(index, key) + [edges[n]]];
      forall k ensures Get(index, k) == From(edges[..n + 1], k) && (k in index <==> From(edges[..n + 1], k) != []) {
        assert Get(before, k) == From(edges[..n], k);
      }
    }
    assert edges[..|edges|] == edges;
  }

  // ---------------------------------------------------------------- the relational definition

  /** The targets of one relation out of a set of sources. */
  function Targets(edges: seq<Edge>, sources: set<Key>, relation: string, targetType: string): set<string> {
    set e | e in edges && KeyOf(e) in sources && e.relation == relation && e.targetType == targetType :: e.targetId
  }

  function Derived(edges: seq<Edge>, sources: set<Key>): set<string> {
    set e | e in edges && KeyOf(e) in sources && e.relation == "located_in" && e.targetType == "area" && e.authority == "derived" :: e.targetId
  }

  function Names(edges: seq<Edge>, sources: set<Key>): set<string> {
    set e | e in edges && KeyOf(e) in sources :: e.targetType + ":" + e.targetId
  }

  function Keys(kind: string, ids: set<string>): set<Key> {
    set id | id in ids :: (kind, id)
  }

  datatype EntityImpact = EntityImpact(
    entityId: string, domain: string, objectKind: string, devices: set<string>, integrations: set<string>, areas: set<string>,
    floors: set<string>, labels: set<string>, derived: set<string>, unresolved: set<string>)

  /** The entity and the devices it belongs to directly. Devices that only another device names are
      collected but not expanded. */
  function Expanded(edges: seq<Edge>, entityId: string): set<Key> {
    {("entity", entityId)} + Keys("device", Targets(edges, {("entity", entityId)}, "belongs_to_device", "device"))
  }

  function AreasOf(edges: seq<Edge>, entityId: string): set<string> {
    Targets(edges, Expanded(edges, entityId), "located_in", "area")
  }

  predicate IsImpact(r: EntityImpact, edges: seq<Edge>, unresolved: seq<Edge>, entityId: string) {
    var sources := Expanded(edges, entityId);
    var areas := Keys("area", AreasOf(edges, entityId));
    && r.entityId == entityId
    && r.devices == Targets(edges, sources, "belongs_to_device", "device")
    && r.integrations == Targets(edges, sources, "configured_by", "integration")
    && r.areas == AreasOf(edges, entityId)
    && r.derived == Derived(edges, sources)
    && r.labels == Targets(edges, sources, "has_label", "label") + Targets(edges, areas, "has_label", "label")
    && r.floors == Targets(edges, areas, "on_floor", "floor")
    && r.unresolved == Names(unresolved, sources) + Names(unresolved, areas)
  }

  // ---------------------------------------------------------------- expansion as it runs

  lemma MoreSources(edges: seq<Edge>, a: set<Key>, b: set<Key>, relation: string, targetType: string)
    ensures Targets(edges, a + b, relation, targetType) == Targets(edges, a, relation, targetType) + Targets(edges, b, relation, targetType)
    ensures Derived(edges, a + b) == Derived(edges, a) + Derived(edges, b)
    ensures Names(edges, a + b) == Names(edges, a) + Names(edges, b)
  {
  }

  lemma OwnEdges(edges: seq<Edge>, key: Key, relation: string, targetType: string)
    ensures Targets(From(edges, key), {key}, relation, targetType) == Targets(edges, {key}, relation, targetType)
    ensures Derived(From(edges, key), {key}) == Derived(edges, {key})
    ensures Names(From(edges, key), {key}) == Names(edges, {key})
  {
  }

  datatype Sets = Sets(
    devices: set<string>, integrations: set<string>, areas: set<string>, floors: set<string>, labels: set<string>,
    derived: set<string>, unresolved: set<string>)

  predicate Says(e: Edge, relation: string, targetType: string) {
    e.relation == relation && e.targetType == targetType
  }

  /** What one edge of an entity or device adds. */
  function Take(s: Sets, e: Edge): Sets {
    if Says(e, "belongs_to_device", "device") then s.(devices := s.devices + {e.targetId})
    else if Says(e, "configured_by", "integration") then s.(integrations := s.integrations + {e.targetId})
    else if Says(e, "located_in", "area") then
      s.(areas := s.areas + {e.targetId}, derived := if e.authority == "derived" then s.derived + {e.targetId} else s.derived)
    else if Says(e, "has_label", "label") then s.(labels := s.labels + {e.targetId})
    else s
  }

  function TakeAll(s: Sets, own: seq<Edge>): Sets {
    if own == [] then s else Take(TakeAll(s, own[..|own| - 1]), own[|own| - 1])
  }

  /** What one edge of an area adds. */
  function TakeArea(s: Sets, e: Edge): Sets {
    if Says(e, "on_floor", "floor") then s.(floors := s.floors + {e.targetId})
    else if Says(e, "has_label", "label") then s.(labels := s.labels + {e.targetId})
    else s
  }

  function TakeAllArea(s: Sets, own: seq<Edge>): Sets {
    if own == [] then s else TakeArea(TakeAllArea(s, own[..|own| - 1]), own[|own| - 1])
  }

  predicate OwnedBy(own: seq<Edge>, key: Key) {
    forall e :: e in own ==> KeyOf(e) == key
  }

  lemma LastTarget(own: seq<Edge>, key: Key, relation: string, targetType: string)
    requires own != [] && OwnedBy(own, key)
    ensures
      var front, last := own[..|own| - 1], own[|own| - 1];
      && OwnedBy(front, key)
      && Targets(own, {key}, relation, targetType)
         == Targets(front, {key}, relation, targetType) + (if Says(last, relation, targetType) then {last.targetId} else {})
  {
    var front, last := own[..|own| - 1], own[|own| - 1];
    assert own == front + [last];
    assert last in own;
  }

  lemma LastDerived(own: seq<Edge>, key: Key)
    requires own != [] && OwnedBy(own, key)
    ensures
      var front, last := own[..|own| - 1], own[|own| - 1];
      Derived(own, {key}) == Derived(front, {key}) + (if Says(last, "located_in", "area") && last.authority == "derived" then {last.targetId} else {})
  {
    var front, last := own[..|own| - 1], own[|own| - 1];
    assert own == front + [last];
    assert last in own;
  }

  lemma {:induction false} TakenDevices(s: Sets, own: seq<Edge>, key: Key)
    requires OwnedBy(own, key)
    ensures TakeAll(s, own).devices == s.devices + Targets(own, {key}, "belongs_to_device", "device")
  {
    if own != [] {
      LastTarget(own, key, "belongs_to_device", "device");
      TakenDevices(s, own[..|own| - 1], key);
    }
  }

  lemma {:induction false} TakenIntegrations(s: Sets, own: seq<Edge>, key: Key)
    requires OwnedBy(own, key)
    ensures TakeAll(s, own).integrations == s.integrations + Targets(own, {key}, "configured_by", "integration")
  {
    if own != [] {
      LastTarget(own, key, "configured_by", "integration");
      TakenIntegrations(s, own[..|own| - 1], key);
    }
  }

  lemma {:induction false} TakenAreas(s: Sets, own: seq<Edge>, key: Key)
    requires OwnedBy(own, key)
    ensures TakeAll(s, own).areas == s.areas + Targets(own, {key}, "located_in", "area")
    ensures TakeAll(s, own).derived == s.derived + Derived(own, {key})
  {
    if own != [] {
      LastTarget(own, key, "located_in", "area");
      LastDerived(own, key);
      TakenAreas(s, own[..|own| - 1], key);
    }
  }

  lemma {:induction false} TakenLabels(s: Sets, own: seq<Edge>, key: Key)
    requires OwnedBy(own, key)
    ensures TakeAll(s, own).labels == s.labels + Targets(own, {key}, "has_label", "label")
    ensures TakeAll(s, own).floors == s.floors && TakeAll(s, own).unresolved == s.unresolved
  {
    if own != [] {
      LastTarget(own, key, "has_label", "label");
      TakenLabels(s, own[..|own| - 1], key);
    }
  }

  lemma {:induction false} TakenFromArea(s: Sets, own: seq<Edge>, key: Key)
    requires OwnedBy(own, key)
    ensures TakeAllArea(s, own) == s.(floors := s.floors + Targets(own, {key}, "on_floor", "floor"),
                                      labels := s.labels + Targets(own, {key}, "has_label", "label"))
  {
    if own != [] {
      LastTarget(own, key, "on_floor", "floor");
      LastTarget(own, key, "has_label", "label");
      TakenFromArea(s, own[..|own| - 1], key);
    }
  }

  lemma {:induction false} LastName(own: seq<Edge>, key: Key)
    requires own != [] && OwnedBy(own, key)
    ensures OwnedBy(own[..|own| - 1], key)
    ensures Names(own, {key}) == Names(own[..|own| - 1], {key}) + {own[|own| - 1].targetType + ":" + own[|own| - 1].targetId}
  {
    assert own == own[..|own| - 1] + [own[|own| - 1]];
    assert own[|own| - 1] in own;
  }

  /** The sets one expansion fills. */
  class Collection {
    var devices: set<string>
    var integrations: set<string>
    var areas: set<string>
    var floors: set<string>
    var labels: set<string>
    var derived: set<string>
    var unresolved: set<string>

    constructor ()
      ensures Contents() == Sets({}, {}, {}, {}, {}, {}, {})
    {
      devices, integrations, areas, floors, labels, derived, unresolved := {}, {}, {}, {}, {}, {}, {};
    }

    function Contents(): Sets
      reads this
    {
      Sets(devices, integrations, areas, floors, labels, derived, unresolved)
    }

    /** `_collect` over the edges of one source. */
    method Collect(own: seq<Edge>)
      modifies this
      ensures Contents() == TakeAll(old(Contents()), own)
    {
      for n := 0 to |own|
        invariant Contents() == TakeAll(old(Contents()), own[..n])
      {
        var e := own[n];
        assert own[..n + 1][..n] == own[..n];
        if e.relation == "belongs_to_device" && e.targetType == "device" {
          devices := devices + {e.targetId};
        } else if e.relation == "configured_by" && e.targetType == "integration" {
          integrations := integrations + {e.targetId};
        } else if e.relation == "located_in" && e.targetType == "area" {
          areas := areas + {e.targetId};
          if e.authority == "derived" { derived := derived + {e.targetId}; }
        } else if e.relation == "has_label" && e.targetType == "label" {
          labels := labels + {e.targetId};
        }
      }
      assert own[..|own|] == own;
    }

    /** `_collect_unresolved`. */
    method CollectUnresolved(own: seq<Edge>, ghost key: Key)
      requires OwnedBy(own, key)
      modifies this`unresolved
      ensures unresolved == old(unresolved) + Names(own, {key})
    {
      for n := 0 to |own|
        invariant unresolved == old(unresolved) + Names(own[..n], {key})
      {
        var upTo := own[..n + 1];
        assert upTo[..n] == own[..n] && upTo[n] == own[n];
        assert forall e :: e in upTo ==> e in own;
        LastName(upTo, key);
        unresolved := unresolved + {own[n].targetType + ":" + own[n].targetId};
      }
      assert own[..|own|] == own;
    }

    /** The floor and label edges of one area. */
    method CollectArea(own: seq<Edge>)
      modifies this`floors, this`labels
      ensures Contents() == TakeAllArea(old(Contents()), own)
    {
      for n := 0 to |own|
        invariant Contents() == TakeAllArea(old(Contents()), own[..n])
      {
        var e := own[n];
        assert own[..n + 1][..n] == own[..n];
        if e.relation == "on_floor" && e.targetType == "floor" {
          floors := floors + {e.targetId};
        } else if e.relation == "has_label" && e.targetType == "label" {
          labels := labels + {e.targetId};
        }
      }
      assert own[..|own|] == own;
    }

    /** `_collect` and `_collect_unresolved` for one entity or device. */
    method ExpandSource(outgoing: Index, unresolvedIndex: Index, key: Key, ghost edges: seq<Edge>, ghost unresolvedEdges: seq<Edge>, ghost done: set<Key>)
      requires Indexes(outgoing, edges) && Indexes(unresolvedIndex, unresolvedEdges) && Holds(Contents(), edges, unresolvedEdges, done)
      modifies this
      ensures Holds(Contents(), edges, unresolvedEdges, done + {key}) && floors == old(floors)
    {
      assert Get(outgoing, key) == From(edges, key) && Get(unresolvedIndex, key) == From(unresolvedEdges, key);
      Collect(Get(outgoing, key));
      CollectUnresolved(Get(unresolvedIndex, key), key);
      SourceTaken(old(Contents()), edges, unresolvedEdges, done, key);
    }

    /** The floor and label edges, and the unresolved ones, of one area. */
    method ExpandArea(outgoing: Index, unresolvedIndex: Index, key: Key, ghost edges: seq<Edge>, ghost unresolvedEdges: seq<Edge>, ghost start: Sets, ghost done: set<Key>)
      requires Indexes(outgoing, edges) && Indexes(unresolvedIndex, unresolvedEdges) && HoldsAreas(start, Contents(), edges, unresolvedEdges, done)
      modifies this
      ensures HoldsAreas(start, Contents(), edges, unresolvedEdges, done + {key})
    {
      assert Get(outgoing, key) == From(edges, key) && Get(unresolvedIndex, key) == From(unresolvedEdges, key);
      CollectArea(Get(outgoing, key));
      CollectUnresolved(Get(unresolvedIndex, key), key);
      AreaTaken(start, old(Contents()), edges, unresolvedEdges, done, key);
    }
  }

  /** What a collection holds once the sources `done` have been expanded. */
  ghost predicate Holds(s: Sets, edges: seq<Edge>, unresolvedEdges: seq<Edge>, done: set<Key>) {
    && s.devices == Targets(edges, done, "belongs_to_device", "device")
    && s.integrations == Targets(edges, done, "configured_by", "integration")
    && s.areas == Targets(edges, done, "located_in", "area")
    && s.labels == Targets(edges, done, "has_label", "label")
    && s.derived == Derived(edges, done)
    && s.unresolved == Names(unresolvedEdges, done)
  }

  /** What it holds once the areas `done` have been expanded too. */
  ghost predicate HoldsAreas(start: Sets, s: Sets, edges: seq<Edge>, unresolvedEdges: seq<Edge>, done: set<Key>) {
    s == start.(floors := start.floors + Targets(edges, done, "on_floor", "floor"),
                labels := start.labels + Targets(edges, done, "has_label", "label"),
                unresolved := start.unresolved + Names(unresolvedEdges, done))
  }

  lemma TargetsGrow(edges: seq<Edge>, done: set<Key>, key: Key, relation: string, targetType: string)
    ensures Targets(edges, done + {key}, relation, targetType) == Targets(edges, done, relation, targetType) + Targets(From(edges, key), {key}, relation, targetType)
    ensures Derived(edges, done + {key}) == Derived(edges, done) + Derived(From(edges, key), {key})
    ensures Names(edges, done + {key}) == Names(edges, done) + Names(From(edges, key), {key})
    ensures OwnedBy(From(edges, key), key)
  {
    MoreSources(edges, done, {key}, relation, targetType);
    OwnEdges(edges, key, relation, targetType);
  }

  lemma SourceTaken(s: Sets, edges: seq<Edge>, unresolvedEdges: seq<Edge>, done: set<Key>, key: Key)
    requires Holds(s, edges, unresolvedEdges, done)
    ensures
      var own := From(edges, key);
      var s' := TakeAll(s, own);
      && s'.unresolved == s.unresolved && s'.floors == s.floors
      && Holds(s'.(unresolved := s.unresolved + Names(From(unresolvedEdges, key), {key})), edges, unresolvedEdges, done + {key})
  {
    var own := From(edges, key);
    TargetsGrow(edges, done, key, "belongs_to_device", "device");
    TargetsGrow(edges, done, key, "configured_by", "integration");
    TargetsGrow(edges, done, key, "located_in", "area");
    TargetsGrow(edges, done, key, "has_label", "label");
    TargetsGrow(unresolvedEdges, done, key, "", "");
    TakenDevices(s, own, key);
    TakenIntegrations(s, own, key);
    TakenAreas(s, own, key);
    TakenLabels(s, own, key);
  }

  lemma AreaTaken(start: Sets, s: Sets, edges: seq<Edge>, unresolvedEdges: seq<Edge>, done: set<Key>, key: Key)
    requires HoldsAreas(start, s, edges, unresolvedEdges, done)
    ensures
      var s' := TakeAllArea(s, From(edges, key));
      && s'.unresolved == s.unresolved
      && HoldsAreas(start, s'.(unresolved := s.unresolved + Names(From(unresolvedEdges, key), {key})), edges, unresolvedEdges, done + {key})
  {
    TargetsGrow(edges, done, key, "on_floor", "floor");
    TargetsGrow(edges, done, key, "has_label", "label");
    TargetsGrow(unresolvedEdges, done, key, "", "");
    TakenFromArea(s, From(edges, key), key);
    UnionAssociates(start.floors, Targets(edges, done, "on_floor", "floor"), Targets(From(edges, key), {key}, "on_floor", "floor"));
    UnionAssociates(start.labels, Targets(edges, done, "has_label", "label"), Targets(From(edges, key), {key}, "has_label", "label"));
    UnionAssociates(start.unresolved, Names(unresolvedEdges, done), Names(From(unresolvedEdges, key), {key}));
  }

  lemma UnionAssociates(a: set<string>, b: set<string>, c: set<string>)
    ensures (a + b) + c == a + (b + c)
  {
  }

  lemma KeysAdd(kind: string, ids: set<string>, id: string)
    ensures Keys(kind, ids + {id}) == Keys(kind, ids) + {(kind, id)}
  {
  }

  lemma NothingExpanded(s: Sets, edges: seq<Edge>, unresolvedEdges: seq<Edge>)
    ensures Holds(Sets({}, {}, {}, {}, {}, {}, {}), edges, unresolvedEdges, {})
    ensures HoldsAreas(s, s, edges, unresolvedEdges, {})
  {
  }

  const SPECIAL: set<string> := {"automation", "script", "scene"}

  /** `_expand_entity`, in whatever order the device and area sets are gone through. */
  method ExpandEntity(entityId: string, outgoing: Index, unresolvedIndex: Index, ghost edges: seq<Edge>, ghost unresolvedEdges: seq<Edge>)
    returns (r: Option<EntityImpact>)
    requires Indexes(outgoing, edges) && Indexes(unresolvedIndex, unresolvedEdges)
    ensures r.Some? <==> Cut(entityId, '.').Some? && Cut(entityId, '.').value.0 != [] && Cut(entityId, '.').value.1 != []
    ensures r.Some? ==> IsImpact(r.value, edges, unresolvedEdges, entityId)
    ensures r.Some? ==>
      && r.value.domain == Cut(entityId, '.').value.0
      && r.value.objectKind == if r.value.domain in SPECIAL then r.value.domain else "entity"
  {
    var parts := Cut(entityId, '.');
    if parts.None? || parts.value.0 == [] || parts.value.1 == [] { return None; }
    var domain := parts.value.0;
    var c := new Collection();
    NothingExpanded(c.Contents(), edges, unresolvedEdges);
    c.ExpandSource(outgoing, unresolvedIndex, ("entity", entityId), edges, unresolvedEdges, {});
    assert {} + {("entity", entityId)} == {("entity", entityId)};
    ExpandDevices(c, entityId, outgoing, unresolvedIndex, edges, unresolvedEdges);
    ExpandAreas(c, outgoing, unresolvedIndex, edges, unresolvedEdges);
    return Some(EntityImpact(entityId, domain, if domain in SPECIAL then domain else "entity",
                             c.devices, c.integrations, c.areas, c.floors, c.labels, c.derived, c.unresolved));
  }

  /** The entity and the devices `done` so far. */
  function Sources(entityId: string, done: set<string>): set<Key> {
    {("entity", entityId)} + Keys("device", done)
  }

  lemma SourcesAdd(entityId: string, done: set<string>, id: string)
    ensures Sources(entityId, done) + {("device", id)} == Sources(entityId, done + {id})
    ensures Sources(entityId, {}) == {("entity", entityId)}
  {
    KeysAdd("device", done, id);
  }

  method ExpandDevices(c: Collection, entityId: string, outgoing: Index, unresolvedIndex: Index, ghost edges: seq<Edge>, ghost unresolvedEdges: seq<Edge>)
    requires Indexes(outgoing, edges) && Indexes(unresolvedIndex, unresolvedEdges)
    requires Holds(c.Contents(), edges, unresolvedEdges, {("entity", entityId)})
    modifies c
    ensures Holds(c.Contents(), edges, unresolvedEdges, Expanded(edges, entityId)) && c.floors == old(c.floors)
  {
    var direct := c.devices;
    var rest := direct;
    SourcesAdd(entityId, {}, "");
    assert direct - rest == {};
    while rest != {}
      invariant rest <= direct
      invariant Holds(c.Contents(), edges, unresolvedEdges, Sources(entityId, direct - rest)) && c.floors == old(c.floors)
      decreases |rest|
    {
      var id :| id in rest;
      SourcesAdd(entityId, direct - rest, id);
      c.ExpandSource(outgoing, unresolvedIndex, ("device", id), edges, unresolvedEdges, Sources(entityId, direct - rest));
      assert direct - rest + {id} == direct - (rest - {id});
      rest := rest - {id};
    }
    assert direct - rest == direct;
  }

  method ExpandAreas(c: Collection, outgoing: Index, unresolvedIndex: Index, ghost edges: seq<Edge>, ghost unresolvedEdges: seq<Edge>)
    requires Indexes(outgoing, edges) && Indexes(unresolvedIndex, unresolvedEdges)
    modifies c
    ensures HoldsAreas(old(c.Contents()), c.Contents(), edges, unresolvedEdges, Keys("area", old(c.areas)))
  {
    var areas := c.areas;
    var rest := areas;
    NothingExpanded(c.Contents(), edges, unresolvedEdges);
    assert Keys("area", areas - rest) == {};
    while rest != {}
      invariant rest <= areas
      invariant HoldsAreas(old(c.Contents()), c.Contents(), edges, unresolvedEdges, Keys("area", areas - rest))
      decreases |rest|
    {
      var id :| id in rest;
      KeysAdd("area", areas - rest, id);
      c.ExpandArea(outgoing, unresolvedIndex, ("area", id), edges, unresolvedEdges, old(c.Contents()), Keys("area", areas - rest));
      assert areas - rest + {id} == areas - (rest - {id});
      rest := rest - {id};
    }
    assert areas - rest == areas;
  }

  // ---------------------------------------------------------------- devices named by devices

  /** The entity itself belongs to the device. */
  predicate BelongsDirectly(edges: seq<Edge>, entityId: string, device: string) {
    exists e :: e in edges && KeyOf(e) == ("entity", entityId) && Says(e, "belongs_to_device", "device") && e.targetId == device
  }

  lemma ExpandedDevices(edges: seq<Edge>, entityId: string, device: string)
    ensures ("device", device) in Expanded(edges, entityId) <==> BelongsDirectly(edges, entityId, device)
  {
    var direct := Targets(edges, {("entity", entityId)}, "belongs_to_device", "device");
    assert ("device", device) in Keys("device", direct) <==> device in direct;
    if BelongsDirectly(edges, entityId, device) {
      var e :| e in edges && KeyOf(e) == ("entity", entityId) && Says(e, "belongs_to_device", "device") && e.targetId == device;
      assert KeyOf(e) in {("entity", entityId)};
    }
  }

  /** A device that only another device names is reported, but it is not expanded, and an area that only
      it is located in is not reported. */
  lemma NamedDeviceIsNotExpanded(r: EntityImpact, edges: seq<Edge>, unresolved: seq<Edge>, entityId: string, naming: Edge, area: string)
    requires IsImpact(r, edges, unresolved, entityId) && naming in edges && Says(naming, "belongs_to_device", "device")
    requires naming.sourceType == "device" && BelongsDirectly(edges, entityId, naming.sourceId)
    requires !BelongsDirectly(edges, entityId, naming.targetId)
    requires forall e :: e in edges && Says(e, "located_in", "area") && e.targetId == area ==> KeyOf(e) == ("device", naming.targetId)
    ensures naming.targetId in r.devices && ("device", naming.targetId) !in Expanded(edges, entityId)
    ensures area !in r.areas
  {
    ExpandedDevices(edges, entityId, naming.sourceId);
    ExpandedDevices(edges, entityId, naming.targetId);
    assert KeyOf(naming) in Expanded(edges, entityId);
  }

  /** Two lists hold the same edges but for those out of one source. */
  ghost predicate SameApartFrom(edges: seq<Edge>, edges': seq<Edge>, key: Key) {
    forall e :: KeyOf(e) != key ==> (e in edges <==> e in edges')
  }

  lemma OtherSourcesDecide(edges: seq<Edge>, edges': seq<Edge>, key: Key, sources: set<Key>, relation: string, targetType: string)
    requires SameApartFrom(edges, edges', key) && key !in sources
    ensures Targets(edges, sources, relation, targetType) == Targets(edges', sources, relation, targetType)
    ensures Derived(edges, sources) == Derived(edges', sources)
    ensures Names(edges, sources) == Names(edges', sources)
  {
    assert forall e :: KeyOf(e) in sources ==> KeyOf(e) != key;
  }

  /** Whatever edges leave a device the entity does not belong to directly, the impact is the same. */
  lemma UnexpandedDeviceDoesNotMatter(r: EntityImpact, edges: seq<Edge>, edges': seq<Edge>, unresolved: seq<Edge>, unresolved': seq<Edge>,
                                      entityId: string, device: string)
    requires SameApartFrom(edges, edges', ("device", device)) && SameApartFrom(unresolved, unresolved', ("device", device))
    requires !BelongsDirectly(edges, entityId, device)
    ensures IsImpact(r, edges, unresolved, entityId) <==> IsImpact(r, edges', unresolved', entityId)
  {
    var key := ("device", device);
    ExpandedDevices(edges, entityId, device);
    OtherSourcesDecide(edges, edges', key, {("entity", entityId)}, "belongs_to_device", "device");
    var sources := Expanded(edges, entityId);
    assert Expanded(edges', entityId) == sources;
    OtherSourcesDecide(edges, edges', key, sources, "located_in", "area");
    var areas := Keys("area", AreasOf(edges, entityId));
    assert key !in areas;
    OtherSourcesDecide(edges, edges', key, sources, "belongs_to_device", "device");
    OtherSourcesDecide(edges, edges', key, sources, "configured_by", "integration");
    OtherSourcesDecide(edges, edges', key, sources, "has_label", "label");
    OtherSourcesDecide(edges, edges', key, areas, "has_label", "label");
    OtherSourcesDecide(edges, edges', key, areas, "on_floor", "floor");
    OtherSourcesDecide(unresolved, unresolved', key, sources, "", "");
    OtherSourcesDecide(unresolved, unresolved', key, areas, "", "");
  }
}

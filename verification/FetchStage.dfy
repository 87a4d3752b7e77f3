/** Fetch/Stage commits to two resources: a directory renamed into place on disk and a checkpoint row
    in the database. Passes run one at a time (the process holds the state lock), and the process may
    crash between any two steps and in the middle of any directory removal or staging. A staged directory
    is its manifest and its tree, written and verified as `StageTree` and `StageVerifier` do. */
module FetchStage {
  import opened Options
  import opened JsonText
  import opened Utf8
  import opened GitTree
  import opened StageTree
  import opened StageVerifier
  import opened StageListing

  datatype Identity = Identity(target: Text, repositoryId: nat, commit: Text)

  /** What manifest.json says; its digest is the manifest itself. */
  datatype Manifest = Manifest(id: Identity, entries: seq<StagedEntry>)

  /** A directory under the staging root: its manifest file (None while missing or cut short) and its tree. */
  datatype Directory = Directory(manifest: Option<Manifest>, nodes: Nodes)

  datatype Name = Temp(id: string) | Final(workspace: string)

  datatype Row =
    | Planned(id: Identity, workspace: string)
    | Completed(id: Identity, workspace: string, manifest: Manifest, entryCount: nat, totalBytes: int)

  type Directories = map<Name, Directory>
  type Rows = map<Text, Row>

  const MAX_DISCOVERABLE: nat := 64
  const MAX_MANIFEST_ENTRIES: nat := 4096
  const MAX_MANIFEST_BYTES: nat := 16 * 1024 * 1024

  /** `sum(entry.size for entry in entries)`. */
  function Total(staged: seq<StagedEntry>): int {
    if staged == [] then 0 else Total(staged[..|staged| - 1]) + staged[|staged| - 1].size
  }

  // ---------------------------------------------------------------- the length of a manifest

  const ENTRY_FRAME: string := "{\"git_mode\":\"100644\",\"object_id\":\"\",\"path\":\"\",\"sha256\":\"\",\"size\":}"
  const MANIFEST_FRAME: string :=
    "{\"branch\":\"candidate\",\"commit_sha\":\"\",\"entries\":[],\"repository_id\":,\"target\":\"\",\"version\":1}\n"

  function EntryLength(e: StagedEntry): nat {
    |ENTRY_FRAME| + |e.entry.objectId| + TextLength(e.entry.path) + 64 + NumberLength(e.size)
  }

  /** The entries of a manifest, each but the first after a comma. */
  function EntriesLength(staged: seq<StagedEntry>): nat {
    if staged == [] then 0
    else EntriesLength(staged[..|staged| - 1]) + (if |staged| > 1 then 1 else 0) + EntryLength(staged[|staged| - 1])
  }

  function Length(m: Manifest): nat {
    |MANIFEST_FRAME| + TextLength(m.id.commit) + EntriesLength(m.entries) + NumberLength(m.id.repositoryId) + TextLength(m.id.target)
  }

  // ---------------------------------------------------------------- what a completed row promises

  /** `verify_candidate_stage` accepts: the manifest file is this manifest, and the tree is exactly the tree
      its entries call for. */
  ghost predicate Holds(d: Directory, m: Manifest) {
    d.manifest == Some(m) && Verifies(d.nodes, m.entries)
  }

  /** A completed row names an existing directory whose verified contents match everything it recorded. */
  ghost predicate Names(disk: Directories, sha: Text, row: Row) {
    && row.id.commit == sha
    && (row.Completed? ==>
          && Final(row.workspace) in disk && Holds(disk[Final(row.workspace)], row.manifest) && row.manifest.id == row.id
          && row.entryCount == |row.manifest.entries| && row.totalBytes == Total(row.manifest.entries))
  }

  ghost predicate Consistent(rows: Rows, disk: Directories) {
    && (forall sha {:trigger rows[sha]} :: sha in rows ==> Names(disk, sha, rows[sha]))
    && (forall a, b {:trigger rows[a], rows[b]} :: a in rows && b in rows && a != b ==> rows[a].workspace != rows[b].workspace)
    && (forall n {:trigger disk[n]} :: n in disk ==> WellFormed(disk[n].nodes))
  }

  function Files(nodes: Nodes): set<Place> {
    set p | p in nodes && nodes[p].File?
  }

  /** The bytes of the files at some places. */
  ghost function BytesAt(nodes: Nodes, places: set<Place>): nat
    requires places <= Files(nodes)
  {
    if places == {} then 0
    else
      var p :| p in places;
      |nodes[p].data| + BytesAt(nodes, places - {p})
  }

  lemma BytesOfSome(nodes: Nodes, places: set<Place>) returns (p: Place)
    requires places <= Files(nodes) && places != {}
    ensures p in places && BytesAt(nodes, places) == |nodes[p].data| + BytesAt(nodes, places - {p})
  {
    p :| p in places && BytesAt(nodes, places) == |nodes[p].data| + BytesAt(nodes, places - {p});
  }

  lemma {:induction false} BytesOfOneMore(nodes: Nodes, places: set<Place>, q: Place)
    requires places <= Files(nodes) && q in Files(nodes) && q !in places
    ensures BytesAt(nodes, places + {q}) == BytesAt(nodes, places) + |nodes[q].data|
    decreases |places|
  {
    var all := places + {q};
    var p := BytesOfSome(nodes, all);
    if p == q {
      assert all - {p} == places;
    } else {
      var rest := places - {p};
      assert all - {p} == rest + {q} && places == rest + {p};
      BytesOfOneMore(nodes, rest, q);
      BytesOfOneMore(nodes, rest, p);
    }
  }

  function Places(staged: seq<StagedEntry>): set<Place> {
    if staged == [] then {} else Places(staged[..|staged| - 1]) + {PlaceOf(staged[|staged| - 1].entry.path)}
  }

  lemma {:induction false} PlacesAreEntries(staged: seq<StagedEntry>, p: Place)
    ensures p in Places(staged) <==> EntryAt(staged, p)
  {
    if staged != [] {
      var front, n := staged[..|staged| - 1], |staged| - 1;
      PlacesAreEntries(front, p);
      if EntryAt(front, p) {
        var i :| 0 <= i < |front| && PlaceOf(front[i].entry.path) == p;
        assert staged[i] == front[i];
      }
      if EntryAt(staged, p) {
        var i :| 0 <= i < |staged| && PlaceOf(staged[i].entry.path) == p;
        if i < n { assert front[i] == staged[i]; }
      }
    }
  }

  /** The entry's file is on disk, as long as the entry says. */
  predicate EntryThere(nodes: Nodes, e: StagedEntry) {
    PlaceOf(e.entry.path) in Files(nodes) && |nodes[PlaceOf(e.entry.path)].data| == e.size
  }

  predicate Apart(a: StagedEntry, b: StagedEntry) {
    PlaceOf(a.entry.path) != PlaceOf(b.entry.path)
  }

  lemma OneMoreCounts(nodes: Nodes, before: set<Place>, after: set<Place>, p: Place)
    requires before <= Files(nodes) && p in Files(nodes) && p !in before && after == before + {p}
    ensures after <= Files(nodes) && |after| == |before| + 1
    ensures BytesAt(nodes, after) == BytesAt(nodes, before) + |nodes[p].data|
  {
    BytesOfOneMore(nodes, before, p);
  }

  lemma {:induction false} CountAndTotal(nodes: Nodes, staged: seq<StagedEntry>)
    requires forall i :: 0 <= i < |staged| ==> EntryThere(nodes, staged[i])
    requires forall i, j :: 0 <= i < j < |staged| ==> Apart(staged[i], staged[j])
    ensures Places(staged) <= Files(nodes) && |Places(staged)| == |staged| && Total(staged) == BytesAt(nodes, Places(staged))
  {
    if staged != [] {
      var front, last := staged[..|staged| - 1], staged[|staged| - 1];
      CountAndTotal(nodes, front);
      var p := PlaceOf(last.entry.path);
      PlacesAreEntries(front, p);
      assert forall i :: 0 <= i < |front| ==> Apart(front[i], last);
      assert EntryThere(nodes, last);
      OneMoreCounts(nodes, Places(front), Places(staged), p);
    }
  }

  lemma EntriesOnDisk(nodes: Nodes, staged: seq<StagedEntry>)
    requires Verifies(nodes, staged)
    ensures forall i :: 0 <= i < |staged| ==> EntryThere(nodes, staged[i])
    ensures forall i, j :: 0 <= i < j < |staged| ==> Apart(staged[i], staged[j])
  {
    forall i | 0 <= i < |staged| ensures EntryThere(nodes, staged[i]) {
      assert HoldsEntry(nodes, staged[i]) && Honest(staged[i]);
    }
    forall i, j | 0 <= i < j < |staged| ensures Apart(staged[i], staged[j]) {
      if !Apart(staged[i], staged[j]) { SamePlaceSameEntry(staged, i, j); }
    }
  }

  lemma FilesAreListed(nodes: Nodes, staged: seq<StagedEntry>)
    requires Verifies(nodes, staged)
    ensures Files(nodes) == Places(staged)
  {
    forall p ensures p in Files(nodes) <==> p in Places(staged) {
      PlacesAreEntries(staged, p);
      if p in Files(nodes) { assert Belongs(staged, p, nodes[p]); }
      forall i | 0 <= i < |staged| ensures PlaceOf(staged[i].entry.path) in Files(nodes) { assert HoldsEntry(nodes, staged[i]); }
    }
  }

  /** What the counts of a completed row mean on disk: as many files and as many bytes as are really there. */
  lemma CompletedRowDescribesDisk(rows: Rows, disk: Directories, sha: Text)
    requires Consistent(rows, disk) && sha in rows && rows[sha].Completed?
    ensures Final(rows[sha].workspace) in disk
    ensures
      var row, d := rows[sha], disk[Final(rows[sha].workspace)];
      && d.manifest == Some(row.manifest) && ExactTree(d.nodes, row.manifest.entries)
      && row.entryCount == |Files(d.nodes)| && row.totalBytes == BytesAt(d.nodes, Files(d.nodes))
  {
    var row := rows[sha];
    assert Names(disk, sha, row);
    var staged := row.manifest.entries;
    EntriesOnDisk(disk[Final(row.workspace)].nodes, staged);
    CountAndTotal(disk[Final(row.workspace)].nodes, staged);
    FilesAreListed(disk[Final(row.workspace)].nodes, staged);
  }

  /** A recorded manifest digest fixes the whole directory, file by file. */
  lemma DigestFixesDirectory(d: Directory, e: Directory, m: Manifest)
    requires Holds(d, m) && Holds(e, m)
    ensures d == e
  {
    NoTreeForConflicts(d.nodes, m.entries);
    ExactTreeIsTreeFor(d.nodes, m.entries);
    ExactTreeIsTreeFor(e.nodes, m.entries);
    OneTreePerStage(d.nodes, e.nodes, m.entries);
  }

  // ---------------------------------------------------------------- nothing completed is touched

  function Temps(disk: Directories): set<Name> {
    set n | n in disk && n.Temp?
  }

  /** At most one temporary directory is ever left behind. */
  ghost predicate FewTemps(disk: Directories) {
    forall a, b :: a in Temps(disk) && b in Temps(disk) ==> a == b
  }

  /** Every completed row is as it was, and so is the directory it names. */
  ghost predicate KeepsCompleted(rows: Rows, disk: Directories, rows': Rows, disk': Directories) {
    forall sha {:trigger rows[sha]} :: sha in rows && rows[sha].Completed? ==>
      && sha in rows' && rows'[sha] == rows[sha]
      && (Final(rows[sha].workspace) in disk ==>
            Final(rows[sha].workspace) in disk' && disk'[Final(rows[sha].workspace)] == disk[Final(rows[sha].workspace)])
  }

  lemma KeepsCompletedIsTransitive(r0: Rows, d0: Directories, r1: Rows, d1: Directories, r2: Rows, d2: Directories)
    requires KeepsCompleted(r0, d0, r1, d1) && KeepsCompleted(r1, d1, r2, d2)
    ensures KeepsCompleted(r0, d0, r2, d2)
  {
    forall sha | sha in r0 && r0[sha].Completed?
      ensures sha in r2 && r2[sha] == r0[sha]
      ensures Final(r0[sha].workspace) in d0 ==> Final(r0[sha].workspace) in d2 && d2[Final(r0[sha].workspace)] == d0[Final(r0[sha].workspace)]
    {
      assert r1[sha] == r0[sha];
    }
  }

  /** Whether the directory is one that no completed row names. */
  ghost predicate Expendable(rows: Rows, n: Name) {
    n.Final? ==> forall sha {:trigger rows[sha]} :: sha in rows && rows[sha].Completed? ==> rows[sha].workspace != n.workspace
  }

  lemma ExpendableMayChange(rows: Rows, disk: Directories, n: Name, disk': Directories)
    requires Consistent(rows, disk) && Expendable(rows, n)
    requires forall k :: k != n ==> (k in disk <==> k in disk') && (k in disk ==> disk'[k] == disk[k])
    requires n in disk' ==> WellFormed(disk'[n].nodes)
    ensures Consistent(rows, disk') && KeepsCompleted(rows, disk, rows, disk')
  {
    forall sha | sha in rows ensures Names(disk', sha, rows[sha]) {
      assert Names(disk, sha, rows[sha]);
    }
    forall k | k in disk' ensures WellFormed(disk'[k].nodes) {
      if k != n { assert WellFormed(disk[k].nodes); }
    }
  }

  lemma PlannedIsExpendable(rows: Rows, disk: Directories, sha: Text)
    requires Consistent(rows, disk) && sha in rows && rows[sha].Planned?
    ensures Expendable(rows, Final(rows[sha].workspace))
  {
  }

  predicate OwnWorkspace(rows: Rows, row: Row) {
    forall k {:trigger rows[k]} :: k in rows && k != row.id.commit ==> rows[k].workspace != row.workspace
  }

  lemma RowPutInNames(rows: Rows, disk: Directories, row: Row, sha: Text)
    requires Consistent(rows, disk) && Names(disk, row.id.commit, row) && sha in rows[row.id.commit := row]
    ensures Names(disk, sha, rows[row.id.commit := row][sha])
  {
    if sha != row.id.commit { assert Names(disk, sha, rows[sha]); }
  }

  lemma RowPutInApart(rows: Rows, disk: Directories, row: Row, a: Text, b: Text)
    requires Consistent(rows, disk) && OwnWorkspace(rows, row) && a != b
    requires var rows' := rows[row.id.commit := row]; a in rows' && b in rows'
    ensures var rows' := rows[row.id.commit := row]; rows'[a].workspace != rows'[b].workspace
  {
    if a != row.id.commit && b != row.id.commit { assert rows[a].workspace != rows[b].workspace; }
  }

  /** A row put in under its commit, with a workspace of its own. */
  lemma RowPutIn(rows: Rows, disk: Directories, row: Row)
    requires Consistent(rows, disk) && Names(disk, row.id.commit, row) && OwnWorkspace(rows, row)
    requires row.id.commit in rows ==> rows[row.id.commit].Planned?
    ensures Consistent(rows[row.id.commit := row], disk) && KeepsCompleted(rows, disk, rows[row.id.commit := row], disk)
  {
    var rows' := rows[row.id.commit := row];
    forall sha | sha in rows' ensures Names(disk, sha, rows'[sha]) { RowPutInNames(rows, disk, row, sha); }
    forall a, b | a in rows' && b in rows' && a != b ensures rows'[a].workspace != rows'[b].workspace {
      RowPutInApart(rows, disk, row, a, b);
    }
  }

  // ---------------------------------------------------------------- loading a completed stage

  /** `load_completed_candidate_stage` for a completed row. */
  ghost predicate Reloads(disk: Directories, id: Identity, row: Row) {
    && row.Completed? && row.id == id && Final(row.workspace) in disk && disk[Final(row.workspace)].manifest.Some?
    && var m := disk[Final(row.workspace)].manifest.value;
    && |m.entries| <= MAX_MANIFEST_ENTRIES && Length(m) <= MAX_MANIFEST_BYTES
    && Holds(disk[Final(row.workspace)], m)
    && m.id == row.id && m == row.manifest && |m.entries| == row.entryCount && Total(m.entries) == row.totalBytes
  }

  /** A completed stage can be loaded again exactly when it keeps to the loader's two caps, which
      creating it never checked. */
  lemma ReloadsWithinCaps(rows: Rows, disk: Directories, sha: Text)
    requires Consistent(rows, disk) && sha in rows && rows[sha].Completed?
    ensures Reloads(disk, rows[sha].id, rows[sha]) <==>
      |rows[sha].manifest.entries| <= MAX_MANIFEST_ENTRIES && Length(rows[sha].manifest) <= MAX_MANIFEST_BYTES
  {
    assert Names(disk, sha, rows[sha]);
  }

  /** `verify_candidate_stage`. */
  method VerifyStage(d: Directory, m: Manifest) returns (ok: bool)
    requires WellFormed(d.nodes)
    ensures ok <==> Holds(d, m)
  {
    ok := ValidateEvidence(m.entries);
    if !ok || d.manifest != Some(m) { return false; }
    ok := VerifyStagedTree(d.nodes, m.entries);
  }

  method LoadCompletedStage(disk: Directories, id: Identity, row: Row) returns (ok: bool)
    requires row.Completed? && forall n {:trigger disk[n]} :: n in disk ==> WellFormed(disk[n].nodes)
    ensures ok <==> Reloads(disk, id, row)
  {
    if row.id != id || Final(row.workspace) !in disk { return false; }
    var d := disk[Final(row.workspace)];
    if d.manifest.None? { return false; }
    var m := d.manifest.value;
    if Length(m) > MAX_MANIFEST_BYTES || |m.entries| > MAX_MANIFEST_ENTRIES { return false; }
    ok := VerifyStage(d, m);
    if !ok { return; }
    ok := m.id == row.id && m == row.manifest && |m.entries| == row.entryCount && Total(m.entries) == row.totalBytes;
  }

  // ---------------------------------------------------------------- what a crash leaves

  /** Where a pass is cut short, and what its interrupted step leaves of a directory: of a removal the
      places in `keep`, of a staging whatever there is of `debris`. */
  datatype Fault = Fault(budget: nat, keep: set<Place>, keepsManifest: bool, debris: Directory)

  /** The part of a tree a removal from the leaves up has not got to: a place goes before its directory. */
  function Remaining(nodes: Nodes, keep: set<Place>): Nodes {
    map p | p in nodes && (forall k :: 0 <= k <= |p| ==> p[..k] in keep) :: nodes[p]
  }

  lemma RemainingHangsTogether(nodes: Nodes, keep: set<Place>)
    requires WellFormed(nodes)
    ensures WellFormed(Remaining(nodes, keep)) && Remaining(nodes, keep).Items <= nodes.Items
  {
    var rest := Remaining(nodes, keep);
    forall p | p in rest && p != [] ensures Parent(p) in rest {
      forall k | 0 <= k <= |Parent(p)| ensures Parent(p)[..k] in keep {
        assert Parent(p)[..k] == p[..k];
      }
    }
  }

  function Remains(d: Directory, fault: Fault): Directory {
    Directory(if fault.keepsManifest then d.manifest else None, Remaining(d.nodes, fault.keep))
  }

  /** What of an arbitrary map of nodes can lie on disk. */
  function Loose(nodes: Nodes): Nodes {
    map p | p in nodes && ProperPlace(p) && (forall k :: 0 <= k < |p| ==> p[..k] in nodes && nodes[p[..k]].Dir?) :: nodes[p]
  }

  lemma LooseHangsTogether(nodes: Nodes)
    ensures WellFormed(Loose(nodes))
  {
    var rest := Loose(nodes);
    forall p | p in rest && p != [] ensures Parent(p) in rest && rest[Parent(p)].Dir? {
      forall k | 0 <= k < |Parent(p)| ensures Parent(p)[..k] in nodes && nodes[Parent(p)[..k]].Dir? {
        assert Parent(p)[..k] == p[..k];
      }
      assert p[..|p| - 1] == Parent(p);
    }
  }

  function Debris(fault: Fault): Directory {
    Directory(fault.debris.manifest, Loose(fault.debris.nodes))
  }

  // ---------------------------------------------------------------- the pass

  /** What fetching came to: the Git output, the blobs that can be read, whether the fetched workspace
      still proves itself after staging, and whether a failed staging can remove its directory. */
  datatype Outcome = FetchFailed(transient: bool) | Fetched(id: Identity, raw: Bytes, blobs: map<Bytes, Bytes>, reproved: bool, removable: bool)

  /** The fetch of the wanted commit can be staged. */
  predicate Stageable(outcome: Outcome, id: Identity) {
    outcome.Fetched? && outcome.id == id && outcome.reproved
    && ParseTree(outcome.raw).Some? && Available(ParseTree(outcome.raw).value, outcome.blobs)
  }

  function ManifestOf(outcome: Outcome): Manifest
    requires outcome.Fetched? && ParseTree(outcome.raw).Some? && Available(ParseTree(outcome.raw).value, outcome.blobs)
  {
    Manifest(outcome.id, StagedFrom(ParseTree(outcome.raw).value, outcome.blobs))
  }

  function CompletedRow(planned: Row, m: Manifest): Row {
    Completed(planned.id, planned.workspace, m, |m.entries|, Total(m.entries))
  }

  datatype Result = Done(manifest: Manifest) | Replayed | Rejected | Unavailable | Crashed

  class Staging {
    var rows: Rows
    var disk: Directories

    constructor ()
      ensures rows == map[] && disk == map[] && RowsMatchDisk()
    {
      rows, disk := map[], map[];
    }

    ghost predicate RowsMatchDisk()
      reads this
    {
      Consistent(rows, disk) && FewTemps(disk)
    }

    twostate predicate Kept()
      reads this
    {
      KeepsCompleted(old(rows), old(disk), rows, disk)
    }

    /** `_record_plan`: a new row under a new workspace identifier; both are unique in the table. */
    method RecordPlan(id: Identity, workspace: string) returns (ok: bool)
      requires RowsMatchDisk()
      modifies this`rows
      ensures RowsMatchDisk() && Kept()
      ensures ok <==> id.commit !in old(rows) && forall k :: k in old(rows) ==> old(rows)[k].workspace != workspace
      ensures rows == if ok then old(rows)[id.commit := Planned(id, workspace)] else old(rows)
    {
      ok := id.commit !in rows && forall k :: k in rows ==> rows[k].workspace != workspace;
      if ok {
        RowPutIn(rows, disk, Planned(id, workspace));
        rows := rows[id.commit := Planned(id, workspace)];
      }
    }

    /** `rmtree`, which a crash may leave half done. */
    method RemoveTree(n: Name, interrupted: bool, fault: Fault)
      requires n in disk
      modifies this`disk
      ensures disk == if interrupted then old(disk)[n := Remains(old(disk)[n], fault)] else old(disk) - {n}
      ensures old(RowsMatchDisk()) && Expendable(rows, n) ==> RowsMatchDisk() && Kept()
    {
      disk := if interrupted then disk[n := Remains(disk[n], fault)] else disk - {n};
      if old(RowsMatchDisk()) && Expendable(rows, n) {
        assert WellFormed(old(disk)[n].nodes);
        RemainingHangsTogether(old(disk)[n].nodes, fault.keep);
        ExpendableMayChange(rows, old(disk), n, disk);
        assert Temps(disk) <= Temps(old(disk));
      }
    }

    /** `_clean_abandoned_stage_temps`, cut short after `budget` removals (the last one half done). */
    method CleanTemps(fault: Fault) returns (finished: bool, left: nat)
      requires RowsMatchDisk()
      modifies this`disk
      ensures RowsMatchDisk() && Kept()
      ensures finished ==> Temps(disk) == {} && left <= fault.budget && left + |Temps(old(disk))| >= fault.budget
      ensures !finished ==> fault.budget < |Temps(old(disk))|
      ensures forall w :: Final(w) in disk <==> Final(w) in old(disk)
      ensures forall w :: Final(w) in disk ==> disk[Final(w)] == old(disk)[Final(w)]
    {
      left := fault.budget;
      AtMostOneTemp(disk);
      var found := Temps(disk);
      while found != {}
        invariant RowsMatchDisk() && Kept() && found == Temps(disk) && found <= Temps(old(disk))
        invariant left <= fault.budget && left + |Temps(old(disk))| - |found| == fault.budget
        invariant forall w :: Final(w) in disk <==> Final(w) in old(disk)
        invariant forall w :: Final(w) in disk ==> disk[Final(w)] == old(disk)[Final(w)]
        decreases |found|
      {
        var temp :| temp in found;
        ghost var before := disk;
        RemoveTree(temp, left == 0, fault);
        KeepsCompletedIsTransitive(old(rows), old(disk), rows, before, rows, disk);
        if left == 0 {
          assert |found| >= 1;
          return false, 0;
        }
        assert Temps(disk) == found - {temp};
        found, left := found - {temp}, left - 1;
      }
      finished := true;
    }

    /** `_remove_incomplete_destination`: whatever lies where the row the pass holds wants its stage. */
    method RemoveDestination(planned: Row, interrupted: bool, fault: Fault)
      modifies this`disk
      ensures Temps(disk) == Temps(old(disk)) && (!interrupted ==> Final(planned.workspace) !in disk)
      ensures disk ==
        if !interrupted then old(disk) - {Final(planned.workspace)}
        else if Final(planned.workspace) in old(disk) then old(disk)[Final(planned.workspace) := Remains(old(disk)[Final(planned.workspace)], fault)]
        else old(disk)
      ensures old(RowsMatchDisk()) && Expendable(rows, Final(planned.workspace)) ==> RowsMatchDisk() && Kept()
    {
      if Final(planned.workspace) in disk {
        RemoveTree(Final(planned.workspace), interrupted, fault);
      }
    }

    /** `stage_fetched_candidate` into a new temporary directory: parse, materialise, write the manifest,
        verify; a failed staging tries to remove the directory again. */
    method WriteStage(temp: string, outcome: Outcome, interrupted: bool, fault: Fault) returns (staged: Option<Manifest>)
      requires RowsMatchDisk() && Temps(disk) == {}
      modifies this`disk
      ensures RowsMatchDisk() && Kept() && Temps(disk) <= {Temp(temp)}
      ensures forall w :: Final(w) in disk <==> Final(w) in old(disk)
      ensures forall w :: Final(w) in disk ==> disk[Final(w)] == old(disk)[Final(w)]
      ensures staged.Some? ==> Temp(temp) in disk && Holds(disk[Temp(temp)], staged.value)
      ensures staged.Some? <==> !interrupted && outcome.Fetched? && Stageable(outcome, outcome.id)
      ensures staged.Some? ==> staged.value == ManifestOf(outcome)
    {
      staged := None;
      if interrupted {
        disk := disk[Temp(temp) := Debris(fault)];
      } else if outcome.Fetched? {
        var entries, nodes := StageAndVerify(outcome.raw, outcome.blobs);
        if entries.Some? && outcome.reproved {
          staged := Some(Manifest(outcome.id, entries.value));
          disk := disk[Temp(temp) := Directory(staged, nodes)];
        } else if !outcome.removable {
          disk := disk[Temp(temp) := Debris(fault)];
        }
      }
      LooseHangsTogether(fault.debris.nodes);
      ExpendableMayChange(rows, old(disk), Temp(temp), disk);
      assert Temps(disk) <= Temps(old(disk)) + {Temp(temp)};
    }

    /** `os.rename` of the verified temporary directory onto the planned destination. */
    method Rename(temp: string, planned: Row)
      requires RowsMatchDisk() && Expendable(rows, Final(planned.workspace)) && Temp(temp) in disk && Final(planned.workspace) !in disk
      modifies this`disk
      ensures RowsMatchDisk() && Kept()
      ensures disk == (old(disk) - {Temp(temp)})[Final(planned.workspace) := old(disk)[Temp(temp)]]
    {
      var content := disk[Temp(temp)];
      assert WellFormed(content.nodes);
      ghost var before := disk;
      disk := disk - {Temp(temp)};
      ExpendableMayChange(rows, before, Temp(temp), disk);
      ghost var between := disk;
      disk := disk[Final(planned.workspace) := content];
      ExpendableMayChange(rows, between, Final(planned.workspace), disk);
      KeepsCompletedIsTransitive(rows, before, rows, between, rows, disk);
      assert Temps(disk) <= Temps(before);
    }

    /** `_complete_atomically`, where the persisted row is still the planned one. */
    method Commit(planned: Row, manifest: Manifest) returns (ok: bool)
      requires RowsMatchDisk() && planned.Planned? && manifest.id == planned.id
      requires Final(planned.workspace) in disk && Holds(disk[Final(planned.workspace)], manifest)
      modifies this`rows
      ensures RowsMatchDisk() && Kept()
      ensures ok <==> planned.id.commit in old(rows) && old(rows)[planned.id.commit] == planned
      ensures rows == if ok then old(rows)[planned.id.commit := CompletedRow(planned, manifest)] else old(rows)
    {
      var sha := planned.id.commit;
      ok := sha in rows && rows[sha] == planned;
      if ok {
        RowPutIn(rows, disk, CompletedRow(planned, manifest));
        rows := rows[sha := CompletedRow(planned, manifest)];
      }
    }

    /** Verify the staged directory, rename it, verify it where it is now, commit. */
    method RenameAndCommit(planned: Row, temp: string, staged: Manifest, budget: nat) returns (result: Result)
      requires RowsMatchDisk() && planned.Planned? && planned.id.commit in rows && rows[planned.id.commit] == planned
      requires Temp(temp) in disk && Final(planned.workspace) !in disk && Holds(disk[Temp(temp)], staged)
      modifies this
      ensures RowsMatchDisk() && Kept()
      ensures result.Done? <==> staged.id == planned.id && budget >= 2
      ensures !result.Done? ==> result == if staged.id != planned.id then Rejected else Crashed
      ensures result.Done? ==> result.manifest == staged && rows == old(rows)[planned.id.commit := CompletedRow(planned, staged)]
      ensures !result.Done? ==> rows == old(rows)
    {
      assert WellFormed(disk[Temp(temp)].nodes);
      var verified := VerifyStage(disk[Temp(temp)], staged);
      if !verified || staged.id != planned.id { return Rejected; }
      if budget == 0 { return Crashed; }
      PlannedIsExpendable(rows, disk, planned.id.commit);
      Rename(temp, planned);
      if budget == 1 { return Crashed; }
      ghost var moved := disk;
      assert WellFormed(disk[Final(planned.workspace)].nodes);
      verified := VerifyStage(disk[Final(planned.workspace)], staged);
      if !verified { return Rejected; }
      var ok := Commit(planned, staged);
      KeepsCompletedIsTransitive(old(rows), old(disk), old(rows), moved, rows, disk);
      return if ok then Done(staged) else Rejected;
    }

    /** From the planned row the pass holds: clean, stage, rename, verify, commit. */
    method StageAndCommit(planned: Row, temp: string, outcome: Outcome, fault: Fault) returns (result: Result)
      requires RowsMatchDisk() && planned.Planned? && planned.id.commit in rows && rows[planned.id.commit] == planned
      modifies this
      ensures RowsMatchDisk() && Kept()
      ensures result.Done? ==> outcome.Fetched? && Stageable(outcome, planned.id) && result.manifest == ManifestOf(outcome)
      ensures rows == if result.Done? then old(rows)[planned.id.commit := CompletedRow(planned, result.manifest)] else old(rows)
      ensures fault.budget >= 5 && Stageable(outcome, planned.id) ==> result.Done?
      ensures fault.budget >= 5 && !Stageable(outcome, planned.id) ==>
        result == if outcome.FetchFailed? && outcome.transient then Unavailable else Rejected
      ensures result.Crashed? ==> fault.budget < 5
    {
      AtMostOneTemp(disk);
      var clean, left := CleanTemps(fault);
      if !clean { return Crashed; }
      ghost var d1 := disk;
      PlannedIsExpendable(rows, disk, planned.id.commit);
      RemoveDestination(planned, left == 0, fault);
      KeepsCompletedIsTransitive(old(rows), old(disk), rows, d1, rows, disk);
      if left == 0 { return Crashed; }
      ghost var d2 := disk;
      var staged := WriteStage(temp, outcome, left == 1, fault);
      KeepsCompletedIsTransitive(old(rows), old(disk), rows, d2, rows, disk);
      if left == 1 { return Crashed; }
      if staged.None? { return if outcome.FetchFailed? && outcome.transient then Unavailable else Rejected; }
      ghost var d3 := disk;
      result := RenameAndCommit(planned, temp, staged.value, left - 2);
      KeepsCompletedIsTransitive(old(rows), old(disk), old(rows), d3, rows, disk);
    }

    /** One pass, cut short by a crash after `budget` steps. Whatever happens in it, afterwards every
        completed checkpoint still names a directory that holds exactly the tree it recorded, no directory
        a completed checkpoint named before has been touched, and an uninterrupted pass over any leftovers
        completes with the manifest of the tree it fetched. */
    method ExecuteOnce(id: Identity, workspace: string, temp: string, outcome: Outcome, fault: Fault) returns (result: Result)
      requires RowsMatchDisk()
      modifies this
      ensures RowsMatchDisk() && Kept()
      ensures result.Done? ==>
        id.commit in rows && rows[id.commit].Completed? && rows[id.commit].manifest == result.manifest && result.manifest.id == id
      ensures
        var unused := forall k :: k in old(rows) ==> old(rows)[k].workspace != workspace;
        var unfinished := if id.commit in old(rows) then old(rows)[id.commit].Planned? && old(rows)[id.commit].id == id else unused;
        unfinished && fault.budget >= 6 ==>
          result == if Stageable(outcome, id) then Done(ManifestOf(outcome))
                    else if outcome.FetchFailed? && outcome.transient then Unavailable else Rejected
      ensures result.Crashed? ==> fault.budget < 6
      ensures id.commit in old(rows) && old(rows)[id.commit].Completed? ==>
        rows == old(rows) && disk == old(disk) && (result == Replayed <==> Reloads(disk, id, rows[id.commit]))
    {
      var left := fault.budget;
      if id.commit in rows && rows[id.commit].Completed? {
        var loaded := LoadCompletedStage(disk, id, rows[id.commit]);
        return if loaded then Replayed else Rejected;
      }
      if id.commit !in rows {
        if left == 0 { return Crashed; }
        var recorded := RecordPlan(id, workspace);
        if !recorded { return Rejected; }
        left := left - 1;
      }
      var planned := rows[id.commit];
      if planned.id != id { return Rejected; }
      ghost var r := rows;
      result := StageAndCommit(planned, temp, outcome, fault.(budget := left));
      KeepsCompletedIsTransitive(old(rows), old(disk), r, old(disk), rows, disk);
    }

    /** Any number of passes, each with its own candidate, outcome and crash. */
    method ExecuteAll(requests: seq<(Identity, string, string, Outcome, Fault)>) returns (results: seq<Result>)
      requires RowsMatchDisk()
      modifies this
      ensures RowsMatchDisk() && Kept() && |results| == |requests|
      ensures AllReported(rows, requests, results)
    {
      results := [];
      for n := 0 to |requests|
        invariant RowsMatchDisk() && Kept() && |results| == n
        invariant AllReported(rows, requests, results)
      {
        ghost var r, d := rows, disk;
        var (id, workspace, temp, outcome, fault) := requests[n];
        var result := ExecuteOnce(id, workspace, temp, outcome, fault);
        KeepsCompletedIsTransitive(old(rows), old(disk), r, d, rows, disk);
        OneMoreReported(r, d, rows, disk, requests, results, result);
        results := results + [result];
      }
    }
  }

  /** A pass that reported success has a completed row with its manifest; only one cut short reports a crash. */
  predicate Reported(rows: Rows, id: Identity, fault: Fault, result: Result) {
    && (result.Done? ==>
          id.commit in rows && rows[id.commit].Completed? && rows[id.commit].manifest == result.manifest && result.manifest.id == id)
    && (result.Crashed? ==> fault.budget < 6)
  }

  predicate AllReported(rows: Rows, requests: seq<(Identity, string, string, Outcome, Fault)>, results: seq<Result>) {
    |results| <= |requests| && forall n :: 0 <= n < |results| ==> Reported(rows, requests[n].0, requests[n].4, results[n])
  }

  lemma OneMoreReported(r: Rows, d: Directories, r': Rows, d': Directories,
                        requests: seq<(Identity, string, string, Outcome, Fault)>, results: seq<Result>, result: Result)
    requires KeepsCompleted(r, d, r', d') && AllReported(r, requests, results) && |results| < |requests|
    requires Reported(r', requests[|results|].0, requests[|results|].4, result)
    ensures AllReported(r', requests, results + [result])
  {
    forall n | 0 <= n < |results| ensures Reported(r', requests[n].0, requests[n].4, results[n]) {
      assert Reported(r, requests[n].0, requests[n].4, results[n]);
    }
  }

  lemma AtMostOneTemp(disk: Directories)
    requires FewTemps(disk)
    ensures |Temps(disk)| <= 1 <= MAX_DISCOVERABLE
  {
    if Temps(disk) != {} {
      var a :| a in Temps(disk);
      assert Temps(disk) == {a};
    }
  }

  // ---------------------------------------------------------------- where it ends

  /** Two passes of the same candidate that overlap break all this: one that read the planned row before
      the other committed goes on to remove the directory the completed row now names. */
  method OverlappingPassesLoseStage(id: Identity, workspace: string, temp: string, outcome: Outcome, fault: Fault) returns (staging: Staging)
    requires Stageable(outcome, id) && fault.budget >= 5
    ensures fresh(staging) && id.commit in staging.rows && staging.rows[id.commit].Completed? && staging.rows[id.commit].workspace == workspace
    ensures Final(workspace) !in staging.disk && !Consistent(staging.rows, staging.disk)
  {
    staging := new Staging();
    var recorded := staging.RecordPlan(id, workspace);
    var held := staging.rows[id.commit];
    var other := staging.StageAndCommit(held, temp, outcome, fault);
    var clean, left := staging.CleanTemps(fault);
    staging.RemoveDestination(held, false, fault);
    assert !Names(staging.disk, id.commit, staging.rows[id.commit]);
  }

  /** A stage of more entries than the loader admits, or with a longer manifest, is created and committed,
      and never loads again. */
  method OversizeStageIsCommitted(id: Identity, workspace: string, temp: string, outcome: Outcome, fault: Fault) returns (staging: Staging)
    requires Stageable(outcome, id) && fault.budget >= 6
    requires |ParseTree(outcome.raw).value| > MAX_MANIFEST_ENTRIES || Length(ManifestOf(outcome)) > MAX_MANIFEST_BYTES
    ensures fresh(staging) && id.commit in staging.rows && staging.rows[id.commit].Completed?
    ensures staging.rows[id.commit].manifest == ManifestOf(outcome) && !Reloads(staging.disk, id, staging.rows[id.commit])
  {
    staging := new Staging();
    var result := staging.ExecuteOnce(id, workspace, temp, outcome, fault);
    assert |EntriesOf(ManifestOf(outcome).entries)| == |ManifestOf(outcome).entries|;
    ReloadsWithinCaps(staging.rows, staging.disk, id.commit);
  }
}

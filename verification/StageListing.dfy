/** From the output of Git to a verified tree on disk: which byte strings can be staged, and what then
    stands at every place. */
module StageListing {
  import opened Options
  import opened Separated
  import opened Utf8
  import opened GitTree
  import opened TreeRecords
  import opened StageTree
  import opened StageVerifier

  /** The file of a listed entry: its blob, readable by its owner alone, executable exactly for `100755`. */
  predicate OnDisk(nodes: Nodes, e: Entry, blobs: map<Bytes, Bytes>) {
    && e.objectId in blobs
    && Lookup(nodes, PlaceOf(e.path)) == Some(File(if e.mode == Executable then Private700 else Private600, blobs[e.objectId]))
  }

  /** A place above a listed path, or the root. */
  ghost predicate AboveListed(listed: seq<Entry>, p: Place) {
    p == [] || exists i :: 0 <= i < |listed| && p < PlaceOf(listed[i].path)
  }

  ghost predicate FileListed(listed: seq<Entry>, p: Place) {
    exists i :: 0 <= i < |listed| && p == PlaceOf(listed[i].path)
  }

  /** The listed files, the directories above them, and nothing else. */
  ghost predicate StandsFor(nodes: Nodes, listed: seq<Entry>, blobs: map<Bytes, Bytes>) {
    && (forall i :: 0 <= i < |listed| ==> OnDisk(nodes, listed[i], blobs))
    && (forall p {:trigger AboveListed(listed, p)} :: AboveListed(listed, p) ==> Lookup(nodes, p) == Some(Dir(true)))
    && (forall p :: p in nodes ==> AboveListed(listed, p) || FileListed(listed, p))
  }

  lemma SameMembers(listed: seq<Entry>, es: seq<Entry>, i: nat) returns (k: nat)
    requires multiset(listed) == multiset(es) && i < |listed|
    ensures k < |es| && es[k] == listed[i]
  {
    SameMember(listed, es, listed[i]);
    k :| k < |es| && es[k] == listed[i];
  }

  lemma AboveEither(listed: seq<Entry>, staged: seq<StagedEntry>, p: Place)
    requires multiset(listed) == multiset(EntriesOf(staged))
    ensures AboveListed(listed, p) <==> DirectoryAt(staged, p)
  {
    var es := EntriesOf(staged);
    forall i | 0 <= i < |listed| && p < PlaceOf(listed[i].path) ensures DirectoryAt(staged, p) {
      var k := SameMembers(listed, es, i);
      assert Above(p, PlaceOf(staged[k].entry.path));
    }
    forall i | 0 <= i < |staged| && Above(p, PlaceOf(staged[i].entry.path)) ensures AboveListed(listed, p) {
      var k := SameMembers(es, listed, i);
    }
  }

  /** A verified tree stands for whatever lists the entries it was verified against. */
  lemma VerifiedStandsFor(nodes: Nodes, listed: seq<Entry>, es: seq<Entry>, blobs: map<Bytes, Bytes>)
    requires multiset(listed) == multiset(es) && Available(es, blobs) && ExactTree(nodes, StagedFrom(es, blobs))
    ensures StandsFor(nodes, listed, blobs)
  {
    var staged := StagedFrom(es, blobs);
    forall i | 0 <= i < |listed| ensures OnDisk(nodes, listed[i], blobs) {
      var k := SameMembers(listed, es, i);
      assert HoldsEntry(nodes, staged[k]);
    }
    forall p ensures AboveListed(listed, p) <==> DirectoryAt(staged, p) { AboveEither(listed, staged, p); }
    forall p | p in nodes ensures AboveListed(listed, p) || FileListed(listed, p) {
      assert Belongs(staged, p, nodes[p]);
      if EntryAt(staged, p) {
        var i :| 0 <= i < |staged| && PlaceOf(staged[i].entry.path) == p;
        var k := SameMembers(es, listed, i);
      }
    }
  }

  /** Whatever Git listed, no place on disk has an empty component, `.`, `..` or `.git` in its path. */
  lemma NothingForbiddenOnDisk(raw: Bytes, listed: seq<Entry>, nodes: Nodes, blobs: map<Bytes, Bytes>, p: Place, n: nat)
    requires Listing(raw, listed) && StandsFor(nodes, listed, blobs) && p in nodes && n < |p|
    ensures !Forbidden(p[n])
  {
    var i :| 0 <= i < |listed| && p <= PlaceOf(listed[i].path);
    AllowedParts(listed[i].path);
    assert p[n] == Split(listed[i].path, SLASH)[n];
    ForbiddenPart(p[n]);
  }

  ghost predicate AllIn(listed: seq<Entry>, blobs: map<Bytes, Bytes>) {
    forall i :: 0 <= i < |listed| ==> listed[i].objectId in blobs
  }

  /** A listing that can be staged, in whatever order its records come. */
  lemma ListingDecides(raw: Bytes, blobs: map<Bytes, Bytes>)
    ensures (exists listed {:trigger Listing(raw, listed)} :: Listing(raw, listed) && AllIn(listed, blobs))
            <==> ParseTree(raw).Some? && Available(ParseTree(raw).value, blobs)
  {
    if ParseTree(raw).Some? && Available(ParseTree(raw).value, blobs) {
      var listed := ListedBy(raw);
      forall i | 0 <= i < |listed| ensures listed[i].objectId in blobs {
        var k := SameMembers(listed, ParseTree(raw).value, i);
      }
    }
    forall listed | Listing(raw, listed) && AllIn(listed, blobs)
      ensures ParseTree(raw).Some? && Available(ParseTree(raw).value, blobs)
    {
      ListedIsParsed(raw, listed);
      var es := ParseTree(raw).value;
      forall i | 0 <= i < |es| ensures es[i].objectId in blobs { var k := SameMembers(es, listed, i); }
    }
  }

  /** Parse the output of Git, materialise what it lists and verify it: what has been materialised is
      always accepted, so staging fails only for output that lists nothing admissible or blobs that
      cannot be read. */
  method StageAndVerify(raw: Bytes, blobs: map<Bytes, Bytes>) returns (staged: Option<seq<StagedEntry>>, nodes: Nodes)
    ensures staged.Some? <==> exists listed {:trigger Listing(raw, listed)} :: Listing(raw, listed) && AllIn(listed, blobs)
    ensures staged.Some? ==> forall listed {:trigger Listing(raw, listed)} :: Listing(raw, listed) ==> StandsFor(nodes, listed, blobs)
    ensures staged.Some? <==> ParseTree(raw).Some? && Available(ParseTree(raw).value, blobs)
    ensures staged.Some? ==>
      staged.value == StagedFrom(ParseTree(raw).value, blobs) && Verifies(nodes, staged.value) && WellFormed(nodes)
  {
    staged, nodes := None, map[];
    ListingDecides(raw, blobs);
    var parsed := ParseStageTree(raw);
    if parsed.None? { return; }
    AcceptedExactly(raw);
    var disk, entries := Materialise(parsed.value, blobs);
    if entries.None? { return; }
    MaterialisedVerifies(parsed.value, blobs, disk.nodes);
    var accepted := VerifyStagedTree(disk.nodes, entries.value);
    if !accepted { return; }
    forall listed | Listing(raw, listed) ensures StandsFor(disk.nodes, listed, blobs) {
      ListedIsParsed(raw, listed);
      VerifiedStandsFor(disk.nodes, listed, parsed.value, blobs);
    }
    return entries, disk.nodes;
  }
}

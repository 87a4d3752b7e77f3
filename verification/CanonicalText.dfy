/** The canonical JSON texts whose lengths the caps bound: a staged manifest and a change list. */
module CanonicalText {
  import opened Options
  import opened JsonText
  import opened Utf8
  import opened GitTree
  import opened StageTree
  import opened TreeDiff
  import Fetch = FetchStage

  // ---------------------------------------------------------------- the manifest

  /** One entry; `hex` spells digests. */
  function EntryText(e: StagedEntry, hex: Sha256 -> string): string {
    "{\"git_mode\":\"" + (if e.entry.mode == Executable then "100755" else "100644")
    + "\",\"object_id\":" + Quoted(e.entry.objectId) + ",\"path\":" + Quoted(e.entry.path)
    + ",\"sha256\":\"" + hex(e.digest) + "\",\"size\":" + Number(e.size) + "}"
  }

  function EntriesText(staged: seq<StagedEntry>, hex: Sha256 -> string): string {
    if staged == [] then ""
    else EntriesText(staged[..|staged| - 1], hex) + (if |staged| > 1 then "," else "") + EntryText(staged[|staged| - 1], hex)
  }

  /** The members of the manifest after its entries. */
  function IdentityText(m: Fetch.Manifest): string {
    ",\"repository_id\":" + Number(m.id.repositoryId) + ",\"target\":" + Quoted(m.id.target) + ",\"version\":1}\n"
  }

  function ManifestText(m: Fetch.Manifest, hex: Sha256 -> string): string {
    "{\"branch\":\"candidate\",\"commit_sha\":" + Quoted(m.id.commit) + ",\"entries\":[" + EntriesText(m.entries, hex) + "]"
    + IdentityText(m)
  }

  lemma IdentityTextLength(m: Fetch.Manifest)
    ensures |IdentityText(m)| == 43 + NumberLength(m.id.repositoryId) + TextLength(m.id.target)
  {
    LengthOfQuoted(m.id.target);
    LengthOfNumber(m.id.repositoryId);
  }

  /** 64 characters a digest. */
  ghost predicate Spells64(hex: Sha256 -> string) {
    forall d {:trigger hex(d)} :: |hex(d)| == 64
  }

  lemma {:induction false} HexTakesOneEach(b: Bytes)
    requires LowerHex(b)
    ensures TextLength(b) == |b|
  {
    if b != [] {
      HexTakesOneEach(b[..|b| - 1]);
    }
  }

  lemma EntryTextLength(e: StagedEntry, hex: Sha256 -> string)
    requires Spells64(hex) && LowerHex(e.entry.objectId)
    ensures |EntryText(e, hex)| == Fetch.EntryLength(e)
  {
    HexTakesOneEach(e.entry.objectId);
    LengthOfQuoted(e.entry.objectId);
    LengthOfQuoted(e.entry.path);
    LengthOfNumber(e.size);
  }

  lemma {:induction false} EntriesTextLength(staged: seq<StagedEntry>, hex: Sha256 -> string)
    requires Spells64(hex) && forall i :: 0 <= i < |staged| ==> LowerHex(staged[i].entry.objectId)
    ensures |EntriesText(staged, hex)| == Fetch.EntriesLength(staged)
  {
    if staged != [] {
      EntriesTextLength(staged[..|staged| - 1], hex);
      EntryTextLength(staged[|staged| - 1], hex);
    }
  }

  /** The manifest cap is on the length of the text written to disk, whatever 64 digits spell the digests. */
  lemma ManifestTextLength(m: Fetch.Manifest, hex: Sha256 -> string)
    requires Spells64(hex) && forall i :: 0 <= i < |m.entries| ==> LowerHex(m.entries[i].entry.objectId)
    ensures |ManifestText(m, hex)| == Fetch.Length(m)
  {
    EntriesTextLength(m.entries, hex);
    LengthOfQuoted(m.id.commit);
    IdentityTextLength(m);
  }

  // ---------------------------------------------------------------- the change list

  function OptionalText(b: Option<Bytes>): string {
    if b.None? then "null" else Quoted(b.value)
  }

  function ChangeText(c: Change): string {
    "{\"baseline_mode\":" + OptionalText(c.baselineMode) + ",\"baseline_object_id\":" + OptionalText(c.baselineId)
    + ",\"candidate_mode\":" + OptionalText(c.candidateMode) + ",\"candidate_object_id\":" + OptionalText(c.candidateId)
    + ",\"path\":" + Quoted(c.path) + ",\"status\":" + Quoted(Codes(StatusText(c.status))) + "}"
  }

  function ItemsText(cs: seq<Change>): string {
    if cs == [] then "" else ItemsText(cs[..|cs| - 1]) + (if |cs| > 1 then "," else "") + ChangeText(cs[|cs| - 1])
  }

  function ChangesText(cs: seq<Change>): string {
    "[" + ItemsText(cs) + "]"
  }

  lemma OptionalTextLength(b: Option<Bytes>)
    ensures |OptionalText(b)| == OptionalLength(b)
  {
    if b.Some? { LengthOfQuoted(b.value); }
  }

  lemma ChangeTextLength(c: Change)
    ensures |ChangeText(c)| == ChangeLength(c)
  {
    OptionalTextLength(c.baselineMode);
    OptionalTextLength(c.baselineId);
    OptionalTextLength(c.candidateMode);
    OptionalTextLength(c.candidateId);
    LengthOfQuoted(c.path);
    LengthOfQuoted(Codes(StatusText(c.status)));
  }

  lemma {:induction false} ItemsTextLength(cs: seq<Change>)
    ensures |ItemsText(cs)| == ItemsLength(cs)
  {
    if cs != [] {
      ItemsTextLength(cs[..|cs| - 1]);
      ChangeTextLength(cs[|cs| - 1]);
    }
  }

  /** The change-list cap is on the length of the text stored in the checkpoint row. */
  lemma ChangesTextLength(cs: seq<Change>)
    ensures |ChangesText(cs)| == EncodedLength(cs)
  {
    ItemsTextLength(cs);
  }

  /** How each known status stands in the text. */
  lemma StatusAsWritten(s: Status)
    requires !s.OtherStatus?
    ensures Quoted(Codes(StatusText(s))) == "\"" + StatusText(s) + "\""
    ensures StatusText(Added) == "added" && StatusText(Deleted) == "deleted" && StatusText(Modified) == "modified"
    ensures StatusText(ModeChanged) == "mode_changed" && StatusText(ModifiedAndModeChanged) == "modified_and_mode_changed"
  {
    PlainIsQuotedAsIs(StatusText(s));
  }
}

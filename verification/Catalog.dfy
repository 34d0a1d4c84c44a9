/**
 * The catalog of game versions: the version manifest's entries indexed by id.
 */
module Catalog {
  import opened Wrappers

  /** One entry of the manifest's "versions" list; only "id" and "url" are read. */
  datatype VersionEntry = VersionEntry(id: string, url: string)

  /** Entry i is the last entry of the list with its id. */
  ghost predicate LastWithId(entries: seq<VersionEntry>, i: int)
    requires 0 <= i < |entries|
  {
    forall j :: i < j < |entries| ==> entries[j].id != entries[i].id
  }

  /**
   * The dictionary built from the manifest entries in order, so that a later
   * entry with an id already seen replaces the earlier one.
   */
  function VersionIndex(entries: seq<VersionEntry>): (index: map<string, string>)
    ensures index.Keys == set e | e in entries :: e.id
    ensures forall i :: 0 <= i < |entries| && LastWithId(entries, i) ==> index[entries[i].id] == entries[i].url
  {
    if entries == [] then map[]
    else
      var init := entries[..|entries| - 1];
      var last := entries[|entries| - 1];
      assert entries == init + [last];
      var index := VersionIndex(init)[last.id := last.url];
      assert forall i :: 0 <= i < |init| && LastWithId(entries, i) ==> LastWithId(init, i);
      index
  }

  /**
   * The catalog after one fetch: the index of the decoded manifest, or the
   * empty catalog when the download, decoding or a key lookup failed (None).
   */
  function Refresh(manifest: Option<seq<VersionEntry>>): (catalog: map<string, string>)
    ensures manifest.None? ==> catalog == map[]
    ensures manifest.Some? ==> catalog.Keys == set e | e in manifest.value :: e.id
  {
    if manifest.Some? then VersionIndex(manifest.value) else map[]
  }

  /** Every id of the manifest resolves to the url of its last entry. */
  lemma {:induction false} ResolveLastEntry(entries: seq<VersionEntry>, id: string, i: int)
    requires 0 <= i < |entries| && entries[i].id == id
    requires forall j :: i < j < |entries| ==> entries[j].id != id
    ensures id in VersionIndex(entries) && VersionIndex(entries)[id] == entries[i].url
  {
    assert LastWithId(entries, i);
  }

  /** The example manifest with two versions resolves each id to its own url. */
  lemma TwoVersionManifest()
    ensures var index := VersionIndex([VersionEntry("1.20.1", "http://x"), VersionEntry("1.19.4", "http://y")]);
            index == map["1.20.1" := "http://x", "1.19.4" := "http://y"]
  {
  }
}

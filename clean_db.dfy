/**
 * The maintenance script clean-db.js: removes the field `id` from every document of the three
 * collections (`updateMany({}, { $unset: { id: "" } })`), leaving `_id` and every other field.
 */
module CleanDb {
  import opened Wrappers
  import opened Documents
  import opened ContentStore

  /** `$unset: { id: "" }` on every document of one collection. */
  function UnsetId(c: seq<Doc>): (r: seq<Doc>)
    ensures |r| == |c|
    ensures forall i :: 0 <= i < |c| ==> r[i].Keys == c[i].Keys - {"id"}
    ensures forall i, k :: 0 <= i < |c| && k in c[i] && k != "id" ==> r[i][k] == c[i][k]
  {
    seq(|c|, i requires 0 <= i < |c| => c[i] - {"id"})
  }

  /** Cleaning keeps the ids unique, and cleaning a cleaned collection changes nothing. */
  lemma UnsetIdSpec(c: seq<Doc>)
    ensures forall i :: 0 <= i < |c| ==> "id" !in UnsetId(c)[i]
    ensures UniqueIds(c) ==> UniqueIds(UnsetId(c))
    ensures UnsetId(UnsetId(c)) == UnsetId(c)
  {
    var r := UnsetId(c);
    forall i | 0 <= i < |c| ensures r[i] - {"id"} == r[i] {
    }
  }

  /**
   * A global document whose `id` was written through the content upsert no longer holds one after
   * cleaning, and it is still the document the site reads.
   */
  lemma CleanUndoesPersistedId(c: seq<Doc>, payload: Doc, newId: string)
    requires UniqueIds(c) && IsCanonicalHex(newId) && !HasId(c, Oid(newId))
    requires "id" in payload && ("type" !in payload || payload["type"] == GlobalType)
    ensures var written := UpsertGlobal(c, StripStoreId(payload), newId);
            var cleaned := UnsetId(written);
      && FindGlobal(written).Some? && "id" in FindGlobal(written).value
      && FindGlobal(cleaned).Some? && "id" !in FindGlobal(cleaned).value
      && FindGlobal(cleaned).value == FindGlobal(written).value - {"id"}
  {
    var data := StripStoreId(payload);
    var written := UpsertGlobal(c, data, newId);
    UpsertGlobalSpec(c, data, newId);
    var cleaned := UnsetId(written);
    var i := FindFirst(written, "type", GlobalType).value;
    assert Matches(cleaned[i], "type", GlobalType);
    forall j | 0 <= j < i ensures !Matches(cleaned[j], "type", GlobalType) {
    }
    assert FindFirst(cleaned, "type", GlobalType) == Some(i);
  }

  /**
   * `run()`: with no connection string, or an empty one, the client constructor throws, the error is
   * caught and logged, and nothing changes.
   */
  method Run(store: Store, uri: Option<string>)
    requires store.Valid()
    modifies store
    ensures store.Valid()
    ensures uri.None? || uri.value == "" ==> unchanged(store)
    ensures uri.Some? && uri.value != "" ==>
      && store.content == UnsetId(old(store.content))
      && store.projects == UnsetId(old(store.projects))
      && store.skills == UnsetId(old(store.skills))
  {
    if uri.None? || uri.value == "" {
      return;
    }
    UnsetIdSpec(store.content);
    UnsetIdSpec(store.projects);
    UnsetIdSpec(store.skills);
    store.content := UnsetId(store.content);
    store.projects := UnsetId(store.projects);
    store.skills := UnsetId(store.skills);
  }
}

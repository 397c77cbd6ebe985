/** The technique list of an ATT&CK Navigator layer, reduced to the two
    fields `parseNavigatorLayer` reads from each entry. */
module NavigatorLayer {
  import opened Wrappers
  import opened Seqs
  import opened OrderedDict

  /** One element of `layer.techniques`; `enabled` is absent when the layer
      does not say. */
  datatype LayerEntry = LayerEntry(techniqueID: string, enabled: Option<bool>)

  /** The parsed layer object; `techniques` is absent when the key is missing. */
  datatype Layer = Layer(techniques: Option<seq<LayerEntry>>, domain: Option<string>)

  /** Only an explicit `enabled: false` disables an entry. */
  predicate IsEnabled(e: LayerEntry) {
    e.enabled != Some(false)
  }

  /** The name a layer entry gets: the caller's table, then the built-in table
      of common names, then a placeholder; an empty string counts as missing. */
  function DisplayName(id: string, names: map<string, string>, common: map<string, string>): (n: string)
    ensures n != ""
    ensures id in names && names[id] != "" ==> n == names[id]
    ensures (id !in names || names[id] == "") && id in common && common[id] != "" ==> n == common[id]
    ensures (id !in names || names[id] == "") && (id !in common || common[id] == "") ==> n == "Technique " + id
  {
    if id in names && names[id] != "" then names[id]
    else if id in common && common[id] != "" then common[id]
    else "Technique " + id
  }

  /** The ids of the enabled entries, in layer order, duplicates kept. */
  function EnabledIds(entries: seq<LayerEntry>): (ids: seq<string>)
    ensures |ids| <= |entries|
  {
    if entries == [] then []
    else
      var last := entries[|entries| - 1];
      EnabledIds(entries[..|entries| - 1]) + (if IsEnabled(last) then [last.techniqueID] else [])
  }

  /** An id is listed exactly when some enabled entry carries it. */
  lemma {:induction false} EnabledIdsMembers(entries: seq<LayerEntry>, id: string)
    ensures id in EnabledIds(entries) <==> exists e :: e in entries && IsEnabled(e) && e.techniqueID == id
    decreases |entries|
  {
    if entries != [] {
      var init := entries[..|entries| - 1];
      EnabledIdsMembers(init, id);
      assert entries == init + [entries[|entries| - 1]];
    }
  }

  /** The dictionary filled by the loop over `entries`: a disabled entry and an
      id whose name is already set are skipped. */
  function Collect(entries: seq<LayerEntry>, names: map<string, string>, common: map<string, string>): (d: Dict<string>)
    ensures d.Valid()
  {
    if entries == [] then Empty()
    else
      var d := Collect(entries[..|entries| - 1], names, common);
      var e := entries[|entries| - 1];
      if !IsEnabled(e) then d
      else if e.techniqueID in d.values && d.values[e.techniqueID] != "" then d
      else d.Put(e.techniqueID, DisplayName(e.techniqueID, names, common))
  }

  /** What `parseNavigatorLayer` returns for a layer. */
  function ParsedLayer(layer: Option<Layer>, names: map<string, string>, common: map<string, string>): Dict<string>
  {
    if layer.None? || layer.value.techniques.None? then Empty()
    else Collect(layer.value.techniques.value, names, common)
  }

  /** The collected dictionary has one key per distinct enabled id, in order of
      first occurrence, and every id is named by `DisplayName` whichever of its
      entries came first. */
  lemma {:induction false} CollectSpec(entries: seq<LayerEntry>, names: map<string, string>, common: map<string, string>)
    ensures Collect(entries, names, common).keys == Dedup(EnabledIds(entries))
    ensures forall id :: id in Collect(entries, names, common).values ==>
              Collect(entries, names, common).values[id] == DisplayName(id, names, common)
    decreases |entries|
  {
    if entries != [] {
      var init := entries[..|entries| - 1];
      var e := entries[|entries| - 1];
      var d := Collect(init, names, common);
      CollectSpec(init, names, common);
      var ids := EnabledIds(entries);
      if IsEnabled(e) {
        assert ids == EnabledIds(init) + [e.techniqueID];
        assert ids[..|ids| - 1] == EnabledIds(init);
        assert ids[|ids| - 1] == e.techniqueID;
        assert e.techniqueID in d.values <==> e.techniqueID in Dedup(EnabledIds(init));
        if e.techniqueID in d.values {
          assert d.values[e.techniqueID] != "";
          assert Collect(entries, names, common) == d;
        } else {
          assert Collect(entries, names, common) == d.Put(e.techniqueID, DisplayName(e.techniqueID, names, common));
        }
      } else {
        assert ids == EnabledIds(init);
        assert Collect(entries, names, common) == d;
      }
    }
  }

  /** Every enabled id of the layer is a key, and nothing else is. */
  lemma ParsedLayerKeys(layer: Layer, names: map<string, string>, common: map<string, string>, id: string)
    requires layer.techniques.Some?
    ensures id in ParsedLayer(Some(layer), names, common).values <==>
              exists e :: e in layer.techniques.value && IsEnabled(e) && e.techniqueID == id
  {
    var entries := layer.techniques.value;
    CollectSpec(entries, names, common);
    DedupSpec(EnabledIds(entries));
    EnabledIdsMembers(entries, id);
  }

  /** A duplicate entry changes nothing: only the first occurrence of an id
      places it, so appending an entry whose id is already a key leaves the
      dictionary as it was, even if that entry is enabled and the earlier one
      looked the same. */
  lemma DuplicateIgnored(entries: seq<LayerEntry>, e: LayerEntry, names: map<string, string>, common: map<string, string>)
    requires e.techniqueID in Collect(entries, names, common).values
    ensures Collect(entries + [e], names, common) == Collect(entries, names, common)
  {
    CollectSpec(entries, names, common);
    assert (entries + [e])[..|entries|] == entries;
  }

  /** A disabled entry contributes nothing. */
  lemma DisabledIgnored(entries: seq<LayerEntry>, e: LayerEntry, names: map<string, string>, common: map<string, string>)
    requires e.enabled == Some(false)
    ensures Collect(entries + [e], names, common) == Collect(entries, names, common)
  {
    assert (entries + [e])[..|entries|] == entries;
  }

  /** A layer whose ids are all enabled and distinct yields exactly those
      ids, in layer order. */
  lemma DistinctEnabledKept(entries: seq<LayerEntry>, names: map<string, string>, common: map<string, string>)
    requires Distinct(EnabledIds(entries))
    ensures Collect(entries, names, common).keys == EnabledIds(entries)
  {
    CollectSpec(entries, names, common);
    DedupOfDistinct(EnabledIds(entries));
  }
}

/** The derived parts of the STIX 2.1 builder configuration
    (stix-builder.config.js): the merged object-definition table, the bundle
    JSON schema whose per-type definitions `buildSchemaDefinitions` fills in,
    and the two lookup helpers. */
module StixSchema {
  import opened Wrappers
  import opened Seqs
  import opened OrderedDict
  import opened StixCatalog
  import opened Taxonomy

  /** Each group literal lists its keys once and maps exactly them. */
  lemma SdoKeysDistinct()
    ensures Distinct(SdoKeys)
  {
  }

  lemma SdoDomain()
    ensures forall k :: k in SdoObjects.values <==> k in SdoKeys
  {
  }

  lemma SdoValid()
    ensures SdoObjects.Valid()
  {
    SdoKeysDistinct();
    SdoDomain();
  }

  lemma ScoKeysDistinct()
    ensures Distinct(ScoKeys)
  {
  }

  lemma ScoDomain()
    ensures forall k :: k in ScoObjects.values <==> k in ScoKeys
  {
  }

  lemma ScoValid()
    ensures ScoObjects.Valid()
  {
    ScoKeysDistinct();
    ScoDomain();
  }

  lemma SmallGroupsValid()
    ensures SroObjects.Valid() && MarkingDefinitions.Valid() && ExtensionObjects.Valid()
  {
  }

  lemma VocabularyKeysDistinct()
    ensures Distinct(VocabularyKeys)
  {
  }

  lemma VocabularyDomain()
    ensures forall k :: k in VocabularyLists <==> k in VocabularyKeys
  {
  }

  lemma VocabulariesValid()
    ensures StixVocabularies.Valid()
  {
    VocabularyKeysDistinct();
    VocabularyDomain();
  }

  lemma SdoSroDisjoint()
    ensures forall k | k in SdoKeys :: k !in SroKeys
  {
  }

  lemma ScoDisjoint()
    ensures forall k | k in SdoKeys + SroKeys :: k !in ScoKeys
  {
  }

  lemma TailDisjoint()
    ensures forall k | k in SdoKeys + SroKeys + ScoKeys :: k !in MarkingKeys
    ensures forall k | k in SdoKeys + SroKeys + ScoKeys + MarkingKeys :: k !in [ExtensionKey]
  {
  }

  /** `Object.assign({}, a, b, c, d, e)`. */
  function AssignFive<V>(a: Dict<V>, b: Dict<V>, c: Dict<V>, d: Dict<V>, e: Dict<V>): (r: Dict<V>)
    requires a.Valid() && b.Valid() && c.Valid() && d.Valid() && e.Valid()
    ensures r.Valid()
  {
    Assign(Assign(Assign(Assign(Assign(Empty(), a), b), c), d), e)
  }

  /** The chained disjointness `AssignFive` needs to overwrite nothing. */
  ghost predicate ChainDisjoint<V>(a: Dict<V>, b: Dict<V>, c: Dict<V>, d: Dict<V>, e: Dict<V>) {
    && (forall k | k in a.keys :: k !in b.keys)
    && (forall k | k in a.keys + b.keys :: k !in c.keys)
    && (forall k | k in a.keys + b.keys + c.keys :: k !in d.keys)
    && (forall k | k in a.keys + b.keys + c.keys + d.keys :: k !in e.keys)
  }

  /** From sources with disjoint keys the five-way assign lists the keys one
      after another and holds every source's entries unchanged. */
  lemma AssignFiveDisjoint<V>(a: Dict<V>, b: Dict<V>, c: Dict<V>, d: Dict<V>, e: Dict<V>)
    requires a.Valid() && b.Valid() && c.Valid() && d.Valid() && e.Valid()
    requires ChainDisjoint(a, b, c, d, e)
    ensures AssignFive(a, b, c, d, e).keys == a.keys + b.keys + c.keys + d.keys + e.keys
    ensures AssignFive(a, b, c, d, e).values == a.values + b.values + c.values + d.values + e.values
  {
    var r1 := Assign(Empty(), a);
    AssignDisjoint(Empty(), a);
    assert [] + a.keys == a.keys;
    assert map[] + a.values == a.values;
    var r2 := Assign(r1, b);
    AssignDisjoint(r1, b);
    assert r2.keys == a.keys + b.keys;
    var r3 := Assign(r2, c);
    AssignDisjoint(r2, c);
    assert r3.keys == a.keys + b.keys + c.keys;
    var r4 := Assign(r3, d);
    AssignDisjoint(r3, d);
    assert r4.keys == a.keys + b.keys + c.keys + d.keys;
    AssignDisjoint(r4, e);
    assert AssignFive(a, b, c, d, e) == Assign(r4, e);
  }

  /** A key of any one source finds that source's own value. */
  lemma AssignFiveLookup<V>(a: Dict<V>, b: Dict<V>, c: Dict<V>, d: Dict<V>, e: Dict<V>)
    requires a.Valid() && b.Valid() && c.Valid() && d.Valid() && e.Valid()
    requires ChainDisjoint(a, b, c, d, e)
    ensures forall k | k in a.values :: k in AssignFive(a, b, c, d, e).values && AssignFive(a, b, c, d, e).values[k] == a.values[k]
    ensures forall k | k in b.values :: k in AssignFive(a, b, c, d, e).values && AssignFive(a, b, c, d, e).values[k] == b.values[k]
    ensures forall k | k in c.values :: k in AssignFive(a, b, c, d, e).values && AssignFive(a, b, c, d, e).values[k] == c.values[k]
    ensures forall k | k in d.values :: k in AssignFive(a, b, c, d, e).values && AssignFive(a, b, c, d, e).values[k] == d.values[k]
    ensures forall k | k in e.values :: k in AssignFive(a, b, c, d, e).values && AssignFive(a, b, c, d, e).values[k] == e.values[k]
  {
    AssignFiveDisjoint(a, b, c, d, e);
    forall k | k in a.values
      ensures k !in b.values && k !in c.values && k !in d.values && k !in e.values
    {
      assert k in a.keys;
      assert k in a.keys + b.keys && k in a.keys + b.keys + c.keys && k in a.keys + b.keys + c.keys + d.keys;
    }
    forall k | k in b.values
      ensures k !in c.values && k !in d.values && k !in e.values
    {
      assert k in b.keys;
      assert k in a.keys + b.keys && k in a.keys + b.keys + c.keys && k in a.keys + b.keys + c.keys + d.keys;
    }
    forall k | k in c.values
      ensures k !in d.values && k !in e.values
    {
      assert k in c.keys;
      assert k in a.keys + b.keys + c.keys && k in a.keys + b.keys + c.keys + d.keys;
    }
    forall k | k in d.values
      ensures k !in e.values
    {
      assert k in d.keys;
      assert k in a.keys + b.keys + c.keys + d.keys;
    }
    UnionLookup(a.values, b.values, c.values, d.values, e.values);
  }

  /** Lookups in a union of five maps with disjoint domains. */
  lemma UnionLookup<V>(a: map<string, V>, b: map<string, V>, c: map<string, V>, d: map<string, V>, e: map<string, V>)
    requires forall k | k in a :: k !in b && k !in c && k !in d && k !in e
    requires forall k | k in b :: k !in c && k !in d && k !in e
    requires forall k | k in c :: k !in d && k !in e
    requires forall k | k in d :: k !in e
    ensures forall k | k in a :: (a + b + c + d + e)[k] == a[k]
    ensures forall k | k in b :: (a + b + c + d + e)[k] == b[k]
    ensures forall k | k in c :: (a + b + c + d + e)[k] == c[k]
    ensures forall k | k in d :: (a + b + c + d + e)[k] == d[k]
    ensures forall k | k in e :: (a + b + c + d + e)[k] == e[k]
  {
  }

  /** The five groups' keys are pairwise disjoint. */
  lemma GroupsChainDisjoint()
    ensures ChainDisjoint(SdoObjects, SroObjects, ScoObjects, MarkingDefinitions, ExtensionObjects)
  {
    SdoSroDisjoint();
    ScoDisjoint();
    TailDisjoint();
  }

  /** `STIX_OBJECT_DEFS`: `Object.assign({}, SDO, SRO, SCO, marking,
      {'extension-definition': …})`. */
  const StixObjectDefs: Dict<ObjectDef> := MergeObjectDefs()

  function MergeObjectDefs(): Dict<ObjectDef>
  {
    SdoValid();
    ScoValid();
    SmallGroupsValid();
    AssignFive(SdoObjects, SroObjects, ScoObjects, MarkingDefinitions, ExtensionObjects)
  }

  const ObjectDefKeys: seq<string> := SdoKeys + SroKeys + ScoKeys + MarkingKeys + [ExtensionKey]

  /** The merge overwrites nothing: the table's keys are the five groups' keys
      one after another, each once, and its entries are the union of theirs. */
  lemma ObjectDefsMerge()
    ensures StixObjectDefs.Valid()
    ensures StixObjectDefs.keys == ObjectDefKeys
    ensures StixObjectDefs.values
         == SdoObjects.values + SroObjects.values + ScoObjects.values + MarkingDefinitions.values + ExtensionObjects.values
  {
    SdoValid();
    ScoValid();
    SmallGroupsValid();
    GroupsChainDisjoint();
    AssignFiveDisjoint(SdoObjects, SroObjects, ScoObjects, MarkingDefinitions, ExtensionObjects);
  }

  /** `getStixObjectDefinition(type)`: the definition of a known type, `null`
      otherwise (a definition is an object, so `||` never falls through for a
      known type). */
  function GetStixObjectDefinition(objectType: string): (r: Option<ObjectDef>)
    ensures r.Some? <==> objectType in StixObjectDefs.values
    ensures r.Some? ==> r.value == StixObjectDefs.values[objectType]
  {
    if objectType in StixObjectDefs.values then Some(StixObjectDefs.values[objectType]) else None
  }

  /** The five groups are valid and chained-disjoint, so `AssignFiveLookup`
      applies to them. */
  lemma GroupsMergeable()
    ensures SdoObjects.Valid() && SroObjects.Valid() && ScoObjects.Valid()
    ensures MarkingDefinitions.Valid() && ExtensionObjects.Valid()
    ensures ChainDisjoint(SdoObjects, SroObjects, ScoObjects, MarkingDefinitions, ExtensionObjects)
  {
    SdoValid();
    ScoValid();
    SmallGroupsValid();
    GroupsChainDisjoint();
  }

  /** Every key of a group finds that group's own definition. */
  lemma SdoDefinitionsFound()
    ensures forall k | k in SdoObjects.values :: GetStixObjectDefinition(k) == Some(SdoObjects.values[k])
  {
    GroupsMergeable();
    AssignFiveLookup(SdoObjects, SroObjects, ScoObjects, MarkingDefinitions, ExtensionObjects);
  }

  lemma SroDefinitionsFound()
    ensures forall k | k in SroObjects.values :: GetStixObjectDefinition(k) == Some(SroObjects.values[k])
  {
    GroupsMergeable();
    AssignFiveLookup(SdoObjects, SroObjects, ScoObjects, MarkingDefinitions, ExtensionObjects);
  }

  lemma ScoDefinitionsFound()
    ensures forall k | k in ScoObjects.values :: GetStixObjectDefinition(k) == Some(ScoObjects.values[k])
  {
    GroupsMergeable();
    AssignFiveLookup(SdoObjects, SroObjects, ScoObjects, MarkingDefinitions, ExtensionObjects);
  }

  lemma MarkingDefinitionsFound()
    ensures forall k | k in MarkingDefinitions.values :: GetStixObjectDefinition(k) == Some(MarkingDefinitions.values[k])
  {
    GroupsMergeable();
    AssignFiveLookup(SdoObjects, SroObjects, ScoObjects, MarkingDefinitions, ExtensionObjects);
  }

  lemma ExtensionDefinitionsFound()
    ensures forall k | k in ExtensionObjects.values :: GetStixObjectDefinition(k) == Some(ExtensionObjects.values[k])
  {
    GroupsMergeable();
    AssignFiveLookup(SdoObjects, SroObjects, ScoObjects, MarkingDefinitions, ExtensionObjects);
  }

  /** Each group's definitions carry that group's category. */
  lemma SdoCategories()
    ensures forall k | k in SdoObjects.values :: SdoObjects.values[k].category == "sdo"
  {
  }

  lemma SroCategories()
    ensures forall k | k in SroObjects.values :: SroObjects.values[k].category == "sro"
  {
  }

  lemma ScoCategories()
    ensures forall k | k in ScoObjects.values :: ScoObjects.values[k].category == "sco"
  {
  }

  lemma MarkingCategories()
    ensures forall k | k in MarkingDefinitions.values :: MarkingDefinitions.values[k].category == "marking"
  {
  }

  lemma ExtensionCategories()
    ensures forall k | k in ExtensionObjects.values :: ExtensionObjects.values[k].category == "extension"
  {
  }

  lemma SdoCategoryFound(k: string)
    ensures k in SdoKeys ==> GetStixObjectDefinition(k).Some? && GetStixObjectDefinition(k).value.category == "sdo"
  {
    SdoValid();
    SdoDefinitionsFound();
    SdoCategories();
  }

  lemma SroCategoryFound(k: string)
    ensures k in SroKeys ==> GetStixObjectDefinition(k).Some? && GetStixObjectDefinition(k).value.category == "sro"
  {
    SmallGroupsValid();
    SroDefinitionsFound();
    SroCategories();
  }

  lemma ScoCategoryFound(k: string)
    ensures k in ScoKeys ==> GetStixObjectDefinition(k).Some? && GetStixObjectDefinition(k).value.category == "sco"
  {
    ScoValid();
    ScoDefinitionsFound();
    ScoCategories();
  }

  lemma MarkingCategoryFound(k: string)
    ensures k in MarkingKeys ==> GetStixObjectDefinition(k).Some? && GetStixObjectDefinition(k).value.category == "marking"
  {
    SmallGroupsValid();
    MarkingDefinitionsFound();
    MarkingCategories();
  }

  lemma ExtensionCategoryFound(k: string)
    ensures k == ExtensionKey ==> GetStixObjectDefinition(k).Some? && GetStixObjectDefinition(k).value.category == "extension"
  {
    SmallGroupsValid();
    ExtensionDefinitionsFound();
    ExtensionCategories();
  }

  /** A bundle is not an object definition. */
  lemma BundleIsNotAnObject()
    ensures GetStixObjectDefinition("bundle") == None
  {
    ObjectDefsMerge();
    BundleNotAKey();
  }

  lemma BundleNotAKey()
    ensures "bundle" !in ObjectDefKeys
  {
  }

  /** `getVocabulary(key)`: the list, or `[]` for an unknown key. */
  function GetVocabulary(key: string): (r: seq<string>)
    ensures key in StixVocabularies.values ==> r == StixVocabularies.values[key]
    ensures key !in StixVocabularies.values ==> r == []
  {
    if key in StixVocabularies.values then StixVocabularies.values[key] else []
  }

  lemma VocabulariesNonEmpty()
    ensures forall key | key in VocabularyLists :: VocabularyLists[key] != []
  {
  }

  /** Exactly the declared names give a list. */
  lemma VocabulariesDeclared()
    ensures forall key :: GetVocabulary(key) != [] <==> key in VocabularyKeys
  {
    VocabulariesValid();
    VocabulariesNonEmpty();
  }

  lemma TlpVocabulary()
    ensures GetVocabulary("tlp-ov") == ["white", "green", "amber", "red", "amber+strict"]
    ensures GetVocabulary("kill-chain-ov") == []
  {
  }

  /** The relationship types the ATT&CK extraction acts on are in the
      relationship vocabulary. */
  lemma RelationshipTypesKnown()
    ensures "mitigates" in GetVocabulary("relationship-type-ov")
    ensures "subtechnique-of" in GetVocabulary("relationship-type-ov")
  {
  }

  /** The builder's kill-chain phase names are the visualizer's eighteen phase
      ids in the same order, except the command-and-control phase, which the
      visualizer calls `command-control`. */
  lemma KillChainPhasesCrossCheck()
    ensures |UnifiedKillChainPhases| == |DeclaredKeys(KillChainStructure)| == 18
    ensures forall i | 0 <= i < 18 && i != 7 :: UnifiedKillChainPhases[i] == DeclaredKeys(KillChainStructure)[i].phaseId
    ensures UnifiedKillChainPhases[7] == "command-and-control"
    ensures DeclaredKeys(KillChainStructure)[7].phaseId == "command-control"
  {
    DeclaredPhases();
  }
}

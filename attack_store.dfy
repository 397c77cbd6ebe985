/** The two state-changing steps of scripts/extract-attack.py:
    `process_stix_bundle`, which adds a bundle's techniques, mitigations and
    relevant relationships to the caller's collections, and
    `resolve_relationships`, which links mitigations and parent techniques
    and then drops every `stixId`; and the order in which `main` runs them. */
module AttackStore {
  import opened Wrappers
  import opened Seqs
  import opened OrderedDict
  import opened AttackObjects

  const DescriptionLimit: nat := 3000
  const DetectionLimit: nat := 2000
  const MitigationDescriptionLimit: nat := 2000
  const RelationshipDescriptionLimit: nat := 1000

  /** A mitigation as linked from a technique. */
  datatype MitigationLink = MitigationLink(id: string, name: string, description: string)

  /** An entry of `techniques`; `stixId` is `None` once removed. */
  datatype Technique = Technique(
    id: string, stixId: Option<string>, name: string, description: string,
    platforms: seq<string>, tactics: seq<string>, domain: string, isSubtechnique: bool,
    parentTechnique: Option<string>, detection: string, version: string,
    references: seq<Reference>, mitigations: seq<MitigationLink>)

  /** An entry of `mitigations`, keyed by its STIX id. */
  datatype Mitigation = Mitigation(id: string, stixId: string, name: string, description: string)

  /** An element of `relationships`. */
  datatype Relationship = Relationship(relType: string, source: string, target: string, description: string)

  /** `(s or '')[:n]`. */
  function Clip(s: Option<string>, n: nat): (r: string)
    ensures |r| <= n
  {
    Take(s.GetOr(""), n)
  }

  /** Deprecated and revoked objects are skipped whatever their type. */
  predicate Skipped(obj: StixObject) {
    obj.deprecated || obj.revoked
  }

  /** The domain of a technique: enterprise, then mobile, then ics, and
      enterprise when none is listed. */
  function DomainOf(domains: seq<string>): (d: string)
    ensures d == "enterprise" || d == "mobile" || d == "ics"
    ensures d == "mobile" <==> "enterprise-attack" !in domains && "mobile-attack" in domains
    ensures d == "ics" <==> "enterprise-attack" !in domains && "mobile-attack" !in domains && "ics-attack" in domains
  {
    if "enterprise-attack" in domains then "enterprise"
    else if "mobile-attack" in domains then "mobile"
    else if "ics-attack" in domains then "ics"
    else "enterprise"
  }

  /** The technique written for an attack-pattern with external id `extId`. */
  function TechniqueOf(obj: StixObject, extId: string): (t: Technique)
    ensures t.id == extId && t.stixId == Some(obj.id)
    ensures |t.description| <= DescriptionLimit && |t.detection| <= DetectionLimit
    ensures |t.references| <= ReferenceLimit
    ensures t.parentTechnique == None && t.mitigations == []
    ensures t.domain == DomainOf(obj.domains)
  {
    ReferencesSpec(obj.externalReferences, ReferenceLimit);
    Technique(extId, Some(obj.id), obj.name.GetOr(""), Clip(obj.description, DescriptionLimit),
              obj.platforms, Tactics(obj.killChainPhases), DomainOf(obj.domains), obj.isSubtechnique,
              None, Clip(obj.detection, DetectionLimit), obj.version.GetOr("1.0"),
              References(obj.externalReferences, ReferenceLimit), [])
  }

  /** What an object adds to `techniques`: a non-skipped attack-pattern with
      a non-empty external id. */
  function TechniqueEntry(obj: StixObject): (e: Option<(string, Technique)>)
    ensures e.Some? <==> !Skipped(obj) && obj.objType == Some("attack-pattern")
                         && ExternalId(obj.externalReferences).Some? && ExternalId(obj.externalReferences).value != ""
    ensures e.Some? ==> e.value.0 == ExternalId(obj.externalReferences).value && e.value.1 == TechniqueOf(obj, e.value.0)
  {
    if Skipped(obj) || obj.objType != Some("attack-pattern") then None
    else
      var extId := ExternalId(obj.externalReferences);
      if extId.None? || extId.value == "" then None
      else Some((extId.value, TechniqueOf(obj, extId.value)))
  }

  /** What an object adds to `mitigations`: a non-skipped course-of-action
      with a mitigation id, keyed by its STIX id. */
  function MitigationEntry(obj: StixObject): (e: Option<(string, Mitigation)>)
    ensures e.Some? <==> !Skipped(obj) && obj.objType == Some("course-of-action") && MitigationId(obj.externalReferences).Some?
    ensures e.Some? ==> e.value.0 == obj.id && e.value.1.stixId == obj.id
                        && e.value.1.id == MitigationId(obj.externalReferences).value
                        && |e.value.1.description| <= MitigationDescriptionLimit
  {
    if Skipped(obj) || obj.objType != Some("course-of-action") then None
    else
      var mitId := MitigationId(obj.externalReferences);
      if mitId.None? then None
      else Some((obj.id, Mitigation(mitId.value, obj.id, obj.name.GetOr(""), Clip(obj.description, MitigationDescriptionLimit))))
  }

  predicate RelevantType(t: string) {
    t == "mitigates" || t == "subtechnique-of"
  }

  /** What an object adds to `relationships`: a non-skipped relationship of
      type `mitigates` or `subtechnique-of`. */
  function RelationshipOf(obj: StixObject): (r: Option<Relationship>)
    ensures r.Some? <==> !Skipped(obj) && obj.objType == Some("relationship")
                         && obj.relationshipType.Some? && RelevantType(obj.relationshipType.value)
    ensures r.Some? ==> r.value.relType == obj.relationshipType.value && r.value.source == obj.sourceRef
                        && r.value.target == obj.targetRef && |r.value.description| <= RelationshipDescriptionLimit
  {
    if Skipped(obj) || obj.objType != Some("relationship") then None
    else if obj.relationshipType.Some? && RelevantType(obj.relationshipType.value)
    then Some(Relationship(obj.relationshipType.value, obj.sourceRef, obj.targetRef, Clip(obj.description, RelationshipDescriptionLimit)))
    else None
  }

  /** The relationships a list of objects contributes, in order. */
  function RelationshipsOf(objs: seq<StixObject>): seq<Relationship>
  {
    if objs == [] then []
    else
      var r := RelationshipOf(objs[|objs| - 1]);
      RelationshipsOf(objs[..|objs| - 1]) + (if r.Some? then [r.value] else [])
  }

  lemma RelationshipsOfAppend(objs: seq<StixObject>, obj: StixObject)
    ensures RelationshipsOf(objs + [obj]) == RelationshipsOf(objs) + RelationshipsOf([obj])
  {
    assert (objs + [obj])[..|objs|] == objs;
    assert [obj][..0] == [];
  }

  /** Every stored relationship is of a relevant type and comes from one of
      the objects, and every relevant object is stored. */
  lemma {:induction false} RelationshipsOfSpec(objs: seq<StixObject>)
    ensures forall r | r in RelationshipsOf(objs) :: RelevantType(r.relType) && |r.description| <= RelationshipDescriptionLimit
    ensures forall r :: r in RelationshipsOf(objs) <==> exists i | 0 <= i < |objs| :: RelationshipOf(objs[i]) == Some(r)
    decreases |objs|
  {
    if objs != [] {
      var init := objs[..|objs| - 1];
      RelationshipsOfSpec(init);
      assert forall i | 0 <= i < |init| :: init[i] == objs[i];
    }
  }

  /** Across bundles processed one after the other, the first occurrence of
      an external id wins: a technique already stored keeps its value, and a
      new one takes its first attack-pattern's. */
  lemma TechniquesFirstWins(d: Dict<Technique>, objs: seq<StixObject>, i: nat)
    requires d.Valid()
    requires i < |objs| && TechniqueEntry(objs[i]).Some? && TechniqueEntry(objs[i]).value.0 !in d.values
    requires forall j | 0 <= j < i :: TechniqueEntry(objs[j]).None? || TechniqueEntry(objs[j]).value.0 != TechniqueEntry(objs[i]).value.0
    ensures TechniqueEntry(objs[i]).value.0 in OntoFirst(d, objs, TechniqueEntry).values
    ensures OntoFirst(d, objs, TechniqueEntry).values[TechniqueEntry(objs[i]).value.0]
              == TechniqueOf(objs[i], ExternalId(objs[i].externalReferences).value)
  {
    OntoFirstWins(d, objs, TechniqueEntry, i);
  }

  /** Every technique `process_stix_bundle` stores carries the STIX id of its
      attack-pattern, so the ids that `resolve_relationships` reads are there. */
  lemma {:induction false} TechniquesKeepStixIds(d: Dict<Technique>, objs: seq<StixObject>)
    requires d.Valid() && HasStixIds(d)
    ensures HasStixIds(OntoFirst(d, objs, TechniqueEntry))
    decreases |objs|
  {
    if objs != [] {
      TechniquesKeepStixIds(d, objs[..|objs| - 1]);
    }
  }

  /** `techniques`, `mitigations` and `relationships` shared by the bundles. */
  class AttackData {
    var techniques: Dict<Technique>
    var mitigations: Dict<Mitigation>
    var relationships: seq<Relationship>

    ghost predicate Valid()
      reads this
    {
      techniques.Valid() && mitigations.Valid()
    }

    constructor()
      ensures Valid() && HasStixIds(techniques)
      ensures techniques == Empty() && mitigations == Empty() && relationships == []
    {
      techniques := Empty();
      mitigations := Empty();
      relationships := [];
    }

    /** `process_stix_bundle` over the bundle's parsed `objects`: techniques
        first-wins, mitigations last-wins, relationships appended. The
        printed counters are not modelled. */
    method ProcessStixBundle(objects: seq<StixObject>)
      requires Valid()
      modifies this
      ensures Valid()
      ensures techniques == OntoFirst(old(techniques), objects, TechniqueEntry)
      ensures mitigations == Onto(old(mitigations), objects, MitigationEntry)
      ensures relationships == old(relationships) + RelationshipsOf(objects)
      ensures HasStixIds(old(techniques)) ==> HasStixIds(techniques)
    {
      for i := 0 to |objects|
        invariant Valid()
        invariant techniques == OntoFirst(old(techniques), objects[..i], TechniqueEntry)
        invariant mitigations == Onto(old(mitigations), objects[..i], MitigationEntry)
        invariant relationships == old(relationships) + RelationshipsOf(objects[..i])
      {
        assert objects[..i + 1] == objects[..i] + [objects[i]];
        OntoFirstAppend(old(techniques), objects[..i], [objects[i]], TechniqueEntry);
        OntoAppend(old(mitigations), objects[..i], [objects[i]], MitigationEntry);
        RelationshipsOfAppend(objects[..i], objects[i]);
        ProcessObject(objects[i]);
      }
      assert objects[..|objects|] == objects;
      if HasStixIds(old(techniques)) {
        TechniquesKeepStixIds(old(techniques), objects);
      }
    }

    /** The body of the object loop of `process_stix_bundle` for one object;
        `return` stands for `continue`. */
    method ProcessObject(obj: StixObject)
      requires Valid()
      modifies this
      ensures Valid()
      ensures techniques == OntoFirst(old(techniques), [obj], TechniqueEntry)
      ensures mitigations == Onto(old(mitigations), [obj], MitigationEntry)
      ensures relationships == old(relationships) + RelationshipsOf([obj])
    {
      assert [obj][..0] == [];
      if obj.deprecated || obj.revoked {
        assert relationships + [] == relationships;
        return;
      }
      if obj.objType == Some("attack-pattern") {
        var extId := ExtractExternalId(obj);
        if extId.None? || extId.value == "" {
          assert relationships + [] == relationships;
          return;
        }
        var domain := if "enterprise-attack" in obj.domains then "enterprise"
                      else if "mobile-attack" in obj.domains then "mobile"
                      else if "ics-attack" in obj.domains then "ics"
                      else "enterprise";
        if extId.value !in techniques.values {
          var tactics := ExtractTactics(obj);
          var references := ExtractReferences(obj, ReferenceLimit);
          techniques := techniques.Put(extId.value,
            Technique(extId.value, Some(obj.id), obj.name.GetOr(""), Take(obj.description.GetOr(""), DescriptionLimit),
                      obj.platforms, tactics, domain, obj.isSubtechnique, None,
                      Take(obj.detection.GetOr(""), DetectionLimit), obj.version.GetOr("1.0"), references, []));
        }
        assert relationships + [] == relationships;
      } else if obj.objType == Some("course-of-action") {
        var mitId := ExtractMitigationId(obj);
        if mitId.Some? {
          mitigations := mitigations.Put(obj.id,
            Mitigation(mitId.value, obj.id, obj.name.GetOr(""), Take(obj.description.GetOr(""), MitigationDescriptionLimit)));
        }
        assert relationships + [] == relationships;
      } else if obj.objType == Some("relationship") {
        var relType := obj.relationshipType;
        if relType == Some("mitigates") || relType == Some("subtechnique-of") {
          relationships := relationships + [Relationship(relType.value, obj.sourceRef, obj.targetRef,
                                                         Take(obj.description.GetOr(""), RelationshipDescriptionLimit))];
        } else {
          assert relationships + [] == relationships;
        }
      } else {
        assert relationships + [] == relationships;
      }
    }

    /** `resolve_relationships`. Every technique must still carry its
        `stixId` (`tech['stixId']` is read, then deleted). */
    method ResolveRelationships()
      requires Valid()
      requires HasStixIds(techniques)
      modifies this
      ensures Valid()
      ensures techniques == StripStixIds(LinkAll(old(techniques), StixIndex(old(techniques)), old(mitigations), old(relationships)))
      ensures mitigations == old(mitigations) && relationships == old(relationships)
    {
      var index := BuildStixIndex(techniques);
      StixIndexSpec(techniques);
      var linked := ApplyRelationships(techniques, index, mitigations, relationships);
      techniques := RemoveStixIds(linked);
    }
  }

  /** The collections after `process_stix_bundle` has run over each bundle
      in turn, starting from empty ones. */
  function TechniquesAfter(bundles: seq<seq<StixObject>>): (d: Dict<Technique>)
    ensures d.Valid() && HasStixIds(d)
  {
    if bundles == [] then Empty()
    else
      var d := TechniquesAfter(bundles[..|bundles| - 1]);
      TechniquesKeepStixIds(d, bundles[|bundles| - 1]);
      OntoFirst(d, bundles[|bundles| - 1], TechniqueEntry)
  }

  function MitigationsAfter(bundles: seq<seq<StixObject>>): (d: Dict<Mitigation>)
    ensures d.Valid()
  {
    if bundles == [] then Empty()
    else Onto(MitigationsAfter(bundles[..|bundles| - 1]), bundles[|bundles| - 1], MitigationEntry)
  }

  function RelationshipsAfter(bundles: seq<seq<StixObject>>): (rels: seq<Relationship>)
    ensures forall r | r in rels :: RelevantType(r.relType) && |r.description| <= RelationshipDescriptionLimit
  {
    if bundles == [] then []
    else
      RelationshipsOfSpec(bundles[|bundles| - 1]);
      RelationshipsAfter(bundles[..|bundles| - 1]) + RelationshipsOf(bundles[|bundles| - 1])
  }

  /** The extraction step of `main`: fresh collections, every bundle
      processed in order, then the relationships resolved. Loading the
      bundle files and writing the result are not modelled. */
  method ExtractAttack(bundles: seq<seq<StixObject>>) returns (techniques: Dict<Technique>)
    ensures techniques.Valid() && techniques.keys == TechniquesAfter(bundles).keys
    ensures techniques == StripStixIds(LinkAll(TechniquesAfter(bundles), StixIndex(TechniquesAfter(bundles)),
                                               MitigationsAfter(bundles), RelationshipsAfter(bundles)))
  {
    var data := new AttackData();
    for i := 0 to |bundles|
      invariant data.Valid() && HasStixIds(data.techniques)
      invariant data.techniques == TechniquesAfter(bundles[..i])
      invariant data.mitigations == MitigationsAfter(bundles[..i])
      invariant data.relationships == RelationshipsAfter(bundles[..i])
    {
      assert bundles[..i + 1][..i] == bundles[..i];
      data.ProcessStixBundle(bundles[i]);
    }
    assert bundles[..|bundles|] == bundles;
    data.ResolveRelationships();
    techniques := data.techniques;
  }

  /** Every technique still carries its STIX id. */
  ghost predicate HasStixIds(d: Dict<Technique>)
  {
    forall k | k in d.values :: d.values[k].stixId.Some?
  }

  /** `stix_to_ext`: `stix_to_ext[tech['stixId']] = ext_id` over the first
      `n` keys. */
  function StixIndexOver(d: Dict<Technique>, n: nat): (m: map<string, string>)
    requires d.Valid() && HasStixIds(d) && n <= |d.keys|
    ensures forall s | s in m :: m[s] in d.values && d.values[m[s]].stixId == Some(s)
  {
    if n == 0 then map[]
    else
      var k := d.keys[n - 1];
      StixIndexOver(d, n - 1)[d.values[k].stixId.value := k]
  }

  function StixIndex(d: Dict<Technique>): (m: map<string, string>)
    requires d.Valid() && HasStixIds(d)
  {
    StixIndexOver(d, |d.keys|)
  }

  /** The index maps every STIX id of a technique, and nothing else, to a
      technique carrying that id. */
  lemma StixIndexSpec(d: Dict<Technique>)
    requires d.Valid() && HasStixIds(d)
    ensures forall s | s in StixIndex(d) :: StixIndex(d)[s] in d.values && d.values[StixIndex(d)[s]].stixId == Some(s)
    ensures forall k | k in d.values :: d.values[k].stixId.value in StixIndex(d)
  {
    forall k | k in d.values ensures d.values[k].stixId.value in StixIndex(d) {
      var i :| 0 <= i < |d.keys| && d.keys[i] == k;
      StixIndexOverHas(d, |d.keys|, i);
    }
  }

  lemma {:induction false} StixIndexOverHas(d: Dict<Technique>, n: nat, i: nat)
    requires d.Valid() && HasStixIds(d) && i < n <= |d.keys|
    ensures d.values[d.keys[i]].stixId.value in StixIndexOver(d, n)
    decreases n
  {
    var k := d.keys[n - 1];
    var before := StixIndexOver(d, n - 1);
    assert StixIndexOver(d, n) == before[d.values[k].stixId.value := k];
    if i < n - 1 {
      StixIndexOverHas(d, n - 1, i);
    }
  }

  method BuildStixIndex(d: Dict<Technique>) returns (m: map<string, string>)
    requires d.Valid() && HasStixIds(d)
    ensures m == StixIndex(d)
  {
    m := map[];
    for i := 0 to |d.keys|
      invariant m == StixIndexOver(d, i)
    {
      var k := d.keys[i];
      m := m[d.values[k].stixId.value := k];
    }
  }

  /** Every index entry names a technique of the table. */
  ghost predicate IndexInto(index: map<string, string>, d: Dict<Technique>)
  {
    forall s | s in index :: index[s] in d.values
  }

  /** The entry appended for a `mitigates` relationship: its own description
      when non-empty, else the mitigation's. */
  function LinkOf(rel: Relationship, mit: Mitigation): (l: MitigationLink)
    ensures l.id == mit.id && l.name == mit.name
    ensures l.description == (if rel.description != "" then rel.description else mit.description)
  {
    MitigationLink(mit.id, mit.name, if rel.description != "" then rel.description else mit.description)
  }

  /** `rel` adds a mitigation link to technique `k`. */
  predicate MitigatesTechnique(rel: Relationship, index: map<string, string>, mits: Dict<Mitigation>, k: string)
  {
    rel.relType == "mitigates" && rel.source in mits.values && rel.target in index && index[rel.target] == k
  }

  /** `rel` sets the parent of technique `k`. */
  predicate ParentOfTechnique(rel: Relationship, index: map<string, string>, k: string)
  {
    rel.relType == "subtechnique-of" && rel.source in index && rel.target in index && index[rel.source] == k
  }

  /** The effect of one relationship. */
  function LinkStep(d: Dict<Technique>, index: map<string, string>, mits: Dict<Mitigation>, rel: Relationship): (r: Dict<Technique>)
    requires d.Valid() && IndexInto(index, d)
    ensures r.Valid() && r.keys == d.keys
  {
    if rel.relType == "mitigates" then
      if rel.source in mits.values && rel.target in index then
        var k := index[rel.target];
        var t := d.values[k];
        d.Put(k, t.(mitigations := t.mitigations + [LinkOf(rel, mits.values[rel.source])]))
      else d
    else if rel.relType == "subtechnique-of" then
      if rel.source in index && rel.target in index then
        var k := index[rel.source];
        d.Put(k, d.values[k].(parentTechnique := Some(index[rel.target])))
      else d
    else d
  }

  /** The relationships applied in order. */
  function LinkAll(d: Dict<Technique>, index: map<string, string>, mits: Dict<Mitigation>, rels: seq<Relationship>): (r: Dict<Technique>)
    requires d.Valid() && IndexInto(index, d)
    ensures r.Valid() && r.keys == d.keys
  {
    if rels == [] then d
    else LinkStep(LinkAll(d, index, mits, rels[..|rels| - 1]), index, mits, rels[|rels| - 1])
  }

  /** The relationship loop of `resolve_relationships`. */
  method ApplyRelationships(d: Dict<Technique>, index: map<string, string>, mits: Dict<Mitigation>, rels: seq<Relationship>)
    returns (techniques: Dict<Technique>)
    requires d.Valid() && IndexInto(index, d)
    ensures techniques == LinkAll(d, index, mits, rels)
  {
    techniques := d;
    for i := 0 to |rels|
      invariant techniques.Valid() && techniques.keys == d.keys
      invariant techniques == LinkAll(d, index, mits, rels[..i])
    {
      assert rels[..i + 1][..i] == rels[..i];
      var rel := rels[i];
      if rel.relType == "mitigates" {
        if rel.source in mits.values && rel.target in index {
          var techExtId := index[rel.target];
          var mit := mits.values[rel.source];
          var tech := techniques.values[techExtId];
          var link := MitigationLink(mit.id, mit.name, if rel.description != "" then rel.description else mit.description);
          techniques := techniques.Put(techExtId, tech.(mitigations := tech.mitigations + [link]));
        }
      } else if rel.relType == "subtechnique-of" {
        if rel.source in index && rel.target in index {
          var subExtId := index[rel.source];
          var parentExtId := index[rel.target];
          techniques := techniques.Put(subExtId, techniques.values[subExtId].(parentTechnique := Some(parentExtId)));
        }
      }
    }
    assert rels[..|rels|] == rels;
  }

  /** The links `rels` add to technique `k`, in relationship order. */
  function MitigationLinks(index: map<string, string>, mits: Dict<Mitigation>, rels: seq<Relationship>, k: string): seq<MitigationLink>
  {
    if rels == [] then []
    else
      var rel := rels[|rels| - 1];
      MitigationLinks(index, mits, rels[..|rels| - 1], k)
        + (if MitigatesTechnique(rel, index, mits, k) then [LinkOf(rel, mits.values[rel.source])] else [])
  }

  /** The parent of technique `k` after `rels`, starting from `p`. */
  function ParentAfter(index: map<string, string>, rels: seq<Relationship>, k: string, p: Option<string>): Option<string>
  {
    if rels == [] then p
    else
      var rel := rels[|rels| - 1];
      if ParentOfTechnique(rel, index, k) then Some(index[rel.target])
      else ParentAfter(index, rels[..|rels| - 1], k, p)
  }

  /** A technique with links appended and its parent set. */
  function Linked(t: Technique, links: seq<MitigationLink>, parent: Option<string>): (r: Technique)
    ensures r.mitigations == t.mitigations + links && r.parentTechnique == parent
  {
    t.(mitigations := t.mitigations + links, parentTechnique := parent)
  }

  /** Each technique gets exactly the links of the relationships that
      mitigate it, and the parent of the last relationship that makes it a
      sub-technique; nothing else about it changes. */
  lemma {:induction false} LinkAllTechnique(d: Dict<Technique>, index: map<string, string>, mits: Dict<Mitigation>,
                                            rels: seq<Relationship>, k: string)
    requires d.Valid() && IndexInto(index, d) && k in d.values
    ensures LinkAll(d, index, mits, rels).values[k]
              == Linked(d.values[k], MitigationLinks(index, mits, rels, k), ParentAfter(index, rels, k, d.values[k].parentTechnique))
    decreases |rels|
  {
    var t := d.values[k];
    if rels == [] {
      assert t.mitigations + [] == t.mitigations;
      assert Linked(t, [], t.parentTechnique) == t;
    } else {
      var init := rels[..|rels| - 1];
      var rel := rels[|rels| - 1];
      LinkAllTechnique(d, index, mits, init, k);
      var before := LinkAll(d, index, mits, init);
      LinkStepTechnique(before, index, mits, rel, k);
      var links := MitigationLinks(index, mits, init, k);
      var added := if MitigatesTechnique(rel, index, mits, k) then [LinkOf(rel, mits.values[rel.source])] else [];
      assert MitigationLinks(index, mits, rels, k) == links + added;
      LinkedTwice(t, links, ParentAfter(index, init, k, t.parentTechnique), added,
                  if ParentOfTechnique(rel, index, k) then Some(index[rel.target]) else before.values[k].parentTechnique);
    }
  }

  /** One relationship changes technique `k` only as `Linked` says. */
  lemma LinkStepTechnique(d: Dict<Technique>, index: map<string, string>, mits: Dict<Mitigation>, rel: Relationship, k: string)
    requires d.Valid() && IndexInto(index, d) && k in d.values
    ensures LinkStep(d, index, mits, rel).values[k]
              == Linked(d.values[k],
                        if MitigatesTechnique(rel, index, mits, k) then [LinkOf(rel, mits.values[rel.source])] else [],
                        if ParentOfTechnique(rel, index, k) then Some(index[rel.target]) else d.values[k].parentTechnique)
  {
    var t := d.values[k];
    assert t.mitigations + [] == t.mitigations;
  }

  lemma LinkedTwice(t: Technique, a: seq<MitigationLink>, p: Option<string>, b: seq<MitigationLink>, q: Option<string>)
    ensures Linked(Linked(t, a, p), b, q) == Linked(t, a + b, q)
  {
    assert t.mitigations + a + b == t.mitigations + (a + b);
  }

  /** A link is added for a relationship exactly when both of its ends are
      known and it mitigates the technique. */
  lemma {:induction false} MitigationLinksMembers(index: map<string, string>, mits: Dict<Mitigation>, rels: seq<Relationship>, k: string, l: MitigationLink)
    ensures l in MitigationLinks(index, mits, rels, k) <==>
              exists i | 0 <= i < |rels| :: MitigatesTechnique(rels[i], index, mits, k) && l == LinkOf(rels[i], mits.values[rels[i].source])
    decreases |rels|
  {
    if rels != [] {
      var init := rels[..|rels| - 1];
      MitigationLinksMembers(index, mits, init, k, l);
      assert forall i | 0 <= i < |init| :: init[i] == rels[i];
    }
  }

  /** The parent is left alone unless a `subtechnique-of` relationship with
      both ends known names the technique, and then it is the target of one
      of them. */
  lemma {:induction false} ParentAfterSource(index: map<string, string>, rels: seq<Relationship>, k: string, p: Option<string>)
    ensures (forall i | 0 <= i < |rels| :: !ParentOfTechnique(rels[i], index, k)) ==> ParentAfter(index, rels, k, p) == p
    ensures (exists i | 0 <= i < |rels| :: ParentOfTechnique(rels[i], index, k)) ==>
              exists i | 0 <= i < |rels| :: ParentOfTechnique(rels[i], index, k) && ParentAfter(index, rels, k, p) == Some(index[rels[i].target])
    decreases |rels|
  {
    if rels != [] {
      var init := rels[..|rels| - 1];
      ParentAfterSource(index, init, k, p);
      assert forall i | 0 <= i < |init| :: init[i] == rels[i];
    }
  }

  /** The table after `del tech['stixId']` for every technique. */
  function StripStixIds(d: Dict<Technique>): (r: Dict<Technique>)
    requires d.Valid()
    ensures r.Valid() && r.keys == d.keys
    ensures forall k | k in r.values :: r.values[k].stixId == None && r.values[k] == d.values[k].(stixId := None)
  {
    Dict(d.keys, map k | k in d.values :: d.values[k].(stixId := None))
  }

  /** After `resolve_relationships` every technique keeps its key and its
      fields, has no `stixId`, carries the links of the relationships that
      mitigate it, and has the parent the `subtechnique-of` relationships
      give it. */
  lemma ResolvedTechnique(d: Dict<Technique>, mits: Dict<Mitigation>, rels: seq<Relationship>, k: string)
    requires d.Valid() && HasStixIds(d) && k in d.values
    ensures StripStixIds(LinkAll(d, StixIndex(d), mits, rels)).keys == d.keys
    ensures StripStixIds(LinkAll(d, StixIndex(d), mits, rels)).values[k]
              == Linked(d.values[k], MitigationLinks(StixIndex(d), mits, rels, k),
                        ParentAfter(StixIndex(d), rels, k, d.values[k].parentTechnique)).(stixId := None)
  {
    LinkAllTechnique(d, StixIndex(d), mits, rels, k);
  }

  /** The final loop of `resolve_relationships`. */
  method RemoveStixIds(d: Dict<Technique>) returns (r: Dict<Technique>)
    requires d.Valid()
    ensures r == StripStixIds(d)
  {
    r := d;
    for i := 0 to |d.keys|
      invariant r.Valid() && r.keys == d.keys
      invariant forall k | k in d.values :: r.values[k] == if k in d.keys[..i] then d.values[k].(stixId := None) else d.values[k]
    {
      var k := d.keys[i];
      assert forall j | 0 <= j < i :: d.keys[j] != k;
      r := r.Put(k, r.values[k].(stixId := None));
    }
    assert d.keys[..|d.keys|] == d.keys;
  }
}

/** The per-record logic of `extract_capec` and `extract_cwe`
    (scripts/extract-data.py): one parsed `Attack_Pattern` or `Weakness`
    element becomes one JSON record. XML parsing itself is not modelled: a
    record arrives with its attributes (missing ones as `''`, as
    `element.get(name, '')` gives them) and its child elements. */
module CapecRecords {
  import opened Wrappers
  import opened Seqs
  import opened MixedText

  /** A `Related_Attack_Pattern` or `Related_Weakness` element: its `Nature`
      attribute, which may be absent, and the id it points to. */
  datatype Relation = Relation(nature: Option<string>, targetId: string)

  /** A `Taxonomy_Mapping` element: its `Taxonomy_Name` attribute and its
      `Entry_ID` child, either of which may be absent. */
  datatype TaxonomyMapping = TaxonomyMapping(taxonomyName: Option<string>, entryId: Option<Element>)

  /** An `Attack_Pattern` element. `weaknessIds` are the `CWE_ID` attributes of
      its `Related_Weakness` children; a missing container element and an
      empty one give the same empty list. */
  datatype PatternRecord = PatternRecord(
    id: string, name: string, abstraction: string, status: string,
    description: Option<Element>, severity: Option<Element>, likelihood: Option<Element>,
    weaknessIds: seq<string>, mappings: seq<TaxonomyMapping>, related: seq<Relation>)

  /** A CWE `Weakness` element; `capecIds` are its `Related_Attack_Pattern`
      `CAPEC_ID` attributes. */
  datatype WeaknessRecord = WeaknessRecord(
    id: string, name: string, abstraction: string, status: string,
    description: Option<Element>, capecIds: seq<string>, related: seq<Relation>)

  /** A `Category` element; `memberIds` are its `Has_Member` `CAPEC_ID`
      attributes (CWE categories keep none). */
  datatype CategoryRecord = CategoryRecord(id: string, name: string, memberIds: seq<string>)

  /** The JSON records `extract-data.py` writes. Patterns and weaknesses share
      the `parent` and `children` keys that the linking pass works on. */
  datatype Entry =
    | AttackPattern(id: string, name: string, description: string, abstraction: string, status: string,
                    severity: string, likelihood: string, cwes: seq<string>, techniques: seq<string>,
                    parent: Option<string>, children: seq<string>)
    | Weakness(id: string, name: string, description: string, abstraction: string, status: string,
               capecs: seq<string>, parent: Option<string>, children: seq<string>)

  datatype Category =
    | CapecCategory(id: string, name: string, members: seq<string>)
    | CweCategory(id: string, name: string)

  const DescriptionLimit: nat := 500

  /** `get_text(element)` with the default `''`, as a value. */
  function TextOr(element: Option<Element>, default: string): string
  {
    if element.None? then default else Text(element.value)
  }

  /** `get_text(el) or 'Unknown'`. */
  function OrUnknown(s: string): (r: string)
    ensures r != ""
    ensures s != "" ==> r == s
  {
    if s == "" then "Unknown" else s
  }

  /** The list built from related ids: each non-empty id with the prefix,
      empty ones dropped, order kept. */
  function PrefixedIds(prefix: string, ids: seq<string>): (r: seq<string>)
    ensures |r| <= |ids|
  {
    if ids == [] then []
    else PrefixedIds(prefix, ids[..|ids| - 1])
           + (if ids[|ids| - 1] != "" then [prefix + ids[|ids| - 1]] else [])
  }

  lemma {:induction false} PrefixedIdsMembers(prefix: string, ids: seq<string>, x: string)
    ensures x in PrefixedIds(prefix, ids) <==> exists id | id in ids :: id != "" && x == prefix + id
    decreases |ids|
  {
    if ids != [] {
      PrefixedIdsMembers(prefix, ids[..|ids| - 1], x);
      assert ids == ids[..|ids| - 1] + [ids[|ids| - 1]];
    }
  }

  /** An ATT&CK entry id with a leading `T` added when it lacks one
      (`1574.010` becomes `T1574.010`). */
  function NormalizeTechniqueId(t: string): (r: string)
    requires t != ""
    ensures r != "" && r[0] == 'T'
    ensures t[0] == 'T' ==> r == t
    ensures t[0] != 'T' ==> r == "T" + t
  {
    if t[0] != 'T' then "T" + t else t
  }

  /** The technique id one taxonomy mapping contributes, if any: only
      `ATTACK` mappings with an `Entry_ID` whose text is not empty. */
  function MappedTechnique(m: TaxonomyMapping): Option<string>
  {
    if m.taxonomyName == Some("ATTACK") && m.entryId.Some? && Text(m.entryId.value) != ""
    then Some(NormalizeTechniqueId(Text(m.entryId.value)))
    else None
  }

  /** The techniques of a pattern, in mapping order. */
  function Techniques(mappings: seq<TaxonomyMapping>): (r: seq<string>)
    ensures |r| <= |mappings|
    ensures forall i | 0 <= i < |r| :: r[i] != "" && r[i][0] == 'T'
  {
    if mappings == [] then []
    else
      var m := mappings[|mappings| - 1];
      Techniques(mappings[..|mappings| - 1]) + (if MappedTechnique(m).Some? then [MappedTechnique(m).value] else [])
  }

  /** The parent named by the first `ChildOf` relation, if that relation
      carries an id; later relations are never looked at. */
  function ParentOf(prefix: string, related: seq<Relation>): (r: Option<string>)
    ensures r.Some? ==> exists i | 0 <= i < |related| ::
              related[i].nature == Some("ChildOf") && related[i].targetId != "" && r.value == prefix + related[i].targetId
  {
    if related == [] then None
    else if related[0].nature == Some("ChildOf") then
      (if related[0].targetId != "" then Some(prefix + related[0].targetId) else None)
    else
      var r := ParentOf(prefix, related[1..]);
      assert r.Some? ==> exists i | 1 <= i < |related| ::
        related[i].nature == Some("ChildOf") && related[i].targetId != "" && r.value == prefix + related[i].targetId by {
        if r.Some? {
          var i :| 0 <= i < |related[1..]| && related[1..][i].nature == Some("ChildOf")
            && related[1..][i].targetId != "" && r.value == prefix + related[1..][i].targetId;
          assert related[i + 1] == related[1..][i];
        }
      }
      r
  }

  /** Only the first `ChildOf` relation counts: when it carries no id the
      pattern has no parent even if a later `ChildOf` relation does. */
  lemma FirstChildOfDecides(prefix: string, before: seq<Relation>, first: Relation, after: seq<Relation>)
    requires forall i | 0 <= i < |before| :: before[i].nature != Some("ChildOf")
    requires first.nature == Some("ChildOf")
    ensures ParentOf(prefix, before + [first] + after)
         == (if first.targetId != "" then Some(prefix + first.targetId) else None)
    decreases |before|
  {
    if before != [] {
      assert (before + [first] + after)[1..] == before[1..] + [first] + after;
      FirstChildOfDecides(prefix, before[1..], first, after);
    } else {
      assert before + [first] + after == [first] + after;
    }
  }

  /** The record `extract_capec` stores for a pattern (its `children` start
      empty). */
  function PatternOf(rec: PatternRecord): (e: Entry)
    ensures e.AttackPattern? && e.id == "CAPEC-" + rec.id && e.children == []
    ensures |e.description| <= DescriptionLimit
    ensures e.severity != "" && e.likelihood != ""
  {
    AttackPattern("CAPEC-" + rec.id, rec.name, Take(TextOr(rec.description, ""), DescriptionLimit),
                  rec.abstraction, rec.status,
                  OrUnknown(TextOr(rec.severity, "")), OrUnknown(TextOr(rec.likelihood, "")),
                  PrefixedIds("CWE-", rec.weaknessIds), Techniques(rec.mappings),
                  ParentOf("CAPEC-", rec.related), [])
  }

  /** The record `extract_cwe` stores for a weakness. */
  function WeaknessOf(rec: WeaknessRecord): (e: Entry)
    ensures e.Weakness? && e.id == "CWE-" + rec.id && e.children == []
    ensures |e.description| <= DescriptionLimit
  {
    Weakness("CWE-" + rec.id, rec.name, Take(TextOr(rec.description, ""), DescriptionLimit),
             rec.abstraction, rec.status,
             PrefixedIds("CAPEC-", rec.capecIds), ParentOf("CWE-", rec.related), [])
  }

  /** The related ids loop: each non-empty id, prefixed, in order. */
  method CollectPrefixed(prefix: string, ids: seq<string>) returns (r: seq<string>)
    ensures r == PrefixedIds(prefix, ids)
  {
    r := [];
    for i := 0 to |ids|
      invariant r == PrefixedIds(prefix, ids[..i])
    {
      assert ids[..i + 1][..i] == ids[..i];
      if ids[i] != "" {
        r := r + [prefix + ids[i]];
      }
    }
    assert ids[..|ids|] == ids;
  }

  /** The taxonomy mappings loop. */
  method CollectTechniques(mappings: seq<TaxonomyMapping>) returns (r: seq<string>)
    ensures r == Techniques(mappings)
  {
    r := [];
    for i := 0 to |mappings|
      invariant r == Techniques(mappings[..i])
    {
      assert mappings[..i + 1][..i] == mappings[..i];
      var tm := mappings[i];
      if tm.taxonomyName == Some("ATTACK") {
        if tm.entryId.Some? {
          var techId := GetText(tm.entryId, "");
          if techId != "" && techId[0] != 'T' {
            techId := "T" + techId;
          }
          if techId != "" {
            r := r + [techId];
          }
        }
      }
    }
    assert mappings[..|mappings|] == mappings;
  }

  /** The relation loop with its `break` at the first `ChildOf`. */
  method FindParent(prefix: string, related: seq<Relation>) returns (parent: Option<string>)
    ensures parent == ParentOf(prefix, related)
  {
    parent := None;
    var i := 0;
    while i < |related|
      invariant 0 <= i <= |related|
      invariant ParentOf(prefix, related) == ParentOf(prefix, related[i..])
      invariant parent == None
    {
      assert related[i..][1..] == related[i + 1..];
      if related[i].nature == Some("ChildOf") {
        var parentId := related[i].targetId;
        if parentId != "" {
          parent := Some(prefix + parentId);
        }
        break;
      }
      i := i + 1;
    }
  }

  /** The body of the pattern loop of `extract_capec` for a record with an
      id. */
  method BuildPattern(rec: PatternRecord) returns (e: Entry)
    ensures e == PatternOf(rec)
  {
    var description := GetText(rec.description, "");
    description := Take(description, DescriptionLimit);
    var severity := GetText(rec.severity, "");
    var likelihood := GetText(rec.likelihood, "");
    var cwes := CollectPrefixed("CWE-", rec.weaknessIds);
    var techniques := CollectTechniques(rec.mappings);
    var parent := FindParent("CAPEC-", rec.related);
    e := AttackPattern("CAPEC-" + rec.id, rec.name, description, rec.abstraction, rec.status,
                       OrUnknown(severity), OrUnknown(likelihood), cwes, techniques, parent, []);
  }

  /** The body of the weakness loop of `extract_cwe` for a record with an id. */
  method BuildWeakness(rec: WeaknessRecord) returns (e: Entry)
    ensures e == WeaknessOf(rec)
  {
    var description := GetText(rec.description, "");
    description := Take(description, DescriptionLimit);
    var capecs := CollectPrefixed("CAPEC-", rec.capecIds);
    var parent := FindParent("CWE-", rec.related);
    e := Weakness("CWE-" + rec.id, rec.name, description, rec.abstraction, rec.status, capecs, parent, []);
  }
}

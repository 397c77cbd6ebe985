/** The per-object helpers of scripts/extract-attack.py over parsed STIX
    objects: `extract_external_id`, `extract_mitigation_id`,
    `extract_references` and `extract_tactics`. A field the object lacks is
    `None` (or an empty list), as `obj.get(key, default)` reads it. */
module AttackObjects {
  import opened Wrappers
  import opened Seqs

  const MitreAttack: string := "mitre-attack"

  /** One element of `external_references`. */
  datatype ExternalRef = ExternalRef(
    sourceName: Option<string>, externalId: Option<string>,
    url: Option<string>, description: Option<string>)

  /** One element of `kill_chain_phases`. */
  datatype KillChainPhase = KillChainPhase(killChainName: string, phaseName: string)

  /** The fields of a STIX object the extraction reads. The two flags are
      the truthiness of `x_mitre_deprecated` and `revoked`. */
  datatype StixObject = StixObject(
    objType: Option<string>, id: string, name: Option<string>, description: Option<string>,
    deprecated: bool, revoked: bool,
    externalReferences: seq<ExternalRef>, killChainPhases: seq<KillChainPhase>,
    domains: seq<string>, platforms: seq<string>, isSubtechnique: bool,
    detection: Option<string>, version: Option<string>,
    relationshipType: Option<string>, sourceRef: string, targetRef: string)

  /** An element of a technique's `references`. */
  datatype Reference = Reference(name: string, url: string, description: string)

  predicate IsMitre(r: ExternalRef) {
    r.sourceName == Some(MitreAttack)
  }

  // ---------------------------------------------------------------------
  // extract_external_id

  /** The `external_id` of the first `mitre-attack` reference. */
  function ExternalId(refs: seq<ExternalRef>): (id: Option<string>)
  {
    if refs == [] then None
    else if IsMitre(refs[0]) then refs[0].externalId
    else ExternalId(refs[1..])
  }

  /** Only the first `mitre-attack` reference counts, whether or not it
      carries an id; without one the result is `None`. */
  lemma {:induction false} ExternalIdFirst(refs: seq<ExternalRef>)
    ensures (forall i | 0 <= i < |refs| :: !IsMitre(refs[i])) ==> ExternalId(refs) == None
    ensures forall i | 0 <= i < |refs| && IsMitre(refs[i]) && (forall j | 0 <= j < i :: !IsMitre(refs[j])) ::
              ExternalId(refs) == refs[i].externalId
    decreases |refs|
  {
    if refs != [] {
      ExternalIdFirst(refs[1..]);
      forall i | 0 < i < |refs| && IsMitre(refs[i]) && (forall j | 0 <= j < i :: !IsMitre(refs[j]))
        ensures ExternalId(refs) == refs[i].externalId
      {
        assert refs[1..][i - 1] == refs[i];
        assert forall j | 0 <= j < i - 1 :: refs[1..][j] == refs[j + 1];
      }
      assert forall i | 0 <= i < |refs| - 1 :: refs[1..][i] == refs[i + 1];
    }
  }

  method ExtractExternalId(obj: StixObject) returns (id: Option<string>)
    ensures id == ExternalId(obj.externalReferences)
  {
    var refs := obj.externalReferences;
    for i := 0 to |refs|
      invariant ExternalId(refs[i..]) == ExternalId(refs)
    {
      if refs[i].sourceName == Some(MitreAttack) {
        return refs[i].externalId;
      }
      assert refs[i..][1..] == refs[i + 1..];
    }
    return None;
  }

  // ---------------------------------------------------------------------
  // extract_mitigation_id

  /** `ref.get('external_id', '')`. */
  function IdOrEmpty(r: ExternalRef): string {
    r.externalId.GetOr("")
  }

  /** A `mitre-attack` reference whose id starts with `M`. */
  predicate IsMitigationRef(r: ExternalRef) {
    IsMitre(r) && |IdOrEmpty(r)| > 0 && IdOrEmpty(r)[0] == 'M'
  }

  /** The first mitigation id among the references. */
  function MitigationId(refs: seq<ExternalRef>): (id: Option<string>)
  {
    if refs == [] then None
    else if IsMitigationRef(refs[0]) then Some(IdOrEmpty(refs[0]))
    else MitigationId(refs[1..])
  }

  /** `mitre-attack` references whose id does not start with `M` are passed
      over: the result is the id of the first one that does, an `M` id, and
      there is one exactly when some reference qualifies. */
  lemma {:induction false} MitigationIdFirst(refs: seq<ExternalRef>)
    ensures MitigationId(refs).Some? <==> exists i | 0 <= i < |refs| :: IsMitigationRef(refs[i])
    ensures MitigationId(refs).Some? ==> MitigationId(refs).value != "" && MitigationId(refs).value[0] == 'M'
    ensures forall i | 0 <= i < |refs| && IsMitigationRef(refs[i]) && (forall j | 0 <= j < i :: !IsMitigationRef(refs[j])) ::
              MitigationId(refs) == Some(IdOrEmpty(refs[i]))
    decreases |refs|
  {
    if refs != [] {
      MitigationIdFirst(refs[1..]);
      forall i | 0 < i < |refs| && IsMitigationRef(refs[i]) && (forall j | 0 <= j < i :: !IsMitigationRef(refs[j]))
        ensures MitigationId(refs) == Some(IdOrEmpty(refs[i]))
      {
        assert refs[1..][i - 1] == refs[i];
        assert forall j | 0 <= j < i - 1 :: refs[1..][j] == refs[j + 1];
      }
      assert forall i | 0 <= i < |refs| - 1 :: refs[1..][i] == refs[i + 1];
      if exists i | 0 <= i < |refs| :: IsMitigationRef(refs[i]) {
        var i :| 0 <= i < |refs| && IsMitigationRef(refs[i]);
        if i > 0 {
          assert IsMitigationRef(refs[1..][i - 1]);
        }
      }
    }
  }

  method ExtractMitigationId(obj: StixObject) returns (id: Option<string>)
    ensures id == MitigationId(obj.externalReferences)
  {
    var refs := obj.externalReferences;
    for i := 0 to |refs|
      invariant MitigationId(refs[i..]) == MitigationId(refs)
    {
      if refs[i].sourceName == Some(MitreAttack) {
        var extId := refs[i].externalId.GetOr("");
        if |extId| > 0 && extId[0] == 'M' {
          return Some(extId);
        }
      }
      assert refs[i..][1..] == refs[i + 1..];
    }
    return None;
  }

  // ---------------------------------------------------------------------
  // extract_references

  const ReferenceLimit: nat := 5
  const RefDescriptionLimit: nat := 200

  /** `if ref.get('url')`: a non-empty url. */
  predicate HasUrl(r: ExternalRef) {
    r.url.Some? && r.url.value != ""
  }

  /** The entry kept for a reference with a url. */
  function ReferenceOf(r: ExternalRef): (x: Reference)
    requires HasUrl(r)
    ensures x.url == r.url.value && x.url != ""
    ensures |x.description| <= RefDescriptionLimit
  {
    Reference(r.sourceName.GetOr("Reference"), r.url.value,
              if r.description.Some? && r.description.value != "" then Take(r.description.value, RefDescriptionLimit) else "")
  }

  /** The entries for the references with a url, in order. */
  function WithUrls(refs: seq<ExternalRef>): seq<Reference>
  {
    if refs == [] then []
    else
      var r := refs[|refs| - 1];
      WithUrls(refs[..|refs| - 1]) + (if HasUrl(r) then [ReferenceOf(r)] else [])
  }

  /** `extract_references(obj, limit)`: only the first `limit` references are
      looked at. */
  function References(refs: seq<ExternalRef>, limit: nat): seq<Reference>
  {
    WithUrls(Take(refs, limit))
  }

  lemma {:induction false} WithUrlsSpec(refs: seq<ExternalRef>)
    ensures |WithUrls(refs)| <= |refs|
    ensures (forall i | 0 <= i < |refs| :: HasUrl(refs[i])) ==> |WithUrls(refs)| == |refs|
    ensures forall x :: x in WithUrls(refs) <==> exists i | 0 <= i < |refs| && HasUrl(refs[i]) :: x == ReferenceOf(refs[i])
    decreases |refs|
  {
    if refs != [] {
      var init := refs[..|refs| - 1];
      WithUrlsSpec(init);
      assert forall i | 0 <= i < |init| :: init[i] == refs[i];
    }
  }

  /** At most `limit` entries, each the entry of one of the first `limit`
      references that has a url, each with a description of at most 200
      characters; when all of those references have a url, one entry each. */
  lemma ReferencesSpec(refs: seq<ExternalRef>, limit: nat)
    ensures |References(refs, limit)| <= limit
    ensures forall x | x in References(refs, limit) :: x.url != "" && |x.description| <= RefDescriptionLimit
    ensures forall x :: x in References(refs, limit) <==>
              exists i | 0 <= i < |refs| && i < limit && HasUrl(refs[i]) :: x == ReferenceOf(refs[i])
    ensures (forall i | 0 <= i < |refs| && i < limit :: HasUrl(refs[i])) ==>
              |References(refs, limit)| == if |refs| < limit then |refs| else limit
  {
    var taken := Take(refs, limit);
    WithUrlsSpec(taken);
    assert forall i | 0 <= i < |taken| :: taken[i] == refs[i];
  }

  method ExtractReferences(obj: StixObject, limit: nat) returns (refs: seq<Reference>)
    ensures refs == References(obj.externalReferences, limit)
  {
    var all := Take(obj.externalReferences, limit);
    refs := [];
    for i := 0 to |all|
      invariant refs == WithUrls(all[..i])
    {
      assert all[..i + 1][..i] == all[..i];
      var r := all[i];
      if r.url.Some? && r.url.value != "" {
        var description := if r.description.Some? && r.description.value != "" then Take(r.description.value, RefDescriptionLimit) else "";
        refs := refs + [Reference(r.sourceName.GetOr("Reference"), r.url.value, description)];
      } else {
        assert refs + [] == refs;
      }
    }
    assert all[..|all|] == all;
  }

  // ---------------------------------------------------------------------
  // extract_tactics

  /** The `phase_name`s of the `mitre-attack` phases, in order. */
  function Tactics(phases: seq<KillChainPhase>): (ts: seq<string>)
    ensures |ts| <= |phases|
  {
    if phases == [] then []
    else
      var p := phases[|phases| - 1];
      Tactics(phases[..|phases| - 1]) + (if p.killChainName == MitreAttack then [p.phaseName] else [])
  }

  /** A name is listed exactly when some `mitre-attack` phase carries it. */
  lemma {:induction false} TacticsMembers(phases: seq<KillChainPhase>, name: string)
    ensures name in Tactics(phases) <==> exists p | p in phases :: p.killChainName == MitreAttack && p.phaseName == name
    decreases |phases|
  {
    if phases != [] {
      var init := phases[..|phases| - 1];
      TacticsMembers(init, name);
      assert phases == init + [phases[|phases| - 1]];
    }
  }

  /** The order of the phases is kept. */
  lemma {:induction false} TacticsAppend(a: seq<KillChainPhase>, b: seq<KillChainPhase>)
    ensures Tactics(a + b) == Tactics(a) + Tactics(b)
    decreases |b|
  {
    if b == [] {
      assert a + b == a;
    } else {
      assert (a + b)[..|a + b| - 1] == a + b[..|b| - 1];
      TacticsAppend(a, b[..|b| - 1]);
    }
  }

  method ExtractTactics(obj: StixObject) returns (tactics: seq<string>)
    ensures tactics == Tactics(obj.killChainPhases)
  {
    var phases := obj.killChainPhases;
    tactics := [];
    for i := 0 to |phases|
      invariant tactics == Tactics(phases[..i])
    {
      assert phases[..i + 1][..i] == phases[..i];
      if phases[i].killChainName == MitreAttack {
        tactics := tactics + [phases[i].phaseName];
      } else {
        assert tactics + [] == tactics;
      }
    }
    assert phases[..|phases|] == phases;
  }
}

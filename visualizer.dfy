/** The `KillChainVisualizer` object without its DOM: the taxonomy and the
    index are set in the constructor, and `setTechniques` stores the input and
    the mapping computed from it. */
module Visualizer {
  import opened Wrappers
  import opened Seqs
  import opened OrderedDict
  import opened TechniqueIds
  import opened Taxonomy
  import opened PatternIndex
  import opened DomainDetector
  import opened Classifier
  import opened PhaseStats
  import opened NavigatorLayer

  /** `IndexOf(a + [x])` is one more step of the loop. */
  lemma IndexOfAppend(a: seq<Slot>, x: Slot)
    ensures IndexOf(a + [x]) == IndexAdd(IndexOf(a), x)
  {
    assert (a + [x])[..|a|] == a;
  }

  lemma DeclaredKeysStep(structure: seq<SuperPhase>, i: nat)
    requires i < |structure|
    ensures DeclaredKeys(structure[..i + 1]) == DeclaredKeys(structure[..i]) + SuperPhaseKeys(structure[i])
  {
    assert structure[..i + 1][..i] == structure[..i];
  }

  /** A slot that matches while no earlier slot does is the first match. */
  lemma FirstPatternAt(slots: seq<Slot>, id: string, n: nat)
    requires n < |slots| && PatternMatches(id, slots[n].pattern)
    requires forall j | 0 <= j < n :: !PatternMatches(id, slots[j].pattern)
    ensures FirstPatternSlot(slots, id) == n
  {
  }

  /** `mapped` with `entry` pushed to the list of `key` once per occurrence of
      `key` in `keys`. */
  ghost predicate PushedAll(before: Mapped, after: Mapped, keys: seq<PhaseKey>, entry: TechniqueEntry) {
    after.Keys == before.Keys
    && forall k | k in after :: after[k] == before[k] + Repeat(entry, Count(keys, k))
  }

  lemma {:induction false} PhasesPatternPhaseExtends(sp: SuperPhaseId, phases: seq<Phase>, k: nat, id: string)
    requires k <= |phases| && PatternPhase(PhasesSlots(sp, phases[..k]), id).Some?
    ensures PatternPhase(PhasesSlots(sp, phases), id) == PatternPhase(PhasesSlots(sp, phases[..k]), id)
    decreases |phases|
  {
    if k < |phases| {
      var n := |phases| - 1;
      assert phases[..n][..k] == phases[..k];
      PhasesPatternPhaseExtends(sp, phases[..n], k, id);
      PatternPhaseConcat(PhasesSlots(sp, phases[..n]), PhaseSlots(sp, phases[n]), id);
    } else {
      assert phases[..k] == phases;
    }
  }

  lemma {:induction false} StructurePatternPhaseExtends(structure: seq<SuperPhase>, i: nat, id: string)
    requires i <= |structure| && PatternPhase(StructureSlots(structure[..i]), id).Some?
    ensures PatternPhase(StructureSlots(structure), id) == PatternPhase(StructureSlots(structure[..i]), id)
    decreases |structure|
  {
    if i < |structure| {
      var n := |structure| - 1;
      var sp := structure[n];
      assert structure[..n][..i] == structure[..i];
      StructurePatternPhaseExtends(structure[..n], i, id);
      PatternPhaseConcat(StructureSlots(structure[..n]), PhasesSlots(sp.id, sp.phases), id);
    } else {
      assert structure[..i] == structure;
    }
  }

  lemma UnchangedWhenNothingPushed(before: Mapped, after: Mapped, entry: TechniqueEntry)
    requires PushedAll(before, after, RefKeys([]), entry)
    ensures after == before
  {
    assert RefKeys([]) == [];
    forall k | k in after
      ensures after[k] == before[k]
    {
      assert Repeat(entry, Count([], k)) == [];
    }
  }

  lemma PushedOne(before: Mapped, key: PhaseKey, entry: TechniqueEntry)
    requires key in before
    ensures PushedAll(before, before[key := before[key] + [entry]], [key], entry)
  {
    var after := before[key := before[key] + [entry]];
    forall k | k in after
      ensures after[k] == before[k] + Repeat(entry, Count([key], k))
    {
      assert [key][..0] == [];
      if k == key {
        assert Repeat(entry, 1) == [entry];
      } else {
        assert Repeat(entry, 0) == [];
      }
    }
  }

  lemma ResultIsMapping(mapped: Mapped, index: Index, slots: seq<Slot>, techniques: Dict<string>)
    requires techniques.Valid() && AllWellFormed(techniques.keys)
    requires mapped.Keys == DeclaredSet()
    requires forall k | k in mapped :: mapped[k] == Expected(index, slots, techniques.keys, techniques.values, k)
    ensures IsMappingOf(mapped, index, slots, techniques.keys, techniques.values)
  {
    assert forall i | 0 <= i < |techniques.keys| :: techniques.keys[i] in techniques.values;
  }

  /** One more technique processed: the lists go from `Expected` of the
      first `t` ids to `Expected` of the first `t + 1`. */
  lemma ExpectedStep(index: Index, slots: seq<Slot>, ids: seq<string>, names: map<string, string>, t: nat,
                     before: Mapped, after: Mapped)
    requires AllWellFormed(ids) && forall i | 0 <= i < |ids| :: ids[i] in names
    requires t < |ids|
    requires forall k | k in before :: before[k] == Expected(index, slots, ids[..t], names, k)
    requires PushedAll(before, after, Targets(index, slots, ids[t]), TechniqueEntry(ids[t], names[ids[t]]))
    ensures after.Keys == before.Keys
    ensures forall k | k in after :: after[k] == Expected(index, slots, ids[..t + 1], names, k)
  {
    var p := ids[..t + 1];
    assert p[..t] == ids[..t];
    assert p[t] == ids[t];
  }

  /** In a completed mapping a technique is in the list of the first phase
      it is pushed to. */
  lemma TechniqueMapped(mapped: Mapped, index: Index, slots: seq<Slot>, ids: seq<string>, names: map<string, string>, t: nat)
    requires Consistent(index, slots) && AllWellFormed(ids) && forall i | 0 <= i < |ids| :: ids[i] in names
    requires t < |ids|
    requires mapped.Keys == DeclaredSet()
    requires forall k | k in mapped :: mapped[k] == Expected(index, slots, ids, names, k)
    ensures |Targets(index, slots, ids[t])| >= 1
    ensures Targets(index, slots, ids[t])[0] in mapped
    ensures TechniqueEntry(ids[t], names[ids[t]]) in mapped[Targets(index, slots, ids[t])[0]]
  {
    TargetsTotal(index, slots, ids[t]);
    var k := Targets(index, slots, ids[t])[0];
    CountPositive(Targets(index, slots, ids[t]), k);
    ExpectedContains(index, slots, ids, names, k, t);
    assert k in DeclaredSet();
  }

  lemma RepeatStep(e: TechniqueEntry, n: nat)
    ensures Repeat(e, n + 1) == Repeat(e, n) + [e]
  {
  }

  /** The loop of `renderStats` over every phase list. */
  method CountPhaseLists(m: Mapped, keys: seq<PhaseKey>)
    returns (inCount: nat, throughCount: nat, outCount: nat, phaseCount: nat)
    requires Covers(m, keys)
    ensures inCount == SuperPhaseCount(m, keys, IN)
    ensures throughCount == SuperPhaseCount(m, keys, THROUGH)
    ensures outCount == SuperPhaseCount(m, keys, OUT)
    ensures phaseCount == ActivePhases(m, keys)
  {
    inCount, throughCount, outCount, phaseCount := 0, 0, 0, 0;
    for i := 0 to |keys|
      invariant Covers(m, keys[..i])
      invariant inCount == SuperPhaseCount(m, keys[..i], IN)
      invariant throughCount == SuperPhaseCount(m, keys[..i], THROUGH)
      invariant outCount == SuperPhaseCount(m, keys[..i], OUT)
      invariant phaseCount == ActivePhases(m, keys[..i])
    {
      var key := keys[i];
      var list := m[key];
      assert keys[..i + 1][..i] == keys[..i];
      if |list| > 0 {
        phaseCount := phaseCount + 1;
      }
      match key.superPhase
      case IN => inCount := inCount + |list|;
      case THROUGH => throughCount := throughCount + |list|;
      case OUT => outCount := outCount + |list|;
    }
    assert keys[..|keys|] == keys;
  }

  class KillChainVisualizer {
    const killChainStructure: seq<SuperPhase>
    /** pattern -> phases declaring it */
    var techniqueToPhase: Index
    /** the techniques last given to `setTechniques` */
    var techniques: Dict<string>
    /** the mapping computed from them; undefined before the first call */
    var mappedTechniques: Option<Mapped>

    ghost predicate Valid()
      reads this
    {
      killChainStructure == KillChainStructure
      && techniqueToPhase == IndexOf(StructureSlots(killChainStructure))
      && (mappedTechniques.Some? ==>
            IsMappingOf(mappedTechniques.value, techniqueToPhase, StructureSlots(killChainStructure),
                        techniques.keys, techniques.values))
    }

    constructor()
      ensures Valid()
      ensures techniques == Empty<string>() && mappedTechniques == None
    {
      killChainStructure := KillChainStructure;
      techniqueToPhase := map[];
      techniques := Empty<string>();
      mappedTechniques := None;
      new;
      BuildTechniquePhaseMapping();
    }

    /** Rebuild `techniqueToPhase` from the taxonomy, pattern by pattern:
        the outer loop over the super-phases. */
    method BuildTechniquePhaseMapping()
      modifies this
      ensures techniqueToPhase == IndexOf(StructureSlots(killChainStructure))
      ensures techniques == old(techniques) && mappedTechniques == old(mappedTechniques)
    {
      techniqueToPhase := map[];
      var structure := killChainStructure;
      for i := 0 to |structure|
        invariant techniqueToPhase == IndexExtend(map[], StructureSlots(structure[..i]))
        invariant techniques == old(techniques) && mappedTechniques == old(mappedTechniques)
      {
        var sp := structure[i];
        AddSuperPhase(sp);
        StructureSlotsStep(structure, i);
        IndexExtendConcat(map[], StructureSlots(structure[..i]), PhasesSlots(sp.id, sp.phases));
      }
      assert structure[..|structure|] == structure;
      IndexOfIsExtend(StructureSlots(structure));
    }

    /** The middle loop: the phases of one super-phase. */
    method AddSuperPhase(sp: SuperPhase)
      modifies this
      ensures techniqueToPhase == IndexExtend(old(techniqueToPhase), PhasesSlots(sp.id, sp.phases))
      ensures techniques == old(techniques) && mappedTechniques == old(mappedTechniques)
    {
      assert sp.phases[..0] == [];
      for k := 0 to |sp.phases|
        invariant techniqueToPhase == IndexExtend(old(techniqueToPhase), PhasesSlots(sp.id, sp.phases[..k]))
        invariant techniques == old(techniques) && mappedTechniques == old(mappedTechniques)
      {
        var phase := sp.phases[k];
        AddPhase(sp.id, phase);
        PhasesSlotsStep(sp.id, sp.phases, k);
        IndexExtendConcat(old(techniqueToPhase), PhasesSlots(sp.id, sp.phases[..k]), PhaseSlots(sp.id, phase));
      }
      assert sp.phases[..|sp.phases|] == sp.phases;
    }

    /** The inner loop: create the entry list of a new pattern, then push. */
    method AddPhase(superPhaseId: SuperPhaseId, phase: Phase)
      modifies this
      ensures techniqueToPhase == IndexExtend(old(techniqueToPhase), PhaseSlots(superPhaseId, phase))
      ensures techniques == old(techniques) && mappedTechniques == old(mappedTechniques)
    {
      ghost var slots := PhaseSlots(superPhaseId, phase);
      for j := 0 to |phase.patterns|
        invariant techniqueToPhase == IndexExtend(old(techniqueToPhase), slots[..j])
        invariant techniques == old(techniques) && mappedTechniques == old(mappedTechniques)
      {
        var pattern := PatternText(phase.patterns[j]);
        if pattern !in techniqueToPhase {
          techniqueToPhase := techniqueToPhase[pattern := []];
        }
        techniqueToPhase := techniqueToPhase[pattern := techniqueToPhase[pattern]
          + [PhaseRef(superPhaseId, phase.id, phase.name)]];
        assert slots[..j + 1][..j] == slots[..j];
      }
      assert slots[..|phase.patterns|] == slots;
    }
  
    /** Push `entry` to the list of every phase `refs` names, in order. */
    method PushEntries(mapped: Mapped, refs: seq<PhaseRef>, entry: TechniqueEntry)
      returns (result: Mapped, isAssigned: bool)
      requires forall r | r in refs :: r.Key() in mapped
      ensures PushedAll(mapped, result, RefKeys(refs), entry)
      ensures isAssigned <==> refs != []
    {
      result := mapped;
      isAssigned := false;
      for r := 0 to |refs|
        invariant PushedAll(mapped, result, RefKeys(refs[..r]), entry)
        invariant isAssigned <==> r > 0
      {
        var key := refs[r].Key();
        assert refs[r] in refs;
        result := result[key := result[key] + [entry]];
        assert RefKeys(refs[..r + 1]) == RefKeys(refs[..r]) + [key];
        forall k | k in result
          ensures result[k] == mapped[k] + Repeat(entry, Count(RefKeys(refs[..r + 1]), k))
        {
          assert (RefKeys(refs[..r]) + [key])[..r] == RefKeys(refs[..r]);
          RepeatStep(entry, Count(RefKeys(refs[..r]), k));
        }
        isAssigned := true;
      }
      assert refs[..|refs|] == refs;
    }

    /** Tier 3 within one phase: the first of its patterns that matches. */
    method MatchInPhase(techId: string, baseId: string, superPhaseId: SuperPhaseId, phase: Phase)
      returns (found: Option<PhaseRef>)
      requires baseId == BaseId(techId)
      ensures found == PatternPhase(PhaseSlots(superPhaseId, phase), techId)
    {
      ghost var slots := PhaseSlots(superPhaseId, phase);
      for j := 0 to |phase.patterns|
        invariant forall u | 0 <= u < j :: !PatternMatches(techId, slots[u].pattern)
      {
        var pattern := PatternText(phase.patterns[j]);
        if pattern <= techId || baseId == pattern {
          FirstPatternAt(slots, techId, j);
          return Some(PhaseRef(superPhaseId, phase.id, phase.name));
        }
      }
      return None;
    }

    /** Tier 3 within one super-phase: its phases in order. */
    method MatchInSuperPhase(techId: string, baseId: string, sp: SuperPhase)
      returns (found: Option<PhaseRef>)
      requires baseId == BaseId(techId)
      ensures found == PatternPhase(PhasesSlots(sp.id, sp.phases), techId)
    {
      assert sp.phases[..0] == [];
      for k := 0 to |sp.phases|
        invariant PatternPhase(PhasesSlots(sp.id, sp.phases[..k]), techId) == None
      {
        found := MatchInPhase(techId, baseId, sp.id, sp.phases[k]);
        PhasesSlotsStep(sp.id, sp.phases, k);
        PatternPhaseConcat(PhasesSlots(sp.id, sp.phases[..k]), PhaseSlots(sp.id, sp.phases[k]), techId);
        if found.Some? {
          PhasesPatternPhaseExtends(sp.id, sp.phases, k + 1, techId);
          return found;
        }
      }
      assert sp.phases[..|sp.phases|] == sp.phases;
      return None;
    }

    /** Tier 3: the super-phases in order; stops at the first match. */
    method FindPatternPhase(techId: string, baseId: string) returns (found: Option<PhaseRef>)
      requires baseId == BaseId(techId)
      ensures found == PatternPhase(StructureSlots(killChainStructure), techId)
    {
      var structure := killChainStructure;
      for i := 0 to |structure|
        invariant PatternPhase(StructureSlots(structure[..i]), techId) == None
      {
        var sp := structure[i];
        found := MatchInSuperPhase(techId, baseId, sp);
        StructureSlotsStep(structure, i);
        PatternPhaseConcat(StructureSlots(structure[..i]), PhasesSlots(sp.id, sp.phases), techId);
        if found.Some? {
          StructurePatternPhaseExtends(structure, i + 1, techId);
          return found;
        }
      }
      assert structure[..|structure|] == structure;
      return None;
    }

    /** Tiers 1 and 2: search the exact id, then the base id; the first key
        found is used and the search stops there. */
    method PushIndexed(mapped: Mapped, techId: string, baseId: string, entry: TechniqueEntry)
      returns (result: Mapped, isAssigned: bool)
      requires Valid() && baseId == BaseId(techId) && mapped.Keys == DeclaredSet()
      ensures PushedAll(mapped, result, RefKeys(LookupEntries(techniqueToPhase, techId)), entry)
      ensures isAssigned <==> LookupEntries(techniqueToPhase, techId) != []
    {
      ghost var index := techniqueToPhase;
      result := mapped;
      isAssigned := false;
      var searchIds := [techId, baseId];
      var s := 0;
      while s < |searchIds|
        invariant 0 <= s <= |searchIds|
        invariant forall u | 0 <= u < s :: searchIds[u] !in techniqueToPhase
        invariant result == mapped && !isAssigned
      {
        var searchId := searchIds[s];
        if searchId in techniqueToPhase {
          IndexDeclared(index, StructureSlots(killChainStructure), searchId);
          result, isAssigned := PushEntries(result, techniqueToPhase[searchId], entry);
          break;
        }
        s := s + 1;
      }
      if s == |searchIds| {
        assert searchIds[0] !in index && searchIds[1] !in index;
        assert LookupEntries(index, techId) == [];
        assert RefKeys([]) == [];
        assert Repeat(entry, 0) == [];
      } else if s == 0 {
        assert techId in index;
      } else {
        assert s == 1;
        assert searchIds[0] == techId;
        assert searchIds[0] !in index;
        assert baseId in index;
      }
    }

    /** The body of the loop over the techniques: tiers 1 to 4 for one technique. */
    method AssignTechnique(mapped: Mapped, techId: string, techName: string) returns (result: Mapped)
      requires Valid() && WellFormedId(techId) && mapped.Keys == DeclaredSet()
      ensures PushedAll(mapped, result, Targets(techniqueToPhase, StructureSlots(killChainStructure), techId),
                        TechniqueEntry(techId, techName))
    {
      ghost var slots := StructureSlots(killChainStructure);
      var entry := TechniqueEntry(techId, techName);
      var baseId := BaseId(techId);
      var isAssigned;
      result, isAssigned := PushIndexed(mapped, techId, baseId, entry);
      if !isAssigned {
        UnchangedWhenNothingPushed(mapped, result, entry);
        var found := FindPatternPhase(techId, baseId);
        if found.Some? {
          SlotsDeclared(KillChainStructure);
          assert slots[FirstPatternSlot(slots, techId)] in slots;
          var key := found.value.Key();
          result := result[key := result[key] + [entry]];
          PushedOne(mapped, key, entry);
          isAssigned := true;
        }
      }
      if !isAssigned {
        var defaultPhase := GuessPhaseFromId(techId);
        GuessIsDeclared(techId);
        result := result[defaultPhase := result[defaultPhase] + [entry]];
        PushedOne(mapped, defaultPhase, entry);
      }
    }
  
    /** An empty list for every declared phase, and then every technique in
        input order; each list ends up as `Expected` describes it. */
    method MapTechniquesToPhases(techniques: Dict<string>) returns (mapped: Mapped)
      requires Valid() && techniques.Valid() && AllWellFormed(techniques.keys)
      ensures mapped.Keys == DeclaredSet()
      ensures forall k | k in mapped ::
        mapped[k] == Expected(techniqueToPhase, StructureSlots(killChainStructure), techniques.keys, techniques.values, k)
      ensures techniques.keys == [] ==> forall k | k in mapped :: mapped[k] == []
      ensures forall t | 0 <= t < |techniques.keys| :: exists k | k in mapped ::
        TechniqueEntry(techniques.keys[t], techniques.values[techniques.keys[t]]) in mapped[k]
    {
      var initial := InitialMapping();
      mapped := AssignAll(initial, techniques);
      ghost var slots := StructureSlots(killChainStructure);
      var ids := techniques.keys;
      forall t | 0 <= t < |ids|
        ensures exists k | k in mapped :: TechniqueEntry(ids[t], techniques.values[ids[t]]) in mapped[k]
      {
        TechniqueMapped(mapped, techniqueToPhase, slots, ids, techniques.values, t);
      }
    }

    /** The loop of `mapTechniquesToPhases` over the techniques, in input order. */
    method AssignAll(initial: Mapped, techniques: Dict<string>) returns (mapped: Mapped)
      requires Valid() && techniques.Valid() && AllWellFormed(techniques.keys)
      requires initial.Keys == DeclaredSet() && forall k | k in initial :: initial[k] == []
      ensures mapped.Keys == DeclaredSet()
      ensures forall k | k in mapped ::
        mapped[k] == Expected(techniqueToPhase, StructureSlots(killChainStructure), techniques.keys, techniques.values, k)
    {
      mapped := initial;
      ghost var slots := StructureSlots(killChainStructure);
      var ids := techniques.keys;
      for t := 0 to |ids|
        invariant mapped.Keys == DeclaredSet()
        invariant forall k | k in mapped ::
          mapped[k] == Expected(techniqueToPhase, slots, ids[..t], techniques.values, k)
      {
        var techId := ids[t];
        var techName := techniques.values[techId];
        ghost var before := mapped;
        mapped := AssignTechnique(mapped, techId, techName);
        ExpectedStep(techniqueToPhase, slots, ids, techniques.values, t, before, mapped);
      }
      assert ids[..|ids|] == ids;
    }

    /** `mapped[superPhaseId][phase.id] = []` for every declared phase. */
    method InitialMapping() returns (mapped: Mapped)
      requires Valid()
      ensures mapped.Keys == DeclaredSet()
      ensures forall k | k in mapped :: mapped[k] == []
    {
      mapped := map[];
      var structure := killChainStructure;
      for i := 0 to |structure|
        invariant forall k :: k in mapped <==> k in DeclaredKeys(structure[..i])
        invariant forall k | k in mapped :: mapped[k] == []
      {
        var sp := structure[i];
        for j := 0 to |sp.phases|
          invariant forall k :: k in mapped <==> k in DeclaredKeys(structure[..i]) || k in SuperPhaseKeys(sp)[..j]
          invariant forall k | k in mapped :: mapped[k] == []
        {
          mapped := mapped[PhaseKey(sp.id, sp.phases[j].id) := []];
          assert SuperPhaseKeys(sp)[..j + 1] == SuperPhaseKeys(sp)[..j] + [PhaseKey(sp.id, sp.phases[j].id)];
        }
        assert SuperPhaseKeys(sp)[..|sp.phases|] == SuperPhaseKeys(sp);
        DeclaredKeysStep(structure, i);
      }
      assert structure[..|structure|] == structure;
    }

    /** `setTechniques` without the rendering it triggers. */
    method SetTechniques(techniques: Dict<string>)
      requires Valid() && techniques.Valid() && AllWellFormed(techniques.keys)
      modifies this
      ensures Valid()
      ensures this.techniques == techniques && mappedTechniques.Some?
      ensures forall k | k in DeclaredKeys(KillChainStructure) ::
        k in mappedTechniques.value
        && mappedTechniques.value[k] == Expected(techniqueToPhase, StructureSlots(killChainStructure),
                                                 techniques.keys, techniques.values, k)
      ensures techniqueToPhase == old(techniqueToPhase)
    {
      var mapped := MapTechniquesToPhases(techniques);
      ResultIsMapping(mapped, techniqueToPhase, StructureSlots(killChainStructure), techniques);
      this.techniques := techniques;
      mappedTechniques := Some(mapped);
    }

    /** The counting part of `renderStats`: one pass over the phase lists. */
    method RenderStats() returns (stats: Stats)
      requires Valid() && mappedTechniques.Some?
      ensures Covers(mappedTechniques.value, DeclaredKeys(KillChainStructure))
      ensures var m := mappedTechniques.value; var keys := DeclaredKeys(KillChainStructure);
        stats == Stats(|techniques.keys|, SuperPhaseCount(m, keys, IN), SuperPhaseCount(m, keys, THROUGH),
                       SuperPhaseCount(m, keys, OUT), ActivePhases(m, keys))
      ensures stats.inCount + stats.throughCount + stats.outCount >= stats.total
      ensures stats.phaseCount > 0 <==> stats.total > 0
    {
      var m := mappedTechniques.value;
      var keys := DeclaredKeys(killChainStructure);
      MappingTotals(m, techniqueToPhase, StructureSlots(killChainStructure), techniques.keys, techniques.values);
      var inCount, throughCount, outCount, phaseCount := CountPhaseLists(m, keys);
      stats := Stats(|techniques.keys|, inCount, throughCount, outCount, phaseCount);
    }

    /** `exportData`: the input, the mapping and its counts. */
    function ExportData(): (r: (Dict<string>, Mapped, ExportStats))
      reads this
      requires Valid() && mappedTechniques.Some?
      ensures r.0 == techniques && r.1 == mappedTechniques.value
      ensures r.2.total == |techniques.keys|
      ensures r.2.inCount + r.2.throughCount + r.2.outCount
           == Pushes(techniqueToPhase, StructureSlots(killChainStructure), techniques.keys)
      ensures r.2.inCount + r.2.throughCount + r.2.outCount >= r.2.total
    {
      MappingTotals(mappedTechniques.value, techniqueToPhase, StructureSlots(killChainStructure),
                    techniques.keys, techniques.values);
      (techniques, mappedTechniques.value, ExportedStats(|techniques.keys|, mappedTechniques.value))
    }

    /** `parseNavigatorLayer`: the technique dictionary of a Navigator layer.
        `commonNames` is the built-in name table that `getTechniqueName` looks
        ids up in. A missing layer or technique list gives `{}`. */
    method ParseNavigatorLayer(layer: Option<Layer>, techniqueNames: map<string, string>,
                               commonNames: map<string, string>) returns (parsed: Dict<string>)
      ensures parsed == ParsedLayer(layer, techniqueNames, commonNames)
      ensures parsed.Valid()
      ensures layer.None? || layer.value.techniques.None? ==> parsed.keys == []
      ensures layer.Some? && layer.value.techniques.Some? ==>
                parsed.keys == Dedup(EnabledIds(layer.value.techniques.value))
      ensures forall id :: id in parsed.values ==> parsed.values[id] == DisplayName(id, techniqueNames, commonNames)
    {
      parsed := Empty();
      if layer.None? || layer.value.techniques.None? {
        return;
      }
      var entries := layer.value.techniques.value;
      for i := 0 to |entries|
        invariant parsed == Collect(entries[..i], techniqueNames, commonNames)
      {
        var tech := entries[i];
        assert entries[..i + 1][..i] == entries[..i];
        if tech.enabled == Some(false) {
          continue;
        }
        var techId := tech.techniqueID;
        if techId in parsed.values && parsed.values[techId] != "" {
          continue;
        }
        var name := DisplayName(techId, techniqueNames, commonNames);
        parsed := parsed.Put(techId, name);
      }
      assert entries[..|entries|] == entries;
      CollectSpec(entries, techniqueNames, commonNames);
    }
  }
}

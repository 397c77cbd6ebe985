/** The inverted index `techniqueToPhase` that `buildTechniquePhaseMapping`
    builds from the taxonomy: every pattern maps to the list of phases that
    declare it. The structure is flattened into a sequence of slots, one per
    pattern occurrence, in declaration order. */
module PatternIndex {
  import opened Seqs
  import opened Taxonomy

  /** An index entry `{ superPhase, phaseId, phaseName }`. */
  datatype PhaseRef = PhaseRef(superPhase: SuperPhaseId, phaseId: string, phaseName: string) {
    function Key(): PhaseKey { PhaseKey(superPhase, phaseId) }
  }

  /** One pattern of one phase. */
  datatype Slot = Slot(pattern: string, ref: PhaseRef)

  type Index = map<string, seq<PhaseRef>>

  function RefOf(sp: SuperPhaseId, ph: Phase): PhaseRef {
    PhaseRef(sp, ph.id, ph.name)
  }

  /** The slots of one phase, in pattern order. */
  function PhaseSlots(sp: SuperPhaseId, ph: Phase): (slots: seq<Slot>)
    ensures |slots| == |ph.patterns|
    ensures forall i | 0 <= i < |slots| :: slots[i] == Slot(PatternText(ph.patterns[i]), RefOf(sp, ph))
  {
    seq(|ph.patterns|, i requires 0 <= i < |ph.patterns| => Slot(PatternText(ph.patterns[i]), RefOf(sp, ph)))
  }

  /** The slots of a list of phases of super-phase `sp`, phase after phase. */
  function PhasesSlots(sp: SuperPhaseId, phases: seq<Phase>): seq<Slot> {
    if phases == [] then []
    else PhasesSlots(sp, phases[..|phases| - 1]) + PhaseSlots(sp, phases[|phases| - 1])
  }

  /** The slots of a structure: IN, THROUGH, OUT, then phase order, then pattern order. */
  function StructureSlots(structure: seq<SuperPhase>): seq<Slot> {
    if structure == [] then []
    else
      var sp := structure[|structure| - 1];
      StructureSlots(structure[..|structure| - 1]) + PhasesSlots(sp.id, sp.phases)
  }

  /** One step of the loop: create the list when the key is new, then push. */
  function IndexAdd(index: Index, slot: Slot): (r: Index)
    ensures r.Keys == index.Keys + {slot.pattern}
  {
    var prior := if slot.pattern in index then index[slot.pattern] else [];
    index[slot.pattern := prior + [slot.ref]]
  }

  /** The index after processing `slots` in order, starting from `{}`. */
  function IndexOf(slots: seq<Slot>): Index {
    if slots == [] then map[] else IndexAdd(IndexOf(slots[..|slots| - 1]), slots[|slots| - 1])
  }

  /** `index` after processing `slots` in order. */
  function IndexExtend(index: Index, slots: seq<Slot>): Index {
    if slots == [] then index else IndexAdd(IndexExtend(index, slots[..|slots| - 1]), slots[|slots| - 1])
  }

  /** Processing `a + b` is processing `a`, then `b`. */
  lemma {:induction false} IndexExtendConcat(index: Index, a: seq<Slot>, b: seq<Slot>)
    ensures IndexExtend(index, a + b) == IndexExtend(IndexExtend(index, a), b)
    decreases |b|
  {
    if b == [] {
      assert a + b == a;
    } else {
      var n := |b| - 1;
      assert (a + b)[..|a + b| - 1] == a + b[..n];
      IndexExtendConcat(index, a, b[..n]);
    }
  }

  lemma {:induction false} IndexOfIsExtend(slots: seq<Slot>)
    ensures IndexOf(slots) == IndexExtend(map[], slots)
  {
    if slots != [] {
      IndexOfIsExtend(slots[..|slots| - 1]);
    }
  }

  /** Reference definition: the entries of the slots that carry pattern `p`, in order. */
  function EntriesFor(slots: seq<Slot>, p: string): (refs: seq<PhaseRef>)
    ensures forall r :: r in refs <==> Slot(p, r) in slots
  {
    if slots == [] then []
    else
      var last := slots[|slots| - 1];
      assert slots == slots[..|slots| - 1] + [last];
      EntriesFor(slots[..|slots| - 1], p) + (if last.pattern == p then [last.ref] else [])
  }

  predicate HasPattern(slots: seq<Slot>, p: string) {
    exists i | 0 <= i < |slots| :: slots[i].pattern == p
  }

  /** The index holds exactly the declared patterns, each mapped to its
      entries in declaration order, with one entry per occurrence. */
  lemma IndexSpec(slots: seq<Slot>)
    ensures forall p :: p in IndexOf(slots) <==> HasPattern(slots, p)
    ensures forall p | p in IndexOf(slots) :: IndexOf(slots)[p] == EntriesFor(slots, p)
  {
    forall p
      ensures p in IndexOf(slots) <==> HasPattern(slots, p)
      ensures p in IndexOf(slots) ==> IndexOf(slots)[p] == EntriesFor(slots, p)
    {
      IndexSpecAt(slots, p);
    }
  }

  lemma {:induction false} IndexSpecAt(slots: seq<Slot>, p: string)
    ensures p in IndexOf(slots) <==> HasPattern(slots, p)
    ensures p in IndexOf(slots) ==> IndexOf(slots)[p] == EntriesFor(slots, p)
  {
    if slots != [] {
      var init := slots[..|slots| - 1];
      var last := slots[|slots| - 1];
      IndexSpecAt(init, p);
      if HasPattern(slots, p) && p != last.pattern {
        var i :| 0 <= i < |slots| && slots[i].pattern == p;
        assert init[i].pattern == p;
      }
      if HasPattern(init, p) {
        var i :| 0 <= i < |init| && init[i].pattern == p;
        assert slots[i].pattern == p;
      } else {
        EntriesAbsent(init, p);
      }
    }
  }

  lemma EntriesAbsent(slots: seq<Slot>, p: string)
    requires !HasPattern(slots, p)
    ensures EntriesFor(slots, p) == []
  {
    if EntriesFor(slots, p) != [] {
      assert EntriesFor(slots, p)[0] in EntriesFor(slots, p);
    }
  }

  /** No pattern's entry list is empty. */
  lemma EntriesNonEmpty(slots: seq<Slot>, p: string)
    requires p in IndexOf(slots)
    ensures IndexOf(slots)[p] != []
  {
    IndexSpec(slots);
    var i :| 0 <= i < |slots| && slots[i].pattern == p;
    assert Slot(p, slots[i].ref) in slots;
  }

  /** `PhasesSlots` of a longer prefix extends that of a shorter one. */
  lemma PhasesSlotsStep(sp: SuperPhaseId, phases: seq<Phase>, k: nat)
    requires k < |phases|
    ensures PhasesSlots(sp, phases[..k + 1]) == PhasesSlots(sp, phases[..k]) + PhaseSlots(sp, phases[k])
  {
    assert phases[..k + 1][..k] == phases[..k];
  }

  lemma StructureSlotsStep(structure: seq<SuperPhase>, i: nat)
    requires i < |structure|
    ensures StructureSlots(structure[..i + 1])
         == StructureSlots(structure[..i]) + PhasesSlots(structure[i].id, structure[i].phases)
  {
    assert structure[..i + 1][..i] == structure[..i];
  }

  /** Every slot names a declared phase of the structure. */
  lemma {:induction false} SlotsDeclared(structure: seq<SuperPhase>)
    ensures forall s | s in StructureSlots(structure) :: s.ref.Key() in DeclaredKeys(structure)
  {
    if structure != [] {
      var init := structure[..|structure| - 1];
      var sp := structure[|structure| - 1];
      SlotsDeclared(init);
      PhasesSlotsDeclared(sp, sp.phases);
    }
  }

  lemma {:induction false} PhasesSlotsDeclared(sp: SuperPhase, phases: seq<Phase>)
    requires phases <= sp.phases
    ensures forall s | s in PhasesSlots(sp.id, phases) :: s.ref.Key() in SuperPhaseKeys(sp)
  {
    if phases != [] {
      var k := |phases| - 1;
      assert phases[..k] <= sp.phases;
      PhasesSlotsDeclared(sp, phases[..k]);
      assert PhaseKey(sp.id, sp.phases[k].id) in SuperPhaseKeys(sp);
    }
  }

  /** Every pattern is a `T` followed by four digits. */
  lemma {:induction false} SlotPatternsFive(structure: seq<SuperPhase>)
    ensures forall s | s in StructureSlots(structure) :: |s.pattern| == 5
  {
    if structure != [] {
      var sp := structure[|structure| - 1];
      SlotPatternsFive(structure[..|structure| - 1]);
      PhasesSlotsFive(sp.id, sp.phases);
    }
  }

  lemma {:induction false} PhasesSlotsFive(sp: SuperPhaseId, phases: seq<Phase>)
    ensures forall s | s in PhasesSlots(sp, phases) :: |s.pattern| == 5
  {
    if phases != [] {
      PhasesSlotsFive(sp, phases[..|phases| - 1]);
    }
  }

  /** Every pattern of every phase is a key of the index, and its entry list
      contains that phase. */
  lemma PatternIndexed(structure: seq<SuperPhase>, i: nat, k: nat, j: nat)
    requires i < |structure| && k < |structure[i].phases| && j < |structure[i].phases[k].patterns|
    ensures var ph := structure[i].phases[k];
      var p := PatternText(ph.patterns[j]);
      p in IndexOf(StructureSlots(structure)) && RefOf(structure[i].id, ph) in IndexOf(StructureSlots(structure))[p]
  {
    var sp := structure[i];
    var ph := sp.phases[k];
    var slot := Slot(PatternText(ph.patterns[j]), RefOf(sp.id, ph));
    assert slot in PhaseSlots(sp.id, ph);
    PhasesSlotsContain(sp.id, sp.phases, k);
    StructureSlotsContain(structure, i);
    var all := StructureSlots(structure);
    IndexSpec(all);
    var n :| 0 <= n < |all| && all[n] == slot;
    assert HasPattern(all, slot.pattern);
  }

  lemma {:induction false} PhasesSlotsContain(sp: SuperPhaseId, phases: seq<Phase>, k: nat)
    requires k < |phases|
    ensures forall s | s in PhaseSlots(sp, phases[k]) :: s in PhasesSlots(sp, phases)
  {
    var n := |phases| - 1;
    if k < n {
      PhasesSlotsContain(sp, phases[..n], k);
    }
  }

  lemma {:induction false} StructureSlotsContain(structure: seq<SuperPhase>, i: nat)
    requires i < |structure|
    ensures forall s | s in PhasesSlots(structure[i].id, structure[i].phases) :: s in StructureSlots(structure)
  {
    var n := |structure| - 1;
    if i < n {
      StructureSlotsContain(structure[..n], i);
    }
  }
}

/** `mapTechniquesToPhases`: the four-tier assignment of techniques to the
    phases of the kill chain, with the `KillChainVisualizer` object that holds
    the taxonomy, its index and the last mapping. */
module Classifier {
  import opened Wrappers
  import opened Seqs
  import opened OrderedDict
  import opened TechniqueIds
  import opened Taxonomy
  import opened DomainDetector
  import opened PatternIndex

  /** A pushed `{ id, name }` record. */
  datatype TechniqueEntry = TechniqueEntry(id: string, name: string)

  /** `mapped[superPhase][phaseId]`, with the two object levels keyed together. */
  type Mapped = map<PhaseKey, seq<TechniqueEntry>>

  function RefKeys(refs: seq<PhaseRef>): (keys: seq<PhaseKey>)
    ensures |keys| == |refs|
    ensures forall i | 0 <= i < |refs| :: keys[i] == refs[i].Key()
  {
    seq(|refs|, i requires 0 <= i < |refs| => refs[i].Key())
  }

  /** Tiers 1 and 2: the entries of the exact id when it is a key, otherwise
      those of the base id, otherwise none. */
  function LookupEntries(index: Index, id: string): seq<PhaseRef> {
    if id in index then index[id]
    else if BaseId(id) in index then index[BaseId(id)]
    else []
  }

  /** The tier-3 test `techId.startsWith(pattern) || baseId === pattern`. */
  predicate PatternMatches(id: string, pattern: string) {
    pattern <= id || BaseId(id) == pattern
  }

  /** The position of the first slot whose pattern matches `id`, or `|slots|`. */
  function FirstPatternSlot(slots: seq<Slot>, id: string): (i: nat)
    ensures i <= |slots|
    ensures forall j | 0 <= j < i :: !PatternMatches(id, slots[j].pattern)
    ensures i < |slots| ==> PatternMatches(id, slots[i].pattern)
  {
    if slots == [] then 0
    else if PatternMatches(id, slots[0].pattern) then 0
    else 1 + FirstPatternSlot(slots[1..], id)
  }

  /** Tier 3: the phase of the first matching slot, if any. */
  function PatternPhase(slots: seq<Slot>, id: string): Option<PhaseRef> {
    var i := FirstPatternSlot(slots, id);
    if i < |slots| then Some(slots[i].ref) else None
  }

  /** The phases technique `id` is pushed to, one per push, in push order. */
  function Targets(index: Index, slots: seq<Slot>, id: string): seq<PhaseKey>
    requires WellFormedId(id)
  {
    var refs := LookupEntries(index, id);
    if refs != [] then RefKeys(refs)
    else match PatternPhase(slots, id)
      case Some(r) => [r.Key()]
      case None => [GuessPhaseFromId(id)]
  }

  predicate AllWellFormed(ids: seq<string>) {
    forall i | 0 <= i < |ids| :: WellFormedId(ids[i])
  }

  /** The list `mapped[key]` ends up with after the techniques `ids` (named by
      `names`) are processed in order: each technique once per push to `key`. */
  function Expected(index: Index, slots: seq<Slot>, ids: seq<string>, names: map<string, string>,
                    key: PhaseKey): seq<TechniqueEntry>
    requires AllWellFormed(ids) && forall i | 0 <= i < |ids| :: ids[i] in names
  {
    if ids == [] then []
    else
      var id := ids[|ids| - 1];
      Expected(index, slots, ids[..|ids| - 1], names, key)
        + Repeat(TechniqueEntry(id, names[id]), Count(Targets(index, slots, id), key))
  }

  /** The first match in `a + b` is the first match in `a`, or else the first in `b`. */
  lemma PatternPhaseConcat(a: seq<Slot>, b: seq<Slot>, id: string)
    ensures PatternPhase(a + b, id)
         == if PatternPhase(a, id).Some? then PatternPhase(a, id) else PatternPhase(b, id)
  {
    var ab := a + b;
    var i := FirstPatternSlot(a, id);
    var m := FirstPatternSlot(ab, id);
    if i < |a| {
      assert ab[i] == a[i];
      assert m == i;
    } else {
      var j := FirstPatternSlot(b, id);
      if |a| <= m < |ab| {
        assert ab[m] == b[m - |a|];
      }
      if j < |b| {
        assert ab[|a| + j] == b[j];
        assert m == |a| + j;
      } else {
        assert m == |ab|;
      }
    }
  }

  /** The index and slots of the taxonomy the visualizer builds. */
  ghost predicate Consistent(index: Index, slots: seq<Slot>) {
    slots == StructureSlots(KillChainStructure) && index == IndexOf(slots)
  }

  function DeclaredSet(): set<PhaseKey> {
    set k | k in DeclaredKeys(KillChainStructure)
  }

  // ---------------------------------------------------------------------
  // Properties of the tiers

  /** Tier 1 wins: an id that is a key is assigned by its own entries, and
      the base id is not consulted. */
  lemma ExactPrecedence(index: Index, slots: seq<Slot>, id: string)
    requires Consistent(index, slots) && WellFormedId(id) && id in index
    ensures Targets(index, slots, id) == RefKeys(index[id])
  {
    EntriesNonEmpty(slots, id);
  }

  /** Tier 2: an id that is not a key but whose base is takes the base's entries. */
  lemma BaseFallback(index: Index, slots: seq<Slot>, id: string)
    requires Consistent(index, slots) && WellFormedId(id) && id !in index && BaseId(id) in index
    ensures Targets(index, slots, id) == RefKeys(index[BaseId(id)])
  {
    EntriesNonEmpty(slots, BaseId(id));
  }

  /** Tier 3 runs only when neither the id nor its base is a key, and then
      assigns to exactly one phase: the first matching slot in declaration order. */
  lemma PatternTierSingle(index: Index, slots: seq<Slot>, id: string)
    requires Consistent(index, slots) && WellFormedId(id)
    requires id !in index && BaseId(id) !in index && PatternPhase(slots, id).Some?
    ensures exists i | 0 <= i < |slots| ::
      (PatternMatches(id, slots[i].pattern)
       && (forall j | 0 <= j < i :: !PatternMatches(id, slots[j].pattern))
       && Targets(index, slots, id) == [slots[i].ref.Key()])
  {
  }

  /** Since every declared pattern has five characters, tier 3 never fires for
      an id whose base has five characters: such a pattern would equal the base,
      and the base would then have been found by tier 2. */
  lemma PatternTierSilentOnFiveCharBase(index: Index, slots: seq<Slot>, id: string)
    requires Consistent(index, slots) && WellFormedId(id) && |BaseId(id)| == 5
    ensures LookupEntries(index, id) != [] || PatternPhase(slots, id).None?
  {
    if PatternPhase(slots, id).Some? {
      var i := FirstPatternSlot(slots, id);
      var p := slots[i].pattern;
      SlotPatternsFive(KillChainStructure);
      assert slots[i] in slots;
      var n := FirstIndex(id, '.');
      assert p == BaseId(id) by {
        if p <= id {
          assert p == id[..5];
          assert n == 5;
        }
      }
      IndexSpec(slots);
      assert HasPattern(slots, BaseId(id));
      if id in index {
        EntriesNonEmpty(slots, id);
      } else {
        EntriesNonEmpty(slots, BaseId(id));
      }
    }
  }

  /** Every index entry names a declared phase. */
  lemma IndexDeclared(index: Index, slots: seq<Slot>, p: string)
    requires Consistent(index, slots) && p in index
    ensures forall r | r in index[p] :: r.Key() in DeclaredKeys(KillChainStructure)
  {
    IndexSpec(slots);
    SlotsDeclared(KillChainStructure);
    forall r | r in index[p]
      ensures r.Key() in DeclaredKeys(KillChainStructure)
    {
      assert Slot(p, r) in slots;
    }
  }

  /** Tier 4 makes the assignment total: every technique is pushed at least
      once, and only to declared phases. */
  lemma TargetsTotal(index: Index, slots: seq<Slot>, id: string)
    requires Consistent(index, slots) && WellFormedId(id)
    ensures |Targets(index, slots, id)| >= 1
    ensures forall k | k in Targets(index, slots, id) :: k in DeclaredKeys(KillChainStructure)
  {
    var refs := LookupEntries(index, id);
    if refs != [] {
      if id in index {
        IndexDeclared(index, slots, id);
      } else {
        IndexDeclared(index, slots, BaseId(id));
      }
      forall k | k in RefKeys(refs)
        ensures k in DeclaredKeys(KillChainStructure)
      {
        var i :| 0 <= i < |refs| && RefKeys(refs)[i] == k;
        assert refs[i] in refs;
      }
    } else if PatternPhase(slots, id).Some? {
      SlotsDeclared(KillChainStructure);
      assert slots[FirstPatternSlot(slots, id)] in slots;
    } else {
      GuessIsDeclared(id);
    }
  }

  /** Every input technique appears in the list of at least one declared phase. */
  lemma EveryTechniqueAssigned(index: Index, slots: seq<Slot>, ids: seq<string>,
                               names: map<string, string>, t: nat)
    requires Consistent(index, slots) && AllWellFormed(ids) && forall i | 0 <= i < |ids| :: ids[i] in names
    requires t < |ids|
    ensures exists k | k in DeclaredKeys(KillChainStructure) ::
      TechniqueEntry(ids[t], names[ids[t]]) in Expected(index, slots, ids, names, k)
  {
    var id := ids[t];
    TargetsTotal(index, slots, id);
    var k := Targets(index, slots, id)[0];
    CountPositive(Targets(index, slots, id), k);
    ExpectedContains(index, slots, ids, names, k, t);
  }

  lemma {:induction false} ExpectedContains(index: Index, slots: seq<Slot>, ids: seq<string>,
                                            names: map<string, string>, k: PhaseKey, t: nat)
    requires AllWellFormed(ids) && forall i | 0 <= i < |ids| :: ids[i] in names
    requires t < |ids| && Count(Targets(index, slots, ids[t]), k) > 0
    ensures TechniqueEntry(ids[t], names[ids[t]]) in Expected(index, slots, ids, names, k)
  {
    var n := |ids| - 1;
    var id := ids[n];
    var init := ids[..n];
    var e := TechniqueEntry(ids[t], names[ids[t]]);
    var pre := Expected(index, slots, init, names, k);
    var tail := Repeat(TechniqueEntry(id, names[id]), Count(Targets(index, slots, id), k));
    assert Expected(index, slots, ids, names, k) == pre + tail;
    if t < n {
      assert init[t] == ids[t];
      ExpectedContains(index, slots, init, names, k, t);
      assert e in pre;
    } else {
      assert tail[0] == e;
      assert e in tail;
    }
  }

  /** Entries for a phase come only from techniques pushed there. */
  lemma {:induction false} ExpectedMembers(index: Index, slots: seq<Slot>, ids: seq<string>,
                                           names: map<string, string>, k: PhaseKey, e: TechniqueEntry)
    requires AllWellFormed(ids) && forall i | 0 <= i < |ids| :: ids[i] in names
    requires e in Expected(index, slots, ids, names, k)
    ensures exists t | 0 <= t < |ids| ::
      (e == TechniqueEntry(ids[t], names[ids[t]]) && k in Targets(index, slots, ids[t]))
  {
    var n := |ids| - 1;
    var id := ids[n];
    var tail := Repeat(TechniqueEntry(id, names[id]), Count(Targets(index, slots, id), k));
    if e in Expected(index, slots, ids[..n], names, k) {
      ExpectedMembers(index, slots, ids[..n], names, k, e);
      var t :| 0 <= t < n && e == TechniqueEntry(ids[..n][t], names[ids[..n][t]])
        && k in Targets(index, slots, ids[..n][t]);
      assert ids[..n][t] == ids[t];
    } else {
      assert e in tail;
      CountPositive(Targets(index, slots, id), k);
    }
  }
}

/** The counting in `renderStats` and `exportData`: techniques per super-phase
    and the number of phases with at least one technique. */
module PhaseStats {
  import opened Seqs
  import opened TechniqueIds
  import opened Taxonomy
  import opened PatternIndex
  import opened Classifier

  predicate Covers(m: Mapped, keys: seq<PhaseKey>) {
    forall i | 0 <= i < |keys| :: keys[i] in m
  }

  /** The summed list lengths of the phases of `sp` among `keys`. */
  function SuperPhaseCount(m: Mapped, keys: seq<PhaseKey>, sp: SuperPhaseId): nat
    requires Covers(m, keys)
  {
    if keys == [] then 0
    else
      var k := keys[|keys| - 1];
      SuperPhaseCount(m, keys[..|keys| - 1], sp) + (if k.superPhase == sp then |m[k]| else 0)
  }

  /** How many of `keys` have a non-empty list. */
  function ActivePhases(m: Mapped, keys: seq<PhaseKey>): (n: nat)
    requires Covers(m, keys)
    ensures n <= |keys|
  {
    if keys == [] then 0
    else
      var k := keys[|keys| - 1];
      ActivePhases(m, keys[..|keys| - 1]) + (if |m[k]| > 0 then 1 else 0)
  }

  /** The summed list lengths of all `keys`. */
  function TotalLength(m: Mapped, keys: seq<PhaseKey>): nat
    requires Covers(m, keys)
  {
    if keys == [] then 0 else TotalLength(m, keys[..|keys| - 1]) + |m[keys[|keys| - 1]]|
  }

  /** The five numbers `renderStats` shows. */
  datatype Stats = Stats(total: nat, inCount: nat, throughCount: nat, outCount: nat, phaseCount: nat)

  /** The `stats` object of `exportData`. */
  datatype ExportStats = ExportStats(total: nat, inCount: nat, throughCount: nat, outCount: nat)

  function ExportedStats(techniqueCount: nat, m: Mapped): (s: ExportStats)
    requires Covers(m, DeclaredKeys(KillChainStructure))
    ensures s.inCount + s.throughCount + s.outCount == TotalLength(m, DeclaredKeys(KillChainStructure))
  {
    var keys := DeclaredKeys(KillChainStructure);
    SuperPhasesPartition(m, keys);
    ExportStats(techniqueCount, SuperPhaseCount(m, keys, IN), SuperPhaseCount(m, keys, THROUGH),
                SuperPhaseCount(m, keys, OUT))
  }

  /** Every list belongs to exactly one super-phase. */
  lemma {:induction false} SuperPhasesPartition(m: Mapped, keys: seq<PhaseKey>)
    requires Covers(m, keys)
    ensures SuperPhaseCount(m, keys, IN) + SuperPhaseCount(m, keys, THROUGH) + SuperPhaseCount(m, keys, OUT)
         == TotalLength(m, keys)
  {
    if keys != [] {
      SuperPhasesPartition(m, keys[..|keys| - 1]);
    }
  }

  /** No phase is active exactly when every list is empty. */
  lemma {:induction false} ActivePhasesZero(m: Mapped, keys: seq<PhaseKey>)
    requires Covers(m, keys)
    ensures ActivePhases(m, keys) == 0 <==> TotalLength(m, keys) == 0
  {
    if keys != [] {
      ActivePhasesZero(m, keys[..|keys| - 1]);
    }
  }

  // ---------------------------------------------------------------------
  // Totals of a computed mapping

  /** The phase ids of a super-phase, in declaration order. */
  function PhaseIds(sp: SuperPhase): (ids: seq<string>)
    ensures |ids| == |sp.phases| && forall i | 0 <= i < |ids| :: ids[i] == sp.phases[i].id
  {
    seq(|sp.phases|, i requires 0 <= i < |sp.phases| => sp.phases[i].id)
  }

  function KeysOf(sp: SuperPhaseId, ids: seq<string>): (keys: seq<PhaseKey>)
    ensures |keys| == |ids| && forall i | 0 <= i < |ids| :: keys[i] == PhaseKey(sp, ids[i])
  {
    seq(|ids|, i requires 0 <= i < |ids| => PhaseKey(sp, ids[i]))
  }

  /** Within each super-phase of the taxonomy no phase id is declared twice. */
  lemma DistinctGroups()
    ensures forall i | 0 <= i < |KillChainStructure| :: Distinct(PhaseIds(KillChainStructure[i]))
  {
  }

  lemma DistinctKeysOf(sp: SuperPhaseId, ids: seq<string>)
    requires Distinct(ids)
    ensures Distinct(KeysOf(sp, ids))
  {
    var keys := KeysOf(sp, ids);
    forall i, j | 0 <= i < j < |keys|
      ensures keys[i] != keys[j]
    {
      assert keys[i].phaseId == ids[i];
    }
  }

  /** A super-phase's keys are the keys of its phase ids. */
  lemma SuperPhaseKeysOf(sp: SuperPhase)
    ensures SuperPhaseKeys(sp) == KeysOf(sp.id, PhaseIds(sp))
  {
  }

  /** The eighteen declared phases are distinct. */
  lemma DeclaredDistinct()
    ensures Distinct(DeclaredKeys(KillChainStructure))
  {
    var s := KillChainStructure;
    assert s[..3] == s && s[..3][..2] == s[..2] && s[..2][..1] == s[..1] && s[..1][..0] == [];
    var a := SuperPhaseKeys(s[0]);
    var b := SuperPhaseKeys(s[1]);
    var c := SuperPhaseKeys(s[2]);
    assert DeclaredKeys(s[..1]) == a;
    assert DeclaredKeys(s[..2]) == a + b;
    assert DeclaredKeys(s) == a + b + c;
    DistinctGroups();
    SuperPhaseKeysOf(s[0]);
    SuperPhaseKeysOf(s[1]);
    SuperPhaseKeysOf(s[2]);
    DistinctKeysOf(IN, PhaseIds(s[0]));
    DistinctKeysOf(THROUGH, PhaseIds(s[1]));
    DistinctKeysOf(OUT, PhaseIds(s[2]));
    DistinctAppend(a, b);
    DistinctAppend(a + b, c);
  }

  /** `Σ_{k in keys} Count(s, k)`. */
  function SumCounts(s: seq<PhaseKey>, keys: seq<PhaseKey>): nat {
    if keys == [] then 0 else SumCounts(s, keys[..|keys| - 1]) + Count(s, keys[|keys| - 1])
  }

  lemma {:induction false} SumCountsAppend(s: seq<PhaseKey>, x: PhaseKey, keys: seq<PhaseKey>)
    ensures SumCounts(s + [x], keys) == SumCounts(s, keys) + Count(keys, x)
  {
    if keys != [] {
      SumCountsAppend(s, x, keys[..|keys| - 1]);
      assert (s + [x])[..|s|] == s;
    }
  }

  lemma {:induction false} CountOnce(keys: seq<PhaseKey>, x: PhaseKey)
    requires Distinct(keys) && x in keys
    ensures Count(keys, x) == 1
  {
    var n := |keys| - 1;
    var init := keys[..n];
    assert Distinct(init);
    if keys[n] == x {
      CountPositive(init, x);
    } else {
      assert x in init by {
        var i :| 0 <= i < |keys| && keys[i] == x;
        assert i < n && init[i] == x;
      }
      CountOnce(init, x);
    }
  }

  /** Counting the elements of `s` key by key gives `|s|` when each element is
      exactly one key. */
  lemma {:induction false} SumCountsLength(s: seq<PhaseKey>, keys: seq<PhaseKey>)
    requires Distinct(keys) && forall x | x in s :: x in keys
    ensures SumCounts(s, keys) == |s|
  {
    if s == [] {
      SumCountsEmpty(keys);
    } else {
      var n := |s| - 1;
      assert s == s[..n] + [s[n]];
      SumCountsLength(s[..n], keys);
      SumCountsAppend(s[..n], s[n], keys);
      CountOnce(keys, s[n]);
    }
  }

  lemma {:induction false} SumCountsEmpty(keys: seq<PhaseKey>)
    ensures SumCounts([], keys) == 0
  {
    if keys != [] {
      SumCountsEmpty(keys[..|keys| - 1]);
    }
  }

  /** The number of pushes of the techniques `ids`. */
  function Pushes(index: Index, slots: seq<Slot>, ids: seq<string>): nat
    requires AllWellFormed(ids)
  {
    if ids == [] then 0 else Pushes(index, slots, ids[..|ids| - 1]) + |Targets(index, slots, ids[|ids| - 1])|
  }

  /** A mapping as `mapTechniquesToPhases` computes it. */
  ghost predicate IsMappingOf(m: Mapped, index: Index, slots: seq<Slot>, ids: seq<string>, names: map<string, string>)
  {
    AllWellFormed(ids) && (forall i | 0 <= i < |ids| :: ids[i] in names)
    && forall k | k in DeclaredKeys(KillChainStructure) :: k in m && m[k] == Expected(index, slots, ids, names, k)
  }

  /** `Σ_{k in keys} |Expected(ids, k)|`. */
  function ExpectedTotal(index: Index, slots: seq<Slot>, ids: seq<string>, names: map<string, string>,
                         keys: seq<PhaseKey>): nat
    requires AllWellFormed(ids) && forall i | 0 <= i < |ids| :: ids[i] in names
  {
    if keys == [] then 0
    else ExpectedTotal(index, slots, ids, names, keys[..|keys| - 1])
         + |Expected(index, slots, ids, names, keys[|keys| - 1])|
  }

  lemma {:induction false} ExpectedTotalStep(index: Index, slots: seq<Slot>, ids: seq<string>,
                                             names: map<string, string>, keys: seq<PhaseKey>)
    requires AllWellFormed(ids) && (forall i | 0 <= i < |ids| :: ids[i] in names) && ids != []
    ensures ExpectedTotal(index, slots, ids, names, keys)
         == ExpectedTotal(index, slots, ids[..|ids| - 1], names, keys)
            + SumCounts(Targets(index, slots, ids[|ids| - 1]), keys)
  {
    if keys != [] {
      ExpectedTotalStep(index, slots, ids, names, keys[..|keys| - 1]);
    }
  }

  lemma {:induction false} ExpectedTotalIsPushes(index: Index, slots: seq<Slot>, ids: seq<string>,
                                                 names: map<string, string>)
    requires Consistent(index, slots)
    requires AllWellFormed(ids) && forall i | 0 <= i < |ids| :: ids[i] in names
    ensures ExpectedTotal(index, slots, ids, names, DeclaredKeys(KillChainStructure)) == Pushes(index, slots, ids)
  {
    var keys := DeclaredKeys(KillChainStructure);
    if ids == [] {
      ExpectedTotalEmpty(index, slots, names, keys);
    } else {
      var n := |ids| - 1;
      ExpectedTotalIsPushes(index, slots, ids[..n], names);
      ExpectedTotalStep(index, slots, ids, names, keys);
      TargetsTotal(index, slots, ids[n]);
      DeclaredDistinct();
      SumCountsLength(Targets(index, slots, ids[n]), keys);
    }
  }

  lemma {:induction false} ExpectedTotalEmpty(index: Index, slots: seq<Slot>, names: map<string, string>,
                                              keys: seq<PhaseKey>)
    ensures ExpectedTotal(index, slots, [], names, keys) == 0
  {
    if keys != [] {
      ExpectedTotalEmpty(index, slots, names, keys[..|keys| - 1]);
    }
  }

  lemma {:induction false} TotalLengthOfMapping(m: Mapped, index: Index, slots: seq<Slot>, ids: seq<string>,
                                                names: map<string, string>, keys: seq<PhaseKey>)
    requires IsMappingOf(m, index, slots, ids, names)
    requires forall i | 0 <= i < |keys| :: keys[i] in DeclaredKeys(KillChainStructure)
    ensures Covers(m, keys)
    ensures TotalLength(m, keys) == ExpectedTotal(index, slots, ids, names, keys)
  {
    if keys != [] {
      TotalLengthOfMapping(m, index, slots, ids, names, keys[..|keys| - 1]);
    }
  }

  lemma {:induction false} PushesAtLeastOne(index: Index, slots: seq<Slot>, ids: seq<string>)
    requires Consistent(index, slots) && AllWellFormed(ids)
    ensures Pushes(index, slots, ids) >= |ids|
  {
    if ids != [] {
      PushesAtLeastOne(index, slots, ids[..|ids| - 1]);
      TargetsTotal(index, slots, ids[|ids| - 1]);
    }
  }

  /** For a computed mapping, the three super-phase counts add up to the number
      of pushes, which is at least the number of techniques (a technique listed
      under several phases counts once per phase), and some phase is active
      exactly when there is at least one technique. */
  lemma MappingTotals(m: Mapped, index: Index, slots: seq<Slot>, ids: seq<string>, names: map<string, string>)
    requires Consistent(index, slots) && IsMappingOf(m, index, slots, ids, names)
    ensures Covers(m, DeclaredKeys(KillChainStructure))
    ensures var s := ExportedStats(|ids|, m);
      s.inCount + s.throughCount + s.outCount == Pushes(index, slots, ids) >= s.total
    ensures ActivePhases(m, DeclaredKeys(KillChainStructure)) > 0 <==> |ids| > 0
    ensures ActivePhases(m, DeclaredKeys(KillChainStructure)) <= 18
  {
    var keys := DeclaredKeys(KillChainStructure);
    TotalLengthOfMapping(m, index, slots, ids, names, keys);
    ExpectedTotalIsPushes(index, slots, ids, names);
    PushesAtLeastOne(index, slots, ids);
    ActivePhasesZero(m, keys);
    DeclaredPhases();
    if ids == [] {
      PushesEmpty(index, slots);
    }
  }

  lemma PushesEmpty(index: Index, slots: seq<Slot>)
    ensures Pushes(index, slots, []) == 0
  {
  }
}

/** `detectDomain`, `isEnterpriseTechnique` and `guessPhaseFromId`: the ATT&CK
    domain of a technique id and the numeric-range guess of its phase. */
module DomainDetector {
  import opened Chars
  import opened TechniqueIds
  import opened Taxonomy

  datatype Domain = Enterprise | Mobile | Ics

  /** The closed interval `[lo, hi]`, written `n >= lo && n <= hi` in the source. */
  datatype Range = Range(lo: int, hi: int) {
    predicate Contains(n: int) { lo <= n <= hi }
  }

  /** `ranges.some(([min, max]) => numId >= min && numId <= max)`. */
  function AnyContains(ranges: seq<Range>, n: int): (b: bool)
    ensures b <==> exists i | 0 <= i < |ranges| :: ranges[i].Contains(n)
  {
    if ranges == [] then false
    else ranges[0].Contains(n) || AnyContains(ranges[1..], n)
  }

  const EnterpriseRanges: seq<Range> :=
    [Range(1001, 1220), Range(1480, 1500), Range(1530, 1570), Range(1595, 1620)]

  function IsEnterpriseTechnique(n: int): (b: bool)
    ensures b <==> (1001 <= n <= 1220 || 1480 <= n <= 1500 || 1530 <= n <= 1570 || 1595 <= n <= 1620)
  {
    var r := EnterpriseRanges;
    assert AnyContains(r[3..], n) == r[3].Contains(n) by { assert r[3..][1..] == []; }
    assert AnyContains(r[2..], n) == (r[2].Contains(n) || AnyContains(r[3..], n)) by { assert r[2..][1..] == r[3..]; }
    assert AnyContains(r[1..], n) == (r[1].Contains(n) || AnyContains(r[2..], n)) by { assert r[1..][1..] == r[2..]; }
    AnyContains(r, n)
  }

  /** The ICS test: the digit string starts with `0`, or its value is in the 800s. */
  predicate IcsId(id: string)
    requires WellFormedId(id)
  {
    NumericPart(id)[0] == '0' || 800 <= NumericId(id) <= 899
  }

  function DetectDomain(id: string): (d: Domain)
    requires WellFormedId(id)
    ensures d == Ics <==> IcsId(id)
  {
    var n := NumericId(id);
    if IcsId(id) then Ics
    else if 1398 <= n <= 1448 || 1471 <= n <= 1478 || 1507 <= n <= 1533
         || (1575 <= n <= 1665 && !IsEnterpriseTechnique(n)) then Mobile
    else Enterprise
  }

  /** Outside ICS, the mobile numbers are five disjoint intervals: the
      enterprise exclusion cuts `1595..1620` out of `1575..1665`, while it does
      not apply to the other three mobile ranges. */
  lemma MobileIntervals(id: string)
    requires WellFormedId(id) && !IcsId(id)
    ensures var n := NumericId(id);
      DetectDomain(id) == Mobile <==>
        (1398 <= n <= 1448 || 1471 <= n <= 1478 || 1507 <= n <= 1533
         || 1575 <= n <= 1594 || 1621 <= n <= 1665)
  {
  }

  /** A rule of a guess table: `if (baseId >= lo && baseId <= hi) return target`. */
  datatype RangeRule = RangeRule(range: Range, target: PhaseKey)

  function Rule(lo: int, hi: int, sp: SuperPhaseId, phaseId: string): RangeRule {
    RangeRule(Range(lo, hi), PhaseKey(sp, phaseId))
  }

  const IcsRules: seq<RangeRule> := [
    Rule(817, 866, IN, "delivery"),
    Rule(839, 873, IN, "persistence"),
    Rule(840, 888, THROUGH, "discovery"),
    Rule(807, 871, THROUGH, "execution"),
    Rule(812, 886, THROUGH, "lateral-movement"),
    Rule(801, 877, OUT, "collection"),
    Rule(800, 882, OUT, "impact")
  ]

  const MobileRules: seq<RangeRule> := [
    Rule(1474, 1478, IN, "delivery"),
    Rule(1660, 1665, IN, "social-engineering"),
    Rule(1398, 1402, IN, "persistence"),
    Rule(1540, 1541, IN, "persistence"),
    Rule(1418, 1430, THROUGH, "discovery"),
    Rule(1404, 1417, THROUGH, "credential-access"),
    Rule(1429, 1435, OUT, "collection"),
    Rule(1636, 1639, OUT, "exfiltration"),
    Rule(1447, 1472, OUT, "impact")
  ]

  const EnterpriseRules: seq<RangeRule> := [
    Rule(1595, 1598, IN, "reconnaissance"),
    Rule(1583, 1608, IN, "resource-development"),
    Rule(1189, 1199, IN, "exploitation"),
    Rule(1059, 1072, THROUGH, "execution"),
    Rule(1087, 1135, THROUGH, "discovery"),
    Rule(1003, 1056, THROUGH, "credential-access"),
    Rule(1560, 1602, OUT, "collection"),
    Rule(1020, 1052, OUT, "exfiltration"),
    Rule(1485, 1531, OUT, "impact")
  ]

  /** The phase every table falls back to. */
  const DefaultPhase: PhaseKey := PhaseKey(OUT, "objectives")

  function RulesFor(d: Domain): seq<RangeRule> {
    match d
    case Ics => IcsRules
    case Mobile => MobileRules
    case Enterprise => EnterpriseRules
  }

  /** The index of the first rule whose range holds `n`, or `|rules|`. */
  function FirstMatch(rules: seq<RangeRule>, n: int): (i: nat)
    ensures i <= |rules|
    ensures forall j | 0 <= j < i :: !rules[j].range.Contains(n)
    ensures i < |rules| ==> rules[i].range.Contains(n)
  {
    if rules == [] then 0
    else if rules[0].range.Contains(n) then 0
    else 1 + FirstMatch(rules[1..], n)
  }

  /** A rule that holds `n` while no earlier one does is the first match. */
  lemma FirstMatchAt(rules: seq<RangeRule>, n: int, k: nat)
    requires k < |rules| && rules[k].range.Contains(n)
    requires forall j | 0 <= j < k :: !rules[j].range.Contains(n)
    ensures FirstMatch(rules, n) == k
  {
  }

  function GuessPhaseFromId(id: string): (key: PhaseKey)
    requires WellFormedId(id)
    ensures var rules := RulesFor(DetectDomain(id));
      (exists i | 0 <= i < |rules| :: rules[i].range.Contains(NumericId(id)) && key == rules[i].target
         && forall j | 0 <= j < i :: !rules[j].range.Contains(NumericId(id)))
      || (key == DefaultPhase && forall j | 0 <= j < |rules| :: !rules[j].range.Contains(NumericId(id)))
  {
    var rules := RulesFor(DetectDomain(id));
    var i := FirstMatch(rules, NumericId(id));
    if i < |rules| then rules[i].target else DefaultPhase
  }

  /** The phase keys any table can produce. */
  lemma TargetsDeclared()
    ensures DefaultPhase in DeclaredKeys(KillChainStructure)
    ensures forall d: Domain, i | 0 <= i < |RulesFor(d)| ::
      RulesFor(d)[i].target in DeclaredKeys(KillChainStructure)
  {
    DeclaredPhases();
  }

  /** Tier 4 always names a phase of the taxonomy. */
  lemma GuessIsDeclared(id: string)
    requires WellFormedId(id)
    ensures GuessPhaseFromId(id) in DeclaredKeys(KillChainStructure)
  {
    TargetsDeclared();
  }

  /** In the ICS table the lateral-movement rule is shadowed: every number it
      covers is taken by delivery, persistence, discovery or execution first. */
  lemma IcsLateralMovementShadowed(id: string)
    requires WellFormedId(id) && DetectDomain(id) == Ics
    ensures GuessPhaseFromId(id) != PhaseKey(THROUGH, "lateral-movement")
  {
    var n := NumericId(id);
    if 812 <= n <= 886 {
      if n <= 816 {
        assert IcsRules[3].range.Contains(n);
      } else if n <= 866 {
        assert IcsRules[0].range.Contains(n);
      } else if n <= 873 {
        assert IcsRules[1].range.Contains(n);
      } else {
        assert IcsRules[2].range.Contains(n);
      }
    }
  }

  /** In the mobile table the second persistence rule `1540..1541` never fires:
      those numbers are not mobile. */
  lemma MobilePersistenceRange(id: string)
    requires WellFormedId(id) && DetectDomain(id) == Mobile
    ensures GuessPhaseFromId(id) == PhaseKey(IN, "persistence") <==> 1398 <= NumericId(id) <= 1402
  {
    MobileIntervals(id);
    MobilePersistenceNumbers(NumericId(id));
  }

  lemma MobilePersistenceNumbers(n: int)
    requires 1398 <= n <= 1448 || 1471 <= n <= 1478 || 1507 <= n <= 1533 || 1575 <= n <= 1594 || 1621 <= n <= 1665
    ensures var i := FirstMatch(MobileRules, n);
      (i < |MobileRules| && MobileRules[i].target == PhaseKey(IN, "persistence")) <==> 1398 <= n <= 1402
  {
    var i := FirstMatch(MobileRules, n);
    if 1398 <= n <= 1402 {
      FirstMatchAt(MobileRules, n, 2);
    } else {
      assert !MobileRules[2].range.Contains(n) && !MobileRules[3].range.Contains(n);
      assert i != 2 && i != 3;
    }
  }

  /** In the enterprise domain resource development is guessed only for
      `1599..1608`: `1583..1594` is mobile and `1595..1598` is reconnaissance. */
  lemma EnterpriseResourceDevelopmentRange(id: string)
    requires WellFormedId(id) && DetectDomain(id) == Enterprise
    ensures GuessPhaseFromId(id) == PhaseKey(IN, "resource-development") <==> 1599 <= NumericId(id) <= 1608
  {
    var n := NumericId(id);
    if 1599 <= n <= 1608 {
      FirstMatchAt(EnterpriseRules, n, 1);
    }
  }

  /** `T0840` is ICS and guessed as delivery by the first ICS rule, although
      the discovery rule's range holds 840 as well. */
  lemma GuessIcsT0840()
    ensures WellFormedId("T0840")
    ensures NumericId("T0840") == 840
    ensures DetectDomain("T0840") == Ics
    ensures IcsRules[2].range.Contains(840) && IcsRules[2].target == PhaseKey(THROUGH, "discovery")
    ensures GuessPhaseFromId("T0840") == PhaseKey(IN, "delivery")
  {
    var id := "T0840";
    assert FirstIndex(id, '.') == 5;
    assert BaseId(id) == id;
    assert NumericPart(id) == "0840";
    var d := "0840";
    assert d[..3] == "084" && d[..3][..2] == "08" && d[..3][..2][..1] == "0" && d[..3][..2][..1][..0] == "";
    assert DecimalValue("") == 0;
    assert DecimalValue("0") == 0;
    assert DecimalValue("08") == 8;
    assert DecimalValue("084") == 84;
    assert DecimalValue(d) == 840;
    FirstMatchAt(IcsRules, 840, 0);
  }

  /** A sub-technique takes its parent's domain: the digits after the dot are
      not read. */
  lemma DomainOfSubTechnique(id: string, sub: string)
    requires WellFormedId(id) && '.' !in id
    ensures WellFormedId(id + "." + sub)
    ensures NumericId(id + "." + sub) == NumericId(id)
    ensures DetectDomain(id + "." + sub) == DetectDomain(id)
    ensures GuessPhaseFromId(id + "." + sub) == GuessPhaseFromId(id)
  {
    var t := id + "." + sub;
    FirstIndexPrefix(id, "." + sub, '.');
    assert t == id + ("." + sub);
    assert BaseId(t) == BaseId(id);
  }
}

/** The Unified Kill Chain taxonomy of the visualizer: three super-phases,
    each an ordered list of phases, each phase an ordered list of technique-id
    patterns (kill-chain-visualizer.js, the structure the constructor builds). */
module Taxonomy {
  import opened Chars

  datatype SuperPhaseId = IN | THROUGH | OUT

  /** Every pattern the taxonomy declares is `T` followed by four digits. A
      pattern is stored as the number those digits spell (`T0817` as 817) and
      turned back into its text by `PatternText`. */
  type PatternCode = n: nat | n < 10000

  function Digit(d: nat): (c: char)
    requires d < 10
    ensures IsDigit(c) && c as int - '0' as int == d
  {
    ('0' as int + d) as char
  }

  /** The pattern's text: `T` and four digits, with leading zeros. */
  function PatternText(code: PatternCode): (s: string)
    ensures |s| == 5 && s[0] == 'T' && AllDigits(s[1..])
  {
    ['T', Digit(code / 1000), Digit(code / 100 % 10), Digit(code / 10 % 10), Digit(code % 10)]
  }

  /** The digits of a pattern's text spell its code, so distinct codes have
      distinct texts. */
  lemma PatternTextValue(code: PatternCode)
    ensures DecimalValue(PatternText(code)[1..]) == code
  {
    var s := PatternText(code)[1..];
    assert s[..1][..0] == [] && s[..2][..1] == s[..1] && s[..3][..2] == s[..2] && s[..4][..3] == s[..3];
    assert DecimalValue(s[..1]) == code / 1000;
    assert DecimalValue(s[..2]) == 10 * (code / 1000) + code / 100 % 10 == code / 100;
    assert DecimalValue(s[..3]) == 10 * (code / 100) + code / 10 % 10 == code / 10;
    assert DecimalValue(s[..4]) == 10 * (code / 10) + code % 10 == code;
    assert s[..4] == s;
  }

  lemma PatternTextInjective(a: PatternCode, b: PatternCode)
    requires PatternText(a) == PatternText(b)
    ensures a == b
  {
    PatternTextValue(a);
    PatternTextValue(b);
  }

  datatype Phase = Phase(id: string, name: string, description: string, tactics: seq<string>,
                        patterns: seq<PatternCode>)

  datatype SuperPhase = SuperPhase(id: SuperPhaseId, name: string, description: string,
                                  phases: seq<Phase>)

  /** A phase as the classifier's result addresses it: `mapped[superPhase][phaseId]`. */
  datatype PhaseKey = PhaseKey(superPhase: SuperPhaseId, phaseId: string)

  const Reconnaissance: Phase := Phase(
    "reconnaissance", "Reconnaissance", "Gathering information about the target",
    ["reconnaissance"],
    [1595, 1592, 1589, 1590, 1591, 1598, 1597, 1596, 1593, 1594])

  const ResourceDevelopment: Phase := Phase(
    "resource-development", "Resource Development", "Establishing resources to support operations",
    ["resource-development"],
    [1583, 1586, 1584, 1587, 1585, 1588, 1608])

  const Delivery: Phase := Phase(
    "delivery", "Delivery", "Delivering the payload to the target",
    ["initial-access"],
    [1566, 1189, 1195, 1091, 1474, 1475, 1476, 1477, 1478, 817, 819, 822, 847, 848, 860, 864,
     865, 862, 866])

  const SocialEngineering: Phase := Phase(
    "social-engineering", "Social Engineering", "Manipulating users to gain access",
    ["initial-access"],
    [1566, 1598, 1204, 1660, 1661, 1662, 1664, 1665])

  const Exploitation: Phase := Phase(
    "exploitation", "Exploitation", "Exploiting vulnerabilities for initial access",
    ["initial-access", "execution"],
    [1190, 1203, 1189, 1456, 1458, 1664, 866, 820, 890])

  const Persistence: Phase := Phase(
    "persistence", "Persistence", "Maintaining access to the compromised system",
    ["persistence"],
    [1098, 1197, 1547, 1037, 1176, 1554, 1136, 1543, 1546, 1574, 1525, 1556, 1137, 1542, 1053, 1505,
     1205, 1398, 1400, 1402, 1540, 1541, 1577, 1624, 1625, 1626, 1645, 839, 873, 857, 859])

  const DefenseEvasion: Phase := Phase(
    "defense-evasion", "Defense Evasion", "Avoiding detection",
    ["defense-evasion"],
    [1548, 1134, 1197, 1140, 1610, 1006, 1484, 1480, 1211, 1222, 1564, 1574, 1562, 1070, 1202, 1036,
     1556, 1578, 1112, 1601, 1599, 1027, 1542, 1055, 1207, 1014, 1218, 1216, 1221, 1205, 1127, 1535,
     1550, 1078, 1497, 1600, 1220, 1407, 1406, 1418, 1420, 1422, 1444, 1447, 1508, 1516, 1523, 1575,
     1576, 1617, 1628, 1629, 1630, 1631, 1632, 1633, 1634, 1644, 1646, 1648, 820, 849, 851, 856,
     858, 872])

  const CommandControl: Phase := Phase(
    "command-control", "Command & Control", "Establishing communication with compromised systems",
    ["command-and-control"],
    [1071, 1092, 1132, 1001, 1568, 1573, 1008, 1105, 1104, 1095, 1571, 1572, 1090, 1219, 1205, 1102,
     1437, 1438, 1436, 1509, 1481, 1544, 1577, 1616, 1637, 1646, 869, 884, 885])

  const Pivoting: Phase := Phase(
    "pivoting", "Pivoting", "Using compromised systems to access other systems",
    ["lateral-movement"],
    [1021, 1563, 1090, 886, 859])

  const Discovery: Phase := Phase(
    "discovery", "Discovery", "Understanding the network environment",
    ["discovery"],
    [1087, 1010, 1217, 1580, 1538, 1526, 1613, 1482, 1083, 1615, 1046, 1135, 1040, 1201, 1120, 1069,
     1057, 1012, 1018, 1518, 1082, 1614, 1016, 1049, 1033, 1007, 1124, 1497, 1418, 1420, 1421, 1422,
     1423, 1424, 1426, 1430, 1507, 1523, 1617, 1652, 840, 842, 846, 854, 887, 888])

  const PrivilegeEscalation: Phase := Phase(
    "privilege-escalation", "Privilege Escalation", "Gaining higher privileges",
    ["privilege-escalation"],
    [1548, 1134, 1547, 1484, 1611, 1068, 1574, 1055, 1404, 1626, 1631])

  const Execution: Phase := Phase(
    "execution", "Execution", "Running malicious code",
    ["execution"],
    [1059, 1609, 1610, 1203, 1559, 1106, 1053, 1129, 1072, 1569, 1204, 1047, 1575, 1623, 1624, 1658,
     807, 823, 834, 853, 858, 863, 871])

  const CredentialAccess: Phase := Phase(
    "credential-access", "Credential Access", "Stealing credentials",
    ["credential-access"],
    [1557, 1110, 1555, 1212, 1187, 1606, 1056, 1556, 1111, 1621, 1040, 1003, 1528, 1558, 1539, 1552,
     1409, 1411, 1414, 1417, 1439, 1517, 1634, 1635, 859, 891])

  const LateralMovement: Phase := Phase(
    "lateral-movement", "Lateral Movement", "Moving to other systems",
    ["lateral-movement"],
    [1210, 1534, 1570, 1563, 1021, 1091, 1072, 1080, 1550, 1427, 1428, 812, 866, 886, 859, 843])

  const Collection: Phase := Phase(
    "collection", "Collection", "Gathering target data",
    ["collection"],
    [1560, 1123, 1119, 1185, 1115, 1530, 1602, 1213, 1005, 1039, 1025, 1074, 1114, 1056, 1113, 1125,
     1429, 1430, 1432, 1433, 1435, 1507, 1512, 1513, 1517, 1533, 1636, 1638, 801, 802, 811, 845,
     861, 868, 877, 887])

  const Exfiltration: Phase := Phase(
    "exfiltration", "Exfiltration", "Stealing data from the network",
    ["exfiltration"],
    [1020, 1030, 1048, 1041, 1011, 1052, 1567, 1029, 1537, 1438, 1437, 1639])

  const Impact: Phase := Phase(
    "impact", "Impact", "Disrupting, destroying, or manipulating systems",
    ["impact"],
    [1531, 1485, 1486, 1565, 1491, 1561, 1499, 1495, 1490, 1498, 1496, 1489, 1529, 1447, 1448, 1449,
     1471, 1472, 1476, 1510, 1516, 1582, 1616, 1640, 1641, 1642, 1643, 800, 806, 813, 814, 815,
     816, 826, 827, 828, 829, 830, 831, 832, 835, 836, 837, 838, 879, 880, 881, 882])

  const Objectives: Phase := Phase(
    "objectives", "Objectives", "Final goals of the attack",
    ["impact", "exfiltration", "collection"],
    [])

  /** The structure in declaration order: IN, THROUGH, OUT. */
  const KillChainStructure: seq<SuperPhase> := [
    SuperPhase(IN, "Initial Foothold", "Getting into the network",
     [Reconnaissance, ResourceDevelopment, Delivery, SocialEngineering, Exploitation, Persistence, DefenseEvasion, CommandControl]),
    SuperPhase(THROUGH, "Network Propagation", "Moving through the network",
     [Pivoting, Discovery, PrivilegeEscalation, Execution, CredentialAccess, LateralMovement]),
    SuperPhase(OUT, "Action on Objectives", "Achieving the attack goals",
     [Collection, Exfiltration, Impact, Objectives])
  ]

  /** The keys of all declared phases, in declaration order. */
  function DeclaredKeys(structure: seq<SuperPhase>): (keys: seq<PhaseKey>)
  {
    if structure == [] then []
    else DeclaredKeys(structure[..|structure| - 1]) + SuperPhaseKeys(structure[|structure| - 1])
  }

  function SuperPhaseKeys(sp: SuperPhase): (keys: seq<PhaseKey>)
    ensures |keys| == |sp.phases|
    ensures forall i | 0 <= i < |keys| :: keys[i] == PhaseKey(sp.id, sp.phases[i].id)
  {
    seq(|sp.phases|, i requires 0 <= i < |sp.phases| => PhaseKey(sp.id, sp.phases[i].id))
  }

  /** The eighteen phases, in the order the structure declares them. */
  lemma DeclaredPhases()
    ensures DeclaredKeys(KillChainStructure) == [
      PhaseKey(IN, "reconnaissance"), PhaseKey(IN, "resource-development"), PhaseKey(IN, "delivery"),
      PhaseKey(IN, "social-engineering"), PhaseKey(IN, "exploitation"), PhaseKey(IN, "persistence"),
      PhaseKey(IN, "defense-evasion"), PhaseKey(IN, "command-control"),
      PhaseKey(THROUGH, "pivoting"), PhaseKey(THROUGH, "discovery"), PhaseKey(THROUGH, "privilege-escalation"),
      PhaseKey(THROUGH, "execution"), PhaseKey(THROUGH, "credential-access"), PhaseKey(THROUGH, "lateral-movement"),
      PhaseKey(OUT, "collection"), PhaseKey(OUT, "exfiltration"), PhaseKey(OUT, "impact"), PhaseKey(OUT, "objectives")]
  {
    var s := KillChainStructure;
    assert s[..3] == s && s[..3][..2] == s[..2] && s[..2][..1] == s[..1] && s[..1][..0] == [];
    assert DeclaredKeys(s[..1]) == SuperPhaseKeys(s[0]);
    assert DeclaredKeys(s[..2]) == SuperPhaseKeys(s[0]) + SuperPhaseKeys(s[1]);
  }
}

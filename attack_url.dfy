/** `getMitreAttackUrl`: the reference URL of a technique on the ATT&CK site. */
module AttackUrl {
  import opened Wrappers
  import opened Chars
  import opened TechniqueIds
  import opened DomainDetector

  /** `s.padStart(n, c)`: `c` repeated in front of `s` up to length `n`. */
  function PadStart(s: string, n: nat, c: char): (r: string)
    ensures |r| == if |s| >= n then |s| else n
    ensures r[|r| - |s|..] == s
    ensures forall i | 0 <= i < |r| - |s| :: r[i] == c
  {
    if |s| >= n then s else [c] + PadStart(s, n - 1, c)
  }

  /** The `domainPaths` table. */
  function DomainPath(d: Domain): string {
    match d
    case Enterprise => "techniques"
    case Mobile => "techniques/mobile"
    case Ics => "techniques/ics"
  }

  const SiteRoot: string := "https://attack.mitre.org/"

  function GetMitreAttackUrl(id: string): (url: string)
    requires WellFormedId(id)
  {
    var base := BaseId(id);
    var url := SiteRoot + DomainPath(DetectDomain(id)) + "/" + base + "/";
    match SubId(id)
    case Some(sub) => if sub != "" then url + PadStart(sub, 3, '0') + "/" else url
    case None => url
  }

  /** `segs` joined with the separator `c`. */
  function Join(segs: seq<string>, c: char): string {
    if |segs| <= 1 then (if segs == [] then "" else segs[0])
    else segs[0] + [c] + Join(segs[1..], c)
  }

  /** `s.split(c)`. */
  function Split(s: string, c: char): (segs: seq<string>)
    ensures |segs| >= 1
    ensures forall i | 0 <= i < |segs| :: c !in segs[i]
    decreases |s|
  {
    var i := FirstIndex(s, c);
    if i == |s| then [s] else [s[..i]] + Split(s[i + 1..], c)
  }

  /** Splitting at the first separator. */
  lemma SplitCons(a: string, b: string, c: char)
    requires c !in a
    ensures Split(a + [c] + b, c) == [a] + Split(b, c)
  {
    var s := a + [c] + b;
    assert s == a + ([c] + b);
    FirstIndexPrefix(a, [c] + b, c);
    assert s[..|a|] == a;
    assert s[|a| + 1..] == b;
  }

  /** Splitting undoes joining, as long as no segment holds the separator. */
  lemma {:induction false} SplitJoin(segs: seq<string>, c: char)
    requires |segs| >= 1 && forall i | 0 <= i < |segs| :: c !in segs[i]
    ensures Split(Join(segs, c), c) == segs
    decreases |segs|
  {
    if |segs| > 1 {
      SplitCons(segs[0], Join(segs[1..], c), c);
      SplitJoin(segs[1..], c);
    } else {
      assert FirstIndex(segs[0], c) == |segs[0]|;
    }
  }

  /** Joining two non-empty lists puts one separator between their joins. */
  lemma {:induction false} JoinAppend(a: seq<string>, b: seq<string>, c: char)
    requires |a| >= 1 && |b| >= 1
    ensures Join(a + b, c) == Join(a, c) + [c] + Join(b, c)
    decreases |a|
  {
    if |a| > 1 {
      assert (a + b)[1..] == a[1..] + b;
      JoinAppend(a[1..], b, c);
    } else {
      assert (a + b)[1..] == b;
    }
  }

  /** The path segments of the domain. */
  function DomainSegments(d: Domain): (segs: seq<string>)
    ensures |segs| >= 1 && Join(segs, '/') == DomainPath(d)
  {
    match d
    case Enterprise => ["techniques"]
    case Mobile =>
      assert Join(["techniques", "mobile"], '/') == "techniques" + "/" + Join(["mobile"], '/');
      ["techniques", "mobile"]
    case Ics =>
      assert Join(["techniques", "ics"], '/') == "techniques" + "/" + Join(["ics"], '/');
      ["techniques", "ics"]
  }

  /** The zero-padded sub-id segment, when the id has a non-empty sub-id. */
  function SubSegments(id: string): seq<string> {
    match SubId(id)
    case Some(sub) => if sub != "" then [PadStart(sub, 3, '0')] else []
    case None => []
  }

  /** The segments of the URL: scheme, empty segment, host, the domain path,
      the base id, the padded sub-id, and the empty segment after the closing `/`. */
  function UrlSegments(id: string): seq<string>
    requires WellFormedId(id)
  {
    HostSegments + DomainSegments(DetectDomain(id)) + ([BaseId(id)] + SubSegments(id) + [""])
  }

  const HostSegments: seq<string> := ["https:", "", "attack.mitre.org"]

  lemma HostJoin()
    ensures Join(HostSegments, '/') + "/" == SiteRoot
  {
    var host := HostSegments;
    assert Join(host, '/') == "https:" + "/" + Join(host[1..], '/');
    assert host[1..] == ["", "attack.mitre.org"];
    assert Join(["", "attack.mitre.org"], '/') == "" + "/" + Join(["attack.mitre.org"], '/');
  }

  /** The URL template, written over segments. */
  lemma TemplateIsJoin(path: seq<string>, base: string, tail: seq<string>)
    requires |path| >= 1 && |tail| <= 1
    ensures SiteRoot + Join(path, '/') + "/" + base + "/" + (if tail == [] then "" else tail[0] + "/")
         == Join(HostSegments + path + ([base] + tail + [""]), '/')
  {
    var rest := [base] + tail + [""];
    HostJoin();
    if tail == [] {
      assert rest == [base] + [""];
      JoinAppend([base], [""], '/');
    } else {
      assert rest == [base] + (tail + [""]);
      JoinAppend([base], tail + [""], '/');
      JoinAppend(tail, [""], '/');
    }
    JoinAppend(HostSegments, path, '/');
    JoinAppend(HostSegments + path, rest, '/');
  }

  /** The URL is those segments joined by `/`. */
  lemma UrlIsJoin(id: string)
    requires WellFormedId(id)
    ensures GetMitreAttackUrl(id) == Join(UrlSegments(id), '/')
  {
    var path := DomainSegments(DetectDomain(id));
    var tail := SubSegments(id);
    TemplateIsJoin(path, BaseId(id), tail);
  }

  predicate NoSeparator(segs: seq<string>, c: char) {
    forall i | 0 <= i < |segs| :: c !in segs[i]
  }

  lemma NoSeparatorAppend(a: seq<string>, b: seq<string>, c: char)
    requires NoSeparator(a, c) && NoSeparator(b, c)
    ensures NoSeparator(a + b, c)
  {
    forall i | 0 <= i < |a + b|
      ensures c !in (a + b)[i]
    {
      if i >= |a| {
        assert (a + b)[i] == b[i - |a|];
      } else {
        assert (a + b)[i] == a[i];
      }
    }
  }

  lemma FixedSegmentsNoSlash(d: Domain)
    ensures NoSeparator(HostSegments, '/') && NoSeparator(DomainSegments(d), '/')
  {
  }

  lemma BaseNoSlash(id: string)
    requires WellFormedId(id)
    ensures '/' !in BaseId(id)
  {
    var base := BaseId(id);
    assert forall k | 1 <= k < |base| :: base[k] == base[1..][k - 1];
  }

  lemma PadNoSlash(sub: string)
    requires AllDigits(sub)
    ensures '/' !in PadStart(sub, 3, '0')
  {
    var p := PadStart(sub, 3, '0');
    assert forall k | |p| - |sub| <= k < |p| :: p[k] == p[|p| - |sub|..][k - (|p| - |sub|)];
  }

  /** No segment of the URL holds a `/`. */
  lemma UrlSegmentsNoSlash(id: string)
    requires WellFormedId(id)
    requires SubId(id).Some? ==> AllDigits(SubId(id).value)
    ensures NoSeparator(UrlSegments(id), '/')
  {
    var base := BaseId(id);
    BaseNoSlash(id);
    var tail := SubSegments(id);
    if tail != [] {
      PadNoSlash(SubId(id).value);
      assert tail == [PadStart(SubId(id).value, 3, '0')];
    }
    TailNoSlash(base, tail);
    var path := DomainSegments(DetectDomain(id));
    FixedSegmentsNoSlash(DetectDomain(id));
    NoSeparatorAppend(HostSegments, path, '/');
    NoSeparatorAppend(HostSegments + path, [base] + tail + [""], '/');
  }

  lemma TailNoSlash(base: string, tail: seq<string>)
    requires '/' !in base && NoSeparator(tail, '/')
    ensures NoSeparator([base] + tail + [""], '/')
  {
    NoSeparatorAppend([base], tail, '/');
    NoSeparatorAppend([base] + tail, [""], '/');
  }

  /** Reading the URL back by `/`: the domain path, the base id and the
      zero-padded sub-id, when the sub-id is made of digits. */
  lemma UrlRoundTrip(id: string)
    requires WellFormedId(id)
    requires SubId(id).Some? ==> AllDigits(SubId(id).value)
    ensures Split(GetMitreAttackUrl(id), '/') == UrlSegments(id)
  {
    UrlIsJoin(id);
    UrlSegmentsNoSlash(id);
    SplitJoin(UrlSegments(id), '/');
  }

  lemma SubTechniqueParts()
    ensures BaseId("T1566.002") == "T1566" && SubId("T1566.002") == Some("002")
  {
    assert FirstIndex("T1566.002", '.') == 5;
    assert FirstIndex("002", '.') == 3;
    assert "T1566.002"[6..] == "002" && "002"[..3] == "002";
  }

  lemma ShortSubTechniqueParts()
    ensures BaseId("T1566.2") == "T1566" && SubId("T1566.2") == Some("2")
  {
    assert FirstIndex("T1566.2", '.') == 5;
    assert FirstIndex("2", '.') == 1;
    assert "T1566.2"[6..] == "2" && "2"[..1] == "2";
  }

  lemma SubTechniqueDomain()
    ensures WellFormedId("T1566.002") && DetectDomain("T1566.002") == Enterprise
  {
    SubTechniqueParts();
    assert NumericPart("T1566.002") == "1566";
    DecimalExample("1566", 1566);
  }

  /** The URL template with the pieces of an enterprise sub-technique. */
  lemma EnterpriseSubUrl(id: string, base: string, padded: string)
    requires WellFormedId(id) && DetectDomain(id) == Enterprise
    requires BaseId(id) == base && SubId(id).Some? && SubId(id).value != "" && PadStart(SubId(id).value, 3, '0') == padded
    ensures GetMitreAttackUrl(id) == SiteRoot + "techniques" + "/" + base + "/" + padded + "/"
  {
  }

  lemma SubTechniqueText()
    ensures SiteRoot + "techniques" + "/" + "T1566" + "/" + "002" + "/" == "https://attack.mitre.org/techniques/T1566/002/"
  {
  }

  /** A sub-technique URL, with the sub-id as given. */
  lemma UrlExampleSubTechnique()
    ensures WellFormedId("T1566.002") && GetMitreAttackUrl("T1566.002") == "https://attack.mitre.org/techniques/T1566/002/"
  {
    SubTechniqueParts();
    SubTechniqueDomain();
    assert PadStart("002", 3, '0') == "002";
    EnterpriseSubUrl("T1566.002", "T1566", "002");
    SubTechniqueText();
  }

  lemma PaddedDomain()
    ensures WellFormedId("T1566.2") && DetectDomain("T1566.2") == Enterprise
  {
    ShortSubTechniqueParts();
    assert NumericPart("T1566.2") == "1566";
    DecimalExample("1566", 1566);
  }

  /** A short sub-id is padded with zeros to three digits. */
  lemma UrlExamplePadded()
    ensures WellFormedId("T1566.2") && GetMitreAttackUrl("T1566.2") == "https://attack.mitre.org/techniques/T1566/002/"
  {
    ShortSubTechniqueParts();
    PaddedDomain();
    PadExample();
    EnterpriseSubUrl("T1566.2", "T1566", "002");
    SubTechniqueText();
  }

  lemma PadExample()
    ensures PadStart("2", 3, '0') == "002"
  {
    assert PadStart("2", 1, '0') == "2";
    assert PadStart("2", 2, '0') == "02";
  }

  lemma IcsParts()
    ensures WellFormedId("T0800") && BaseId("T0800") == "T0800" && SubId("T0800") == None
  {
    assert FirstIndex("T0800", '.') == 5;
  }

  lemma IcsDomain()
    ensures WellFormedId("T0800") && DetectDomain("T0800") == Ics
  {
    IcsParts();
    assert NumericPart("T0800") == "0800";
  }

  lemma IcsUrl()
    ensures WellFormedId("T0800") && GetMitreAttackUrl("T0800") == SiteRoot + "techniques/ics" + "/" + "T0800" + "/"
  {
    IcsParts();
    IcsDomain();
  }

  lemma IcsText()
    ensures SiteRoot + "techniques/ics" + "/" + "T0800" + "/" == "https://attack.mitre.org/techniques/ics/T0800/"
  {
  }

  lemma UrlExampleIcs()
    ensures WellFormedId("T0800") && GetMitreAttackUrl("T0800") == "https://attack.mitre.org/techniques/ics/T0800/"
  {
    IcsUrl();
    IcsText();
  }

  lemma DecimalExample(s: string, v: nat)
    requires s == "1566" && v == 1566
    ensures AllDigits(s) && DecimalValue(s) == v
  {
    assert s[..3] == "156" && s[..3][..2] == "15" && s[..3][..2][..1] == "1" && s[..3][..2][..1][..0] == "";
    assert DecimalValue("1") == 1;
    assert DecimalValue("15") == 15;
    assert DecimalValue("156") == 156;
  }
}

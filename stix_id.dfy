/** The STIX Identifier common data type (section 2 "Common Data Types" of
    the OASIS STIX Version 2.1 standard) as the builder's `STIX_ID_PATTERN`
    accepts it: an object type, two hyphens and a lower-case UUID. */
module StixId {
  import opened Chars

  /** `[a-z0-9-]` */
  predicate IsTypeChar(c: char) {
    IsLowerLetter(c) || IsDigit(c) || c == '-'
  }

  /** `[a-z][a-z0-9-]*` */
  predicate IsObjectType(s: string) {
    |s| >= 1 && IsLowerLetter(s[0]) && forall i | 1 <= i < |s| :: IsTypeChar(s[i])
  }

  /** `[0-9a-f]{n}` */
  predicate IsHexRun(s: string, n: nat) {
    |s| == n && forall i | 0 <= i < |s| :: IsLowerHex(s[i])
  }

  /** `[0-9a-f]{8}-[0-9a-f]{4}-[0-9a-f]{4}-[0-9a-f]{4}-[0-9a-f]{12}`: every part
      has a fixed length, so the parts sit at fixed offsets. */
  predicate IsUuid(s: string) {
    |s| == 36
    && IsHexRun(s[..8], 8) && s[8] == '-'
    && IsHexRun(s[9..13], 4) && s[13] == '-'
    && IsHexRun(s[14..18], 4) && s[18] == '-'
    && IsHexRun(s[19..23], 4) && s[23] == '-'
    && IsHexRun(s[24..], 12)
  }

  /** The regular expression read as a language: the string splits into a
      part matching the type, the literal `--` and a part matching the UUID,
      and `^`/`$` anchor the whole string. */
  ghost predicate MatchesIdPattern(s: string) {
    exists k :: 0 <= k <= |s| - 2 && IsObjectType(s[..k]) && s[k..k + 2] == "--" && IsUuid(s[k + 2..])
  }

  /** The closed form of the pattern: the UUID part has a fixed length of 36,
      so the only split that can succeed leaves the last 38 characters for
      `--` and the UUID. */
  predicate MatchesAtEnd(s: string) {
    |s| >= 39 && IsObjectType(s[..|s| - 38]) && s[|s| - 38..|s| - 36] == "--" && IsUuid(s[|s| - 36..])
  }

  lemma MatchesAtEndSound(s: string)
    ensures MatchesAtEnd(s) <==> MatchesIdPattern(s)
  {
    if MatchesAtEnd(s) {
      var k := |s| - 38;
      assert IsObjectType(s[..k]) && s[k..k + 2] == "--" && IsUuid(s[k + 2..]);
    }
    if MatchesIdPattern(s) {
      var k :| 0 <= k <= |s| - 2 && IsObjectType(s[..k]) && s[k..k + 2] == "--" && IsUuid(s[k + 2..]);
      assert k == |s| - 38;
    }
  }

  /** `STIX_ID_PATTERN.test(s)`; the type may itself contain `--`. */
  function IsStixIdentifier(s: string): (b: bool)
    ensures b <==> MatchesIdPattern(s)
  {
    MatchesAtEndSound(s);
    MatchesAtEnd(s)
  }

  /** The object type of an identifier: everything before the final 38
      characters. */
  function ObjectTypeOf(s: string): (t: string)
    requires IsStixIdentifier(s)
    ensures IsObjectType(t)
    ensures s == t + "--" + s[|s| - 36..]
    ensures IsUuid(s[|s| - 36..])
  {
    s[..|s| - 38]
  }

  /** Joining a type and a UUID with `--` gives an identifier whose type is
      given back. */
  lemma IdentifierRoundTrip(t: string, uuid: string)
    requires IsObjectType(t) && IsUuid(uuid)
    ensures IsStixIdentifier(t + "--" + uuid)
    ensures ObjectTypeOf(t + "--" + uuid) == t
  {
    var s := t + "--" + uuid;
    assert s[..|t|] == t;
    assert s[|t|..|t| + 2] == "--";
    assert s[|t| + 2..] == uuid;
    assert MatchesIdPattern(s);
  }

  /** A UUID is five hex runs joined by hyphens. */
  lemma UuidOfGroups(g1: string, g2: string, g3: string, g4: string, g5: string)
    requires |g1| == 8 && |g2| == 4 && |g3| == 4 && |g4| == 4 && |g5| == 12
    ensures IsUuid(g1 + "-" + g2 + "-" + g3 + "-" + g4 + "-" + g5) <==>
              IsHexRun(g1, 8) && IsHexRun(g2, 4) && IsHexRun(g3, 4) && IsHexRun(g4, 4) && IsHexRun(g5, 12)
  {
    var u := g1 + "-" + g2 + "-" + g3 + "-" + g4 + "-" + g5;
    assert u[..8] == g1;
    assert u[9..13] == g2;
    assert u[14..18] == g3;
    assert u[19..23] == g4;
    assert u[24..] == g5;
  }

  /** An identifier splits into its type and its UUID. */
  lemma IdentifierParts(t: string, uuid: string)
    requires |uuid| == 36
    ensures IsStixIdentifier(t + "--" + uuid) <==> IsObjectType(t) && IsUuid(uuid)
  {
    var s := t + "--" + uuid;
    if IsStixIdentifier(s) {
      assert s[..|s| - 38] == t;
      assert s[|s| - 36..] == uuid;
    } else if IsObjectType(t) && IsUuid(uuid) {
      IdentifierRoundTrip(t, uuid);
    }
  }

  /** A sample UUID, built from its five groups. */
  const SampleUuid: string := "0c7b5b88" + "-" + "8ff7" + "-" + "4a4d" + "-" + "aa9d" + "-" + "feb398cd0061"

  lemma SampleGroupsHex()
    ensures IsHexRun("0c7b5b88", 8) && IsHexRun("8ff7", 4) && IsHexRun("4a4d", 4)
    ensures IsHexRun("aa9d", 4) && IsHexRun("feb398cd0061", 12)
  {
  }

  lemma SampleUuidValid()
    ensures |SampleUuid| == 36 && IsUuid(SampleUuid)
  {
    SampleGroupsHex();
    UuidOfGroups("0c7b5b88", "8ff7", "4a4d", "aa9d", "feb398cd0061");
  }

  /** A typical ATT&CK identifier is accepted. */
  lemma AttackPatternAccepted()
    ensures IsStixIdentifier("attack-pattern" + "--" + SampleUuid)
  {
    SampleUuidValid();
    assert IsObjectType("attack-pattern");
    IdentifierRoundTrip("attack-pattern", SampleUuid);
  }

  /** The type part may contain a double hyphen: `a--b--<uuid>` is accepted
      with type `a--b`. */
  lemma DoubleHyphenInType()
    ensures IsStixIdentifier("a--b" + "--" + SampleUuid)
    ensures ObjectTypeOf("a--b" + "--" + SampleUuid) == "a--b"
  {
    SampleUuidValid();
    assert IsObjectType("a--b");
    IdentifierRoundTrip("a--b", SampleUuid);
  }

  /** The sample UUID with its first group in upper case. */
  const UpperCaseUuid: string := "0C7B5B88" + "-" + "8ff7" + "-" + "4a4d" + "-" + "aa9d" + "-" + "feb398cd0061"

  lemma UpperCaseUuidInvalid()
    ensures |UpperCaseUuid| == 36 && !IsUuid(UpperCaseUuid)
  {
    assert !IsHexRun("0C7B5B88", 8) by {
      assert !IsLowerHex("0C7B5B88"[1]);
    }
    UuidOfGroups("0C7B5B88", "8ff7", "4a4d", "aa9d", "feb398cd0061");
  }

  /** An upper-case hex digit is refused. */
  lemma UpperCaseRefused()
    ensures !IsStixIdentifier("attack-pattern" + "--" + UpperCaseUuid)
  {
    UpperCaseUuidInvalid();
    IdentifierParts("attack-pattern", UpperCaseUuid);
  }

  /** A type must start with a letter. */
  lemma DigitTypeRefused()
    ensures !IsStixIdentifier("1x" + "--" + SampleUuid)
  {
    assert !IsObjectType("1x");
    IdentifierParts("1x", SampleUuid);
  }
}

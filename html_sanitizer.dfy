/** scripts/sanitize-json.py: `strip_html_tags`, three regular-expression
    substitutions followed by escaping of the remaining angle brackets, and
    `sanitize_value`, which applies it to every string of a JSON value.
    Each `re.sub` pass is written as the left-to-right scan Python performs:
    try to match at the current position, replace and jump past a match, or
    copy one character and move on. For each pattern the match at a position,
    if any, is unique (no backtracking choice can change it), so each is a
    function of the remaining text. */
module HtmlSanitizer {
  import opened Wrappers
  import opened Seqs
  import opened Chars

  /** The end of the run of word characters starting at `i`. */
  function WordEnd(s: string, i: nat): (e: nat)
    requires i <= |s|
    ensures i <= e <= |s|
    ensures forall k | i <= k < e :: IsWordChar(s[k])
    ensures e < |s| ==> !IsWordChar(s[e])
    decreases |s| - i
  {
    if i < |s| && IsWordChar(s[i]) then WordEnd(s, i + 1) else i
  }

  /** The end of the run of whitespace starting at `i`. */
  function SpaceEnd(s: string, i: nat): (e: nat)
    requires i <= |s|
    ensures i <= e <= |s|
    ensures forall k | i <= k < e :: IsSpace(s[k])
    ensures e < |s| ==> !IsSpace(s[e])
    decreases |s| - i
  {
    if i < |s| && IsSpace(s[i]) then SpaceEnd(s, i + 1) else i
  }

  /** The first position at or after `i` holding `c`. */
  function IndexFrom(s: string, i: nat, c: char): (r: Option<nat>)
    requires i <= |s|
    ensures r.Some? ==> i <= r.value < |s| && s[r.value] == c && forall k | i <= k < r.value :: s[k] != c
    ensures r.None? ==> forall k | i <= k < |s| :: s[k] != c
    decreases |s| - i
  {
    if i == |s| then None else if s[i] == c then Some(i) else IndexFrom(s, i + 1, c)
  }

  /** A match of `<(\w+)(?:\s+[^>]*)?>([^<]*)</\1>` at the start of `s`:
      the bounds of group 2 and the end of the match. The name is the whole
      word run; the opening tag ends at the name's `>` or, after whitespace,
      at the first `>`; the content runs to the next `<`, where the closing
      tag of the same name must stand. */
  function PairedTag(s: string): (m: Option<(nat, nat, nat)>)
    ensures m.Some? ==> 0 < m.value.0 <= m.value.1 < m.value.2 <= |s| && s[0] == '<'
    ensures m.Some? ==> '<' !in s[m.value.0..m.value.1]
  {
    if s == [] || s[0] != '<' then None
    else
      var e := WordEnd(s, 1);
      if e == 1 || e == |s| then None
      else
        var gt := if s[e] == '>' then Some(e) else if IsSpace(s[e]) then IndexFrom(s, e, '>') else None;
        if gt.None? then None
        else
          var lt := IndexFrom(s, gt.value + 1, '<');
          if lt.None? then None
          else
            var close := "</" + s[1..e] + ">";
            if lt.value + |close| <= |s| && s[lt.value..lt.value + |close|] == close
            then Some((gt.value + 1, lt.value, lt.value + |close|))
            else None
  }

  /** Pass 1: each paired tag is replaced by its content. */
  function PairedPass(s: string): string
    decreases |s|
  {
    if s == [] then []
    else
      var m := PairedTag(s);
      if m.Some? then s[m.value.0..m.value.1] + PairedPass(s[m.value.2..])
      else [s[0]] + PairedPass(s[1..])
  }

  /** A self-closing tag (`<`, a word, optional whitespace, `/>`) at the
      start of `s`: its end. */
  function SelfClosingTag(s: string): (m: Option<nat>)
    ensures m.Some? ==> 0 < m.value <= |s| && s[0] == '<'
  {
    if s == [] || s[0] != '<' then None
    else
      var e := WordEnd(s, 1);
      if e == 1 then None
      else
        var w := SpaceEnd(s, e);
        if w + 2 <= |s| && s[w] == '/' && s[w + 1] == '>' then Some(w + 2) else None
  }

  /** Pass 2: each self-closing tag is removed. */
  function SelfClosingPass(s: string): string
    decreases |s|
  {
    if s == [] then []
    else
      var m := SelfClosingTag(s);
      if m.Some? then SelfClosingPass(s[m.value..]) else [s[0]] + SelfClosingPass(s[1..])
  }

  /** A match of `<[^>]+>` at the start of `s`: its end, just past the first
      `>`, which must not follow the `<` directly. */
  function AnyTag(s: string): (m: Option<nat>)
    ensures m.Some? ==> 0 < m.value <= |s| && s[0] == '<'
  {
    if s == [] || s[0] != '<' then None
    else
      var gt := IndexFrom(s, 1, '>');
      if gt.Some? && gt.value >= 2 then Some(gt.value + 1) else None
  }

  /** Pass 3: every other tag-like fragment is removed. */
  function AnyTagPass(s: string): string
    decreases |s|
  {
    if s == [] then []
    else
      var m := AnyTag(s);
      if m.Some? then AnyTagPass(s[m.value..]) else [s[0]] + AnyTagPass(s[1..])
  }

  /** `text.replace(c, rep)` for a single character `c`. */
  function ReplaceChar(s: string, c: char, rep: string): (r: string)
    ensures c !in rep ==> c !in r
    ensures forall d | d != c && d !in rep && d !in s :: d !in r
    ensures c !in s ==> r == s
  {
    if s == [] then []
    else (if s[0] == c then rep else [s[0]]) + ReplaceChar(s[1..], c, rep)
  }

  /** `strip_html_tags` on a string. */
  function StripHtmlTags(text: string): (r: string)
    ensures '<' !in r && '>' !in r
  {
    var t := AnyTagPass(SelfClosingPass(PairedPass(text)));
    ReplaceChar(ReplaceChar(t, '<', "&lt;"), '>', "&gt;")
  }

  /** Without a `<` the three passes change nothing. */
  lemma {:induction false} PassesWithoutLt(s: string)
    requires '<' !in s
    ensures PairedPass(s) == s && SelfClosingPass(s) == s && AnyTagPass(s) == s
    decreases |s|
  {
    if s != [] {
      assert s[0] != '<';
      assert '<' !in s[1..];
      PassesWithoutLt(s[1..]);
      assert s == [s[0]] + s[1..];
    }
  }

  /** Text with neither `<` nor `>` is returned unchanged. */
  lemma PlainTextUnchanged(text: string)
    requires '<' !in text && '>' !in text
    ensures StripHtmlTags(text) == text
  {
    PassesWithoutLt(text);
  }

  /** Stripping twice is stripping once. */
  lemma StripHtmlTagsIdempotent(text: string)
    ensures StripHtmlTags(StripHtmlTags(text)) == StripHtmlTags(text)
  {
    PlainTextUnchanged(StripHtmlTags(text));
  }

  /** Replacing a match by part of it, and the rest by a subsequence of the
      rest, deletes characters only. */
  lemma ReplaceStepDeletes(s: string, a: nat, b: nat, e: nat, rest: string)
    requires a <= b <= e <= |s| && IsSubsequence(rest, s[e..])
    ensures IsSubsequence(s[a..b] + rest, s)
  {
    SliceSubsequence(s[..e], a, b);
    assert s[..e][a..b] == s[a..b];
    SubsequenceConcat(s[a..b], s[..e], rest, s[e..]);
    assert s[..e] + s[e..] == s;
  }

  /** Copying one character, and the rest by a subsequence of the rest. */
  lemma CopyStepDeletes(s: string, rest: string)
    requires s != [] && IsSubsequence(rest, s[1..])
    ensures IsSubsequence([s[0]] + rest, s)
  {
    SubsequenceRefl([s[0]]);
    SubsequenceConcat([s[0]], [s[0]], rest, s[1..]);
    assert [s[0]] + s[1..] == s;
  }

  lemma {:induction false} PairedPassDeletes(s: string)
    ensures IsSubsequence(PairedPass(s), s)
    decreases |s|
  {
    if s != [] {
      var m := PairedTag(s);
      if m.Some? {
        PairedPassDeletes(s[m.value.2..]);
        ReplaceStepDeletes(s, m.value.0, m.value.1, m.value.2, PairedPass(s[m.value.2..]));
      } else {
        PairedPassDeletes(s[1..]);
        CopyStepDeletes(s, PairedPass(s[1..]));
      }
    }
  }

  lemma {:induction false} SelfClosingPassDeletes(s: string)
    ensures IsSubsequence(SelfClosingPass(s), s)
    decreases |s|
  {
    if s != [] {
      var m := SelfClosingTag(s);
      if m.Some? {
        SelfClosingPassDeletes(s[m.value..]);
        ReplaceStepDeletes(s, 0, 0, m.value, SelfClosingPass(s[m.value..]));
        assert s[0..0] + SelfClosingPass(s[m.value..]) == SelfClosingPass(s[m.value..]);
      } else {
        SelfClosingPassDeletes(s[1..]);
        CopyStepDeletes(s, SelfClosingPass(s[1..]));
      }
    }
  }

  lemma {:induction false} AnyTagPassDeletes(s: string)
    ensures IsSubsequence(AnyTagPass(s), s)
    decreases |s|
  {
    if s != [] {
      var m := AnyTag(s);
      if m.Some? {
        AnyTagPassDeletes(s[m.value..]);
        ReplaceStepDeletes(s, 0, 0, m.value, AnyTagPass(s[m.value..]));
        assert s[0..0] + AnyTagPass(s[m.value..]) == AnyTagPass(s[m.value..]);
      } else {
        AnyTagPassDeletes(s[1..]);
        CopyStepDeletes(s, AnyTagPass(s[1..]));
      }
    }
  }

  /** The three substitution passes only delete characters: before the
      escaping step the text is a subsequence of the input. */
  lemma PassesDelete(text: string)
    ensures IsSubsequence(AnyTagPass(SelfClosingPass(PairedPass(text))), text)
  {
    var p1 := PairedPass(text);
    var p2 := SelfClosingPass(p1);
    PairedPassDeletes(text);
    SelfClosingPassDeletes(p1);
    AnyTagPassDeletes(p2);
    SubsequenceTrans(p2, p1, text);
    SubsequenceTrans(AnyTagPass(p2), p2, text);
  }

  /** The tag `<name>content</name>`. */
  function Paired(name: string, content: string): string
  {
    "<" + name + ">" + content + "</" + name + ">"
  }

  /** `<name>content</name>` is one match of the first pattern, covering the
      whole text, with the content as group 2. */
  lemma PairedTagMatch(name: string, content: string)
    requires name != [] && forall k | 0 <= k < |name| :: IsWordChar(name[k])
    requires '<' !in content
    ensures PairedTag(Paired(name, content)) == Some((|name| + 2, |name| + 2 + |content|, |Paired(name, content)|))
  {
    var s := Paired(name, content);
    var e := 1 + |name|;
    assert s[1..e] == name;
    assert s[e] == '>';
    assert forall k | 1 <= k < e :: s[k] == name[k - 1];
    var we := WordEnd(s, 1);
    assert we == e;
    assert forall k | e + 1 <= k < e + 1 + |content| :: s[k] == content[k - e - 1];
    assert s[e + 1 + |content|] == '<';
    var lt := IndexFrom(s, e + 1, '<');
    assert lt == Some(e + 1 + |content|);
    assert s[e + 1 + |content|..] == "</" + name + ">";
  }

  /** A paired tag whose content holds no `<` is reduced to its content by
      the first pass, and to exactly that content when it holds no `>`
      either: `<code>x</code>` gives `x`. */
  lemma PairedTagReduced(name: string, content: string)
    requires name != [] && forall k | 0 <= k < |name| :: IsWordChar(name[k])
    requires '<' !in content
    ensures PairedPass(Paired(name, content)) == content
    ensures '>' !in content ==> StripHtmlTags(Paired(name, content)) == content
  {
    var s := Paired(name, content);
    PairedTagMatch(name, content);
    assert s[|name| + 2..|name| + 2 + |content|] == content;
    assert PairedPass(s) == content + PairedPass([]);
    assert content + [] == content;
    if '>' !in content {
      PlainTextUnchanged(content);
      PassesWithoutLt(content);
    }
  }

  // ---------------------------------------------------------------------
  // sanitize_value

  /** A parsed JSON value; an object keeps its members in order. */
  datatype Json =
    | JNull
    | JBool(b: bool)
    | JNumber(n: int)
    | JString(s: string)
    | JArray(items: seq<Json>)
    | JObject(members: seq<(string, Json)>)

  /** `strip_html_tags` on any value: a non-string is returned as it is. */
  function StripHtmlTagsValue(v: Json): (r: Json)
    ensures !v.JString? ==> r == v
    ensures v.JString? ==> r.JString? && '<' !in r.s && '>' !in r.s
  {
    if v.JString? then JString(StripHtmlTags(v.s)) else v
  }

  /** `sanitize_value`. */
  function SanitizeValue(v: Json): (r: Json)
    ensures v.JString? ==> r == StripHtmlTagsValue(v)
    ensures v.JArray? ==> r.JArray? && |r.items| == |v.items|
    ensures v.JObject? ==> r.JObject? && |r.members| == |v.members|
                           && forall i | 0 <= i < |v.members| :: r.members[i].0 == v.members[i].0
    ensures !v.JString? && !v.JArray? && !v.JObject? ==> r == v
    decreases v
  {
    match v
    case JString(s) => JString(StripHtmlTags(s))
    case JArray(items) => JArray(seq(|items|, i requires 0 <= i < |items| => SanitizeValue(items[i])))
    case JObject(members) => JObject(seq(|members|, i requires 0 <= i < |members| => (members[i].0, SanitizeValue(members[i].1))))
    case _ => v
  }

  /** No string anywhere in the value (object keys aside) holds an angle
      bracket. */
  predicate Clean(v: Json)
    decreases v
  {
    match v
    case JString(s) => '<' !in s && '>' !in s
    case JArray(items) => forall i | 0 <= i < |items| :: Clean(items[i])
    case JObject(members) => forall i | 0 <= i < |members| :: Clean(members[i].1)
    case _ => true
  }

  /** Every string of the sanitized value is free of angle brackets. */
  lemma {:induction false} SanitizedIsClean(v: Json)
    ensures Clean(SanitizeValue(v))
    decreases v
  {
    match v
    case JString(s) =>
    case JArray(items) =>
      forall i | 0 <= i < |items| ensures Clean(SanitizeValue(v).items[i]) {
        SanitizedIsClean(items[i]);
      }
    case JObject(members) =>
      forall i | 0 <= i < |members| ensures Clean(SanitizeValue(v).members[i].1) {
        SanitizedIsClean(members[i].1);
      }
    case _ =>
  }

  /** A clean value is left as it is. */
  lemma {:induction false} CleanUnchanged(v: Json)
    requires Clean(v)
    ensures SanitizeValue(v) == v
    decreases v
  {
    match v
    case JString(s) => PlainTextUnchanged(s);
    case JArray(items) =>
      forall i | 0 <= i < |items| ensures SanitizeValue(v).items[i] == items[i] {
        CleanUnchanged(items[i]);
      }
      assert SanitizeValue(v).items == items;
    case JObject(members) =>
      forall i | 0 <= i < |members| ensures SanitizeValue(v).members[i] == members[i] {
        CleanUnchanged(members[i].1);
      }
      assert SanitizeValue(v).members == members;
    case _ =>
  }

  /** Sanitizing twice is sanitizing once. */
  lemma SanitizeIdempotent(v: Json)
    ensures SanitizeValue(SanitizeValue(v)) == SanitizeValue(v)
  {
    SanitizedIsClean(v);
    CleanUnchanged(SanitizeValue(v));
  }
}

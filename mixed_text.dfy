/** `get_text` of scripts/extract-data.py: the text of an XML element with
    mixed content, whitespace runs collapsed to one space and the ends
    stripped. */
module MixedText {
  import opened Wrappers
  import opened Chars

  /** A parsed element: its leading text, its child elements, and the text
      that follows it inside its parent. A missing `text` or `tail` is the
      empty string, which the source treats the same way. */
  datatype Element = Element(text: string, children: seq<Element>, tail: string)

  /** `re.sub(r'\s+', ' ', s)`: every maximal run of whitespace becomes one
      space. */
  function Collapse(s: string): (r: string)
    ensures |r| == 0 <==> |s| == 0
    ensures |r| > 0 ==> (IsSpace(r[|r| - 1]) <==> IsSpace(s[|s| - 1]))
  {
    if s == [] then []
    else
      var init := s[..|s| - 1];
      var c := s[|s| - 1];
      if !IsSpace(c) then Collapse(init) + [c]
      else if init != [] && IsSpace(init[|init| - 1]) then Collapse(init)
      else Collapse(init) + [' ']
  }

  /** `s.lstrip()`. */
  function TrimStart(s: string): (r: string)
    ensures |r| <= |s| && r == s[|s| - |r|..]
    ensures r == [] || !IsSpace(r[0])
    ensures forall i | 0 <= i < |s| - |r| :: IsSpace(s[i])
  {
    if s != [] && IsSpace(s[0]) then TrimStart(s[1..]) else s
  }

  /** `s.rstrip()`. */
  function TrimEnd(s: string): (r: string)
    ensures |r| <= |s| && r == s[..|r|]
    ensures r == [] || !IsSpace(r[|r| - 1])
    ensures forall i | |r| <= i < |s| :: IsSpace(s[i])
  {
    if s != [] && IsSpace(s[|s| - 1]) then TrimEnd(s[..|s| - 1]) else s
  }

  /** `re.sub(r'\s+', ' ', s).strip()`. */
  function Normalize(s: string): string
  {
    TrimEnd(TrimStart(Collapse(s)))
  }

  /** The only whitespace is single spaces between other characters. */
  predicate SingleSpaced(s: string) {
    forall i | 0 <= i < |s| :: IsSpace(s[i]) ==> s[i] == ' ' && 0 < i < |s| - 1 && !IsSpace(s[i + 1])
  }

  /** Collapsing leaves single spaces only, never two in a row. */
  predicate Collapsed(s: string) {
    forall i | 0 <= i < |s| :: IsSpace(s[i]) ==> s[i] == ' ' && (i + 1 < |s| ==> !IsSpace(s[i + 1]))
  }

  /** The characters of `s` that are not whitespace, in order. */
  function Visible(s: string): (r: string)
    ensures forall i | 0 <= i < |r| :: !IsSpace(r[i])
  {
    if s == [] then []
    else Visible(s[..|s| - 1]) + (if IsSpace(s[|s| - 1]) then [] else [s[|s| - 1]])
  }

  lemma {:induction false} CollapseCollapsed(s: string)
    ensures Collapsed(Collapse(s))
    decreases |s|
  {
    if s != [] {
      CollapseCollapsed(s[..|s| - 1]);
    }
  }

  lemma {:induction false} CollapseVisible(s: string)
    ensures Visible(Collapse(s)) == Visible(s)
    decreases |s|
  {
    if s != [] {
      var init := s[..|s| - 1];
      var c := s[|s| - 1];
      CollapseVisible(init);
      var r := Collapse(init);
      if !IsSpace(c) {
        assert (r + [c])[..|r + [c]| - 1] == r;
      } else if init != [] && IsSpace(init[|init| - 1]) {
      } else {
        assert (r + [' '])[..|r + [' ']| - 1] == r;
      }
    }
  }

  /** `Visible` of a concatenation. */
  lemma {:induction false} VisibleAppend(a: string, b: string)
    ensures Visible(a + b) == Visible(a) + Visible(b)
    decreases |b|
  {
    if b == [] {
      assert a + b == a;
    } else {
      assert (a + b)[..|a + b| - 1] == a + b[..|b| - 1];
      VisibleAppend(a, b[..|b| - 1]);
    }
  }

  /** Whitespace only has nothing visible. */
  lemma {:induction false} VisibleOfSpaces(s: string)
    requires forall i | 0 <= i < |s| :: IsSpace(s[i])
    ensures Visible(s) == []
    decreases |s|
  {
    if s != [] {
      VisibleOfSpaces(s[..|s| - 1]);
    }
  }

  /** Stripping a collapsed string leaves it single-spaced. */
  lemma TrimCollapsed(c: string)
    requires Collapsed(c)
    ensures SingleSpaced(TrimEnd(TrimStart(c)))
  {
    var t := TrimStart(c);
    var r := TrimEnd(t);
    var k := |c| - |t|;
    forall i | 0 <= i < |r| && IsSpace(r[i])
      ensures r[i] == ' ' && 0 < i < |r| - 1 && !IsSpace(r[i + 1])
    {
      assert r[i] == t[i] == c[k + i];
      if i + 1 < |r| {
        assert r[i + 1] == c[k + i + 1];
      }
    }
  }

  /** Stripping removes only whitespace. */
  lemma TrimStartVisible(c: string)
    ensures Visible(TrimStart(c)) == Visible(c)
  {
    var t := TrimStart(c);
    var front := c[..|c| - |t|];
    assert c == front + t;
    assert forall i | 0 <= i < |front| :: IsSpace(front[i]) by {
      forall i | 0 <= i < |front| ensures IsSpace(front[i]) {
        assert front[i] == c[i];
      }
    }
    VisibleOfSpaces(front);
    VisibleAppend(front, t);
  }

  lemma TrimEndVisible(t: string)
    ensures Visible(TrimEnd(t)) == Visible(t)
  {
    var r := TrimEnd(t);
    var back := t[|r|..];
    assert t == r + back;
    assert forall i | 0 <= i < |back| :: IsSpace(back[i]) by {
      forall i | 0 <= i < |back| ensures IsSpace(back[i]) {
        assert back[i] == t[|r| + i];
      }
    }
    VisibleOfSpaces(back);
    VisibleAppend(r, back);
  }

  /** The result of `get_text`'s normalisation has no whitespace at either
      end and never two whitespace characters in a row, and it keeps every
      other character of its input, in order. */
  lemma NormalizeShape(s: string)
    ensures SingleSpaced(Normalize(s))
    ensures Visible(Normalize(s)) == Visible(s)
  {
    CollapseCollapsed(s);
    CollapseVisible(s);
    TrimCollapsed(Collapse(s));
    TrimStartVisible(Collapse(s));
    TrimEndVisible(TrimStart(Collapse(s)));
  }

  /** A string already in normal form is left as it is. */
  lemma {:induction false} CollapseFixed(s: string)
    requires Collapsed(s)
    ensures Collapse(s) == s
    decreases |s|
  {
    if s != [] {
      var init := s[..|s| - 1];
      assert Collapsed(init) by {
        forall i | 0 <= i < |init| && IsSpace(init[i])
          ensures init[i] == ' ' && (i + 1 < |init| ==> !IsSpace(init[i + 1]))
        {
          assert init[i] == s[i];
        }
      }
      CollapseFixed(init);
      assert s == init + [s[|s| - 1]];
    }
  }

  lemma NormalizeFixed(s: string)
    requires SingleSpaced(s)
    ensures Normalize(s) == s
  {
    assert Collapsed(s);
    CollapseFixed(s);
  }

  /** Normalising twice changes nothing. */
  lemma NormalizeIdempotent(s: string)
    ensures Normalize(Normalize(s)) == Normalize(s)
  {
    NormalizeShape(s);
    NormalizeFixed(Normalize(s));
  }

  /** The text of an element: its own text, then for each child a space, the
      child's text, and a space and the child's tail when there is one; then
      normalised. */
  function Text(e: Element): string
    decreases e, 1, 0
  {
    Normalize(Joined(e, |e.children|))
  }

  /** The accumulated text before normalisation, after the first `n`
      children. */
  function Joined(e: Element, n: nat): string
    requires n <= |e.children|
    decreases e, 0, n
  {
    if n == 0 then e.text
    else
      var child := e.children[n - 1];
      assert child in e.children;
      var withChild := Joined(e, n - 1) + " " + Text(child);
      if child.tail != "" then withChild + " " + child.tail else withChild
  }

  /** One more child appended to the accumulated text. */
  lemma JoinedStep(e: Element, i: nat, prev: string, childText: string, next: string)
    requires i < |e.children|
    requires prev == Joined(e, i) && childText == Text(e.children[i])
    requires next == if e.children[i].tail != "" then prev + " " + childText + " " + e.children[i].tail
                     else prev + " " + childText
    ensures next == Joined(e, i + 1)
  {
  }

  /** The text of an element, computed as `get_text` computes it. */
  method ElementText(e: Element) returns (r: string)
    ensures r == Text(e)
    decreases e, 1
  {
    var text := JoinChildren(e);
    r := Normalize(text);
  }

  /** The loop of `get_text` that appends the children's texts and tails. */
  method JoinChildren(e: Element) returns (text: string)
    ensures text == Joined(e, |e.children|)
    decreases e, 0
  {
    text := e.text;
    for i := 0 to |e.children|
      invariant text == Joined(e, i)
    {
      var child := e.children[i];
      var childText := ElementText(child);
      var next := text + " " + childText;
      if child.tail != "" {
        next := next + " " + child.tail;
      }
      JoinedStep(e, i, text, childText, next);
      text := next;
    }
  }

  /** `get_text(element, default)`. */
  method GetText(element: Option<Element>, default: string) returns (r: string)
    ensures element.None? ==> r == default
    ensures element.Some? ==> r == Text(element.value)
    ensures element.Some? ==> SingleSpaced(r)
  {
    if element.None? {
      return default;
    }
    r := ElementText(element.value);
    NormalizeShape(Joined(element.value, |element.value.children|));
  }
}

/** Facts about sequences used throughout the model: distinctness, occurrence
    counts, first-occurrence deduplication and the subsequence order. */
module Seqs {

  /** No element occurs twice. */
  ghost predicate Distinct<T>(s: seq<T>) {
    forall i, j | 0 <= i < j < |s| :: s[i] != s[j]
  }

  /** How many times `x` occurs in `s`. */
  function Count<T(==)>(s: seq<T>, x: T): nat
  {
    if s == [] then 0 else Count(s[..|s| - 1], x) + (if s[|s| - 1] == x then 1 else 0)
  }

  /** `x` repeated `n` times. */
  function Repeat<T>(x: T, n: nat): (r: seq<T>)
    ensures |r| == n
    ensures forall i | 0 <= i < n :: r[i] == x
  {
    if n == 0 then [] else Repeat(x, n - 1) + [x]
  }

  lemma {:induction false} CountAppend<T>(a: seq<T>, b: seq<T>, x: T)
    ensures Count(a + b, x) == Count(a, x) + Count(b, x)
    decreases |b|
  {
    if b == [] {
      assert a + b == a;
    } else {
      assert (a + b)[..|a + b| - 1] == a + b[..|b| - 1];
      CountAppend(a, b[..|b| - 1], x);
    }
  }

  lemma {:induction false} CountPositive<T>(s: seq<T>, x: T)
    ensures Count(s, x) > 0 <==> x in s
    decreases |s|
  {
    if s != [] {
      CountPositive(s[..|s| - 1], x);
      assert s == s[..|s| - 1] + [s[|s| - 1]];
    }
  }

  /** The elements of `s` in order of first occurrence, each once. */
  function Dedup<T(==)>(s: seq<T>): (r: seq<T>)
  {
    if s == [] then []
    else
      var prefix := Dedup(s[..|s| - 1]);
      if s[|s| - 1] in prefix then prefix else prefix + [s[|s| - 1]]
  }

  /** Deduplication keeps exactly the elements of its input, each once. */
  lemma {:induction false} DedupSpec<T>(s: seq<T>)
    ensures Distinct(Dedup(s))
    ensures forall x :: x in Dedup(s) <==> x in s
    decreases |s|
  {
    if s != [] {
      DedupSpec(s[..|s| - 1]);
      assert s == s[..|s| - 1] + [s[|s| - 1]];
    }
  }

  /** A list without repetitions is its own deduplication. */
  lemma {:induction false} DedupOfDistinct<T>(s: seq<T>)
    requires Distinct(s)
    ensures Dedup(s) == s
    decreases |s|
  {
    if s != [] {
      var init := s[..|s| - 1];
      DedupOfDistinct(init);
    }
  }

  /** Appending copies of one element adds it to the deduplication once, at
      the end, unless it is already there. */
  lemma {:induction false} DedupRepeat<T>(s: seq<T>, x: T, n: nat)
    ensures Dedup(s + Repeat(x, n)) == if n > 0 && x !in Dedup(s) then Dedup(s) + [x] else Dedup(s)
    decreases n
  {
    if n == 0 {
      assert s + Repeat(x, n) == s;
    } else {
      var t := s + Repeat(x, n);
      assert t[..|t| - 1] == s + Repeat(x, n - 1);
      DedupRepeat(s, x, n - 1);
      DedupSpec(s);
    }
  }

  /** Two lists without repetitions and without common elements concatenate
      to a list without repetitions. */
  lemma DistinctAppend<T>(a: seq<T>, b: seq<T>)
    requires Distinct(a) && Distinct(b) && forall x | x in a :: x !in b
    ensures Distinct(a + b)
  {
    var ab := a + b;
    forall i, j | 0 <= i < j < |ab|
      ensures ab[i] != ab[j]
    {
      if j < |a| {
        assert ab[i] == a[i] && ab[j] == a[j];
      } else if i >= |a| {
        assert ab[i] == b[i - |a|] && ab[j] == b[j - |a|];
      } else {
        assert ab[i] == a[i] && ab[j] == b[j - |a|];
        assert ab[i] in a;
      }
    }
  }

  /** Python's `s[:n]` for `n >= 0`: the first `n` elements, or all of a
      shorter sequence. */
  function Take<T>(s: seq<T>, n: nat): (r: seq<T>)
    ensures |r| <= n && r <= s
    ensures |s| <= n ==> r == s
    ensures |s| > n ==> |r| == n
  {
    if |s| <= n then s else s[..n]
  }

  /** `a` is obtained from `b` by deleting elements. */
  predicate IsSubsequence<T(==)>(a: seq<T>, b: seq<T>)
    decreases |b|
  {
    if a == [] then true
    else if b == [] then false
    else (a[0] == b[0] && IsSubsequence(a[1..], b[1..])) || IsSubsequence(a, b[1..])
  }

  lemma {:induction false} SubsequenceRefl<T>(a: seq<T>)
    ensures IsSubsequence(a, a)
    decreases |a|
  {
    if a != [] { SubsequenceRefl(a[1..]); }
  }

  lemma {:induction false} SubsequenceOfLonger<T>(a: seq<T>, b: seq<T>, c: seq<T>)
    requires IsSubsequence(a, b)
    ensures IsSubsequence(a, c + b)
    decreases |c|
  {
    if c != [] {
      assert (c + b)[1..] == c[1..] + b;
      SubsequenceOfLonger(a, b, c[1..]);
      assert IsSubsequence(a, (c + b)[1..]);
    } else {
      assert c + b == b;
    }
  }

  /** Concatenating a subsequence of `b` after a subsequence of `a` gives a
      subsequence of `a + b`. */
  lemma {:induction false} SubsequenceConcat<T>(x: seq<T>, a: seq<T>, y: seq<T>, b: seq<T>)
    requires IsSubsequence(x, a) && IsSubsequence(y, b)
    ensures IsSubsequence(x + y, a + b)
    decreases |a|
  {
    if x == [] {
      assert x + y == y;
      SubsequenceOfLonger(y, b, a);
    } else {
      assert a != [];
      assert (a + b)[1..] == a[1..] + b;
      if x[0] == a[0] && IsSubsequence(x[1..], a[1..]) {
        assert (x + y)[1..] == x[1..] + y;
        SubsequenceConcat(x[1..], a[1..], y, b);
      } else {
        SubsequenceConcat(x, a[1..], y, b);
      }
    }
  }

  lemma {:induction false} SubsequenceTrans<T>(a: seq<T>, b: seq<T>, c: seq<T>)
    requires IsSubsequence(a, b) && IsSubsequence(b, c)
    ensures IsSubsequence(a, c)
    decreases |c|
  {
    if a != [] {
      assert b != [] && c != [];
      if b[0] == c[0] && IsSubsequence(b[1..], c[1..]) {
        if a[0] == b[0] && IsSubsequence(a[1..], b[1..]) {
          SubsequenceTrans(a[1..], b[1..], c[1..]);
        } else {
          SubsequenceTrans(a, b[1..], c[1..]);
        }
      } else {
        SubsequenceTrans(a, b, c[1..]);
      }
    }
  }

  /** A slice is a subsequence of the whole. */
  lemma SliceSubsequence<T>(s: seq<T>, i: nat, j: nat)
    requires i <= j <= |s|
    ensures IsSubsequence(s[i..j], s)
  {
    SubsequenceRefl(s[i..j]);
    SubsequenceOfLonger(s[i..j], s[i..j], s[..i]);
    assert IsSubsequence([], s[j..]);
    SubsequenceConcat(s[i..j], s[..i] + s[i..j], [], s[j..]);
    assert s[i..j] + [] == s[i..j];
    assert s[..i] + s[i..j] + s[j..] == s;
  }

  /** Every element of a subsequence is an element of the whole. */
  lemma {:induction false} SubsequenceMembers<T>(a: seq<T>, b: seq<T>, x: T)
    requires IsSubsequence(a, b) && x in a
    ensures x in b
    decreases |b|
  {
    if a[0] == b[0] && IsSubsequence(a[1..], b[1..]) {
      if x != a[0] { SubsequenceMembers(a[1..], b[1..], x); }
    } else {
      SubsequenceMembers(a, b[1..], x);
    }
  }
}

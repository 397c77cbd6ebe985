/** Technique identifiers (`T1566`, `T1566.002`, `T0800`) and the string
    operations the visualizer applies to them: `split('.')`, `includes('.')`,
    `replace('T', '')` and `parseInt`. */
module TechniqueIds {
  import opened Chars
  import opened Wrappers

  /** The position of the first `c` in `s`, or `|s|` when there is none. */
  function FirstIndex(s: string, c: char): (i: nat)
    ensures i <= |s|
    ensures forall j | 0 <= j < i :: s[j] != c
    ensures i < |s| ==> s[i] == c
  {
    if s == [] then 0
    else if s[0] == c then 0
    else 1 + FirstIndex(s[1..], c)
  }

  /** `id.split('.')[0]`: everything before the first dot. */
  function BaseId(id: string): (base: string)
    ensures base == id[..FirstIndex(id, '.')]
    ensures '.' !in base
  {
    id[..FirstIndex(id, '.')]
  }

  /** `id.includes('.') ? id.split('.')[1] : null`: the text between the first
      and the second dot (or the end), when there is a dot. */
  function SubId(id: string): (sub: Option<string>)
    ensures sub.None? <==> '.' !in id
  {
    var i := FirstIndex(id, '.');
    if i == |id| then None
    else
      var rest := id[i + 1..];
      Some(rest[..FirstIndex(rest, '.')])
  }

  /** `s.replace(c, '')` with a string pattern: only the first `c` is removed. */
  function ReplaceFirst(s: string, c: char): (r: string)
    ensures c !in s ==> r == s
    ensures c in s ==> |r| == |s| - 1
  {
    var i := FirstIndex(s, c);
    if i == |s| then s else s[..i] + s[i + 1..]
  }

  /** The identifiers the classifier is defined on: `T`, at least one digit,
      and then nothing or a dot followed by anything. */
  predicate WellFormedId(id: string) {
    var base := BaseId(id);
    |base| >= 2 && base[0] == 'T' && AllDigits(base[1..])
  }

  /** `techId.replace('T', '').split('.')[0]`, the digit string both
      `detectDomain` and `guessPhaseFromId` parse. */
  function NumericPart(id: string): (digits: string)
    requires WellFormedId(id)
    ensures digits == BaseId(id)[1..]
    ensures |digits| >= 1 && AllDigits(digits)
  {
    var stripped := ReplaceFirst(id, 'T');
    assert stripped == id[1..];
    var i := FirstIndex(id, '.');
    assert i >= 1;
    FirstIndexShift(id, '.');
    BaseId(stripped)
  }

  /** Dropping a first character other than `c` moves the first `c` one place left. */
  lemma FirstIndexShift(s: string, c: char)
    requires s != [] && s[0] != c
    ensures FirstIndex(s[1..], c) == FirstIndex(s, c) - 1
  {
  }

  /** `parseInt` of that digit string. */
  function NumericId(id: string): nat
    requires WellFormedId(id)
  {
    DecimalValue(NumericPart(id))
  }

  /** The first `c` of `a + b` is in `b` when `a` has none and `b` starts with `c`. */
  lemma {:induction false} FirstIndexPrefix(a: string, b: string, c: char)
    requires c !in a && b != [] && b[0] == c
    ensures FirstIndex(a + b, c) == |a|
    decreases |a|
  {
    if a != [] {
      assert (a + b)[1..] == a[1..] + b;
      FirstIndexPrefix(a[1..], b, c);
    } else {
      assert a + b == b;
    }
  }
}

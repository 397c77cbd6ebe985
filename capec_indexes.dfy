/** The cross-reference tables of scripts/extract-data.py:
    `build_capec_to_technique`, the two inverted indexes
    `build_technique_to_capec` and `build_cwe_to_capec`, and
    `add_missing_cwes`, which adds a stub weakness for every CWE a CAPEC
    pattern cites but the CWE files lack. */
module CapecIndexes {
  import opened Wrappers
  import opened Seqs
  import opened OrderedDict
  import opened CapecRecords

  /** A pattern's `techniques`. */
  function PatternTechniques(e: Entry): seq<string>
  {
    if e.AttackPattern? then e.techniques else []
  }

  /** A pattern's `cwes`. */
  function PatternCwes(e: Entry): seq<string>
  {
    if e.AttackPattern? then e.cwes else []
  }

  /** `(capec_id, field(pattern))` for `patterns.items()`, in order. */
  function Lists(d: Dict<Entry>, field: Entry -> seq<string>): (pairs: seq<(string, seq<string>)>)
    requires d.Valid()
    ensures |pairs| == |d.keys|
    ensures forall i | 0 <= i < |pairs| :: pairs[i] == (d.keys[i], field(d.values[d.keys[i]]))
  {
    seq(|d.keys|, i requires 0 <= i < |d.keys| => (d.keys[i], field(d.values[d.keys[i]])))
  }

  /** The lookup `mapping.get(t, [])`. */
  function Get(m: Dict<seq<string>>, t: string): seq<string>
  {
    if t in m.values then m.values[t] else []
  }

  // ---------------------------------------------------------------------
  // build_capec_to_technique

  /** `mapping[c] = lst` for each pair with a non-empty list. */
  function NonEmptyLists(pairs: seq<(string, seq<string>)>): (m: Dict<seq<string>>)
    ensures m.Valid()
  {
    if pairs == [] then Empty()
    else
      var m := NonEmptyLists(pairs[..|pairs| - 1]);
      var p := pairs[|pairs| - 1];
      if p.1 != [] then m.Put(p.0, p.1) else m
  }

  /** The first components of the pairs with a non-empty list. */
  function NonEmptyKeys(pairs: seq<(string, seq<string>)>): seq<string>
  {
    if pairs == [] then []
    else
      var p := pairs[|pairs| - 1];
      NonEmptyKeys(pairs[..|pairs| - 1]) + (if p.1 != [] then [p.0] else [])
  }

  lemma {:induction false} NonEmptyKeysMembers(pairs: seq<(string, seq<string>)>, k: string)
    ensures k in NonEmptyKeys(pairs) <==> exists i | 0 <= i < |pairs| :: pairs[i].0 == k && pairs[i].1 != []
    decreases |pairs|
  {
    if pairs != [] {
      NonEmptyKeysMembers(pairs[..|pairs| - 1], k);
      assert forall i | 0 <= i < |pairs| - 1 :: pairs[..|pairs| - 1][i] == pairs[i];
    }
  }

  /** With distinct keys, the table lists exactly the pairs with a non-empty
      list, in order, each mapped to its own list. */
  lemma {:induction false} NonEmptyListsSpec(pairs: seq<(string, seq<string>)>)
    requires Distinct(PairKeys(pairs))
    ensures NonEmptyLists(pairs).keys == NonEmptyKeys(pairs)
    ensures forall i | 0 <= i < |pairs| && pairs[i].1 != [] ::
              pairs[i].0 in NonEmptyLists(pairs).values && NonEmptyLists(pairs).values[pairs[i].0] == pairs[i].1
    decreases |pairs|
  {
    if pairs != [] {
      var init := pairs[..|pairs| - 1];
      var p := pairs[|pairs| - 1];
      assert PairKeys(init) == PairKeys(pairs)[..|pairs| - 1];
      NonEmptyListsSpec(init);
      if p.1 != [] {
        NonEmptyKeysMembers(init, p.0);
        forall i | 0 <= i < |init| ensures init[i].0 != p.0 {
          assert PairKeys(pairs)[i] != PairKeys(pairs)[|pairs| - 1];
        }
      }
      forall i | 0 <= i < |init| && init[i].1 != [] && (p.1 != [] ==> init[i].0 != p.0)
        ensures init[i].0 in NonEmptyLists(pairs).values && NonEmptyLists(pairs).values[init[i].0] == init[i].1
      {
      }
      forall i | 0 <= i < |init| ensures p.1 != [] ==> init[i].0 != p.0 {
        assert PairKeys(pairs)[i] != PairKeys(pairs)[|pairs| - 1];
      }
    }
  }

  /** `build_capec_to_technique`. The count it prints is not modelled. */
  method BuildCapecToTechnique(patterns: Dict<Entry>) returns (mapping: Dict<seq<string>>)
    requires patterns.Valid()
    ensures mapping == NonEmptyLists(Lists(patterns, PatternTechniques))
  {
    var pairs := Lists(patterns, PatternTechniques);
    mapping := Empty();
    for i := 0 to |patterns.keys|
      invariant mapping == NonEmptyLists(pairs[..i])
    {
      assert pairs[..i + 1][..i] == pairs[..i];
      var capecId := patterns.keys[i];
      var techniques := PatternTechniques(patterns.values[capecId]);
      if techniques != [] {
        mapping := mapping.Put(capecId, techniques);
      }
    }
    assert pairs[..|pairs|] == pairs;
  }

  /** The keys of `capec_to_technique` are exactly the patterns with at least
      one technique, in table order, and each maps to its own list. */
  lemma CapecToTechniqueSpec(patterns: Dict<Entry>, c: string)
    requires patterns.Valid()
    ensures c in NonEmptyLists(Lists(patterns, PatternTechniques)).values <==>
              c in patterns.values && PatternTechniques(patterns.values[c]) != []
    ensures c in NonEmptyLists(Lists(patterns, PatternTechniques)).values ==>
              NonEmptyLists(Lists(patterns, PatternTechniques)).values[c] == PatternTechniques(patterns.values[c])
  {
    var pairs := Lists(patterns, PatternTechniques);
    assert PairKeys(pairs) == patterns.keys;
    NonEmptyListsSpec(pairs);
    NonEmptyKeysMembers(pairs, c);
    if c in patterns.values && PatternTechniques(patterns.values[c]) != [] {
      var i :| 0 <= i < |patterns.keys| && patterns.keys[i] == c;
      assert pairs[i].0 == c && pairs[i].1 != [];
    }
  }

  // ---------------------------------------------------------------------
  // build_technique_to_capec, build_cwe_to_capec

  /** `mapping.setdefault(t, []).append(c)` for each `t` of `ts` in order. */
  function AddSource(m: Dict<seq<string>>, c: string, ts: seq<string>): (r: Dict<seq<string>>)
    requires m.Valid()
    ensures r.Valid()
  {
    if ts == [] then m
    else
      var r := AddSource(m, c, ts[..|ts| - 1]);
      var t := ts[|ts| - 1];
      r.Put(t, Get(r, t) + [c])
  }

  /** The inverted index of the pairs, visited in order. */
  function Inverted(pairs: seq<(string, seq<string>)>): (m: Dict<seq<string>>)
    ensures m.Valid()
  {
    if pairs == [] then Empty()
    else
      var p := pairs[|pairs| - 1];
      AddSource(Inverted(pairs[..|pairs| - 1]), p.0, p.1)
  }

  /** For a target `t`: each source, in pair order, as many times as it lists
      `t`. */
  function Sources(pairs: seq<(string, seq<string>)>, t: string): seq<string>
  {
    if pairs == [] then []
    else
      var p := pairs[|pairs| - 1];
      Sources(pairs[..|pairs| - 1], t) + Repeat(p.0, Count(p.1, t))
  }

  lemma {:induction false} AddSourceSpec(m: Dict<seq<string>>, c: string, ts: seq<string>)
    requires m.Valid()
    ensures forall t :: t in AddSource(m, c, ts).values <==> t in m.values || t in ts
    ensures forall t :: Get(AddSource(m, c, ts), t) == Get(m, t) + Repeat(c, Count(ts, t))
    decreases |ts|
  {
    if ts == [] {
      forall t ensures Get(m, t) == Get(m, t) + Repeat(c, Count(ts, t)) {
        assert Get(m, t) + [] == Get(m, t);
      }
    } else {
      var init := ts[..|ts| - 1];
      var last := ts[|ts| - 1];
      AddSourceSpec(m, c, init);
      assert ts == init + [last];
      forall t ensures Get(AddSource(m, c, ts), t) == Get(m, t) + Repeat(c, Count(ts, t)) {
        if t == last {
          assert Repeat(c, Count(ts, t)) == Repeat(c, Count(init, t)) + [c];
        }
      }
    }
  }

  lemma {:induction false} InvertedSpec(pairs: seq<(string, seq<string>)>)
    ensures forall t :: t in Inverted(pairs).values <==> exists i | 0 <= i < |pairs| :: t in pairs[i].1
    ensures forall t :: Get(Inverted(pairs), t) == Sources(pairs, t)
    decreases |pairs|
  {
    if pairs != [] {
      var init := pairs[..|pairs| - 1];
      var p := pairs[|pairs| - 1];
      InvertedSpec(init);
      AddSourceSpec(Inverted(init), p.0, p.1);
      assert forall i | 0 <= i < |init| :: init[i] == pairs[i];
    }
  }

  lemma {:induction false} SourcesMembers(pairs: seq<(string, seq<string>)>, t: string, c: string)
    ensures c in Sources(pairs, t) <==> exists i | 0 <= i < |pairs| :: pairs[i].0 == c && t in pairs[i].1
    decreases |pairs|
  {
    if pairs != [] {
      var init := pairs[..|pairs| - 1];
      var p := pairs[|pairs| - 1];
      SourcesMembers(init, t, c);
      CountPositive(p.1, t);
      assert forall i | 0 <= i < |init| :: init[i] == pairs[i];
    }
  }

  /** The common loop of `build_technique_to_capec` and `build_cwe_to_capec`. */
  method InvertIndex(pairs: seq<(string, seq<string>)>) returns (mapping: Dict<seq<string>>)
    ensures mapping == Inverted(pairs)
  {
    mapping := Empty();
    for i := 0 to |pairs|
      invariant mapping == Inverted(pairs[..i])
    {
      assert pairs[..i + 1][..i] == pairs[..i];
      var (c, ts) := pairs[i];
      ghost var start := mapping;
      for j := 0 to |ts|
        invariant mapping.Valid()
        invariant mapping == AddSource(start, c, ts[..j])
      {
        assert ts[..j + 1][..j] == ts[..j];
        var t := ts[j];
        if t !in mapping.values {
          mapping := mapping.Put(t, []);
        }
        mapping := mapping.Put(t, mapping.values[t] + [c]);
      }
      assert ts[..|ts|] == ts;
    }
    assert pairs[..|pairs|] == pairs;
  }

  /** `build_technique_to_capec`. */
  method BuildTechniqueToCapec(patterns: Dict<Entry>) returns (mapping: Dict<seq<string>>)
    requires patterns.Valid()
    ensures mapping == Inverted(Lists(patterns, PatternTechniques))
  {
    mapping := InvertIndex(Lists(patterns, PatternTechniques));
  }

  /** `build_cwe_to_capec`. */
  method BuildCweToCapec(patterns: Dict<Entry>) returns (mapping: Dict<seq<string>>)
    requires patterns.Valid()
    ensures mapping == Inverted(Lists(patterns, PatternCwes))
  {
    mapping := InvertIndex(Lists(patterns, PatternCwes));
  }

  /** The index is the inverse of the pattern lists: a target is a key
      exactly when some pattern lists it, and a pattern is among its sources
      exactly when it lists the target; sources follow table order. */
  lemma IndexInverts(patterns: Dict<Entry>, field: Entry -> seq<string>, t: string, c: string)
    requires patterns.Valid()
    ensures t in Inverted(Lists(patterns, field)).values <==>
              exists k | k in patterns.values :: t in field(patterns.values[k])
    ensures Get(Inverted(Lists(patterns, field)), t) == Sources(Lists(patterns, field), t)
    ensures c in Get(Inverted(Lists(patterns, field)), t) <==> c in patterns.values && t in field(patterns.values[c])
  {
    var pairs := Lists(patterns, field);
    InvertedSpec(pairs);
    SourcesMembers(pairs, t, c);
    if exists k | k in patterns.values :: t in field(patterns.values[k]) {
      var k :| k in patterns.values && t in field(patterns.values[k]);
      var i :| 0 <= i < |patterns.keys| && patterns.keys[i] == k;
      assert t in pairs[i].1;
    }
    if c in patterns.values && t in field(patterns.values[c]) {
      var i :| 0 <= i < |patterns.keys| && patterns.keys[i] == c;
      assert pairs[i].0 == c && t in pairs[i].1;
    }
  }

  // ---------------------------------------------------------------------
  // add_missing_cwes

  const StubDescription: string :=
    "This CWE is referenced by CAPEC patterns but detailed information is not available in the current CWE view."

  /** `s.replace(old, new)`: every non-overlapping occurrence, left to right. */
  function ReplaceAll(s: string, pat: string, rep: string): string
    requires pat != ""
    decreases |s|
  {
    if |s| < |pat| then s
    else if s[..|pat|] == pat then rep + ReplaceAll(s[|pat|..], pat, rep)
    else [s[0]] + ReplaceAll(s[1..], pat, rep)
  }

  /** A string without the first character of `pat` is left as it is. */
  lemma {:induction false} ReplaceAbsent(s: string, pat: string, rep: string)
    requires pat != ""
    requires forall i | 0 <= i < |s| :: s[i] != pat[0]
    ensures ReplaceAll(s, pat, rep) == s
    decreases |s|
  {
    if |s| >= |pat| {
      assert s[..|pat|][0] != pat[0];
      ReplaceAbsent(s[1..], pat, rep);
      assert s == [s[0]] + s[1..];
    }
  }

  /** The stub written for a cited CWE the CWE files lack. */
  function Stub(cweId: string): (w: Entry)
    ensures w.Weakness? && w.id == cweId && w.capecs == [] && w.parent == None && w.children == []
  {
    Weakness(cweId, "CWE " + ReplaceAll(cweId, "CWE-", ""), StubDescription, "Unknown", "Referenced", [], None, [])
  }

  /** For the ids `extract_capec` produces, `CWE-<n>` whose number has no `C`,
      the stub is named `CWE <n>`. */
  lemma StubName(n: string)
    requires forall i | 0 <= i < |n| :: n[i] != 'C'
    ensures Stub("CWE-" + n).name == "CWE " + n
  {
    var s := "CWE-" + n;
    assert s[..4] == "CWE-";
    assert s[4..] == n;
    ReplaceAbsent(n, "CWE-", "");
    assert ReplaceAll(s, "CWE-", "") == "" + ReplaceAll(n, "CWE-", "");
  }

  /** A weakness with `capecs` replaced. */
  function WithCapecs(e: Entry, capecs: seq<string>): (r: Entry)
    requires e.Weakness?
    ensures r.Weakness? && r.capecs == capecs
  {
    e.(capecs := capecs)
  }

  /** Every CWE any pattern cites. */
  function Referenced(pairs: seq<(string, seq<string>)>): (s: set<string>)
    ensures forall t :: t in s <==> exists i | 0 <= i < |pairs| :: t in pairs[i].1
  {
    if pairs == [] then {}
    else
      var r := Referenced(pairs[..|pairs| - 1]);
      assert forall i | 0 <= i < |pairs| - 1 :: pairs[..|pairs| - 1][i] == pairs[i];
      var cited := pairs[|pairs| - 1].1;
      r + (set i | 0 <= i < |cited| :: cited[i])
  }

  /** The second loop's step for one pattern: `c` is appended to the
      `capecs` of each missing CWE it cites, unless already there. */
  function AddCapec(d: Dict<Entry>, missing: set<string>, c: string, ts: seq<string>): (r: Dict<Entry>)
    requires d.Valid()
    requires forall w | w in missing :: w in d.values && d.values[w].Weakness?
    ensures r.Valid()
    ensures r.keys == d.keys
    ensures forall k | k in d.values :: k in r.values && (k !in missing ==> r.values[k] == d.values[k])
    ensures forall w | w in missing :: r.values[w].Weakness?
  {
    if ts == [] then d
    else
      var r := AddCapec(d, missing, c, ts[..|ts| - 1]);
      var t := ts[|ts| - 1];
      if t in missing && c !in r.values[t].capecs
      then r.Put(t, WithCapecs(r.values[t], r.values[t].capecs + [c]))
      else r
  }

  function AddCapecs(d: Dict<Entry>, missing: set<string>, pairs: seq<(string, seq<string>)>): (r: Dict<Entry>)
    requires d.Valid()
    requires forall w | w in missing :: w in d.values && d.values[w].Weakness?
    ensures r.Valid()
    ensures r.keys == d.keys
    ensures forall k | k in d.values :: k in r.values && (k !in missing ==> r.values[k] == d.values[k])
    ensures forall w | w in missing :: r.values[w].Weakness?
  {
    if pairs == [] then d
    else
      var p := pairs[|pairs| - 1];
      AddCapec(AddCapecs(d, missing, pairs[..|pairs| - 1]), missing, p.0, p.1)
  }

  /** `lst.append(c)` when the pattern cites the CWE and `c` is not there yet. */
  function AddOnce(capecs: seq<string>, c: string, cited: bool): seq<string>
  {
    if cited && c !in capecs then capecs + [c] else capecs
  }

  /** One pattern changes only the `capecs` of the missing CWEs it cites, and
      adds itself there at most once. */
  lemma {:induction false} AddCapecSpec(d: Dict<Entry>, missing: set<string>, c: string, ts: seq<string>, w: string)
    requires d.Valid()
    requires forall v | v in missing :: v in d.values && d.values[v].Weakness?
    requires w in missing
    ensures AddCapec(d, missing, c, ts).values[w] == WithCapecs(d.values[w], AddOnce(d.values[w].capecs, c, w in ts))
    decreases |ts|
  {
    if ts == [] {
      assert WithCapecs(d.values[w], d.values[w].capecs) == d.values[w];
    } else {
      var init := ts[..|ts| - 1];
      var t := ts[|ts| - 1];
      assert ts == init + [t];
      AddCapecSpec(d, missing, c, init, w);
    }
  }

  /** Over the whole table, a stub that starts with no `capecs` ends with the
      citing patterns, each once, in table order. */
  lemma {:induction false} AddCapecsSpec(d: Dict<Entry>, missing: set<string>, pairs: seq<(string, seq<string>)>, w: string)
    requires d.Valid()
    requires forall v | v in missing :: v in d.values && d.values[v].Weakness?
    requires w in missing && d.values[w].capecs == []
    ensures AddCapecs(d, missing, pairs).values[w] == WithCapecs(d.values[w], Dedup(Sources(pairs, w)))
    decreases |pairs|
  {
    if pairs == [] {
      assert WithCapecs(d.values[w], []) == d.values[w];
    } else {
      var init := pairs[..|pairs| - 1];
      var p := pairs[|pairs| - 1];
      AddCapecsSpec(d, missing, init, w);
      var r := AddCapecs(d, missing, init);
      AddCapecSpec(r, missing, p.0, p.1, w);
      DedupRepeat(Sources(init, w), p.0, Count(p.1, w));
      CountPositive(p.1, w);
    }
  }

  /** The stub's `capecs` lists, once each, exactly the patterns citing it. */
  lemma StubCapecs(patterns: Dict<Entry>, w: string, c: string)
    requires patterns.Valid()
    ensures Distinct(Dedup(Sources(Lists(patterns, PatternCwes), w)))
    ensures c in Dedup(Sources(Lists(patterns, PatternCwes), w)) <==> c in patterns.values && w in PatternCwes(patterns.values[c])
  {
    var pairs := Lists(patterns, PatternCwes);
    DedupSpec(Sources(pairs, w));
    SourcesMembers(pairs, w, c);
    if c in patterns.values && w in PatternCwes(patterns.values[c]) {
      var i :| 0 <= i < |patterns.keys| && patterns.keys[i] == c;
      assert pairs[i].0 == c && w in pairs[i].1;
    }
  }

  /** The first loop of `add_missing_cwes`: the set of cited CWEs. */
  method CollectReferenced(pairs: seq<(string, seq<string>)>) returns (referenced: set<string>)
    ensures referenced == Referenced(pairs)
  {
    referenced := {};
    for i := 0 to |pairs|
      invariant referenced == Referenced(pairs[..i])
    {
      assert pairs[..i + 1][..i] == pairs[..i];
      var cwes := pairs[i].1;
      for j := 0 to |cwes|
        invariant referenced == Referenced(pairs[..i]) + set k | 0 <= k < j :: cwes[k]
      {
        referenced := referenced + {cwes[j]};
      }
    }
    assert pairs[..|pairs|] == pairs;
  }

  /** The stub loop of `add_missing_cwes`, in the unspecified order of a set. */
  method AddStubs(weaknesses: Dict<Entry>, missing: set<string>) returns (r: Dict<Entry>)
    requires weaknesses.Valid()
    requires forall w | w in missing :: w !in weaknesses.values
    ensures r.Valid()
    ensures |r.keys| >= |weaknesses.keys| && r.keys[..|weaknesses.keys|] == weaknesses.keys
    ensures forall k | k in weaknesses.values :: k in r.values && r.values[k] == weaknesses.values[k]
    ensures forall k :: k in r.values <==> k in weaknesses.values || k in missing
    ensures forall w | w in missing :: r.values[w] == Stub(w)
  {
    r := weaknesses;
    var todo := missing;
    while todo != {}
      invariant todo <= missing
      invariant r.Valid()
      invariant |r.keys| >= |weaknesses.keys| && r.keys[..|weaknesses.keys|] == weaknesses.keys
      invariant forall k | k in weaknesses.values :: k in r.values && r.values[k] == weaknesses.values[k]
      invariant forall k :: k in r.values <==> k in weaknesses.values || k in missing - todo
      invariant forall w | w in missing - todo :: r.values[w] == Stub(w)
      decreases |todo|
    {
      var w :| w in todo;
      r := r.Put(w, Stub(w));
      todo := todo - {w};
    }
  }

  /** The last loop of `add_missing_cwes`: each pattern is added once to the
      `capecs` of every missing CWE it cites. */
  method LinkStubCapecs(d: Dict<Entry>, missing: set<string>, pairs: seq<(string, seq<string>)>) returns (r: Dict<Entry>)
    requires d.Valid()
    requires forall w | w in missing :: w in d.values && d.values[w].Weakness?
    ensures r == AddCapecs(d, missing, pairs)
  {
    r := d;
    for i := 0 to |pairs|
      invariant r == AddCapecs(d, missing, pairs[..i])
    {
      assert pairs[..i + 1][..i] == pairs[..i];
      var (capecId, cwes) := pairs[i];
      ghost var start := r;
      for j := 0 to |cwes|
        invariant r == AddCapec(start, missing, capecId, cwes[..j])
      {
        assert cwes[..j + 1][..j] == cwes[..j];
        var cweId := cwes[j];
        if cweId in missing {
          if capecId !in r.values[cweId].capecs {
            r := r.Put(cweId, WithCapecs(r.values[cweId], r.values[cweId].capecs + [capecId]));
          }
        }
      }
      assert cwes[..|cwes|] == cwes;
    }
    assert pairs[..|pairs|] == pairs;
  }

  /** `add_missing_cwes`: every CWE a pattern cites becomes a key; existing
      weaknesses keep their place and value; each new stub lists, once each
      and in table order, the patterns that cite it. Stubs are added in the
      iteration order of a Python set, which the model leaves open. */
  method AddMissingCwes(weaknesses: Dict<Entry>, patterns: Dict<Entry>) returns (r: Dict<Entry>)
    requires weaknesses.Valid() && patterns.Valid()
    ensures r.Valid()
    ensures |r.keys| >= |weaknesses.keys| && r.keys[..|weaknesses.keys|] == weaknesses.keys
    ensures forall k | k in weaknesses.values :: k in r.values && r.values[k] == weaknesses.values[k]
    ensures forall k :: k in r.values <==> k in weaknesses.values || k in Referenced(Lists(patterns, PatternCwes))
    ensures forall w | w in r.values && w !in weaknesses.values ::
              r.values[w] == WithCapecs(Stub(w), Dedup(Sources(Lists(patterns, PatternCwes), w)))
  {
    var pairs := Lists(patterns, PatternCwes);
    var referenced := CollectReferenced(pairs);
    var existing := set k | k in weaknesses.values;
    var missing := referenced - existing;
    r := weaknesses;
    if missing != {} {
      var stubbed := AddStubs(weaknesses, missing);
      r := LinkStubCapecs(stubbed, missing, pairs);
      forall w | w in missing
        ensures r.values[w] == WithCapecs(Stub(w), Dedup(Sources(pairs, w)))
      {
        AddCapecsSpec(stubbed, missing, pairs, w);
      }
      assert forall k :: k in r.values <==> k in stubbed.values;
    } else {
      forall k | k in referenced ensures k in weaknesses.values {
        assert k !in missing;
      }
    }
  }
}

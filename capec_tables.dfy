/** The file loops of `extract_capec` and `extract_cwe`
    (scripts/extract-data.py): records keyed by prefixed id, categories
    keyed by their bare id, and the pass that fills in `children` from
    `parent`. */
module CapecTables {
  import opened Wrappers
  import opened Seqs
  import opened OrderedDict
  import opened CapecRecords

  /** A CAPEC file: one that failed to parse, or its patterns and categories. */
  datatype CapecFile = CapecParseError | CapecDocument(patterns: seq<PatternRecord>, categories: seq<CategoryRecord>)

  /** A CWE file: one that failed to parse, or its weaknesses and categories. */
  datatype CweFile = CweParseError | CweDocument(weaknesses: seq<WeaknessRecord>, categories: seq<CategoryRecord>)

  /** `patterns[f'CAPEC-{id}'] = {...}` for a record with an id. */
  function PatternEntry(rec: PatternRecord): (e: Option<(string, Entry)>)
    ensures e.None? <==> rec.id == ""
    ensures e.Some? ==> e.value.0 == "CAPEC-" + rec.id && e.value.1 == PatternOf(rec)
  {
    if rec.id == "" then None else Some(("CAPEC-" + rec.id, PatternOf(rec)))
  }

  /** `categories[id] = {id, name, members}` for a CAPEC category with an id. */
  function CapecCategoryEntry(rec: CategoryRecord): (e: Option<(string, Category)>)
    ensures e.None? <==> rec.id == ""
    ensures e.Some? ==> e.value.0 == rec.id && e.value.1 == CapecCategory(rec.id, rec.name, PrefixedIds("CAPEC-", rec.memberIds))
  {
    if rec.id == "" then None else Some((rec.id, CapecCategory(rec.id, rec.name, PrefixedIds("CAPEC-", rec.memberIds))))
  }

  /** `weaknesses[f'CWE-{id}'] = {...}` for a record with an id. */
  function WeaknessEntry(rec: WeaknessRecord): (e: Option<(string, Entry)>)
    ensures e.None? <==> rec.id == ""
    ensures e.Some? ==> e.value.0 == "CWE-" + rec.id && e.value.1 == WeaknessOf(rec)
  {
    if rec.id == "" then None else Some(("CWE-" + rec.id, WeaknessOf(rec)))
  }

  /** `categories[id] = {id, name}` for a CWE category with an id. */
  function CweCategoryEntry(rec: CategoryRecord): (e: Option<(string, Category)>)
    ensures e.None? <==> rec.id == ""
    ensures e.Some? ==> e.value.0 == rec.id && e.value.1 == CweCategory(rec.id, rec.name)
  {
    if rec.id == "" then None else Some((rec.id, CweCategory(rec.id, rec.name)))
  }

  /** The records of the files that parsed, in file order. */
  function CapecPatternRecords(files: seq<CapecFile>): seq<PatternRecord>
  {
    if files == [] then []
    else
      var f := files[|files| - 1];
      CapecPatternRecords(files[..|files| - 1]) + (if f.CapecDocument? then f.patterns else [])
  }

  function CapecCategoryRecords(files: seq<CapecFile>): seq<CategoryRecord>
  {
    if files == [] then []
    else
      var f := files[|files| - 1];
      CapecCategoryRecords(files[..|files| - 1]) + (if f.CapecDocument? then f.categories else [])
  }

  function CweWeaknessRecords(files: seq<CweFile>): seq<WeaknessRecord>
  {
    if files == [] then []
    else
      var f := files[|files| - 1];
      CweWeaknessRecords(files[..|files| - 1]) + (if f.CweDocument? then f.weaknesses else [])
  }

  function CweCategoryRecords(files: seq<CweFile>): seq<CategoryRecord>
  {
    if files == [] then []
    else
      var f := files[|files| - 1];
      CweCategoryRecords(files[..|files| - 1]) + (if f.CweDocument? then f.categories else [])
  }

  /** One step of the linking pass: `c` is appended to its parent's
      `children` when the parent is set and is a key. */
  function LinkStep(d: Dict<Entry>, c: string): (r: Dict<Entry>)
    requires d.Valid()
    ensures r.Valid()
  {
    if c in d.values && d.values[c].parent.Some? && d.values[c].parent.value != ""
       && d.values[c].parent.value in d.values
    then
      var p := d.values[c].parent.value;
      d.Put(p, d.values[p].(children := d.values[p].children + [c]))
    else d
  }

  function LinkOnto(d: Dict<Entry>, ks: seq<string>): (r: Dict<Entry>)
    requires d.Valid()
    ensures r.Valid()
  {
    if ks == [] then d else LinkStep(LinkOnto(d, ks[..|ks| - 1]), ks[|ks| - 1])
  }

  /** The table after its linking pass, which visits the keys in order. */
  function Linked(d: Dict<Entry>): (r: Dict<Entry>)
    requires d.Valid()
    ensures r.Valid()
  {
    LinkOnto(d, d.keys)
  }

  /** The keys among `ks` whose record names `p` as its parent, in order. */
  function ChildrenAmong(d: Dict<Entry>, ks: seq<string>, p: string): seq<string>
  {
    if ks == [] then []
    else
      var c := ks[|ks| - 1];
      ChildrenAmong(d, ks[..|ks| - 1], p) + (if c in d.values && d.values[c].parent == Some(p) && p != "" then [c] else [])
  }

  /** Linking over some keys changes only `children`, and appends to each
      record's list the keys among them that name it as parent. */
  lemma {:induction false} LinkOntoSpec(d: Dict<Entry>, ks: seq<string>)
    requires d.Valid()
    ensures LinkOnto(d, ks).keys == d.keys
    ensures forall k | k in d.values :: k in LinkOnto(d, ks).values
              && LinkOnto(d, ks).values[k] == d.values[k].(children := d.values[k].children + ChildrenAmong(d, ks, k))
    decreases |ks|
  {
    if ks == [] {
      forall k | k in d.values
        ensures d.values[k] == d.values[k].(children := d.values[k].children + [])
      {
        assert d.values[k].children + [] == d.values[k].children;
      }
    } else {
      var init := ks[..|ks| - 1];
      var c := ks[|ks| - 1];
      LinkOntoSpec(d, init);
      var m := LinkOnto(d, init);
      assert c in m.values <==> c in d.values;
      if c in d.values {
        assert m.values[c].parent == d.values[c].parent;
      }
      forall k | k in d.values
        ensures LinkOnto(d, ks).values[k] == d.values[k].(children := d.values[k].children + ChildrenAmong(d, ks, k))
      {
        var before := ChildrenAmong(d, init, k);
        if c in d.values && d.values[c].parent == Some(k) && k != "" {
          assert ChildrenAmong(d, ks, k) == before + [c];
          assert d.values[k].children + before + [c] == d.values[k].children + (before + [c]);
        } else {
          assert ChildrenAmong(d, ks, k) == before;
        }
      }
    }
  }

  /** The filter over distinct keys lists each child once. */
  lemma {:induction false} ChildrenAmongDistinct(d: Dict<Entry>, ks: seq<string>, p: string)
    requires Distinct(ks)
    ensures Distinct(ChildrenAmong(d, ks, p))
    decreases |ks|
  {
    if ks != [] {
      var init := ks[..|ks| - 1];
      ChildrenAmongDistinct(d, init, p);
      var r := ChildrenAmong(d, init, p);
      assert ks[|ks| - 1] !in init;
      ChildrenAmongMembers(d, init, p, ks[|ks| - 1]);
      DistinctAppend(r, [ks[|ks| - 1]]);
    }
  }

  lemma {:induction false} ChildrenAmongMembers(d: Dict<Entry>, ks: seq<string>, p: string, c: string)
    ensures c in ChildrenAmong(d, ks, p) <==> c in ks && c in d.values && d.values[c].parent == Some(p) && p != ""
    decreases |ks|
  {
    if ks != [] {
      ChildrenAmongMembers(d, ks[..|ks| - 1], p, c);
      assert ks == ks[..|ks| - 1] + [ks[|ks| - 1]];
    }
  }

  /** After linking a freshly built table, `c` is a child of the record `p`
      exactly when `c` is a record whose parent is `p`; each child is listed
      once, in table order; and nothing but `children` changes. */
  lemma LinkedChildren(d: Dict<Entry>, p: string, c: string)
    requires d.Valid()
    requires forall k | k in d.values :: d.values[k].children == []
    requires p in d.values
    ensures Linked(d).keys == d.keys
    ensures p in Linked(d).values
    ensures Linked(d).values[p] == d.values[p].(children := Linked(d).values[p].children)
    ensures c in Linked(d).values[p].children <==> c in d.values && d.values[c].parent == Some(p) && p != ""
    ensures Distinct(Linked(d).values[p].children)
  {
    LinkOntoSpec(d, d.keys);
    ChildrenAmongMembers(d, d.keys, p, c);
    ChildrenAmongDistinct(d, d.keys, p);
    assert [] + ChildrenAmong(d, d.keys, p) == ChildrenAmong(d, d.keys, p);
  }

  /** The linking loop over `patterns.items()` / `weaknesses.items()`. */
  method LinkChildren(d: Dict<Entry>) returns (r: Dict<Entry>)
    requires d.Valid()
    ensures r == Linked(d)
  {
    r := d;
    var ks := d.keys;
    for i := 0 to |ks|
      invariant r == LinkOnto(d, ks[..i])
    {
      assert ks[..i + 1][..i] == ks[..i];
      var c := ks[i];
      if c in r.values {
        var parent := r.values[c].parent;
        if parent.Some? && parent.value != "" && parent.value in r.values {
          var p := parent.value;
          r := r.Put(p, r.values[p].(children := r.values[p].children + [c]));
        }
      }
    }
    assert ks[..|ks|] == ks;
  }

  /** The `patterns` table `extract_capec` returns. */
  function CapecPatterns(files: seq<CapecFile>): (r: Dict<Entry>)
    ensures r.Valid()
  {
    Linked(Onto(Empty(), CapecPatternRecords(files), PatternEntry))
  }

  /** The `weaknesses` table `extract_cwe` returns. */
  function CweWeaknesses(files: seq<CweFile>): (r: Dict<Entry>)
    ensures r.Valid()
  {
    Linked(Onto(Empty(), CweWeaknessRecords(files), WeaknessEntry))
  }

  /** The pattern loop of one file. */
  method AddPatterns(patterns: Dict<Entry>, recs: seq<PatternRecord>) returns (r: Dict<Entry>)
    requires patterns.Valid()
    ensures r == Onto(patterns, recs, PatternEntry)
  {
    r := patterns;
    for j := 0 to |recs|
      invariant r == Onto(patterns, recs[..j], PatternEntry)
    {
      assert recs[..j + 1][..j] == recs[..j];
      var rec := recs[j];
      if rec.id == "" {
        continue;
      }
      var e := BuildPattern(rec);
      r := r.Put("CAPEC-" + rec.id, e);
    }
    assert recs[..|recs|] == recs;
  }

  /** The category loop of one CAPEC file. */
  method AddCapecCategories(categories: Dict<Category>, recs: seq<CategoryRecord>) returns (r: Dict<Category>)
    requires categories.Valid()
    ensures r == Onto(categories, recs, CapecCategoryEntry)
  {
    r := categories;
    for j := 0 to |recs|
      invariant r == Onto(categories, recs[..j], CapecCategoryEntry)
    {
      assert recs[..j + 1][..j] == recs[..j];
      var cat := recs[j];
      if cat.id == "" {
        continue;
      }
      var members := CollectPrefixed("CAPEC-", cat.memberIds);
      r := r.Put(cat.id, CapecCategory(cat.id, cat.name, members));
    }
    assert recs[..|recs|] == recs;
  }

  /** The weakness loop of one file. */
  method AddWeaknesses(weaknesses: Dict<Entry>, recs: seq<WeaknessRecord>) returns (r: Dict<Entry>)
    requires weaknesses.Valid()
    ensures r == Onto(weaknesses, recs, WeaknessEntry)
  {
    r := weaknesses;
    for j := 0 to |recs|
      invariant r == Onto(weaknesses, recs[..j], WeaknessEntry)
    {
      assert recs[..j + 1][..j] == recs[..j];
      var rec := recs[j];
      if rec.id == "" {
        continue;
      }
      var e := BuildWeakness(rec);
      r := r.Put("CWE-" + rec.id, e);
    }
    assert recs[..|recs|] == recs;
  }

  /** The category loop of one CWE file. */
  method AddCweCategories(categories: Dict<Category>, recs: seq<CategoryRecord>) returns (r: Dict<Category>)
    requires categories.Valid()
    ensures r == Onto(categories, recs, CweCategoryEntry)
  {
    r := categories;
    for j := 0 to |recs|
      invariant r == Onto(categories, recs[..j], CweCategoryEntry)
    {
      assert recs[..j + 1][..j] == recs[..j];
      var cat := recs[j];
      if cat.id == "" {
        continue;
      }
      r := r.Put(cat.id, CweCategory(cat.id, cat.name));
    }
    assert recs[..|recs|] == recs;
  }

  /** `extract_capec` over parsed files. */
  method ExtractCapec(files: seq<CapecFile>) returns (patterns: Dict<Entry>, categories: Dict<Category>)
    ensures patterns == CapecPatterns(files)
    ensures categories == Onto(Empty(), CapecCategoryRecords(files), CapecCategoryEntry)
  {
    patterns := Empty();
    categories := Empty();
    for f := 0 to |files|
      invariant patterns == Onto(Empty(), CapecPatternRecords(files[..f]), PatternEntry)
      invariant categories == Onto(Empty(), CapecCategoryRecords(files[..f]), CapecCategoryEntry)
    {
      assert files[..f + 1][..f] == files[..f];
      var file := files[f];
      assert files[..f + 1][f] == file;
      if file.CapecParseError? {
        assert CapecPatternRecords(files[..f + 1]) == CapecPatternRecords(files[..f]) + [] == CapecPatternRecords(files[..f]);
        assert CapecCategoryRecords(files[..f + 1]) == CapecCategoryRecords(files[..f]) + [] == CapecCategoryRecords(files[..f]);
        continue;
      }
      assert CapecPatternRecords(files[..f + 1]) == CapecPatternRecords(files[..f]) + file.patterns;
      assert CapecCategoryRecords(files[..f + 1]) == CapecCategoryRecords(files[..f]) + file.categories;
      OntoAppend(Empty(), CapecPatternRecords(files[..f]), file.patterns, PatternEntry);
      OntoAppend(Empty(), CapecCategoryRecords(files[..f]), file.categories, CapecCategoryEntry);
      patterns := AddPatterns(patterns, file.patterns);
      categories := AddCapecCategories(categories, file.categories);
    }
    assert files[..|files|] == files;
    patterns := LinkChildren(patterns);
  }

  /** `extract_cwe` over parsed files. */
  method ExtractCwe(files: seq<CweFile>) returns (weaknesses: Dict<Entry>, categories: Dict<Category>)
    ensures weaknesses == CweWeaknesses(files)
    ensures categories == Onto(Empty(), CweCategoryRecords(files), CweCategoryEntry)
  {
    weaknesses := Empty();
    categories := Empty();
    for f := 0 to |files|
      invariant weaknesses == Onto(Empty(), CweWeaknessRecords(files[..f]), WeaknessEntry)
      invariant categories == Onto(Empty(), CweCategoryRecords(files[..f]), CweCategoryEntry)
    {
      assert files[..f + 1][..f] == files[..f];
      var file := files[f];
      assert files[..f + 1][f] == file;
      if file.CweParseError? {
        assert CweWeaknessRecords(files[..f + 1]) == CweWeaknessRecords(files[..f]) + [] == CweWeaknessRecords(files[..f]);
        assert CweCategoryRecords(files[..f + 1]) == CweCategoryRecords(files[..f]) + [] == CweCategoryRecords(files[..f]);
        continue;
      }
      assert CweWeaknessRecords(files[..f + 1]) == CweWeaknessRecords(files[..f]) + file.weaknesses;
      assert CweCategoryRecords(files[..f + 1]) == CweCategoryRecords(files[..f]) + file.categories;
      OntoAppend(Empty(), CweWeaknessRecords(files[..f]), file.weaknesses, WeaknessEntry);
      OntoAppend(Empty(), CweCategoryRecords(files[..f]), file.categories, CweCategoryEntry);
      weaknesses := AddWeaknesses(weaknesses, file.weaknesses);
      categories := AddCweCategories(categories, file.categories);
    }
    assert files[..|files|] == files;
    weaknesses := LinkChildren(weaknesses);
  }

  /** Every value the records put in satisfies `ok` when every value they
      produce and every value already there does. */
  lemma {:induction false} OntoValues<R, V>(d: Dict<V>, recs: seq<R>, entryOf: R -> Option<(string, V)>, ok: V -> bool)
    requires d.Valid()
    requires forall k | k in d.values :: ok(d.values[k])
    requires forall j | 0 <= j < |recs| :: entryOf(recs[j]).Some? ==> ok(entryOf(recs[j]).value.1)
    ensures forall k | k in Onto(d, recs, entryOf).values :: ok(Onto(d, recs, entryOf).values[k])
    decreases |recs|
  {
    if recs != [] {
      OntoValues(d, recs[..|recs| - 1], entryOf, ok);
    }
  }

  /** A record with its `children` replaced. */
  function WithChildren(e: Entry, children: seq<string>): (r: Entry)
    ensures r.children == children
  {
    e.(children := children)
  }

  predicate NoChildren(e: Entry) {
    e.children == []
  }

  /** `CAPEC-` ids are equal exactly when the bare ids are. */
  lemma PrefixCancel(prefix: string, a: string, b: string)
    ensures prefix + a == prefix + b <==> a == b
  {
    if prefix + a == prefix + b {
      assert a == (prefix + a)[|prefix|..];
      assert b == (prefix + b)[|prefix|..];
    }
  }

  /** The pattern table holds, under `CAPEC-<id>`, the record built from the
      last pattern element with that id (only its `children` filled in by
      linking), with a description of at most 500 characters. */
  lemma PatternFromLastRecord(files: seq<CapecFile>, i: nat)
    requires i < |CapecPatternRecords(files)|
    requires CapecPatternRecords(files)[i].id != ""
    requires forall j | i < j < |CapecPatternRecords(files)| ::
               CapecPatternRecords(files)[j].id != CapecPatternRecords(files)[i].id
    ensures "CAPEC-" + CapecPatternRecords(files)[i].id in CapecPatterns(files).values
    ensures CapecPatterns(files).values["CAPEC-" + CapecPatternRecords(files)[i].id]
         == WithChildren(PatternOf(CapecPatternRecords(files)[i]),
              CapecPatterns(files).values["CAPEC-" + CapecPatternRecords(files)[i].id].children)
    ensures |CapecPatterns(files).values["CAPEC-" + CapecPatternRecords(files)[i].id].description| <= DescriptionLimit
  {
    var recs := CapecPatternRecords(files);
    var key := "CAPEC-" + recs[i].id;
    forall j | i < j < |recs| && PatternEntry(recs[j]).Some?
      ensures PatternEntry(recs[j]).value.0 != key
    {
      PrefixCancel("CAPEC-", recs[j].id, recs[i].id);
    }
    var built := Onto(Empty(), recs, PatternEntry);
    OntoLast(Empty(), recs, PatternEntry, i);
    LinkOntoSpec(built, built.keys);
  }

  /** A pattern whose id no record carries is not in the table; in particular
      records with an empty `ID` add nothing. */
  lemma PatternKeysProduced(files: seq<CapecFile>, k: string)
    requires forall j | 0 <= j < |CapecPatternRecords(files)| ::
               CapecPatternRecords(files)[j].id == "" || k != "CAPEC-" + CapecPatternRecords(files)[j].id
    ensures k !in CapecPatterns(files).values
  {
    var built := Onto(Empty(), CapecPatternRecords(files), PatternEntry);
    OntoOnlyProduced(Empty(), CapecPatternRecords(files), PatternEntry, k);
    LinkOntoSpec(built, built.keys);
  }

  /** After `extract_capec`, `c` is listed in the `children` of pattern `p`
      exactly when `c` is a pattern whose parent is `p`, once each, in table
      order. */
  lemma PatternChildren(files: seq<CapecFile>, p: string, c: string)
    requires p in CapecPatterns(files).values
    ensures c in CapecPatterns(files).values[p].children <==>
              c in CapecPatterns(files).values && CapecPatterns(files).values[c].parent == Some(p)
    ensures Distinct(CapecPatterns(files).values[p].children)
  {
    var built := Onto(Empty(), CapecPatternRecords(files), PatternEntry);
    OntoValues(Empty(), CapecPatternRecords(files), PatternEntry, NoChildren);
    LinkOntoSpec(built, built.keys);
    LinkedChildren(built, p, c);
    if c in built.values {
      assert CapecPatterns(files).values[c].parent == built.values[c].parent;
    }
    assert p != "" by {
      assert p in built.values;
      OntoChildOfKnown(CapecPatternRecords(files), p);
    }
  }

  /** Pattern keys are never empty: they start with `CAPEC-`. */
  lemma OntoChildOfKnown(recs: seq<PatternRecord>, k: string)
    requires k in Onto(Empty(), recs, PatternEntry).values
    ensures k != ""
  {
    if k == "" {
      forall j | 0 <= j < |recs| && PatternEntry(recs[j]).Some?
        ensures PatternEntry(recs[j]).value.0 != k
      {
        assert |PatternEntry(recs[j]).value.0| >= 6;
      }
      OntoOnlyProduced(Empty(), recs, PatternEntry, k);
    }
  }

  /** After `extract_cwe`, the same holds for weaknesses. */
  lemma WeaknessChildren(files: seq<CweFile>, p: string, c: string)
    requires p in CweWeaknesses(files).values
    ensures c in CweWeaknesses(files).values[p].children <==>
              c in CweWeaknesses(files).values && CweWeaknesses(files).values[c].parent == Some(p)
    ensures Distinct(CweWeaknesses(files).values[p].children)
  {
    var built := Onto(Empty(), CweWeaknessRecords(files), WeaknessEntry);
    OntoValues(Empty(), CweWeaknessRecords(files), WeaknessEntry, NoChildren);
    LinkOntoSpec(built, built.keys);
    LinkedChildren(built, p, c);
    if c in built.values {
      assert CweWeaknesses(files).values[c].parent == built.values[c].parent;
    }
    assert p != "" by {
      assert p in built.values;
      WeaknessKeysNonEmpty(CweWeaknessRecords(files), p);
    }
  }

  /** Weakness keys are never empty: they start with `CWE-`. */
  lemma WeaknessKeysNonEmpty(recs: seq<WeaknessRecord>, k: string)
    requires k in Onto(Empty(), recs, WeaknessEntry).values
    ensures k != ""
  {
    if k == "" {
      forall j | 0 <= j < |recs| && WeaknessEntry(recs[j]).Some?
        ensures WeaknessEntry(recs[j]).value.0 != k
      {
        assert |WeaknessEntry(recs[j]).value.0| >= 4;
      }
      OntoOnlyProduced(Empty(), recs, WeaknessEntry, k);
    }
  }
}

/** Insertion-ordered dictionaries, as both JavaScript plain objects (for
    non-numeric keys) and Python 3 dicts behave. Every dictionary of the model
    is keyed by strings. Here assigning to a new key appends
    it at the end, assigning to an existing key replaces the value in place and
    keeps the key's position. */
module OrderedDict {
  import opened Wrappers
  import opened Seqs

  datatype Dict<V> = Dict(keys: seq<string>, values: map<string, V>) {

    /** The keys are listed once each, and they are exactly the mapped keys. */
    ghost predicate Valid() {
      Distinct(keys) && forall k :: k in values <==> k in keys
    }

    /** `d[k] = v`. */
    function Put(k: string, v: V): (d: Dict<V>)
      requires Valid()
      ensures d.Valid()
      ensures d.values == values[k := v]
      ensures k in values ==> d.keys == keys
      ensures k !in values ==> d.keys == keys + [k]
    {
      if k in values then Dict(keys, values[k := v]) else Dict(keys + [k], values[k := v])
    }
  }

  /** `{}`. */
  function Empty<V>(): (d: Dict<V>)
    ensures d.Valid() && d.keys == [] && d.values == map[]
  {
    Dict([], map[])
  }

  /** The keys of a list of pairs, in order. */
  function PairKeys<V>(pairs: seq<(string, V)>): (r: seq<string>)
    ensures |r| == |pairs| && forall i | 0 <= i < |pairs| :: r[i] == pairs[i].0
  {
    if pairs == [] then [] else PairKeys(pairs[..|pairs| - 1]) + [pairs[|pairs| - 1].0]
  }

  /** `Object.entries(d)` / `d.items()`: the pairs in key order. */
  function Entries<V>(d: Dict<V>): (r: seq<(string, V)>)
    requires d.Valid()
    ensures |r| == |d.keys|
    ensures forall i | 0 <= i < |r| :: r[i] == (d.keys[i], d.values[d.keys[i]])
  {
    seq(|d.keys|, i requires 0 <= i < |d.keys| => (d.keys[i], d.values[d.keys[i]]))
  }

  /** Assigning the pairs to `d` one after another. */
  function PutAll<V>(d: Dict<V>, pairs: seq<(string, V)>): (r: Dict<V>)
    requires d.Valid()
    ensures r.Valid()
  {
    if pairs == [] then d
    else PutAll(d, pairs[..|pairs| - 1]).Put(pairs[|pairs| - 1].0, pairs[|pairs| - 1].1)
  }

  /** `Object.assign(target, source)`: the source's entries assigned in order. */
  function Assign<V>(target: Dict<V>, source: Dict<V>): (r: Dict<V>)
    requires target.Valid() && source.Valid()
    ensures r.Valid()
  {
    PutAll(target, Entries(source))
  }

  /** Assigning pairs whose keys are new and distinct appends them. */
  lemma PutAllFresh<V>(d: Dict<V>, pairs: seq<(string, V)>)
    requires d.Valid()
    requires Distinct(PairKeys(pairs))
    requires forall k | k in d.keys :: k !in PairKeys(pairs)
    ensures PutAll(d, pairs).keys == d.keys + PairKeys(pairs)
    ensures forall k | k in d.values :: PutAll(d, pairs).values[k] == d.values[k]
    ensures forall i | 0 <= i < |pairs| :: PutAll(d, pairs).values[pairs[i].0] == pairs[i].1
  {
    PutAllFreshKeys(d, pairs);
    PutAllMembers(d, pairs);
    PutAllFreshValues(d, pairs);
  }

  lemma {:induction false} PutAllFreshKeys<V>(d: Dict<V>, pairs: seq<(string, V)>)
    requires d.Valid()
    requires Distinct(PairKeys(pairs))
    requires forall k | k in d.keys :: k !in PairKeys(pairs)
    ensures PutAll(d, pairs).keys == d.keys + PairKeys(pairs)
    decreases |pairs|
  {
    if pairs != [] {
      var init := pairs[..|pairs| - 1];
      var last := pairs[|pairs| - 1];
      assert PairKeys(init) == PairKeys(pairs)[..|pairs| - 1];
      PutAllFreshKeys(d, init);
      var r := PutAll(d, init);
      assert PutAll(d, pairs) == r.Put(last.0, last.1);
      assert PairKeys(pairs) == PairKeys(init) + [last.0];
      assert last.0 !in PairKeys(init);
      assert last.0 !in r.keys;
    }
  }

  /** Assigning pairs maps exactly the old keys and the pairs' keys. */
  lemma {:induction false} PutAllMembers<V>(d: Dict<V>, pairs: seq<(string, V)>)
    requires d.Valid()
    ensures forall k :: k in PutAll(d, pairs).values <==> k in d.values || k in PairKeys(pairs)
    decreases |pairs|
  {
    if pairs != [] {
      var init := pairs[..|pairs| - 1];
      PutAllMembers(d, init);
      assert PairKeys(pairs) == PairKeys(init) + [pairs[|pairs| - 1].0];
    }
  }

  lemma {:induction false} PutAllFreshValues<V>(d: Dict<V>, pairs: seq<(string, V)>)
    requires d.Valid()
    requires Distinct(PairKeys(pairs))
    requires forall k | k in d.keys :: k !in PairKeys(pairs)
    requires forall k :: k in PutAll(d, pairs).values <==> k in d.values || k in PairKeys(pairs)
    ensures forall k | k in d.values :: PutAll(d, pairs).values[k] == d.values[k]
    ensures forall i | 0 <= i < |pairs| :: PutAll(d, pairs).values[pairs[i].0] == pairs[i].1
    decreases |pairs|
  {
    if pairs != [] {
      var init := pairs[..|pairs| - 1];
      var last := pairs[|pairs| - 1];
      assert PairKeys(init) == PairKeys(pairs)[..|pairs| - 1];
      PutAllMembers(d, init);
      PutAllFreshValues(d, init);
      var r := PutAll(d, init);
      assert PutAll(d, pairs).values == r.values[last.0 := last.1];
      assert PairKeys(pairs)[|pairs| - 1] == last.0;
      assert last.0 !in d.keys;
      forall k | k in d.values
        ensures PutAll(d, pairs).values[k] == d.values[k]
      {
        assert k != last.0;
      }
      forall i | 0 <= i < |pairs| - 1
        ensures PutAll(d, pairs).values[pairs[i].0] == pairs[i].1
      {
        assert init[i] == pairs[i];
        assert PairKeys(pairs)[i] != PairKeys(pairs)[|pairs| - 1];
      }
    }
  }

  /** `Object.assign` from a source none of whose keys the target has: the
      keys follow one another and the values are the union. */
  lemma AssignDisjoint<V>(target: Dict<V>, source: Dict<V>)
    requires target.Valid() && source.Valid()
    requires forall k | k in target.keys :: k !in source.keys
    ensures Assign(target, source).keys == target.keys + source.keys
    ensures Assign(target, source).values == target.values + source.values
  {
    var pairs := Entries(source);
    assert PairKeys(pairs) == source.keys;
    PutAllFresh(target, pairs);
    var r := PutAll(target, pairs);
    forall k | k in source.values
      ensures r.values[k] == source.values[k]
    {
      var i :| 0 <= i < |source.keys| && source.keys[i] == k;
      assert pairs[i] == (k, source.values[k]);
    }
    MapIsUnion(r.values, target.values, source.values);
  }

  lemma MapIsUnion<V>(r: map<string, V>, a: map<string, V>, b: map<string, V>)
    requires forall k :: k in r <==> k in a || k in b
    requires forall k | k in a && k !in b :: r[k] == a[k]
    requires forall k | k in b :: r[k] == b[k]
    ensures r == a + b
  {
  }

  /** `d[key] = value` for each record in order; a record for which `entryOf`
      gives nothing is skipped. */
  function Onto<R, V>(d: Dict<V>, recs: seq<R>, entryOf: R -> Option<(string, V)>): (r: Dict<V>)
    requires d.Valid()
    ensures r.Valid()
  {
    if recs == [] then d
    else
      var r := Onto(d, recs[..|recs| - 1], entryOf);
      var e := entryOf(recs[|recs| - 1]);
      if e.None? then r else r.Put(e.value.0, e.value.1)
  }

  /** The keys the records produce, in record order, repeats kept. */
  function RecordKeys<R, V>(recs: seq<R>, entryOf: R -> Option<(string, V)>): seq<string>
  {
    if recs == [] then []
    else
      var e := entryOf(recs[|recs| - 1]);
      RecordKeys(recs[..|recs| - 1], entryOf) + (if e.None? then [] else [e.value.0])
  }

  /** Starting from `{}`, every produced key is listed once, at the position
      of its first record. */
  lemma {:induction false} OntoKeys<R, V>(recs: seq<R>, entryOf: R -> Option<(string, V)>)
    ensures Onto(Empty(), recs, entryOf).keys == Dedup(RecordKeys(recs, entryOf))
    decreases |recs|
  {
    if recs != [] {
      var init := recs[..|recs| - 1];
      OntoKeys(init, entryOf);
      var before := RecordKeys(init, entryOf);
      DedupSpec(before);
      var e := entryOf(recs[|recs| - 1]);
      if e.Some? {
        var ks := before + [e.value.0];
        assert RecordKeys(recs, entryOf) == ks;
        assert ks[..|ks| - 1] == before;
      } else {
        assert RecordKeys(recs, entryOf) == before;
      }
    }
  }

  /** Records of two runs in a row give the same table as one after the other. */
  lemma {:induction false} OntoAppend<R, V>(d: Dict<V>, a: seq<R>, b: seq<R>, entryOf: R -> Option<(string, V)>)
    requires d.Valid()
    ensures Onto(d, a + b, entryOf) == Onto(Onto(d, a, entryOf), b, entryOf)
    decreases |b|
  {
    if b == [] {
      assert a + b == a;
    } else {
      assert (a + b)[..|a + b| - 1] == a + b[..|b| - 1];
      OntoAppend(d, a, b[..|b| - 1], entryOf);
    }
  }

  /** A key's value comes from the last record that produced it: a later
      record with the same id overwrites an earlier one. */
  lemma {:induction false} OntoLast<R, V>(d: Dict<V>, recs: seq<R>, entryOf: R -> Option<(string, V)>, i: nat)
    requires d.Valid()
    requires i < |recs| && entryOf(recs[i]).Some?
    requires forall j | i < j < |recs| :: entryOf(recs[j]).None? || entryOf(recs[j]).value.0 != entryOf(recs[i]).value.0
    ensures entryOf(recs[i]).value.0 in Onto(d, recs, entryOf).values
    ensures Onto(d, recs, entryOf).values[entryOf(recs[i]).value.0] == entryOf(recs[i]).value.1
    decreases |recs|
  {
    var init := recs[..|recs| - 1];
    if i < |recs| - 1 {
      assert init[i] == recs[i];
      OntoLast(d, init, entryOf, i);
    }
  }

  /** A key is present only if some record produced it or it was there. */
  lemma {:induction false} OntoOnlyProduced<R, V>(d: Dict<V>, recs: seq<R>, entryOf: R -> Option<(string, V)>, k: string)
    requires d.Valid()
    requires k !in d.values
    requires forall j | 0 <= j < |recs| :: entryOf(recs[j]).None? || entryOf(recs[j]).value.0 != k
    ensures k !in Onto(d, recs, entryOf).values
    decreases |recs|
  {
    if recs != [] {
      OntoOnlyProduced(d, recs[..|recs| - 1], entryOf, k);
    }
  }

  /** `if key not in d: d[key] = value` for each record in order: the first
      record of a key wins. */
  function OntoFirst<R, V>(d: Dict<V>, recs: seq<R>, entryOf: R -> Option<(string, V)>): (r: Dict<V>)
    requires d.Valid()
    ensures r.Valid()
  {
    if recs == [] then d
    else
      var r := OntoFirst(d, recs[..|recs| - 1], entryOf);
      var e := entryOf(recs[|recs| - 1]);
      if e.None? || e.value.0 in r.values then r else r.Put(e.value.0, e.value.1)
  }

  /** Later records only add keys: the old keys stay first with their
      values, and a key is present exactly when it was or a record produced it. */
  lemma {:induction false} OntoFirstKeeps<R, V>(d: Dict<V>, recs: seq<R>, entryOf: R -> Option<(string, V)>)
    requires d.Valid()
    ensures |OntoFirst(d, recs, entryOf).keys| >= |d.keys|
    ensures OntoFirst(d, recs, entryOf).keys[..|d.keys|] == d.keys
    ensures forall k | k in d.values :: k in OntoFirst(d, recs, entryOf).values && OntoFirst(d, recs, entryOf).values[k] == d.values[k]
    ensures forall k :: k in OntoFirst(d, recs, entryOf).values <==>
              k in d.values || exists i | 0 <= i < |recs| :: entryOf(recs[i]).Some? && entryOf(recs[i]).value.0 == k
    decreases |recs|
  {
    if recs != [] {
      var init := recs[..|recs| - 1];
      OntoFirstKeeps(d, init, entryOf);
      assert forall i | 0 <= i < |init| :: init[i] == recs[i];
      var r := OntoFirst(d, init, entryOf);
      var e := entryOf(recs[|recs| - 1]);
      if e.Some? && e.value.0 !in r.values {
        assert r.Put(e.value.0, e.value.1).keys[..|d.keys|] == r.keys[..|d.keys|];
      }
    }
  }

  /** A key absent at the start takes the value of its first record. */
  lemma {:induction false} OntoFirstWins<R, V>(d: Dict<V>, recs: seq<R>, entryOf: R -> Option<(string, V)>, i: nat)
    requires d.Valid()
    requires i < |recs| && entryOf(recs[i]).Some? && entryOf(recs[i]).value.0 !in d.values
    requires forall j | 0 <= j < i :: entryOf(recs[j]).None? || entryOf(recs[j]).value.0 != entryOf(recs[i]).value.0
    ensures entryOf(recs[i]).value.0 in OntoFirst(d, recs, entryOf).values
    ensures OntoFirst(d, recs, entryOf).values[entryOf(recs[i]).value.0] == entryOf(recs[i]).value.1
    decreases |recs|
  {
    var init := recs[..|recs| - 1];
    var k := entryOf(recs[i]).value.0;
    if i < |recs| - 1 {
      assert init[i] == recs[i];
      OntoFirstWins(d, init, entryOf, i);
    } else {
      forall j | 0 <= j < |init| ensures entryOf(init[j]).None? || entryOf(init[j]).value.0 != k {
        assert init[j] == recs[j];
      }
      OntoFirstAbsent(d, init, entryOf, k);
    }
  }

  /** Without a record for it, a key absent at the start stays absent. */
  lemma {:induction false} OntoFirstAbsent<R, V>(d: Dict<V>, recs: seq<R>, entryOf: R -> Option<(string, V)>, k: string)
    requires d.Valid()
    requires k !in d.values
    requires forall j | 0 <= j < |recs| :: entryOf(recs[j]).None? || entryOf(recs[j]).value.0 != k
    ensures k !in OntoFirst(d, recs, entryOf).values
    decreases |recs|
  {
    if recs != [] {
      OntoFirstAbsent(d, recs[..|recs| - 1], entryOf, k);
    }
  }

  /** Records of two runs in a row give the same table as one after the other. */
  lemma {:induction false} OntoFirstAppend<R, V>(d: Dict<V>, a: seq<R>, b: seq<R>, entryOf: R -> Option<(string, V)>)
    requires d.Valid()
    ensures OntoFirst(d, a + b, entryOf) == OntoFirst(OntoFirst(d, a, entryOf), b, entryOf)
    decreases |b|
  {
    if b == [] {
      assert a + b == a;
    } else {
      assert (a + b)[..|a + b| - 1] == a + b[..|b| - 1];
      OntoFirstAppend(d, a, b[..|b| - 1], entryOf);
    }
  }

}

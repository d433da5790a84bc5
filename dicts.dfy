/** Python dictionaries with string keys, which remember insertion order. */
module Dicts {

  /** `keys` is the iteration order, `entries` the mapping. */
  datatype Dict<V> = Dict(keys: seq<string>, entries: map<string, V>)
  {
    ghost predicate Valid()
    {
      && Distinct(keys)
      && (forall k :: k in entries <==> k in keys)
    }

    /** `d[k] = v`: a new key goes last, an existing key keeps its place
        and only its value changes. */
    function Put(k: string, v: V): (d: Dict<V>)
      requires Valid()
      ensures d.Valid()
      ensures k in d.entries && d.entries[k] == v
      ensures forall k' :: k' != k ==> (k' in d.entries <==> k' in entries)
      ensures forall k' :: k' != k && k' in entries ==> d.entries[k'] == entries[k']
      ensures d.keys == if k in entries then keys else keys + [k]
    {
      if k in entries then Dict(keys, entries[k := v])
      else
        DistinctAppend(keys, k);
        Dict(keys + [k], entries[k := v])
    }

    /** `d.items()`, in insertion order. */
    function Items(): seq<(string, V)>
      requires Valid()
    {
      seq(|keys|, i requires 0 <= i < |keys| => (keys[i], entries[keys[i]]))
    }
  }

  /** `s[i]`, named so that the distinctness below is only used where a
      proof asks for it. */
  function At(s: seq<string>, i: nat): string
    requires i < |s|
  {
    s[i]
  }

  /** No key occurs twice. */
  ghost predicate Distinct(s: seq<string>)
  {
    forall i, j :: 0 <= i < j < |s| ==> At(s, i) != At(s, j)
  }

  lemma DistinctIndices(s: seq<string>)
    requires Distinct(s)
    ensures forall i, j :: 0 <= i < j < |s| ==> s[i] != s[j]
  {
    forall i, j | 0 <= i < j < |s| ensures s[i] != s[j] {
      assert At(s, i) != At(s, j);
    }
  }

  lemma DistinctAppend(s: seq<string>, k: string)
    requires Distinct(s) && k !in s
    ensures Distinct(s + [k])
  {
    forall i, j | 0 <= i < j < |s| + 1 ensures At(s + [k], i) != At(s + [k], j) {
      if j < |s| {
        assert At(s + [k], i) == At(s, i) && At(s + [k], j) == At(s, j);
      } else {
        assert At(s + [k], i) == s[i];
      }
    }
  }

  /** `{}` */
  function Empty<V>(): (d: Dict<V>)
    ensures d.Valid() && |d.keys| == 0 && d.entries == map[]
  {
    Dict([], map[])
  }

  /** The effect of `d[k] = v` on the mapping alone. */
  lemma PutEntries<V>(d: Dict<V>, k: string, v: V)
    requires d.Valid()
    ensures d.Put(k, v).entries == d.entries[k := v]
  {
  }

  /** Writing a key twice leaves what the second write left. */
  lemma PutPut<V>(d: Dict<V>, k: string, a: V, b: V)
    requires d.Valid()
    ensures d.Put(k, a).Put(k, b) == d.Put(k, b)
  {
    assert d.entries[k := a][k := b] == d.entries[k := b];
  }

  /** The keys of `d.items()` are distinct and are exactly the dict's keys. */
  lemma ItemsKeys<V>(d: Dict<V>)
    requires d.Valid()
    ensures |d.Items()| == |d.keys|
    ensures forall i, j :: 0 <= i < j < |d.Items()| ==> d.Items()[i].0 != d.Items()[j].0
    ensures forall i :: 0 <= i < |d.Items()| ==> d.Items()[i].0 in d.entries && d.Items()[i].1 == d.entries[d.Items()[i].0]
    ensures forall k :: k in d.entries ==> exists i :: 0 <= i < |d.Items()| && d.Items()[i].0 == k
  {
    DistinctIndices(d.keys);
    forall k | k in d.entries ensures exists i :: 0 <= i < |d.Items()| && d.Items()[i].0 == k {
      var i :| 0 <= i < |d.keys| && d.keys[i] == k;
      assert d.Items()[i].0 == k;
    }
  }

  /** The dict a loop of `d[k] = v` over `pairs` leaves, starting from `{}`. */
  function PutAll<V>(pairs: seq<(string, V)>): (d: Dict<V>)
    ensures d.Valid()
  {
    if |pairs| == 0 then Empty()
    else PutAll(pairs[..|pairs| - 1]).Put(pairs[|pairs| - 1].0, pairs[|pairs| - 1].1)
  }

  /** No later pair writes the same key. */
  predicate LastWrite<V>(pairs: seq<(string, V)>, i: nat)
  {
    forall j :: i < j < |pairs| ==> pairs[j].0 != pairs[i].0
  }

  predicate DistinctKeys<V>(pairs: seq<(string, V)>)
  {
    forall i, j :: 0 <= i < j < |pairs| ==> pairs[i].0 != pairs[j].0
  }

  /** The keys written, in order. */
  function WrittenKeys<V>(pairs: seq<(string, V)>): (ks: seq<string>)
    ensures |ks| == |pairs| && forall i :: 0 <= i < |pairs| ==> ks[i] == pairs[i].0
  {
    if |pairs| == 0 then [] else WrittenKeys(pairs[..|pairs| - 1]) + [pairs[|pairs| - 1].0]
  }

  /** Every written key is present, and nothing else is. */
  lemma {:induction false} PutAllKeys<V>(pairs: seq<(string, V)>)
    ensures forall i :: 0 <= i < |pairs| ==> pairs[i].0 in PutAll(pairs).entries
    ensures forall k :: k in PutAll(pairs).entries ==> k in WrittenKeys(pairs)
  {
    if |pairs| > 0 {
      var n := |pairs| - 1;
      var p := pairs[..n];
      PutAllKeys(p);
      var before, after := PutAll(p), PutAll(pairs);
      assert after == before.Put(pairs[n].0, pairs[n].1);
      forall i | 0 <= i < n ensures pairs[i].0 in after.entries {
        assert p[i] == pairs[i];
        assert pairs[i].0 in before.entries;
      }
      assert WrittenKeys(pairs) == WrittenKeys(p) + [pairs[n].0];
      forall k | k in after.entries ensures k in WrittenKeys(pairs) {
        if k != pairs[n].0 {
          assert k in before.entries;
          assert k in WrittenKeys(p);
        }
      }
    }
  }

  /** A key holds the value of its last write. */
  lemma PutAllLast<V>(pairs: seq<(string, V)>)
    ensures forall i :: 0 <= i < |pairs| && LastWrite(pairs, i) ==>
      pairs[i].0 in PutAll(pairs).entries && PutAll(pairs).entries[pairs[i].0] == pairs[i].1
  {
    PutAllEntries(pairs);
    WriteMapLast(pairs);
  }

  /** The mapping a run of writes leaves, without the order. */
  function WriteMap<V>(pairs: seq<(string, V)>): map<string, V>
  {
    if |pairs| == 0 then map[]
    else WriteMap(pairs[..|pairs| - 1])[pairs[|pairs| - 1].0 := pairs[|pairs| - 1].1]
  }

  lemma {:induction false} PutAllEntries<V>(pairs: seq<(string, V)>)
    ensures PutAll(pairs).entries == WriteMap(pairs)
  {
    if |pairs| > 0 {
      var n := |pairs| - 1;
      PutAllEntries(pairs[..n]);
      PutEntries(PutAll(pairs[..n]), pairs[n].0, pairs[n].1);
    }
  }

  lemma {:induction false} WriteMapLast<V>(pairs: seq<(string, V)>)
    ensures forall i :: 0 <= i < |pairs| && LastWrite(pairs, i) ==>
      pairs[i].0 in WriteMap(pairs) && WriteMap(pairs)[pairs[i].0] == pairs[i].1
  {
    if |pairs| > 0 {
      var n := |pairs| - 1;
      var p := pairs[..n];
      WriteMapLast(p);
      forall i | 0 <= i < n && LastWrite(pairs, i)
        ensures pairs[i].0 in WriteMap(pairs) && WriteMap(pairs)[pairs[i].0] == pairs[i].1
      {
        assert p[i] == pairs[i] && pairs[n].0 != pairs[i].0;
        assert LastWrite(p, i);
      }
    }
  }

  /** With distinct keys, the dict's order is the order of the writes. */
  lemma {:induction false} PutAllOrder<V>(pairs: seq<(string, V)>)
    requires DistinctKeys(pairs)
    ensures PutAll(pairs).keys == WrittenKeys(pairs)
  {
    if |pairs| > 0 {
      var n := |pairs| - 1;
      var p := pairs[..n];
      assert DistinctKeys(p) by {
        forall i, j | 0 <= i < j < n ensures p[i].0 != p[j].0 {
          assert p[i] == pairs[i] && p[j] == pairs[j];
        }
      }
      PutAllOrder(p);
      var k := pairs[n].0;
      assert k !in PutAll(p).entries by {
        PutAllKeys(p);
      }
      assert PutAll(pairs).keys == PutAll(p).keys + [k];
    }
  }

  /** The distinct keys of `ks`, each at the place of its first occurrence. */
  function FirstOccurrences(ks: seq<string>): (fs: seq<string>)
  {
    if |ks| == 0 then []
    else
      var fs := FirstOccurrences(ks[..|ks| - 1]);
      if ks[|ks| - 1] in fs then fs else fs + [ks[|ks| - 1]]
  }

  /** The first occurrences hold every key once, and nothing else. */
  lemma {:induction false} FirstOccurrencesSpec(ks: seq<string>)
    ensures Distinct(FirstOccurrences(ks))
    ensures forall k :: k in FirstOccurrences(ks) <==> k in ks
  {
    if |ks| > 0 {
      var n := |ks| - 1;
      var p := ks[..n];
      FirstOccurrencesSpec(p);
      assert ks == p + [ks[n]];
      if ks[n] !in FirstOccurrences(p) {
        DistinctAppend(FirstOccurrences(p), ks[n]);
      }
    }
  }

  /** Whatever the repetitions, the dict's order is the order in which keys
      were first written: writing an existing key again leaves its place. */
  lemma {:induction false} PutAllFirstOrder<V>(pairs: seq<(string, V)>)
    ensures PutAll(pairs).keys == FirstOccurrences(WrittenKeys(pairs))
  {
    if |pairs| > 0 {
      var n := |pairs| - 1;
      var p := pairs[..n];
      PutAllFirstOrder(p);
      assert WrittenKeys(pairs)[..n] == WrittenKeys(p);
      var k := pairs[n].0;
      assert k in PutAll(p).entries <==> k in PutAll(p).keys;
    }
  }

  /** Every value present was written under its key. */
  lemma {:induction false} PutAllValues<V>(pairs: seq<(string, V)>)
    ensures forall k :: k in PutAll(pairs).entries ==>
      exists i :: 0 <= i < |pairs| && pairs[i] == (k, PutAll(pairs).entries[k])
  {
    if |pairs| > 0 {
      var n := |pairs| - 1;
      var p := pairs[..n];
      PutAllValues(p);
      PutEntries(PutAll(p), pairs[n].0, pairs[n].1);
      forall k | k in PutAll(pairs).entries
        ensures exists i :: 0 <= i < |pairs| && pairs[i] == (k, PutAll(pairs).entries[k])
      {
        if k != pairs[n].0 {
          assert k in PutAll(p).entries && PutAll(pairs).entries[k] == PutAll(p).entries[k];
          var i :| 0 <= i < |p| && p[i] == (k, PutAll(p).entries[k]);
          assert pairs[i] == p[i];
        }
      }
    }
  }
}

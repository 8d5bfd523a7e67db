/** Python's `dict` with `str` keys: a finite map that remembers the order in which keys
    were first inserted. `d[k] = v` overwrites the value of an existing key
    in place and appends a new key at the end; `d.values()` and
    `d.items()` follow that order; `{**a, **b}` is `a` updated by `b`. */
module OrderedDicts {

  datatype Dict<V> = Dict(keys: seq<string>, items: map<string, V>) {

    /** Every key is listed once, and the listed keys are the map's keys. */
    ghost predicate Valid() {
      && (forall i, j :: 0 <= i < j < |keys| ==> keys[i] != keys[j])
      && (forall k :: k in items <==> k in keys)
    }

    /** `d[k] = v`. */
    function Put(k: string, v: V): (d: Dict<V>)
      requires Valid()
      ensures d.Valid()
      ensures d.items == items[k := v]
      ensures k in items ==> d.keys == keys
      ensures k !in items ==> d.keys == keys + [k]
    {
      Dict(if k in items then keys else keys + [k], items[k := v])
    }

    /** `list(d.values())`, in key order. */
    function Values(): (vs: seq<V>)
      requires Valid()
      ensures |vs| == |keys|
      ensures forall i :: 0 <= i < |keys| ==> vs[i] == items[keys[i]]
    {
      seq(|keys|, i requires 0 <= i < |keys| => items[keys[i]])
    }
  }

  function Empty<V>(): (d: Dict<V>)
    ensures d.Valid() && d.Values() == [] && d.items == map[]
  {
    Dict([], map[])
  }

  /** Putting the same entry twice is putting it once. */
  lemma PutIdempotent<V>(d: Dict<V>, k: string, v: V)
    requires d.Valid()
    ensures d.Put(k, v).Put(k, v) == d.Put(k, v)
  {
  }

  /** A second put of the same key replaces the first one's value and
      nothing else. */
  lemma PutOverwrites<V>(d: Dict<V>, k: string, v1: V, v2: V)
    requires d.Valid()
    ensures d.Put(k, v1).Put(k, v2) == d.Put(k, v2)
  {
  }

  /** What `d.values()` looks like after `d[k] = v`: the value of an
      existing key is replaced at its position, a new key's value comes
      last; every other value stays where it was. */
  lemma {:induction false} ValuesAfterPut<V>(d: Dict<V>, k: string, v: V)
    requires d.Valid()
    ensures k !in d.items ==> d.Put(k, v).Values() == d.Values() + [v]
    ensures k in d.items ==>
      exists i :: 0 <= i < |d.keys| && d.keys[i] == k && d.Put(k, v).Values() == d.Values()[i := v]
  {
    var after := d.Put(k, v);
    if k in d.items {
      var i :| 0 <= i < |d.keys| && d.keys[i] == k;
      assert after.Values() == d.Values()[i := v] by {
        forall j | 0 <= j < |d.keys|
          ensures after.Values()[j] == d.Values()[i := v][j]
        {
          if j != i {
            assert d.keys[j] != k;
          }
        }
      }
    } else {
      assert after.Values() == d.Values() + [v] by {
        forall j | 0 <= j < |after.keys|
          ensures after.Values()[j] == (d.Values() + [v])[j]
        {
          if j < |d.keys| {
            assert d.keys[j] != k;
          }
        }
      }
    }
  }

  /** A list of distinct keys has as many elements as its set. */
  lemma {:induction false} DistinctCard(ks: seq<string>)
    requires forall i, j :: 0 <= i < j < |ks| ==> ks[i] != ks[j]
    ensures |set i | 0 <= i < |ks| :: ks[i]| == |ks|
  {
    if ks != [] {
      var last := ks[|ks| - 1];
      var init := ks[..|ks| - 1];
      DistinctCard(init);
      var s := set i | 0 <= i < |ks| :: ks[i];
      var t := set i | 0 <= i < |init| :: init[i];
      assert s == t + {last} by {
        forall x | x in s ensures x in t + {last} {
          var i :| 0 <= i < |ks| && ks[i] == x;
          if i < |ks| - 1 { assert init[i] == x; }
        }
        forall x | x in t ensures x in s {
          var i :| 0 <= i < |init| && init[i] == x;
          assert ks[i] == x;
        }
      }
      assert forall i :: 0 <= i < |init| ==> init[i] == ks[i] && ks[i] != last;
      assert last !in t;
    }
  }

  /** `len(d.values())` is the number of distinct keys ever put. */
  lemma ValuesCount<V>(d: Dict<V>)
    requires d.Valid()
    ensures |d.Values()| == |d.items|
  {
    DistinctCard(d.keys);
    assert d.items.Keys == set i | 0 <= i < |d.keys| :: d.keys[i] by {
      forall k | k in d.items ensures k in set i | 0 <= i < |d.keys| :: d.keys[i] {
        var i :| 0 <= i < |d.keys| && d.keys[i] == k;
      }
    }
  }

  /** The keys of `ks` that are not yet in `present`, in the order of `ks`. */
  function NewKeys(ks: seq<string>, present: set<string>): (r: seq<string>)
    ensures |r| <= |ks|
  {
    if ks == [] then []
    else if ks[0] in present then NewKeys(ks[1..], present)
    else [ks[0]] + NewKeys(ks[1..], present)
  }

  lemma {:induction false} NewKeysMembers(ks: seq<string>, present: set<string>, k: string)
    ensures k in NewKeys(ks, present) <==> k in ks && k !in present
  {
    if ks != [] {
      NewKeysMembers(ks[1..], present, k);
      assert k in ks <==> k == ks[0] || k in ks[1..];
    }
  }

  /** Filtering a list of distinct keys keeps them distinct. */
  lemma {:induction false} NewKeysDistinct(ks: seq<string>, present: set<string>)
    requires forall i, j :: 0 <= i < j < |ks| ==> ks[i] != ks[j]
    ensures var r := NewKeys(ks, present);
      forall i, j :: 0 <= i < j < |r| ==> r[i] != r[j]
  {
    if ks != [] {
      var rest := NewKeys(ks[1..], present);
      NewKeysDistinct(ks[1..], present);
      NewKeysMembers(ks[1..], present, ks[0]);
      assert ks[0] !in ks[1..];
      if ks[0] in present {
        assert NewKeys(ks, present) == rest;
      } else {
        var r := [ks[0]] + rest;
        assert NewKeys(ks, present) == r;
        forall i, j | 0 <= i < j < |r| ensures r[i] != r[j] {
          assert r[j] == rest[j - 1] && rest[j - 1] in rest;
          if i > 0 { assert r[i] == rest[i - 1]; }
        }
      }
    }
  }

  /** `{**a, **b}`: the keys of `a` in their order, then the keys only `b`
      has, in `b`'s order; on a shared key `b`'s value wins. */
  function Merge<V>(a: Dict<V>, b: Dict<V>): (r: Dict<V>)
    requires a.Valid() && b.Valid()
    ensures r.Valid()
    ensures r.items.Keys == a.items.Keys + b.items.Keys
    ensures forall k :: k in b.items ==> r.items[k] == b.items[k]
    ensures forall k :: k in a.items && k !in b.items ==> r.items[k] == a.items[k]
    ensures r.keys == a.keys + NewKeys(b.keys, a.items.Keys)
  {
    var added := NewKeys(b.keys, a.items.Keys);
    var r := Dict(a.keys + added, a.items + b.items);
    MergeValid(a, b);
    r
  }

  lemma MergeValid<V>(a: Dict<V>, b: Dict<V>)
    requires a.Valid() && b.Valid()
    ensures Dict(a.keys + NewKeys(b.keys, a.items.Keys), a.items + b.items).Valid()
  {
    var added := NewKeys(b.keys, a.items.Keys);
    var r := Dict(a.keys + added, a.items + b.items);
    NewKeysDistinct(b.keys, a.items.Keys);
    forall k ensures k in r.items <==> k in r.keys {
      NewKeysMembers(b.keys, a.items.Keys, k);
      assert k in r.keys <==> k in a.keys || k in added;
    }
    forall i, j | 0 <= i < j < |r.keys| ensures r.keys[i] != r.keys[j] {
      if j < |a.keys| {
        assert r.keys[i] == a.keys[i] && r.keys[j] == a.keys[j];
      } else if i < |a.keys| {
        assert r.keys[j] == added[j - |a.keys|] && r.keys[i] == a.keys[i];
        NewKeysMembers(b.keys, a.items.Keys, r.keys[j]);
      } else {
        assert r.keys[i] == added[i - |a.keys|] && r.keys[j] == added[j - |a.keys|];
      }
    }
  }

  /** Updating an empty dictionary by `b` gives `b`. */
  lemma {:induction false} MergeIntoEmpty<V>(a: Dict<V>, b: Dict<V>)
    requires a.Valid() && b.Valid() && a.items == map[]
    ensures Merge(a, b) == b
  {
    NoItemsNoKeys(a);
    assert NewKeys(b.keys, a.items.Keys) == b.keys by {
      NewKeysAll(b.keys, a.items.Keys);
    }
    assert a.items + b.items == b.items;
    assert a.keys + b.keys == b.keys;
  }

  lemma NoItemsNoKeys<V>(d: Dict<V>)
    requires d.Valid() && d.items == map[]
    ensures d.keys == []
  {
    ValuesCount(d);
  }

  lemma {:induction false} NewKeysAll(ks: seq<string>, present: set<string>)
    requires forall k :: k in ks ==> k !in present
    ensures NewKeys(ks, present) == ks
  {
    if ks != [] {
      assert forall k :: k in ks[1..] ==> k in ks;
      NewKeysAll(ks[1..], present);
    }
  }
}

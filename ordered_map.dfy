/** A Python `dict` keyed by strings: a map together with the order in which
    its keys were first inserted.  Writing an existing key replaces its value
    and keeps its position; a new key goes to the end. */
module OrderedMaps {

  datatype OrderedMap<V> = OrderedMap(keys: seq<string>, values: map<string, V>)

  /** Each key is listed once, and exactly the keys with a value are listed. */
  ghost predicate Valid<V>(m: OrderedMap<V>) {
    && (forall i, j :: 0 <= i < j < |m.keys| ==> m.keys[i] != m.keys[j])
    && (forall k :: k in m.values <==> k in m.keys)
  }

  function Empty<V>(): (m: OrderedMap<V>)
    ensures Valid(m)
  {
    OrderedMap([], map[])
  }

  /** `d[k] = v` */
  function Put<V>(m: OrderedMap<V>, k: string, v: V): OrderedMap<V> {
    OrderedMap(if k in m.values then m.keys else m.keys + [k], m.values[k := v])
  }

  /** `list(d.values())` */
  function Values<V>(m: OrderedMap<V>): (vs: seq<V>)
    requires Valid(m)
    ensures |vs| == |m.keys|
    ensures forall i :: 0 <= i < |m.keys| ==> vs[i] == m.values[m.keys[i]]
  {
    seq(|m.keys|, i requires 0 <= i < |m.keys| => m.values[m.keys[i]])
  }

  /** `d[k] = v` keeps the dict well formed; the last write to `k` wins,
      every other key keeps its value, and the number of entries grows by
      one exactly when `k` was new. */
  lemma PutSpec<V>(m: OrderedMap<V>, k: string, v: V)
    requires Valid(m)
    ensures Valid(Put(m, k, v))
    ensures k in Put(m, k, v).values && Put(m, k, v).values[k] == v
    ensures forall k' :: k' != k ==>
      (k' in Put(m, k, v).values <==> k' in m.values)
      && (k' in m.values ==> Put(m, k, v).values[k'] == m.values[k'])
    ensures |Put(m, k, v).keys| == if k in m.values then |m.keys| else |m.keys| + 1
  {
    var r := Put(m, k, v);
    if k !in m.values {
      forall i, j | 0 <= i < j < |r.keys|
        ensures r.keys[i] != r.keys[j]
      {
        if j == |m.keys| {
          assert r.keys[i] == m.keys[i];
        } else {
          assert r.keys[i] == m.keys[i] && r.keys[j] == m.keys[j];
        }
      }
    }
  }

  /** Overwriting a key keeps its position in `values()`; a new key's value
      is listed last. */
  lemma PutValues<V>(m: OrderedMap<V>, k: string, v: V)
    requires Valid(m)
    ensures Valid(Put(m, k, v))
    ensures k !in m.values ==> Values(Put(m, k, v)) == Values(m) + [v]
    ensures forall i :: 0 <= i < |m.keys| && m.keys[i] == k ==> Values(Put(m, k, v)) == Values(m)[i := v]
  {
    PutSpec(m, k, v);
    var r := Put(m, k, v);
    if k !in m.values {
      assert Values(r) == Values(m) + [v];
    } else {
      forall i | 0 <= i < |m.keys| && m.keys[i] == k
        ensures Values(r) == Values(m)[i := v]
      {
        forall j | 0 <= j < |m.keys|
          ensures Values(r)[j] == Values(m)[i := v][j]
        {
          if j != i {
            assert m.keys[j] != k;
          }
        }
      }
    }
  }

  /** A dict with one entry lists that key and that value. */
  lemma PutEmpty<V>(k: string, v: V)
    ensures Valid(Put(Empty(), k, v))
    ensures Put(Empty(), k, v).keys == [k] && Values(Put(Empty(), k, v)) == [v]
  {
    PutValues(Empty(), k, v);
  }

  /** `for x in xs: d[key(x)] = x` */
  function PutAll<V>(m: OrderedMap<V>, xs: seq<V>, key: V -> string): OrderedMap<V>
    decreases |xs|
  {
    if xs == [] then m else PutAll(Put(m, key(xs[0]), xs[0]), xs[1..], key)
  }

  /** Putting a list keeps the dict well formed, keeps the order of the
      keys already present and never removes a key. */
  lemma {:induction false} PutAllKeepsOrder<V>(m: OrderedMap<V>, xs: seq<V>, key: V -> string)
    requires Valid(m)
    ensures Valid(PutAll(m, xs, key))
    ensures |m.keys| <= |PutAll(m, xs, key).keys| && PutAll(m, xs, key).keys[..|m.keys|] == m.keys
    decreases |xs|
  {
    if xs != [] {
      var next := Put(m, key(xs[0]), xs[0]);
      PutSpec(m, key(xs[0]), xs[0]);
      PutAllKeepsOrder(next, xs[1..], key);
      PrefixOfPrefix(m.keys, next.keys, PutAll(next, xs[1..], key).keys);
    }
  }

  lemma PrefixOfPrefix(a: seq<string>, b: seq<string>, c: seq<string>)
    requires |a| <= |b| && b[..|a|] == a
    requires |b| <= |c| && c[..|b|] == b
    ensures |a| <= |c| && c[..|a|] == a
  {
    assert c[..|a|] == c[..|b|][..|a|];
  }

  /** Every element's key ends up present. */
  lemma {:induction false} PutAllHasKeys<V>(m: OrderedMap<V>, xs: seq<V>, key: V -> string)
    ensures forall i :: 0 <= i < |xs| ==> key(xs[i]) in PutAll(m, xs, key).values
    decreases |xs|
  {
    if xs != [] {
      var next := Put(m, key(xs[0]), xs[0]);
      PutAllHasKeys(next, xs[1..], key);
      PutAllKeeps(next, xs[1..], key, key(xs[0]));
      forall i | 0 <= i < |xs|
        ensures key(xs[i]) in PutAll(m, xs, key).values
      {
        if i > 0 {
          assert xs[1..][i - 1] == xs[i];
        }
      }
    }
  }

  /** `PutAll` of a concatenation is `PutAll` of the parts in turn. */
  lemma {:induction false} PutAllAppend<V>(m: OrderedMap<V>, xs: seq<V>, ys: seq<V>, key: V -> string)
    ensures PutAll(m, xs + ys, key) == PutAll(PutAll(m, xs, key), ys, key)
    decreases |xs|
  {
    if xs != [] {
      assert (xs + ys)[0] == xs[0] && (xs + ys)[1..] == xs[1..] + ys;
      PutAllAppend(Put(m, key(xs[0]), xs[0]), xs[1..], ys, key);
    } else {
      assert xs + ys == ys;
    }
  }

  /** Putting one more element after a list is one more `Put`. */
  lemma PutAllSnoc<V>(m: OrderedMap<V>, xs: seq<V>, x: V, key: V -> string)
    ensures PutAll(m, xs + [x], key) == Put(PutAll(m, xs, key), key(x), x)
  {
    PutAllAppend(m, xs, [x], key);
    assert [x][1..] == [];
  }

  /** A key present before stays present. */
  lemma {:induction false} PutAllKeeps<V>(m: OrderedMap<V>, xs: seq<V>, key: V -> string, k: string)
    requires k in m.values
    ensures k in PutAll(m, xs, key).values
    decreases |xs|
  {
    if xs != [] {
      PutAllKeeps(Put(m, key(xs[0]), xs[0]), xs[1..], key, k);
    }
  }

  /** The last element written under a key is the one stored. */
  lemma {:induction false} PutAllLastWins<V>(m: OrderedMap<V>, xs: seq<V>, key: V -> string, i: nat)
    requires i < |xs| && forall j :: i < j < |xs| ==> key(xs[j]) != key(xs[i])
    ensures key(xs[i]) in PutAll(m, xs, key).values && PutAll(m, xs, key).values[key(xs[i])] == xs[i]
    decreases |xs|
  {
    var next := Put(m, key(xs[0]), xs[0]);
    if i == 0 {
      PutAllUntouched(next, xs[1..], key, key(xs[0]));
    } else {
      assert xs[1..][i - 1] == xs[i];
      forall j | i - 1 < j < |xs[1..]|
        ensures key(xs[1..][j]) != key(xs[1..][i - 1])
      {
        assert xs[1..][j] == xs[j + 1];
      }
      PutAllLastWins(next, xs[1..], key, i - 1);
    }
  }

  /** A key no element is written under keeps its presence and its value. */
  lemma {:induction false} PutAllUntouched<V>(m: OrderedMap<V>, xs: seq<V>, key: V -> string, k: string)
    requires forall j :: 0 <= j < |xs| ==> key(xs[j]) != k
    ensures k in PutAll(m, xs, key).values <==> k in m.values
    ensures k in m.values ==> PutAll(m, xs, key).values[k] == m.values[k]
    decreases |xs|
  {
    if xs != [] {
      forall j | 0 <= j < |xs[1..]|
        ensures key(xs[1..][j]) != k
      {
        assert xs[1..][j] == xs[j + 1];
      }
      PutAllUntouched(Put(m, key(xs[0]), xs[0]), xs[1..], key, k);
    }
  }

  /** Writing each value of a dict back into it changes nothing. */
  lemma {:induction false} PutAllOwnValues<V>(m: OrderedMap<V>, xs: seq<V>, key: V -> string)
    requires Valid(m)
    requires forall j :: 0 <= j < |xs| ==> key(xs[j]) in m.values && m.values[key(xs[j])] == xs[j]
    ensures PutAll(m, xs, key) == m
    decreases |xs|
  {
    if xs != [] {
      assert Put(m, key(xs[0]), xs[0]) == m;
      forall j | 0 <= j < |xs[1..]|
        ensures key(xs[1..][j]) in m.values && m.values[key(xs[1..][j])] == xs[1..][j]
      {
        assert xs[1..][j] == xs[j + 1];
      }
      PutAllOwnValues(m, xs[1..], key);
    }
  }
}

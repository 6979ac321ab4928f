/** Lists kept unique by a key, where the first element stored for a key
    wins: the shape shared by `MetadataNodeSet` and the three lists of
    `ProcessLink`. */
module UniqueLists {

  /** The keys of the elements of `xs`. */
  function KeysOf<T>(xs: seq<T>, key: T -> string): set<string> {
    set i | 0 <= i < |xs| :: key(xs[i])
  }

  /** No two elements of `xs` share a key. */
  predicate UniqueBy<T>(xs: seq<T>, key: T -> string) {
    forall i, j :: 0 <= i < j < |xs| ==> key(xs[i]) != key(xs[j])
  }

  /** Appends `x` unless an element with its key is already stored. */
  function Add<T>(xs: seq<T>, x: T, key: T -> string): seq<T> {
    if key(x) in KeysOf(xs, key) then xs else xs + [x]
  }

  /** `Add` applied to each element of `ys` in order. */
  function AddAll<T>(xs: seq<T>, ys: seq<T>, key: T -> string): seq<T>
    decreases |ys|
  {
    if ys == [] then xs else AddAll(Add(xs, ys[0], key), ys[1..], key)
  }

  /** `Add` records the new key and keeps the list unique. */
  lemma AddSpec<T>(xs: seq<T>, x: T, key: T -> string)
    ensures KeysOf(Add(xs, x, key), key) == KeysOf(xs, key) + {key(x)}
    ensures UniqueBy(xs, key) ==> UniqueBy(Add(xs, x, key), key)
    ensures key(x) in KeysOf(xs, key) <==> Add(xs, x, key) == xs
    ensures key(x) !in KeysOf(xs, key) <==> Add(xs, x, key) == xs + [x]
  {
    var r := Add(xs, x, key);
    if key(x) !in KeysOf(xs, key) {
      assert r[|xs|] == x;
      forall k | k in KeysOf(r, key)
        ensures k in KeysOf(xs, key) + {key(x)}
      {
        var i :| 0 <= i < |r| && key(r[i]) == k;
        if i < |xs| {
          assert r[i] == xs[i];
        }
      }
      forall k | k in KeysOf(xs, key)
        ensures k in KeysOf(r, key)
      {
        var i :| 0 <= i < |xs| && key(xs[i]) == k;
        assert r[i] == xs[i];
      }
      if UniqueBy(xs, key) {
        forall i, j | 0 <= i < j < |r|
          ensures key(r[i]) != key(r[j])
        {
          if j == |xs| {
            assert r[i] == xs[i];
          } else {
            assert r[i] == xs[i] && r[j] == xs[j];
          }
        }
      }
      assert |r| != |xs|;
    }
  }

  /** Adding a list records exactly its keys and keeps the list unique. */
  lemma {:induction false} AddAllSpec<T>(xs: seq<T>, ys: seq<T>, key: T -> string)
    ensures KeysOf(AddAll(xs, ys, key), key) == KeysOf(xs, key) + KeysOf(ys, key)
    ensures UniqueBy(xs, key) ==> UniqueBy(AddAll(xs, ys, key), key)
    decreases |ys|
  {
    if ys != [] {
      AddSpec(xs, ys[0], key);
      AddAllSpec(Add(xs, ys[0], key), ys[1..], key);
      assert KeysOf(ys, key) == {key(ys[0])} + KeysOf(ys[1..], key) by {
        forall k | k in KeysOf(ys, key)
          ensures k in {key(ys[0])} + KeysOf(ys[1..], key)
        {
          var i :| 0 <= i < |ys| && key(ys[i]) == k;
          if i > 0 {
            assert ys[1..][i - 1] == ys[i];
          }
        }
        forall k | k in KeysOf(ys[1..], key)
          ensures k in KeysOf(ys, key)
        {
          var i :| 0 <= i < |ys[1..]| && key(ys[1..][i]) == k;
          assert ys[i + 1] == ys[1..][i];
        }
      }
    }
  }

  /** Stored elements never move or change: the first element stored for a
      key is the one kept. */
  lemma {:induction false} AddAllKeepsPrefix<T>(xs: seq<T>, ys: seq<T>, key: T -> string)
    ensures |xs| <= |AddAll(xs, ys, key)| && AddAll(xs, ys, key)[..|xs|] == xs
    decreases |ys|
  {
    if ys != [] {
      var next := Add(xs, ys[0], key);
      AddAllKeepsPrefix(next, ys[1..], key);
      assert next[..|xs|] == xs;
      assert AddAll(xs, ys, key)[..|xs|] == AddAll(next, ys[1..], key)[..|next|][..|xs|];
    }
  }

  /** Adding elements whose keys are all stored changes nothing. */
  lemma {:induction false} AddAllStored<T>(xs: seq<T>, ys: seq<T>, key: T -> string)
    requires KeysOf(ys, key) <= KeysOf(xs, key)
    ensures AddAll(xs, ys, key) == xs
    decreases |ys|
  {
    if ys != [] {
      assert key(ys[0]) in KeysOf(ys, key);
      AddSpec(xs, ys[0], key);
      assert KeysOf(ys[1..], key) <= KeysOf(ys, key) by {
        forall k | k in KeysOf(ys[1..], key)
          ensures k in KeysOf(ys, key)
        {
          var i :| 0 <= i < |ys[1..]| && key(ys[1..][i]) == k;
          assert ys[i + 1] == ys[1..][i];
        }
      }
      AddAllStored(xs, ys[1..], key);
    }
  }

  /** Adding the same list twice is adding it once. */
  lemma AddAllIdempotent<T>(xs: seq<T>, ys: seq<T>, key: T -> string)
    ensures AddAll(AddAll(xs, ys, key), ys, key) == AddAll(xs, ys, key)
  {
    AddAllSpec(xs, ys, key);
    AddAllStored(AddAll(xs, ys, key), ys, key);
  }

  /** `AddAll` of a concatenation is `AddAll` of the parts in turn. */
  lemma {:induction false} AddAllAppend<T>(xs: seq<T>, ys: seq<T>, zs: seq<T>, key: T -> string)
    ensures AddAll(xs, ys + zs, key) == AddAll(AddAll(xs, ys, key), zs, key)
    decreases |ys|
  {
    if ys != [] {
      assert (ys + zs)[0] == ys[0] && (ys + zs)[1..] == ys[1..] + zs;
      AddAllAppend(Add(xs, ys[0], key), ys[1..], zs, key);
    } else {
      assert ys + zs == zs;
    }
  }

  /** Adding one more element after a list is one more `Add`. */
  lemma AddAllSnoc<T>(xs: seq<T>, ys: seq<T>, y: T, key: T -> string)
    ensures AddAll(xs, ys + [y], key) == Add(AddAll(xs, ys, key), y, key)
  {
    AddAllAppend(xs, ys, [y], key);
    assert [y][1..] == [];
  }

  /** An element is kept exactly when it was stored already, or it is the
      first element of `ys` with its key and that key was not stored. */
  lemma {:induction false} AddAllMembers<T>(xs: seq<T>, ys: seq<T>, key: T -> string, x: T)
    ensures x in AddAll(xs, ys, key) <==>
      x in xs || (key(x) !in KeysOf(xs, key) && FirstWithKey(ys, key, x))
    decreases |ys|
  {
    if ys != [] {
      var next := Add(xs, ys[0], key);
      AddSpec(xs, ys[0], key);
      AddAllMembers(next, ys[1..], key, x);
      FirstWithKeyCons(ys, key, x);
      if key(ys[0]) !in KeysOf(xs, key) {
        assert next == xs + [ys[0]];
        if key(x) == key(ys[0]) {
          assert key(x) in KeysOf(next, key) by {
            assert next[|xs|] == ys[0];
          }
        }
        if key(x) !in KeysOf(xs, key) && key(x) != key(ys[0]) {
          assert key(x) !in KeysOf(next, key);
        }
      }
    }
  }

  /** `x` occurs in `ys` with no earlier element sharing its key. */
  predicate FirstWithKey<T(==)>(ys: seq<T>, key: T -> string, x: T) {
    exists i :: 0 <= i < |ys| && ys[i] == x && forall j :: 0 <= j < i ==> key(ys[j]) != key(x)
  }

  lemma FirstWithKeyCons<T>(ys: seq<T>, key: T -> string, x: T)
    requires ys != []
    ensures FirstWithKey(ys, key, x) <==>
      ys[0] == x || (key(ys[0]) != key(x) && FirstWithKey(ys[1..], key, x))
  {
    if FirstWithKey(ys, key, x) && ys[0] != x {
      var i :| 0 <= i < |ys| && ys[i] == x && forall j :: 0 <= j < i ==> key(ys[j]) != key(x);
      assert ys[1..][i - 1] == x;
      assert forall j :: 0 <= j < i - 1 ==> key(ys[1..][j]) != key(x) by {
        forall j | 0 <= j < i - 1
          ensures key(ys[1..][j]) != key(x)
        {
          assert ys[1..][j] == ys[j + 1];
        }
      }
    }
    if ys[0] != x && key(ys[0]) != key(x) && FirstWithKey(ys[1..], key, x) {
      var i :| 0 <= i < |ys[1..]| && ys[1..][i] == x && forall j :: 0 <= j < i ==> key(ys[1..][j]) != key(x);
      assert ys[i + 1] == x;
      forall j | 0 <= j < i + 1
        ensures key(ys[j]) != key(x)
      {
        if j > 0 {
          assert ys[j] == ys[1..][j - 1];
        }
      }
    }
  }
}

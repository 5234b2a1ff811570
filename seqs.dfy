/**
 * The list idioms the Python source builds its logic from: comprehension
 * filters, sums over a field, `defaultdict(list)` grouping in first-appearance
 * order, and slicing a list into consecutive chunks.
 */
module Seqs {
  import opened Wrappers

  /** `[x for x in s if p(x)]`, built from the left as a loop appending to a list would. */
  function Filter<T>(s: seq<T>, p: T -> bool): (r: seq<T>)
    ensures |r| <= |s|
    ensures forall i :: 0 <= i < |r| ==> r[i] in s && p(r[i])
  {
    if s == [] then []
    else Filter(s[..|s| - 1], p) + (if p(s[|s| - 1]) then [s[|s| - 1]] else [])
  }

  /** Nothing that satisfies the predicate is dropped. */
  lemma {:induction false} FilterKeeps<T>(s: seq<T>, p: T -> bool)
    ensures forall i :: 0 <= i < |s| && p(s[i]) ==> s[i] in Filter(s, p)
  {
    if s != [] {
      FilterKeeps(s[..|s| - 1], p);
      forall i | 0 <= i < |s| - 1 && p(s[i]) ensures s[i] in Filter(s, p) {
        assert s[..|s| - 1][i] == s[i];
      }
    }
  }

  /** Filtering a concatenation filters each part and keeps their order. */
  lemma {:induction false} FilterConcat<T>(a: seq<T>, b: seq<T>, p: T -> bool)
    ensures Filter(a + b, p) == Filter(a, p) + Filter(b, p)
    decreases |b|
  {
    if b != [] {
      var b' := b[..|b| - 1];
      FilterConcat(a, b', p);
      assert (a + b)[..|a + b| - 1] == a + b';
      assert (a + b)[|a + b| - 1] == b[|b| - 1];
    } else {
      assert a + b == a;
    }
  }

  /** Filtering with a predicate every element satisfies keeps the whole list. */
  lemma {:induction false} FilterAll<T>(s: seq<T>, p: T -> bool)
    requires forall i :: 0 <= i < |s| ==> p(s[i])
    ensures Filter(s, p) == s
  {
    if s != [] {
      FilterAll(s[..|s| - 1], p);
    }
  }

  /** `[f(x) for x in s]`. */
  function Map<T, U>(s: seq<T>, f: T -> U): (r: seq<U>)
    ensures |r| == |s|
    ensures forall i :: 0 <= i < |s| ==> r[i] == f(s[i])
  {
    if s == [] then [] else Map(s[..|s| - 1], f) + [f(s[|s| - 1])]
  }

  /** `sum(f(x) for x in s)`. */
  function Sum<T>(s: seq<T>, f: T -> int): int
  {
    if s == [] then 0 else Sum(s[..|s| - 1], f) + f(s[|s| - 1])
  }

  lemma {:induction false} SumConcat<T>(a: seq<T>, b: seq<T>, f: T -> int)
    ensures Sum(a + b, f) == Sum(a, f) + Sum(b, f)
    decreases |b|
  {
    if b != [] {
      var b' := b[..|b| - 1];
      SumConcat(a, b', f);
      assert (a + b)[..|a + b| - 1] == a + b';
      assert (a + b)[|a + b| - 1] == b[|b| - 1];
    } else {
      assert a + b == a;
    }
  }

  /** A sum of non-negative terms is at least each of its terms and never negative. */
  lemma {:induction false} SumNonNegative<T>(s: seq<T>, f: T -> int)
    requires forall i :: 0 <= i < |s| ==> f(s[i]) >= 0
    ensures Sum(s, f) >= 0
    ensures forall i :: 0 <= i < |s| ==> Sum(s, f) >= f(s[i])
  {
    if s != [] {
      SumNonNegative(s[..|s| - 1], f);
    }
  }

  /** The distinct keys of `s` in the order of their first appearance: the key order of a `defaultdict(list)` filled from `s`. */
  function FirstKeys<T, K(==)>(s: seq<T>, key: T -> K): (ks: seq<K>)
    ensures forall i :: 0 <= i < |s| ==> key(s[i]) in ks
  {
    if s == [] then []
    else
      var ks := FirstKeys(s[..|s| - 1], key);
      var k := key(s[|s| - 1]);
      assert forall i :: 0 <= i < |s| - 1 ==> s[..|s| - 1][i] == s[i];
      if k in ks then ks else ks + [k]
  }

  /** No key is listed twice. */
  lemma {:induction false} FirstKeysDistinct<T, K>(s: seq<T>, key: T -> K)
    ensures forall i, j :: 0 <= i < j < |FirstKeys(s, key)| ==> FirstKeys(s, key)[i] != FirstKeys(s, key)[j]
  {
    if s != [] {
      FirstKeysDistinct(s[..|s| - 1], key);
    }
  }

  /** Every key listed is the key of some element. */
  lemma {:induction false} FirstKeysOccur<T, K>(s: seq<T>, key: T -> K)
    ensures forall j :: 0 <= j < |FirstKeys(s, key)| ==> exists i :: 0 <= i < |s| && key(s[i]) == FirstKeys(s, key)[j]
  {
    if s == [] {
      assert FirstKeys(s, key) == [];
    } else {
      var s' := s[..|s| - 1];
      FirstKeysOccur(s', key);
      var ks', ks := FirstKeys(s', key), FirstKeys(s, key);
      forall j | 0 <= j < |ks| ensures exists i :: 0 <= i < |s| && key(s[i]) == ks[j] {
        if j < |ks'| {
          assert ks[j] == ks'[j];
          var i :| 0 <= i < |s'| && key(s'[i]) == ks'[j];
          assert s'[i] == s[i];
        } else {
          assert key(s[|s| - 1]) == ks[j];
        }
      }
    }
  }

  /** The list a `defaultdict(list)` filled from `s` holds under key `k`: the elements with that key, in input order. */
  function Members<T, K(==)>(s: seq<T>, key: T -> K, k: K): (r: seq<T>)
    ensures forall i :: 0 <= i < |r| ==> r[i] in s && key(r[i]) == k
  {
    Filter(s, x => key(x) == k)
  }

  /** Every element with key `k` is a member under `k`. */
  lemma MembersComplete<T, K>(s: seq<T>, key: T -> K, k: K)
    ensures forall i :: 0 <= i < |s| && key(s[i]) == k ==> s[i] in Members(s, key, k)
  {
    FilterKeeps(s, x => key(x) == k);
  }

  /** Every key that occurs has at least one member. */
  lemma MembersOfKey<T, K>(s: seq<T>, key: T -> K, k: K)
    requires k in FirstKeys(s, key)
    ensures |Members(s, key, k)| >= 1
  {
    var j :| 0 <= j < |FirstKeys(s, key)| && FirstKeys(s, key)[j] == k;
    FirstKeysOccur(s, key);
    var i :| 0 <= i < |s| && key(s[i]) == k;
    MembersComplete(s, key, k);
    assert s[i] in Members(s, key, k);
  }

  /** Appending one element extends exactly the group of its key. */
  lemma MembersSnoc<T, K>(s: seq<T>, key: T -> K, k: K, x: T)
    ensures Members(s + [x], key, k) == Members(s, key, k) + (if key(x) == k then [x] else [])
  {
    assert (s + [x])[..|s + [x]| - 1] == s;
  }

  /** `keys` and `groups` are what a `defaultdict(list)` filled from `s` holds. */
  ghost predicate Grouped<T, K>(s: seq<T>, key: T -> K, keys: seq<K>, groups: map<K, seq<T>>)
  {
    && keys == FirstKeys(s, key)
    && groups.Keys == (set j | 0 <= j < |keys| :: keys[j])
    && (forall k | k in groups :: groups[k] == Members(s, key, k))
  }

  /** Looking up a listed key gives its members. */
  lemma GroupedLookup<T, K>(s: seq<T>, key: T -> K, keys: seq<K>, groups: map<K, seq<T>>, i: int)
    requires Grouped(s, key, keys, groups)
    requires 0 <= i < |keys|
    ensures keys[i] in groups && groups[keys[i]] == Members(s, key, keys[i])
  {
    assert keys[i] in (set j | 0 <= j < |keys| :: keys[j]);
  }

  /** Appending an element whose key was already seen leaves the key order as it was. */
  lemma FirstKeysSnocSeen<T, K>(s: seq<T>, key: T -> K, x: T)
    requires key(x) in FirstKeys(s, key)
    ensures FirstKeys(s + [x], key) == FirstKeys(s, key)
  {
    assert (s + [x])[..|s + [x]| - 1] == s;
  }

  /** Appending an element with a new key puts that key last. */
  lemma FirstKeysSnocNew<T, K>(s: seq<T>, key: T -> K, x: T)
    requires key(x) !in FirstKeys(s, key)
    ensures FirstKeys(s + [x], key) == FirstKeys(s, key) + [key(x)]
    ensures Members(s, key, key(x)) == []
  {
    assert (s + [x])[..|s + [x]| - 1] == s;
  }

  /** One `groups[key(x)].append(x)` step on a key already present keeps the grouping exact. */
  lemma GroupedSnocSeen<T, K>(s: seq<T>, key: T -> K, keys: seq<K>, groups: map<K, seq<T>>, x: T)
    requires Grouped(s, key, keys, groups)
    requires key(x) in groups
    ensures Grouped(s + [x], key, keys, groups[key(x) := groups[key(x)] + [x]])
  {
    var k := key(x);
    var j :| 0 <= j < |keys| && keys[j] == k;
    FirstKeysSnocSeen(s, key, x);
    var groups' := groups[k := groups[k] + [x]];
    forall k' | k' in groups'
      ensures groups'[k'] == Members(s + [x], key, k')
    {
      MembersSnoc(s, key, k', x);
    }
  }

  /** One `groups[key(x)].append(x)` step on a new key keeps the grouping exact. */
  lemma GroupedSnocNew<T, K>(s: seq<T>, key: T -> K, keys: seq<K>, groups: map<K, seq<T>>, x: T)
    requires Grouped(s, key, keys, groups)
    requires key(x) !in groups
    ensures Grouped(s + [x], key, keys + [key(x)], groups[key(x) := [x]])
  {
    var k := key(x);
    assert k !in keys;
    FirstKeysSnocNew(s, key, x);
    var keys' := keys + [k];
    var groups' := groups[k := [x]];
    assert groups'.Keys == (set j | 0 <= j < |keys'| :: keys'[j]) by {
      forall k' | k' in groups' ensures k' in (set j | 0 <= j < |keys'| :: keys'[j]) {
        if k' == k {
          assert keys'[|keys|] == k;
        } else {
          var j :| 0 <= j < |keys| && keys[j] == k';
          assert keys'[j] == k';
        }
      }
      forall j | 0 <= j < |keys'| ensures keys'[j] in groups' {
        if j < |keys| {
          assert keys'[j] == keys[j];
        }
      }
    }
    forall k' | k' in groups'
      ensures groups'[k'] == Members(s + [x], key, k')
    {
      MembersSnoc(s, key, k', x);
    }
  }

  /**
   * Fills a `defaultdict(list)` from `s` under `key(x)`: the keys in insertion
   * order, and for each key its list of elements in input order.
   */
  method GroupBy<T, K(==)>(s: seq<T>, key: T -> K) returns (keys: seq<K>, groups: map<K, seq<T>>)
    ensures Grouped(s, key, keys, groups)
  {
    keys := [];
    groups := map[];
    for i := 0 to |s|
      invariant Grouped(s[..i], key, keys, groups)
    {
      var x := s[i];
      var k := key(x);
      assert s[..i + 1] == s[..i] + [x];
      if k in groups {
        GroupedSnocSeen(s[..i], key, keys, groups, x);
        groups := groups[k := groups[k] + [x]];
      } else {
        GroupedSnocNew(s[..i], key, keys, groups, x);
        keys := keys + [k];
        groups := groups[k := [x]];
      }
    }
    assert s[..|s|] == s;
  }

  /** What one element contributes to `Collect`: its result when there is one. */
  function Last<U>(y: Option<U>): seq<U>
  {
    if y.Some? then [y.value] else []
  }

  /** The present results of `f` over `s`, in order: a loop appending each result that is not `None`. */
  function Collect<T, U>(s: seq<T>, f: T -> Option<U>): (r: seq<U>)
    ensures |r| <= |s|
  {
    if s == [] then [] else Collect(s[..|s| - 1], f) + Last(f(s[|s| - 1]))
  }

  lemma AppendAssoc<T>(x: seq<T>, y: seq<T>, z: seq<T>)
    ensures (x + y) + z == x + (y + z)
  {
  }

  /** Collecting over one more element appends what `f` gives for it. */
  lemma CollectSnoc<T, U>(s: seq<T>, x: T, f: T -> Option<U>)
    ensures Collect(s + [x], f) == Collect(s, f) + Last(f(x))
  {
    var sx := s + [x];
    assert sx[..|sx| - 1] == s && sx[|sx| - 1] == x;
  }

  /** Collecting over two parts collects over each, in order. */
  lemma {:induction false} CollectConcat<T, U>(a: seq<T>, b: seq<T>, f: T -> Option<U>)
    ensures Collect(a + b, f) == Collect(a, f) + Collect(b, f)
  {
    if b == [] {
      assert a + b == a;
    } else {
      var init, last := b[..|b| - 1], b[|b| - 1];
      assert Collect(a + b, f) == Collect(a + init, f) + Last(f(last)) by {
        var ab := a + b;
        assert ab[..|ab| - 1] == a + init && ab[|ab| - 1] == last;
      }
      CollectConcat(a, init, f);
      AppendAssoc(Collect(a, f), Collect(init, f), Last(f(last)));
    }
  }

  /** The loop `Collect` describes: apply `f` to each element in turn and append what it gives. */
  method CollectAll<T, U>(s: seq<T>, f: T -> Option<U>) returns (r: seq<U>)
    ensures r == Collect(s, f)
  {
    r := [];
    for i := 0 to |s|
      invariant r == Collect(s[..i], f)
    {
      assert s[..i + 1][..i] == s[..i];
      var y := f(s[i]);
      if y.Some? {
        r := r + [y.value];
      }
    }
    assert s[..|s|] == s;
  }

  /** An element for which `f` gives nothing can be dropped from anywhere. */
  lemma CollectSkips<T, U>(a: seq<T>, x: T, b: seq<T>, f: T -> Option<U>)
    requires f(x).None?
    ensures Collect(a + [x] + b, f) == Collect(a, f) + Collect(b, f)
  {
    CollectConcat(a + [x], b, f);
    CollectSnoc(a, x, f);
    assert Collect(a, f) + Last(f(x)) == Collect(a, f);
  }

  /** Collecting with a left inverse of `g` over `g`'s images gives the originals back. */
  lemma {:induction false} CollectInverse<T, U>(s: seq<U>, g: U -> T, f: T -> Option<U>)
    requires forall i :: 0 <= i < |s| ==> f(g(s[i])) == Some(s[i])
    ensures Collect(Map(s, g), f) == s
  {
    if s != [] {
      var init := s[..|s| - 1];
      CollectInverse(init, g, f);
      var m := Map(s, g);
      assert m[..|m| - 1] == Map(init, g);
    }
  }

  /** `[s[i:i + n] for i in range(0, len(s), n)]`. */
  function Chunks<T>(s: seq<T>, n: nat): (cs: seq<seq<T>>)
    requires n > 0
    ensures forall i :: 0 <= i < |cs| ==> 0 < |cs[i]| <= n
    ensures forall i :: 0 <= i < |cs| - 1 ==> |cs[i]| == n
    decreases |s|
  {
    if s == [] then []
    else if |s| <= n then [s]
    else [s[..n]] + Chunks(s[n..], n)
  }

  /** Concatenation of a list of lists. */
  function Flatten<T>(ss: seq<seq<T>>): seq<T>
  {
    if ss == [] then [] else ss[0] + Flatten(ss[1..])
  }

  /** Appending one more list to be flattened appends its elements. */
  lemma {:induction false} FlattenSnoc<T>(ss: seq<seq<T>>, s: seq<T>)
    ensures Flatten(ss + [s]) == Flatten(ss) + s
  {
    if ss == [] {
      assert [] + [s] == [s];
      assert Flatten([s]) == s + Flatten([s][1..]);
    } else {
      assert (ss + [s])[1..] == ss[1..] + [s];
      FlattenSnoc(ss[1..], s);
    }
  }

  /** The chunks cover the list, in order, with nothing repeated or lost. */
  lemma {:induction false} ChunksCover<T>(s: seq<T>, n: nat)
    requires n > 0
    ensures Flatten(Chunks(s, n)) == s
    decreases |s|
  {
    if |s| > n {
      ChunksCover(s[n..], n);
      assert s == s[..n] + s[n..];
    }
  }
}

/**
 * Plain JavaScript objects with string keys, as ordered lists of entries. The order is the
 * order `Object.entries` and `JSON.stringify` visit: insertion order, an assignment to an
 * existing key keeping that key's place. Style bags, content blocks and the canvas style are
 * all such records.
 */
module Records {
  import opened Wrappers

  type Record<V> = seq<(string, V)>

  function Keys<V>(r: Record<V>): (ks: seq<string>)
    ensures |ks| == |r| && forall i :: 0 <= i < |r| ==> ks[i] == r[i].0
  {
    seq(|r|, i requires 0 <= i < |r| => r[i].0)
  }

  predicate HasKey<V>(r: Record<V>, k: string)
  {
    exists i :: 0 <= i < |r| && r[i].0 == k
  }

  predicate DistinctKeys<V>(r: Record<V>)
  {
    forall i, j :: 0 <= i < j < |r| ==> r[i].0 != r[j].0
  }

  /** `obj[k]`: the value under the key, `None` when the key is absent. */
  function Get<V>(r: Record<V>, k: string): (v: Option<V>)
    ensures v.None? <==> !HasKey(r, k)
  {
    if r == [] then None
    else if r[0].0 == k then Some(r[0].1)
    else
      var rest := Get(r[1..], k);
      assert HasKey(r, k) ==> HasKey(r[1..], k) by {
        if HasKey(r, k) {
          var i :| 0 <= i < |r| && r[i].0 == k;
          assert r[1..][i - 1].0 == k;
        }
      }
      assert HasKey(r[1..], k) ==> HasKey(r, k) by {
        if HasKey(r[1..], k) {
          var i :| 0 <= i < |r| - 1 && r[1..][i].0 == k;
          assert r[i + 1].0 == k;
        }
      }
      rest
  }

  /** `obj[k] = v`: overwrite the value in place when the key exists, otherwise append it. */
  function Put<V>(r: Record<V>, k: string, v: V): (r': Record<V>)
    ensures Get(r', k) == Some(v)
    ensures forall k' :: k' != k ==> Get(r', k') == Get(r, k')
  {
    if r == [] then [(k, v)]
    else if r[0].0 == k then [(k, v)] + r[1..]
    else
      var rest := Put(r[1..], k, v);
      assert ([r[0]] + rest)[1..] == rest;
      [r[0]] + rest
  }

  /** An existing key keeps its place; a new key goes last. */
  lemma {:induction false} PutKeys<V>(r: Record<V>, k: string, v: V)
    ensures Keys(Put(r, k, v)) == if HasKey(r, k) then Keys(r) else Keys(r) + [k]
  {
    if r == [] {
      assert !HasKey(r, k);
    } else {
      assert r == [r[0]] + r[1..];
      HasKeyCons(r, k);
      KeysCons(r[0], r[1..]);
      if r[0].0 == k {
        KeysCons((k, v), r[1..]);
      } else {
        var rest := Put(r[1..], k, v);
        assert Put(r, k, v) == [r[0]] + rest;
        PutKeys(r[1..], k, v);
        KeysCons(r[0], rest);
        if HasKey(r[1..], k) {
          assert Keys(rest) == Keys(r[1..]);
        } else {
          assert Keys(rest) == Keys(r[1..]) + [k];
          assert [r[0].0] + (Keys(r[1..]) + [k]) == ([r[0].0] + Keys(r[1..])) + [k];
        }
      }
    }
  }

  lemma KeysCons<V>(x: (string, V), t: Record<V>)
    ensures Keys([x] + t) == [x.0] + Keys(t)
  {
  }

  lemma HasKeyCons<V>(r: Record<V>, k: string)
    requires r != []
    ensures HasKey(r, k) <==> r[0].0 == k || HasKey(r[1..], k)
  {
    if HasKey(r[1..], k) {
      var i :| 0 <= i < |r| - 1 && r[1..][i].0 == k;
      assert r[i + 1].0 == k;
    }
    if HasKey(r, k) && r[0].0 != k {
      var i :| 0 <= i < |r| && r[i].0 == k;
      assert r[1..][i - 1].0 == k;
    }
  }

  /** `{...a, ...b}`: the entries of `b`, in order, assigned onto a copy of `a`. */
  function Merge<V>(a: Record<V>, b: Record<V>): Record<V>
    decreases |b|
  {
    if b == [] then a
    else
      var last := b[|b| - 1];
      Put(Merge(a, b[..|b| - 1]), last.0, last.1)
  }

  /** The entries whose key differs from `k` (the object with property `k` deleted). */
  function Without<V>(r: Record<V>, k: string): Record<V>
  {
    if r == [] then []
    else if r[0].0 == k then Without(r[1..], k)
    else [r[0]] + Without(r[1..], k)
  }

  /** Assigning keeps keys distinct. */
  lemma PutDistinct<V>(r: Record<V>, k: string, v: V)
    requires DistinctKeys(r)
    ensures DistinctKeys(Put(r, k, v))
  {
    var r' := Put(r, k, v);
    PutKeys(r, k, v);
    var ks, ks' := Keys(r), Keys(r');
    if !HasKey(r, k) {
      assert ks' == ks + [k];
      forall i, j | 0 <= i < j < |r'| ensures r'[i].0 != r'[j].0 {
        assert r'[i].0 == ks'[i] && r'[j].0 == ks'[j];
        if j == |r| {
          assert ks'[i] == r[i].0;
        } else {
          assert ks'[i] == r[i].0 && ks'[j] == r[j].0;
        }
      }
    } else {
      forall i, j | 0 <= i < j < |r'| ensures r'[i].0 != r'[j].0 {
        assert r'[i].0 == ks'[i] == ks[i] == r[i].0;
        assert r'[j].0 == ks'[j] == ks[j] == r[j].0;
      }
    }
  }

  lemma {:induction false} MergeDistinct<V>(a: Record<V>, b: Record<V>)
    requires DistinctKeys(a)
    ensures DistinctKeys(Merge(a, b))
    decreases |b|
  {
    if b != [] {
      MergeDistinct(a, b[..|b| - 1]);
      PutDistinct(Merge(a, b[..|b| - 1]), b[|b| - 1].0, b[|b| - 1].1);
    }
  }

  /**
   * Shallow merge: a key `b` defines takes `b`'s value, every other key keeps `a`'s value
   * (new keys win, old keys survive).
   */
  lemma {:induction false} GetMerge<V>(a: Record<V>, b: Record<V>, k: string)
    requires DistinctKeys(b)
    ensures Get(Merge(a, b), k) == if HasKey(b, k) then Get(b, k) else Get(a, k)
    decreases |b|
  {
    if b != [] {
      var init, last := b[..|b| - 1], b[|b| - 1];
      assert DistinctKeys(init);
      GetMerge(a, init, k);
      if last.0 == k {
        assert !HasKey(init, k);
        GetOfLast(b);
      } else {
        GetOfInit(b, k);
      }
    }
  }

  lemma {:induction false} GetOfLast<V>(b: Record<V>)
    requires b != [] && DistinctKeys(b)
    ensures Get(b, b[|b| - 1].0) == Some(b[|b| - 1].1)
    decreases |b|
  {
    if |b| > 1 {
      assert b[0].0 != b[|b| - 1].0;
      assert b[1..][|b| - 2] == b[|b| - 1];
      GetOfLast(b[1..]);
    }
  }

  lemma {:induction false} GetOfInit<V>(b: Record<V>, k: string)
    requires b != [] && b[|b| - 1].0 != k
    ensures Get(b, k) == Get(b[..|b| - 1], k)
    decreases |b|
  {
    if |b| > 1 && b[0].0 != k {
      assert b[1..][..|b| - 2] == b[..|b| - 1][1..];
      GetOfInit(b[1..], k);
    }
  }

  /** The merge keeps every key of `a` in its place. */
  lemma {:induction false} MergeKeepsKeys<V>(a: Record<V>, b: Record<V>)
    ensures |Merge(a, b)| >= |a|
    ensures Keys(Merge(a, b))[..|a|] == Keys(a)
    decreases |b|
  {
    if b != [] {
      MergeKeepsKeys(a, b[..|b| - 1]);
      PutKeys(Merge(a, b[..|b| - 1]), b[|b| - 1].0, b[|b| - 1].1);
    }
  }

  /** Filtering a key out removes it and leaves every other key's value alone. */
  lemma {:induction false} GetWithout<V>(r: Record<V>, k: string, k': string)
    ensures Get(Without(r, k), k') == if k' == k then None else Get(r, k')
    decreases |r|
  {
    if r != [] {
      GetWithout(r[1..], k, k');
    }
  }
}

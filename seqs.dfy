/** `Array.prototype.filter` on immutable sequences, and the facts the document operations use. */
module Seqs {

  /** The elements satisfying `p`, in their original order. */
  function Filter<T>(s: seq<T>, p: T -> bool): (r: seq<T>)
    ensures |r| <= |s|
    decreases |s|
  {
    if s == [] then []
    else Filter(s[..|s| - 1], p) + (if p(s[|s| - 1]) then [s[|s| - 1]] else [])
  }

  lemma FilterSnoc<T>(s: seq<T>, x: T, p: T -> bool)
    ensures Filter(s + [x], p) == Filter(s, p) + (if p(x) then [x] else [])
  {
    assert (s + [x])[..|s|] == s;
  }

  lemma {:induction false} FilterConcat<T>(a: seq<T>, b: seq<T>, p: T -> bool)
    ensures Filter(a + b, p) == Filter(a, p) + Filter(b, p)
    decreases |b|
  {
    if b != [] {
      var init, last := b[..|b| - 1], b[|b| - 1];
      assert a + b == (a + init) + [last];
      assert b == init + [last];
      FilterConcat(a, init, p);
      FilterSnoc(a + init, last, p);
      FilterSnoc(init, last, p);
    } else {
      assert a + b == a;
    }
  }

  /** The positions of the elements satisfying `p`, in increasing order. */
  function Kept<T>(s: seq<T>, p: T -> bool): seq<nat>
    decreases |s|
  {
    if s == [] then []
    else Kept(s[..|s| - 1], p) + (if p(s[|s| - 1]) then [|s| - 1] else [])
  }

  /**
   * Filtering keeps the elements at strictly increasing positions, and those positions are
   * exactly the ones where `p` holds: the survivors keep their order and each appears once.
   */
  lemma {:induction false} FilterPositions<T>(s: seq<T>, p: T -> bool)
    ensures |Kept(s, p)| == |Filter(s, p)|
    ensures forall k :: 0 <= k < |Kept(s, p)| ==> Kept(s, p)[k] < |s| && Filter(s, p)[k] == s[Kept(s, p)[k]]
    ensures forall k, l :: 0 <= k < l < |Kept(s, p)| ==> Kept(s, p)[k] < Kept(s, p)[l]
    ensures forall j :: 0 <= j < |s| ==> (p(s[j]) <==> j in Kept(s, p))
    decreases |s|
  {
    if s != [] {
      var n := |s| - 1;
      var init := s[..n];
      FilterPositions(init, p);
      var r0, f0 := Kept(init, p), Filter(init, p);
      assert Kept(s, p) == r0 + (if p(s[n]) then [n] else []);
      assert Filter(s, p) == f0 + (if p(s[n]) then [s[n]] else []);
      forall k | 0 <= k < |Kept(s, p)| ensures Kept(s, p)[k] < |s| && Filter(s, p)[k] == s[Kept(s, p)[k]] {
        if k < |r0| {
          assert Kept(s, p)[k] == r0[k] && Filter(s, p)[k] == f0[k] == init[r0[k]];
        }
      }
      forall j | 0 <= j < |s| ensures p(s[j]) <==> j in Kept(s, p) {
        if j < n {
          assert s[j] == init[j];
          assert j in Kept(s, p) <==> j in r0;
        } else {
          assert n !in r0 by {
            forall k | 0 <= k < |r0| ensures r0[k] != n {
            }
          }
        }
      }
    }
  }

  /** Filtering keeps exactly the members that satisfy the predicate. */
  lemma {:induction false} FilterMembers<T>(s: seq<T>, p: T -> bool, x: T)
    ensures x in Filter(s, p) <==> x in s && p(x)
    decreases |s|
  {
    if s != [] {
      FilterMembers(s[..|s| - 1], p, x);
      assert s == s[..|s| - 1] + [s[|s| - 1]];
    }
  }

  /** Filtering with a predicate every element satisfies changes nothing. */
  lemma {:induction false} FilterAll<T>(s: seq<T>, p: T -> bool)
    requires forall i :: 0 <= i < |s| ==> p(s[i])
    ensures Filter(s, p) == s
    decreases |s|
  {
    if s != [] {
      FilterAll(s[..|s| - 1], p);
    }
  }

  /** Filtering with a predicate no element satisfies leaves nothing. */
  lemma {:induction false} FilterNone<T>(s: seq<T>, p: T -> bool)
    requires forall i :: 0 <= i < |s| ==> !p(s[i])
    ensures Filter(s, p) == []
    decreases |s|
  {
    if s != [] {
      FilterNone(s[..|s| - 1], p);
    }
  }

  lemma {:induction false} FilterMultiset<T>(s: seq<T>, p: T -> bool)
    ensures multiset(Filter(s, p)) <= multiset(s)
    decreases |s|
  {
    if s != [] {
      FilterMultiset(s[..|s| - 1], p);
      assert s == s[..|s| - 1] + [s[|s| - 1]];
    }
  }

  /** Replacing an element the predicate rejects by another it rejects does not change the filter. */
  lemma {:induction false} FilterUpdateRejected<T>(s: seq<T>, i: nat, y: T, p: T -> bool)
    requires i < |s| && !p(s[i]) && !p(y)
    ensures Filter(s[i := y], p) == Filter(s, p)
    decreases |s|
  {
    var n := |s| - 1;
    if i == n {
      assert s[i := y][..n] == s[..n];
    } else {
      assert s[i := y][..n] == s[..n][i := y];
      FilterUpdateRejected(s[..n], i, y, p);
    }
  }
}

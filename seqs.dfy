/** `Array.prototype.filter` on sequences, and what it means for the result to
    be an order-preserving selection of the input. */
module Seqs {

  /** `s.filter(p)`: the elements of `s` satisfying `p`, in their original order. */
  function Filter<T>(s: seq<T>, p: T -> bool): (r: seq<T>)
    ensures |r| <= |s|
  {
    if s == [] then [] else (if p(s[0]) then [s[0]] else []) + Filter(s[1..], p)
  }

  /** `idx` lists, in strictly increasing order, positions of `s` that hold the
      elements of `r` one after another. */
  ghost predicate Embeds<T>(r: seq<T>, s: seq<T>, idx: seq<int>) {
    && |idx| == |r|
    && (forall k :: 0 <= k < |idx| ==> 0 <= idx[k] < |s| && s[idx[k]] == r[k])
    && (forall k, l :: 0 <= k < l < |idx| ==> idx[k] < idx[l])
  }

  /** `r` is `s` with some elements dropped and the rest kept in order. */
  ghost predicate IsSubsequence<T>(r: seq<T>, s: seq<T>) {
    exists idx :: Embeds(r, s, idx)
  }

  lemma {:induction false} FilterIsSubsequence<T>(s: seq<T>, p: T -> bool)
    ensures IsSubsequence(Filter(s, p), s)
  {
    if s == [] {
      assert Embeds<T>([], s, []);
    } else {
      FilterIsSubsequence(s[1..], p);
      var tail := Filter(s[1..], p);
      var idx :| Embeds(tail, s[1..], idx);
      var shifted := seq(|idx|, k requires 0 <= k < |idx| => idx[k] + 1);
      if p(s[0]) {
        assert Embeds(Filter(s, p), s, [0] + shifted);
      } else {
        assert Embeds(Filter(s, p), s, shifted);
      }
    }
  }

  /** An element is in the result exactly when it is in the input and passes `p`. */
  lemma {:induction false} FilterMembership<T>(s: seq<T>, p: T -> bool, x: T)
    ensures x in Filter(s, p) <==> x in s && p(x)
  {
    if s != [] {
      FilterMembership(s[1..], p, x);
      assert s == [s[0]] + s[1..];
    }
  }

  /** Every element of the result passes `p`. */
  lemma {:induction false} FilterAllPass<T>(s: seq<T>, p: T -> bool)
    ensures forall i :: 0 <= i < |Filter(s, p)| ==> p(Filter(s, p)[i])
  {
    forall i | 0 <= i < |Filter(s, p)| ensures p(Filter(s, p)[i]) {
      FilterMembership(s, p, Filter(s, p)[i]);
    }
  }

  /** Each element that passes `p` is kept as many times as it occurs;
      each one that fails is dropped. */
  lemma {:induction false} FilterCount<T>(s: seq<T>, p: T -> bool, x: T)
    ensures multiset(Filter(s, p))[x] == if p(x) then multiset(s)[x] else 0
  {
    if s != [] {
      FilterCount(s[1..], p, x);
      assert s == [s[0]] + s[1..];
    }
  }

  /** When every element passes, nothing is dropped. */
  lemma {:induction false} FilterKeepsAll<T>(s: seq<T>, p: T -> bool)
    requires forall i :: 0 <= i < |s| ==> p(s[i])
    ensures Filter(s, p) == s
  {
    if s != [] {
      FilterKeepsAll(s[1..], p);
      assert s == [s[0]] + s[1..];
    }
  }

  /** Filtering by a stronger predicate selects a subsequence of what a weaker one selects. */
  lemma {:induction false} FilterMonotone<T>(s: seq<T>, p: T -> bool, q: T -> bool)
    requires forall x :: p(x) ==> q(x)
    ensures IsSubsequence(Filter(s, p), Filter(s, q))
  {
    if s == [] {
      assert Embeds<T>([], [], []);
    } else {
      FilterMonotone(s[1..], p, q);
      var tp, tq := Filter(s[1..], p), Filter(s[1..], q);
      var idx :| Embeds(tp, tq, idx);
      if q(s[0]) {
        var shifted := seq(|idx|, k requires 0 <= k < |idx| => idx[k] + 1);
        assert Filter(s, q) == [s[0]] + tq;
        if p(s[0]) {
          assert Embeds(Filter(s, p), Filter(s, q), [0] + shifted);
        } else {
          assert Embeds(Filter(s, p), Filter(s, q), shifted);
        }
      } else {
        assert Filter(s, p) == tp && Filter(s, q) == tq;
      }
    }
  }

  lemma ConcatAssociative<T>(x: seq<T>, y: seq<T>, z: seq<T>)
    ensures x + (y + z) == (x + y) + z
  {
  }

  /** One step of `Filter` on a sequence with a known head. */
  lemma FilterCons<T>(x: T, s: seq<T>, p: T -> bool)
    ensures Filter([x] + s, p) == (if p(x) then [x] else []) + Filter(s, p)
  {
    assert ([x] + s)[0] == x && ([x] + s)[1..] == s;
  }

  /** Filtering distributes over concatenation. */
  lemma {:induction false} FilterConcat<T>(a: seq<T>, b: seq<T>, p: T -> bool)
    ensures Filter(a + b, p) == Filter(a, p) + Filter(b, p)
  {
    if a == [] {
      assert a + b == b;
    } else {
      FilterConcat(a[1..], b, p);
      var h := if p(a[0]) then [a[0]] else [];
      assert (a + b)[0] == a[0] && (a + b)[1..] == a[1..] + b;
      assert Filter(a + b, p) == h + Filter(a[1..] + b, p);
      assert Filter(a, p) == h + Filter(a[1..], p);
      ConcatAssociative(h, Filter(a[1..], p), Filter(b, p));
    }
  }

  /** When nothing passes, nothing is kept. */
  lemma FilterNone<T>(s: seq<T>, p: T -> bool)
    requires forall i :: 0 <= i < |s| ==> !p(s[i])
    ensures Filter(s, p) == []
  {
    if Filter(s, p) != [] {
      FilterMembership(s, p, Filter(s, p)[0]);
    }
  }
}

// LINQ's `OrderByDescending` as the dashboard uses it: a stable sort on an
// integer key, highest first, equal keys kept in their original order.
// Stated on indices: the order is the permutation of 0..n-1 that lists the
// positions of the input by key, descending, and then by position.

module Ordering {

  /** Position `i` comes before position `j`: a higher key, or an equal key and an earlier position. */
  predicate Precedes(keys: seq<int>, i: nat, j: nat)
    requires i < |keys| && j < |keys|
  {
    keys[i] > keys[j] || (keys[i] == keys[j] && i < j)
  }

  /** Every entry of `p` is a position of `keys`, and `p` lists them in `Precedes` order. */
  predicate OrderedBy(keys: seq<int>, p: seq<nat>) {
    && (forall a :: 0 <= a < |p| ==> p[a] < |keys|)
    && (forall a, b :: 0 <= a < b < |p| ==> Precedes(keys, p[a], p[b]))
  }

  /** `p` holds each of the positions 0..n-1 exactly once. */
  predicate IsPermutation(p: seq<nat>, n: nat) {
    && |p| == n
    && (forall a :: 0 <= a < |p| ==> p[a] < n)
    && (forall i :: 0 <= i < n ==> i in p)
    && (forall a, b :: 0 <= a < b < |p| ==> p[a] != p[b])
  }

  /** Inserts position `x` into an ordered list of other positions. */
  function Insert(keys: seq<int>, x: nat, t: seq<nat>): (r: seq<nat>)
    requires x < |keys| && x !in t
    requires OrderedBy(keys, t)
    ensures |r| == |t| + 1
    ensures forall y :: y in r <==> y == x || y in t
    ensures OrderedBy(keys, r)
  {
    if t == [] || Precedes(keys, x, t[0]) then
      [x] + t
    else
      var rest := Insert(keys, x, t[1..]);
      assert forall y | y in t[1..] :: y in t;
      assert forall b :: 0 <= b < |rest| ==> Precedes(keys, t[0], rest[b]) by {
        forall b | 0 <= b < |rest|
          ensures Precedes(keys, t[0], rest[b])
        {
          if rest[b] != x {
            assert rest[b] in t[1..];
            var c :| 0 <= c < |t[1..]| && t[1..][c] == rest[b];
            assert t[c + 1] == rest[b];
          }
        }
      }
      [t[0]] + rest
  }

  /** The positions 0..n-1 in `Precedes` order. */
  function SortPrefix(keys: seq<int>, n: nat): (p: seq<nat>)
    requires n <= |keys|
    ensures OrderedBy(keys, p)
    ensures IsPermutation(p, n)
  {
    if n == 0 then []
    else
      var t := SortPrefix(keys, n - 1);
      var p := Insert(keys, n - 1, t);
      assert forall a, b :: 0 <= a < b < |p| ==> p[a] != p[b] by {
        forall a, b | 0 <= a < b < |p| ensures p[a] != p[b] {
          assert Precedes(keys, p[a], p[b]);
        }
      }
      assert forall i :: 0 <= i < n ==> i in p by {
        forall i | 0 <= i < n ensures i in p {
          if i < n - 1 { assert i in t; }
        }
      }
      assert forall a :: 0 <= a < |p| ==> p[a] < n by {
        forall a | 0 <= a < |p| ensures p[a] < n {
          assert p[a] in p;
        }
      }
      p
  }

  /** The stable descending order of `keys`, as the positions of its entries. */
  function StableOrder(keys: seq<int>): (p: seq<nat>)
    ensures IsPermutation(p, |keys|)
    ensures OrderedBy(keys, p)
  {
    SortPrefix(keys, |keys|)
  }

  /** There is only one such order: any permutation in `Precedes` order is `StableOrder`. */
  lemma StableOrderIsUnique(keys: seq<int>, q: seq<nat>)
    requires IsPermutation(q, |keys|) && OrderedBy(keys, q)
    ensures q == StableOrder(keys)
  {
    var p := StableOrder(keys);
    forall a | 0 <= a < |p|
      ensures p[a] == q[a]
    {
      EntryNotBefore(keys, p, q, a);
      EntryNotBefore(keys, q, p, a);
    }
  }

  /** The positions that precede position `x`. */
  function Predecessors(keys: seq<int>, x: nat): set<nat>
    requires x < |keys|
  {
    set i: nat | i < |keys| && Precedes(keys, i, x)
  }

  /** In an ordered permutation, the entries before index `a` are exactly the predecessors of its entry. */
  lemma PrefixIsPredecessors(keys: seq<int>, p: seq<nat>, a: nat)
    requires IsPermutation(p, |keys|) && OrderedBy(keys, p)
    requires a < |p|
    ensures |Predecessors(keys, p[a])| == a
  {
    var s := set b | 0 <= b < a :: p[b];
    forall i: nat | i < |keys| && Precedes(keys, i, p[a])
      ensures i in s
    {
      assert i in p;
      var c :| 0 <= c < |p| && p[c] == i;
      assert c < a;
    }
    assert s == Predecessors(keys, p[a]);
    DistinctImage(p, a);
  }

  /** The first `a` entries of a list without repeats form a set of size `a`. */
  lemma {:induction false} DistinctImage(p: seq<nat>, a: nat)
    requires a <= |p|
    requires forall i, j :: 0 <= i < j < |p| ==> p[i] != p[j]
    ensures |set b | 0 <= b < a :: p[b]| == a
  {
    if a > 0 {
      DistinctImage(p, a - 1);
      var s := set b | 0 <= b < a - 1 :: p[b];
      assert (set b | 0 <= b < a :: p[b]) == s + {p[a - 1]};
      assert p[a - 1] !in s;
    }
  }

  /** A position that precedes another has strictly fewer predecessors. */
  lemma PredecessorsGrow(keys: seq<int>, x: nat, y: nat)
    requires x < |keys| && y < |keys|
    ensures Precedes(keys, x, y) ==> |Predecessors(keys, x)| < |Predecessors(keys, y)|
  {
    if Precedes(keys, x, y) {
      var px := Predecessors(keys, x);
      var py := Predecessors(keys, y);
      assert px + {x} <= py;
      assert x !in px;
      assert py == (px + {x}) + (py - (px + {x}));
    }
  }

  /** Index `a` of one ordered permutation never holds a predecessor of index `a` of another. */
  lemma EntryNotBefore(keys: seq<int>, p: seq<nat>, q: seq<nat>, a: nat)
    requires IsPermutation(p, |keys|) && OrderedBy(keys, p)
    requires IsPermutation(q, |keys|) && OrderedBy(keys, q)
    requires a < |keys|
    ensures !Precedes(keys, p[a], q[a])
  {
    PrefixIsPredecessors(keys, p, a);
    PrefixIsPredecessors(keys, q, a);
    PredecessorsGrow(keys, p[a], q[a]);
  }

  /** The entries of `s` in the order `p` gives. */
  function Permute<T>(s: seq<T>, p: seq<nat>): (r: seq<T>)
    requires forall a :: 0 <= a < |p| ==> p[a] < |s|
    ensures |r| == |p|
    ensures forall a :: 0 <= a < |p| ==> r[a] == s[p[a]]
  {
    seq(|p|, a requires 0 <= a < |p| => s[p[a]])
  }

  /** Dropping the entry `n` from a permutation of 0..n leaves a permutation of 0..n-1. */
  lemma DropLast(p: seq<nat>, n: nat, k: nat)
    requires IsPermutation(p, n + 1) && k < |p| && p[k] == n
    ensures IsPermutation(p[..k] + p[k + 1..], n)
  {
    var q := p[..k] + p[k + 1..];
    assert forall a :: 0 <= a < |q| ==> q[a] == (if a < k then p[a] else p[a + 1]);
    forall i | 0 <= i < n
      ensures i in q
    {
      assert i in p;
      var c :| 0 <= c < |p| && p[c] == i;
      if c < k { assert q[c] == i; } else { assert q[c - 1] == i; }
    }
  }

  /** Reordering by `p` puts the last entry at the index where `p` holds it. */
  lemma PermuteAroundLast<T>(s: seq<T>, p: seq<nat>, k: nat)
    requires |s| > 0 && IsPermutation(p, |s|) && k < |p| && p[k] == |s| - 1
    ensures var n := |s| - 1; var q := p[..k] + p[k + 1..];
      IsPermutation(q, n) && Permute(s, p) == Permute(s[..n], q)[..k] + [s[n]] + Permute(s[..n], q)[k..]
  {
    var n := |s| - 1;
    var q := p[..k] + p[k + 1..];
    DropLast(p, n, k);
    var r := Permute(s, p);
    var r' := Permute(s[..n], q);
    var glued := r'[..k] + [s[n]] + r'[k..];
    assert |glued| == |r|;
    forall a | 0 <= a < |r|
      ensures r[a] == glued[a]
    {
      if a < k {
        assert glued[a] == r'[a] == s[..n][q[a]];
      } else if a > k {
        assert glued[a] == r'[a - 1] == s[..n][q[a - 1]];
      }
    }
  }

  /** Splicing the last entry of `s` into a reordering of the others gives a reordering of `s`. */
  lemma MultisetOfSplice<T>(s: seq<T>, r: seq<T>, k: nat)
    requires |s| > 0 && k <= |r|
    requires multiset(r) == multiset(s[..|s| - 1])
    ensures multiset(r[..k] + [s[|s| - 1]] + r[k..]) == multiset(s)
  {
    assert r == r[..k] + r[k..];
    assert s == s[..|s| - 1] + [s[|s| - 1]];
  }

  /** Reordering by a permutation keeps every entry and its multiplicity. */
  lemma {:induction false} PermuteKeepsMultiset<T>(s: seq<T>, p: seq<nat>)
    requires IsPermutation(p, |s|)
    ensures multiset(Permute(s, p)) == multiset(s)
    decreases |s|
  {
    if |s| > 0 {
      var n := |s| - 1;
      assert n in p;
      var k :| 0 <= k < |p| && p[k] == n;
      var q := p[..k] + p[k + 1..];
      PermuteAroundLast(s, p, k);
      PermuteKeepsMultiset(s[..n], q);
      MultisetOfSplice(s, Permute(s[..n], q), k);
    }
  }
}

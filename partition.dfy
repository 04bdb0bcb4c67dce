/** Order-preserving partitions of a sequence into fixed-size groups.

    `ChunkBy(xs, n)` is the behaviour of .NET's `Enumerable.Chunk(n)`: consecutive groups of `n`
    elements, the last one holding the remainder.  The same grouping describes the 41-word units of
    the word splitter and both variants' 10-chunk embedding batches, so it is defined once here. */
module Partition {

  /** Concatenation of a sequence of sequences, in order. */
  function Flatten<T>(xss: seq<seq<T>>): seq<T>
  {
    if xss == [] then [] else xss[0] + Flatten(xss[1..])
  }

  lemma {:induction false} FlattenAppend<T>(a: seq<seq<T>>, b: seq<seq<T>>)
    ensures Flatten(a + b) == Flatten(a) + Flatten(b)
  {
    if a == [] {
      assert a + b == b;
    } else {
      assert (a + b)[1..] == a[1..] + b;
      FlattenAppend(a[1..], b);
    }
  }

  /** Consecutive groups of `n` elements; the last group holds what remains. */
  function ChunkBy<T>(xs: seq<T>, n: nat): seq<seq<T>>
    requires n > 0
    decreases |xs|
  {
    if xs == [] then []
    else if |xs| <= n then [xs]
    else [xs[..n]] + ChunkBy(xs[n..], n)
  }

  /** `bs` is an order-preserving partition of `xs` into non-empty groups of at most `n`
      elements, every group but the last holding exactly `n`. */
  predicate IsPartition<T(==)>(bs: seq<seq<T>>, xs: seq<T>, n: nat)
  {
    && Flatten(bs) == xs
    && (forall i :: 0 <= i < |bs| ==> 0 < |bs[i]| <= n)
    && (forall i :: 0 <= i < |bs| - 1 ==> |bs[i]| == n)
  }

  /** Concatenating the groups gives back the input; groups are non-empty, at most `n` long,
      and only the last may be short. */
  lemma {:induction false} ChunkByIsPartition<T>(xs: seq<T>, n: nat)
    requires n > 0
    ensures IsPartition(ChunkBy(xs, n), xs, n)
    decreases |xs|
  {
    if xs != [] && |xs| > n {
      var rest := ChunkBy(xs[n..], n);
      var bs := ChunkBy(xs, n);
      ChunkByIsPartition(xs[n..], n);
      assert bs == [xs[..n]] + rest;
      assert bs[1..] == rest;
      assert Flatten(bs) == xs[..n] + Flatten(rest);
      assert xs[..n] + xs[n..] == xs;
      forall i | 0 <= i < |bs| ensures 0 < |bs[i]| <= n && (i < |bs| - 1 ==> |bs[i]| == n) {
        if i > 0 { assert bs[i] == rest[i - 1]; }
      }
    }
  }

  /** A partition with those properties is unique: it is `ChunkBy(xs, n)`. */
  lemma {:induction false} PartitionIsChunkBy<T>(bs: seq<seq<T>>, xs: seq<T>, n: nat)
    requires n > 0
    requires IsPartition(bs, xs, n)
    ensures bs == ChunkBy(xs, n)
    decreases |bs|
  {
    if bs != [] {
      var rest := bs[1..];
      assert Flatten(bs) == bs[0] + Flatten(rest);
      if rest == [] {
        assert xs == bs[0];
      } else {
        assert |bs[0]| == n;
        assert |Flatten(rest)| > 0 by { assert Flatten(rest) == rest[0] + Flatten(rest[1..]); }
        assert xs[..n] == bs[0];
        assert xs[n..] == Flatten(rest);
        assert IsPartition(rest, xs[n..], n) by {
          forall i | 0 <= i < |rest| ensures 0 < |rest[i]| <= n { assert rest[i] == bs[i + 1]; }
          forall i | 0 <= i < |rest| - 1 ensures |rest[i]| == n { assert rest[i] == bs[i + 1]; }
        }
        PartitionIsChunkBy(rest, xs[n..], n);
      }
    }
  }

  /** The number of groups is the least k with |xs| <= k * n: the ceiling of |xs| / n. */
  lemma {:induction false} ChunkByCount<T>(xs: seq<T>, n: nat)
    requires n > 0
    ensures |xs| <= |ChunkBy(xs, n)| * n
    ensures |ChunkBy(xs, n)| * n < |xs| + n
    decreases |xs|
  {
    if xs != [] && |xs| > n {
      var k := |ChunkBy(xs[n..], n)|;
      ChunkByCount(xs[n..], n);
      assert |ChunkBy(xs, n)| == k + 1;
      assert (k + 1) * n == k * n + n;
    }
  }

  /** `a` consists of whole groups of `n`. */
  predicate WholeGroups<T>(a: seq<T>, n: nat)
    requires n > 0
  {
    var gs := ChunkBy(a, n);
    forall i :: 0 <= i < |gs| ==> |gs[i]| == n
  }

  /** Appending one group of at most `n` elements after whole groups adds exactly that group. */
  lemma {:induction false} ChunkBySnoc<T>(a: seq<T>, p: seq<T>, n: nat)
    requires n > 0 && WholeGroups(a, n) && 0 < |p| <= n
    ensures ChunkBy(a + p, n) == ChunkBy(a, n) + [p]
    decreases |a|
  {
    if a == [] {
      assert a + p == p;
    } else {
      assert |ChunkBy(a, n)[0]| == n;
      assert (a + p)[..n] == a[..n];
      assert (a + p)[n..] == a[n..] + p;
      if |a| == n {
        assert a[n..] == [];
        assert a[..n] == a;
      } else {
        assert ChunkBy(a, n) == [a[..n]] + ChunkBy(a[n..], n);
        assert WholeGroups(a[n..], n) by {
          var gs := ChunkBy(a[n..], n);
          forall i | 0 <= i < |gs| ensures |gs[i]| == n { assert gs[i] == ChunkBy(a, n)[i + 1]; }
        }
        ChunkBySnoc(a[n..], p, n);
      }
    }
  }

  /** Whole groups stay whole when one more full group is appended. */
  lemma WholeGroupsSnoc<T>(a: seq<T>, p: seq<T>, n: nat)
    requires n > 0 && WholeGroups(a, n) && |p| == n
    ensures WholeGroups(a + p, n)
  {
    ChunkBySnoc(a, p, n);
  }

  /** Groups matched element for element stay matched once both sides are concatenated. */
  lemma {:induction false} FlattenAligned<A, B>(xss: seq<seq<A>>, yss: seq<seq<B>>, rel: (A, B) -> bool)
    requires |xss| == |yss|
    requires forall i :: 0 <= i < |xss| ==> |xss[i]| == |yss[i]|
    requires forall i, j :: 0 <= i < |xss| && 0 <= j < |xss[i]| ==> rel(xss[i][j], yss[i][j])
    ensures |Flatten(xss)| == |Flatten(yss)|
    ensures forall k :: 0 <= k < |Flatten(xss)| ==> rel(Flatten(xss)[k], Flatten(yss)[k])
    decreases |xss|
  {
    if xss != [] {
      FlattenAligned(xss[1..], yss[1..], rel);
      var xs, ys := Flatten(xss), Flatten(yss);
      assert xs == xss[0] + Flatten(xss[1..]);
      assert ys == yss[0] + Flatten(yss[1..]);
      forall k | 0 <= k < |xs| ensures rel(xs[k], ys[k]) {
        if k >= |xss[0]| {
          var k' := k - |xss[0]|;
          assert xs[k] == Flatten(xss[1..])[k'] && ys[k] == Flatten(yss[1..])[k'];
          assert rel(Flatten(xss[1..])[k'], Flatten(yss[1..])[k']);
        } else {
          assert rel(xss[0][k], yss[0][k]);
        }
      }
    }
  }
}

/**
 * N-dimensional data arrays, as nested sequences, and the two shape operations the
 * surface scripts apply to the regridded field: inserting a new leading axis of
 * length one (iris.util.new_axis) and exchanging the first two axes
 * (cube.transpose([1, 0, 2, 3])).
 */
module Arrays {

  /** A value, or a sequence of sub-arrays along the leading axis. */
  datatype NdArray = Scalar(x: real) | Axis(items: seq<NdArray>)

  /** `a` is a rectangular array of the given shape. */
  predicate HasShape(a: NdArray, shape: seq<nat>)
  {
    match a
    case Scalar(_) => shape == []
    case Axis(items) =>
      |shape| > 0 && |items| == shape[0] &&
      forall i :: 0 <= i < |items| ==> HasShape(items[i], shape[1..])
  }

  /** `idx` selects one value of `a`: one in-range position per axis. */
  predicate IsIndex(a: NdArray, idx: seq<nat>)
  {
    match a
    case Scalar(_) => idx == []
    case Axis(items) => |idx| > 0 && idx[0] < |items| && IsIndex(items[idx[0]], idx[1..])
  }

  /** The value of `a` at `idx`, written a[i0][i1]... in the scripts' notation. */
  function Get(a: NdArray, idx: seq<nat>): real
    requires IsIndex(a, idx)
  {
    match a
    case Scalar(x) => x
    case Axis(items) => Get(items[idx[0]], idx[1..])
  }

  /** For an array of a known shape, the valid indexes are exactly those within the shape. */
  lemma {:induction false} IndexOfShape(a: NdArray, shape: seq<nat>, idx: seq<nat>)
    requires HasShape(a, shape)
    ensures IsIndex(a, idx) <==> |idx| == |shape| && forall k :: 0 <= k < |idx| ==> idx[k] < shape[k]
  {
    match a
    case Scalar(_) =>
    case Axis(items) =>
      if |idx| > 0 && idx[0] < |items| {
        IndexOfShape(items[idx[0]], shape[1..], idx[1..]);
        if |idx| == |shape| && forall k :: 0 <= k < |idx| ==> idx[k] < shape[k] {
          assert forall k :: 0 <= k < |idx[1..]| ==> idx[1..][k] < shape[1..][k] by {
            forall k | 0 <= k < |idx[1..]| ensures idx[1..][k] < shape[1..][k] {
              assert idx[1..][k] == idx[k + 1] && shape[1..][k] == shape[k + 1];
            }
          }
        }
        if IsIndex(a, idx) {
          forall k | 0 <= k < |idx| ensures idx[k] < shape[k] {
            if k > 0 {
              assert idx[1..][k - 1] == idx[k] && shape[1..][k - 1] == shape[k];
            }
          }
        }
      }
  }

  /** Number of positions along the leading axis (zero for a scalar). */
  function Extent(a: NdArray): nat
  {
    if a.Axis? then |a.items| else 0
  }

  /** iris.util.new_axis: the whole array becomes the single entry of a new leading axis. */
  function NewAxis(a: NdArray): (r: NdArray)
    ensures forall shape: seq<nat> :: HasShape(a, shape) ==> HasShape(r, [1] + shape)
    ensures forall idx: seq<nat> :: IsIndex(a, idx) ==> IsIndex(r, [0] + idx) && Get(r, [0] + idx) == Get(a, idx)
  {
    var r := Axis([a]);
    assert forall shape: seq<nat> :: ([1] + shape)[1..] == shape;
    assert forall idx: seq<nat> :: ([0] + idx)[1..] == idx;
    r
  }

  /** Each sub-array along the leading axis has `n1` positions along its own leading axis. */
  predicate LeadingPair(a: NdArray, n1: nat)
  {
    a.Axis? && forall i :: 0 <= i < |a.items| ==> a.items[i].Axis? && |a.items[i].items| == n1
  }

  /**
   * Exchange of the first two axes, transpose([1, 0, 2, ...]): position (j, i) of the
   * result is position (i, j) of `a`.  `n1` is the length of the second axis, which
   * an array with an empty first axis does not record.
   */
  function SwapLeading(a: NdArray, n1: nat): (r: NdArray)
    requires LeadingPair(a, n1)
    ensures LeadingPair(r, Extent(a)) && Extent(r) == n1
    ensures forall i, j :: 0 <= i < Extent(a) && 0 <= j < n1 ==> r.items[j].items[i] == a.items[i].items[j]
  {
    Axis(seq(n1, j requires 0 <= j < n1 => Axis(seq(|a.items|, i requires 0 <= i < |a.items| => a.items[i].items[j]))))
  }

  /** Exchanging the first two axes twice gives the array back. */
  lemma SwapLeadingTwice(a: NdArray, n1: nat)
    requires LeadingPair(a, n1)
    ensures SwapLeading(SwapLeading(a, n1), Extent(a)) == a
  {
    var b := SwapLeading(SwapLeading(a, n1), Extent(a));
    assert |b.items| == |a.items|;
    forall i | 0 <= i < |a.items| ensures b.items[i] == a.items[i] {
      assert b.items[i].items == a.items[i].items;
    }
  }

  /** The exchange turns shape (n0, n1, rest...) into (n1, n0, rest...). */
  lemma SwapLeadingShape(a: NdArray, n0: nat, n1: nat, rest: seq<nat>)
    requires HasShape(a, [n0, n1] + rest)
    ensures LeadingPair(a, n1)
    ensures HasShape(SwapLeading(a, n1), [n1, n0] + rest)
  {
    assert ([n0, n1] + rest)[1..] == [n1] + rest;
    assert ([n1] + rest)[1..] == rest;
    assert ([n1, n0] + rest)[1..] == [n0] + rest;
    assert ([n0] + rest)[1..] == rest;
    assert LeadingPair(a, n1) by {
      forall i | 0 <= i < |a.items| ensures a.items[i].Axis? && |a.items[i].items| == n1 {
        assert HasShape(a.items[i], [n1] + rest);
      }
    }
    var r := SwapLeading(a, n1);
    forall j | 0 <= j < n1 ensures HasShape(r.items[j], [n0] + rest) {
      forall i | 0 <= i < n0 ensures HasShape(r.items[j].items[i], rest) {
        assert HasShape(a.items[i], [n1] + rest);
      }
    }
  }

  /**
   * The vertical injection of the surface scripts: a new leading level axis of length
   * one, then the exchange that moves it to second place, (t, lat, lon) to (t, 1, lat, lon).
   */
  function InjectLevel(a: NdArray): (r: NdArray)
    requires a.Axis?
  {
    SwapLeading(NewAxis(a), Extent(a))
  }

  /** The injected array has shape (t, 1, lat, lon) and holds in[t][y][x] at [t][0][y][x]. */
  lemma InjectLevelValues(a: NdArray, nt: nat, ny: nat, nx: nat)
    requires HasShape(a, [nt, ny, nx])
    ensures HasShape(InjectLevel(a), [nt, 1, ny, nx])
    ensures forall t: nat, y: nat, x: nat :: IsIndex(a, [t, y, x]) ==>
      IsIndex(InjectLevel(a), [t, 0, y, x]) && Get(InjectLevel(a), [t, 0, y, x]) == Get(a, [t, y, x])
  {
    var b := NewAxis(a);
    assert HasShape(b, [1, nt] + [ny, nx]);
    SwapLeadingShape(b, 1, nt, [ny, nx]);
    var r := InjectLevel(a);
    forall t: nat, y: nat, x: nat | IsIndex(a, [t, y, x])
      ensures IsIndex(r, [t, 0, y, x]) && Get(r, [t, 0, y, x]) == Get(a, [t, y, x])
    {
      IndexOfShape(a, [nt, ny, nx], [t, y, x]);
      assert r.items[t].items[0] == a.items[t];
      assert [t, 0, y, x][1..] == [0, y, x] && [0, y, x][1..] == [y, x];
      assert [t, y, x][1..] == [y, x];
    }
  }

  /** Dropping the length-one level axis again, out[t][0] for every t. */
  function SqueezeLevel(r: NdArray): NdArray
    requires LeadingPair(r, 1)
  {
    Axis(seq(|r.items|, t requires 0 <= t < |r.items| => r.items[t].items[0]))
  }

  /** Removing the injected level axis recovers the original array. */
  lemma SqueezeInjected(a: NdArray)
    requires a.Axis?
    ensures LeadingPair(InjectLevel(a), 1)
    ensures SqueezeLevel(InjectLevel(a)) == a
  {
    var r := InjectLevel(a);
    assert SqueezeLevel(r).items == a.items;
  }
}

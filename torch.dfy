/**
 * The numeric-array runtime the networks call into (gotch over libtorch), reduced to what the
 * networks depend on: an array is a handle with a shape, every operation returns a new live
 * handle of a stated shape, and releasing (`MustDrop`, or an operation called with `del=true`)
 * needs a live handle. Element values are not modelled.
 *
 * The bodies below are the library's conventions taken as given: the size rule of convolution
 * and pooling, broadcasting, concatenation, resizing, and a sequential container that releases
 * its own intermediates.
 */
module Torch {
  import opened Wrappers

  type Shape = seq<nat>

  /** A window of size k slides over n + 2*pad positions with the given stride (dilation 1). */
  predicate WindowFits(n: nat, k: nat, pad: nat, stride: nat) {
    stride > 0 && k <= n + 2 * pad
  }

  /** Output side of a convolution or max-pool window, floor mode, dilation 1. */
  function WindowOut(n: nat, k: nat, pad: nat, stride: nat): (r: nat)
    requires WindowFits(n, k, pad, stride)
    ensures r >= 1
  {
    (n + 2 * pad - k) / stride + 1
  }

  /** The part of `nn.Conv2DConfig` the networks set: stride and padding per axis, bias. */
  datatype Conv2DConfig = Conv2DConfig(stride: (nat, nat), padding: (nat, nat), bias: bool)

  /** `nn.DefaultConv2DConfig()`: stride 1, padding 0, with bias (dilation 1, one group). */
  const DefaultConv2DConfig := Conv2DConfig((1, 1), (0, 0), true)

  datatype Conv2D = Conv2D(cIn: nat, cOut: nat, ksize: nat, config: Conv2DConfig)

  datatype BatchNormConfig = BatchNormConfig(eps: real, momentum: real)

  /** `nn.DefaultBatchNormConfig()`: eps 1e-5, momentum 0.1. */
  const DefaultBatchNormConfig := BatchNormConfig(0.00001, 0.1)

  /** A layer that a sequential container can hold. */
  datatype Prim =
    | Conv(conv: Conv2D)
    | BatchNorm(features: nat, bn: BatchNormConfig)
    | Relu
    | Sigmoid
    | MaxPool(k: nat, stride: nat, pad: nat)
    | AdaptiveAvgPool1
      /** base.DoubleConv, which is not part of this model: cIn -> cOut channels, same H and W. */
    | DoubleConv(cIn: nat, cOut: nat)

  /** Shape a layer produces from an input of shape s; None where the runtime aborts. */
  function PrimShape(p: Prim, s: Shape): Option<Shape> {
    match p
    case Conv(c) =>
      if |s| == 4 && s[1] == c.cIn
         && WindowFits(s[2], c.ksize, c.config.padding.0, c.config.stride.0)
         && WindowFits(s[3], c.ksize, c.config.padding.1, c.config.stride.1)
      then Some([s[0], c.cOut,
                 WindowOut(s[2], c.ksize, c.config.padding.0, c.config.stride.0),
                 WindowOut(s[3], c.ksize, c.config.padding.1, c.config.stride.1)])
      else None
    case BatchNorm(f, _) => if |s| == 4 && s[1] == f then Some(s) else None
    case Relu => Some(s)
    case Sigmoid => Some(s)
    case MaxPool(k, stride, pad) =>
      if |s| == 4 && WindowFits(s[2], k, pad, stride) && WindowFits(s[3], k, pad, stride)
      then Some([s[0], s[1], WindowOut(s[2], k, pad, stride), WindowOut(s[3], k, pad, stride)])
      else None
    case AdaptiveAvgPool1 => if |s| == 4 then Some([s[0], s[1], 1, 1]) else None
    case DoubleConv(cIn, cOut) => if |s| == 4 && s[1] == cIn then Some([s[0], cOut, s[2], s[3]]) else None
  }

  /** Shape a sequential container of layers produces. */
  function SeqShape(ps: seq<Prim>, s: Shape): Option<Shape>
    decreases |ps|
  {
    if ps == [] then Some(s)
    else
      var t :- PrimShape(ps[0], s);
      SeqShape(ps[1..], t)
  }

  lemma {:induction false} SeqShapeAppend(ps: seq<Prim>, qs: seq<Prim>, s: Shape)
    ensures SeqShape(ps + qs, s) == (var t :- SeqShape(ps, s); SeqShape(qs, t))
    decreases |ps|
  {
    if ps == [] {
      assert ps + qs == qs;
    } else {
      assert (ps + qs)[0] == ps[0];
      assert (ps + qs)[1..] == ps[1..] + qs;
      match PrimShape(ps[0], s)
      case None =>
      case Some(t) => SeqShapeAppend(ps[1..], qs, t);
    }
  }

  lemma SeqShapeCons(p: Prim, ps: seq<Prim>, s: Shape, t: Shape)
    requires PrimShape(p, s) == Some(t)
    ensures SeqShape([p] + ps, s) == SeqShape(ps, t)
  {
    assert ([p] + ps)[1..] == ps;
  }

  /** Elementwise broadcasting of two shapes of equal rank: each axis agrees or one side is 1. */
  predicate Broadcastable(a: Shape, b: Shape) {
    |a| == |b| && forall i :: 0 <= i < |a| ==> a[i] == b[i] || a[i] == 1 || b[i] == 1
  }

  /** The broadcast shape, axis by axis from the front: a 1 on one side takes the other side's size. */
  function Broadcast(a: Shape, b: Shape): Option<Shape>
    decreases |a|
  {
    if |a| != |b| then None
    else if |a| == 0 then Some([])
    else if a[0] == b[0] || a[0] == 1 || b[0] == 1 then
      var rest :- Broadcast(a[1..], b[1..]);
      Some([if a[0] == 1 then b[0] else a[0]] + rest)
    else None
  }

  /** Broadcasting succeeds exactly on broadcastable shapes, and takes the non-1 size on each axis. */
  lemma {:induction false} BroadcastSpec(a: Shape, b: Shape)
    ensures Broadcast(a, b).Some? <==> Broadcastable(a, b)
    ensures Broadcast(a, b).Some? ==> |Broadcast(a, b).value| == |a|
    ensures Broadcast(a, b).Some? ==>
              forall i :: 0 <= i < |a| ==> Broadcast(a, b).value[i] == if a[i] == 1 then b[i] else a[i]
    decreases |a|
  {
    if |a| == |b| && |a| > 0 {
      BroadcastSpec(a[1..], b[1..]);
      forall i | 0 < i < |a| ensures a[1..][i - 1] == a[i] && b[1..][i - 1] == b[i] {}
      if Broadcastable(a, b) {
        assert Broadcastable(a[1..], b[1..]);
      }
      if Broadcastable(a[1..], b[1..]) && (a[0] == b[0] || a[0] == 1 || b[0] == 1) {
        assert Broadcastable(a, b) by {
          forall i | 0 <= i < |a| ensures a[i] == b[i] || a[i] == 1 || b[i] == 1 {
            if i > 0 { assert a[1..][i - 1] == a[i] && b[1..][i - 1] == b[i]; }
          }
        }
      }
    }
  }

  /** A gate whose every axis is either 1 or the input's broadcasts onto the input's shape. */
  lemma BroadcastOnto(a: Shape, g: Shape)
    requires |g| == |a| && forall i :: 0 <= i < |a| ==> g[i] == a[i] || g[i] == 1
    ensures Broadcast(a, g) == Some(a)
  {
    BroadcastSpec(a, g);
    var r := Broadcast(a, g).value;
    forall i | 0 <= i < |a| ensures r[i] == a[i] {
      if a[i] == 1 { assert g[i] == 1; }
    }
    assert r == a;
  }

  /** Concatenation of two arrays along axis 1: every other axis agrees, channel counts add. */
  function Cat2Shape(a: Shape, b: Shape): Option<Shape> {
    if |a| == |b| && |a| >= 2 && a[0] == b[0] && a[2..] == b[2..]
    then Some([a[0], a[1] + b[1]] + a[2..])
    else None
  }

  /** Spatial resize of a rank-4 array to a two-element size: batch and channels are kept. */
  function ResizeShape(s: Shape, size: seq<nat>): Option<Shape> {
    if |s| == 4 && |size| == 2 then Some(s[..2] + size) else None
  }

  /** The shape left after removing axis d. */
  function Without(s: Shape, d: nat): Shape
    requires d < |s|
  {
    s[..d] + s[d + 1..]
  }

  /** An array handle: an identity allocated once by the runtime, and the shape it was given. */
  datatype Tensor = Tensor(id: nat, shape: Shape)

  function ShapesOf(ts: seq<Tensor>): (r: seq<Shape>)
    ensures |r| == |ts| && forall k :: 0 <= k < |ts| ==> r[k] == ts[k].shape
  {
    seq(|ts|, k requires 0 <= k < |ts| => ts[k].shape)
  }

  /** The handles a sequence holds, as a set. */
  function Elems(ts: seq<Tensor>): set<Tensor>
    decreases |ts|
  {
    if |ts| == 0 then {} else Elems(ts[..|ts| - 1]) + {ts[|ts| - 1]}
  }

  /** No handle occurs twice. */
  predicate Distinct(ts: seq<Tensor>) {
    forall j, j' :: 0 <= j < j' < |ts| ==> ts[j] != ts[j']
  }

  lemma ElemsSnoc(ts: seq<Tensor>, t: Tensor)
    ensures Elems(ts + [t]) == Elems(ts) + {t}
  {
    assert (ts + [t])[..|ts|] == ts;
  }

  lemma {:induction false} ElemsCons(t: Tensor, ts: seq<Tensor>)
    ensures Elems([t] + ts) == {t} + Elems(ts)
    decreases |ts|
  {
    if |ts| > 0 {
      var init := ts[..|ts| - 1];
      assert [t] + ts == ([t] + init) + [ts[|ts| - 1]];
      ElemsSnoc([t] + init, ts[|ts| - 1]);
      ElemsCons(t, init);
      assert ts == init + [ts[|ts| - 1]];
      ElemsSnoc(init, ts[|ts| - 1]);
    }
  }

  lemma {:induction false} ElemsIn(ts: seq<Tensor>, t: Tensor)
    ensures t in Elems(ts) <==> t in ts
    decreases |ts|
  {
    if |ts| > 0 {
      ElemsIn(ts[..|ts| - 1], t);
      assert ts == ts[..|ts| - 1] + [ts[|ts| - 1]];
    }
  }

  lemma ElemsOfFive(a: Tensor, b: Tensor, c: Tensor, d: Tensor, e: Tensor)
    ensures Elems([a, b, c, d, e]) == {a, b, c, d, e}
  {
    forall t
      ensures t in Elems([a, b, c, d, e]) <==> t in {a, b, c, d, e}
    {
      ElemsIn([a, b, c, d, e], t);
    }
  }

  lemma ElemsOfFour(a: Tensor, b: Tensor, c: Tensor, d: Tensor)
    ensures Elems([a, b, c, d]) == {a, b, c, d}
  {
    forall t
      ensures t in Elems([a, b, c, d]) <==> t in {a, b, c, d}
    {
      ElemsIn([a, b, c, d], t);
    }
  }

  lemma ElemsOfSix(a: Tensor, b: Tensor, c: Tensor, d: Tensor, e: Tensor, f: Tensor)
    ensures Elems([a, b, c, d, e, f]) == {a, b, c, d, e, f}
  {
    forall t
      ensures t in Elems([a, b, c, d, e, f]) <==> t in {a, b, c, d, e, f}
    {
      ElemsIn([a, b, c, d, e, f], t);
    }
  }

  /** Four handles are distinct exactly when they differ pairwise. */
  lemma DistinctFour(a: Tensor, b: Tensor, c: Tensor, d: Tensor)
    ensures Distinct([a, b, c, d]) <==> a != b && a != c && a != d && b != c && b != d && c != d
  {
    var s := [a, b, c, d];
    assert s[0] == a && s[1] == b && s[2] == c && s[3] == d;
  }

  /** Three distinct handles followed by two more that differ from them and from each other. */
  lemma DistinctFive(a: Tensor, b: Tensor, c: Tensor, d: Tensor, e: Tensor)
    requires Distinct([a, b, c]) && d != e && d !in {a, b, c} && e !in {a, b, c}
    ensures Distinct([a, b, c, d, e])
  {
    assert a != b && a != c && b != c by {
      assert [a, b, c][0] == a && [a, b, c][1] == b && [a, b, c][2] == c;
    }
  }

  /** Every element of a sequence whose elements form a subset of s is in s. */
  lemma ElemsWithin(hs: seq<Tensor>, s: set<Tensor>)
    requires Elems(hs) <= s
    ensures forall j :: 0 <= j < |hs| ==> hs[j] in s
  {
    forall j | 0 <= j < |hs|
      ensures hs[j] in s
    {
      ElemsIn(hs, hs[j]);
    }
  }

  /**
   * The runtime's arrays: which handles are live; `next` is the next identity to hand out.
   * Every operation needs live inputs: reading or releasing a released array is refused.
   */
  class Store {
    var live: set<Tensor>
    var next: nat

    ghost predicate Valid()
      reads this
    {
      forall t :: t in live ==> t.id < next
    }

    constructor ()
      ensures Valid() && live == {}
    {
      live, next := {}, 0;
    }

    /** A new array: an identity never used before, live, with shape s. */
    method Alloc(s: Shape) returns (r: Tensor)
      requires Valid()
      modifies this
      ensures Valid() && r.shape == s && r !in old(live) && old(next) <= r.id
      ensures live == old(live) + {r}
    {
      r := Tensor(next, s);
      next := next + 1;
      live := live + {r};
    }

    /** `MustDrop`: releases a live array; releasing one that is not live is refused. */
    method Drop(x: Tensor)
      requires Valid() && x in live
      modifies this
      ensures Valid() && live == old(live) - {x}
    {
      live := live - {x};
    }

    /** `MustDetach(false)`, and the shallow clone an empty sequential container returns. */
    method Detach(x: Tensor) returns (r: Tensor)
      requires Valid() && x in live
      modifies this
      ensures Valid() && r.shape == x.shape && r !in old(live) && live == old(live) + {r}
    {
      r := Alloc(x.shape);
    }

    /** `ForwardT` of one layer. */
    method Apply(p: Prim, x: Tensor) returns (r: Tensor)
      requires Valid() && x in live && PrimShape(p, x.shape).Some?
      modifies this
      ensures Valid() && r.shape == PrimShape(p, x.shape).value && r !in old(live) && live == old(live) + {r}
    {
      r := Alloc(PrimShape(p, x.shape).value);
    }

    /** `MustRelu(del)`: with del the input is released. */
    method Relu(x: Tensor, del: bool) returns (r: Tensor)
      requires Valid() && x in live
      modifies this
      ensures Valid() && r.shape == x.shape && r !in old(live)
      ensures live == old(live) - (if del then {x} else {}) + {r}
    {
      r := Alloc(x.shape);
      if del { live := live - {x}; }
    }

    /** `MustMul1(scalar, del)`: same shape; with del the input is released. */
    method MulScalar(x: Tensor, del: bool) returns (r: Tensor)
      requires Valid() && x in live
      modifies this
      ensures Valid() && r.shape == x.shape && r !in old(live)
      ensures live == old(live) - (if del then {x} else {}) + {r}
    {
      r := Alloc(x.shape);
      if del { live := live - {x}; }
    }

    /** `MustTotype(kind, del)`: the same shape in another element type; with del the input is released. */
    method Totype(x: Tensor, del: bool) returns (r: Tensor)
      requires Valid() && x in live
      modifies this
      ensures Valid() && r.shape == x.shape && r !in old(live)
      ensures live == old(live) - (if del then {x} else {}) + {r}
    {
      r := Alloc(x.shape);
      if del { live := live - {x}; }
    }

    /** `ForwardT` of a sequential container of layers; it releases its own intermediates. */
    method ForwardSeq(ps: seq<Prim>, x: Tensor) returns (r: Tensor)
      requires Valid() && x in live && SeqShape(ps, x.shape).Some?
      modifies this
      ensures Valid() && r.shape == SeqShape(ps, x.shape).value && r !in old(live) && live == old(live) + {r}
    {
      r := Alloc(SeqShape(ps, x.shape).value);
    }

    /** `MustAdd(y, del)`: broadcasting sum; with del the receiver x is released. */
    method Add(x: Tensor, y: Tensor, del: bool) returns (r: Tensor)
      requires Valid() && x in live && y in live && Broadcast(x.shape, y.shape).Some?
      modifies this
      ensures Valid() && r.shape == Broadcast(x.shape, y.shape).value && r !in old(live)
      ensures live == old(live) - (if del then {x} else {}) + {r}
    {
      r := Alloc(Broadcast(x.shape, y.shape).value);
      if del { live := live - {x}; }
    }

    /** `MustMul(y, del)`: broadcasting product; with del the receiver x is released. */
    method Mul(x: Tensor, y: Tensor, del: bool) returns (r: Tensor)
      requires Valid() && x in live && y in live && Broadcast(x.shape, y.shape).Some?
      modifies this
      ensures Valid() && r.shape == Broadcast(x.shape, y.shape).value && r !in old(live)
      ensures live == old(live) - (if del then {x} else {}) + {r}
    {
      r := Alloc(Broadcast(x.shape, y.shape).value);
      if del { live := live - {x}; }
    }

    /** `ts.MustCat([a, b], 1)`. */
    method Cat(a: Tensor, b: Tensor) returns (r: Tensor)
      requires Valid() && a in live && b in live && Cat2Shape(a.shape, b.shape).Some?
      modifies this
      ensures Valid() && r.shape == Cat2Shape(a.shape, b.shape).value && r !in old(live) && live == old(live) + {r}
    {
      r := Alloc(Cat2Shape(a.shape, b.shape).value);
    }

    /** `MustUpsampleNearest2d(size, ...)`. */
    method UpsampleNearest(x: Tensor, size: seq<nat>) returns (r: Tensor)
      requires Valid() && x in live && ResizeShape(x.shape, size).Some?
      modifies this
      ensures Valid() && r.shape == ResizeShape(x.shape, size).value && r !in old(live) && live == old(live) + {r}
    {
      r := Alloc(ResizeShape(x.shape, size).value);
    }

    /** `MustUpsampleBilinear2d(size, ...)`. */
    method UpsampleBilinear(x: Tensor, size: seq<nat>) returns (r: Tensor)
      requires Valid() && x in live && ResizeShape(x.shape, size).Some?
      modifies this
      ensures Valid() && r.shape == ResizeShape(x.shape, size).value && r !in old(live) && live == old(live) + {r}
    {
      r := Alloc(ResizeShape(x.shape, size).value);
    }

    /** `MustUnbind(d, false)`: one new array per index of axis d, each without that axis. */
    method Unbind(x: Tensor, d: nat) returns (hs: seq<Tensor>)
      requires Valid() && x in live && d < |x.shape|
      modifies this
      ensures Valid() && |hs| == x.shape[d]
      ensures forall k :: 0 <= k < |hs| ==> hs[k] !in old(live) && hs[k].shape == Without(x.shape, d)
      ensures forall j, k :: 0 <= j < k < |hs| ==> hs[j] != hs[k]
      ensures live == old(live) + set k | 0 <= k < |hs| :: hs[k]
    {
      var s := Without(x.shape, d);
      hs := [];
      while |hs| < x.shape[d]
        invariant Valid() && |hs| <= x.shape[d]
        invariant forall k :: 0 <= k < |hs| ==> hs[k] !in old(live) && hs[k] in live && hs[k].shape == s
        invariant forall j, k :: 0 <= j < k < |hs| ==> hs[j] != hs[k]
        invariant live == old(live) + set k | 0 <= k < |hs| :: hs[k]
      {
        var h := Alloc(s);
        ghost var before := hs;
        hs := hs + [h];
        assert hs[|before|] == h;
        assert forall k :: 0 <= k < |before| ==> hs[k] == before[k];
        assert (set k | 0 <= k < |hs| :: hs[k]) == (set k | 0 <= k < |before| :: before[k]) + {h};
      }
    }
  }

  /** Releases each handle of hs once, in order (`for _, h := range hs { h.MustDrop() }`). */
  method ReleaseAll(st: Store, hs: seq<Tensor>)
    requires st.Valid() && Distinct(hs) && forall j :: 0 <= j < |hs| ==> hs[j] in st.live
    modifies st
    ensures st.Valid() && st.live == old(st.live) - Elems(hs)
  {
    var m := 0;
    while m < |hs|
      invariant 0 <= m <= |hs| && st.Valid()
      invariant st.live == old(st.live) - Elems(hs[..m])
    {
      assert hs[..m + 1] == hs[..m] + [hs[m]];
      ElemsSnoc(hs[..m], hs[m]);
      ElemsIn(hs[..m], hs[m]);
      st.Drop(hs[m]);
      m := m + 1;
    }
    assert hs == hs[..|hs|];
  }
}

/**
 * The UNet decoder: a centre block on the deepest feature, then decoder layers that upsample,
 * concatenate a skip feature, convolve twice and apply attention; and the channel plan that
 * builds those layers from the encoder and decoder widths.
 */
module Decoder {
  import opened Wrappers
  import opened Torch
  import opened Base

  /** Two shapes agree on every axis from index 2 on (the spatial axes). */
  predicate SameSpatial(x: Shape, ref: Shape) {
    |x| >= 2 && |ref| >= 2 && x[2..] == ref[2..]
  }

  /** Shape `upsample` produces, None where it aborts (rank below 2, or a resize not 2-D). */
  function UpsampleShape(x: Shape, ref: Shape): (r: Option<Shape>)
    ensures r.Some? <==> |x| >= 2 && |ref| >= 2 && (x[2..] == ref[2..] || (|x| == 4 && |ref| == 4))
    ensures r.Some? ==> r.value == x[..2] + ref[2..]
  {
    if |x| < 2 || |ref| < 2 then None
    else if x[2..] == ref[2..] then (assert x == x[..2] + x[2..]; Some(x))
    else ResizeShape(x, ref[2..])
  }

  /**
   * `upsample`: when x already has ref's spatial size the very same handle comes back and
   * nothing is allocated; otherwise a fresh nearest-neighbour resize to ref's spatial size.
   */
  method Upsample(st: Store, x: Tensor, ref: Tensor) returns (r: Tensor)
    requires st.Valid() && x in st.live && ref in st.live && UpsampleShape(x.shape, ref.shape).Some?
    modifies st
    ensures st.Valid() && r.shape == UpsampleShape(x.shape, ref.shape).value
    ensures SameSpatial(x.shape, ref.shape) ==> r == x && st.live == old(st.live)
    ensures !SameSpatial(x.shape, ref.shape) ==> r !in old(st.live) && st.live == old(st.live) + {r}
  {
    if x.shape[2..] == ref.shape[2..] {
      r := x;
    } else {
      r := st.UpsampleNearest(x, ref.shape[2..]);
    }
  }

  function ShapeOf(t: Option<Tensor>): Option<Shape> {
    match t
    case None => None
    case Some(x) => Some(x.shape)
  }

  datatype DecoderLayer = DecoderLayer(conv1: seq<Prim>, attn1: AttnModule, conv2: seq<Prim>, attn2: AttnModule) {

    /** Shape of the input to conv1: upsample, concatenate the skip, attention; or x itself. */
    function AttnShape(x: Shape, skip: Option<Shape>): Option<Shape> {
      match skip
      case None => Some(x)
      case Some(s) =>
        var u :- UpsampleShape(x, s);
        var c :- Cat2Shape(u, s);
        attn1.Shape(c)
    }

    /** Shape `ForwardSkip` produces. */
    function Shape(x: Shape, skip: Option<Shape>): Option<Shape> {
      var a :- AttnShape(x, skip);
      var c1 :- SeqShape(conv1, a);
      var c2 :- SeqShape(conv2, c1);
      attn2.Shape(c2)
    }

    /** The skip branch of `ForwardSkip` with the release at line 43 made conditional. */
    method SkipAttention(st: Store, x: Tensor, skip: Tensor) returns (attn: Tensor)
      requires st.Valid() && x in st.live && skip in st.live && AttnShape(x.shape, Some(skip.shape)).Some?
      modifies st
      ensures st.Valid() && attn !in old(st.live) && attn.shape == AttnShape(x.shape, Some(skip.shape)).value
      ensures st.live == old(st.live) + {attn}
    {
      var xup := Upsample(st, x, skip);
      var xcat := st.Cat(xup, skip);
      if xup != x {
        st.Drop(xup);
      }
      attn := attn1.ForwardT(st, xcat);
      st.Drop(xcat);
    }

    /** The skip branch of `ForwardSkip` as written: xup is always released. */
    method SkipAttentionAsWritten(st: Store, x: Tensor, skip: Tensor) returns (attn: Tensor)
      requires st.Valid() && x in st.live && skip in st.live && AttnShape(x.shape, Some(skip.shape)).Some?
      requires x != skip
      modifies st
      ensures st.Valid() && attn.shape == AttnShape(x.shape, Some(skip.shape)).value
      ensures attn !in old(st.live) - {x} && (!SameSpatial(x.shape, skip.shape) ==> attn !in old(st.live))
      ensures st.live == old(st.live) - (if SameSpatial(x.shape, skip.shape) then {x} else {}) + {attn}
    {
      var xup := Upsample(st, x, skip);
      var xcat := st.Cat(xup, skip);
      st.Drop(xup);
      attn := attn1.ForwardT(st, xcat);
      st.Drop(xcat);
    }

    /** conv1, conv2 and attn2 after the attention input, releasing each intermediate. */
    method Tail(st: Store, attn: Tensor) returns (res: Tensor)
      requires st.Valid() && attn in st.live
      requires (var c1 :- SeqShape(conv1, attn.shape); var c2 :- SeqShape(conv2, c1); attn2.Shape(c2)).Some?
      modifies st
      ensures st.Valid() && res !in old(st.live) - {attn} && st.live == old(st.live) - {attn} + {res}
      ensures Some(res.shape) == (var c1 :- SeqShape(conv1, attn.shape); var c2 :- SeqShape(conv2, c1); attn2.Shape(c2))
    {
      var c1 := st.ForwardSeq(conv1, attn);
      st.Drop(attn);
      var c2 := st.ForwardSeq(conv2, c1);
      st.Drop(c1);
      res := attn2.ForwardT(st, c2);
      st.Drop(c2);
    }

    /**
     * `ForwardSkip`, with the release of the upsampled input made conditional on it being a
     * new handle: x and skip stay live and only the result is new.
     */
    method ForwardSkip(st: Store, x: Tensor, skip: Option<Tensor>) returns (res: Tensor)
      requires st.Valid() && x in st.live && (skip.Some? ==> skip.value in st.live)
      requires Shape(x.shape, ShapeOf(skip)).Some?
      modifies st
      ensures st.Valid() && res !in old(st.live) && st.live == old(st.live) + {res}
      ensures res.shape == Shape(x.shape, ShapeOf(skip)).value
    {
      var attn1Ts;
      if skip.Some? {
        attn1Ts := SkipAttention(st, x, skip.value);
      } else {
        attn1Ts := st.Detach(x);
      }
      res := Tail(st, attn1Ts);
    }

    /**
     * `ForwardSkip` as written: when upsample hands x back, the release at line 43 releases
     * the caller's x.
     */
    method ForwardSkipAsWritten(st: Store, x: Tensor, skip: Option<Tensor>) returns (res: Tensor)
      requires st.Valid() && x in st.live && (skip.Some? ==> skip.value in st.live && skip.value != x)
      requires Shape(x.shape, ShapeOf(skip)).Some?
      modifies st
      ensures st.Valid() && res.shape == Shape(x.shape, ShapeOf(skip)).value
      ensures res !in old(st.live) - {x} && (!Aliased(x, skip) ==> res !in old(st.live))
      ensures st.live == old(st.live) - (if Aliased(x, skip) then {x} else {}) + {res}
    {
      var attn1Ts;
      if skip.Some? {
        attn1Ts := SkipAttentionAsWritten(st, x, skip.value);
      } else {
        attn1Ts := st.Detach(x);
      }
      res := Tail(st, attn1Ts);
    }
  }

  /** `upsample` hands back the very handle it was given. */
  predicate Aliased(x: Tensor, skip: Option<Tensor>) {
    skip.Some? && SameSpatial(x.shape, skip.value.shape)
  }

  /** `NewDecoderLayer`: two 3x3 conv-bn-relu blocks, identity attention on both sides. */
  function NewDecoderLayer(cIn: nat, skip: nat, cOut: nat): (l: DecoderLayer)
    ensures l.conv1 == Conv2dRelu(cIn + skip, cOut, 3, 1, 1) && l.conv2 == Conv2dRelu(cOut, cOut, 3, 1, 1)
    ensures l.attn1 == l.attn2 == IdentityModule
  {
    var attn1 := NewAttention([]).value;
    var attn2 := NewAttention([]).value;
    DecoderLayer(Conv2dRelu(cIn + skip, cOut, 3, 1, 1), attn1, Conv2dRelu(cOut, cOut, 3, 1, 1), attn2)
  }

  /** a is a batch-b, c-channel feature map of at least one row and one column. */
  predicate Planar(a: Shape, b: nat, c: nat) {
    |a| == 4 && a[0] == b && a[1] == c && a[2] >= 1 && a[3] >= 1
  }

  /** A 3x3/pad-1/stride-1 conv-bn-relu keeps H and W and maps cIn to cOut channels. */
  lemma SameConvRelu(cIn: nat, cOut: nat, b: nat, h: nat, w: nat)
    requires h >= 1 && w >= 1
    ensures SeqShape(Conv2dRelu(cIn, cOut, 3, 1, 1), [b, cIn, h, w]) == Some([b, cOut, h, w])
  {
    Conv2dReluShape(cIn, cOut, 3, 1, 1, [b, cIn, h, w]);
  }

  /**
   * With a skip of shape [B, cSkip, H, W] the layer concatenates to cIn + cSkip channels at
   * the skip's size and yields cOut channels at that size; without one it keeps x's size.
   */
  lemma DecoderLayerShape(b: nat, cIn: nat, cSkip: nat, cOut: nat, x: Shape, skip: Option<Shape>)
    requires Planar(x, b, cIn) && (skip.Some? ==> Planar(skip.value, b, cSkip))
    requires skip.None? ==> cSkip == 0
    ensures var l := NewDecoderLayer(cIn, cSkip, cOut);
            var sp := if skip.Some? then skip.value[2..] else x[2..];
            l.Shape(x, skip) == Some([b, cOut] + sp)
  {
    var l := NewDecoderLayer(cIn, cSkip, cOut);
    var sp := if skip.Some? then skip.value[2..] else x[2..];
    var a := [x[0], cIn + cSkip, sp[0], sp[1]];
    if skip.Some? {
      var s := skip.value;
      var u := x[..2] + s[2..];
      assert UpsampleShape(x, s) == Some(u);
      assert u[2..] == s[2..] && u[0] == s[0] && u[1] == cIn;
      assert [u[0], u[1] + s[1]] + u[2..] == a;
      assert Cat2Shape(u, s) == Some(a);
    } else {
      assert x == a;
    }
    assert l.AttnShape(x, skip) == Some(a);
    SameConvRelu(cIn + cSkip, cOut, x[0], sp[0], sp[1]);
    SameConvRelu(cOut, cOut, x[0], sp[0], sp[1]);
    assert [x[0], cOut, sp[0], sp[1]] == [x[0], cOut] + sp;
  }

  datatype CenterLayer = CenterLayer(conv1: seq<Prim>, conv2: seq<Prim>) {
    function Shape(s: Shape): Option<Shape> {
      var c1 :- SeqShape(conv1, s);
      SeqShape(conv2, c1)
    }

    /** `CenterLayer.ForwardT`: the first block's output is released, x is not. */
    method ForwardT(st: Store, x: Tensor) returns (r: Tensor)
      requires st.Valid() && x in st.live && Shape(x.shape).Some?
      modifies st
      ensures st.Valid() && r !in old(st.live) && r.shape == Shape(x.shape).value
      ensures st.live == old(st.live) + {r}
    {
      var c1 := st.ForwardSeq(conv1, x);
      r := st.ForwardSeq(conv2, c1);
      st.Drop(c1);
    }
  }

  /** `NewCenterLayer`: two 3x3 conv-bn-relu blocks. */
  function NewCenterLayer(cIn: nat, cOut: nat): (c: CenterLayer)
    ensures c.conv1 == Conv2dRelu(cIn, cOut, 3, 1, 1) && c.conv2 == Conv2dRelu(cOut, cOut, 3, 1, 1)
  {
    CenterLayer(Conv2dRelu(cIn, cOut, 3, 1, 1), Conv2dRelu(cOut, cOut, 3, 1, 1))
  }

  /** A centre block keeps the spatial size and maps cIn to cOut channels. */
  lemma CenterLayerShape(cIn: nat, cOut: nat, s: Shape)
    requires |s| == 4 && s[1] == cIn && s[2] >= 1 && s[3] >= 1
    ensures NewCenterLayer(cIn, cOut).Shape(s) == Some([s[0], cOut, s[2], s[3]])
  {
    SameConvRelu(cIn, cOut, s[0], s[2], s[3]);
    assert s == [s[0], cIn, s[2], s[3]];
    SameConvRelu(cOut, cOut, s[0], s[2], s[3]);
  }

  /** The decoder's centre: the Identity placeholder, or a `CenterLayer`. */
  datatype Center = IdentityCenter | ConvCenter(layer: CenterLayer) {
    function Shape(s: Shape): Option<Shape> {
      match this
      case IdentityCenter => Some(s)
      case ConvCenter(c) => c.Shape(s)
    }

    method ForwardT(st: Store, x: Tensor) returns (r: Tensor)
      requires st.Valid() && x in st.live && Shape(x.shape).Some?
      modifies st
      ensures st.Valid() && r !in old(st.live) && r.shape == Shape(x.shape).value
      ensures st.live == old(st.live) + {r}
    {
      match this
      case IdentityCenter => r := IdentityForward(st, x);
      case ConvCenter(c) => r := c.ForwardT(st, x);
    }
  }

  /** The skips `ForwardFeatures` pairs with layers 0, 1, ...: the features from the second deepest down to features[1]. */
  function Skips(fs: seq<Shape>): (ss: seq<Shape>)
    requires |fs| >= 2
    ensures |ss| == |fs| - 2 && forall j :: 0 <= j < |ss| ==> ss[j] == fs[|fs| - 2 - j]
  {
    seq(|fs| - 2, j requires 0 <= j < |fs| - 2 => fs[|fs| - 2 - j])
  }

  datatype UNetDecoder = UNetDecoder(center: Center, layers: seq<DecoderLayer>) {

    /**
     * Shape the layer loop yields from layer k on, given layer k's input shape a: layer j takes
     * skip ss[j], the last layer none.
     */
    function RunFrom(ss: seq<Shape>, k: nat, a: Shape): Option<Shape>
      requires k < |layers| && |ss| >= |layers| - 1
      decreases |layers| - k, 1
    {
      if k == |layers| - 1 then layers[k].Shape(a, None) else StepFrom(ss, k, a)
    }

    /** Layer k < last on a with skip ss[k], then the layers after it. */
    function StepFrom(ss: seq<Shape>, k: nat, a: Shape): Option<Shape>
      requires k < |layers| - 1 && |ss| >= |layers| - 1
      decreases |layers| - k, 0
    {
      var b :- layers[k].Shape(a, Some(ss[k]));
      RunFrom(ss, k + 1, b)
    }

    /** From layer k on, no layer that takes a skip gets an input of its skip's spatial size. */
    predicate NoAliasFrom(ss: seq<Shape>, k: nat, a: Shape)
      requires k < |layers| && |ss| >= |layers| - 1
      decreases |layers| - k, 1
    {
      k == |layers| - 1 || (!SameSpatial(a, ss[k]) && NoAliasStep(ss, k, a))
    }

    /** After layer k < last on a with skip ss[k], the layers after it do not alias. */
    predicate NoAliasStep(ss: seq<Shape>, k: nat, a: Shape)
      requires k < |layers| - 1 && |ss| >= |layers| - 1
      decreases |layers| - k, 0
    {
      match layers[k].Shape(a, Some(ss[k]))
      case None => true
      case Some(b) => NoAliasFrom(ss, k + 1, b)
    }

    /** Shape `ForwardFeatures` returns on features of shapes fs. */
    function Shape(fs: seq<Shape>): Option<Shape>
      requires |layers| >= 1 && |fs| >= |layers| + 1
    {
      var c :- center.Shape(fs[|fs| - 1]);
      RunFrom(Skips(fs), 0, c)
    }

    /** No layer's `upsample` hands back its own input on features of shapes fs. */
    predicate NoAliases(fs: seq<Shape>)
      requires |layers| >= 1 && |fs| >= |layers| + 1
    {
      match center.Shape(fs[|fs| - 1])
      case None => true
      case Some(c) => NoAliasFrom(Skips(fs), 0, c)
    }

    /**
     * `ForwardFeatures` with the corrected `ForwardSkip`: every outs[k], the centre output
     * included, is released; the features stay live and only the result is new.
     */
    method ForwardFeatures(st: Store, features: seq<Tensor>) returns (res: Tensor)
      requires st.Valid() && |layers| >= 2 && |features| >= |layers| + 1
      requires forall k :: 0 <= k < |features| ==> features[k] in st.live
      requires Shape(ShapesOf(features)).Some?
      modifies st
      ensures st.Valid() && res !in old(st.live) && st.live == old(st.live) + {res}
      ensures res.shape == Shape(ShapesOf(features)).value
    {
      var feats := Reversed(features);
      var head := feats[0];
      var skips := feats[1..];
      forall j | 0 <= j < |skips|
        ensures ShapesOf(skips)[j] == Skips(ShapesOf(features))[j]
      {
        assert skips[j] == features[|features| - 2 - j];
      }
      assert ShapesOf(skips) == Skips(ShapesOf(features));
      var x := center.ForwardT(st, head);
      res := Decode(st, x, skips, false);
    }

    /**
     * `ForwardFeatures` as written: it keeps the contract above only on features on which no
     * layer's upsample aliases.
     */
    method ForwardFeaturesAsWritten(st: Store, features: seq<Tensor>) returns (res: Tensor)
      requires st.Valid() && |layers| >= 2 && |features| >= |layers| + 1
      requires forall k :: 0 <= k < |features| ==> features[k] in st.live
      requires Shape(ShapesOf(features)).Some? && NoAliases(ShapesOf(features))
      modifies st
      ensures st.Valid() && res !in old(st.live) && st.live == old(st.live) + {res}
      ensures res.shape == Shape(ShapesOf(features)).value
    {
      var feats := Reversed(features);
      var head := feats[0];
      var skips := feats[1..];
      forall j | 0 <= j < |skips|
        ensures ShapesOf(skips)[j] == Skips(ShapesOf(features))[j]
      {
        assert skips[j] == features[|features| - 2 - j];
      }
      assert ShapesOf(skips) == Skips(ShapesOf(features));
      var x := center.ForwardT(st, head);
      res := Decode(st, x, skips, true);
    }

    /**
     * The layer loop from outs[0] = x: layer k on outs[k] with skips[k], the last layer
     * without a skip; then every outs[k], x included, is released. With `asWritten` the layers
     * run `ForwardSkipAsWritten`, which needs skips that never alias.
     */
    method Decode(st: Store, x: Tensor, skips: seq<Tensor>, asWritten: bool) returns (res: Tensor)
      requires st.Valid() && x in st.live && |layers| >= 2 && |skips| >= |layers| - 1
      requires forall k :: 0 <= k < |skips| ==> skips[k] in st.live
      requires RunFrom(ShapesOf(skips), 0, x.shape).Some?
      requires asWritten ==> x !in skips && NoAliasFrom(ShapesOf(skips), 0, x.shape)
      modifies st
      ensures st.Valid() && res.shape == RunFrom(ShapesOf(skips), 0, x.shape).value
      ensures res !in old(st.live) && st.live == old(st.live) - {x} + {res}
    {
      ghost var ss := ShapesOf(skips);
      ghost var goal := RunFrom(ss, 0, x.shape);
      ghost var base := st.live;
      var L := |layers|;
      var outs := [x];
      TrackedStart(x, base);
      var k := 0;
      while k < L - 1
        invariant 0 <= k <= L - 1 && |outs| == k + 1 && outs[0] == x
        invariant st.Valid() && Tracked(outs, base, st.live)
        invariant RunFrom(ss, k, outs[k].shape) == goal
        invariant asWritten ==> NoAliasFrom(ss, k, outs[k].shape)
        decreases L - k
      {
        var o := Advance(st, ss, k, outs, skips[k], asWritten, base);
        outs := outs + [o];
        k := k + 1;
      }
      res := Finish(st, outs, ss, asWritten, base);
    }

    /**
     * One pass of the loop body before the last layer: outs[k+1] := layer k on outs[k] and its
     * skip, by the corrected `ForwardSkip`, or by the one as written when `asWritten` holds.
     */
    method Advance(st: Store, ghost ss: seq<Shape>, k: nat, outs: seq<Tensor>, skip: Tensor, asWritten: bool, ghost base: set<Tensor>)
      returns (o: Tensor)
      requires st.Valid() && Tracked(outs, base, st.live) && |outs| == k + 1 && skip in base
      requires k + 1 < |layers| && |ss| >= |layers| - 1
      requires ss[k] == skip.shape && RunFrom(ss, k, outs[k].shape).Some?
      requires asWritten ==> (k == 0 ==> outs[0] != skip) && NoAliasFrom(ss, k, outs[k].shape)
      modifies st
      ensures st.Valid() && Tracked(outs + [o], base, st.live)
      ensures RunFrom(ss, k + 1, o.shape) == RunFrom(ss, k, outs[k].shape)
      ensures asWritten ==> NoAliasFrom(ss, k + 1, o.shape)
    {
      var a := outs[k];
      assert a in st.live && (k > 0 ==> a !in base);
      ghost var before := st.live;
      if asWritten {
        o := layers[k].ForwardSkipAsWritten(st, a, Some(skip));
      } else {
        o := layers[k].ForwardSkip(st, a, Some(skip));
      }
      TrackedSnoc(outs, base, before, o);
    }

    /**
     * The last layer on outs[last] without a skip, then the release of every outs[k]: of the
     * handles, only `base` without outs[0] and the result stay live.
     */
    method Finish(st: Store, outs: seq<Tensor>, ghost ss: seq<Shape>, asWritten: bool, ghost base: set<Tensor>)
      returns (res: Tensor)
      requires st.Valid() && |outs| == |layers| >= 1 && |ss| >= |layers| - 1
      requires Tracked(outs, base, st.live)
      requires RunFrom(ss, |layers| - 1, outs[|layers| - 1].shape).Some?
      modifies st
      ensures st.Valid() && res.shape == RunFrom(ss, |layers| - 1, outs[|layers| - 1].shape).value
      ensures res !in base && st.live == base - {outs[0]} + {res}
    {
      var l := layers[|layers| - 1];
      if asWritten {
        res := l.ForwardSkipAsWritten(st, outs[|layers| - 1], None);
      } else {
        res := l.ForwardSkip(st, outs[|layers| - 1], None);
      }
      ReleaseAll(st, outs);
      assert outs == [outs[0]] + outs[1..];
      ElemsCons(outs[0], outs[1..]);
      Released(base, Elems(outs[1..]), outs[0], res);
    }
  }

  /**
   * outs[0] comes from `base`, the later entries are new, distinct, and together with `base`
   * they are exactly the live handles.
   */
  predicate Tracked(outs: seq<Tensor>, base: set<Tensor>, live: set<Tensor>) {
    && |outs| >= 1 && outs[0] in base && Distinct(outs)
    && (forall j :: 0 <= j < |outs| ==> outs[j] in live)
    && (forall j :: 1 <= j < |outs| ==> outs[j] !in base)
    && live == base + Elems(outs[1..]) && base !! Elems(outs[1..])
  }

  lemma TrackedStart(x: Tensor, base: set<Tensor>)
    requires x in base
    ensures Tracked([x], base, base)
  {
    assert [x][1..] == [];
  }

  lemma TrackedSnoc(outs: seq<Tensor>, base: set<Tensor>, live: set<Tensor>, o: Tensor)
    requires Tracked(outs, base, live) && o !in live
    ensures Tracked(outs + [o], base, live + {o})
  {
    assert (outs + [o])[1..] == outs[1..] + [o];
    ElemsSnoc(outs[1..], o);
  }

  /** What the final release leaves: the caller's arrays without x, and the result. */
  lemma Released(a: set<Tensor>, e: set<Tensor>, x: Tensor, r: Tensor)
    requires x in a && a !! e && r !in a && r !in e
    ensures a + e + {r} - ({x} + e) == a - {x} + {r}
  {
  }

  /**
   * The reversal loops at decoder.go lines 112-115 and 177-179: xs[len-1] down to xs[1];
   * xs[0] is skipped.
   */
  method Reversed<T>(xs: seq<T>) returns (ys: seq<T>)
    ensures |ys| == if |xs| == 0 then 0 else |xs| - 1
    ensures forall j :: 0 <= j < |ys| ==> ys[j] == xs[|xs| - 1 - j]
  {
    ys := [];
    var i := |xs| - 1;
    while i >= 1
      invariant |xs| == 0 ==> i == -1 && ys == []
      invariant |xs| > 0 ==> 0 <= i <= |xs| - 1 && |ys| == |xs| - 1 - i
      invariant forall j :: 0 <= j < |ys| ==> ys[j] == xs[|xs| - 1 - j]
    {
      ys := ys + [xs[i]];
      i := i - 1;
    }
  }

  /**
   * How `NewUNetDecoder` fails: the depth check it reports (decoder.go line 171), and the
   * index-out-of-range panics of the unchecked indexing that follows: encoderChans[0] with
   * fewer than two encoder widths (line 181), decoderChannels[:len-1] with no decoder widths
   * (line 184) and skipChannels[i] for the first layer past the skip widths (line 195).
   */
  datatype DecoderError =
    | DepthMismatch(numLayers: int, decoderLayers: nat)
    | NoHeadWidth
    | NoDecoderWidths
    | NoSkipWidth(layer: nat)

  /** Input widths of the layers: the deepest encoder width, then each layer's predecessor's output. */
  function InChannels(enc: seq<nat>, dec: seq<nat>): (r: seq<nat>)
    requires |enc| >= 1 && |dec| >= 1
    ensures |r| == |dec| && r[0] == enc[|enc| - 1]
    ensures forall i :: 1 <= i < |r| ==> r[i] == dec[i - 1]
  {
    [enc[|enc| - 1]] + dec[..|dec| - 1]
  }

  /** Skip widths of the layers: the encoder widths from the second deepest down to enc[1], then 0. */
  function SkipChannels(enc: seq<nat>): (r: seq<nat>)
    requires |enc| >= 2
    ensures |r| == |enc| - 1 && r[|r| - 1] == 0
    ensures forall j :: 0 <= j < |r| - 1 ==> r[j] == enc[|enc| - 2 - j]
    decreases |enc|
  {
    if |enc| == 2 then [0] else [enc[|enc| - 2]] + SkipChannels(enc[..|enc| - 1])
  }

  /** The layers the plan builds from input, skip and output widths, one per position. */
  function Layers(ins: seq<nat>, skips: seq<nat>, outs: seq<nat>): (ls: seq<DecoderLayer>)
    requires |ins| == |skips| == |outs|
    ensures |ls| == |ins|
    decreases |ins|
  {
    if |ins| == 0 then []
    else
      var n := |ins| - 1;
      Layers(ins[..n], skips[..n], outs[..n]) + [NewDecoderLayer(ins[n], skips[n], outs[n])]
  }

  lemma {:induction false} LayersAt(ins: seq<nat>, skips: seq<nat>, outs: seq<nat>, i: nat)
    requires |ins| == |skips| == |outs| && i < |ins|
    ensures Layers(ins, skips, outs)[i] == NewDecoderLayer(ins[i], skips[i], outs[i])
    decreases |ins|
  {
    var n := |ins| - 1;
    if i < n {
      LayersAt(ins[..n], skips[..n], outs[..n], i);
    }
  }

  /** The decoder the channel plan builds from encoder widths enc and decoder widths dec. */
  function PlanDecoder(enc: seq<nat>, dec: seq<nat>): (d: UNetDecoder)
    requires |enc| >= 2 && 1 <= |dec| <= |enc| - 1
    ensures d.center == IdentityCenter && |d.layers| == |dec|
  {
    UNetDecoder(IdentityCenter, Layers(InChannels(enc, dec), SkipChannels(enc)[..|dec|], dec))
  }

  /**
   * `NewUNetDecoder`: fails when the depth is not the number of decoder widths, and panics
   * where its indexing runs out of range; otherwise the planned decoder, an Identity centre
   * and layer i mapping InChannels[i] + SkipChannels[i] to dec[i] channels.
   */
  method NewUNetDecoder(enc: seq<nat>, dec: seq<nat>, numLayers: int) returns (r: Result<UNetDecoder, DecoderError>)
    ensures r.Err? <==> |dec| != numLayers || |enc| < 2 || |dec| == 0 || |dec| > |enc| - 1
    ensures |dec| != numLayers ==> r == Err(DepthMismatch(numLayers, |dec|))
    ensures |dec| == numLayers && |enc| < 2 ==> r == Err(NoHeadWidth)
    ensures |dec| == numLayers && |enc| >= 2 && |dec| == 0 ==> r == Err(NoDecoderWidths)
    ensures |dec| == numLayers && |enc| >= 2 && |dec| > |enc| - 1 ==> r == Err(NoSkipWidth(|enc| - 1))
    ensures r.Ok? ==> |enc| >= 2 && 1 <= |dec| <= |enc| - 1 && r.value == PlanDecoder(enc, dec)
  {
    if |dec| != numLayers {
      return Err(DepthMismatch(numLayers, |dec|));
    }
    var encoderChans := Reversed(enc);
    if |encoderChans| == 0 {
      return Err(NoHeadWidth);
    }
    var headChannels := encoderChans[0];
    if |dec| == 0 {
      return Err(NoDecoderWidths);
    }
    var inChannels := [headChannels] + dec[..|dec| - 1];
    var skipChannels := encoderChans[1..] + [0];
    var outChannels := dec;
    if |dec| > |skipChannels| {
      return Err(NoSkipWidth(|skipChannels|));
    }
    assert inChannels == InChannels(enc, dec);
    assert skipChannels == SkipChannels(enc);
    var layers := BuildLayers(inChannels, skipChannels[..|dec|], outChannels);
    r := Ok(UNetDecoder(IdentityCenter, layers));
  }

  /** The loop at decoder.go lines 194-197: one `NewDecoderLayer` per position. */
  method BuildLayers(ins: seq<nat>, skips: seq<nat>, outs: seq<nat>) returns (layers: seq<DecoderLayer>)
    requires |ins| == |skips| == |outs|
    ensures layers == Layers(ins, skips, outs)
  {
    layers := [];
    var k := 0;
    while k < |ins|
      invariant 0 <= k <= |ins|
      invariant layers == Layers(ins[..k], skips[..k], outs[..k])
    {
      assert ins[..k + 1][..k] == ins[..k] && skips[..k + 1][..k] == skips[..k] && outs[..k + 1][..k] == outs[..k];
      layers := layers + [NewDecoderLayer(ins[k], skips[k], outs[k])];
      k := k + 1;
    }
    assert ins[..k] == ins && skips[..k] == skips && outs[..k] == outs;
  }

  /** The example in the doc comment of `NewUNetDecoder`. */
  lemma DocExamplePlan()
    ensures InChannels([3, 64, 64, 128, 256, 512], [256, 128, 64, 32, 16]) == [512, 256, 128, 64, 32]
    ensures SkipChannels([3, 64, 64, 128, 256, 512]) == [256, 128, 64, 64, 0]
  {
    var r := SkipChannels([3, 64, 64, 128, 256, 512]);
    assert r[0] == 256 && r[1] == 128 && r[2] == 64 && r[3] == 64;
  }

  /** `ForwardFeatures` never reads features[0]: its shape changes neither the result nor aliasing. */
  lemma FeatureZeroUnread(d: UNetDecoder, fs: seq<Shape>, gs: seq<Shape>)
    requires |d.layers| >= 1 && |fs| >= |d.layers| + 1 && |gs| == |fs| && fs[1..] == gs[1..]
    ensures d.Shape(fs) == d.Shape(gs) && d.NoAliases(fs) == d.NoAliases(gs)
  {
    assert fs[|fs| - 1] == fs[1..][|fs| - 2] == gs[|fs| - 1];
    forall j | 0 <= j < |fs| - 2
      ensures Skips(fs)[j] == Skips(gs)[j]
    {
      assert fs[|fs| - 2 - j] == fs[1..][|fs| - 3 - j];
    }
    assert Skips(fs) == Skips(gs);
  }

  /** Features whose widths follow enc: fs[k] is [b, enc[k], H, W] with H, W at least 1. */
  predicate FollowsWidths(fs: seq<Shape>, enc: seq<nat>, b: nat) {
    |fs| == |enc| && forall k :: 0 <= k < |fs| ==> Planar(fs[k], b, enc[k])
  }

  /** Skip shapes ss whose widths follow the plan's skip widths. */
  predicate SkipsFollow(ss: seq<Shape>, enc: seq<nat>, b: nat)
    requires |enc| >= 2
  {
    |ss| == |enc| - 2 && forall j :: 0 <= j < |ss| ==> Planar(ss[j], b, SkipChannels(enc)[j])
  }

  /** Layer k < last of a planned decoder takes skip ss[k] to dec[k] channels at its size. */
  lemma PlanStep(enc: seq<nat>, dec: seq<nat>, ss: seq<Shape>, k: nat, a: Shape, b: nat)
    requires |enc| >= 2 && |dec| == |enc| - 1 && SkipsFollow(ss, enc, b)
    requires k < |dec| - 1 && Planar(a, b, InChannels(enc, dec)[k])
    ensures PlanDecoder(enc, dec).layers[k].Shape(a, Some(ss[k])) == Some([b, dec[k]] + ss[k][2..])
  {
    var ins, skips := InChannels(enc, dec), SkipChannels(enc)[..|dec|];
    LayersAt(ins, skips, dec, k);
    DecoderLayerShape(b, ins[k], skips[k], dec[k], a, Some(ss[k]));
  }

  /** The last layer m of a planned decoder, without a skip, keeps its input's spatial size. */
  lemma PlanLast(enc: seq<nat>, dec: seq<nat>, m: nat, a: Shape, b: nat)
    requires |enc| >= 2 && |dec| == |enc| - 1 && m == |dec| - 1
    requires Planar(a, b, InChannels(enc, dec)[m])
    ensures PlanDecoder(enc, dec).layers[m].Shape(a, None) == Some([b, dec[m]] + a[2..])
  {
    var ins, skips := InChannels(enc, dec), SkipChannels(enc)[..|dec|];
    LayersAt(ins, skips, dec, m);
    assert skips[m] == 0;
    DecoderLayerShape(b, ins[m], 0, dec[m], a, None);
  }

  /**
   * Layers 0..m of d chain: layer k < m maps [b, ins[k], H, W] with skip ss[k] to
   * [b, outs[k]] at the skip's size, outs[k] is the next layer's input width, and the last
   * layer maps [b, ins[m], H, W] without a skip to [b, outs[m], H, W].
   */
  ghost predicate Chained(d: UNetDecoder, ins: seq<nat>, outs: seq<nat>, ss: seq<Shape>, b: nat, m: nat) {
    && |d.layers| == m + 1 && |ins| == m + 1 && |outs| == m + 1 && |ss| >= m
    && (forall k :: 0 <= k < m ==> ins[k + 1] == outs[k] && |ss[k]| == 4 && ss[k][2] >= 1 && ss[k][3] >= 1)
    && (forall k, a :: 0 <= k < m && Planar(a, b, ins[k]) ==>
          d.layers[k].Shape(a, Some(ss[k])) == Some([b, outs[k]] + ss[k][2..]))
    && (forall a :: Planar(a, b, ins[m]) ==> d.layers[m].Shape(a, None) == Some([b, outs[m]] + a[2..]))
  }

  /** A planned decoder chains on skips that follow the plan's skip widths. */
  lemma PlanChained(enc: seq<nat>, dec: seq<nat>, ss: seq<Shape>, b: nat)
    requires |enc| >= 2 && |dec| == |enc| - 1 && SkipsFollow(ss, enc, b)
    ensures Chained(PlanDecoder(enc, dec), InChannels(enc, dec), dec, ss, b, |dec| - 1)
  {
    var d, m := PlanDecoder(enc, dec), |dec| - 1;
    forall k, a | 0 <= k < m && Planar(a, b, InChannels(enc, dec)[k])
      ensures d.layers[k].Shape(a, Some(ss[k])) == Some([b, dec[k]] + ss[k][2..])
    {
      PlanStep(enc, dec, ss, k, a, b);
    }
    forall a | Planar(a, b, InChannels(enc, dec)[m])
      ensures d.layers[m].Shape(a, None) == Some([b, dec[m]] + a[2..])
    {
      PlanLast(enc, dec, m, a, b);
    }
  }

  /**
   * From layer k on, a chained decoder is well-shaped: the result has the last output width and
   * the spatial size of the last skip (of a itself when k is the last layer).
   */
  lemma {:induction false} RunFromChained(d: UNetDecoder, ins: seq<nat>, outs: seq<nat>, ss: seq<Shape>, b: nat, m: nat, k: nat, a: Shape)
    requires Chained(d, ins, outs, ss, b, m)
    requires k <= m && Planar(a, b, ins[k])
    ensures d.RunFrom(ss, k, a) == Some([b, outs[m]] + (if k == m then a[2..] else ss[m - 1][2..]))
    decreases m - k
  {
    if k < m {
      var o := [b, outs[k]] + ss[k][2..];
      assert d.layers[k].Shape(a, Some(ss[k])) == Some(o);
      assert d.RunFrom(ss, k, a) == d.StepFrom(ss, k, a);
      RunFromChained(d, ins, outs, ss, b, m, k + 1, o);
      assert o[2..] == ss[k][2..];
    }
  }

  /** Skips k..m-1 change spatial size at every step. */
  ghost predicate SpatialSteps(ss: seq<Shape>, k: nat, m: nat)
    requires m <= |ss| && forall j :: 0 <= j < m ==> |ss[j]| >= 2
  {
    forall j :: k < j < m ==> ss[j - 1][2..] != ss[j][2..]
  }

  /** Peeling the first step off `SpatialSteps`. */
  lemma SpatialStepsFrom(ss: seq<Shape>, k: nat, m: nat)
    requires k < m <= |ss| && forall j :: 0 <= j < m ==> |ss[j]| >= 2
    ensures SpatialSteps(ss, k, m) <==> (k + 1 < m ==> ss[k][2..] != ss[k + 1][2..]) && SpatialSteps(ss, k + 1, m)
  {
    if SpatialSteps(ss, k + 1, m) && (k + 1 < m ==> ss[k][2..] != ss[k + 1][2..]) {
      forall j | k < j < m ensures ss[j - 1][2..] != ss[j][2..] {
        if j > k + 1 { assert k + 1 < j < m; }
      }
    }
  }

  /** Layer k < m of a chained decoder maps a to the next layer's planar input. */
  lemma ChainedStep(d: UNetDecoder, ins: seq<nat>, outs: seq<nat>, ss: seq<Shape>, b: nat, m: nat, k: nat, a: Shape)
    requires Chained(d, ins, outs, ss, b, m)
    requires k < m && Planar(a, b, ins[k])
    ensures var o := [b, outs[k]] + ss[k][2..];
            d.layers[k].Shape(a, Some(ss[k])) == Some(o) && Planar(o, b, ins[k + 1]) && o[2..] == ss[k][2..]
  {
  }

  /**
   * From layer k on, a chained decoder as written never aliases exactly when layer k's input
   * differs in spatial size from its skip and no two consecutive skips share a spatial size.
   */
  lemma {:induction false} NoAliasFromChained(d: UNetDecoder, ins: seq<nat>, outs: seq<nat>, ss: seq<Shape>, b: nat, m: nat, k: nat, a: Shape)
    requires Chained(d, ins, outs, ss, b, m)
    requires k <= m && Planar(a, b, ins[k])
    ensures d.NoAliasFrom(ss, k, a) <==> (k < m ==> a[2..] != ss[k][2..]) && SpatialSteps(ss, k, m)
    decreases m - k
  {
    if k < m {
      var o := [b, outs[k]] + ss[k][2..];
      ChainedStep(d, ins, outs, ss, b, m, k, a);
      assert d.NoAliasFrom(ss, k, a) == (!SameSpatial(a, ss[k]) && d.NoAliasStep(ss, k, a));
      NoAliasFromChained(d, ins, outs, ss, b, m, k + 1, o);
      SpatialStepsFrom(ss, k, m);
    }
  }

  /** The skips of features following enc follow the plan's skip widths. */
  lemma SkipsOfPlan(fs: seq<Shape>, enc: seq<nat>, b: nat)
    requires |enc| >= 2 && FollowsWidths(fs, enc, b)
    ensures SkipsFollow(Skips(fs), enc, b)
  {
  }

  /**
   * On features following the encoder widths, the planned decoder yields the last decoder
   * width at the spatial size of features[1].
   */
  lemma PlanShape(enc: seq<nat>, dec: seq<nat>, fs: seq<Shape>, b: nat)
    requires |enc| >= 2 && |dec| == |enc| - 1 && FollowsWidths(fs, enc, b)
    ensures PlanDecoder(enc, dec).Shape(fs) == Some([b, dec[|dec| - 1]] + fs[1][2..])
  {
    SkipsOfPlan(fs, enc, b);
    PlanChained(enc, dec, Skips(fs), b);
    RunFromChained(PlanDecoder(enc, dec), InChannels(enc, dec), dec, Skips(fs), b, |dec| - 1, 0, fs[|fs| - 1]);
  }

  /**
   * On features following the encoder widths, the planned decoder as written aliases nowhere
   * exactly when no two adjacent features from features[1] up share a spatial size.
   */
  lemma PlanNoAliases(enc: seq<nat>, dec: seq<nat>, fs: seq<Shape>, b: nat)
    requires |enc| >= 2 && |dec| == |enc| - 1 && FollowsWidths(fs, enc, b)
    ensures PlanDecoder(enc, dec).NoAliases(fs) <==> forall q :: 1 <= q < |fs| - 1 ==> fs[q][2..] != fs[q + 1][2..]
  {
    var ss, d, last := Skips(fs), PlanDecoder(enc, dec), fs[|fs| - 1];
    SkipsOfPlan(fs, enc, b);
    PlanChained(enc, dec, ss, b);
    assert Planar(last, b, InChannels(enc, dec)[0]);
    assert d.NoAliases(fs) == d.NoAliasFrom(ss, 0, last);
    NoAliasFromChained(d, InChannels(enc, dec), dec, ss, b, |dec| - 1, 0, last);
    AdjacentSkips(fs);
  }

  /** Adjacent skips, the head against the first, are adjacent features from features[1] up. */
  lemma AdjacentSkips(fs: seq<Shape>)
    requires |fs| >= 2 && forall q :: 0 <= q < |fs| ==> |fs[q]| >= 2
    ensures var ss, m := Skips(fs), |fs| - 2;
            ((m > 0 ==> fs[|fs| - 1][2..] != ss[0][2..]) && SpatialSteps(ss, 0, m))
            <==> (forall q :: 1 <= q < |fs| - 1 ==> fs[q][2..] != fs[q + 1][2..])
  {
    var ss, m := Skips(fs), |fs| - 2;
    if forall q :: 1 <= q < |fs| - 1 ==> fs[q][2..] != fs[q + 1][2..] {
      forall j | 0 < j < m
        ensures ss[j - 1][2..] != ss[j][2..]
      {
        assert ss[j] == fs[|fs| - 2 - j] && ss[j - 1] == fs[|fs| - 2 - j + 1];
      }
    } else {
      var q :| 1 <= q < |fs| - 1 && fs[q][2..] == fs[q + 1][2..];
      if q < |fs| - 2 {
        var j := |fs| - 2 - q;
        assert ss[j] == fs[q] && ss[j - 1] == fs[q + 1];
      }
    }
  }
}

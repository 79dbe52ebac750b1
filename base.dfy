/**
 * Shared building blocks: the identity placeholder, the concurrent spatial and channel
 * squeeze-and-excitation (SCSE) attention, the attention selector and the convolution helpers.
 */
module Base {
  import opened Wrappers
  import opened Torch

  /** `Identity.Forward` / `Identity.ForwardT`: a detached copy; the input stays live. */
  method IdentityForward(st: Store, x: Tensor) returns (r: Tensor)
    requires st.Valid() && x in st.live
    modifies st
    ensures st.Valid() && r.shape == x.shape && r !in old(st.live)
    ensures st.live == old(st.live) + {r}
  {
    r := st.Detach(x);
  }

  /** `Conv2d`: square kernel, the same stride and padding on both axes, with bias. */
  function Conv2d(cIn: nat, cOut: nat, ksize: nat, padding: nat, stride: nat): (c: Conv2D)
    ensures c.config.stride.0 == c.config.stride.1 == stride
    ensures c.config.padding.0 == c.config.padding.1 == padding
    ensures c.config.bias && c.cIn == cIn && c.cOut == cOut && c.ksize == ksize
  {
    Conv2D(cIn, cOut, ksize, DefaultConv2DConfig.(stride := (stride, stride), padding := (padding, padding)))
  }

  /** `Conv2dNoBias`: as `Conv2d` with the bias switched off. */
  function Conv2dNoBias(cIn: nat, cOut: nat, ksize: nat, padding: nat, stride: nat): (c: Conv2D)
    ensures var d := Conv2d(cIn, cOut, ksize, padding, stride);
            c == d.(config := d.config.(bias := false))
  {
    var c := Conv2d(cIn, cOut, ksize, padding, stride);
    c.(config := c.config.(bias := false))
  }

  /** Both helpers follow the window rule on each spatial axis and map cIn to cOut channels. */
  lemma Conv2dShape(cIn: nat, cOut: nat, ksize: nat, padding: nat, stride: nat, s: Shape)
    requires |s| == 4 && s[1] == cIn
    requires WindowFits(s[2], ksize, padding, stride) && WindowFits(s[3], ksize, padding, stride)
    ensures PrimShape(Conv(Conv2d(cIn, cOut, ksize, padding, stride)), s)
         == PrimShape(Conv(Conv2dNoBias(cIn, cOut, ksize, padding, stride)), s)
         == Some([s[0], cOut, WindowOut(s[2], ksize, padding, stride), WindowOut(s[3], ksize, padding, stride)])
  {
  }

  /** Batch-norm setting of `Conv2dRelu`: eps 0.001, default momentum. */
  const ConvReluBatchNorm := DefaultBatchNormConfig.(eps := 0.001)

  /** `Conv2dRelu`: no-bias convolution, batch norm over cOut features, then ReLU. */
  function Conv2dRelu(cIn: nat, cOut: nat, ksize: nat, padding: nat, stride: nat): (ps: seq<Prim>)
    ensures |ps| == 3 && ps[0].Conv? && !ps[0].conv.config.bias && ps[2] == Relu
    ensures ps[1] == BatchNorm(cOut, BatchNormConfig(0.001, 0.1))
  {
    [Conv(Conv2dNoBias(cIn, cOut, ksize, padding, stride)), BatchNorm(cOut, ConvReluBatchNorm), Relu]
  }

  /** Whatever the input, `Conv2dRelu` produces exactly the shape of its convolution alone. */
  lemma {:induction false} Conv2dReluShape(cIn: nat, cOut: nat, ksize: nat, padding: nat, stride: nat, s: Shape)
    ensures SeqShape(Conv2dRelu(cIn, cOut, ksize, padding, stride), s)
         == PrimShape(Conv(Conv2d(cIn, cOut, ksize, padding, stride)), s)
  {
    var ps := Conv2dRelu(cIn, cOut, ksize, padding, stride);
    match PrimShape(ps[0], s)
    case None =>
    case Some(t) =>
      assert PrimShape(ps[1], t) == Some(t);
      assert SeqShape(ps[2..], t) == Some(t) by {
        assert ps[2..][1..] == [];
      }
  }

  /** A sequence of layers that ends by squashing its output with a sigmoid. */
  predicate Gated(ps: seq<Prim>) {
    |ps| > 0 && ps[|ps| - 1] == Sigmoid
  }

  /** The two branches of SCSE: the channel gate cSE and the spatial gate sSE. */
  datatype SCSE = SCSE(cSE: seq<Prim>, sSE: seq<Prim>) {

    /** Shape `ForwardT` produces: x*cSE(x) + x*sSE(x), both products broadcasting. */
    function Shape(s: Shape): Option<Shape> {
      var c :- SeqShape(cSE, s);
      var g :- SeqShape(sSE, s);
      var cm :- Broadcast(s, c);
      var sm :- Broadcast(s, g);
      Broadcast(cm, sm)
    }

    /** `SCSE.ForwardT`: releases both gates and both products, not x. */
    method ForwardT(st: Store, x: Tensor) returns (r: Tensor)
      requires st.Valid() && x in st.live && Shape(x.shape).Some?
      modifies st
      ensures st.Valid() && r !in old(st.live)
      ensures r.shape == Shape(x.shape).value
      ensures st.live == old(st.live) + {r}
    {
      var cse := st.ForwardSeq(cSE, x);
      var sse := st.ForwardSeq(sSE, x);
      var cmul := st.Mul(x, cse, false);
      var smul := st.Mul(x, sse, false);
      r := st.Add(cmul, smul, false);
      st.Drop(cse);
      st.Drop(sse);
      st.Drop(cmul);
      st.Drop(smul);
    }
  }

  /** Bottleneck reduction: 16 unless the first optional argument overrides it. */
  function Reduction(reductionOpt: seq<nat>): nat {
    if |reductionOpt| > 0 then reductionOpt[0] else 16
  }

  datatype BuildError = DivisionByZero | UnsupportedModule(typeName: string)

  /** `NewSCSE` as written: the spatial sigmoid is appended to the channel branch. */
  function NewSCSE(cIn: nat, reductionOpt: seq<nat>): (r: Result<SCSE, BuildError>)
    ensures r.Err? <==> |reductionOpt| > 0 && reductionOpt[0] == 0
    ensures r.Ok? ==> var m := r.value; var w := cIn / Reduction(reductionOpt);
      && w * Reduction(reductionOpt) <= cIn < (w + 1) * Reduction(reductionOpt)
      && m.cSE == [AdaptiveAvgPool1, Conv(Conv2d(cIn, w, 1, 0, 1)), Relu, Conv(Conv2d(w, cIn, 1, 0, 1)), Sigmoid, Sigmoid]
      && m.sSE == [Conv(Conv2d(cIn, 1, 1, 0, 1))]
    ensures |reductionOpt| == 0 ==> r.Ok? && |r.value.cSE| == 6 && r.value.cSE[1] == Conv(Conv2d(cIn, cIn / 16, 1, 0, 1))
    ensures |reductionOpt| > 0 && r.Ok? ==> |r.value.cSE| == 6 && r.value.cSE[1] == Conv(Conv2d(cIn, cIn / reductionOpt[0], 1, 0, 1))
  {
    var red := Reduction(reductionOpt);
    if red == 0 then Err(DivisionByZero)
    else
      var w := cIn / red;
      var chan := [AdaptiveAvgPool1, Conv(Conv2d(cIn, w, 1, 0, 1)), Relu, Conv(Conv2d(w, cIn, 1, 0, 1)), Sigmoid];
      var spat := [Conv(Conv2d(cIn, 1, 1, 0, 1))];
      Ok(SCSE(chan + [Sigmoid], spat))
  }

  /** `NewSCSE` as evidently intended: each branch ends with its own sigmoid. */
  function NewSCSEIntended(cIn: nat, reductionOpt: seq<nat>): (r: Result<SCSE, BuildError>)
    ensures r.Err? <==> Reduction(reductionOpt) == 0
    ensures r.Ok? ==> var w := cIn / Reduction(reductionOpt);
      && r.value.cSE == [AdaptiveAvgPool1, Conv(Conv2d(cIn, w, 1, 0, 1)), Relu, Conv(Conv2d(w, cIn, 1, 0, 1)), Sigmoid]
      && r.value.sSE == [Conv(Conv2d(cIn, 1, 1, 0, 1)), Sigmoid]
  {
    var red := Reduction(reductionOpt);
    if red == 0 then Err(DivisionByZero)
    else
      var w := cIn / red;
      Ok(SCSE([AdaptiveAvgPool1, Conv(Conv2d(cIn, w, 1, 0, 1)), Relu, Conv(Conv2d(w, cIn, 1, 0, 1)), Sigmoid],
              [Conv(Conv2d(cIn, 1, 1, 0, 1)), Sigmoid]))
  }

  /** As written, the spatial branch is left ungated and the channel gate is squashed twice. */
  lemma NewSCSESpatialUngated(cIn: nat, reductionOpt: seq<nat>)
    requires Reduction(reductionOpt) != 0
    ensures var m := NewSCSE(cIn, reductionOpt).value;
      Gated(m.cSE) && !Gated(m.sSE) && m.cSE[|m.cSE| - 2] == Sigmoid
  {
  }

  /** Corrected, both gates end in a sigmoid and the channel gate has a single one. */
  lemma NewSCSEIntendedGated(cIn: nat, reductionOpt: seq<nat>)
    requires Reduction(reductionOpt) != 0
    ensures var m := NewSCSEIntended(cIn, reductionOpt).value;
      Gated(m.cSE) && Gated(m.sSE) && m.cSE[|m.cSE| - 2] != Sigmoid
  {
  }

  /** The channel branch yields [B, C, 1, 1] from any [B, C, H, W] with H, W at least 1. */
  lemma {:induction false} ChannelGateShape(cIn: nat, w: nat, tail: seq<Prim>, s: Shape)
    requires |s| == 4 && s[1] == cIn && s[2] >= 1 && s[3] >= 1
    requires forall k :: 0 <= k < |tail| ==> tail[k] == Sigmoid
    ensures SeqShape([AdaptiveAvgPool1, Conv(Conv2d(cIn, w, 1, 0, 1)), Relu, Conv(Conv2d(w, cIn, 1, 0, 1))] + tail, s)
         == Some([s[0], cIn, 1, 1])
  {
    var c1, c2 := Conv(Conv2d(cIn, w, 1, 0, 1)), Conv(Conv2d(w, cIn, 1, 0, 1));
    var head := [AdaptiveAvgPool1, c1, Relu, c2];
    var p := [s[0], cIn, 1, 1];
    var q := [s[0], w, 1, 1];
    assert head + tail == [AdaptiveAvgPool1] + ([c1] + ([Relu] + ([c2] + tail)));
    SeqShapeCons(AdaptiveAvgPool1, [c1] + ([Relu] + ([c2] + tail)), s, p);
    SeqShapeCons(c1, [Relu] + ([c2] + tail), p, q);
    SeqShapeCons(Relu, [c2] + tail, q, q);
    SeqShapeCons(c2, tail, q, p);
    SigmoidsKeepShape(tail, p);
  }

  lemma {:induction false} SigmoidsKeepShape(ps: seq<Prim>, s: Shape)
    requires forall k :: 0 <= k < |ps| ==> ps[k] == Sigmoid
    ensures SeqShape(ps, s) == Some(s)
    decreases |ps|
  {
    if ps != [] {
      assert ps[0] == Sigmoid;
      SigmoidsKeepShape(ps[1..], s);
    }
  }

  /** The spatial branch yields [B, 1, H, W], with or without its closing sigmoid. */
  lemma {:induction false} SpatialGateShape(cIn: nat, tail: seq<Prim>, s: Shape)
    requires |s| == 4 && s[1] == cIn && s[2] >= 1 && s[3] >= 1
    requires forall k :: 0 <= k < |tail| ==> tail[k] == Sigmoid
    ensures SeqShape([Conv(Conv2d(cIn, 1, 1, 0, 1))] + tail, s) == Some([s[0], 1, s[2], s[3]])
  {
    var p := [s[0], 1, s[2], s[3]];
    SeqShapeCons(Conv(Conv2d(cIn, 1, 1, 0, 1)), tail, s, p);
    SigmoidsKeepShape(tail, p);
  }

  /** Both gates broadcast onto x, so the attention output is shaped like x (as written or not). */
  lemma ScsePreservesShape(cIn: nat, reductionOpt: seq<nat>, s: Shape)
    requires Reduction(reductionOpt) != 0
    requires |s| == 4 && s[1] == cIn && s[2] >= 1 && s[3] >= 1
    ensures NewSCSE(cIn, reductionOpt).value.Shape(s) == Some(s)
    ensures NewSCSEIntended(cIn, reductionOpt).value.Shape(s) == Some(s)
  {
    var w := cIn / Reduction(reductionOpt);
    var head := [AdaptiveAvgPool1, Conv(Conv2d(cIn, w, 1, 0, 1)), Relu, Conv(Conv2d(w, cIn, 1, 0, 1))];
    var spat := [Conv(Conv2d(cIn, 1, 1, 0, 1))];
    var a := NewSCSE(cIn, reductionOpt).value;
    var b := NewSCSEIntended(cIn, reductionOpt).value;
    assert a.cSE == head + [Sigmoid, Sigmoid];
    assert a.sSE == spat + [];
    assert b.cSE == head + [Sigmoid];
    assert b.sSE == spat + [Sigmoid];
    ChannelGateShape(cIn, w, [Sigmoid, Sigmoid], s);
    ChannelGateShape(cIn, w, [Sigmoid], s);
    SpatialGateShape(cIn, [], s);
    SpatialGateShape(cIn, [Sigmoid], s);
    BroadcastOnto(s, [s[0], cIn, 1, 1]);
    BroadcastOnto(s, [s[0], 1, s[2], s[3]]);
    BroadcastOnto(s, s);
  }

  /** A module that `NewAttention` may be handed. */
  datatype AttnModule = IdentityModule | ScseModule(scse: SCSE) {

    /** Name of the module's Go type, as reflection reports it. */
    function TypeName(): string {
      match this
      case IdentityModule => "Identity"
      case ScseModule(_) => "SCSE"
    }

    function Shape(s: Shape): Option<Shape> {
      match this
      case IdentityModule => Some(s)
      case ScseModule(m) => m.Shape(s)
    }

    /** `Attention.ForwardT`: delegates to the wrapped module; the input stays live. */
    method ForwardT(st: Store, x: Tensor) returns (r: Tensor)
      requires st.Valid() && x in st.live && Shape(x.shape).Some?
      modifies st
      ensures st.Valid() && r !in old(st.live)
      ensures r.shape == Shape(x.shape).value
      ensures st.live == old(st.live) + {r}
    {
      match this
      case IdentityModule => r := IdentityForward(st, x);
      case ScseModule(m) => r := m.ForwardT(st, x);
    }
  }

  /** `NewAttention`: Identity when no module is given, else the first one, which must be SCSE. */
  function NewAttention(moduleOpt: seq<AttnModule>): (r: Result<AttnModule, BuildError>)
    ensures r.Ok? <==> |moduleOpt| == 0 || moduleOpt[0].ScseModule?
    ensures |moduleOpt| == 0 ==> r == Ok(IdentityModule)
    ensures r.Ok? && |moduleOpt| > 0 ==> r.value == moduleOpt[0]
    ensures r.Err? ==> r.error == UnsupportedModule(moduleOpt[0].TypeName())
  {
    if |moduleOpt| == 0 then Ok(IdentityModule)
    else if moduleOpt[0].TypeName() != "SCSE" then Err(UnsupportedModule(moduleOpt[0].TypeName()))
    else Ok(moduleOpt[0])
  }
}

/**
 * The HuBMAP experiment network (`ResNet34Unet`): the five ResNet34 stages applied one after
 * another, an 11x11 centre block, five decode layers with squeeze-excite attention on both
 * sides of their convolutions, and a 3x3 logit convolution. Its forward closure releases all
 * of its intermediates at the end.
 */
module HubmapNet {
  import opened Wrappers
  import opened Torch
  import opened Base
  import opened Encoder
  import opened Decoder

  /** `squeezeExcite` as written: the same two branches as the base package's `NewSCSE`. */
  function SqueezeExcite(cIn: nat, reduction: nat): (m: SCSE)
    requires reduction > 0
    ensures m == NewSCSE(cIn, [reduction]).value
    ensures !Gated(m.sSE) && m.cSE[|m.cSE| - 2..] == [Sigmoid, Sigmoid]
  {
    var w := cIn / reduction;
    SCSE([AdaptiveAvgPool1, Conv(Conv2d(cIn, w, 1, 0, 1)), Relu, Conv(Conv2d(w, cIn, 1, 0, 1)), Sigmoid, Sigmoid],
         [Conv(Conv2d(cIn, 1, 1, 0, 1))])
  }

  /** `squeezeExcite` as evidently intended: the second sigmoid closes the spatial branch. */
  function SqueezeExciteIntended(cIn: nat, reduction: nat): (m: SCSE)
    requires reduction > 0
    ensures m == NewSCSEIntended(cIn, [reduction]).value
    ensures Gated(m.sSE) && Gated(m.cSE) && m.cSE[|m.cSE| - 2] != Sigmoid
  {
    var w := cIn / reduction;
    SCSE([AdaptiveAvgPool1, Conv(Conv2d(cIn, w, 1, 0, 1)), Relu, Conv(Conv2d(w, cIn, 1, 0, 1)), Sigmoid],
         [Conv(Conv2d(cIn, 1, 1, 0, 1)), Sigmoid])
  }

  /**
   * The closure `squeezeExcite` returns: x*cSE(x) + x*sSE(x). Each gate is released right
   * after its product, the channel product by the add, the spatial product last; x stays live.
   */
  method SqueezeExciteForward(st: Store, m: SCSE, x: Tensor) returns (sum: Tensor)
    requires st.Valid() && x in st.live && m.Shape(x.shape).Some?
    modifies st
    ensures st.Valid() && sum !in old(st.live) && sum.shape == m.Shape(x.shape).value
    ensures st.live == old(st.live) + {sum}
  {
    var fwdChan := st.ForwardSeq(m.cSE, x);
    var xChan := st.Mul(x, fwdChan, false);
    st.Drop(fwdChan);
    var fwdSpat := st.ForwardSeq(m.sSE, x);
    var xSpat := st.Mul(x, fwdSpat, false);
    st.Drop(fwdSpat);
    sum := st.Add(xChan, xSpat, true);
    st.Drop(xSpat);
  }

  /** A decode layer; `skip` is the handle it was built with (nil in the source is None). */
  datatype DecodeLayer = DecodeLayer(conv1: seq<Prim>, attn1: SCSE, conv2: seq<Prim>, attn2: SCSE, skip: Option<Tensor>) {

    /** Input of attn1: [x, skip] concatenated along the channels, or x itself. */
    function CatShape(x: Shape): Option<Shape> {
      match skip
      case None => Some(x)
      case Some(s) => Cat2Shape(x, s.shape)
    }

    /** Shape the layer's closure produces from x. */
    function Shape(x: Shape): Option<Shape> {
      var c :- CatShape(x);
      var a :- attn1.Shape(c);
      var c1 :- SeqShape(conv1, a);
      var c2 :- SeqShape(conv2, c1);
      attn2.Shape(c2)
    }

    /**
     * The closure `decodeLayer` returns. The concatenation is released only when a skip was
     * given (otherwise it is x itself); the attention and conv outputs are released; x and the
     * skip stay live.
     */
    method ForwardT(st: Store, x: Tensor) returns (out: Tensor)
      requires st.Valid() && x in st.live && (skip.Some? ==> skip.value in st.live)
      requires Shape(x.shape).Some?
      modifies st
      ensures st.Valid() && out !in old(st.live) && out.shape == Shape(x.shape).value
      ensures st.live == old(st.live) + {out}
    {
      var catTs := x;
      if skip.Some? {
        catTs := st.Cat(x, skip.value);
      }
      var fwdAttn1 := SqueezeExciteForward(st, attn1, catTs);
      var fwdConv1 := st.ForwardSeq(conv1, fwdAttn1);
      var fwdConv2 := st.ForwardSeq(conv2, fwdConv1);
      out := SqueezeExciteForward(st, attn2, fwdConv2);
      if skip.Some? {
        st.Drop(catTs);
      }
      st.Drop(fwdAttn1);
      st.Drop(fwdConv1);
      st.Drop(fwdConv2);
    }
  }

  /** `decodeLayer`: conv-bn-relu blocks cIn -> cOut -> cOut, attention with reduction 16. */
  function NewDecodeLayer(cIn: nat, cOut: nat, skip: Option<Tensor>): DecodeLayer {
    DecodeLayer(Conv2dRelu(cIn, cOut, 3, 1, 1), SqueezeExcite(cIn, 16),
                Conv2dRelu(cOut, cOut, 3, 1, 1), SqueezeExcite(cOut, 16), skip)
  }

  /**
   * Applied to x = [B, cx, H, W] with a skip [B, cs, H, W] where cIn = cx + cs (or no skip
   * and cIn = cx), a decode layer yields [B, cOut, H, W].
   */
  lemma DecodeLayerShape(cIn: nat, cOut: nat, b: nat, cx: nat, x: Shape, skip: Option<Tensor>)
    requires Planar(x, b, cx)
    requires skip.None? ==> cIn == cx
    requires skip.Some? ==> var s := skip.value.shape;
      |s| == 4 && s[0] == b && s[2..] == x[2..] && cIn == cx + s[1]
    ensures NewDecodeLayer(cIn, cOut, skip).Shape(x) == Some([b, cOut] + x[2..])
  {
    var o := [b, cOut] + x[2..];
    assert o == [b, cOut, x[2], x[3]];
    var l := NewDecodeLayer(cIn, cOut, skip);
    var c := [b, cIn, x[2], x[3]];
    if skip.Some? {
      assert [x[0], x[1] + skip.value.shape[1]] + x[2..] == c;
    } else {
      assert x == c;
    }
    assert l.CatShape(x) == Some(c);
    ScsePreservesShape(cIn, [16], c);
    SameConvRelu(cIn, cOut, b, x[2], x[3]);
    SameConvRelu(cOut, cOut, b, x[2], x[3]);
    ScsePreservesShape(cOut, [16], o);
    LayerChain(l, x, c, o);
  }

  /** A decode layer yields o when each of its stages maps the previous shape to the next. */
  lemma LayerChain(l: DecodeLayer, x: Shape, c: Shape, o: Shape)
    requires l.CatShape(x) == Some(c) && l.attn1.Shape(c) == Some(c) && SeqShape(l.conv1, c) == Some(o)
    requires SeqShape(l.conv2, o) == Some(o) && l.attn2.Shape(o) == Some(o)
    ensures l.Shape(x) == Some(o)
  {
  }

  /** `centerBlock`: an 11x11, pad-5, bias-free conv on 512 channels, batch norm, ReLU. */
  function CenterBlock(): seq<Prim> {
    Conv2dRelu(512, 512, 11, 5, 1)
  }

  /** The centre block keeps the shape of any [B, 512, H, W] with H, W at least 1. */
  lemma CenterBlockShape(b: nat, h: nat, w: nat)
    requires h >= 1 && w >= 1
    ensures SeqShape(CenterBlock(), [b, 512, h, w]) == Some([b, 512, h, w])
  {
    Conv2dReluShape(512, 512, 11, 5, 1, [b, 512, h, w]);
    assert WindowOut(h, 11, 5, 1) == h && WindowOut(w, 11, 5, 1) == w;
  }

  /** The logit layer: a 3x3, pad-1 conv with bias from 16 channels to 1. */
  const Logit := Conv(Conv2d(16, 1, 3, 1, 1))

  lemma LogitShape(b: nat, h: nat, w: nat)
    requires h >= 1 && w >= 1
    ensures PrimShape(Logit, [b, 16, h, w]) == Some([b, 1, h, w])
  {
    assert WindowOut(h, 3, 1, 1) == h && WindowOut(w, 3, 1, 1) == w;
  }

  /** An RGB batch [B, 3, H, W] with at least one row and one column. */
  predicate Rgb(s: Shape) {
    |s| == 4 && s[1] == 3 && s[2] >= 1 && s[3] >= 1
  }

  /** Shapes of x0, x1, x2, x3, x4, z, z0, z1, z2, z3, z4 and the returned logit. */
  function ClosureShapes(s: Shape): (r: seq<Shape>)
    requires Rgb(s)
    ensures |r| == 12
  {
    var fs := ResNet34Shapes(s);
    var b := s[0];
    [fs[1], fs[2], fs[3], fs[4], fs[5], fs[5],
     [b, 256, fs[4][2], fs[4][3]], [b, 128, fs[3][2], fs[3][3]], [b, 64, fs[2][2], fs[2][3]],
     [b, 32, fs[1][2], fs[1][3]], [b, 16, s[2], s[3]], [b, 1, s[2], s[3]]]
  }

  /** For a 256x256 input the shapes are those of the comments beside the closure's lines. */
  lemma ClosureShapes256(b: nat)
    ensures ClosureShapes([b, 3, 256, 256])
         == [[b, 64, 64, 64], [b, 64, 64, 64], [b, 128, 32, 32], [b, 256, 16, 16], [b, 512, 8, 8],
             [b, 512, 8, 8],
             [b, 256, 16, 16], [b, 128, 32, 32], [b, 64, 64, 64], [b, 32, 64, 64], [b, 16, 256, 256],
             [b, 1, 256, 256]]
  {
    ResNet34Shapes256(b);
  }

  /**
   * None of the four `upsample` calls hands back its own input. z has x4's spatial size, z0
   * has x3's, z1 has x2's and z3 has x0's, so this compares x4 with x3, x3 with x2, x2 with x1
   * and x0 with the input.
   */
  predicate AliasFree(s: Shape)
    requires Rgb(s)
  {
    var fs := ResNet34Shapes(s);
    !SameSpatial(fs[5], fs[4]) && !SameSpatial(fs[4], fs[3]) && !SameSpatial(fs[3], fs[2]) && !SameSpatial(fs[1], s)
  }

  /** The ResNet-34 features of an RGB input are planar with 64, 64, 128, 256 and 512 channels. */
  lemma FrontPlanar(s: Shape)
    requires Rgb(s)
    ensures var fs := ResNet34Shapes(s);
      Planar(s, s[0], 3) && Planar(fs[1], s[0], 64) && Planar(fs[2], s[0], 64) && Planar(fs[3], s[0], 128)
      && Planar(fs[4], s[0], 256) && Planar(fs[5], s[0], 512)
  {

  }

  lemma HalfFixed(n: nat)
    requires n >= 1
    ensures Half(n) == n <==> n == 1
  {
  }

  lemma HalfAtMost(n: nat, m: nat)
    requires n >= 1 && m >= 1
    ensures Half(n) <= m <==> n <= 2 * m
  {
  }

  /** One side through the encoder: k halvings reach 1 exactly when the side is at most 2^k. */
  lemma SideChain(n: nat)
    requires n >= 1
    ensures Half(Half(n)) == n <==> n <= 1
    ensures Half(Half(Half(n))) == Half(Half(n)) <==> n <= 4
    ensures Half(Half(Half(Half(n)))) == Half(Half(Half(n))) <==> n <= 8
    ensures Half(Half(Half(Half(Half(n))))) == Half(Half(Half(Half(n)))) <==> n <= 16
  {
    var h1 := Half(n);
    var h2 := Half(h1);
    var h3 := Half(h2);
    var h4 := Half(h3);
    HalfFixed(n);
    HalfFixed(h1);
    HalfFixed(h2);
    HalfFixed(h3);
    HalfFixed(h4);
    HalfAtMost(n, 1);
    HalfAtMost(n, 2);
    HalfAtMost(n, 4);
    HalfAtMost(n, 8);
    HalfAtMost(h1, 1);
    HalfAtMost(h1, 2);
    HalfAtMost(h1, 4);
    HalfAtMost(h2, 1);
    HalfAtMost(h2, 2);
    HalfAtMost(h3, 1);
    assert h2 == n ==> h1 == n;
  }

  /** The closure can release every handle once exactly when the input exceeds 16 on a side. */
  lemma AliasFreeIff(s: Shape)
    requires Rgb(s)
    ensures AliasFree(s) <==> s[2] > 16 || s[3] > 16
  {
    SideChain(s[2]);
    SideChain(s[3]);
    var fs := ResNet34Shapes(s);
    var h, w := Half(Half(s[2])), Half(Half(s[3]));
    assert fs[5][2..] == [Half(Half(Half(h))), Half(Half(Half(w)))];
    assert fs[4][2..] == [Half(Half(h)), Half(Half(w))];
    assert fs[3][2..] == [Half(h), Half(w)];
    assert fs[2][2..] == [h, w];
    assert fs[1][2..] == [h, w];
    assert s[2..] == [s[2], s[3]];
  }

  /** On a 16x16 input, `upsample(z, x3)` returns z, which the closure then releases twice. */
  lemma SmallInputAliases(s: Shape)
    requires Rgb(s) && s[2] <= 16 && s[3] <= 16
    ensures !AliasFree(s) && ClosureShapes(s)[5][2..] == ClosureShapes(s)[3][2..]
  {
    AliasFreeIff(s);
  }

  /** Lines 226-238: the stem and the four ResNet34 stages (3, 4, 6 and 3 basic blocks). */
  method NewResNet34Unet(train: bool) returns (net: ResNet34Unet)
    ensures IsResNet34(net.encoder) && net.train == train
  {
    var l1 := BasicLayer(64, 64, 1, 3);
    var l2 := BasicLayer(64, 128, 2, 4);
    var l3 := BasicLayer(128, 256, 2, 6);
    var l4 := BasicLayer(256, 512, 2, 3);
    net := ResNet34Unet(ResNetEncoder(LayerZero(), l1, l2, l3, l4), train);
  }

  /** `ResNet34Unet`: the encoder stages built once; centre, decoders and logit per call. */
  datatype ResNet34Unet = ResNet34Unet(encoder: ResNetEncoder, train: bool) {

    /** Lines 243-249: x0 to x4 and the centre output z, fresh and distinct; none is released. */
    method Front(st: Store, x: Tensor) returns (x0: Tensor, x1: Tensor, x2: Tensor, x3: Tensor, x4: Tensor, z: Tensor)
      requires st.Valid() && x in st.live && Rgb(x.shape) && encoder.Shapes(x.shape) == Some(ResNet34Shapes(x.shape))
      modifies st
      ensures st.Valid() && var fs := ResNet34Shapes(x.shape);
        x0.shape == fs[1] && x1.shape == fs[2] && x2.shape == fs[3] && x3.shape == fs[4] && x4.shape == fs[5]
      ensures z.shape == x4.shape
      ensures [x0.shape, x1.shape, x2.shape, x3.shape, x4.shape, z.shape] == ClosureShapes(x.shape)[..6]
      ensures {x0, x1, x2, x3, x4, z} !! old(st.live) && Distinct([x0, x1, x2, x3, x4, z])
      ensures st.live == old(st.live) + {x0, x1, x2, x3, x4, z}
    {
      x0, x1, x2, x3, x4 := Encode(st, x);
      CenterBlockShape(x.shape[0], x4.shape[2], x4.shape[3]);
      assert x4.shape == [x.shape[0], 512, x4.shape[2], x4.shape[3]];
      z := st.ForwardSeq(CenterBlock(), x4);
    }

    /** Lines 243-247: x0 to x4, each a fresh handle; none is released here. */
    method Encode(st: Store, x: Tensor) returns (x0: Tensor, x1: Tensor, x2: Tensor, x3: Tensor, x4: Tensor)
      requires st.Valid() && x in st.live && encoder.Shapes(x.shape).Some?
      modifies st
      ensures st.Valid() && Some([x.shape, x0.shape, x1.shape, x2.shape, x3.shape, x4.shape]) == encoder.Shapes(x.shape)
      ensures x0 !in old(st.live) && x1 !in old(st.live) && x2 !in old(st.live) && x3 !in old(st.live) && x4 !in old(st.live)
      ensures Distinct([x0, x1, x2, x3, x4])
      ensures st.live == old(st.live) + {x0, x1, x2, x3, x4}
    {
      x0 := st.ForwardSeq(encoder.layer0, x);
      x1, x2, x3, x4 := encoder.ForwardStages(st, x0);
    }

    /**
     * The closure as written (lines 241-299): `t` is ignored. The releases at lines 280-296
     * drop x0..x4, z, z0..z4, ref0, ref1, ref2 and ref4 one after another, which is only
     * possible when no ref is the handle it was upsampled from.
     */
    method ForwardTAsWritten(st: Store, x: Tensor, t: bool) returns (retVal: Tensor)
      requires st.Valid() && x in st.live && Rgb(x.shape) && IsResNet34(encoder)
      requires AliasFree(x.shape)
      modifies st
      ensures st.Valid() && retVal !in old(st.live) && retVal.shape == [x.shape[0], 1] + x.shape[2..]
      ensures st.live == old(st.live) + {retVal}
    {
      ResNet34EncoderShapes(encoder, x.shape);
      var x0, x1, x2, x3, x4, z := Front(st, x);
      FrontPlanar(x.shape);
      retVal := ClosureAsWritten(st, old(st.live), x, x0, x1, x2, x3, x4, z, x.shape[0]);
    }

    /**
     * The closure with each ref released only when `upsample` made a new tensor for it: every
     * RGB input then leaves exactly the caller's handles and the logit, [B, 1, H, W].
     */
    method ForwardT(st: Store, x: Tensor, t: bool) returns (retVal: Tensor)
      requires st.Valid() && x in st.live && Rgb(x.shape) && IsResNet34(encoder)
      modifies st
      ensures st.Valid() && retVal !in old(st.live) && retVal.shape == [x.shape[0], 1] + x.shape[2..]
      ensures st.live == old(st.live) + {retVal}
    {
      ResNet34EncoderShapes(encoder, x.shape);
      var x0, x1, x2, x3, x4, z := Front(st, x);
      FrontPlanar(x.shape);
      retVal := Closure(st, old(st.live), x, x0, x1, x2, x3, x4, z, x.shape[0]);
    }
  }

  /** As `ClosureAsWritten`, but a ref that is the handle it was upsampled from is not released again. */
  method Closure(st: Store, ghost keep: set<Tensor>, x: Tensor, x0: Tensor, x1: Tensor, x2: Tensor, x3: Tensor,
                 x4: Tensor, z: Tensor, b: nat)
    returns (retVal: Tensor)
    requires st.Valid() && x in keep && st.live == keep + {x0, x1, x2, x3, x4, z}
    requires {x0, x1, x2, x3, x4, z} !! keep && Distinct([x0, x1, x2, x3, x4, z])
    requires Planar(x.shape, b, 3) && Planar(x0.shape, b, 64) && Planar(x1.shape, b, 64) && x1.shape[2..] == x0.shape[2..]
    requires Planar(x2.shape, b, 128) && Planar(x3.shape, b, 256) && Planar(z.shape, b, 512)
    modifies st
    ensures st.Valid() && retVal !in keep && retVal.shape == [b, 1] + x.shape[2..]
    ensures st.live == keep + {retVal}
  {
    var ref0, z0, ref1, z1, ref2, z2, z3, ref4, z4;
    ref0, z0, ref1, z1, ref2, z2, z3, ref4, z4, retVal := Back(st, x, x0, x1, x2, x3, z, b);
    DropClosureGuarded(st, keep, x0, x1, x2, x3, x4, z, z0, z1, z2, z3, z4, ref0, ref1, ref2, ref4, retVal);
  }

  /**
   * The releases of lines 280-296 with each ref released only when it differs from the handle
   * it was upsampled from; a ref that is that handle has already been released with it.
   */
  method DropClosureGuarded(st: Store, ghost keep: set<Tensor>, x0: Tensor, x1: Tensor, x2: Tensor, x3: Tensor, x4: Tensor,
                            z: Tensor, z0: Tensor, z1: Tensor, z2: Tensor, z3: Tensor, z4: Tensor,
                            ref0: Tensor, ref1: Tensor, ref2: Tensor, ref4: Tensor, retVal: Tensor)
    requires st.Valid() && st.live == keep + {x0, x1, x2, x3, x4, z} + {ref0, z0, ref1, z1, ref2, z2, z3, ref4, z4, retVal}
    requires Distinct([x0, x1, x2, x3, x4, z]) && {x0, x1, x2, x3, x4, z} !! keep
    requires Distinct([z0, z1, z2, z3, z4]) && {z0, z1, z2, z3, z4} !! keep + {x0, x1, x2, x3, x4, z}
    requires Distinct([ref0, ref1, ref2, ref4])
    requires ref0 != z ==> ref0 !in keep + {x0, x1, x2, x3, x4, z} + {z0, z1, z2, z3, z4}
    requires ref1 != z0 ==> ref1 !in keep + {x0, x1, x2, x3, x4, z} + {z0, z1, z2, z3, z4}
    requires ref2 != z1 ==> ref2 !in keep + {x0, x1, x2, x3, x4, z} + {z0, z1, z2, z3, z4}
    requires ref4 != z3 ==> ref4 !in keep + {x0, x1, x2, x3, x4, z} + {z0, z1, z2, z3, z4}
    requires retVal !in keep + {x0, x1, x2, x3, x4, z} + {z0, z1, z2, z3, z4} + {ref0, ref1, ref2, ref4}
    modifies st
    ensures st.Valid() && st.live == keep + {retVal}
  {
    DistinctFour(ref0, ref1, ref2, ref4);
    ghost var newRefs := {ref0, ref1, ref2, ref4} - {z, z0, z1, z3};
    DropFeatures(st, keep, x0, x1, x2, x3, x4, z, z0, z1, z2, z3, z4, newRefs + {retVal});
    DropRefs(st, keep + {retVal}, z, z0, z1, z3, ref0, ref1, ref2, ref4);
  }

  /**
   * Lines 292-296 with each release guarded: ref0, ref1, ref2 and ref4 are released only when
   * they differ from z, z0, z1 and z3 respectively, the handles they were upsampled from.
   */
  method DropRefs(st: Store, ghost keep: set<Tensor>, z: Tensor, z0: Tensor, z1: Tensor, z3: Tensor,
                  ref0: Tensor, ref1: Tensor, ref2: Tensor, ref4: Tensor)
    requires st.Valid() && st.live == keep + ({ref0, ref1, ref2, ref4} - {z, z0, z1, z3})
    requires ref0 != ref1 && ref0 != ref2 && ref0 != ref4 && ref1 != ref2 && ref1 != ref4 && ref2 != ref4
    requires ref0 != z ==> ref0 !in keep + {z0, z1, z3}
    requires ref1 != z0 ==> ref1 !in keep + {z, z1, z3}
    requires ref2 != z1 ==> ref2 !in keep + {z, z0, z3}
    requires ref4 != z3 ==> ref4 !in keep + {z, z0, z1}
    modifies st
    ensures st.Valid() && st.live == keep
  {
    ghost var pending := {ref0, ref1, ref2, ref4} - {z, z0, z1, z3};
    if ref0 != z {
      st.Drop(ref0);
    }
    pending := pending - {ref0};
    assert st.live == keep + pending;
    if ref1 != z0 {
      st.Drop(ref1);
    }
    pending := pending - {ref1};
    assert st.live == keep + pending;
    if ref2 != z1 {
      st.Drop(ref2);
    }
    pending := pending - {ref2};
    assert st.live == keep + pending;
    if ref4 != z3 {
      st.Drop(ref4);
    }
    assert pending - {ref4} == {};
  }

  /** Releases x0..x4, z and z0..z4, in the closure's order; what else was live stays live. */
  method DropFeatures(st: Store, ghost keep: set<Tensor>, x0: Tensor, x1: Tensor, x2: Tensor, x3: Tensor, x4: Tensor,
                      z: Tensor, z0: Tensor, z1: Tensor, z2: Tensor, z3: Tensor, z4: Tensor, ghost rest: set<Tensor>)
    requires st.Valid() && st.live == keep + {x0, x1, x2, x3, x4, z} + ({z0, z1, z2, z3, z4} + rest)
    requires Distinct([x0, x1, x2, x3, x4, z]) && {x0, x1, x2, x3, x4, z} !! keep
    requires Distinct([z0, z1, z2, z3, z4]) && {z0, z1, z2, z3, z4} !! keep + {x0, x1, x2, x3, x4, z}
    requires rest !! {x0, x1, x2, x3, x4, z} + {z0, z1, z2, z3, z4}
    modifies st
    ensures st.Valid() && st.live == keep + rest
  {
    ElemsOfSix(x0, x1, x2, x3, x4, z);
    ElemsOfFive(z0, z1, z2, z3, z4);
    ElemsWithin([x0, x1, x2, x3, x4, z], st.live);
    ReleaseAll(st, [x0, x1, x2, x3, x4, z]);
    ElemsWithin([z0, z1, z2, z3, z4], st.live);
    ReleaseAll(st, [z0, z1, z2, z3, z4]);
    Released(keep, {x0, x1, x2, x3, x4, z}, {z0, z1, z2, z3, z4}, rest);
  }

  /** Releasing two groups disjoint from everything else leaves everything else. */
  lemma Released(keep: set<Tensor>, xs: set<Tensor>, zs: set<Tensor>, rest: set<Tensor>)
    requires keep !! xs && keep !! zs && rest !! xs + zs
    ensures keep + xs + (zs + rest) - xs - zs == keep + rest
  {
  }

  /**
   * Lines 261-296 after the centre block: the decoders, then every release the closure makes.
   * Releasing ref0, ref1, ref2 and ref4 separately is sound only when none of them is the
   * handle it was upsampled from, which is what the four spatial conditions say.
   */
  method ClosureAsWritten(st: Store, ghost keep: set<Tensor>, x: Tensor, x0: Tensor, x1: Tensor, x2: Tensor, x3: Tensor,
                          x4: Tensor, z: Tensor, b: nat)
    returns (retVal: Tensor)
    requires st.Valid() && x in keep && st.live == keep + {x0, x1, x2, x3, x4, z}
    requires {x0, x1, x2, x3, x4, z} !! keep && Distinct([x0, x1, x2, x3, x4, z])
    requires Planar(x.shape, b, 3) && Planar(x0.shape, b, 64) && Planar(x1.shape, b, 64) && x1.shape[2..] == x0.shape[2..]
    requires Planar(x2.shape, b, 128) && Planar(x3.shape, b, 256) && Planar(z.shape, b, 512)
    requires !SameSpatial(z.shape, x3.shape) && !SameSpatial(x3.shape, x2.shape)
    requires !SameSpatial(x2.shape, x1.shape) && !SameSpatial(x0.shape, x.shape)
    modifies st
    ensures st.Valid() && retVal !in keep && retVal.shape == [b, 1] + x.shape[2..]
    ensures st.live == keep + {retVal}
  {
    var ref0, z0, ref1, z1, ref2, z2, z3, ref4, z4;
    ref0, z0, ref1, z1, ref2, z2, z3, ref4, z4, retVal := Back(st, x, x0, x1, x2, x3, z, b);
    DropClosure(st, keep, x0, x1, x2, x3, x4, z, z0, z1, z2, z3, z4, ref0, ref1, ref2, ref4, retVal);
  }

  /**
   * Lines 280-296: x0..x4 and z, then z0..z4, then ref0, ref1, ref2 and ref4 are released in
   * that order; with no handle named twice, only the caller's handles and the logit remain.
   */
  method DropClosure(st: Store, ghost keep: set<Tensor>, x0: Tensor, x1: Tensor, x2: Tensor, x3: Tensor, x4: Tensor,
                     z: Tensor, z0: Tensor, z1: Tensor, z2: Tensor, z3: Tensor, z4: Tensor,
                     ref0: Tensor, ref1: Tensor, ref2: Tensor, ref4: Tensor, retVal: Tensor)
    requires st.Valid() && st.live == keep + {x0, x1, x2, x3, x4, z} + {ref0, z0, ref1, z1, ref2, z2, z3, ref4, z4, retVal}
    requires Distinct([x0, x1, x2, x3, x4, z]) && {x0, x1, x2, x3, x4, z} !! keep
    requires Distinct([z0, z1, z2, z3, z4]) && {z0, z1, z2, z3, z4} !! keep + {x0, x1, x2, x3, x4, z}
    requires Distinct([ref0, ref1, ref2, ref4])
    requires {ref0, ref1, ref2, ref4} !! keep + {x0, x1, x2, x3, x4, z} + {z0, z1, z2, z3, z4}
    requires retVal !in keep + {x0, x1, x2, x3, x4, z} + {z0, z1, z2, z3, z4} + {ref0, ref1, ref2, ref4}
    modifies st
    ensures st.Valid() && st.live == keep + {retVal}
  {
    ElemsOfSix(x0, x1, x2, x3, x4, z);
    ElemsOfFive(z0, z1, z2, z3, z4);
    ElemsOfFour(ref0, ref1, ref2, ref4);
    DropGroups(st, [x0, x1, x2, x3, x4, z], [z0, z1, z2, z3, z4], [ref0, ref1, ref2, ref4], keep, retVal);
  }

  /** Releasing three disjoint groups of handles, one group after another, leaves keep and r. */
  method DropGroups(st: Store, xs: seq<Tensor>, zs: seq<Tensor>, rs: seq<Tensor>, ghost keep: set<Tensor>, ghost r: Tensor)
    requires st.Valid() && st.live == keep + Elems(xs) + Elems(zs) + Elems(rs) + {r}
    requires Distinct(xs) && Distinct(zs) && Distinct(rs)
    requires keep !! Elems(xs) && keep + Elems(xs) !! Elems(zs) && keep + Elems(xs) + Elems(zs) !! Elems(rs)
    requires r !in keep + Elems(xs) + Elems(zs) + Elems(rs)
    modifies st
    ensures st.Valid() && st.live == keep + {r}
  {
    ElemsWithin(xs, st.live);
    ReleaseAll(st, xs);
    ElemsWithin(zs, st.live);
    ReleaseAll(st, zs);
    ElemsWithin(rs, st.live);
    ReleaseAll(st, rs);
  }

  /** Builds `decodeLayer(cIn, cOut, skip)` and applies it to f; the result is [B, cOut, H, W]. */
  method ApplyDecodeLayer(st: Store, f: Tensor, skip: Option<Tensor>, cIn: nat, cOut: nat, b: nat, cx: nat)
    returns (out: Tensor)
    requires st.Valid() && f in st.live && (skip.Some? ==> skip.value in st.live)
    requires Planar(f.shape, b, cx)
    requires skip.None? ==> cIn == cx
    requires skip.Some? ==> var s := skip.value.shape;
      |s| == 4 && s[0] == b && s[2..] == f.shape[2..] && cIn == cx + s[1]
    modifies st
    ensures st.Valid() && out !in old(st.live) && out.shape == [b, cOut] + f.shape[2..]
    ensures st.live == old(st.live) + {out}
  {
    DecodeLayerShape(cIn, cOut, b, cx, f.shape, skip);
    out := NewDecodeLayer(cIn, cOut, skip).ForwardT(st, f);
  }

  /**
   * One upsample-and-decode step: `ref := upsample(deep, f)`, then a decode layer built with
   * skip ref is applied to f, so the concatenation is [f, ref].
   */
  method UpDecode(st: Store, deep: Tensor, f: Tensor, cIn: nat, cOut: nat, b: nat, cf: nat)
    returns (ref: Tensor, out: Tensor)
    requires st.Valid() && deep in st.live && f in st.live
    requires Planar(f.shape, b, cf) && |deep.shape| == 4 && deep.shape[0] == b && cIn == cf + deep.shape[1]
    modifies st
    ensures st.Valid() && ref.shape == [b, deep.shape[1]] + f.shape[2..]
    ensures ref == deep <==> SameSpatial(deep.shape, f.shape)
    ensures ref != deep ==> ref !in old(st.live)
    ensures out !in old(st.live) && out != ref && out.shape == [b, cOut] + f.shape[2..]
    ensures st.live == old(st.live) + {ref, out}
  {
    ref := Upsample(st, deep, f);
    out := ApplyDecodeLayer(st, f, Some(ref), cIn, cOut, b, cf);
  }

  /**
   * Lines 261-269: `ref0 := upsample(z, x3)`, z0 from [x3, ref0]; `ref1 := upsample(z0, x2)`,
   * z1 from [x2, ref1]; `ref2 := upsample(z1, x1)`, z2 from [x1, ref2]. A ref is the handle it
   * upsampled exactly when the spatial sizes already agree; otherwise it is new.
   */
  method DecodeDeep(st: Store, x1: Tensor, x2: Tensor, x3: Tensor, z: Tensor, b: nat)
    returns (ref0: Tensor, z0: Tensor, ref1: Tensor, z1: Tensor, ref2: Tensor, z2: Tensor)
    requires st.Valid() && x1 in st.live && x2 in st.live && x3 in st.live && z in st.live
    requires Planar(z.shape, b, 512) && Planar(x3.shape, b, 256) && Planar(x2.shape, b, 128) && Planar(x1.shape, b, 64)
    modifies st
    ensures st.Valid()
    ensures z0.shape == [b, 256] + x3.shape[2..] && z1.shape == [b, 128] + x2.shape[2..] && z2.shape == [b, 64] + x1.shape[2..]
    ensures (ref0 == z <==> SameSpatial(z.shape, x3.shape)) && (ref1 == z0 <==> SameSpatial(z0.shape, x2.shape))
      && (ref2 == z1 <==> SameSpatial(z1.shape, x1.shape))
    ensures z0 !in old(st.live) && z1 !in old(st.live) && z2 !in old(st.live) && Distinct([z0, z1, z2])
    ensures ref0 != z ==> ref0 !in old(st.live) && ref0 !in {z0, z1, z2}
    ensures ref1 != z0 ==> ref1 !in old(st.live) && ref1 !in {z0, z1, z2}
    ensures ref2 != z1 ==> ref2 !in old(st.live) && ref2 !in {z0, z1, z2}
    ensures Distinct([ref0, ref1, ref2])
    ensures st.live == old(st.live) + {ref0, z0, ref1, z1, ref2, z2}
  {
    ref0, z0 := UpDecode(st, z, x3, 256 + 512, 256, b, 256);
    ref1, z1 := UpDecode(st, z0, x2, 128 + 256, 128, b, 128);
    ref2, z2 := UpDecode(st, z1, x1, 64 + 128, 64, b, 64);
  }

  /**
   * Lines 271-277: z3 from [x0, z2] (no upsample), `ref4 := upsample(z3, x)`, z4 from ref4
   * alone, then the logit.
   */
  method DecodeShallow(st: Store, x: Tensor, x0: Tensor, z2: Tensor, b: nat)
    returns (z3: Tensor, ref4: Tensor, z4: Tensor, retVal: Tensor)
    requires st.Valid() && x in st.live && x0 in st.live && z2 in st.live
    requires Planar(x.shape, b, 3) && Planar(x0.shape, b, 64) && Planar(z2.shape, b, 64) && z2.shape[2..] == x0.shape[2..]
    modifies st
    ensures st.Valid()
    ensures z3.shape == [b, 32] + x0.shape[2..] && z4.shape == [b, 16] + x.shape[2..] && retVal.shape == [b, 1] + x.shape[2..]
    ensures ref4 == z3 <==> SameSpatial(z3.shape, x.shape)
    ensures z3 !in old(st.live) && z4 !in old(st.live) && retVal !in old(st.live) && z3 != z4 && retVal !in {z3, z4}
    ensures ref4 != z3 ==> ref4 !in old(st.live) && ref4 !in {z3, z4, retVal}
    ensures st.live == old(st.live) + {z3, ref4, z4, retVal}
  {
    z3 := ApplyDecodeLayer(st, x0, Some(z2), 64 + 64, 32, b, 64);
    ref4 := Upsample(st, z3, x);
    z4 := ApplyDecodeLayer(st, ref4, None, 32, 16, b, 32);
    LogitShape(b, x.shape[2], x.shape[3]);
    assert z4.shape == [b, 16, x.shape[2], x.shape[3]];
    retVal := st.Apply(Logit, z4);
  }

  /**
   * Lines 261-277: the decoder half of the closure, from the centre output z to the logit.
   * Every z and the logit are new; a ref is the handle it upsampled (z, z0, z1, z3) exactly
   * when the two features involved share their spatial size, and is new otherwise.
   */
  method Back(st: Store, x: Tensor, x0: Tensor, x1: Tensor, x2: Tensor, x3: Tensor, z: Tensor, b: nat)
    returns (ref0: Tensor, z0: Tensor, ref1: Tensor, z1: Tensor, ref2: Tensor, z2: Tensor, z3: Tensor,
             ref4: Tensor, z4: Tensor, retVal: Tensor)
    requires st.Valid() && x in st.live && x0 in st.live && x1 in st.live && x2 in st.live && x3 in st.live && z in st.live
    requires Planar(x.shape, b, 3) && Planar(x0.shape, b, 64) && Planar(x1.shape, b, 64) && x1.shape[2..] == x0.shape[2..]
    requires Planar(x2.shape, b, 128) && Planar(x3.shape, b, 256) && Planar(z.shape, b, 512)
    modifies st
    ensures st.Valid() && retVal.shape == [b, 1] + x.shape[2..]
    ensures z0.shape == [b, 256] + x3.shape[2..] && z1.shape == [b, 128] + x2.shape[2..] && z2.shape == [b, 64] + x1.shape[2..]
    ensures z3.shape == [b, 32] + x0.shape[2..] && z4.shape == [b, 16] + x.shape[2..]
    ensures Rgb(x.shape) && x0.shape == ClosureShapes(x.shape)[0] && x1.shape == ClosureShapes(x.shape)[1]
        && x2.shape == ClosureShapes(x.shape)[2] && x3.shape == ClosureShapes(x.shape)[3]
        ==> [z0.shape, z1.shape, z2.shape, z3.shape, z4.shape, retVal.shape] == ClosureShapes(x.shape)[6..]
    ensures (ref0 == z <==> SameSpatial(z.shape, x3.shape)) && (ref1 == z0 <==> SameSpatial(x3.shape, x2.shape))
    ensures (ref2 == z1 <==> SameSpatial(x2.shape, x1.shape)) && (ref4 == z3 <==> SameSpatial(x0.shape, x.shape))
    ensures z0 !in old(st.live) && z1 !in old(st.live) && z2 !in old(st.live) && z3 !in old(st.live)
    ensures z4 !in old(st.live) && retVal !in old(st.live) && Distinct([z0, z1, z2, z3, z4])
    ensures retVal !in {z0, z1, z2, z3, z4}
    ensures ref0 != z ==> ref0 !in old(st.live) && ref0 !in {z0, z1, z2, z3, z4, retVal}
    ensures ref1 != z0 ==> ref1 !in old(st.live) && ref1 !in {z0, z1, z2, z3, z4, retVal}
    ensures ref2 != z1 ==> ref2 !in old(st.live) && ref2 !in {z0, z1, z2, z3, z4, retVal}
    ensures ref4 != z3 ==> ref4 !in old(st.live) && ref4 !in {z0, z1, z2, z3, z4, retVal}
    ensures Distinct([ref0, ref1, ref2, ref4])
    ensures st.live == old(st.live) + {ref0, z0, ref1, z1, ref2, z2, z3, ref4, z4, retVal}
  {
    ref0, z0, ref1, z1, ref2, z2 := DecodeDeep(st, x1, x2, x3, z, b);
    z3, ref4, z4, retVal := DecodeShallow(st, x, x0, z2, b);
    DistinctFive(z0, z1, z2, z3, z4);
    if Rgb(x.shape) && x0.shape == ClosureShapes(x.shape)[0] && x1.shape == ClosureShapes(x.shape)[1]
      && x2.shape == ClosureShapes(x.shape)[2] && x3.shape == ClosureShapes(x.shape)[3] {
      BackShapes(x.shape, x0.shape, x1.shape, x2.shape, x3.shape);
    }
  }

  /**
   * Given x0 to x3 with the shapes `ClosureShapes` lists for them, the shapes `Back` gives
   * z0 to z4 and the logit are the rest of that table.
   */
  lemma BackShapes(s: Shape, s0: Shape, s1: Shape, s2: Shape, s3: Shape)
    requires Rgb(s) && s0 == ClosureShapes(s)[0] && s1 == ClosureShapes(s)[1]
    requires s2 == ClosureShapes(s)[2] && s3 == ClosureShapes(s)[3]
    ensures var b := s[0];
      [[b, 256] + s3[2..], [b, 128] + s2[2..], [b, 64] + s1[2..], [b, 32] + s0[2..], [b, 16] + s[2..], [b, 1] + s[2..]]
      == ClosureShapes(s)[6..]
  {
    var cs, fs, b := ClosureShapes(s), ResNet34Shapes(s), s[0];
    FrontPlanar(s);
    assert [b, 256] + s3[2..] == cs[6];
    assert [b, 128] + s2[2..] == cs[7];
    assert [b, 64] + s1[2..] == cs[8];
    assert [b, 32] + s0[2..] == cs[9];
    assert [b, 16] + s[2..] == cs[10] && [b, 1] + s[2..] == cs[11];
  }
}

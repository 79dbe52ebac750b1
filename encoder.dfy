/**
 * The ResNet34 encoder: a stem (layerZero), four stages of residual basic blocks, and a
 * forward pass that hands back all six feature maps.
 */
module Encoder {
  import opened Wrappers
  import opened Torch
  import opened Base

  /** Side of a strided 3x3/pad-1 or 1x1/pad-0 window over n >= 1 positions. */
  function Strided(n: nat, stride: nat): (r: nat)
    requires n >= 1 && stride > 0
    ensures r >= 1
  {
    (n - 1) / stride + 1
  }

  function Half(n: nat): (r: nat)
    requires n >= 1
    ensures r >= 1
  {
    Strided(n, 2)
  }

  /** `downSample`: a 1x1 projection with batch norm when stride or width changes, else empty. */
  function DownSample(cIn: nat, cOut: nat, stride: nat): (ps: seq<Prim>)
    ensures ps != [] <==> stride != 1 || cIn != cOut
    ensures ps != [] ==> ps == [Conv(Conv2d(cIn, cOut, 1, 0, stride)), BatchNorm(cOut, DefaultBatchNormConfig)]
  {
    if stride != 1 || cIn != cOut then [Conv(Conv2d(cIn, cOut, 1, 0, stride)), BatchNorm(cOut, DefaultBatchNormConfig)]
    else []
  }

  /** A residual block: conv1, bn1, relu, conv2, bn2, plus the shortcut, then relu. */
  datatype BasicBlock = BasicBlock(conv1: Prim, bn1: Prim, conv2: Prim, bn2: Prim, downsample: seq<Prim>) {

    /** Shape of the main path conv1, bn1, relu, conv2, bn2. */
    function MainShape(s: Shape): Option<Shape> {
      var c1 :- PrimShape(conv1, s);
      var b1 :- PrimShape(bn1, c1);
      var c2 :- PrimShape(conv2, b1);
      PrimShape(bn2, c2)
    }

    /** Shape of the block's output: main path and shortcut, broadcast together. */
    function Shape(s: Shape): Option<Shape> {
      var b2 :- MainShape(s);
      var d :- SeqShape(downsample, s);
      Broadcast(d, b2)
    }

    /** The main path of `BasicBlock.ForwardT`: c1 and the relu output are released. */
    method MainPath(st: Store, x: Tensor) returns (r: Tensor)
      requires st.Valid() && x in st.live && MainShape(x.shape).Some?
      modifies st
      ensures st.Valid() && r !in old(st.live)
      ensures r.shape == MainShape(x.shape).value
      ensures st.live == old(st.live) + {r}
    {
      var c1 := st.Apply(conv1, x);
      var bn1Ts := st.Apply(bn1, c1);
      st.Drop(c1);
      var relu := st.Relu(bn1Ts, true);
      var c2 := st.Apply(conv2, relu);
      st.Drop(relu);
      r := st.Apply(bn2, c2);
      st.Drop(c2);
    }

    /** `BasicBlock.ForwardT`: every intermediate is released; x is untouched. */
    method ForwardT(st: Store, x: Tensor) returns (r: Tensor)
      requires st.Valid() && x in st.live && Shape(x.shape).Some?
      modifies st
      ensures st.Valid() && r !in old(st.live)
      ensures r.shape == Shape(x.shape).value
      ensures st.live == old(st.live) + {r}
    {
      var bn2Ts := MainPath(st, x);
      var dsl := st.ForwardSeq(downsample, x);
      var dslAdd := st.Add(dsl, bn2Ts, true);
      st.Drop(bn2Ts);
      r := st.Relu(dslAdd, true);
    }
  }

  /** `NewBasicBlock`: 3x3 convolutions with padding 1, the first one strided. */
  function NewBasicBlock(cIn: nat, cOut: nat, stride: nat): (b: BasicBlock)
    ensures b.downsample == DownSample(cIn, cOut, stride)
    ensures b.conv1 == Conv(Conv2d(cIn, cOut, 3, 1, stride)) && b.conv2 == Conv(Conv2d(cOut, cOut, 3, 1, 1))
  {
    BasicBlock(Conv(Conv2d(cIn, cOut, 3, 1, stride)), BatchNorm(cOut, DefaultBatchNormConfig),
               Conv(Conv2d(cOut, cOut, 3, 1, 1)), BatchNorm(cOut, DefaultBatchNormConfig),
               DownSample(cIn, cOut, stride))
  }

  /** Main path and shortcut agree on every input size, so the residual add is well-shaped. */
  lemma BasicBlockShape(cIn: nat, cOut: nat, stride: nat, s: Shape)
    requires stride > 0 && |s| == 4 && s[1] == cIn && s[2] >= 1 && s[3] >= 1
    ensures NewBasicBlock(cIn, cOut, stride).Shape(s)
         == Some([s[0], cOut, Strided(s[2], stride), Strided(s[3], stride)])
  {
    var b := NewBasicBlock(cIn, cOut, stride);
    var t := [s[0], cOut, Strided(s[2], stride), Strided(s[3], stride)];
    assert PrimShape(b.conv1, s) == Some(t);
    assert PrimShape(b.bn1, t) == Some(t);
    assert PrimShape(b.conv2, t) == Some(t);
    assert PrimShape(b.bn2, t) == Some(t);
    assert b.MainShape(s) == Some(t);
    if b.downsample == [] {
      assert t == s;
    } else {
      SeqShapeCons(b.downsample[0], [b.downsample[1]], s, t);
      SeqShapeCons(b.downsample[1], [], t, t);
      assert b.downsample == [b.downsample[0]] + [b.downsample[1]];
    }
    BroadcastOnto(t, t);
  }

  /** A stage: a sequential container of blocks. */
  function StageShape(bs: seq<BasicBlock>, s: Shape): Option<Shape>
    decreases |bs|
  {
    if bs == [] then Some(s)
    else
      var t :- bs[0].Shape(s);
      StageShape(bs[1..], t)
  }

  /** `SequentialT.ForwardT` over blocks: each intermediate is released once consumed. */
  method ForwardStage(st: Store, bs: seq<BasicBlock>, x: Tensor) returns (r: Tensor)
    requires st.Valid() && x in st.live && StageShape(bs, x.shape).Some?
    modifies st
    ensures st.Valid() && r !in old(st.live)
    ensures r.shape == StageShape(bs, x.shape).value
    ensures st.live == old(st.live) + {r}
  {
    if bs == [] {
      r := st.Detach(x);
      return;
    }
    r := bs[0].ForwardT(st, x);
    var k := 1;
    while k < |bs|
      invariant 1 <= k <= |bs|
      invariant st.Valid() && r !in old(st.live) && r in st.live
      invariant StageShape(bs[k..], r.shape) == StageShape(bs, x.shape)
      invariant st.live == old(st.live) + {r}
    {
      assert bs[k..][0] == bs[k] && bs[k..][1..] == bs[k + 1..];
      var nxt := bs[k].ForwardT(st, r);
      st.Drop(r);
      r := nxt;
      k := k + 1;
    }
  }

  /** What `basicLayer` builds: max(1, cnt) blocks, only the first changing width and size. */
  ghost predicate IsBasicLayer(bs: seq<BasicBlock>, cIn: nat, cOut: nat, stride: nat, cnt: int) {
    && |bs| == (if cnt < 1 then 1 else cnt)
    && bs[0] == NewBasicBlock(cIn, cOut, stride)
    && forall k :: 1 <= k < |bs| ==> bs[k] == NewBasicBlock(cOut, cOut, 1)
  }

  /** `basicLayer`. */
  method BasicLayer(cIn: nat, cOut: nat, stride: nat, cnt: int) returns (layer: seq<BasicBlock>)
    ensures IsBasicLayer(layer, cIn, cOut, stride, cnt)
  {
    layer := [NewBasicBlock(cIn, cOut, stride)];
    var blockIndex := 1;
    while blockIndex < cnt
      invariant 1 <= blockIndex && |layer| == blockIndex
      invariant blockIndex <= (if cnt < 1 then 1 else cnt)
      invariant layer[0] == NewBasicBlock(cIn, cOut, stride)
      invariant forall k :: 1 <= k < |layer| ==> layer[k] == NewBasicBlock(cOut, cOut, 1)
    {
      layer := layer + [NewBasicBlock(cOut, cOut, 1)];
      blockIndex := blockIndex + 1;
    }
  }

  /** A stage built by `basicLayer` scales H and W by its stride and maps cIn to cOut channels. */
  lemma BasicLayerShape(bs: seq<BasicBlock>, cIn: nat, cOut: nat, stride: nat, cnt: int, s: Shape)
    requires IsBasicLayer(bs, cIn, cOut, stride, cnt)
    requires stride > 0 && |s| == 4 && s[1] == cIn && s[2] >= 1 && s[3] >= 1
    ensures StageShape(bs, s) == Some([s[0], cOut, Strided(s[2], stride), Strided(s[3], stride)])
  {
    var t := [s[0], cOut, Strided(s[2], stride), Strided(s[3], stride)];
    BasicBlockShape(cIn, cOut, stride, s);
    WidthKeepingBlocks(bs[1..], cOut, t);
  }

  lemma {:induction false} WidthKeepingBlocks(bs: seq<BasicBlock>, c: nat, t: Shape)
    requires forall k :: 0 <= k < |bs| ==> bs[k] == NewBasicBlock(c, c, 1)
    requires |t| == 4 && t[1] == c && t[2] >= 1 && t[3] >= 1
    ensures StageShape(bs, t) == Some(t)
    decreases |bs|
  {
    if bs != [] {
      KeepingBlockShape(c, t);
      assert bs[0].Shape(t) == Some(t);
      var rest := bs[1..];
      assert forall k :: 0 <= k < |rest| ==> rest[k] == bs[k + 1];
      WidthKeepingBlocks(rest, c, t);
    }
  }

  lemma KeepingBlockShape(c: nat, t: Shape)
    requires |t| == 4 && t[1] == c && t[2] >= 1 && t[3] >= 1
    ensures NewBasicBlock(c, c, 1).Shape(t) == Some(t)
  {
    BasicBlockShape(c, c, 1, t);
    assert [t[0], c, Strided(t[2], 1), Strided(t[3], 1)] == t;
  }

  /** `layerZero`: 7x7/stride-2/pad-3 convolution, batch norm, relu, 3x3/stride-2/pad-1 max-pool. */
  function LayerZero(): (ps: seq<Prim>)
    ensures |ps| == 4 && ps[0] == Conv(Conv2d(3, 64, 7, 3, 2)) && ps[3] == MaxPool(3, 2, 1)
  {
    [Conv(Conv2d(3, 64, 7, 3, 2)), BatchNorm(64, DefaultBatchNormConfig), Relu, MaxPool(3, 2, 1)]
  }

  /** The stem's 7x7 convolution and its 3x3 pooling both halve a side, rounding up. */
  lemma StemWindows(n: nat)
    requires n >= 1
    ensures WindowFits(n, 7, 3, 2) && WindowOut(n, 7, 3, 2) == Half(n)
    ensures WindowFits(n, 3, 1, 2) && WindowOut(n, 3, 1, 2) == Half(n)
  {
  }

  /** The stem turns an RGB image into 64 channels at a quarter of its side (rounded up). */
  lemma LayerZeroShape(s: Shape)
    requires |s| == 4 && s[1] == 3 && s[2] >= 1 && s[3] >= 1
    ensures SeqShape(LayerZero(), s) == Some([s[0], 64, Half(Half(s[2])), Half(Half(s[3]))])
  {
    var ps := LayerZero();
    var a := [s[0], 64, Half(s[2]), Half(s[3])];
    var b := [s[0], 64, Half(Half(s[2])), Half(Half(s[3]))];
    StemWindows(s[2]);
    StemWindows(s[3]);
    StemWindows(Half(s[2]));
    StemWindows(Half(s[3]));
    assert PrimShape(ps[0], s) == Some(a);
    assert PrimShape(ps[3], a) == Some(b);
    assert ps == [ps[0]] + ([ps[1]] + ([ps[2]] + ([ps[3]] + [])));
    SeqShapeCons(ps[0], [ps[1]] + ([ps[2]] + ([ps[3]] + [])), s, a);
    SeqShapeCons(ps[1], [ps[2]] + ([ps[3]] + []), a, a);
    SeqShapeCons(ps[2], [ps[3]] + [], a, a);
    SeqShapeCons(ps[3], [], a, b);
  }

  lemma LayerZero256()
    ensures Half(Half(256)) == 64
  {
  }

  datatype ResNetEncoder = ResNetEncoder(
    layer0: seq<Prim>,
    layer1: seq<BasicBlock>,
    layer2: seq<BasicBlock>,
    layer3: seq<BasicBlock>,
    layer4: seq<BasicBlock>)
  {
    /** Shapes of the six features [identity copy, l0, l1, l2, l3, l4]. */
    function Shapes(s: Shape): Option<seq<Shape>> {
      var l0 :- SeqShape(layer0, s);
      var l1 :- StageShape(layer1, l0);
      var l2 :- StageShape(layer2, l1);
      var l3 :- StageShape(layer3, l2);
      var l4 :- StageShape(layer4, l3);
      Some([s, l0, l1, l2, l3, l4])
    }

    /** `ForwardAll`: six fresh, distinct, live handles; none is released. */
    method ForwardAll(st: Store, x: Tensor) returns (fs: seq<Tensor>)
      requires st.Valid() && x in st.live && Shapes(x.shape).Some?
      modifies st
      ensures st.Valid() && |fs| == 6
      ensures forall k :: 0 <= k < 6 ==> fs[k] !in old(st.live)
      ensures forall j, k :: 0 <= j < k < 6 ==> fs[j] != fs[k]
      ensures ShapesOf(fs) == Shapes(x.shape).value
      ensures st.live == old(st.live) + {fs[0], fs[1], fs[2], fs[3], fs[4], fs[5]}
    {
      var i := IdentityForward(st, x);
      var l0 := st.ForwardSeq(layer0, i);
      var l1, l2, l3, l4 := ForwardStages(st, l0);
      fs := [i, l0, l1, l2, l3, l4];
    }

    /** Stages 1 to 4 of `ForwardAll`, each on the previous stage's output. */
    method ForwardStages(st: Store, l0: Tensor) returns (l1: Tensor, l2: Tensor, l3: Tensor, l4: Tensor)
      requires st.Valid() && l0 in st.live
      requires (var a :- StageShape(layer1, l0.shape); var b :- StageShape(layer2, a);
                var c :- StageShape(layer3, b); StageShape(layer4, c)).Some?
      modifies st
      ensures st.Valid() && l1 !in old(st.live) && l2 !in old(st.live) && l3 !in old(st.live) && l4 !in old(st.live)
      ensures l1 != l2 && l1 != l3 && l1 != l4 && l2 != l3 && l2 != l4 && l3 != l4
      ensures Some(l1.shape) == StageShape(layer1, l0.shape) && Some(l2.shape) == StageShape(layer2, l1.shape)
      ensures Some(l3.shape) == StageShape(layer3, l2.shape) && Some(l4.shape) == StageShape(layer4, l3.shape)
      ensures st.live == old(st.live) + {l1, l2, l3, l4}
    {
      l1 := ForwardStage(st, layer1, l0);
      l2 := ForwardStage(st, layer2, l1);
      l3 := ForwardStage(st, layer3, l2);
      l4 := ForwardStage(st, layer4, l3);
    }
  }

  /** The ResNet34 plan: 3, 4, 6, 3 blocks; widths 64, 64, 128, 256, 512; strides 1, 2, 2, 2. */
  ghost predicate IsResNet34(e: ResNetEncoder) {
    && e.layer0 == LayerZero()
    && IsBasicLayer(e.layer1, 64, 64, 1, 3)
    && IsBasicLayer(e.layer2, 64, 128, 2, 4)
    && IsBasicLayer(e.layer3, 128, 256, 2, 6)
    && IsBasicLayer(e.layer4, 256, 512, 2, 3)
  }

  /** `NewResNet34Encoder`. */
  method NewResNet34Encoder() returns (e: ResNetEncoder)
    ensures IsResNet34(e)
    ensures |e.layer1| == 3 && |e.layer2| == 4 && |e.layer3| == 6 && |e.layer4| == 3
  {
    var l1 := BasicLayer(64, 64, 1, 3);
    var l2 := BasicLayer(64, 128, 2, 4);
    var l3 := BasicLayer(128, 256, 2, 6);
    var l4 := BasicLayer(256, 512, 2, 3);
    e := ResNetEncoder(LayerZero(), l1, l2, l3, l4);
  }

  /** Feature shapes of the ResNet34 plan for an RGB input [B, 3, H, W]. */
  function ResNet34Shapes(s: Shape): (fs: seq<Shape>)
    requires |s| == 4 && s[2] >= 1 && s[3] >= 1
    ensures |fs| == 6 && fs[0] == s && |fs[1]| == |fs[2]| == 4
    ensures fs[1][2..] == fs[2][2..] && fs[1][1] == fs[2][1] == 64
  {
    var h, w := Half(Half(s[2])), Half(Half(s[3]));
    [s,
     [s[0], 64, h, w],
     [s[0], 64, h, w],
     [s[0], 128, Half(h), Half(w)],
     [s[0], 256, Half(Half(h)), Half(Half(w))],
     [s[0], 512, Half(Half(Half(h))), Half(Half(Half(w)))]]
  }

  /** Every ResNet34 encoder is well-shaped on any RGB input and yields `ResNet34Shapes`. */
  lemma ResNet34EncoderShapes(e: ResNetEncoder, s: Shape)
    requires IsResNet34(e)
    requires |s| == 4 && s[1] == 3 && s[2] >= 1 && s[3] >= 1
    ensures e.Shapes(s) == Some(ResNet34Shapes(s))
  {
    var b, h, w := s[0], Half(Half(s[2])), Half(Half(s[3]));
    LayerZeroShape(s);
    LayerStep(e.layer1, 64, 64, 1, 3, b, h, w);
    assert Strided(h, 1) == h && Strided(w, 1) == w;
    LayerStep(e.layer2, 64, 128, 2, 4, b, h, w);
    LayerStep(e.layer3, 128, 256, 2, 6, b, Half(h), Half(w));
    LayerStep(e.layer4, 256, 512, 2, 3, b, Half(Half(h)), Half(Half(w)));
  }

  lemma LayerStep(bs: seq<BasicBlock>, cIn: nat, cOut: nat, stride: nat, cnt: int, b: nat, h: nat, w: nat)
    requires IsBasicLayer(bs, cIn, cOut, stride, cnt) && stride > 0 && h >= 1 && w >= 1
    ensures StageShape(bs, [b, cIn, h, w]) == Some([b, cOut, Strided(h, stride), Strided(w, stride)])
  {
    BasicLayerShape(bs, cIn, cOut, stride, cnt, [b, cIn, h, w]);
  }

  /** For a 256x256 input the features are 256, 64, 64, 32, 16 and 8 on a side. */
  lemma ResNet34Shapes256(b: nat)
    ensures ResNet34Shapes([b, 3, 256, 256])
         == [[b, 3, 256, 256], [b, 64, 64, 64], [b, 64, 64, 64], [b, 128, 32, 32], [b, 256, 16, 16], [b, 512, 8, 8]]
  {
  }
}

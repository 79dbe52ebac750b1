/**
 * The original UNet: a double-conv stem, four max-pool-then-double-conv down blocks, four up
 * blocks that resize the deeper map to the skip's size, concatenate and double-conv, and a 1x1
 * output conv. `base.DoubleConv` is not part of this model: it is taken as a cIn -> cOut
 * layer that keeps H and W.
 */
module UNetOriginal {
  import opened Wrappers
  import opened Torch

  /** `NewDown`: a 2x2/stride-2 max-pool, then the double conv. */
  function NewDown(cIn: nat, cOut: nat): seq<Prim> {
    [MaxPool(2, 2, 0), DoubleConv(cIn, cOut)]
  }

  /** A 2x2/stride-2 window without padding over n >= 2 positions leaves n/2 (floor). */
  lemma HalfWindow(n: nat)
    requires n >= 2
    ensures WindowFits(n, 2, 0, 2) && WindowOut(n, 2, 0, 2) == n / 2
  {
    var q, r := (n - 2) / 2, (n - 2) % 2;
    assert n - 2 == 2 * q + r && 0 <= r < 2;
    assert n == 2 * (q + 1) + r;
  }

  /** A down block takes [B, cIn, H, W] with H, W >= 2 to [B, cOut, H/2, W/2] (floor). */
  lemma DownShape(cIn: nat, cOut: nat, s: Shape)
    requires |s| == 4 && s[1] == cIn && s[2] >= 2 && s[3] >= 2
    ensures SeqShape(NewDown(cIn, cOut), s) == Some([s[0], cOut, s[2] / 2, s[3] / 2])
  {
    var ps := NewDown(cIn, cOut);
    assert ps[1..] == [DoubleConv(cIn, cOut)] && ps[1..][1..] == [];
    HalfWindow(s[2]);
    HalfWindow(s[3]);
    var t := [s[0], s[1], s[2] / 2, s[3] / 2];
    assert PrimShape(MaxPool(2, 2, 0), s) == Some(t);
    assert SeqShape(ps[1..], t) == Some([s[0], cOut, s[2] / 2, s[3] / 2]);
    assert SeqShape(ps, s) == SeqShape(ps[1..], t);
  }

  /** Any other input makes the down block fail: a rank other than 4, a side below 2, other widths. */
  lemma DownRejects(cIn: nat, cOut: nat, s: Shape)
    requires !(|s| == 4 && s[1] == cIn && s[2] >= 2 && s[3] >= 2)
    ensures SeqShape(NewDown(cIn, cOut), s) == None
  {
    var ps := NewDown(cIn, cOut);
    assert ps[1..] == [DoubleConv(cIn, cOut)];
  }

  /** Shape `upsampling` produces; None where it aborts (rank below 2, or a resize not 2-D). */
  function UpsamplingShape(x: Shape, outSize: seq<nat>): (r: Option<Shape>)
    ensures r.Some? <==> |x| >= 2 && (x[2..] == outSize || (|x| == 4 && |outSize| == 2))
    ensures r.Some? ==> r.value == x[..2] + outSize
  {
    if |x| < 2 then None
    else if x[2..] == outSize then (assert x == x[..2] + x[2..]; Some(x))
    else ResizeShape(x, outSize)
  }

  /** `upsampling`: always a fresh handle, a detached copy when x already has the size. */
  method Upsampling(st: Store, x: Tensor, outSize: seq<nat>) returns (r: Tensor)
    requires st.Valid() && x in st.live && UpsamplingShape(x.shape, outSize).Some?
    modifies st
    ensures st.Valid() && r !in old(st.live) && st.live == old(st.live) + {r}
    ensures r.shape == UpsamplingShape(x.shape, outSize).value
  {
    if x.shape[2..] == outSize {
      r := st.Detach(x);
    } else {
      r := st.UpsampleBilinear(x, outSize);
    }
  }

  datatype Up = Up(doubleConv: seq<Prim>) {

    /** Shape `UpForward` produces from the deeper map x1 and the skip x2. */
    function Shape(x1: Shape, x2: Shape): Option<Shape> {
      if |x2| < 2 then None
      else
        var u :- UpsamplingShape(x1, x2[2..]);
        var c :- Cat2Shape(x2, u);
        SeqShape(doubleConv, c)
    }

    /** `UpForward`: the resized x1 and the concatenation are released; only the output is new. */
    method UpForward(st: Store, x1: Tensor, x2: Tensor) returns (out: Tensor)
      requires st.Valid() && x1 in st.live && x2 in st.live && Shape(x1.shape, x2.shape).Some?
      modifies st
      ensures st.Valid() && out !in old(st.live) && st.live == old(st.live) + {out}
      ensures out.shape == Shape(x1.shape, x2.shape).value
    {
      var xUp := Upsampling(st, x1, x2.shape[2..]);
      var x := st.Cat(x2, xUp);
      st.Drop(xUp);
      out := st.ForwardSeq(doubleConv, x);
      st.Drop(x);
    }
  }

  /** `NewUp`: the double conv. */
  function NewUp(cIn: nat, cOut: nat): Up {
    Up([DoubleConv(cIn, cOut)])
  }

  /**
   * An up block built for cSkip + cX channels concatenates the skip [B, cSkip, H, W] and the
   * deeper map [B, cX, h, w] resized to H x W, and yields [B, cOut, H, W].
   */
  lemma UpShape(cSkip: nat, cX: nat, cOut: nat, x1: Shape, x2: Shape)
    requires |x1| == 4 && |x2| == 4 && x1[0] == x2[0] && x1[1] == cX && x2[1] == cSkip
    ensures NewUp(cSkip + cX, cOut).Shape(x1, x2) == Some([x2[0], cOut, x2[2], x2[3]])
  {
    var u := x1[..2] + x2[2..];
    assert UpsamplingShape(x1, x2[2..]) == Some(u);
    assert u[0] == x2[0] && u[1] == cX && u[2..] == x2[2..];
    var c := [x2[0], cSkip + cX, x2[2], x2[3]];
    assert [x2[0], x2[1] + u[1]] + x2[2..] == c;
    assert Cat2Shape(x2, u) == Some(c);
    var ps := NewUp(cSkip + cX, cOut).doubleConv;
    assert ps[1..] == [];
    assert PrimShape(ps[0], c) == Some([x2[0], cOut, x2[2], x2[3]]);
    assert SeqShape(ps, c) == Some([x2[0], cOut, x2[2], x2[3]]);
  }

  datatype UNetOriginal = UNetOriginal(
    inc: seq<Prim>, down1: seq<Prim>, down2: seq<Prim>, down3: seq<Prim>, down4: seq<Prim>,
    up1: Up, up2: Up, up3: Up, up4: Up, outc: Conv2D)
  {
    /** Shapes of x1 .. x5, the stem and down-block outputs. */
    function DownShapes(s: Shape): Option<seq<Shape>> {
      var x1 :- SeqShape(inc, s);
      var x2 :- SeqShape(down1, x1);
      var x3 :- SeqShape(down2, x2);
      var x4 :- SeqShape(down3, x3);
      var x5 :- SeqShape(down4, x4);
      Some([x1, x2, x3, x4, x5])
    }

    /** Shapes of z1 .. z4 and the logits, from the shapes xs of x1 .. x5. */
    function UpShapes(xs: seq<Shape>): Option<seq<Shape>>
      requires |xs| == 5
    {
      var z1 :- up1.Shape(xs[4], xs[3]);
      var z2 :- up2.Shape(z1, xs[2]);
      var z3 :- up3.Shape(z2, xs[1]);
      var z4 :- up4.Shape(z3, xs[0]);
      var logits :- PrimShape(Conv(outc), z4);
      Some([z1, z2, z3, z4, logits])
    }

    /** Shape `ForwardT` produces. */
    function Shape(s: Shape): Option<Shape> {
      var xs :- DownShapes(s);
      var zs :- UpShapes(xs);
      Some(zs[4])
    }

    /** `ForwardT`: x1 .. x5 and z1 .. z4 are each released once; only the logits are new. */
    method ForwardT(st: Store, x: Tensor) returns (logits: Tensor)
      requires st.Valid() && x in st.live && Shape(x.shape).Some?
      modifies st
      ensures st.Valid() && logits !in old(st.live) && st.live == old(st.live) + {logits}
      ensures logits.shape == Shape(x.shape).value
    {
      var x1, x2, x3, x4, x5 := Down(st, x);
      var z1, z2, z3, z4;
      z1, z2, z3, z4, logits := Ups(st, x1, x2, x3, x4, x5);
      ElemsOfFive(x1, x2, x3, x4, x5);
      ElemsOfFour(z1, z2, z3, z4);
      ReleaseAll(st, [x1, x2, x3, x4, x5]);
      ReleaseAll(st, [z1, z2, z3, z4]);
    }

    /** Lines 147-151: five fresh, distinct handles of shapes `DownShapes`. */
    method Down(st: Store, x: Tensor) returns (x1: Tensor, x2: Tensor, x3: Tensor, x4: Tensor, x5: Tensor)
      requires st.Valid() && x in st.live && DownShapes(x.shape).Some?
      modifies st
      ensures st.Valid() && [x1.shape, x2.shape, x3.shape, x4.shape, x5.shape] == DownShapes(x.shape).value
      ensures x1 !in old(st.live) && x2 !in old(st.live) && x3 !in old(st.live) && x4 !in old(st.live) && x5 !in old(st.live)
      ensures Distinct([x1, x2, x3, x4, x5])
      ensures st.live == old(st.live) + {x1, x2, x3, x4, x5}
    {
      x1 := st.ForwardSeq(inc, x);
      x2 := st.ForwardSeq(down1, x1);
      x3 := st.ForwardSeq(down2, x2);
      x4 := st.ForwardSeq(down3, x3);
      x5 := st.ForwardSeq(down4, x4);
    }

    /** Lines 153-158: four fresh, distinct up outputs and the logits; the skips are not released. */
    method Ups(st: Store, x1: Tensor, x2: Tensor, x3: Tensor, x4: Tensor, x5: Tensor)
      returns (z1: Tensor, z2: Tensor, z3: Tensor, z4: Tensor, logits: Tensor)
      requires st.Valid() && x1 in st.live && x2 in st.live && x3 in st.live && x4 in st.live && x5 in st.live
      requires UpShapes([x1.shape, x2.shape, x3.shape, x4.shape, x5.shape]).Some?
      modifies st
      ensures st.Valid() && z1 !in old(st.live) && z2 !in old(st.live) && z3 !in old(st.live) && z4 !in old(st.live)
      ensures logits !in old(st.live) && Distinct([z1, z2, z3, z4]) && logits !in {z1, z2, z3, z4}
      ensures [z1.shape, z2.shape, z3.shape, z4.shape, logits.shape] == UpShapes([x1.shape, x2.shape, x3.shape, x4.shape, x5.shape]).value
      ensures st.live == old(st.live) + {z1, z2, z3, z4, logits}
    {
      z1 := up1.UpForward(st, x5, x4);
      z2 := up2.UpForward(st, z1, x3);
      z3 := up3.UpForward(st, z2, x2);
      z4 := up4.UpForward(st, z3, x1);
      logits := st.Apply(Conv(outc), z4);
    }
  }

  /** `OutConv`: a 1x1 conv with the default configuration. */
  function OutConv(cIn: nat, cOut: nat): Conv2D {
    Conv2D(cIn, cOut, 1, DefaultConv2DConfig)
  }

  /** `NewUNetOriginal`: 3 input channels, one class, bilinear resizing. */
  function NewUNetOriginal(): UNetOriginal {
    UNetOriginal(
      [DoubleConv(3, 64)], NewDown(64, 128), NewDown(128, 256), NewDown(256, 512), NewDown(512, 1024 / 2),
      NewUp(1024, 512 / 2), NewUp(512, 256 / 2), NewUp(256, 128 / 2), NewUp(128, 64), OutConv(64, 1))
  }

  /**
   * The channel plan is consistent: on an RGB [B, 3, H, W] input with H, W >= 16 the maps have
   * the shapes of the comments at lines 147-158 (halving with floor), and the logits are
   * [B, 1, H, W].
   */
  lemma OriginalShapes(s: Shape)
    requires |s| == 4 && s[1] == 3 && s[2] >= 16 && s[3] >= 16
    ensures NewUNetOriginal().DownShapes(s) == Some(PlanDownShapes(s))
    ensures NewUNetOriginal().Shape(s) == Some([s[0], 1, s[2], s[3]])
  {
    var m := NewUNetOriginal();
    PlanDowns(s);
    PlanUps(PlanDownShapes(s));
    var zs := m.UpShapes(PlanDownShapes(s)).value;
    assert zs[4] == [s[0], 1, s[2], s[3]];
  }

  /** The shapes x1 .. x5 the comments at lines 147-151 give, halving with floor. */
  function PlanDownShapes(s: Shape): (xs: seq<Shape>)
    requires |s| == 4
    ensures |xs| == 5
  {
    var b, h, w := s[0], s[2], s[3];
    [[b, 64, h, w], [b, 128, h / 2, w / 2], [b, 256, h / 2 / 2, w / 2 / 2],
     [b, 512, h / 2 / 2 / 2, w / 2 / 2 / 2], [b, 512, h / 2 / 2 / 2 / 2, w / 2 / 2 / 2 / 2]]
  }

  lemma PlanDowns(s: Shape)
    requires |s| == 4 && s[1] == 3 && s[2] >= 16 && s[3] >= 16
    ensures NewUNetOriginal().DownShapes(s) == Some(PlanDownShapes(s))
  {
    var m, b, h, w := NewUNetOriginal(), s[0], s[2], s[3];
    assert [DoubleConv(3, 64)][1..] == [];
    assert SeqShape(m.inc, s) == Some([b, 64, h, w]);
    DownSteps(b, h, w);
    DownChain(m, s, [b, 64, h, w], [b, 128, h / 2, w / 2], [b, 256, h / 2 / 2, w / 2 / 2],
              [b, 512, h / 2 / 2 / 2, w / 2 / 2 / 2], [b, 512, h / 2 / 2 / 2 / 2, w / 2 / 2 / 2 / 2]);
  }

  /** The four down blocks each halve H and W (with floor) and set their output width. */
  lemma DownSteps(b: nat, h: nat, w: nat)
    requires h >= 16 && w >= 16
    ensures SeqShape(NewDown(64, 128), [b, 64, h, w]) == Some([b, 128, h / 2, w / 2])
    ensures SeqShape(NewDown(128, 256), [b, 128, h / 2, w / 2]) == Some([b, 256, h / 2 / 2, w / 2 / 2])
    ensures SeqShape(NewDown(256, 512), [b, 256, h / 2 / 2, w / 2 / 2]) == Some([b, 512, h / 2 / 2 / 2, w / 2 / 2 / 2])
    ensures SeqShape(NewDown(512, 512), [b, 512, h / 2 / 2 / 2, w / 2 / 2 / 2])
            == Some([b, 512, h / 2 / 2 / 2 / 2, w / 2 / 2 / 2 / 2])
  {
    DownShape(64, 128, [b, 64, h, w]);
    DownShape(128, 256, [b, 128, h / 2, w / 2]);
    DownShape(256, 512, [b, 256, h / 2 / 2, w / 2 / 2]);
    DownShape(512, 512, [b, 512, h / 2 / 2 / 2, w / 2 / 2 / 2]);
  }

  /** The down path yields x1 .. x5 when each block maps the previous shape to the next. */
  lemma DownChain(m: UNetOriginal, s: Shape, x1: Shape, x2: Shape, x3: Shape, x4: Shape, x5: Shape)
    requires SeqShape(m.inc, s) == Some(x1) && SeqShape(m.down1, x1) == Some(x2) && SeqShape(m.down2, x2) == Some(x3)
    requires SeqShape(m.down3, x3) == Some(x4) && SeqShape(m.down4, x4) == Some(x5)
    ensures m.DownShapes(s) == Some([x1, x2, x3, x4, x5])
  {
  }

  /** The output conv keeps H and W and maps 64 channels to 1. */
  lemma OutConvShape(z: Shape)
    requires |z| == 4 && z[1] == 64 && z[2] >= 1 && z[3] >= 1
    ensures PrimShape(Conv(OutConv(64, 1)), z) == Some([z[0], 1, z[2], z[3]])
  {
    assert WindowOut(z[2], 1, 0, 1) == z[2] && WindowOut(z[3], 1, 0, 1) == z[3];
  }

  /** On the planned down shapes each up block takes its skip's size and the logits are [B, 1, H, W]. */
  lemma PlanUps(xs: seq<Shape>)
    requires |xs| == 5 && |xs[0]| == 4
    requires forall k :: 0 <= k < 5 ==> |xs[k]| == 4 && xs[k][0] == xs[0][0] && xs[k][2] >= 1 && xs[k][3] >= 1
    requires xs[0][1] == 64 && xs[1][1] == 128 && xs[2][1] == 256 && xs[3][1] == 512 && xs[4][1] == 512
    ensures NewUNetOriginal().UpShapes(xs) == Some([
              [xs[0][0], 256, xs[3][2], xs[3][3]], [xs[0][0], 128, xs[2][2], xs[2][3]],
              [xs[0][0], 64, xs[1][2], xs[1][3]], [xs[0][0], 64, xs[0][2], xs[0][3]],
              [xs[0][0], 1, xs[0][2], xs[0][3]]])
  {
    var m, b := NewUNetOriginal(), xs[0][0];
    assert m.up1 == NewUp(512 + 512, 256) && m.up2 == NewUp(256 + 256, 128);
    assert m.up3 == NewUp(128 + 128, 64) && m.up4 == NewUp(64 + 64, 64) && m.outc == OutConv(64, 1);
    UpShape(512, 512, 256, xs[4], xs[3]);
    var z1 := [b, 256, xs[3][2], xs[3][3]];
    UpShape(256, 256, 128, z1, xs[2]);
    var z2 := [b, 128, xs[2][2], xs[2][3]];
    UpShape(128, 128, 64, z2, xs[1]);
    var z3 := [b, 64, xs[1][2], xs[1][3]];
    UpShape(64, 64, 64, z3, xs[0]);
    var z4 := [b, 64, xs[0][2], xs[0][3]];
    assert m.up1.Shape(xs[4], xs[3]) == Some(z1) && m.up2.Shape(z1, xs[2]) == Some(z2);
    assert m.up3.Shape(z2, xs[1]) == Some(z3) && m.up4.Shape(z3, xs[0]) == Some(z4);
    OutConvShape([b, 64, xs[0][2], xs[0][3]]);
  }
}

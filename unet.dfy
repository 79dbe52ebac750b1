/**
 * The UNet network: the encoder's six features go to the decoder, the features are released,
 * and the decoder's output is the network's output; and `DefaultUNet`, a ResNet34 encoder
 * with the documented decoder plan.
 */
module UNet {
  import opened Wrappers
  import opened Torch
  import opened Encoder
  import opened Decoder

  datatype UNet = UNet(encoder: ResNetEncoder, decoder: UNetDecoder) {

    /** Shape `ForwardT` produces: the decoder's result on the encoder's features. */
    function Shape(s: Shape): Option<Shape>
      requires 1 <= |decoder.layers| <= 5
    {
      var fs :- encoder.Shapes(s);
      decoder.Shape(fs)
    }

    /**
     * `ForwardT`: every feature is released once after decoding; the output is the decoder's
     * result itself, the only handle left newly live.
     */
    method ForwardT(st: Store, x: Tensor) returns (logit: Tensor)
      requires st.Valid() && x in st.live && 2 <= |decoder.layers| <= 5 && Shape(x.shape).Some?
      modifies st
      ensures st.Valid() && logit !in old(st.live) && st.live == old(st.live) + {logit}
      ensures logit.shape == Shape(x.shape).value
    {
      var features := encoder.ForwardAll(st, x);
      logit := decoder.ForwardFeatures(st, features);
      ReleaseAll(st, features);
      FeaturesReleased(old(st.live), features, logit);
    }

    /** `ForwardT` with the decoder as written: it keeps the contract only where nothing aliases. */
    method ForwardTAsWritten(st: Store, x: Tensor) returns (logit: Tensor)
      requires st.Valid() && x in st.live && 2 <= |decoder.layers| <= 5 && Shape(x.shape).Some?
      requires decoder.NoAliases(encoder.Shapes(x.shape).value)
      modifies st
      ensures st.Valid() && logit !in old(st.live) && st.live == old(st.live) + {logit}
      ensures logit.shape == Shape(x.shape).value
    {
      var features := encoder.ForwardAll(st, x);
      logit := decoder.ForwardFeaturesAsWritten(st, features);
      ReleaseAll(st, features);
      FeaturesReleased(old(st.live), features, logit);
    }
  }

  /** Six fresh features plus a fresh output, less the features: only the output is added. */
  lemma FeaturesReleased(a: set<Tensor>, fs: seq<Tensor>, r: Tensor)
    requires |fs| == 6 && (forall k :: 0 <= k < 6 ==> fs[k] !in a) && r !in a
    requires forall k :: 0 <= k < 6 ==> fs[k] != r
    ensures a + {fs[0], fs[1], fs[2], fs[3], fs[4], fs[5]} + {r} - Elems(fs) == a + {r}
  {
    forall t
      ensures t in Elems(fs) <==> t in {fs[0], fs[1], fs[2], fs[3], fs[4], fs[5]}
    {
      ElemsIn(fs, t);
    }
  }

  /**
   * The loop at model_test.go lines 34-38 over the corrected `ForwardT`: n passes, each
   * converting the output with the receiver released and dropping the conversion; the live
   * handles are the same afterwards. Over the decoder as written see `PassesAsWritten`.
   */
  method Passes(st: Store, net: UNet, image: Tensor, n: nat)
    requires st.Valid() && image in st.live && 2 <= |net.decoder.layers| <= 5 && net.Shape(image.shape).Some?
    modifies st
    ensures st.Valid() && st.live == old(st.live)
  {
    var i := 0;
    while i < n
      invariant 0 <= i <= n && st.Valid() && st.live == old(st.live)
    {
      var logit := net.ForwardT(st, image);
      var converted := st.Totype(logit, true);
      st.Drop(converted);
      i := i + 1;
    }
  }

  /**
   * The same loop over `ForwardTAsWritten`: it keeps the live set only where the decoder's
   * features do not alias, which `DefaultUNetAliases` shows never holds for the default network.
   */
  method PassesAsWritten(st: Store, net: UNet, image: Tensor, n: nat)
    requires st.Valid() && image in st.live && 2 <= |net.decoder.layers| <= 5 && net.Shape(image.shape).Some?
    requires net.decoder.NoAliases(net.encoder.Shapes(image.shape).value)
    modifies st
    ensures st.Valid() && st.live == old(st.live)
  {
    var i := 0;
    while i < n
      invariant 0 <= i <= n && st.Valid() && st.live == old(st.live)
    {
      var logit := net.ForwardTAsWritten(st, image);
      var converted := st.Totype(logit, true);
      st.Drop(converted);
      i := i + 1;
    }
  }

  /** Encoder widths of the ResNet34 plan, input channels first. */
  const ResNet34Widths: seq<nat> := [3, 64, 64, 128, 256, 512]

  /** Decoder widths of the documented example. */
  const DefaultDecoderWidths: seq<nat> := [256, 128, 64, 32, 16]

  /**
   * `DefaultUNet`: the ResNet34 encoder and the decoder the plan builds from the documented
   * widths and depth 5 (the call at model.go line 33 supplies none of the three).
   */
  method DefaultUNet() returns (n: UNet)
    ensures IsResNet34(n.encoder) && n.decoder == PlanDecoder(ResNet34Widths, DefaultDecoderWidths)
  {
    var enc := NewResNet34Encoder();
    var dec := NewUNetDecoder(ResNet34Widths, DefaultDecoderWidths, 5);
    n := UNet(enc, dec.value);
  }

  /** ResNet34 features follow the encoder widths. */
  lemma ResNet34FollowsWidths(s: Shape)
    requires |s| == 4 && s[1] == 3 && s[2] >= 1 && s[3] >= 1
    ensures FollowsWidths(ResNet34Shapes(s), ResNet34Widths, s[0])
  {
  }

  /** The default decoder on features following the ResNet34 widths: 16 channels at features[1]'s size. */
  lemma DefaultDecoderShape(fs: seq<Shape>, b: nat)
    requires FollowsWidths(fs, ResNet34Widths, b)
    ensures PlanDecoder(ResNet34Widths, DefaultDecoderWidths).Shape(fs) == Some([b, 16] + fs[1][2..])
  {
    PlanShape(ResNet34Widths, DefaultDecoderWidths, fs, b);
  }

  /**
   * As composed, the default network maps an RGB [B, 3, H, W] input to 16 channels at the size
   * of features[1], a quarter of the input's in each direction, not the input's own size.
   */
  lemma DefaultUNetShape(n: UNet, s: Shape)
    requires IsResNet34(n.encoder) && n.decoder == PlanDecoder(ResNet34Widths, DefaultDecoderWidths)
    requires |s| == 4 && s[1] == 3 && s[2] >= 1 && s[3] >= 1
    ensures n.Shape(s) == Some([s[0], 16, Half(Half(s[2])), Half(Half(s[3]))])
  {
    var fs := ResNet34Shapes(s);
    ResNet34EncoderShapes(n.encoder, s);
    ResNet34FollowsWidths(s);
    DefaultDecoderShape(fs, s[0]);
    assert [s[0], 16] + fs[1][2..] == [s[0], 16, Half(Half(s[2])), Half(Half(s[3]))];
  }

  /** On a 256x256 input the default network's output is [B, 16, 64, 64]. */
  lemma DefaultUNetShape256(n: UNet, b: nat)
    requires IsResNet34(n.encoder) && n.decoder == PlanDecoder(ResNet34Widths, DefaultDecoderWidths)
    ensures n.Shape([b, 3, 256, 256]) == Some([b, 16, 64, 64])
  {
    DefaultUNetShape(n, [b, 3, 256, 256]);
    assert Half(Half(256)) == 64;
  }

  /**
   * In the default network, layer 3's input (from l1) and its skip l0 share a spatial size on
   * every input, so the decoder as written releases a caller's handle twice.
   */
  lemma DefaultUNetAliases(n: UNet, s: Shape)
    requires IsResNet34(n.encoder) && n.decoder == PlanDecoder(ResNet34Widths, DefaultDecoderWidths)
    requires |s| == 4 && s[1] == 3 && s[2] >= 1 && s[3] >= 1
    ensures n.encoder.Shapes(s).Some? && !n.decoder.NoAliases(n.encoder.Shapes(s).value)
  {
    ResNet34EncoderShapes(n.encoder, s);
    ResNet34FollowsWidths(s);
    PlanNoAliases(ResNet34Widths, DefaultDecoderWidths, ResNet34Shapes(s), s[0]);
    assert ResNet34Shapes(s)[1][2..] == ResNet34Shapes(s)[2][2..];
  }
}

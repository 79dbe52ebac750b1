# iseg in Dafny: segmentation networks as array-handle plumbing

iseg builds image-segmentation networks in Go on top of gotch, a binding to libtorch. The networks are a
ResNet34 encoder, a UNet decoder, the classic five-level UNet and the Kaggle HuBMAP "ResNet34Unet"
closure with squeeze-and-excitation attention. The library's arrays are native handles. The Go code has
to release every intermediate itself with `MustDrop` or a `del=true` flag. Releasing a handle twice is a
double free in the native library.

This project models what those forward passes do to handles and shapes:

- Which handles each pass allocates and which it releases.
- That it releases only live handles.
- The exact shape of every result, including the failures the library raises when shapes do not fit.

It also models the data tooling of the HuBMAP and CVC-ClinicDB examples:

- reading run-length-encoded (RLE) masks and painting them into a pixel buffer;
- cutting an image into tiles and naming the files written;
- the pixel checksum, the opacity test and the RGB-to-gray conversion.

Layout, one module per file:

- `wrappers.dfy` — `Option` and `Result`.
- `torch.dfy` (`Torch`) — the library surface the networks rely on. An array is a `Tensor(id, shape)` handle. The
  class `Store` holds the set of `live` handles, and each library operation is a `Store` method.
  - Each operation allocates a fresh handle of a stated shape.
  - An operation called with `del` releases its receiver.
  - `Drop` requires a live handle.
  - Shape functions (`PrimShape`, `SeqShape`, `Broadcast`, `Cat2Shape`, `ResizeShape`) return `None` where the
    library would abort.
  - Convolution and pooling follow the size rule `(n + 2p - k) / s + 1`.
- `base.dfy` (`Base`) — `base/module.go`: identity, convolution builders, SCSE attention, `NewAttention`.
- `encoder.dfy` (`Encoder`) — `encoder/resnet.go`: basic blocks, stages, the ResNet34 encoder. The
  identical builders in `example/hubmap_new/model.go` (38-99) are modelled by the same members.
- `decoder.dfy` (`Decoder`) — `unet/decoder.go`: decoder layer, centre, the decoding loop, the builder.
- `unet.dfy` (`UNet`) — `unet/model.go` and the forward loop of `unet/model_test.go`.
- `unet_original.dfy` (`UNetOriginal`) — `unet/model-original.go`.
- `hubmap_net.dfy` (`HubmapNet`) — `example/hubmap_new/model.go`.
- `rle.dfy` (`Rle`) — `example/hubmap/rle.go`.
- `img.dfy` (`Img`) — `example/hubmap/img.go`. The functions `splitTensor`, `pixSum`, `isOpaque` and
  `rgb2GrayScale` in `example/clinicdb/img.go` (48-72, 219-229, 231-250, 255-280) are textually the same,
  and the same members model them.

Each forward pass is a method that takes the `Store`. It is proved against a pure shape function of its
module, and it states the whole new live set, so every handle allocated and every handle released is
accounted for. The lemmas beside it compute those shape functions for the concrete networks, such as
ResNet34 on a 256×256 image. Where the Go code releases a handle twice, the model keeps two versions:

- an as-written method, whose precondition names the inputs for which it is sound;
- a corrected method that needs no such precondition.

A lemma shows the as-written precondition fails for real inputs (see Findings).

`unet/model.go:33` calls `NewUNetDecoder` with only the path `p`. The three configuration arguments
(encoder widths, decoder widths and depth) are missing, so the package does not compile as written. `UNet.DefaultUNet` builds the decoder from the values given in the
doc comment at `unet/decoder.go:165-169` (encoder widths `[3,64,64,128,256,512]`, decoder widths
`[256,128,64,32,16]`, five layers). With those values the UNet returns 16 channels at a quarter of the
input resolution, and there is no segmentation head.

## Model

| member | source | states |
|---|---|---|
| Torch.ReleaseAll | unet/model.go:22-24 | releasing a list of distinct live handles one by one removes exactly those handles from the live set |
| Torch.BroadcastSpec | base/module.go:43-45 | two shapes broadcast iff they have equal rank and on each axis the sizes agree or one is 1; the result takes the non-1 size on each axis |
| Torch.Store.Drop | unet/decoder.go:43 | `MustDrop` needs a live handle and removes exactly that handle |
| Base.IdentityForward | base/module.go:17-24 | the identity module returns a new handle of the input's shape and leaves every other handle alone |
| Base.Conv2d | base/module.go:114-120 | the convolution uses the given channels and kernel, the same padding and stride on both axes, and a bias |
| Base.Conv2dNoBias | base/module.go:123-130 | the same convolution as `Conv2d` with the bias switched off |
| Base.Conv2dShape | base/module.go:114-130 | with or without bias, a k×k convolution maps [B,cIn,H,W] to [B,cOut,(H+2p-k)/s+1,(W+2p-k)/s+1] |
| Base.Conv2dRelu | base/module.go:133-144 | conv-relu is a bias-free convolution, a batch norm with eps 0.001 and momentum 0.1, then ReLU |
| Base.Conv2dReluShape | base/module.go:133-144 | conv-relu changes the shape exactly as its convolution does, and fails exactly when the convolution does |
| Base.SCSE.ForwardT | base/module.go:39-53 | SCSE gates x by channel and by position and adds the two products. Exactly one new handle survives, and every intermediate is released |
| Base.NewSCSE | base/module.go:56-87 | the reduction defaults to 16. A reduction of 0 is the integer division by zero the Go code panics on. Otherwise the channel branch is pool, squeeze conv, ReLU, expand conv and two sigmoids, and the spatial branch is a lone 1×1 convolution, as written |
| Base.NewSCSEIntended | base/module.go:56-87 | the corrected builder: the channel branch ends in one sigmoid and the spatial branch ends in its own sigmoid |
| Base.NewSCSESpatialUngated | base/module.go:76-81 | as written, the spatial branch has no sigmoid and the channel gate is squashed twice |
| Base.NewSCSEIntendedGated | base/module.go:63-78 | corrected, both gates end in a sigmoid and the channel gate has exactly one |
| Base.ChannelGateShape | base/module.go:63-74 | the channel branch maps [B,C,H,W] to [B,C,1,1] for any H, W ≥ 1 and any number of trailing sigmoids |
| Base.SpatialGateShape | base/module.go:77-78 | the spatial branch maps [B,C,H,W] to [B,1,H,W] with or without its sigmoid |
| Base.ScsePreservesShape | base/module.go:39-53 | both the as-written and the corrected SCSE return an array shaped like the input |
| Base.AttnModule.ForwardT | base/module.go:93-95 | attention forwards to its module: a new handle of the module's output shape, nothing else changes |
| Base.NewAttention | base/module.go:98-111 | no argument gives Identity. An SCSE argument is used as given. Any other module is rejected with an error naming its type |
| Encoder.DownSample | encoder/resnet.go:87-96 | the shortcut is empty iff stride is 1 and the width is kept; otherwise it is a 1×1 strided convolution followed by a default batch norm |
| Encoder.NewBasicBlock | encoder/resnet.go:106-114 | the first 3×3 convolution carries the stride, the second keeps the width, and the shortcut is `downSample` |
| Encoder.BasicBlockShape | encoder/resnet.go:106-131 | a block maps [B,cIn,H,W] to [B,cOut,⌈H/s⌉,⌈W/s⌉], and its main path and shortcut agree so the residual add is defined |
| Encoder.BasicBlock.MainPath | encoder/resnet.go:117-124 | the conv-bn-relu-conv-bn path yields one new handle of the main-path shape and releases its intermediates |
| Encoder.BasicBlock.ForwardT | encoder/resnet.go:116-131 | the block returns one new handle of the block shape, and the shortcut and main-path handles are released |
| Encoder.ForwardStage | encoder/resnet.go:25-28 | running a sequential stage returns one new handle of the stage's shape and leaves no intermediate live |
| Encoder.BasicLayer | encoder/resnet.go:60-68 | the loop builds max(1, `cnt`) blocks, the first always present: the first changes width and stride, the rest keep the width |
| Encoder.BasicLayerShape | encoder/resnet.go:60-68 | a stage of max(1, `cnt`) blocks maps [B,cIn,H,W] to [B,cOut,⌈H/s⌉,⌈W/s⌉] |
| Encoder.KeepingBlockShape | encoder/resnet.go:106-131 | a width-keeping stride-1 block leaves the shape unchanged |
| Encoder.LayerZero | encoder/resnet.go:44-58 | the stem is a 7×7 stride-2 convolution with 3 input and 64 output channels, then a 3×3 stride-2 max pool |
| Encoder.StemWindows | encoder/resnet.go:47-55 | both stem windows are defined for every side ≥ 1 and halve it, rounding up |
| Encoder.LayerZeroShape | encoder/resnet.go:44-58 | the stem maps [B,3,H,W] to [B,64,⌈⌈H/2⌉/2⌉,⌈⌈W/2⌉/2⌉] |
| Encoder.LayerZero256 | encoder/resnet.go:44-58 | a 256-pixel side leaves the stem at 64 |
| Encoder.ResNetEncoder.ForwardAll | encoder/resnet.go:22-31 | `ForwardAll` returns six distinct new handles whose shapes are the encoder's feature shapes, and nothing else is allocated |
| Encoder.ResNetEncoder.ForwardStages | encoder/resnet.go:25-28 | each stage runs on the previous stage's output and yields a distinct new handle |
| Encoder.NewResNet34Encoder | encoder/resnet.go:33-42 | the encoder has 3, 4, 6 and 3 blocks of widths 64, 128, 256 and 512, with strides 1, 2, 2 and 2 |
| Encoder.ResNet34Shapes | encoder/resnet.go:33-58 | the first feature is the input; the stem and stage 1 share a 64-channel shape |
| Encoder.ResNet34EncoderShapes | encoder/resnet.go:22-42 | for any [B,3,H,W] with H, W ≥ 1, the ResNet34 encoder's six features have the shapes `ResNet34Shapes` computes, and the library raises no shape error |
| Encoder.LayerStep | encoder/resnet.go:60-68 | a stage applied to a planar input of its input width gives the strided output width |
| Encoder.ResNet34Shapes256 | encoder/resnet.go:33-58 | on [B,3,256,256] the features are 256², 64², 64², 32², 16² and 8², with widths 3, 64, 64, 128, 256 and 512 |
| Decoder.UpsampleShape | unet/decoder.go:22-30 | upsampling takes x's batch and channels and ref's spatial sizes. It fails only when sizes differ and either array is not 4-d |
| Decoder.Upsample | unet/decoder.go:22-30 | when spatial sizes already match, x itself is returned and nothing is allocated; otherwise one new handle is |
| Decoder.DecoderLayer.SkipAttention | unet/decoder.go:35-46 | corrected: upsample, concatenate and attend yield one new handle, and the upsampled handle is released only when it is not x |
| Decoder.DecoderLayer.SkipAttentionAsWritten | unet/decoder.go:35-46 | as written: when upsample returned x itself, x is released here, which is the caller's handle |
| Decoder.DecoderLayer.Tail | unet/decoder.go:48-55 | the two conv-relu-attention steps consume the attended handle and leave exactly one new one |
| Decoder.DecoderLayer.ForwardSkip | unet/decoder.go:33-58 | corrected: a decoder layer adds exactly one new handle of the layer shape and releases nothing the caller holds |
| Decoder.DecoderLayer.ForwardSkipAsWritten | unet/decoder.go:33-58 | as written: same result shape, but when x is already at the skip's resolution the caller's x is released too |
| Decoder.NewDecoderLayer | unet/decoder.go:61-77 | the layer is two 3×3 conv-relu blocks: the first from cIn+skip channels to cOut, the second keeping cOut. Both attentions are Identity |
| Decoder.DecoderLayerShape | unet/decoder.go:35-55 | a layer maps [B,cIn,·,·] and a [B,cSkip,h,w] skip to [B,cOut,h,w]; without a skip it keeps x's spatial size |
| Decoder.SameConvRelu | unet/decoder.go:64-67 | a padded 3×3 conv-relu keeps the spatial size |
| Decoder.CenterLayer.ForwardT | unet/decoder.go:85-91 | the centre block returns one new handle of its shape and releases its intermediate |
| Decoder.NewCenterLayer | unet/decoder.go:95-100 | the centre is two 3×3 conv-relu blocks |
| Decoder.CenterLayerShape | unet/decoder.go:95-100 | the centre changes the width to cOut and keeps the spatial size |
| Decoder.Center.ForwardT | unet/decoder.go:138 | the identity or conv centre yields one new handle of the centre shape |
| Decoder.Skips | unet/decoder.go:112-118 | the skips are the features after the head, deepest first, without the input image |
| Decoder.UNetDecoder.ForwardFeatures | unet/decoder.go:109-162 | corrected: decoding adds exactly one new handle, of the decoder shape, and every intermediate output is released |
| Decoder.UNetDecoder.ForwardFeaturesAsWritten | unet/decoder.go:109-162 | as written: the same postcondition, but only for features at which no layer's input already has its skip's resolution |
| Decoder.UNetDecoder.Decode | unet/decoder.go:138-159 | the layer loop consumes the centre output and returns the result of running every layer in turn |
| Decoder.UNetDecoder.Advance | unet/decoder.go:141-157 | one inner layer appends one new output to `outs`, and the decoder run from there is unchanged |
| Decoder.UNetDecoder.Finish | unet/decoder.go:146-153 | the last layer runs without a skip, and then every handle in `outs`, the centre output included, is released, leaving only the result |
| Decoder.Reversed | unet/decoder.go:112-115 | the loop yields all features but the first, last first |
| Decoder.InChannels | unet/decoder.go:181-184 | layer 0 reads the deepest encoder width, and layer i reads the output width of layer i-1 |
| Decoder.SkipChannels | unet/decoder.go:176-187 | layer i skips from the encoder width i+2 places from the end, and the last layer has no skip |
| Decoder.LayersAt | unet/decoder.go:193-197 | the i-th built layer is `NewDecoderLayer(in[i], skip[i], out[i])` |
| Decoder.BuildLayers | unet/decoder.go:193-197 | the builder loop produces the same layers as the definition |
| Decoder.PlanDecoder | unet/decoder.go:170-203 | the decoder has an identity centre and one layer per decoder width |
| Decoder.NewUNetDecoder | unet/decoder.go:170-203 | the builder fails iff the number of decoder widths differs from `numLayers` (reporting both), or its unchecked indexing runs out of range: fewer than two encoder widths, no decoder widths, or more decoder widths than skip widths (naming the first layer without one). Otherwise it returns the plan |
| Decoder.DocExamplePlan | unet/decoder.go:164-169 | for the documented widths, the layers read 512, 256, 128, 64, 32 and skip 256, 128, 64, 64, 0 |
| Decoder.FeatureZeroUnread | unet/decoder.go:110-118 | the decoder never reads the first feature: changing it changes neither the result shape nor aliasing |
| Decoder.PlanStep | unet/decoder.go:141-145 | an inner planned layer maps its input to its output width at the skip's resolution |
| Decoder.PlanLast | unet/decoder.go:146-148 | the last planned layer keeps its input's resolution |
| Decoder.PlanChained | unet/decoder.go:170-203 | for features that follow the encoder widths, every planned layer's output width is the next layer's input width |
| Decoder.RunFromChained | unet/decoder.go:141-159 | for chained layers, decoding from layer k ends at the last width and at the resolution of the last skip |
| Decoder.NoAliasFromChained | unet/decoder.go:22-30 | a chained run never aliases iff no layer's input already has its skip's spatial size |
| Decoder.PlanShape | unet/decoder.go:109-203 | the planned decoder returns [B, last width] at the resolution of the stem feature |
| Decoder.PlanNoAliases | unet/decoder.go:22-58 | the planned decoder avoids aliasing iff no two adjacent encoder features share a spatial size |
| Decoder.AdjacentSkips | unet/decoder.go:112-118 | the aliasing condition over the skip list is the same as "no two adjacent features share a spatial size" |
| UNet.UNet.ForwardT | unet/model.go:19-27 | corrected: a full pass adds exactly the result handle, of the UNet shape; all six features and every intermediate are released |
| UNet.UNet.ForwardTAsWritten | unet/model.go:19-27 | as written: the same postcondition, only for inputs whose features avoid decoder aliasing |
| UNet.FeaturesReleased | unet/model.go:22-24 | releasing the six features after decoding leaves the caller's handles plus the result |
| UNet.Passes | unet/model_test.go:34-38 | over the corrected `ForwardT`: any number of forward passes, each followed by dropping its result, leaves the live set exactly as it was |
| UNet.PassesAsWritten | unet/model_test.go:34-38 | over the decoder as written: the same loop keeps the live set only where the decoder's features do not alias, which `UNet.DefaultUNetAliases` shows never holds for the default network |
| UNet.DefaultUNet | unet/model.go:31-39 | the default UNet is the ResNet34 encoder with the planned decoder for the documented widths |
| UNet.ResNet34FollowsWidths | encoder/resnet.go:33-42 | the ResNet34 features have widths 3, 64, 64, 128, 256 and 512 and share the batch |
| UNet.DefaultDecoderShape | unet/decoder.go:164-169 | the default decoder returns [B,16] at the stem resolution |
| UNet.DefaultUNetShape | unet/model.go:19-27 | the default UNet maps [B,3,H,W] to [B,16,⌈⌈H/2⌉/2⌉,⌈⌈W/2⌉/2⌉] |
| UNet.DefaultUNetShape256 | unet/model.go:19-27 | the default UNet maps [B,3,256,256] to [B,16,64,64] |
| UNet.DefaultUNetAliases | unet/decoder.go:25-27 | for every ResNet34 input, the default decoder aliases, because stem and stage 1 have the same resolution |
| UNetOriginal.HalfWindow | unet/model-original.go:24-27 | a 2×2 stride-2 max pool halves a side ≥ 2, rounding down |
| UNetOriginal.DownShape | unet/model-original.go:20-38 | a down step maps [B,cIn,H,W] with H, W ≥ 2 to [B,cOut,⌊H/2⌋,⌊W/2⌋] |
| UNetOriginal.DownRejects | unet/model-original.go:20-38 | a down step fails on any other input |
| UNetOriginal.UpsamplingShape | unet/model-original.go:84-91 | bilinear resizing sets the spatial sizes and keeps batch and channels |
| UNetOriginal.Upsampling | unet/model-original.go:84-91 | resizing always allocates a fresh handle, even when the size is unchanged |
| UNetOriginal.Up.UpForward | unet/model-original.go:53-80 | an up step adds exactly one new handle, of the up shape, and releases its upsampled and concatenated intermediates |
| UNetOriginal.UpShape | unet/model-original.go:46-80 | an up step returns [B,cOut] at the skip's resolution |
| UNetOriginal.UNetOriginal.Down | unet/model-original.go:147-151 | the contracting path yields five distinct new handles with the down shapes |
| UNetOriginal.UNetOriginal.Ups | unet/model-original.go:153-158 | the expanding path yields four distinct new handles and the logits, with the up shapes |
| UNetOriginal.UNetOriginal.ForwardT | unet/model-original.go:146-171 | a pass adds exactly the logits handle, of the network's shape, and releases the other nine |
| UNetOriginal.PlanDowns | unet/model-original.go:118-123 | on [B,3,H,W] with H, W ≥ 16 the contracting path is defined at each halving |
| UNetOriginal.DownSteps | unet/model-original.go:120-123 | each down step doubles the width (up to 512) and halves the sides |
| UNetOriginal.DownChain | unet/model-original.go:147-151 | the down shapes are the successive steps' shapes |
| UNetOriginal.PlanUps | unet/model-original.go:125-129 | the expanding path returns 256, 128, 64, 64 and 1 channels at the skips' resolutions |
| UNetOriginal.OutConvShape | unet/model-original.go:94-97 | the 1×1 output convolution maps 64 channels to 1 and keeps the spatial size |
| UNetOriginal.OriginalShapes | unet/model-original.go:118-158 | for any [B,3,H,W] with H, W ≥ 16, the original UNet returns [B,1,H,W] |
| HubmapNet.SqueezeExcite | example/hubmap_new/model.go:118-139 | `squeezeExcite` builds the same as-written SCSE as `base.NewSCSE`: ungated spatial branch, doubled channel sigmoid |
| HubmapNet.SqueezeExciteIntended | example/hubmap_new/model.go:118-139 | the corrected builder gates both branches with one sigmoid each |
| HubmapNet.SqueezeExciteForward | example/hubmap_new/model.go:140-152 | the attention closure yields one new handle shaped like the input and releases its intermediates |
| HubmapNet.DecodeLayer.ForwardT | example/hubmap_new/model.go:177-196 | a decode layer (optional skip concatenation, conv, attention, conv, attention) adds exactly one new handle |
| HubmapNet.DecodeLayerShape | example/hubmap_new/model.go:156-196 | a decode layer as `NewDecodeLayer` builds it returns [B,cOut] at its input's spatial size, with cIn counting the skip's channels |
| HubmapNet.LayerChain | example/hubmap_new/model.go:177-196 | a decode layer's shape is the chain of its concatenation, convolutions and attentions |
| HubmapNet.CenterBlockShape | example/hubmap_new/model.go:200-212 | the centre block `CenterBlock` builds keeps [B,512,H,W] |
| HubmapNet.LogitShape | example/hubmap_new/model.go:276-277 | the logit convolution maps 16 channels to 1 |
| HubmapNet.ClosureShapes256 | example/hubmap_new/model.go:241-277 | on [B,3,256,256], the twelve intermediate shapes of the closure are as its comments list, ending at [B,1,256,256] |
| HubmapNet.FrontPlanar | example/hubmap_new/model.go:243-247 | the encoder features are 4-d with widths 64, 64, 128, 256 and 512 and the input's batch |
| HubmapNet.SideChain | example/hubmap_new/model.go:243-247 | the stem halvings stop changing a side exactly at 1, 4, 8 and 16 |
| HubmapNet.AliasFreeIff | example/hubmap_new/model.go:261-273 | no upsample in the closure returns its own argument iff the input is larger than 16 on some side |
| HubmapNet.SmallInputAliases | example/hubmap_new/model.go:261-296 | for inputs at most 16×16, the first decode step's upsample returns the centre output itself |
| HubmapNet.NewResNet34Unet | example/hubmap_new/model.go:226-238 | the network uses the ResNet34 encoder |
| HubmapNet.ResNet34Unet.Encode | example/hubmap_new/model.go:243-247 | the five encoder steps yield five distinct new handles with the encoder's shapes |
| HubmapNet.ResNet34Unet.Front | example/hubmap_new/model.go:243-251 | encoder plus centre yield six distinct new handles with the ResNet34 feature shapes, the first six entries of `ClosureShapes` |
| HubmapNet.ResNet34Unet.ForwardTAsWritten | example/hubmap_new/model.go:241-299 | as written: the closure returns [B,1,H,W] and leaves only that handle, for inputs where no upsample aliases |
| HubmapNet.ResNet34Unet.ForwardT | example/hubmap_new/model.go:241-299 | corrected: the closure returns [B,1,H,W] for every RGB input and leaves only that handle |
| HubmapNet.UpDecode | example/hubmap_new/model.go:261-273 | one upsample-and-decode step adds the upsampled handle (unless it is the deep input itself) and the decoded one |
| HubmapNet.DecodeDeep | example/hubmap_new/model.go:261-269 | the three deep decode steps give widths 256, 128 and 64 at the skips' resolutions, and say which upsamples aliased |
| HubmapNet.DecodeShallow | example/hubmap_new/model.go:270-277 | the last decode steps give 32 channels, then 16 at the input's size, then the 1-channel logit |
| HubmapNet.Back | example/hubmap_new/model.go:261-277 | the whole decoder side allocates ten handles and aliases exactly where adjacent resolutions coincide. z0 to z4 take 256, 128, 64, 32 and 16 channels at the sizes of x3, x2, x1, x0 and x; given x0 to x3 as `ClosureShapes` lists them, z0 to z4 and the logit are the rest of that table |
| HubmapNet.BackShapes | example/hubmap_new/model.go:261-277 | the shapes `Back` gives z0 to z4 and the logit are the last six entries of `ClosureShapes` |
| HubmapNet.Closure | example/hubmap_new/model.go:241-299 | corrected: after decoding, releases leave the caller's handles plus the logit |
| HubmapNet.ClosureAsWritten | example/hubmap_new/model.go:241-299 | as written: the same, provided no adjacent resolutions coincide |
| HubmapNet.DropClosure | example/hubmap_new/model.go:280-296 | the closure's fourteen releases hit fourteen distinct live handles when none aliases |
| HubmapNet.DropClosureGuarded | example/hubmap_new/model.go:280-296 | with the upsampled handles released only when they are not the deep input, the releases are sound for every input |
| HubmapNet.DropRefs | example/hubmap_new/model.go:280-296 | the guarded release of the upsampled handles removes exactly the ones that were allocated |
| HubmapNet.DropFeatures | example/hubmap_new/model.go:280-296 | releasing encoder features and decoder outputs leaves the caller's handles and the rest |
| HubmapNet.DropGroups | example/hubmap_new/model.go:280-296 | releasing three disjoint groups of distinct handles leaves exactly the kept handles and the result |
| Rle.Digits | example/hubmap/rle.go:33-34 | keeping only the digits of a token yields a digit string no longer than the token |
| Rle.DigitsOfDigits | example/hubmap/rle.go:33-34 | a digit string is its own digit projection |
| Rle.DigitsEmpty | example/hubmap/rle.go:33-34 | the projection is empty iff the token has no digit |
| Rle.DecimalShow | example/hubmap/rle.go:34 | printing a number in decimal and reading it back gives the number |
| Rle.Atoi | example/hubmap/rle.go:34 | `strconv.Atoi` succeeds only with a value in the 64-bit signed range |
| Rle.AtoiShow | example/hubmap/rle.go:34 | `Atoi` reads back every printed number up to 2^63-1 |
| Rle.AtoiOfDigits | example/hubmap/rle.go:34 | on a digit string, `Atoi` succeeds iff the string is non-empty and its value fits in 64 bits, and then returns that value |
| Rle.TokenValueIsAtoi | example/hubmap/rle.go:33-34 | a token's value, `TokenValue`, is `Atoi` of its digits joined |
| Rle.TokenValueSpec | example/hubmap/rle.go:33-37 | `TokenValue` parses a token iff it holds a digit and the digits' value fits; then it is that value |
| Rle.ValuesSpec | example/hubmap/rle.go:32-40 | a token list parses iff every token does, giving one value per token in order |
| Rle.ValuesPrefixErr | example/hubmap/rle.go:35-37 | the first failing token decides the error |
| Rle.ParseTokens | example/hubmap/rle.go:31-40 | the token loop computes the list's parsed values or its first error |
| Rle.Split | example/hubmap/rle.go:29 | splitting on a separator yields at least one piece |
| Rle.SplitJoin | example/hubmap/rle.go:29 | joining the pieces with the separator gives back the string |
| Rle.SplitNoSep | example/hubmap/rle.go:29 | no piece contains the separator |
| Rle.ParseEncoding | example/hubmap/rle.go:29-40 | parsing an encoding is splitting on spaces and then parsing the tokens |
| Rle.ReadRLE | example/hubmap/rle.go:16-45 | the record loop computes the map of ids to runs, or the first parse error |
| Rle.ReadPrefixErr | example/hubmap/rle.go:35-37 | the first record that fails to parse decides the error |
| Rle.ReadOk | example/hubmap/rle.go:28-42 | reading succeeds iff every record's encoding parses |
| Rle.ReadKeys | example/hubmap/rle.go:28-42 | on success the map's keys are exactly the ids read |
| Rle.ReadLast | example/hubmap/rle.go:41 | for a repeated id, the map holds the last record's runs |
| Rle.IdsSnoc | example/hubmap/rle.go:28-41 | the ids of a longer record list add the last record's id |
| Rle.Pairs | example/hubmap/rle.go:65-68 | pairing an even-length list gives (start, length) pairs in order |
| Rle.Paint | example/hubmap/rle.go:75-83 | after painting, a pixel is 255 iff some run covers it, from its start up to its end wrapped to 64 bits, and every other pixel is unchanged. Only a run the loop enters must fit the buffer |
| Rle.AddInt | example/hubmap/rle.go:77 | the 64-bit `start + p[1]`: always in the `int` range, equal to the exact sum when that fits, and congruent to it modulo 2^64 |
| Rle.WrappedRunPaintsNothing | example/hubmap/rle.go:76-82 | a run from the largest `int` of length 1 ends at the smallest `int`, so it fits every buffer and paints no pixel |
| Rle.InRunSnoc | example/hubmap/rle.go:75-83 | adding a run covers exactly the old coverage plus that run's interval |
| Rle.Zeroed | example/hubmap/rle.go:70-73 | the buffer starts as width·height zero bytes |
| Rle.Rle2Mask | example/hubmap/rle.go:52-94 | converting runs gives the transposed mask image |
| Rle.MaskShape | example/hubmap/rle.go:85-90 | the mask has `height` rows of `width` pixels |
| Rle.MaskCell | example/hubmap/rle.go:62-90 | the pixel at row r and column c is 255 iff the column-major index c·height + r is in a run |
| Rle.MaskPixel | example/hubmap/rle.go:62-90 | every buffer index lands in exactly one mask cell, which is 255 iff a run covers it |
| Rle.Transposed | example/hubmap/rle.go:90 | transposing gives `height` rows, each reading one pixel from every column |
| Rle.InRunAppend | example/hubmap/rle.go:75-83 | painting two run lists covers the union of their coverage |
| Rle.RunsOrderFree | example/hubmap/rle.go:75-83 | the mask does not depend on the order of runs, and repeating runs changes nothing |
| Img.CeilDivBelow | example/hubmap/img.go:308-309 | n is below ⌈a/d⌉ iff n·d < a, so the grid counts cover the image exactly |
| Img.StartsInside | example/hubmap/img.go:314-330 | every grid row and column starts inside the image, so the `continue` guards never fire |
| Img.RowTilesAll | example/hubmap/img.go:325-336 | one grid row yields one tile per column, in order |
| Img.VisitedAll | example/hubmap/img.go:314-377 | the tiles visited by the first k rows are in row-major order |
| Img.TilesRowMajor | example/hubmap/img.go:305-377 | the loops visit tile (n, m) at position n·cols + m |
| Img.Partition | example/hubmap/img.go:305-377 | the tiles partition the image: every pixel lies in exactly one tile, and tiles lie inside the image |
| Img.AxisPartition | example/hubmap/img.go:314-333 | on one axis, the clamped intervals partition [0, e) |
| Img.KeptSpec | example/hubmap/img.go:348-351 | blank tiles are skipped: kept tiles are non-blank, all are kept when none is blank, and none when all are |
| Img.KeptSnoc | example/hubmap/img.go:348-351 | a blank tile adds nothing, and any other tile is appended |
| Img.Pad3Value | example/hubmap/img.go:353 | the `%03d` counter `Pad3` has at least three digits and reads back as the counter |
| Img.TileNamesDistinct | example/hubmap/img.go:353-375 | `TileName` gives different file names for different counters |
| Img.RunTile | example/hubmap/img.go:305-377 | the grid loops write the non-blank tiles in row-major order, image and mask, named with counters 1, 2, …. Without crop support the first crop fails, and nothing is written unless the grid is empty |
| Img.RunRow | example/hubmap/img.go:314-377 | one grid row extends the written tiles by that row's non-blank tiles, or stops at the crop error |
| Img.VisitTile | example/hubmap/img.go:334-375 | one tile either fails the crop, or is written with the next counter unless blank |
| Img.ClampEnd | example/hubmap/img.go:320-323 | the end of a tile is clamped to the image bound |
| Img.NamedSnoc | example/hubmap/img.go:353-375 | writing one more tile extends the file list with names carrying the next counter |
| Img.RowStep | example/hubmap/img.go:325-330 | a column inside the image adds its tile, and a column outside adds nothing |
| Img.RowDone | example/hubmap/img.go:314-318 | a row inside the image adds its tiles, and a row outside adds nothing |
| Img.IsOpaque | example/hubmap/img.go:412-431 | an image's own answer is used; otherwise the scan reports opaque iff every pixel's alpha is 0xffff |
| Img.OpaqueTiles | example/hubmap/img.go:412-431 | an image is opaque iff every tile of any grid over it is opaque |
| Img.PixSum | example/hubmap/img.go:400-410 | the `uint8` accumulator holds the byte sum modulo 256 |
| Img.SumAppend | example/hubmap/img.go:405-407 | the exact byte sum is additive over concatenation |
| Img.SumBound | example/hubmap/img.go:405-407 | the exact sum is at most 255 per byte |
| Img.SumWraps | example/hubmap/img.go:405-407 | the wrapped sums of two pieces combine modulo 256 |
| Img.SplitTensor | example/hubmap/img.go:51-75 | as written: one row narrow over dim 0 for each of the h/offset rows, even a row with no columns, and (h/offset)·(w/offset) cuts, each from the row offset over dim 0 and the fixed column offset over dim 1 |
| Img.SplitTensorIntended | example/hubmap/img.go:51-75 | corrected: the same grid, cutting rows and columns at n·tile and m·tile over dims 1 and 2 |
| Img.SplitDone | example/hubmap/img.go:62-74 | the nested loops produce cut (n, m) at position n·cols + m |
| Img.AsWrittenCollapses | example/hubmap/img.go:61-72 | as written, every column of a row gets the same cut, and the first row already runs past dim 0 of a [C,H,W] image |
| Img.IntendedFits | example/hubmap/img.go:51-75 | corrected, every cut lies within the image when tileSize ≤ offset |
| Img.IntendedDisjoint | example/hubmap/img.go:51-75 | corrected, no pixel lies in two tiles |
| Img.GrayShape | example/hubmap/img.go:651-676 | conversion needs rank ≥ 3, failing with the rank otherwise, and 3 channels at axis -3, failing with the count otherwise; the result drops that axis |
| Img.Rgb2GrayScale | example/hubmap/img.go:651-676 | an error allocates nothing. Otherwise exactly one new handle, the gray image, survives, and the unbound channels and partial sums are released |

## Left out

- Element values: weights, activations, losses and floating-point arithmetic are not modelled, and a
  tensor is its shape. The SCSE products and sums, batch-norm statistics and the gray weights
  0.2989/0.587/0.114 therefore carry no numeric content.
- The `train` flag, `nn.Path` variable naming and parameter loading have no effect on shapes or handles and are left
  out. `HubmapNet.ResNet34Unet.ForwardT` takes the closure's `t` argument and ignores it, as the Go code does.
- `DoubleConv` (used by `unet/model-original.go`) is a library module treated as a black box: its
  shape rule is a 3×3 padded convolution pair, and its internals are not part of this model.
- Sequential containers are assumed to release their own intermediates, and an empty one is assumed to
  return a fresh handle. Both are library conventions, not code in this repository.
- `base/head.go`, `encoder/encoder.go`, the training, validation, loss and metric code, the data
  loaders, `main.go` drivers, `debug.go` and `eda.go` are not part of this model.
- File and network I/O: CSV parsing (`dataframe.ReadCSV`) is replaced by a list of (id, encoding)
  records. TIFF/PNG reading and writing, directory creation and `resize` are left out. The decoded image is
  a width × height grid.
- Img.RunTile: `isBlank` is a parameter `blank` on rectangles. Whether the image and the mask support cropping is one flag,
  `canCrop`. Errors from `os.Create` and `png.Encode` are not modelled. Tile sizes must be positive. With a
  zero size, `img.go:308-309` converts an infinite or NaN quotient to `int`, which Go leaves to the
  implementation. With a negative size the counts are zero or less, so no tile is written. Neither case is
  modelled.
- Img.SplitTensor: `MustNarrow` and `MustDetach` are modelled by the narrow they request. The lists hold
  every request the loops make, in order. They do not stop at the first narrow the library refuses and
  aborts on. `NarrowFits` says which requests those are, and `Img.AsWrittenCollapses` shows that with
  fewer channels than `tileSize` it is the very first. The `narrowY` handles the Go code never releases
  are not tracked. Saving tiles is left out. The picture must have rank at least 3 and `offset` must not
  be 0. Otherwise the Go code panics, on `size[2]` at `img.go:53` or on the division by zero at `img.go:58`.
  Neither panic is modelled. The same holds for `Img.SplitTensorIntended`.
- Img.IsOpaque: the image's own `isOpaque` method is an optional answer `own`, and pixel alpha is a
  function of the coordinates.
- Rle.Paint: the list must have even length, and every run the loop enters must lie inside the buffer. The
  loop enters a run when its 64-bit end, wrapped as `Rle.AddInt` computes it, lies after its start. The Go
  code panics with an index out of range otherwise, and the panic is not modelled. The buffer length
  `width * height` is taken as the exact product.
- Decoder.UNetDecoder.ForwardFeatures: `features` must have at least one more entry than there are layers, and there must be at
  least two layers. With fewer, the Go code indexes out of range (`outs[1]`) or reaches the final `panic`,
  and neither is modelled as a value.
- UNet.DefaultUNet: models the documented decoder widths, because the call at `unet/model.go:33` passes
  only the path and none of the three configuration arguments `NewUNetDecoder` takes.
- Decoder.NewUNetDecoder: the panics at `unet/decoder.go:181`, `:184` and `:195` are error values. When
  the panic at line 195 happens, the Go code has already built the earlier layers' parameters. Parameter
  creation is not modelled, so the model returns the error before building any layer.
- Base.NewSCSE: `cIn` and the reduction are natural numbers. A negative `int64` reduction gives a
  negative or zero squeeze width under Go's truncating division, and the library refuses that when it
  creates the convolution. That case is not represented.
- Concurrency and native memory beyond liveness, such as the size of allocations and use of a released handle
  other than releasing it again, are not modelled.

## Findings

| source | as written | input that shows it | evidently intended | confidence | as-written member | corrected member |
|---|---|---|---|---|---|---|
| unet/decoder.go:22-58 | `upsample` returns `x` itself when sizes already match, and `ForwardSkip` then releases it (line 43), so the caller's handle is released and released again later | any [B,3,H,W] through the default UNet: the stem and stage 1 are both at H/4, so layer 3 receives an output at its skip's size | release the upsampled handle only when it is a new one | not executed | Decoder.UNetDecoder.ForwardFeaturesAsWritten (with UNet.DefaultUNetAliases) | Decoder.UNetDecoder.ForwardFeatures |
| example/hubmap_new/model.go:261-296 | the closure releases the upsampled handles `ref0`…`ref4` and the decoder outputs, and some are the same handle when an upsample returned its argument | [1,3,16,16]: the centre output and x3 are both 1×1, so `upsample(z, x3)` returns `z` | release an upsampled handle only when it differs from its argument | not executed | HubmapNet.ResNet34Unet.ForwardTAsWritten (with HubmapNet.SmallInputAliases) | HubmapNet.ResNet34Unet.ForwardT |
| base/module.go:79-81 | the spatial branch's sigmoid is appended to the channel branch | any `NewSCSE(c)`: the spatial gate is an ungated convolution and the channel gate applies sigmoid twice | each branch ends in one sigmoid | not executed | Base.NewSCSESpatialUngated | Base.NewSCSEIntendedGated |
| example/hubmap/img.go:61-72 | `offsetX` never advances, the narrows run over dims 0/1 of a [C,H,W] image, and `MustNarrow` gets an end position as its length | a [3,512,512] image with tileSize 256: the first cut asks for 256 rows of an axis of size 3, and every column repeats cut (0, 0) | cut rows and columns at n·tile and m·tile over dims 1 and 2 | not executed | Img.AsWrittenCollapses | Img.IntendedDisjoint |

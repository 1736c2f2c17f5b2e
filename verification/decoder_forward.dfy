/**
 * The decoder's forward pass, abstracted to shapes: a tensor is known by its
 * channel count, height and width (the batch dimension is left out), and
 * each layer by the shape contract it promises: a convolution keeps the
 * spatial size and maps its declared input width to its declared output
 * width, and nearest upsampling doubles height and width.
 */
module DecoderForward {
  import opened Wrappers
  import opened Indexing
  import opened DecoderTable

  datatype Shape = Shape(channels: nat, height: nat, width: nat)

  /** The ways the forward pass can raise. */
  datatype ForwardError =
    | FeatureIndexError(index: int)                        // `input_features[index]` out of range
    | MissingLayer(key: Key)                               // `self.convs[key]` absent
    | ChannelMismatch(key: Key, expected: nat, actual: nat) // a conv fed the wrong number of channels
    | SizeMismatch(stage: int)                             // concatenating tensors of different sizes

  function Pow2(k: nat): (p: nat)
    ensures p >= 1
  {
    if k == 0 then 1 else 2 * Pow2(k - 1)
  }

  /** Height and width scaled by `2^k`. */
  function Scaled(channels: nat, h: nat, w: nat, k: nat): Shape {
    Shape(channels, h * Pow2(k), w * Pow2(k))
  }

  /** `self.convs[key]`. */
  function Layer(d: Decoder, key: Key): (r: Result<Conv, ForwardError>)
    ensures r.Ok? <==> Lookup(d.convs, key).Some?
    ensures r.Ok? ==> Some(r.value) == Lookup(d.convs, key)
    ensures r.Err? ==> r.error == MissingLayer(key)
  {
    Lookup(d.convs, key).ToResult(MissingLayer(key))
  }

  /** Running a convolution: the assumed contract of the layer. */
  function Apply(conv: Conv, key: Key, x: Shape): (r: Result<Shape, ForwardError>)
    ensures r.Ok? <==> x.channels == conv.inCh
    ensures r.Ok? ==> r.value.channels == conv.outCh && r.value.height == x.height && r.value.width == x.width
    ensures r.Err? ==> r.error == ChannelMismatch(key, conv.inCh, x.channels)
  {
    if x.channels == conv.inCh then Ok(Shape(conv.outCh, x.height, x.width))
    else Err(ChannelMismatch(key, conv.inCh, x.channels))
  }

  /** `self.convs[key](x)`: look the layer up, then run it. */
  function Run(d: Decoder, key: Key, x: Shape): Result<Shape, ForwardError> {
    var conv :- Layer(d, key);
    Apply(conv, key, x)
  }

  /** Nearest-neighbour upsampling by two: the assumed contract of `upsample`. */
  function Upsample(x: Shape): Shape {
    Shape(x.channels, 2 * x.height, 2 * x.width)
  }

  /** `torch.cat([a, b], 1)`: the sizes must agree and the channels add up. */
  function Concat(a: Shape, b: Shape, stage: int): (r: Result<Shape, ForwardError>)
    ensures r.Ok? <==> a.height == b.height && a.width == b.width
    ensures r.Ok? ==> r.value == Shape(a.channels + b.channels, a.height, a.width)
  {
    if a.height == b.height && a.width == b.width then Ok(Shape(a.channels + b.channels, a.height, a.width))
    else Err(SizeMismatch(stage))
  }

  /** The tensor stage `i` feeds its second conv: the upsampled first conv output, with the skip feature when fused. */
  function StageInput(d: Decoder, features: seq<Shape>, i: int, x: Shape): Result<Shape, ForwardError> {
    var y :- Run(d, UpConv(i, 0), x);
    var u := Upsample(y);
    if d.useSkips && i > 0 then
      var skip :- At(features, i - 1).ToResult(FeatureIndexError(i - 1));
      Concat(u, skip, i)
    else Ok(u)
  }

  /** One decoder stage: the tensor after `("upconv", i, 1)`. */
  function Stage(d: Decoder, features: seq<Shape>, i: int, x: Shape): Result<Shape, ForwardError> {
    var z :- StageInput(d, features, i, x);
    Run(d, UpConv(i, 1), z)
  }

  /** The head of stage `i`, added to the outputs when `i` is a listed scale. */
  function Heads(d: Decoder, i: int, x: Shape, outputs: map<int, Shape>): Result<map<int, Shape>, ForwardError> {
    if i in d.scales then
      var disp :- Run(d, DispConv(i), x);
      Ok(outputs[i := disp])
    else Ok(outputs)
  }

  /** The stage loop from stage `i` down to stage 0. */
  function Stages(d: Decoder, features: seq<Shape>, i: int, x: Shape, outputs: map<int, Shape>)
    : Result<map<int, Shape>, ForwardError>
    decreases i + 1
  {
    if i < 0 then Ok(outputs)
    else
      var y :- Stage(d, features, i, x);
      var outputs' :- Heads(d, i, y, outputs);
      Stages(d, features, i - 1, y, outputs')
  }

  /** `DepthDecoder.forward`: the shape of `("disp", s)` for every scale it emits, keyed by `s`. */
  function Forward(d: Decoder, features: seq<Shape>): Result<map<int, Shape>, ForwardError> {
    var x :- At(features, -1).ToResult(FeatureIndexError(-1));
    Stages(d, features, 4, x, map[])
  }

  // ---------------------------------------------------------------------------
  // What the forward pass guarantees

  /** The skip feature stage `i` reads is present, `2^(5 - i)` times the deepest feature's size, with the encoder's width. */
  predicate SkipFits(d: Decoder, features: seq<Shape>, i: int, h: nat, w: nat)
    requires (d.useSkips ==> |d.numChEnc| >= 4) && 0 <= i < 5
  {
    d.useSkips && i > 0 ==>
      i - 1 < |features| && features[i - 1] == Scaled(d.numChEnc[i - 1], h, w, 5 - i)
  }

  /** Every stage from `i` down reads a fitting skip feature. */
  predicate SkipsFit(d: Decoder, features: seq<Shape>, i: int, h: nat, w: nat)
    requires (d.useSkips ==> |d.numChEnc| >= 4) && i < 5
  {
    forall k :: 0 <= k <= i ==> SkipFits(d, features, k, h, w)
  }

  /**
   * The features a decoder accepts: the deepest one has the encoder's last
   * width, and when skips are fused `input_features[k]` for `k < 4` has the
   * encoder's `k`-th width at `2^(4 - k)` times the deepest size.
   */
  predicate Compatible(numChEnc: seq<nat>, useSkips: bool, features: seq<Shape>) {
    && |features| >= 1
    && |numChEnc| >= 1
    && features[|features| - 1].channels == numChEnc[|numChEnc| - 1]
    && (useSkips ==>
          && |numChEnc| >= 4
          && forall k :: 0 <= k < 4 ==>
               k < |features|
               && features[k] == Scaled(numChEnc[k], features[|features| - 1].height, features[|features| - 1].width, 4 - k))
  }

  /** The outputs of the stages above `i`: one per listed scale, `num_output_channels` wide, `2^(5 - s)` times the deepest size. */
  function HeadShapes(d: Decoder, h: nat, w: nat, i: int): (m: map<int, Shape>)
    ensures forall s :: s in m <==> s in d.scales && i < s < 5
  {
    map s | s in d.scales && i < s < 5 :: Scaled(d.numOutputChannels, h, w, 5 - s)
  }

  lemma Pow2Step(h: nat, k: nat)
    ensures h * Pow2(k + 1) == 2 * (h * Pow2(k))
  {
    assert Pow2(k + 1) == 2 * Pow2(k);
  }

  /** The tensor entering stage `i` (for `i == -1`, the one leaving stage 0) when the deepest feature is `h` by `w`. */
  function Incoming(d: Decoder, h: nat, w: nat, i: int): Shape
    requires WellFormed(d) && -1 <= i < 5
  {
    Scaled(if i == 4 then d.numChEnc[|d.numChEnc| - 1] else d.numChDec[i + 1], h, w, 4 - i)
  }

  /**
   * The concatenated tensor of stage `i` is exactly as wide as the declared
   * input of `("upconv", i, 1)` when the stage's skip feature fits; a
   * misfitting skip is caught there or by the concatenation.
   */
  lemma StageInputShape(d: Decoder, features: seq<Shape>, i: int, h: nat, w: nat)
    requires WellFormed(d) && 0 <= i < 5
    ensures var z := StageInput(d, features, i, Incoming(d, h, w, i));
            && (z.Ok? <==> (d.useSkips && i > 0 ==> i - 1 < |features| && features[i - 1].height == h * Pow2(5 - i)
                                                                     && features[i - 1].width == w * Pow2(5 - i)))
            && (z.Ok? ==> (z.value == Scaled(SecondIn(d.numChEnc, d.numChDec, d.useSkips, i), h, w, 5 - i)
                           <==> SkipFits(d, features, i, h, w)))
  {
    var x := Incoming(d, h, w, i);
    Pow2Step(h, 4 - i);
    Pow2Step(w, 4 - i);
    assert Run(d, UpConv(i, 0), x) == Ok(Shape(d.numChDec[i], x.height, x.width));
    if d.useSkips && i > 0 {
      assert At(features, i - 1) == if i - 1 < |features| then Some(features[i - 1]) else None;
    }
  }

  /** A stage fed the invariant shape produces the next stage's invariant shape exactly when its skip fits. */
  lemma StageShape(d: Decoder, features: seq<Shape>, i: int, h: nat, w: nat)
    requires WellFormed(d) && 0 <= i < 5
    ensures var y := Stage(d, features, i, Incoming(d, h, w, i));
            && (y.Ok? <==> SkipFits(d, features, i, h, w))
            && (y.Ok? ==> y.value == Incoming(d, h, w, i - 1))
  {
    var x := Incoming(d, h, w, i);
    StageInputShape(d, features, i, h, w);
    var declared := Scaled(SecondIn(d.numChEnc, d.numChDec, d.useSkips, i), h, w, 5 - i);
    var z := StageInput(d, features, i, x);
    if z.Ok? {
      assert Run(d, UpConv(i, 1), z.value).Ok? <==> z.value.channels == declared.channels;
      assert z.value.channels == declared.channels <==> z.value == declared;
    }
  }

  /** The head of stage `i` adds exactly the output of scale `i`, when `i` is listed. */
  lemma HeadsStep(d: Decoder, h: nat, w: nat, i: int)
    requires |d.numChDec| == 5 && 0 <= i < 5
    requires i in d.scales ==> Lookup(d.convs, DispConv(i)) == Some(Conv3x3(d.numChDec[i], d.numOutputChannels))
    ensures Heads(d, i, Scaled(d.numChDec[i], h, w, 5 - i), HeadShapes(d, h, w, i)) == Ok(HeadShapes(d, h, w, i - 1))
  {
    if i in d.scales {
      var disp := Scaled(d.numOutputChannels, h, w, 5 - i);
      assert Run(d, DispConv(i), Scaled(d.numChDec[i], h, w, 5 - i)) == Ok(disp);
      HeadShapesExtend(d, h, w, i);
    } else {
      HeadShapesSkip(d, h, w, i);
    }
  }

  lemma HeadShapesExtend(d: Decoder, h: nat, w: nat, i: int)
    requires i in d.scales && 0 <= i < 5
    ensures HeadShapes(d, h, w, i)[i := Scaled(d.numOutputChannels, h, w, 5 - i)] == HeadShapes(d, h, w, i - 1)
  {
  }

  lemma HeadShapesSkip(d: Decoder, h: nat, w: nat, i: int)
    requires i !in d.scales
    ensures HeadShapes(d, h, w, i) == HeadShapes(d, h, w, i - 1)
  {
  }

  /**
   * From stage `i` down, fed the invariant shape and the outputs of the
   * stages above, the loop succeeds exactly when every remaining skip fits,
   * and then returns the outputs of every listed scale.
   */
  lemma {:induction false} StagesResult(d: Decoder, features: seq<Shape>, i: int, h: nat, w: nat)
    requires WellFormed(d) && -1 <= i < 5
    ensures var r := Stages(d, features, i, Incoming(d, h, w, i), HeadShapes(d, h, w, i));
            && (r.Ok? <==> SkipsFit(d, features, i, h, w))
            && (r.Ok? ==> r.value == HeadShapes(d, h, w, -1))
    decreases i + 1
  {
    if i >= 0 {
      var x := Incoming(d, h, w, i);
      var y := Stage(d, features, i, x);
      StageShape(d, features, i, h, w);
      SkipsFitStep(d, features, i, h, w);
      if y.Ok? {
        var x' := Incoming(d, h, w, i - 1);
        assert y.value == x' == Scaled(d.numChDec[i], h, w, 5 - i);
        if i in d.scales {
          assert i % 5 == i;
          assert Lookup(d.convs, DispConv(i)) == Some(Conv3x3(d.numChDec[i], d.numOutputChannels));
        }
        HeadsStep(d, h, w, i);
        assert Stages(d, features, i, x, HeadShapes(d, h, w, i)) == Stages(d, features, i - 1, x', HeadShapes(d, h, w, i - 1));
        StagesResult(d, features, i - 1, h, w);
      }
    }
  }

  lemma SkipsFitStep(d: Decoder, features: seq<Shape>, i: int, h: nat, w: nat)
    requires (d.useSkips ==> |d.numChEnc| >= 4) && 0 <= i < 5
    ensures SkipsFit(d, features, i, h, w) <==> SkipFits(d, features, i, h, w) && SkipsFit(d, features, i - 1, h, w)
  {
  }

  /** A deepest feature of the wrong width is rejected by the first conv. */
  lemma FirstConvRejects(d: Decoder, features: seq<Shape>, x: Shape)
    requires WellFormed(d) && x.channels != d.numChEnc[|d.numChEnc| - 1]
    ensures Stages(d, features, 4, x, map[]).Err?
  {
    assert Run(d, UpConv(4, 0), x).Err?;
  }

  /**
   * The forward pass of a well-formed decoder succeeds exactly on compatible
   * features, and then returns the shapes of every listed scale in `0 .. 4`.
   */
  lemma ForwardResult(d: Decoder, features: seq<Shape>)
    requires WellFormed(d)
    ensures Forward(d, features).Ok? <==> Compatible(d.numChEnc, d.useSkips, features)
    ensures Forward(d, features).Ok? ==>
              var x := features[|features| - 1];
              Forward(d, features).value == HeadShapes(d, x.height, x.width, -1)
  {
    if |features| >= 1 {
      var x := features[|features| - 1];
      assert At(features, -1) == Some(x);
      if x.channels == d.numChEnc[|d.numChEnc| - 1] {
        assert Incoming(d, x.height, x.width, 4) == x;
        assert HeadShapes(d, x.height, x.width, 4) == map[];
        StagesResult(d, features, 4, x.height, x.width);
        assert SkipsFit(d, features, 4, x.height, x.width) <==> Compatible(d.numChEnc, d.useSkips, features) by {
          if d.useSkips {
            forall k | 0 <= k < 4
              ensures SkipFits(d, features, k + 1, x.height, x.width)
                  <==> k < |features| && features[k] == Scaled(d.numChEnc[k], x.height, x.width, 4 - k)
            {
            }
          }
        }
      } else {
        FirstConvRejects(d, features, x);
      }
    }
  }

  /**
   * The forward pass of a well-formed decoder (every constructed one is, by
   * `BuildWellFormed`) succeeds exactly on compatible features; it then
   * emits `("disp", s)` for exactly the listed scales in `0 .. 4`, each
   * `num_output_channels` wide and `2^(5 - s)` times the size of the deepest
   * feature.
   */
  lemma ForwardShapes(d: Decoder, features: seq<Shape>)
    requires WellFormed(d)
    ensures Forward(d, features).Ok? <==> Compatible(d.numChEnc, d.useSkips, features)
    ensures Forward(d, features).Ok? ==> OutputsAsPromised(d, features, Forward(d, features).value)
  {
    ForwardResult(d, features);
    if |features| >= 1 {
      var x := features[|features| - 1];
      HeadShapesAsPromised(d, features, x.height, x.width);
    }
  }

  lemma HeadShapesAsPromised(d: Decoder, features: seq<Shape>, h: nat, w: nat)
    requires |features| >= 1 && h == features[|features| - 1].height && w == features[|features| - 1].width
    ensures OutputsAsPromised(d, features, HeadShapes(d, h, w, -1))
  {
  }

  /** Outputs for exactly the listed scales in `0 .. 4`, each `num_output_channels` wide at `2^(5 - s)` times the deepest size. */
  ghost predicate OutputsAsPromised(d: Decoder, features: seq<Shape>, outputs: map<int, Shape>)
    requires |features| >= 1
  {
    && (forall s :: s in outputs <==> s in d.scales && 0 <= s < 5)
    && (forall s :: s in outputs ==>
          outputs[s] == Shape(d.numOutputChannels,
                              features[|features| - 1].height * Pow2(5 - s),
                              features[|features| - 1].width * Pow2(5 - s)))
  }

  /** The two ways a forward pass fails before any stage runs: no features, or a deepest feature of the wrong width. */
  lemma ForwardEarlyErrors(d: Decoder, features: seq<Shape>)
    requires WellFormed(d)
    ensures features == [] ==> Forward(d, features) == Err(FeatureIndexError(-1))
    ensures features != [] && features[|features| - 1].channels != d.numChEnc[|d.numChEnc| - 1] ==>
              Forward(d, features)
              == Err(ChannelMismatch(UpConv(4, 0), d.numChEnc[|d.numChEnc| - 1], features[|features| - 1].channels))
  {
    if features != [] {
      assert At(features, -1) == Some(features[|features| - 1]);
    }
  }

  /**
   * Fusing skips never changes what the forward pass emits: two decoders
   * that differ only in `use_skips` give the same outputs whenever both
   * succeed, and the one without skips succeeds whenever the one with them
   * does.
   */
  lemma SkipToggleForward(withSkips: Decoder, without: Decoder, features: seq<Shape>)
    requires WellFormed(withSkips) && WellFormed(without)
    requires withSkips.useSkips && !without.useSkips
    requires withSkips.numChEnc == without.numChEnc && withSkips.scales == without.scales
    requires withSkips.numOutputChannels == without.numOutputChannels
    ensures Forward(withSkips, features).Ok? ==> Forward(without, features).Ok?
    ensures Forward(withSkips, features).Ok? && Forward(without, features).Ok? ==>
              Forward(withSkips, features).value == Forward(without, features).value
  {
    ForwardResult(withSkips, features);
    ForwardResult(without, features);
  }

  /**
   * The default-configured decoder over the encoder widths that
   * `test_simple.py` sets for its HRNet-18 encoder. The first conv reads the
   * deepest 144 channels and the second conv of stage 1 reads 32 decoder plus
   * 64 skip channels.
   */
  lemma InferenceDecoder()
    ensures DefaultBuild([64, 18, 36, 72, 144]).Ok?
    ensures var d := DefaultBuild([64, 18, 36, 72, 144]).value;
            && Lookup(d.convs, UpConv(4, 0)) == Some(ConvBlock(144, 256))
            && Lookup(d.convs, UpConv(1, 1)) == Some(ConvBlock(96, 32))
            && Lookup(d.convs, DispConv(0)) == Some(Conv3x3(16, 1))
  {
  }

  /** That decoder on a 192 by 640 input, whose deepest feature is 6 by 20, emits four disparity maps, the finest 192 by 640. */
  lemma InferenceExample(d: Decoder, features: seq<Shape>)
    requires WellFormed(d) && d.numChEnc == [64, 18, 36, 72, 144] && d.useSkips
    requires d.scales == [0, 1, 2, 3] && d.numOutputChannels == 1
    requires features == [Shape(64, 96, 320), Shape(18, 48, 160), Shape(36, 24, 80), Shape(72, 12, 40), Shape(144, 6, 20)]
    ensures Forward(d, features).Ok?
    ensures 3 in Forward(d, features).value && 4 !in Forward(d, features).value
    ensures Forward(d, features).value[0] == Shape(1, 192, 640)
    ensures Forward(d, features).value[3] == Shape(1, 24, 80)
  {
    ExampleFeaturesFit(features);
    ForwardShapes(d, features);
    assert OutputsAsPromised(d, features, Forward(d, features).value);
    assert Pow2(2) == 4 && Pow2(5) == 32;
  }

  lemma ExampleFeaturesFit(features: seq<Shape>)
    requires features == [Shape(64, 96, 320), Shape(18, 48, 160), Shape(36, 24, 80), Shape(72, 12, 40), Shape(144, 6, 20)]
    ensures Compatible([64, 18, 36, 72, 144], true, features)
  {
    assert Pow2(1) == 2 && Pow2(2) == 4 && Pow2(3) == 8 && Pow2(4) == 16;
  }
}

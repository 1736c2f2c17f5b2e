/**
 * Construction of the multi-scale depth decoder: the channel schedule and
 * the table of convolutions, keyed like the source's ordered dictionary by
 * `("upconv", i, 0 | 1)` and `("dispconv", s)`.
 *
 * A convolution is known only by its declared input and output channel
 * widths; weights are not modelled.
 */
module DecoderTable {
  import opened Wrappers
  import opened Indexing

  /** The two convolution building blocks, by declared channel widths. */
  datatype Conv =
    | ConvBlock(inCh: nat, outCh: nat)  // convolution followed by an activation
    | Conv3x3(inCh: nat, outCh: nat)    // bare 3x3 convolution of a disparity head

  /** `("upconv", stage, sub)` and `("dispconv", scale)`. */
  datatype Key = UpConv(stage: int, sub: int) | DispConv(scale: int)

  /** An ordered dictionary from keys to convolutions, in insertion order. */
  type Table = seq<(Key, Conv)>

  /** The `IndexError`s construction can raise. */
  datatype BuildError =
    | EncoderIndexError(index: int)  // `num_ch_enc[index]` out of range
    | ScaleIndexError(scale: int)    // `num_ch_dec[scale]` out of range

  /** The decoder as constructed: its configuration and its conv table. */
  datatype Decoder = Decoder(
    numChEnc: seq<nat>,
    scales: seq<int>,
    numOutputChannels: nat,
    useSkips: bool,
    numChDec: seq<nat>,
    convs: Table)

  const DefaultSchedule: seq<nat> := [16, 32, 64, 128, 256]
  const MobileSchedule: seq<nat> := [4, 12, 20, 40, 80]

  /**
   * `num_ch_dec`: the output widths of the five decoder stages, narrow
   * exactly when the lite model is `'mobilev3'`.
   */
  function Schedule(liteModel: Option<string>): (dec: seq<nat>)
    ensures |dec| == 5
    ensures forall i, j :: 0 <= i < j < 5 ==> 0 < dec[i] < dec[j]
    ensures dec == MobileSchedule <==> liteModel == Some("mobilev3")
    ensures dec == DefaultSchedule <==> liteModel != Some("mobilev3")
  {
    if liteModel == Some("mobilev3") then MobileSchedule else DefaultSchedule
  }

  // ---------------------------------------------------------------------------
  // Ordered dictionary

  function Keys(t: Table): set<Key>
    decreases |t|
  {
    if t == [] then {} else {t[0].0} + Keys(t[1..])
  }

  /** `t[k]`, absent when `k` was never assigned. */
  function Lookup(t: Table, k: Key): Option<Conv>
    decreases |t|
  {
    if t == [] then None
    else if t[0].0 == k then Some(t[0].1)
    else Lookup(t[1..], k)
  }

  /** `t[k] = c`: a new key goes last, an existing key keeps its place. */
  function Assign(t: Table, k: Key, c: Conv): Table
    decreases |t|
  {
    if t == [] then [(k, c)]
    else if t[0].0 == k then [(k, c)] + t[1..]
    else [t[0]] + Assign(t[1..], k, c)
  }

  /** No key occurs twice. */
  predicate DistinctKeys(t: Table)
    decreases |t|
  {
    t == [] || (t[0].0 !in Keys(t[1..]) && DistinctKeys(t[1..]))
  }

  lemma {:induction false} LookupAssign(t: Table, k: Key, c: Conv, k': Key)
    ensures Lookup(Assign(t, k, c), k') == if k' == k then Some(c) else Lookup(t, k')
    decreases |t|
  {
    if t != [] && t[0].0 != k {
      LookupAssign(t[1..], k, c, k');
      assert Assign(t, k, c)[1..] == Assign(t[1..], k, c);
    } else if t != [] {
      assert Assign(t, k, c)[1..] == t[1..];
    }
  }

  /** Assigning a key the table does not hold appends it. */
  lemma {:induction false} AssignFresh(t: Table, k: Key, c: Conv)
    requires k !in Keys(t)
    ensures Assign(t, k, c) == t + [(k, c)]
    decreases |t|
  {
    if t != [] {
      AssignFresh(t[1..], k, c);
      assert t == [t[0]] + t[1..];
    }
  }

  /**
   * Assignment adds its key to the key set, keeps every existing key at its
   * position and keeps the keys distinct.
   */
  lemma {:induction false} AssignKeys(t: Table, k: Key, c: Conv)
    ensures Keys(Assign(t, k, c)) == Keys(t) + {k}
    ensures |Assign(t, k, c)| >= |t|
    ensures forall i :: 0 <= i < |t| ==> Assign(t, k, c)[i].0 == t[i].0
    ensures DistinctKeys(t) ==> DistinctKeys(Assign(t, k, c))
    decreases |t|
  {
    if t != [] {
      var r := Assign(t, k, c);
      if t[0].0 == k {
        assert r[1..] == t[1..];
      } else {
        AssignKeys(t[1..], k, c);
        assert r[1..] == Assign(t[1..], k, c);
        forall i | 1 <= i < |t| ensures r[i].0 == t[i].0 {
          assert r[i] == r[1..][i - 1];
        }
      }
    }
  }

  lemma {:induction false} KeysAppend(a: Table, b: Table)
    ensures Keys(a + b) == Keys(a) + Keys(b)
    decreases |a|
  {
    if a != [] {
      assert (a + b)[1..] == a[1..] + b;
      KeysAppend(a[1..], b);
    } else {
      assert a + b == b;
    }
  }

  lemma {:induction false} LookupAppend(a: Table, b: Table, k: Key)
    ensures Lookup(a + b, k) == if Lookup(a, k).Some? then Lookup(a, k) else Lookup(b, k)
    decreases |a|
  {
    if a != [] {
      assert (a + b)[1..] == a[1..] + b;
      LookupAppend(a[1..], b, k);
    } else {
      assert a + b == b;
    }
  }

  // ---------------------------------------------------------------------------
  // Construction

  /** Declared input width of `("upconv", i, 0)`: the deepest encoder width at stage 4, else the previous stage's output. */
  function FirstIn(numChEnc: seq<nat>, numChDec: seq<nat>, i: int): nat
    requires |numChEnc| >= 1 && |numChDec| == 5 && 0 <= i < 5
  {
    if i == 4 then numChEnc[|numChEnc| - 1] else numChDec[i + 1]
  }

  /** Declared input width of `("upconv", i, 1)`: the stage width, plus the skip feature's width when it is fused. */
  function SecondIn(numChEnc: seq<nat>, numChDec: seq<nat>, useSkips: bool, i: int): nat
    requires |numChDec| == 5 && 0 <= i < 5
    requires useSkips && i > 0 ==> i - 1 < |numChEnc|
  {
    numChDec[i] + (if useSkips && i > 0 then numChEnc[i - 1] else 0)
  }

  /** Whether the encoder widths that stage `i` reads exist. */
  predicate StageReadable(numChEnc: seq<nat>, useSkips: bool, i: int) {
    (i == 4 ==> |numChEnc| >= 1) && (useSkips && i > 0 ==> i - 1 < |numChEnc|)
  }

  /** The two convolutions of stage `i`: `("upconv", i, 0)` and `("upconv", i, 1)`. */
  function StageConvs(numChEnc: seq<nat>, numChDec: seq<nat>, useSkips: bool, i: int): (r: Result<(Conv, Conv), BuildError>)
    requires |numChDec| == 5 && 0 <= i < 5
    ensures r.Ok? <==> StageReadable(numChEnc, useSkips, i)
    ensures r.Ok? && |numChEnc| >= 1 ==>
              r.value == (ConvBlock(FirstIn(numChEnc, numChDec, i), numChDec[i]),
                          ConvBlock(SecondIn(numChEnc, numChDec, useSkips, i), numChDec[i]))
  {
    var in0 :- if i == 4 then At(numChEnc, -1).ToResult(EncoderIndexError(-1)) else Ok(numChDec[i + 1]);
    var skip :- if useSkips && i > 0 then At(numChEnc, i - 1).ToResult(EncoderIndexError(i - 1)) else Ok(0);
    Ok((ConvBlock(in0, numChDec[i]), ConvBlock(numChDec[i] + skip, numChDec[i])))
  }

  /** The loop over stages `i, i - 1, ..., 0` that assigns both upconvs of each stage. */
  function UpConvs(t: Table, numChEnc: seq<nat>, numChDec: seq<nat>, useSkips: bool, i: int): Result<Table, BuildError>
    requires |numChDec| == 5 && i < 5
    decreases i + 1
  {
    if i < 0 then Ok(t)
    else
      var convs :- StageConvs(numChEnc, numChDec, useSkips, i);
      UpConvs(Assign(Assign(t, UpConv(i, 0), convs.0), UpConv(i, 1), convs.1), numChEnc, numChDec, useSkips, i - 1)
  }

  /** The loop over `scales` that assigns a disparity head per listed scale. */
  function AddHeads(t: Table, numChDec: seq<nat>, scales: seq<int>, numOutputChannels: nat): Result<Table, BuildError>
    decreases |scales|
  {
    if scales == [] then Ok(t)
    else
      var inCh :- At(numChDec, scales[0]).ToResult(ScaleIndexError(scales[0]));
      AddHeads(Assign(t, DispConv(scales[0]), Conv3x3(inCh, numOutputChannels)), numChDec, scales[1..], numOutputChannels)
  }

  /** `DepthDecoder.__init__`. */
  function Build(numChEnc: seq<nat>, scales: seq<int>, numOutputChannels: nat, useSkips: bool, liteModel: Option<string>)
    : Result<Decoder, BuildError>
  {
    var numChDec := Schedule(liteModel);
    var upconvs :- UpConvs([], numChEnc, numChDec, useSkips, 4);
    var convs :- AddHeads(upconvs, numChDec, scales, numOutputChannels);
    Ok(Decoder(numChEnc, scales, numOutputChannels, useSkips, numChDec, convs))
  }

  /**
   * `DepthDecoder(num_ch_enc)` with the constructor's defaults: scales
   * `range(4)`, one output channel, fused skips and no lite model. It needs
   * at least four encoder widths, since stage 4's skip reads `num_ch_enc[3]`.
   */
  function DefaultBuild(numChEnc: seq<nat>): (r: Result<Decoder, BuildError>)
    ensures r.Ok? <==> |numChEnc| >= 4
    ensures r.Ok? ==> && WellFormed(r.value) && r.value.numChEnc == numChEnc
                      && r.value.scales == [0, 1, 2, 3] && r.value.numOutputChannels == 1
                      && r.value.useSkips && r.value.numChDec == DefaultSchedule
  {
    var r := Build(numChEnc, [0, 1, 2, 3], 1, true, None);
    BuildSucceeds(numChEnc, [0, 1, 2, 3], 1, true, None);
    if r.Ok? then
      BuildWellFormed(numChEnc, [0, 1, 2, 3], 1, true, None, r.value);
      r
    else r
  }

  // ---------------------------------------------------------------------------
  // What construction guarantees

  /** Every key of the table: ten upconvs and one head per listed scale. */
  function ExpectedKeys(scales: seq<int>): set<Key> {
    UpConvKeys(4) + HeadKeys(scales)
  }

  /** The upconv keys of stages `0 .. i`. */
  function UpConvKeys(i: int): set<Key> {
    set k, j | 0 <= k <= i && 0 <= j < 2 :: UpConv(k, j)
  }

  function HeadKeys(scales: seq<int>): set<Key> {
    set s | s in scales :: DispConv(s)
  }

  /**
   * The declared widths of a well-formed decoder: each upconv as its
   * formula says, and a head from the stage width to the output channels
   * for every listed scale (a negative scale counts from the end).
   */
  predicate WellFormed(d: Decoder) {
    && |d.numChDec| == 5
    && |d.numChEnc| >= 1
    && (d.useSkips ==> |d.numChEnc| >= 4)
    && (forall i :: 0 <= i < 5 ==>
          Lookup(d.convs, UpConv(i, 0)) == Some(ConvBlock(FirstIn(d.numChEnc, d.numChDec, i), d.numChDec[i])))
    && (forall i :: 0 <= i < 5 ==>
          Lookup(d.convs, UpConv(i, 1)) == Some(ConvBlock(SecondIn(d.numChEnc, d.numChDec, d.useSkips, i), d.numChDec[i])))
    && (forall s :: s in d.scales ==>
          -5 <= s < 5 && Lookup(d.convs, DispConv(s)) == Some(Conv3x3(d.numChDec[s % 5], d.numOutputChannels)))
  }

  predicate Sized(numChEnc: seq<nat>, numChDec: seq<nat>, useSkips: bool) {
    |numChEnc| >= 1 && |numChDec| == 5 && (useSkips ==> |numChEnc| >= 4)
  }

  /** The two entries of stage `i`. */
  function StageEntries(numChEnc: seq<nat>, numChDec: seq<nat>, useSkips: bool, i: int): Table
    requires Sized(numChEnc, numChDec, useSkips) && 0 <= i < 5
  {
    [(UpConv(i, 0), ConvBlock(FirstIn(numChEnc, numChDec, i), numChDec[i])),
     (UpConv(i, 1), ConvBlock(SecondIn(numChEnc, numChDec, useSkips, i), numChDec[i]))]
  }

  /** The upconv entries of stages `i` down to 0, in assignment order. */
  function UpConvEntries(numChEnc: seq<nat>, numChDec: seq<nat>, useSkips: bool, i: int): (e: Table)
    requires Sized(numChEnc, numChDec, useSkips) && i < 5
    ensures |e| == if i < 0 then 0 else 2 * (i + 1)
    decreases i + 1
  {
    if i < 0 then []
    else StageEntries(numChEnc, numChDec, useSkips, i) + UpConvEntries(numChEnc, numChDec, useSkips, i - 1)
  }

  lemma {:induction false} UpConvEntriesPositions(numChEnc: seq<nat>, numChDec: seq<nat>, useSkips: bool, i: int)
    requires Sized(numChEnc, numChDec, useSkips) && i < 5
    ensures forall k, j :: 0 <= k <= i && 0 <= j < 2 ==>
              UpConvEntries(numChEnc, numChDec, useSkips, i)[2 * (i - k) + j].0 == UpConv(k, j)
    decreases i + 1
  {
    if i >= 0 {
      var e := UpConvEntries(numChEnc, numChDec, useSkips, i);
      var rest := UpConvEntries(numChEnc, numChDec, useSkips, i - 1);
      UpConvEntriesPositions(numChEnc, numChDec, useSkips, i - 1);
      forall k, j | 0 <= k <= i && 0 <= j < 2
        ensures e[2 * (i - k) + j].0 == UpConv(k, j)
      {
        if k < i {
          assert e[2 * (i - k) + j] == rest[2 * (i - 1 - k) + j];
        }
      }
    }
  }

  lemma {:induction false} UpConvEntriesLookup(numChEnc: seq<nat>, numChDec: seq<nat>, useSkips: bool, i: int, k: int, j: int)
    requires Sized(numChEnc, numChDec, useSkips) && i < 5
    requires 0 <= k <= i && 0 <= j < 2
    ensures Lookup(UpConvEntries(numChEnc, numChDec, useSkips, i), UpConv(k, j))
         == Some(StageEntries(numChEnc, numChDec, useSkips, k)[j].1)
    decreases i + 1
  {
    var head := StageEntries(numChEnc, numChDec, useSkips, i);
    var rest := UpConvEntries(numChEnc, numChDec, useSkips, i - 1);
    LookupAppend(head, rest, UpConv(k, j));
    assert head[1..][1..] == [];
    if k < i {
      UpConvEntriesLookup(numChEnc, numChDec, useSkips, i - 1, k, j);
    }
  }

  lemma {:induction false} UpConvEntriesKeys(numChEnc: seq<nat>, numChDec: seq<nat>, useSkips: bool, i: int)
    requires Sized(numChEnc, numChDec, useSkips) && i < 5
    ensures Keys(UpConvEntries(numChEnc, numChDec, useSkips, i)) == UpConvKeys(i)
    ensures DistinctKeys(UpConvEntries(numChEnc, numChDec, useSkips, i))
    decreases i + 1
  {
    if i >= 0 {
      var e := UpConvEntries(numChEnc, numChDec, useSkips, i);
      var head := StageEntries(numChEnc, numChDec, useSkips, i);
      var rest := UpConvEntries(numChEnc, numChDec, useSkips, i - 1);
      UpConvEntriesKeys(numChEnc, numChDec, useSkips, i - 1);
      KeysAppend(head, rest);
      assert head[1..][1..] == [];
      assert Keys(head[1..]) == {UpConv(i, 1)} + Keys(head[1..][1..]);
      assert Keys(head) == {UpConv(i, 0), UpConv(i, 1)};
      assert UpConvKeys(i) == UpConvKeys(i - 1) + {UpConv(i, 0), UpConv(i, 1)};
      assert e[1..] == [e[1]] + rest;
      KeysAppend([e[1]], rest);
      assert e[1..][1..] == rest;
    } else {
      assert UpConvKeys(i) == {};
    }
  }

  /** Assigning both upconvs of a stage to a table that holds neither appends them. */
  lemma AssignStagePair(t: Table, i: int, c0: Conv, c1: Conv)
    requires UpConv(i, 0) !in Keys(t) && UpConv(i, 1) !in Keys(t)
    ensures Assign(Assign(t, UpConv(i, 0), c0), UpConv(i, 1), c1) == t + [(UpConv(i, 0), c0), (UpConv(i, 1), c1)]
    ensures Keys(t + [(UpConv(i, 0), c0), (UpConv(i, 1), c1)]) == Keys(t) + {UpConv(i, 0), UpConv(i, 1)}
  {
    var t1 := Assign(t, UpConv(i, 0), c0);
    AssignFresh(t, UpConv(i, 0), c0);
    AssignKeys(t, UpConv(i, 0), c0);
    AssignFresh(t1, UpConv(i, 1), c1);
    AssignKeys(t1, UpConv(i, 1), c1);
    assert t1 + [(UpConv(i, 1), c1)] == t + [(UpConv(i, 0), c0), (UpConv(i, 1), c1)];
  }

  /** The stage loop fails exactly when some stage from `i` down reads a missing encoder width. */
  lemma {:induction false} UpConvsSucceeds(t: Table, numChEnc: seq<nat>, numChDec: seq<nat>, useSkips: bool, i: int)
    requires |numChDec| == 5 && -1 <= i < 5
    ensures UpConvs(t, numChEnc, numChDec, useSkips, i).Ok?
        <==> (i >= 4 ==> |numChEnc| >= 1) && (useSkips && i >= 1 ==> |numChEnc| >= i)
    decreases i + 1
  {
    if i >= 0 && StageReadable(numChEnc, useSkips, i) {
      var convs := StageConvs(numChEnc, numChDec, useSkips, i).value;
      UpConvsSucceeds(Assign(Assign(t, UpConv(i, 0), convs.0), UpConv(i, 1), convs.1), numChEnc, numChDec, useSkips, i - 1);
    }
  }

  lemma AppendAssociates(a: Table, b: Table, c: Table)
    ensures (a + b) + c == a + (b + c)
  {
  }

  /** One stage of the loop, on a table without that stage's keys, appends the stage's two entries. */
  lemma UpConvsStep(t: Table, numChEnc: seq<nat>, numChDec: seq<nat>, useSkips: bool, i: int)
    requires Sized(numChEnc, numChDec, useSkips) && 0 <= i < 5
    requires UpConv(i, 0) !in Keys(t) && UpConv(i, 1) !in Keys(t)
    ensures UpConvs(t, numChEnc, numChDec, useSkips, i)
         == UpConvs(t + StageEntries(numChEnc, numChDec, useSkips, i), numChEnc, numChDec, useSkips, i - 1)
    ensures Keys(t + StageEntries(numChEnc, numChDec, useSkips, i)) == Keys(t) + {UpConv(i, 0), UpConv(i, 1)}
  {
    var e := StageEntries(numChEnc, numChDec, useSkips, i);
    var convs := StageConvs(numChEnc, numChDec, useSkips, i).value;
    assert convs == (e[0].1, e[1].1);
    AssignStagePair(t, i, e[0].1, e[1].1);
    assert [(UpConv(i, 0), e[0].1), (UpConv(i, 1), e[1].1)] == e;
  }

  /** On a table without the upconvs of stages `0 .. i`, the stage loop appends exactly their entries. */
  lemma {:induction false} UpConvsAppends(t: Table, numChEnc: seq<nat>, numChDec: seq<nat>, useSkips: bool, i: int)
    requires Sized(numChEnc, numChDec, useSkips) && -1 <= i < 5
    requires forall k, j :: UpConv(k, j) in Keys(t) ==> k > i
    ensures UpConvs(t, numChEnc, numChDec, useSkips, i) == Ok(t + UpConvEntries(numChEnc, numChDec, useSkips, i))
    decreases i + 1
  {
    if i < 0 {
      assert t + [] == t;
    } else {
      var e := StageEntries(numChEnc, numChDec, useSkips, i);
      var rest := UpConvEntries(numChEnc, numChDec, useSkips, i - 1);
      assert UpConvEntries(numChEnc, numChDec, useSkips, i) == e + rest;
      UpConvsStep(t, numChEnc, numChDec, useSkips, i);
      UpConvsAppends(t + e, numChEnc, numChDec, useSkips, i - 1);
      AppendAssociates(t, e, rest);
    }
  }

  /** The head loop fails exactly when some listed scale is outside `-5 .. 4`. */
  lemma {:induction false} AddHeadsSucceeds(t: Table, numChDec: seq<nat>, scales: seq<int>, numOutputChannels: nat)
    requires |numChDec| == 5
    ensures AddHeads(t, numChDec, scales, numOutputChannels).Ok? <==> forall s :: s in scales ==> -5 <= s < 5
    decreases |scales|
  {
    if scales != [] {
      var s0 := scales[0];
      assert forall s :: s in scales <==> s == s0 || s in scales[1..];
      if -5 <= s0 < 5 {
        assert At(numChDec, s0) == Some(numChDec[s0 % 5]);
        var t1 := Assign(t, DispConv(s0), Conv3x3(numChDec[s0 % 5], numOutputChannels));
        assert AddHeads(t, numChDec, scales, numOutputChannels) == AddHeads(t1, numChDec, scales[1..], numOutputChannels);
        AddHeadsSucceeds(t1, numChDec, scales[1..], numOutputChannels);
        assert (forall s :: s in scales ==> -5 <= s < 5) <==> (forall s :: s in scales[1..] ==> -5 <= s < 5);
      } else {
        assert At(numChDec, s0).None?;
        assert s0 in scales;
      }
    }
  }

  /** A successful head loop gives each listed scale its head and leaves every other key's entry alone. */
  lemma {:induction false} AddHeadsLookup(t: Table, numChDec: seq<nat>, scales: seq<int>, numOutputChannels: nat, k: Key)
    requires |numChDec| == 5
    requires AddHeads(t, numChDec, scales, numOutputChannels).Ok?
    ensures k !in HeadKeys(scales) ==> Lookup(AddHeads(t, numChDec, scales, numOutputChannels).value, k) == Lookup(t, k)
    ensures k.DispConv? && k.scale in scales ==>
              Lookup(AddHeads(t, numChDec, scales, numOutputChannels).value, k) == Some(Conv3x3(numChDec[k.scale % 5], numOutputChannels))
    decreases |scales|
  {
    if scales != [] {
      var s0 := scales[0];
      AddHeadsSucceeds(t, numChDec, scales, numOutputChannels);
      assert scales[0] in scales;
      var c := Conv3x3(numChDec[s0 % 5], numOutputChannels);
      AddHeadsLookup(Assign(t, DispConv(s0), c), numChDec, scales[1..], numOutputChannels, k);
      LookupAssign(t, DispConv(s0), c, k);
      assert forall s :: s in scales <==> s == s0 || s in scales[1..];
      assert HeadKeys(scales) == {DispConv(s0)} + HeadKeys(scales[1..]);
    }
  }

  /** A successful head loop adds exactly the head keys and keeps keys distinct. */
  lemma {:induction false} AddHeadsKeys(t: Table, numChDec: seq<nat>, scales: seq<int>, numOutputChannels: nat)
    requires |numChDec| == 5
    requires AddHeads(t, numChDec, scales, numOutputChannels).Ok?
    ensures Keys(AddHeads(t, numChDec, scales, numOutputChannels).value) == Keys(t) + HeadKeys(scales)
    ensures DistinctKeys(t) ==> DistinctKeys(AddHeads(t, numChDec, scales, numOutputChannels).value)
    decreases |scales|
  {
    if scales != [] {
      var s0 := scales[0];
      AddHeadsSucceeds(t, numChDec, scales, numOutputChannels);
      assert scales[0] in scales;
      var c := Conv3x3(numChDec[s0 % 5], numOutputChannels);
      var t1 := Assign(t, DispConv(s0), c);
      assert AddHeads(t, numChDec, scales, numOutputChannels) == AddHeads(t1, numChDec, scales[1..], numOutputChannels);
      AssignKeys(t, DispConv(s0), c);
      AddHeadsKeys(t1, numChDec, scales[1..], numOutputChannels);
      assert forall s :: s in scales <==> s == s0 || s in scales[1..];
      assert HeadKeys(scales) == {DispConv(s0)} + HeadKeys(scales[1..]);
    }
  }

  /** A successful head loop keeps every existing entry's key at its position. */
  lemma {:induction false} AddHeadsKeepsOrder(t: Table, numChDec: seq<nat>, scales: seq<int>, numOutputChannels: nat)
    requires |numChDec| == 5
    requires AddHeads(t, numChDec, scales, numOutputChannels).Ok?
    ensures |AddHeads(t, numChDec, scales, numOutputChannels).value| >= |t|
    ensures forall i :: 0 <= i < |t| ==> AddHeads(t, numChDec, scales, numOutputChannels).value[i].0 == t[i].0
    decreases |scales|
  {
    if scales != [] {
      var s0 := scales[0];
      AddHeadsSucceeds(t, numChDec, scales, numOutputChannels);
      assert scales[0] in scales;
      var c := Conv3x3(numChDec[s0 % 5], numOutputChannels);
      var t1 := Assign(t, DispConv(s0), c);
      assert AddHeads(t, numChDec, scales, numOutputChannels) == AddHeads(t1, numChDec, scales[1..], numOutputChannels);
      AssignKeys(t, DispConv(s0), c);
      AddHeadsKeepsOrder(t1, numChDec, scales[1..], numOutputChannels);
    }
  }

  /**
   * Construction succeeds exactly when `num_ch_enc` is long enough for the
   * indices the stage loop reads (the last entry, and entries 0..3 when skips
   * are fused) and every scale indexes `num_ch_dec`.
   */
  lemma BuildSucceeds(numChEnc: seq<nat>, scales: seq<int>, numOutputChannels: nat, useSkips: bool, liteModel: Option<string>)
    ensures Build(numChEnc, scales, numOutputChannels, useSkips, liteModel).Ok?
        <==> && |numChEnc| >= 1
             && (useSkips ==> |numChEnc| >= 4)
             && (forall s :: s in scales ==> -5 <= s < 5)
  {
    var dec := Schedule(liteModel);
    UpConvsSucceeds([], numChEnc, dec, useSkips, 4);
    if |numChEnc| >= 1 && (useSkips ==> |numChEnc| >= 4) {
      var ups := UpConvs([], numChEnc, dec, useSkips, 4).value;
      AddHeadsSucceeds(ups, dec, scales, numOutputChannels);
    }
  }

  /** The table a successful construction builds: the upconv entries, then the heads. */
  lemma BuildTable(numChEnc: seq<nat>, scales: seq<int>, numOutputChannels: nat, useSkips: bool, liteModel: Option<string>, d: Decoder)
    requires Build(numChEnc, scales, numOutputChannels, useSkips, liteModel) == Ok(d)
    ensures Sized(numChEnc, Schedule(liteModel), useSkips)
    ensures d.numChEnc == numChEnc && d.scales == scales && d.numOutputChannels == numOutputChannels
    ensures d.useSkips == useSkips && d.numChDec == Schedule(liteModel)
    ensures AddHeads(UpConvEntries(numChEnc, d.numChDec, useSkips, 4), d.numChDec, scales, numOutputChannels) == Ok(d.convs)
  {
    var dec := Schedule(liteModel);
    BuildSucceeds(numChEnc, scales, numOutputChannels, useSkips, liteModel);
    UpConvsAppends([], numChEnc, dec, useSkips, 4);
    assert [] + UpConvEntries(numChEnc, dec, useSkips, 4) == UpConvEntries(numChEnc, dec, useSkips, 4);
  }

  /** A constructed decoder is well formed: every declared width is the one its formula gives. */
  lemma BuildWellFormed(numChEnc: seq<nat>, scales: seq<int>, numOutputChannels: nat, useSkips: bool, liteModel: Option<string>, d: Decoder)
    requires Build(numChEnc, scales, numOutputChannels, useSkips, liteModel) == Ok(d)
    ensures WellFormed(d)
    ensures d.numChEnc == numChEnc && d.scales == scales && d.numOutputChannels == numOutputChannels
    ensures d.useSkips == useSkips && d.numChDec == Schedule(liteModel)
  {
    BuildTable(numChEnc, scales, numOutputChannels, useSkips, liteModel, d);
    BuildSucceeds(numChEnc, scales, numOutputChannels, useSkips, liteModel);
    var ups := UpConvEntries(numChEnc, d.numChDec, useSkips, 4);
    forall i, j | 0 <= i < 5 && 0 <= j < 2
      ensures Lookup(d.convs, UpConv(i, j)) == Some(StageEntries(numChEnc, d.numChDec, useSkips, i)[j].1)
    {
      AddHeadsLookup(ups, d.numChDec, scales, numOutputChannels, UpConv(i, j));
      UpConvEntriesLookup(numChEnc, d.numChDec, useSkips, 4, i, j);
    }
    forall s | s in scales
      ensures -5 <= s < 5 && Lookup(d.convs, DispConv(s)) == Some(Conv3x3(d.numChDec[s % 5], d.numOutputChannels))
    {
      AddHeadsLookup(ups, d.numChDec, scales, numOutputChannels, DispConv(s));
    }
  }

  /**
   * A constructed decoder declares exactly the ten upconvs and one head per
   * listed scale, each once, with the upconvs first, stage 4 down to stage 0.
   */
  lemma BuildKeys(numChEnc: seq<nat>, scales: seq<int>, numOutputChannels: nat, useSkips: bool, liteModel: Option<string>, d: Decoder)
    requires Build(numChEnc, scales, numOutputChannels, useSkips, liteModel) == Ok(d)
    ensures Keys(d.convs) == ExpectedKeys(scales)
    ensures DistinctKeys(d.convs)
    ensures |d.convs| >= 10
    ensures forall i, j :: 0 <= i < 5 && 0 <= j < 2 ==> d.convs[2 * (4 - i) + j].0 == UpConv(i, j)
  {
    BuildTable(numChEnc, scales, numOutputChannels, useSkips, liteModel, d);
    var ups := UpConvEntries(numChEnc, d.numChDec, useSkips, 4);
    UpConvEntriesKeys(numChEnc, d.numChDec, useSkips, 4);
    UpConvEntriesPositions(numChEnc, d.numChDec, useSkips, 4);
    AddHeadsKeys(ups, d.numChDec, scales, numOutputChannels);
    AddHeadsKeepsOrder(ups, d.numChDec, scales, numOutputChannels);
  }

  lemma {:induction false} LookupKeys(t: Table, k: Key)
    ensures Lookup(t, k).Some? <==> k in Keys(t)
    decreases |t|
  {
    if t != [] {
      LookupKeys(t[1..], k);
    }
  }

  /** The widths chain: each stage's output width is the next stage's first input, starting from the encoder's last width. */
  lemma ChainConsistent(d: Decoder)
    requires WellFormed(d)
    ensures Lookup(d.convs, UpConv(4, 0)).value.inCh == d.numChEnc[|d.numChEnc| - 1]
    ensures forall i :: 0 < i < 5 ==>
              Lookup(d.convs, UpConv(i, 1)).value.outCh == Lookup(d.convs, UpConv(i - 1, 0)).value.inCh
  {
  }

  /** Each second conv takes its stage's first conv output plus, when fused, the skip feature's width. */
  lemma SecondConvInput(d: Decoder)
    requires WellFormed(d)
    ensures forall i :: 0 <= i < 5 ==>
              Lookup(d.convs, UpConv(i, 1)).value.inCh
              == Lookup(d.convs, UpConv(i, 0)).value.outCh + (if d.useSkips && i > 0 then d.numChEnc[i - 1] else 0)
  {
  }

  /** Each head of a scale in `0 .. 4` reads its stage's output width. */
  lemma HeadsReadStageOutput(d: Decoder)
    requires WellFormed(d)
    ensures forall s :: s in d.scales && 0 <= s ==>
              Lookup(d.convs, DispConv(s)).value.inCh == Lookup(d.convs, UpConv(s, 1)).value.outCh
  {
    forall s | s in d.scales && 0 <= s
      ensures Lookup(d.convs, DispConv(s)).value.inCh == Lookup(d.convs, UpConv(s, 1)).value.outCh
    {
      HeadReadsStageOutput(d, s);
    }
  }

  lemma HeadReadsStageOutput(d: Decoder, s: int)
    requires WellFormed(d) && s in d.scales && 0 <= s
    ensures s < 5
    ensures Lookup(d.convs, DispConv(s)) == Some(Conv3x3(d.numChDec[s], d.numOutputChannels))
    ensures Lookup(d.convs, UpConv(s, 1)).Some? && Lookup(d.convs, UpConv(s, 1)).value.outCh == d.numChDec[s]
  {
    assert -5 <= s < 5;
    assert s % 5 == s;
  }

  /** `("upconv", i, 1)` for a stage `i` that can receive a skip feature. */
  predicate IsSkipConv(k: Key) {
    k.UpConv? && k.sub == 1 && 0 < k.stage < 5
  }

  /**
   * Toggling `use_skips` keeps the key set and every entry other than the
   * second convs of stages 1..4.
   */
  lemma SkipToggleTable(numChEnc: seq<nat>, scales: seq<int>, numOutputChannels: nat, liteModel: Option<string>,
                        withSkips: Decoder, without: Decoder)
    requires Build(numChEnc, scales, numOutputChannels, true, liteModel) == Ok(withSkips)
    requires Build(numChEnc, scales, numOutputChannels, false, liteModel) == Ok(without)
    ensures Keys(withSkips.convs) == Keys(without.convs)
    ensures forall k: Key :: !IsSkipConv(k) ==> Lookup(withSkips.convs, k) == Lookup(without.convs, k)
  {
    BuildWellFormed(numChEnc, scales, numOutputChannels, true, liteModel, withSkips);
    BuildWellFormed(numChEnc, scales, numOutputChannels, false, liteModel, without);
    BuildKeys(numChEnc, scales, numOutputChannels, true, liteModel, withSkips);
    BuildKeys(numChEnc, scales, numOutputChannels, false, liteModel, without);
    forall k: Key | !IsSkipConv(k)
      ensures Lookup(withSkips.convs, k) == Lookup(without.convs, k)
    {
      SameEntryOutsideSkipConvs(withSkips, without, k);
    }
  }

  lemma SameEntryOutsideSkipConvs(withSkips: Decoder, without: Decoder, k: Key)
    requires WellFormed(withSkips) && WellFormed(without) && !IsSkipConv(k)
    requires withSkips.numChEnc == without.numChEnc && withSkips.numChDec == without.numChDec
    requires withSkips.scales == without.scales && withSkips.numOutputChannels == without.numOutputChannels
    requires Keys(withSkips.convs) == ExpectedKeys(withSkips.scales) && Keys(without.convs) == ExpectedKeys(without.scales)
    ensures Lookup(withSkips.convs, k) == Lookup(without.convs, k)
  {
    if k in ExpectedKeys(withSkips.scales) {
      if k.UpConv? {
        assert k in UpConvKeys(4);
        if k.sub == 0 {
          assert Lookup(withSkips.convs, k) == Lookup(without.convs, k);
        } else {
          assert k == UpConv(0, 1);
        }
      } else {
        assert k.scale in withSkips.scales;
      }
    } else {
      LookupKeys(withSkips.convs, k);
      LookupKeys(without.convs, k);
    }
  }

  /** The second convs of stages 1..4 differ by exactly the skip feature's width, and only in their input. */
  lemma SkipToggleSkipConvs(numChEnc: seq<nat>, scales: seq<int>, numOutputChannels: nat, liteModel: Option<string>,
                            withSkips: Decoder, without: Decoder)
    requires Build(numChEnc, scales, numOutputChannels, true, liteModel) == Ok(withSkips)
    requires Build(numChEnc, scales, numOutputChannels, false, liteModel) == Ok(without)
    ensures forall i :: 0 < i < 5 ==>
              && Lookup(withSkips.convs, UpConv(i, 1)).Some? && Lookup(without.convs, UpConv(i, 1)).Some?
              && Lookup(withSkips.convs, UpConv(i, 1)).value.outCh == Lookup(without.convs, UpConv(i, 1)).value.outCh
              && Lookup(withSkips.convs, UpConv(i, 1)).value.inCh
                 == Lookup(without.convs, UpConv(i, 1)).value.inCh + numChEnc[i - 1]
  {
    BuildWellFormed(numChEnc, scales, numOutputChannels, true, liteModel, withSkips);
    BuildWellFormed(numChEnc, scales, numOutputChannels, false, liteModel, without);
  }
}

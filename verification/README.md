# SeasonDepth decoder and dataset paths, in Dafny

This project models two parts of the SeasonDepth monocular depth code base:

- **The multi-scale depth decoder** (`networks/depth_decoder.py`). Construction
  picks the channel schedule `num_ch_dec` and fills an ordered table of
  convolutions keyed by `("upconv", i, 0 | 1)` and `("dispconv", s)`. The
  forward pass walks stages 4 down to 0. Each stage runs a first conv,
  upsamples, optionally concatenates a skip feature, runs a second conv, and
  emits a disparity head when the stage is a listed scale. Tensors are
  abstracted to shapes `(channels, height, width)` and convolutions to their
  declared `(in, out)` widths. A conv keeps the spatial size and maps `in`
  channels to `out` channels. `upsample` doubles height and width.
- **The dataset path builders** (`datasets/season_dataset.py`): the glob
  pattern of the SeasonDepth raw images, the KITTI odometry image path, and
  the KITTI depth image and ground-truth paths. Python's `'{:0Wd}'` padding,
  `str`, `int` and `os.path.join` are modelled on text.

Modules:

| file | module | contents |
|---|---|---|
| `wrappers.dfy` | `Wrappers`, `Indexing` | `Option`/`Result` with `:-`; Python subscripts with negative indices |
| `decimal.dfy` | `Decimal` | `str(n)`, `'{:0Wd}'.format(n)`, `int(s)`, and their round trips |
| `paths.dfy` | `Paths` | POSIX `os.path.join` and `os.path.basename` |
| `season_dataset.dfy` | `SeasonDataset` | the three `get_image_path` variants and the depth path of `get_depth` |
| `decoder_table.dfy` | `DecoderTable` | schedule, ordered conv table, `DepthDecoder.__init__` |
| `decoder_forward.dfy` | `DecoderForward` | `DepthDecoder.forward` as shape propagation |

Every exception the modelled code can raise is an `Err` value. `Build`
returns `EncoderIndexError` or `ScaleIndexError` (numpy/list `IndexError`).
`Forward` returns `FeatureIndexError`, `MissingLayer`, `ChannelMismatch` or
`SizeMismatch` (a conv or `torch.cat` rejecting a shape). The path builders
return `KeyError`, `ValueError` or `UnboundLocalError`.

With several matches the raw-image lookup keeps the first path `glob` lists
(`glob.glob(path)[0]`) and does not report the ambiguity; the model follows
the code (`RawImagePath`, `RawLookupFirstMatch`).

Members whose row says "definition" carry no `ensures` of their own: they
transcribe the cited lines, and the lemmas named in the row state what they
guarantee.

## Model

| member | source | states |
|---|---|---|
| DecoderTable.Schedule | networks/depth_decoder.py:28-30 | five strictly increasing positive widths; the narrow schedule exactly when `lite_model == 'mobilev3'`, the default one otherwise |
| DecoderTable.Lookup | networks/depth_decoder.py:59 | definition of `self.convs[key]`, absent for an unassigned key; see `LookupAssign`, `LookupKeys` |
| DecoderTable.Assign | networks/depth_decoder.py:38 | definition of `self.convs[key] = conv` on an ordered dictionary (also lines 45 and 48); see `LookupAssign`, `AssignKeys` |
| DecoderTable.LookupAssign | networks/depth_decoder.py:32-48 | after `t[k] = c`, looking up `k` gives `c` and every other key gives what it gave before |
| DecoderTable.AssignKeys | networks/depth_decoder.py:32-48 | assignment adds its key to the key set, keeps every existing key at its position and keeps keys distinct |
| DecoderTable.LookupKeys | networks/depth_decoder.py:59 | a key can be looked up exactly when it was assigned |
| DecoderTable.StageConvs | networks/depth_decoder.py:34-45 | a stage's two convs exist exactly when the encoder widths it reads exist; first conv from `num_ch_enc[-1]` (stage 4) or `num_ch_dec[i+1]`, second from `num_ch_dec[i]` plus the skip width, both to `num_ch_dec[i]` |
| DecoderTable.UpConvs | networks/depth_decoder.py:33-45 | definition of the stage loop; see `UpConvsSucceeds`, `UpConvsAppends` |
| DecoderTable.UpConvsSucceeds | networks/depth_decoder.py:33-45 | the stage loop fails exactly when `num_ch_enc` is empty or, with skips, shorter than the stage index it reads |
| DecoderTable.UpConvsAppends | networks/depth_decoder.py:33-45 | on a table holding no upconv of stage `i` or below, the loop from stage `i` appends exactly the entries of stages `i` down to 0, in that order |
| DecoderTable.AddHeads | networks/depth_decoder.py:47-48 | definition of the head loop; see `AddHeadsSucceeds`, `AddHeadsLookup`, `AddHeadsKeys` |
| DecoderTable.AddHeadsSucceeds | networks/depth_decoder.py:47-48 | the head loop fails exactly when some scale is outside `-5..4` |
| DecoderTable.AddHeadsLookup | networks/depth_decoder.py:47-48 | each listed scale gets a head from `num_ch_dec[s]` (negative `s` from the end) to `num_output_channels`; other keys keep their entries |
| DecoderTable.AddHeadsKeys | networks/depth_decoder.py:47-48 | the head loop adds exactly one key per listed scale (repeats collapse) and keeps keys distinct |
| DecoderTable.Build | networks/depth_decoder.py:20-48 | definition of `DepthDecoder.__init__`; see `BuildSucceeds`, `BuildWellFormed`, `BuildKeys` |
| DecoderTable.DefaultBuild | networks/depth_decoder.py:20 | `DepthDecoder(num_ch_enc)` with the constructor's defaults succeeds exactly when `num_ch_enc` has at least four widths, and then gives a well-formed decoder with scales 0..3, one output channel, fused skips and the default schedule |
| DecoderTable.BuildSucceeds | networks/depth_decoder.py:20-48 | construction succeeds iff `num_ch_enc` is nonempty, has at least four entries when skips are fused, and every scale lies in `-5..4` |
| DecoderTable.BuildWellFormed | networks/depth_decoder.py:20-48 | a constructed decoder keeps its configuration and every declared width is the formula's |
| DecoderTable.BuildKeys | networks/depth_decoder.py:32-48 | the table holds exactly ten upconvs and one head per listed scale, each once, upconvs first from stage 4 down |
| DecoderTable.ChainConsistent | networks/depth_decoder.py:34-45 | the first conv reads the encoder's last width, and each stage's output width is the next stage's first input |
| DecoderTable.SecondConvInput | networks/depth_decoder.py:40-45 | each second conv reads its first conv's output width plus the skip width when fused, which stage 0 never is |
| DecoderTable.HeadsReadStageOutput | networks/depth_decoder.py:44-48 | each head of a scale in `0..4` reads the output width of that stage |
| DecoderTable.SkipToggleTable | networks/depth_decoder.py:42-43 | toggling `use_skips` keeps the key set and every entry except the second convs of stages 1..4 |
| DecoderTable.SkipToggleSkipConvs | networks/depth_decoder.py:40-45 | those second convs differ only in their input width, by exactly `num_ch_enc[i-1]` |
| Indexing.At | networks/depth_decoder.py:57 | a Python subscript `s[k]` exists exactly for `-len(s) <= k < len(s)`, and a negative `k` counts from the end (also lines 36, 43, 48 and 62) |
| DecoderForward.Apply | networks/depth_decoder.py:59 | a conv accepts exactly a tensor of its declared input width, keeps height and width and gives its output width; otherwise a channel mismatch naming the layer |
| DecoderForward.Run | networks/depth_decoder.py:64 | definition of `self.convs[key](x)`: look the layer up (a missing one is the error), then apply it |
| DecoderForward.Upsample | networks/depth_decoder.py:60 | definition of the shape contract of `upsample`: channels kept, height and width doubled |
| DecoderForward.Concat | networks/depth_decoder.py:63 | `torch.cat` along channels succeeds exactly for tensors of equal height and width, and the channels add up |
| DecoderForward.StageInput | networks/depth_decoder.py:59-63 | definition of a stage up to the concatenation; see `StageInputShape` |
| DecoderForward.Stage | networks/depth_decoder.py:59-64 | definition of one stage; see `StageShape` |
| DecoderForward.Heads | networks/depth_decoder.py:65-66 | definition of the head of a listed scale; see `StagesResult` |
| DecoderForward.Stages | networks/depth_decoder.py:58-66 | definition of the stage loop; see `StagesResult` |
| DecoderForward.Forward | networks/depth_decoder.py:54-67 | definition of `forward`; see `ForwardShapes`, `ForwardEarlyErrors`, `SkipToggleForward` |
| DecoderForward.StageInputShape | networks/depth_decoder.py:57-63 | the concatenated tensor of a stage has the declared input width of `("upconv", i, 1)` exactly when the skip feature fits; a skip of the wrong size fails the concatenation |
| DecoderForward.StageShape | networks/depth_decoder.py:57-64 | a stage fed its expected shape succeeds iff its skip fits, and outputs `num_ch_dec[i]` channels at `2^(5-i)` times the deepest size |
| DecoderForward.StagesResult | networks/depth_decoder.py:56-66 | the stage loop succeeds iff every remaining skip fits, and then returns one output per listed scale in range |
| DecoderForward.ForwardEarlyErrors | networks/depth_decoder.py:56-58 | no features fails at `input_features[-1]`; a deepest feature of the wrong width fails at `("upconv", 4, 0)` |
| DecoderForward.ForwardShapes | networks/depth_decoder.py:54-67 | on a well-formed decoder, forward succeeds iff the features are compatible, and then returns keys exactly `scales ∩ {0..4}`, each with `num_output_channels` channels at `2^(5-s)` times the deepest feature's size |
| DecoderForward.SkipToggleForward | networks/depth_decoder.py:61-66 | fusing skips never changes the outputs, and dropping them never makes a successful pass fail |
| DecoderForward.InferenceDecoder | networks/depth_decoder.py:20-48 | with the constructor's defaults and encoder widths `[64, 18, 36, 72, 144]`, construction succeeds and `upconv 4,0` is 144 to 256, `upconv 1,1` is 96 to 32, `dispconv 0` is 16 to 1 |
| DecoderForward.InferenceExample | networks/depth_decoder.py:54-67 | that decoder, on a 6 by 20 deepest feature, succeeds, emits scale 3 but not scale 4, scale 0 at 192 by 640 and scale 3 at 24 by 80 |
| Decimal.Str | datasets/season_dataset.py:49 | definition of `str(n)`; see `StrRoundTrip`, `DigitsInjective` |
| Decimal.Pad | datasets/season_dataset.py:65 | definition of `'{:0Wd}'.format(n)` (also lines 69, 81 and 90); see `PadRoundTrip`, `PadNeverTruncates` |
| Decimal.ParseInt | datasets/season_dataset.py:69 | definition of `int(folder)`, `None` for the `ValueError`; see `PadRoundTrip`, `StrRoundTrip` |
| Decimal.PadRoundTrip | datasets/season_dataset.py:65 | `'{:0Wd}'` of `n >= 0` is all digits, `max(W, digits of n)` long and reads back as `n`; `int()` recovers every `n`, negative ones included |
| Decimal.PadNeverTruncates | datasets/season_dataset.py:81 | the padded text is `max(W, len(str(n)))` long, ends with every digit of `n`, and starts with the sign when `n < 0` |
| Decimal.PadNarrowWidth | datasets/season_dataset.py:69 | a width no larger than the number of digits adds nothing |
| Decimal.StrRoundTrip | datasets/season_dataset.py:49 | `int(str(n)) == n` |
| Decimal.DigitsInjective | datasets/season_dataset.py:49 | distinct non-negative numbers have distinct decimal text |
| Paths.Join | datasets/season_dataset.py:67-71 | definition of POSIX `os.path.join` of two parts; see `BasenameOfJoin`, `JoinAllDirFile` |
| Paths.JoinAll | datasets/season_dataset.py:82-86 | definition of `os.path.join` over several parts (also lines 67-71 and 91-95); see `JoinAllDirFile` |
| Paths.BasenameOfJoin | datasets/season_dataset.py:67-71 | joining a component without '/' makes it the last path component |
| Paths.JoinAllDirFile | datasets/season_dataset.py:82-86 | joining a folder, a relative directory and a relative file name puts exactly one '/' between directory and file, right after the joined folder's directory prefix |
| SeasonDataset.SideDir | datasets/season_dataset.py:70 | `side_map[side]` succeeds exactly for a known side; otherwise `KeyError(side)` |
| SeasonDataset.RawStem | datasets/season_dataset.py:48-51 | definition of the frame part of the pattern; see `RawStemValue`, `RawStemVsPad4`, `RawStemPrefixOfTenfold` |
| SeasonDataset.RawPattern | datasets/season_dataset.py:48-51 | definition of the glob pattern; see `RawImagePath` |
| SeasonDataset.RawImagePath | datasets/season_dataset.py:47-56 | the result is the first glob match; with no match it is the `UnboundLocalError` of the unbound `image_path`, carrying the pattern the handler prints |
| SeasonDataset.RawStemVsPad4 | datasets/season_dataset.py:48-51 | the one leading '0' is not four-digit padding: the frame text equals `'{:04d}'.format(n)` exactly when `n >= 100` |
| SeasonDataset.RawStemValue | datasets/season_dataset.py:48-51 | the frame text of the pattern is all digits and reads back as the frame number |
| SeasonDataset.RawStemPrefixOfTenfold | datasets/season_dataset.py:48-51 | the frame text is not fixed width: for `1 <= n < 100` or `n >= 1000`, frame `n`'s text is a proper prefix of frame `10n`'s |
| SeasonDataset.RawLookupFirstMatch | datasets/season_dataset.py:52-53 | only the first listed match matters; two listings with the same first path give the same result |
| SeasonDataset.OdomFileName | datasets/season_dataset.py:65 | definition of the six-digit file name; see `OdomFileNameOnly` |
| SeasonDataset.OdomImagePath | datasets/season_dataset.py:64-72 | succeeds exactly when `int(folder)` parses and `side` is known; a bad folder is reported before an unknown side |
| SeasonDataset.OdomTemplate | datasets/season_dataset.py:64-72 | for plain relative parts the path is `<data_path>/sequences/<NN>/image_<side>/<NNNNNN>.png` |
| SeasonDataset.OdomFileNameOnly | datasets/season_dataset.py:65-71 | the last component is the six-digit file name, which depends on the frame number alone and parses back to it |
| SeasonDataset.KittiFileName | datasets/season_dataset.py:81 | definition of the ten-digit file name (also line 90); see `KittiFileNameOnly` |
| SeasonDataset.KittiImagePath | datasets/season_dataset.py:80-87 | succeeds exactly when `side` is known; otherwise `KeyError(side)` |
| SeasonDataset.KittiDepthPath | datasets/season_dataset.py:89-95 | succeeds exactly when `side` is known; otherwise `KeyError(side)` |
| SeasonDataset.KittiImageTemplate | datasets/season_dataset.py:80-87 | for plain relative parts the path is `<data_path>/<folder>/image_0<side>/data/<NNNNNNNNNN><img_ext>` |
| SeasonDataset.DepthPathMirrorsImagePath | datasets/season_dataset.py:80-95 | the depth path differs from the image path only in the directory (`proj_depth/groundtruth/image_0<side>` for `image_0<side>/data`) and the extension (`.png` for `img_ext`) |
| SeasonDataset.KittiFileNameOnly | datasets/season_dataset.py:81-95 | the last component of both paths is the ten-digit frame number and extension, whatever the data path, folder and side |

## Left out

- Tensor values: weights, activations, the sigmoid of the heads and all floating point. Only shapes are modelled.
- The internals of `layers.py` (`ConvBlock`, `Conv3x3`, `upsample`), which is not part of this model. Only the shape contracts above are used. Any size restriction those layers impose on their own is not modelled.
- The batch dimension, dtype and device of tensors. `torch.cat` is modelled as requiring equal height and width.
- `self.decoder`, `self.sigmoid`, `self.relu` and `upsample_mode`. They hold modules or names and declare no widths.
- The `self.outputs` attribute that `forward` writes. `Forward` returns the dictionary instead, keyed by `s` for `("disp", s)`.
- Scales other than integers, and a `range` object as `scales`; scales are a sequence of integers, and the default `range(4)` is `[0, 1, 2, 3]`.
- DecoderForward.ForwardShapes: requires a well-formed decoder rather than one built by `Build`. `BuildWellFormed` shows that every built decoder qualifies.
- DecoderForward.InferenceExample: states membership of keys 3 and 4 only, not the full key set, which `ForwardShapes` gives for every decoder.
- Reading, resizing, scaling and flipping of the depth image in `get_depth`. Only its path is modelled.
- `get_color`, the loader, the intrinsics `K` and `full_res_shape`, and the dataset constructors. The base dataset class is not part of this model, so `data_path`, `side_map` and `img_ext` are configuration fields.
- The file system: `glob.glob` is a function parameter, and its listing order is whatever that function returns.
- The `print` of the unmatched pattern, which is output only; the `UnboundLocalError` value carries that pattern instead.
- `int()` on text with surrounding whitespace, underscores or non-ASCII digits. These are rejected here.
- `'{}'.format` of a `side_map` value: the map holds the value's text directly.
- `test_simple.py` and the HR decoder it instantiates. Only the encoder widths it sets are reused, in `InferenceDecoder`.

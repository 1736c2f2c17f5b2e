/**
 * Image and ground-truth path construction of the dataset variants:
 * SeasonDepth raw images found by a glob pattern, KITTI odometry images and
 * KITTI depth images with their projected ground-truth depth maps.
 *
 * The base dataset class is not part of this model: its `data_path`,
 * `side_map` and `img_ext` members are the fields of `Config`, and the file
 * system lookup `glob.glob` is a function parameter.
 */
module SeasonDataset {
  import opened Wrappers
  import opened Decimal
  import opened Paths

  /**
   * The base-class members the path builders read. `sideMap` maps a camera
   * side key to the text that `'{}'.format` produces for its mapped value.
   */
  datatype Config = Config(dataPath: string, sideMap: map<string, string>, imgExt: string)

  /** The exceptions the path builders can raise. */
  datatype Error =
    | KeyError(side: string)           // `side` is not a key of `side_map`
    | ValueError(folder: string)       // `int(folder)` rejects the folder name
    | UnboundLocalError(pattern: string) // no glob match: `image_path` is unbound; the payload is the pattern the handler prints

  /** `'{}'.format(self.side_map[side])`. */
  function SideDir(cfg: Config, side: string): (r: Result<string, Error>)
    ensures r.Ok? <==> side in cfg.sideMap
    ensures r.Ok? ==> r.value == cfg.sideMap[side]
    ensures r.Err? ==> r.error == KeyError(side)
  {
    if side in cfg.sideMap then Ok(cfg.sideMap[side]) else Err(KeyError(side))
  }

  // ---------------------------------------------------------------------------
  // SeasonDepth raw images

  /** The frame part of the raw-image glob pattern: one '0' in front of frames below 1000. */
  function RawStem(frameIndex: int): string {
    if frameIndex >= 1000 then Str(frameIndex) else "0" + Str(frameIndex)
  }

  /** The glob pattern `SeasonDepthRAWDataset.get_image_path` builds. */
  function RawPattern(folder: string, frameIndex: int): string {
    folder + RawStem(frameIndex) + "*.jpg"
  }

  /**
   * `SeasonDepthRAWDataset.get_image_path`: the first path `glob` lists for
   * the pattern; with no match the printed pattern is all that is left
   * before the unbound `image_path` is returned.
   */
  function RawImagePath(folder: string, frameIndex: int, glob: string -> seq<string>): (r: Result<string, Error>)
    ensures r.Ok? <==> |glob(RawPattern(folder, frameIndex))| > 0
    ensures r.Ok? ==> r.value == glob(RawPattern(folder, frameIndex))[0]
    ensures r.Err? ==> r.error == UnboundLocalError(RawPattern(folder, frameIndex))
  {
    var matches := glob(RawPattern(folder, frameIndex));
    if |matches| > 0 then Ok(matches[0]) else Err(UnboundLocalError(RawPattern(folder, frameIndex)))
  }

  /**
   * The one '0' in front of frames below 1000 is not four-digit zero
   * padding: the stem agrees with `'{:04d}'.format(n)` exactly for frames
   * from 100 on, and is shorter for frames below 100.
   */
  lemma RawStemVsPad4(frameIndex: nat)
    ensures RawStem(frameIndex) == Pad(frameIndex, 4) <==> 100 <= frameIndex
  {
    var d := Digits(frameIndex);
    DigitsLength(frameIndex);
    PadNonNegativeRoundTrip(frameIndex, 4);
    Pow10Order(|d|, 2);
    Pow10Order(|d|, 3);
    Pow10Order(2, |d| - 1);
    Pow10Order(3, |d| - 1);
    if frameIndex >= 1000 {
      PadNarrowWidth(frameIndex, 4);
    } else if frameIndex >= 100 {
      assert |d| == 3;
      assert Zeros(1) == "0";
    } else {
      assert |RawStem(frameIndex)| == |d| + 1 < 4;
    }
  }

  /** For a frame number `n >= 0` the stem is all digits and reads back as `n`. */
  lemma RawStemValue(frameIndex: nat)
    ensures AllDigits(RawStem(frameIndex))
    ensures Value(RawStem(frameIndex)) == frameIndex
  {
    var d := Digits(frameIndex);
    ValueOfDigits(frameIndex);
    if frameIndex < 1000 {
      assert "0" + d == Zeros(1) + d;
      ValueIgnoresLeadingZeros(1, d);
    }
  }

  /**
   * The stem is not a fixed width: below 100 (and from 1000 on), the stem
   * of frame `n` is a proper prefix of the stem of frame `10 * n`, so the
   * `*` of the pattern for `n` also matches names of frame `10 * n`.
   */
  lemma RawStemPrefixOfTenfold(frameIndex: nat)
    requires 1 <= frameIndex < 100 || 1000 <= frameIndex
    ensures |RawStem(frameIndex)| < |RawStem(10 * frameIndex)|
    ensures RawStem(frameIndex) == RawStem(10 * frameIndex)[..|RawStem(frameIndex)|]
  {
    DigitsTimesTen(frameIndex);
    var d := Digits(frameIndex);
    if frameIndex < 100 {
      assert RawStem(10 * frameIndex) == ("0" + d) + "0";
    } else {
      assert RawStem(10 * frameIndex) == d + "0";
    }
  }

  /** The lookup keeps the first match and nothing else: later matches never matter. */
  lemma RawLookupFirstMatch(folder: string, frameIndex: int, glob1: string -> seq<string>, glob2: string -> seq<string>)
    requires |glob1(RawPattern(folder, frameIndex))| > 0 && |glob2(RawPattern(folder, frameIndex))| > 0
    requires glob1(RawPattern(folder, frameIndex))[0] == glob2(RawPattern(folder, frameIndex))[0]
    ensures RawImagePath(folder, frameIndex, glob1) == RawImagePath(folder, frameIndex, glob2)
    ensures RawImagePath(folder, frameIndex, glob1).Ok?
    ensures RawImagePath(folder, frameIndex, glob1).value in glob2(RawPattern(folder, frameIndex))
  {
  }

  // ---------------------------------------------------------------------------
  // KITTI odometry

  /** `"{:06d}{}".format(frame_index, '.png')`. */
  function OdomFileName(frameIndex: int): string {
    Pad(frameIndex, 6) + ".png"
  }

  /**
   * `KITTIOdomDataset.get_image_path`: joins the data path,
   * `sequences/<int(folder) in two digits>`, `image_<side>` and the file name.
   * The arguments are evaluated left to right, so a bad folder name is
   * reported before an unknown side.
   */
  function OdomImagePath(cfg: Config, folder: string, frameIndex: int, side: string): (r: Result<string, Error>)
    ensures r.Ok? <==> ParseInt(folder).Some? && side in cfg.sideMap
    ensures ParseInt(folder).None? ==> r == Err(ValueError(folder))
    ensures ParseInt(folder).Some? && side !in cfg.sideMap ==> r == Err(KeyError(side))
  {
    var fileName := OdomFileName(frameIndex);
    var sequence :- ParseInt(folder).ToResult(ValueError(folder));
    var sideDir :- SideDir(cfg, side);
    Ok(JoinAll(cfg.dataPath, ["sequences/" + Pad(sequence, 2), "image_" + sideDir, fileName]))
  }

  /**
   * With a data path that does not end in '/' and a side text that does not
   * either, the odometry path is the template
   * `<data_path>/sequences/<NN>/image_<side>/<NNNNNN>.png`.
   */
  lemma OdomTemplate(cfg: Config, folder: string, frameIndex: int, side: string)
    requires cfg.dataPath != [] && !EndsWithSep(cfg.dataPath)
    requires ParseInt(folder).Some? && side in cfg.sideMap
    requires !EndsWithSep(cfg.sideMap[side])
    ensures OdomImagePath(cfg, folder, frameIndex, side)
         == Ok(cfg.dataPath + "/" + ("sequences/" + Pad(ParseInt(folder).value, 2))
               + "/" + ("image_" + cfg.sideMap[side]) + "/" + (Pad(frameIndex, 6) + ".png"))
  {
    var seqDir := "sequences/" + Pad(ParseInt(folder).value, 2);
    var sideDir := "image_" + cfg.sideMap[side];
    var fileName := OdomFileName(frameIndex);
    PadAlphabet(frameIndex, 6);
    PadAlphabet(ParseInt(folder).value, 2);
    assert fileName[0] == Pad(frameIndex, 6)[0];
    assert seqDir[|seqDir| - 1] == Pad(ParseInt(folder).value, 2)[|Pad(ParseInt(folder).value, 2)| - 1];
    var p1 := Join(cfg.dataPath, seqDir);
    assert p1 == cfg.dataPath + "/" + seqDir;
    var p2 := Join(p1, sideDir);
    assert p2 == p1 + "/" + sideDir;
    assert Join(p2, fileName) == p2 + "/" + fileName;
    JoinAllThree(cfg.dataPath, seqDir, sideDir, fileName);
    assert OdomImagePath(cfg, folder, frameIndex, side) == Ok(JoinAll(cfg.dataPath, [seqDir, sideDir, fileName]));
  }

  /**
   * The odometry file name depends on the frame number alone: whatever the
   * data path, folder and side, it is the last path component, and it reads
   * back as the frame number.
   */
  lemma OdomFileNameOnly(cfg: Config, folder: string, frameIndex: int, side: string)
    requires OdomImagePath(cfg, folder, frameIndex, side).Ok?
    ensures Basename(OdomImagePath(cfg, folder, frameIndex, side).value) == OdomFileName(frameIndex)
    ensures ParseInt(OdomFileName(frameIndex)[..|OdomFileName(frameIndex)| - 4]) == Some(frameIndex)
  {
    var fileName := OdomFileName(frameIndex);
    PadAlphabet(frameIndex, 6);
    assert '/' !in fileName;
    var seqDir := "sequences/" + Pad(ParseInt(folder).value, 2);
    var sideDir := "image_" + cfg.sideMap[side];
    JoinAllThree(cfg.dataPath, seqDir, sideDir, fileName);
    BasenameOfJoin(Join(Join(cfg.dataPath, seqDir), sideDir), fileName);
    assert fileName[..|fileName| - 4] == Pad(frameIndex, 6);
    PadRoundTrip(frameIndex, 6);
  }

  // ---------------------------------------------------------------------------
  // KITTI depth

  /** `"{:010d}{}".format(frame_index, ext)`. */
  function KittiFileName(frameIndex: int, ext: string): string {
    Pad(frameIndex, 10) + ext
  }

  /** `KITTIDepthDataset.get_image_path`. */
  function KittiImagePath(cfg: Config, folder: string, frameIndex: int, side: string): (r: Result<string, Error>)
    ensures r.Ok? <==> side in cfg.sideMap
    ensures r.Err? ==> r.error == KeyError(side)
  {
    var fileName := KittiFileName(frameIndex, cfg.imgExt);
    var sideDir :- SideDir(cfg, side);
    Ok(JoinAll(cfg.dataPath, [folder, "image_0" + sideDir + "/data", fileName]))
  }

  /** The path part of `KITTIDepthDataset.get_depth`: the projected ground-truth depth map. */
  function KittiDepthPath(cfg: Config, folder: string, frameIndex: int, side: string): (r: Result<string, Error>)
    ensures r.Ok? <==> side in cfg.sideMap
    ensures r.Err? ==> r.error == KeyError(side)
  {
    var fileName := KittiFileName(frameIndex, ".png");
    var sideDir :- SideDir(cfg, side);
    Ok(JoinAll(cfg.dataPath, [folder, "proj_depth/groundtruth/image_0" + sideDir, fileName]))
  }

  /** Text that starts with a padded number is never an absolute component. */
  lemma PaddedIsRelative(frameIndex: int, width: int, ext: string)
    ensures !StartsWithSep(Pad(frameIndex, width) + ext)
  {
    PadAlphabet(frameIndex, width);
    PadNeverTruncates(frameIndex, width);
    assert |Pad(frameIndex, width)| > 0;
  }

  /**
   * The ground-truth path differs from the image path in two places only:
   * the directory after the folder is `proj_depth/groundtruth/image_0<side>`
   * instead of `image_0<side>/data`, and the extension is `.png` instead of
   * the configured image extension.
   */
  lemma DepthPathMirrorsImagePath(cfg: Config, folder: string, frameIndex: int, side: string)
    requires side in cfg.sideMap && !EndsWithSep(cfg.sideMap[side])
    ensures var prefix := DirPrefix(Join(cfg.dataPath, folder));
            var sideDir := cfg.sideMap[side];
            && KittiImagePath(cfg, folder, frameIndex, side)
               == Ok(prefix + ("image_0" + sideDir + "/data") + "/" + (Pad(frameIndex, 10) + cfg.imgExt))
            && KittiDepthPath(cfg, folder, frameIndex, side)
               == Ok(prefix + ("proj_depth/groundtruth/image_0" + sideDir) + "/" + (Pad(frameIndex, 10) + ".png"))
  {
    KittiImageAfterFolder(cfg, folder, frameIndex, side);
    KittiDepthAfterFolder(cfg, folder, frameIndex, side);
  }

  lemma KittiImageAfterFolder(cfg: Config, folder: string, frameIndex: int, side: string)
    requires side in cfg.sideMap
    ensures KittiImagePath(cfg, folder, frameIndex, side)
         == Ok(DirPrefix(Join(cfg.dataPath, folder)) + ("image_0" + cfg.sideMap[side] + "/data") + "/"
               + (Pad(frameIndex, 10) + cfg.imgExt))
  {
    var imageDir := "image_0" + cfg.sideMap[side] + "/data";
    var imageName := KittiFileName(frameIndex, cfg.imgExt);
    PaddedIsRelative(frameIndex, 10, cfg.imgExt);
    assert imageDir[0] == 'i' && imageDir[|imageDir| - 1] == 'a';
    JoinAllDirFile(cfg.dataPath, folder, imageDir, imageName);
    assert KittiImagePath(cfg, folder, frameIndex, side) == Ok(JoinAll(cfg.dataPath, [folder, imageDir, imageName]));
  }

  lemma KittiDepthAfterFolder(cfg: Config, folder: string, frameIndex: int, side: string)
    requires side in cfg.sideMap && !EndsWithSep(cfg.sideMap[side])
    ensures KittiDepthPath(cfg, folder, frameIndex, side)
         == Ok(DirPrefix(Join(cfg.dataPath, folder)) + ("proj_depth/groundtruth/image_0" + cfg.sideMap[side]) + "/"
               + (Pad(frameIndex, 10) + ".png"))
  {
    var depthDir := "proj_depth/groundtruth/image_0" + cfg.sideMap[side];
    var depthName := KittiFileName(frameIndex, ".png");
    PaddedIsRelative(frameIndex, 10, ".png");
    ConcatKeepsEnd("proj_depth/groundtruth/image_0", cfg.sideMap[side]);
    assert depthDir[0] == 'p';
    JoinAllDirFile(cfg.dataPath, folder, depthDir, depthName);
    assert KittiDepthPath(cfg, folder, frameIndex, side) == Ok(JoinAll(cfg.dataPath, [folder, depthDir, depthName]));
  }

  /**
   * With a data path not ending in '/', a folder that neither starts nor ends
   * with '/', and a side text not ending in '/', the image path is the
   * template `<data_path>/<folder>/image_0<side>/data/<NNNNNNNNNN><img_ext>`.
   */
  lemma KittiImageTemplate(cfg: Config, folder: string, frameIndex: int, side: string)
    requires cfg.dataPath != [] && !EndsWithSep(cfg.dataPath)
    requires folder != [] && !StartsWithSep(folder) && !EndsWithSep(folder)
    requires side in cfg.sideMap && !EndsWithSep(cfg.sideMap[side])
    ensures KittiImagePath(cfg, folder, frameIndex, side)
         == Ok(cfg.dataPath + "/" + folder + "/" + ("image_0" + cfg.sideMap[side] + "/data")
               + "/" + (Pad(frameIndex, 10) + cfg.imgExt))
  {
    var imageDir := "image_0" + cfg.sideMap[side] + "/data";
    var imageName := KittiFileName(frameIndex, cfg.imgExt);
    PaddedIsRelative(frameIndex, 10, cfg.imgExt);
    var q := Join(cfg.dataPath, folder);
    assert q == cfg.dataPath + "/" + folder;
    assert Join(q, imageDir) == q + "/" + imageDir;
    assert Join(q + "/" + imageDir, imageName) == q + "/" + imageDir + "/" + imageName;
    JoinAllThree(cfg.dataPath, folder, imageDir, imageName);
    assert KittiImagePath(cfg, folder, frameIndex, side) == Ok(JoinAll(cfg.dataPath, [folder, imageDir, imageName]));
  }

  /**
   * The KITTI file names depend on the frame number and the extension alone:
   * for an extension without '/', the last component of the image path and
   * of the depth path is the padded frame number followed by the extension,
   * whatever the data path, folder and side.
   */
  lemma KittiFileNameOnly(cfg: Config, folder: string, frameIndex: int, side: string)
    requires side in cfg.sideMap && '/' !in cfg.imgExt
    ensures Basename(KittiImagePath(cfg, folder, frameIndex, side).value) == KittiFileName(frameIndex, cfg.imgExt)
    ensures Basename(KittiDepthPath(cfg, folder, frameIndex, side).value) == KittiFileName(frameIndex, ".png")
  {
    var sideDir := cfg.sideMap[side];
    var imageName := KittiFileName(frameIndex, cfg.imgExt);
    var depthName := KittiFileName(frameIndex, ".png");
    PadAlphabet(frameIndex, 10);
    assert '/' !in imageName;
    assert '/' !in depthName;
    var q := Join(cfg.dataPath, folder);
    JoinAllThree(cfg.dataPath, folder, "image_0" + sideDir + "/data", imageName);
    JoinAllThree(cfg.dataPath, folder, "proj_depth/groundtruth/image_0" + sideDir, depthName);
    BasenameOfJoin(Join(q, "image_0" + sideDir + "/data"), imageName);
    BasenameOfJoin(Join(q, "proj_depth/groundtruth/image_0" + sideDir), depthName);
  }
}

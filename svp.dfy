// InterFrame (xvs.py:1125-1262): input validation and the three SVP parameter
// strings handed to svp1.Super, svp1.Analyse and svp2.SmoothFps.  The strings are
// what the source builds by `+=`, written here as a concatenation of the same
// pieces; each piece is a function of the (already lower/upper-cased) options.
// Inside a piece every brace is written LB or RB, so that a parenthesised chain
// such as (LB + "block:" + LB + "w:8,") is the source's literal '{block:{w:8,'
// spelled so the brace-count lemmas below can take it apart.
module Svp {
  import opened Wrappers
  import opened Text

  const Presets: seq<string> := ["medium", "fast", "faster", "fastest"]
  const Tunings: seq<string> := ["film", "smooth", "animation", "weak"]
  const InputTypes: seq<string> := ["2D", "SBS", "OU", "HSBS", "HOU"]

  // ---------------------------------------------------------------- format check

  /** The guard as written: `not sw==1 and not sh==1 and depth not in [8,10]`. */
  predicate FormatRejectedAsWritten(subW: int, subH: int, depth: int)
  {
    subW != 1 && subH != 1 && depth !in {8, 10}
  }

  /** What the error message says the function accepts: yuv420p8 or yuv420p10. */
  predicate Yuv420p8Or10(subW: int, subH: int, depth: int)
  {
    subW == 1 && subH == 1 && depth in {8, 10}
  }

  /** The written guard never rejects a yuv420p8/10 input, but lets through
      4:4:4 8-bit and 4:2:0 16-bit alike: it needs all three tests to fail. */
  lemma FormatCheckGaps(subW: int, subH: int, depth: int)
    ensures Yuv420p8Or10(subW, subH, depth) ==> !FormatRejectedAsWritten(subW, subH, depth)
    ensures FormatRejectedAsWritten(subW, subH, depth) <==>
              !(subW == 1 || subH == 1 || depth in {8, 10})
    ensures !FormatRejectedAsWritten(0, 0, 8) && !Yuv420p8Or10(0, 0, 8)
    ensures !FormatRejectedAsWritten(1, 1, 16) && !Yuv420p8Or10(1, 1, 16)
  {
  }

  // ---------------------------------------------------------------- SuperString

  function SuperString(preset: string, gpu: bool): string
  {
    (if preset in ["fast", "faster", "fastest"] then (LB + "pel:1,") else LB)
    + (if gpu then ("gpu:1" + RB) else ("gpu:0" + RB))
  }

  // ---------------------------------------------------------------- VectorsString

  function VectorsBlock(preset: string, tuning: string, gpu: bool): string
  {
    if tuning == "animation" || preset == "fastest" then (LB + "block:" + LB + "w:32,")
    else if preset in ["fast", "faster"] || !gpu then (LB + "block:" + LB + "w:16,")
    else (LB + "block:" + LB + "w:8,")
  }

  function VectorsOverlap(preset: string, tuning: string, gpu: bool): string
  {
    if tuning == "animation" || preset == "fastest" then "overlap:0"
    else if preset == "faster" && gpu then "overlap:1"
    else "overlap:2"
  }

  function VectorsMain(preset: string, tuning: string): string
  {
    if tuning == "animation" then (RB + ",main:" + LB + "search:" + LB + "coarse:" + LB + "type:2,")
    else if preset == "faster" then (RB + ",main:" + LB + "search:" + LB + "coarse:" + LB)
    else (RB + ",main:" + LB + "search:" + LB + "distance:0,coarse:" + LB)
  }

  function VectorsDistance(tuning: string): string
  {
    if tuning == "animation" then ("distance:-6,satd:false" + RB + ",distance:0,")
    else if tuning == "weak" then "distance:-1,trymany:true,"
    else "distance:-10,"
  }

  /** The closing piece as written. */
  function VectorsBadAsWritten(preset: string, tuning: string): string
  {
    if tuning == "animation" || preset in ["faster", "fastest"] then ("bad:" + LB + "sad:2000" + RB + RB + RB + RB + RB)
    else if tuning == "weak" then ("bad:" + LB + "sad:2000" + RB + RB + RB + RB + ",refine:[" + LB + "thsad:250,search:" + LB + "distance:-1,satd:true" + RB + RB + "]" + RB)
    else ("bad:" + LB + "sad:2000" + RB + RB + RB + RB + ",refine:[" + LB + "thsad:250" + RB + "]" + RB)
  }

  /** The closing piece with one brace fewer for 'animation', whose distance piece
      already closed the coarse block. */
  function VectorsBad(preset: string, tuning: string): string
  {
    if tuning == "animation" then ("bad:" + LB + "sad:2000" + RB + RB + RB + RB)
    else VectorsBadAsWritten(preset, tuning)
  }

  function VectorsHead(preset: string, tuning: string, gpu: bool): string
  {
    VectorsBlock(preset, tuning, gpu) + VectorsOverlap(preset, tuning, gpu)
    + VectorsMain(preset, tuning) + VectorsDistance(tuning)
  }

  function VectorsStringAsWritten(preset: string, tuning: string, gpu: bool): string
  {
    VectorsHead(preset, tuning, gpu) + VectorsBadAsWritten(preset, tuning)
  }

  function VectorsString(preset: string, tuning: string, gpu: bool): string
  {
    VectorsHead(preset, tuning, gpu) + VectorsBad(preset, tuning)
  }

  // ---------------------------------------------------------------- SmoothString

  /** The frame rate asked of SmoothFps: absolute, or a multiple of the input's. */
  datatype Rate = Rate(num: int, den: int, absolute: bool)

  function RateText(r: Rate): string
  {
    (LB + "rate:" + LB + "num:") + Repr(r.num) + ",den:" + Repr(r.den) + (if r.absolute then (",abs:true" + RB + ",") else (",abs:false" + RB + ","))
  }

  /** NewNum/NewDen when given; double for 15, 25 or 30 fps input or FrameDouble; else 60000/1001. */
  function TargetRate(newNum: Option<int>, newDen: int, fps: real, frameDouble: bool): Rate
  {
    if newNum.Some? then Rate(newNum.value, newDen, true)
    else if fps in {15.0, 25.0, 30.0} || frameDouble then Rate(2, 1, false)
    else Rate(60000, 1001, true)
  }

  function SmoothRate(newNum: Option<int>, newDen: int, fps: real, frameDouble: bool): string
  {
    if newNum.Some? then (LB + "rate:" + LB + "num:") + Repr(newNum.value) + ",den:" + Repr(newDen) + (",abs:true" + RB + ",")
    else if fps in {15.0, 25.0, 30.0} || frameDouble then (LB + "rate:" + LB + "num:2,den:1,abs:false" + RB + ",")
    else (LB + "rate:" + LB + "num:60000,den:1001,abs:true" + RB + ",")
  }

  function SmoothGpu(gpu: bool, gpuid: int): string
  {
    if gpu then "gpuid:" + Repr(gpuid) + "," else ""
  }

  function SmoothAlgo(overrideAlgo: Option<int>, tuning: string): string
  {
    if overrideAlgo.Some? then "algo:" + Repr(overrideAlgo.value) + (",mask:" + LB + "cover:80,")
    else if tuning == "animation" then ("algo:2,mask:" + LB)
    else if tuning == "smooth" then ("algo:23,mask:" + LB)
    else ("algo:13,mask:" + LB + "cover:80,")
  }

  function SmoothArea(overrideArea: Option<int>, tuning: string): string
  {
    if overrideArea.Some? then "area:" + Repr(overrideArea.value)
    else if tuning == "smooth" then "area:150"
    else "area:0"
  }

  function SmoothScene(tuning: string): string
  {
    if tuning == "weak" then (",area_sharp:1.2" + RB + ",scene:" + LB + "blend:true,mode:0,limits:" + LB + "blocks:50" + RB + RB + RB)
    else (",area_sharp:1.2" + RB + ",scene:" + LB + "blend:true,mode:0" + RB + RB)
  }

  function SmoothString(newNum: Option<int>, newDen: int, fps: real, frameDouble: bool, gpu: bool, gpuid: int,
                        overrideAlgo: Option<int>, overrideArea: Option<int>, tuning: string): string
  {
    SmoothRate(newNum, newDen, fps, frameDouble) + SmoothGpu(gpu, gpuid)
    + SmoothAlgo(overrideAlgo, tuning) + SmoothArea(overrideArea, tuning) + SmoothScene(tuning)
  }

  // ---------------------------------------------------------------- InterFrame

  /** How the source treats the two views of a stereo input (both get the same strings). */
  datatype Layout = Single | SideBySide(halfWidth: bool) | OverUnder(halfHeight: bool)

  function LayoutOf(inputType: string): Layout
  {
    if inputType == "SBS" then SideBySide(false)
    else if inputType == "OU" then OverUnder(false)
    else if inputType == "HSBS" then SideBySide(true)
    else if inputType == "HOU" then OverUnder(true)
    else Single
  }

  /** The input clip's format, and its frame rate fps_num / fps_den. */
  datatype ClipFormat = ClipFormat(subW: int, subH: int, depth: int, fps: real)

  /** The keyword arguments of InterFrame other than the clip. */
  datatype Options = Options(preset: string, tuning: string, newNum: Option<int>, newDen: int,
                             gpu: bool, gpuid: int, inputType: string,
                             overrideAlgo: Option<int>, overrideArea: Option<int>, frameDouble: bool)

  const DefaultOptions := Options("Medium", "Film", None, 1, true, 0, "2D", None, None, false)

  datatype Plan = Plan(super: string, vectors: string, smooth: string, layout: Layout)

  /** The build as written, with the written Vectors closing piece, or the corrected one. */
  datatype Version = AsWritten | Corrected

  /** What InterFrame does once the format check has passed: lower/upper-case and check the options, then build the strings. */
  function CheckedPlan(clip: ClipFormat, o: Options, v: Version): (res: Result<Plan>)
    ensures res.Ok? == (Lower(o.preset) in Presets && Lower(o.tuning) in Tunings && Upper(o.inputType) in InputTypes)
    ensures Lower(o.preset) !in Presets ==> res == Err(ValueError("InterFrame: '" + Lower(o.preset) + "' is not a valid preset"))
    ensures res.Err? ==> res.error.ValueError?
    ensures res.Ok? ==> res.value.layout == LayoutOf(Upper(o.inputType))
  {
    var preset := Lower(o.preset);
    var tuning := Lower(o.tuning);
    var inputType := Upper(o.inputType);
    if preset !in Presets then
      Err(ValueError("InterFrame: '" + preset + "' is not a valid preset"))
    else if tuning !in Tunings then
      Err(ValueError("InterFrame: '" + tuning + "' is not a valid tuning"))
    else if inputType !in InputTypes then
      Err(ValueError("InterFrame: '" + inputType + "' is not a valid InputType"))
    else
      Ok(Plan(SuperString(preset, o.gpu),
              if v == AsWritten then VectorsStringAsWritten(preset, tuning, o.gpu) else VectorsString(preset, tuning, o.gpu),
              SmoothString(o.newNum, o.newDen, clip.fps, o.frameDouble, o.gpu, o.gpuid,
                           o.overrideAlgo, o.overrideArea, tuning),
              LayoutOf(inputType)))
  }

  /** InterFrame's first argument: a clip of some format, or anything else. */
  datatype Input = Video(format: ClipFormat) | NotAClip

  /** InterFrame as written: the clip check, the `and`-joined format guard and the written Vectors closing piece. */
  function InterFrameAsWritten(input: Input, o: Options): (res: Result<Plan>)
    ensures input.NotAClip? ==> res == Err(TypeError("InterFrame: This is not a clip"))
    ensures input.Video? ==>
              (res == Err(TypeError("InterFrame: input must be yuv420p8 or yuv420p10")))
              == FormatRejectedAsWritten(input.format.subW, input.format.subH, input.format.depth)
    ensures res.Ok? == (input.Video? && !FormatRejectedAsWritten(input.format.subW, input.format.subH, input.format.depth)
                        && Lower(o.preset) in Presets && Lower(o.tuning) in Tunings
                        && Upper(o.inputType) in InputTypes)
    ensures res.Ok? ==> res.value.layout == LayoutOf(Upper(o.inputType))
  {
    match input
    case NotAClip => Err(TypeError("InterFrame: This is not a clip"))
    case Video(clip) =>
      if FormatRejectedAsWritten(clip.subW, clip.subH, clip.depth) then
        Err(TypeError("InterFrame: input must be yuv420p8 or yuv420p10"))
      else
        CheckedPlan(clip, o, AsWritten)
  }

  /** InterFrame corrected: only yuv420p8 and yuv420p10 pass, and the Vectors string nests. */
  function InterFrame(input: Input, o: Options): (res: Result<Plan>)
    ensures input.NotAClip? ==> res == Err(TypeError("InterFrame: This is not a clip"))
    ensures input.Video? ==>
              (res == Err(TypeError("InterFrame: input must be yuv420p8 or yuv420p10")))
              == !Yuv420p8Or10(input.format.subW, input.format.subH, input.format.depth)
    ensures res.Ok? == (input.Video? && Yuv420p8Or10(input.format.subW, input.format.subH, input.format.depth)
                        && Lower(o.preset) in Presets && Lower(o.tuning) in Tunings
                        && Upper(o.inputType) in InputTypes)
    ensures input.Video? && Yuv420p8Or10(input.format.subW, input.format.subH, input.format.depth)
            && Lower(o.preset) !in Presets ==>
              res == Err(ValueError("InterFrame: '" + Lower(o.preset) + "' is not a valid preset"))
    ensures res.Ok? ==> res.value.layout == LayoutOf(Upper(o.inputType))
  {
    match input
    case NotAClip => Err(TypeError("InterFrame: This is not a clip"))
    case Video(clip) =>
      if !Yuv420p8Or10(clip.subW, clip.subH, clip.depth) then
        Err(TypeError("InterFrame: input must be yuv420p8 or yuv420p10"))
      else
        CheckedPlan(clip, o, Corrected)
  }

  /**
   * Where the two versions agree: on every yuv420p8/10 clip unless the tuning is 'animation', and on
   * every clip the written guard rejects. The written guard also lets through clips the corrected
   * one rejects, and on those the written InterFrame goes on to build a plan. Both reject what is not a clip.
   */
  lemma InterFrameVersionsAgree(clip: ClipFormat, o: Options)
    ensures InterFrameAsWritten(NotAClip, o) == InterFrame(NotAClip, o)
    ensures Yuv420p8Or10(clip.subW, clip.subH, clip.depth) && Lower(o.tuning) != "animation" ==>
              InterFrameAsWritten(Video(clip), o) == InterFrame(Video(clip), o)
    ensures FormatRejectedAsWritten(clip.subW, clip.subH, clip.depth) ==> InterFrameAsWritten(Video(clip), o) == InterFrame(Video(clip), o)
    ensures InterFrameAsWritten(Video(clip), o).Ok? && InterFrame(Video(clip), o).Ok? ==>
              InterFrameAsWritten(Video(clip), o).value.super == InterFrame(Video(clip), o).value.super &&
              InterFrameAsWritten(Video(clip), o).value.smooth == InterFrame(Video(clip), o).value.smooth &&
              (InterFrameAsWritten(Video(clip), o).value.vectors == InterFrame(Video(clip), o).value.vectors <==> Lower(o.tuning) != "animation")
  {
    FormatCheckGaps(clip.subW, clip.subH, clip.depth);
    VectorsBalanced(Lower(o.preset), Lower(o.tuning), o.gpu);
    VectorsUnbalancedAsWritten(Lower(o.preset), Lower(o.tuning), o.gpu);
  }

  /** A 4:4:4 8-bit clip and a 4:2:0 16-bit clip get a plan from the written InterFrame, and the TypeError from the corrected one. */
  lemma InterFrameFormatGaps(fps: real)
    ensures InterFrameAsWritten(Video(ClipFormat(0, 0, 8, fps)), DefaultOptions).Ok?
    ensures InterFrameAsWritten(Video(ClipFormat(1, 1, 16, fps)), DefaultOptions).Ok?
    ensures InterFrame(Video(ClipFormat(0, 0, 8, fps)), DefaultOptions) == Err(TypeError("InterFrame: input must be yuv420p8 or yuv420p10"))
    ensures InterFrame(Video(ClipFormat(1, 1, 16, fps)), DefaultOptions) == Err(TypeError("InterFrame: input must be yuv420p8 or yuv420p10"))
  {
    assert Lower("Medium") == "medium";
    assert Lower("Film") == "film";
    assert Upper("2D") == "2D";
  }

  // ---------------------------------------------------------------- brace counts

  lemma SuperBalanced(preset: string, gpu: bool)
    ensures Nested(SuperString(preset, gpu))
  {
    BracesAppend(if preset in ["fast", "faster", "fastest"] then (LB + "pel:1,") else LB,
              if gpu then ("gpu:1" + RB) else ("gpu:0" + RB));
    BracesOfBraces();
    assert Net(LB + "pel:1,") == 1 && Low(LB + "pel:1,") == 0 by {
      BracesOfBraces();
      var c0 := LB;
      var c1 := c0 + "pel:1,"; BracesAppend(c0, "pel:1,"); BracesPlain("pel:1,");
    }
    assert Net("gpu:1" + RB) == -1 && Low("gpu:1" + RB) == -1 by {
      BracesOfBraces();
      var c0 := "gpu:1"; BracesPlain("gpu:1");
      var c1 := c0 + RB; BracesAppend(c0, RB);
    }
    assert Net("gpu:0" + RB) == -1 && Low("gpu:0" + RB) == -1 by {
      BracesOfBraces();
      var c0 := "gpu:0"; BracesPlain("gpu:0");
      var c1 := c0 + RB; BracesAppend(c0, RB);
    }
    NestedByLow(SuperString(preset, gpu));
  }

  lemma VectorsBlockNet(preset: string, tuning: string, gpu: bool)
    ensures Net(VectorsBlock(preset, tuning, gpu)) == 2 && Low(VectorsBlock(preset, tuning, gpu)) == 0
  {
    assert Net(LB + "block:" + LB + "w:32,") == 2 && Low(LB + "block:" + LB + "w:32,") == 0 by {
      BracesOfBraces();
      var c0 := LB;
      var c1 := c0 + "block:"; BracesAppend(c0, "block:"); BracesPlain("block:");
      var c2 := c1 + LB; BracesAppend(c1, LB);
      var c3 := c2 + "w:32,"; BracesAppend(c2, "w:32,"); BracesPlain("w:32,");
    }
    assert Net(LB + "block:" + LB + "w:16,") == 2 && Low(LB + "block:" + LB + "w:16,") == 0 by {
      BracesOfBraces();
      var c0 := LB;
      var c1 := c0 + "block:"; BracesAppend(c0, "block:"); BracesPlain("block:");
      var c2 := c1 + LB; BracesAppend(c1, LB);
      var c3 := c2 + "w:16,"; BracesAppend(c2, "w:16,"); BracesPlain("w:16,");
    }
    assert Net(LB + "block:" + LB + "w:8,") == 2 && Low(LB + "block:" + LB + "w:8,") == 0 by {
      BracesOfBraces();
      var c0 := LB;
      var c1 := c0 + "block:"; BracesAppend(c0, "block:"); BracesPlain("block:");
      var c2 := c1 + LB; BracesAppend(c1, LB);
      var c3 := c2 + "w:8,"; BracesAppend(c2, "w:8,"); BracesPlain("w:8,");
    }
  }

  lemma VectorsMainNet(preset: string, tuning: string)
    ensures Net(VectorsMain(preset, tuning)) == 2 && Low(VectorsMain(preset, tuning)) == -1
  {
    assert Net(RB + ",main:" + LB + "search:" + LB + "coarse:" + LB + "type:2,") == 2 && Low(RB + ",main:" + LB + "search:" + LB + "coarse:" + LB + "type:2,") == -1 by {
      BracesOfBraces();
      var c0 := RB;
      var c1 := c0 + ",main:"; BracesAppend(c0, ",main:"); BracesPlain(",main:");
      var c2 := c1 + LB; BracesAppend(c1, LB);
      var c3 := c2 + "search:"; BracesAppend(c2, "search:"); BracesPlain("search:");
      var c4 := c3 + LB; BracesAppend(c3, LB);
      var c5 := c4 + "coarse:"; BracesAppend(c4, "coarse:"); BracesPlain("coarse:");
      var c6 := c5 + LB; BracesAppend(c5, LB);
      var c7 := c6 + "type:2,"; BracesAppend(c6, "type:2,"); BracesPlain("type:2,");
    }
    assert Net(RB + ",main:" + LB + "search:" + LB + "coarse:" + LB) == 2 && Low(RB + ",main:" + LB + "search:" + LB + "coarse:" + LB) == -1 by {
      BracesOfBraces();
      var c0 := RB;
      var c1 := c0 + ",main:"; BracesAppend(c0, ",main:"); BracesPlain(",main:");
      var c2 := c1 + LB; BracesAppend(c1, LB);
      var c3 := c2 + "search:"; BracesAppend(c2, "search:"); BracesPlain("search:");
      var c4 := c3 + LB; BracesAppend(c3, LB);
      var c5 := c4 + "coarse:"; BracesAppend(c4, "coarse:"); BracesPlain("coarse:");
      var c6 := c5 + LB; BracesAppend(c5, LB);
    }
    assert Net(RB + ",main:" + LB + "search:" + LB + "distance:0,coarse:" + LB) == 2 && Low(RB + ",main:" + LB + "search:" + LB + "distance:0,coarse:" + LB) == -1 by {
      BracesOfBraces();
      var c0 := RB;
      var c1 := c0 + ",main:"; BracesAppend(c0, ",main:"); BracesPlain(",main:");
      var c2 := c1 + LB; BracesAppend(c1, LB);
      var c3 := c2 + "search:"; BracesAppend(c2, "search:"); BracesPlain("search:");
      var c4 := c3 + LB; BracesAppend(c3, LB);
      var c5 := c4 + "distance:0,coarse:"; BracesAppend(c4, "distance:0,coarse:"); BracesPlain("distance:0,coarse:");
      var c6 := c5 + LB; BracesAppend(c5, LB);
    }
  }

  lemma VectorsDistanceNet(tuning: string)
    ensures Net(VectorsDistance(tuning)) == Low(VectorsDistance(tuning)) == if tuning == "animation" then -1 else 0
  {
    assert Net("distance:-6,satd:false" + RB + ",distance:0,") == -1 && Low("distance:-6,satd:false" + RB + ",distance:0,") == -1 by {
      BracesOfBraces();
      var c0 := "distance:-6,satd:false"; BracesPlain("distance:-6,satd:false");
      var c1 := c0 + RB; BracesAppend(c0, RB);
      var c2 := c1 + ",distance:0,"; BracesAppend(c1, ",distance:0,"); BracesPlain(",distance:0,");
    }
    BracesPlain("distance:-1,trymany:true,");
    BracesPlain("distance:-10,");
  }

  lemma VectorsHeadNet(preset: string, tuning: string, gpu: bool)
    ensures Net(VectorsHead(preset, tuning, gpu)) == (if tuning == "animation" then 3 else 4)
    ensures Low(VectorsHead(preset, tuning, gpu)) == 0
  {
    var b, o, m, d := VectorsBlock(preset, tuning, gpu), VectorsOverlap(preset, tuning, gpu),
                      VectorsMain(preset, tuning), VectorsDistance(tuning);
    BracesAppend(b, o); BracesAppend(b + o, m); BracesAppend(b + o + m, d);
    VectorsBlockNet(preset, tuning, gpu);
    BracesPlain("overlap:0"); BracesPlain("overlap:1"); BracesPlain("overlap:2");
    VectorsMainNet(preset, tuning);
    VectorsDistanceNet(tuning);
  }

  /** `bad:{sad:2000}}}}`: the shared start of every closing piece. */
  lemma BadHeadNet()
    ensures Net("bad:" + LB + "sad:2000" + RB + RB + RB + RB) == -3
    ensures Low("bad:" + LB + "sad:2000" + RB + RB + RB + RB) == -3
  {
    BracesOfBraces();
    var c0 := "bad:"; BracesPlain("bad:");
    var c1 := c0 + LB; BracesAppend(c0, LB);
    var c2 := c1 + "sad:2000"; BracesAppend(c1, "sad:2000"); BracesPlain("sad:2000");
    var c3 := c2 + RB; BracesAppend(c2, RB);
    var c4 := c3 + RB; BracesAppend(c3, RB);
    var c5 := c4 + RB; BracesAppend(c4, RB);
    var c6 := c5 + RB; BracesAppend(c5, RB);
  }

  lemma BadShortNet()
    ensures Net("bad:" + LB + "sad:2000" + RB + RB + RB + RB + RB) == -4
    ensures Low("bad:" + LB + "sad:2000" + RB + RB + RB + RB + RB) == -4
  {
    var h := "bad:" + LB + "sad:2000" + RB + RB + RB + RB;
    BadHeadNet(); BracesOfBraces();
    BracesAppend(h, RB);
  }

  /** `,refine:[{thsad:250,search:{distance:-1,satd:true}}]}` after the shared start. */
  lemma BadWeakNet()
    ensures Net("bad:" + LB + "sad:2000" + RB + RB + RB + RB + ",refine:[" + LB + "thsad:250,search:" + LB + "distance:-1,satd:true" + RB + RB + "]" + RB) == -4
    ensures Low("bad:" + LB + "sad:2000" + RB + RB + RB + RB + ",refine:[" + LB + "thsad:250,search:" + LB + "distance:-1,satd:true" + RB + RB + "]" + RB) == -4
  {
    var h := "bad:" + LB + "sad:2000" + RB + RB + RB + RB;
    BadHeadNet(); BracesOfBraces();
    var c7 := h + ",refine:["; BracesAppend(h, ",refine:["); BracesPlain(",refine:[");
    var c8 := c7 + LB; BracesAppend(c7, LB);
    var c9 := c8 + "thsad:250,search:"; BracesAppend(c8, "thsad:250,search:"); BracesPlain("thsad:250,search:");
    var c10 := c9 + LB; BracesAppend(c9, LB);
    var c11 := c10 + "distance:-1,satd:true"; BracesAppend(c10, "distance:-1,satd:true"); BracesPlain("distance:-1,satd:true");
    var c12 := c11 + RB; BracesAppend(c11, RB);
    var c13 := c12 + RB; BracesAppend(c12, RB);
    var c14 := c13 + "]"; BracesAppend(c13, "]"); BracesPlain("]");
    var c15 := c14 + RB; BracesAppend(c14, RB);
  }

  /** `,refine:[{thsad:250}]}` after the shared start. */
  lemma BadFilmNet()
    ensures Net("bad:" + LB + "sad:2000" + RB + RB + RB + RB + ",refine:[" + LB + "thsad:250" + RB + "]" + RB) == -4
    ensures Low("bad:" + LB + "sad:2000" + RB + RB + RB + RB + ",refine:[" + LB + "thsad:250" + RB + "]" + RB) == -4
  {
    var h := "bad:" + LB + "sad:2000" + RB + RB + RB + RB;
    BadHeadNet(); BracesOfBraces();
    var c7 := h + ",refine:["; BracesAppend(h, ",refine:["); BracesPlain(",refine:[");
    var c8 := c7 + LB; BracesAppend(c7, LB);
    var c9 := c8 + "thsad:250"; BracesAppend(c8, "thsad:250"); BracesPlain("thsad:250");
    var c10 := c9 + RB; BracesAppend(c9, RB);
    var c11 := c10 + "]"; BracesAppend(c10, "]"); BracesPlain("]");
    var c12 := c11 + RB; BracesAppend(c11, RB);
  }

  lemma VectorsBadNet(preset: string, tuning: string)
    ensures Net(VectorsBadAsWritten(preset, tuning)) == Low(VectorsBadAsWritten(preset, tuning)) == -4
    ensures Net(VectorsBad(preset, tuning)) == Low(VectorsBad(preset, tuning)) == if tuning == "animation" then -3 else -4
  {
    BadHeadNet();
    BadShortNet();
    BadWeakNet();
    BadFilmNet();
  }

  /** As written, the 'animation' vectors string closes one brace more than it opens;
      every other combination of options nests its braces. */
  lemma VectorsUnbalancedAsWritten(preset: string, tuning: string, gpu: bool)
    ensures Net(VectorsStringAsWritten(preset, tuning, gpu)) == if tuning == "animation" then -1 else 0
    ensures Nested(VectorsStringAsWritten(preset, tuning, gpu)) <==> tuning != "animation"
  {
    VectorsHeadNet(preset, tuning, gpu);
    VectorsBadNet(preset, tuning);
    BracesAppend(VectorsHead(preset, tuning, gpu), VectorsBadAsWritten(preset, tuning));
    NestedByLow(VectorsStringAsWritten(preset, tuning, gpu));
  }

  /** With the shorter closing piece every combination of options nests its braces, and
      only the 'animation' strings differ from the written ones. */
  lemma VectorsBalanced(preset: string, tuning: string, gpu: bool)
    ensures Nested(VectorsString(preset, tuning, gpu))
    ensures tuning != "animation" ==> VectorsString(preset, tuning, gpu) == VectorsStringAsWritten(preset, tuning, gpu)
  {
    VectorsHeadNet(preset, tuning, gpu);
    VectorsBadNet(preset, tuning);
    BracesAppend(VectorsHead(preset, tuning, gpu), VectorsBad(preset, tuning));
    NestedByLow(VectorsString(preset, tuning, gpu));
  }

  lemma RateOpenNet()
    ensures Net(LB + "rate:" + LB + "num:") == 2 && Low(LB + "rate:" + LB + "num:") == 0
  {
    BracesOfBraces();
    var c0 := LB;
    var c1 := c0 + "rate:"; BracesAppend(c0, "rate:"); BracesPlain("rate:");
    var c2 := c1 + LB; BracesAppend(c1, LB);
    var c3 := c2 + "num:"; BracesAppend(c2, "num:"); BracesPlain("num:");
  }

  lemma RateCloseNet(flag: string)
    requires flag == ",abs:true" || flag == ",abs:false"
    ensures Net(flag + RB + ",") == -1 && Low(flag + RB + ",") == -1
  {
    BracesOfBraces();
    BracesPlain(flag);
    var c1 := flag + RB; BracesAppend(flag, RB);
    BracesAppend(c1, ","); BracesPlain(",");
  }

  lemma RateTextNet(r: Rate)
    ensures Net(RateText(r)) == 1 && Low(RateText(r)) == 0
  {
    RateOpenNet();
    RateCloseNet(",abs:true");
    RateCloseNet(",abs:false");
    var a, b, c, d, e := (LB + "rate:" + LB + "num:"), Repr(r.num), ",den:", Repr(r.den),
                          if r.absolute then (",abs:true" + RB + ",") else (",abs:false" + RB + ",");
    BracesAppend(a, b); BracesAppend(a + b, c); BracesAppend(a + b + c, d); BracesAppend(a + b + c + d, e);
    ReprPlain(r.num); BracesPlain(b); BracesPlain(c); ReprPlain(r.den); BracesPlain(d);
  }

  lemma SmoothRateNet(newNum: Option<int>, newDen: int, fps: real, frameDouble: bool)
    ensures Net(SmoothRate(newNum, newDen, fps, frameDouble)) == 1 && Low(SmoothRate(newNum, newDen, fps, frameDouble)) == 0
  {
    SmoothRateMeaning(newNum, newDen, fps, frameDouble);
    RateTextNet(TargetRate(newNum, newDen, fps, frameDouble));
  }

  lemma SmoothAlgoNet(overrideAlgo: Option<int>, tuning: string)
    ensures Net(SmoothAlgo(overrideAlgo, tuning)) == 1 && Low(SmoothAlgo(overrideAlgo, tuning)) == 0
  {
    assert Net(",mask:" + LB + "cover:80,") == 1 && Low(",mask:" + LB + "cover:80,") == 0 by {
      BracesOfBraces();
      var c0 := ",mask:"; BracesPlain(",mask:");
      var c1 := c0 + LB; BracesAppend(c0, LB);
      var c2 := c1 + "cover:80,"; BracesAppend(c1, "cover:80,"); BracesPlain("cover:80,");
    }
    assert Net("algo:2,mask:" + LB) == 1 && Low("algo:2,mask:" + LB) == 0 by {
      BracesOfBraces();
      var c0 := "algo:2,mask:"; BracesPlain("algo:2,mask:");
      var c1 := c0 + LB; BracesAppend(c0, LB);
    }
    assert Net("algo:23,mask:" + LB) == 1 && Low("algo:23,mask:" + LB) == 0 by {
      BracesOfBraces();
      var c0 := "algo:23,mask:"; BracesPlain("algo:23,mask:");
      var c1 := c0 + LB; BracesAppend(c0, LB);
    }
    assert Net("algo:13,mask:" + LB + "cover:80,") == 1 && Low("algo:13,mask:" + LB + "cover:80,") == 0 by {
      BracesOfBraces();
      var c0 := "algo:13,mask:"; BracesPlain("algo:13,mask:");
      var c1 := c0 + LB; BracesAppend(c0, LB);
      var c2 := c1 + "cover:80,"; BracesAppend(c1, "cover:80,"); BracesPlain("cover:80,");
    }
    if overrideAlgo.Some? {
      var t := Repr(overrideAlgo.value);
      ReprPlain(overrideAlgo.value);
      BracesPlain(t);
      BracesPlain("algo:");
      BracesAppend("algo:", t);
      BracesAppend("algo:" + t, (",mask:" + LB + "cover:80,"));
    }
  }

  /** `,area_sharp:1.2},scene:{`: the shared start of both scene pieces. */
  lemma SceneHeadNet()
    ensures Net(",area_sharp:1.2" + RB + ",scene:" + LB) == 0 && Low(",area_sharp:1.2" + RB + ",scene:" + LB) == -1
  {
    BracesOfBraces();
    var c0 := ",area_sharp:1.2"; BracesPlain(",area_sharp:1.2");
    var c1 := c0 + RB; BracesAppend(c0, RB);
    var c2 := c1 + ",scene:"; BracesAppend(c1, ",scene:"); BracesPlain(",scene:");
    var c3 := c2 + LB; BracesAppend(c2, LB);
  }

  lemma SceneWeakNet()
    ensures Net(",area_sharp:1.2" + RB + ",scene:" + LB + "blend:true,mode:0,limits:" + LB + "blocks:50" + RB + RB + RB) == -2
    ensures Low(",area_sharp:1.2" + RB + ",scene:" + LB + "blend:true,mode:0,limits:" + LB + "blocks:50" + RB + RB + RB) == -2
  {
    var c3 := ",area_sharp:1.2" + RB + ",scene:" + LB;
    SceneHeadNet(); BracesOfBraces();
    var c4 := c3 + "blend:true,mode:0,limits:"; BracesAppend(c3, "blend:true,mode:0,limits:"); BracesPlain("blend:true,mode:0,limits:");
    var c5 := c4 + LB; BracesAppend(c4, LB);
    var c6 := c5 + "blocks:50"; BracesAppend(c5, "blocks:50"); BracesPlain("blocks:50");
    var c7 := c6 + RB; BracesAppend(c6, RB);
    var c8 := c7 + RB; BracesAppend(c7, RB);
    var c9 := c8 + RB; BracesAppend(c8, RB);
  }

  lemma ScenePlainNet()
    ensures Net(",area_sharp:1.2" + RB + ",scene:" + LB + "blend:true,mode:0" + RB + RB) == -2
    ensures Low(",area_sharp:1.2" + RB + ",scene:" + LB + "blend:true,mode:0" + RB + RB) == -2
  {
    var c3 := ",area_sharp:1.2" + RB + ",scene:" + LB;
    SceneHeadNet(); BracesOfBraces();
    var c4 := c3 + "blend:true,mode:0"; BracesAppend(c3, "blend:true,mode:0"); BracesPlain("blend:true,mode:0");
    var c5 := c4 + RB; BracesAppend(c4, RB);
    var c6 := c5 + RB; BracesAppend(c5, RB);
  }

  lemma SmoothSceneNet(tuning: string)
    ensures Net(SmoothScene(tuning)) == Low(SmoothScene(tuning)) == -2
  {
    SceneWeakNet();
    ScenePlainNet();
  }

  lemma SmoothGpuNet(gpu: bool, gpuid: int)
    ensures Net(SmoothGpu(gpu, gpuid)) == Low(SmoothGpu(gpu, gpuid)) == 0
  {
    ReprPlain(gpuid);
    BracesPlain(SmoothGpu(gpu, gpuid));
  }

  lemma SmoothAreaNet(overrideArea: Option<int>, tuning: string)
    ensures Net(SmoothArea(overrideArea, tuning)) == Low(SmoothArea(overrideArea, tuning)) == 0
  {
    if overrideArea.Some? {
      ReprPlain(overrideArea.value);
    }
    BracesPlain(SmoothArea(overrideArea, tuning));
  }

  lemma SmoothBalanced(newNum: Option<int>, newDen: int, fps: real, frameDouble: bool, gpu: bool, gpuid: int,
                       overrideAlgo: Option<int>, overrideArea: Option<int>, tuning: string)
    ensures Nested(SmoothString(newNum, newDen, fps, frameDouble, gpu, gpuid, overrideAlgo, overrideArea, tuning))
  {
    var r, g, a, ar, s := SmoothRate(newNum, newDen, fps, frameDouble), SmoothGpu(gpu, gpuid),
                          SmoothAlgo(overrideAlgo, tuning), SmoothArea(overrideArea, tuning), SmoothScene(tuning);
    BracesAppend(r, g); BracesAppend(r + g, a); BracesAppend(r + g + a, ar); BracesAppend(r + g + a + ar, s);
    SmoothRateNet(newNum, newDen, fps, frameDouble);
    SmoothGpuNet(gpu, gpuid);
    SmoothAlgoNet(overrideAlgo, tuning);
    SmoothAreaNet(overrideArea, tuning);
    SmoothSceneNet(tuning);
    NestedByLow(SmoothString(newNum, newDen, fps, frameDouble, gpu, gpuid, overrideAlgo, overrideArea, tuning));
  }

  /** Whatever the options, the three strings the corrected InterFrame hands on nest their braces. */
  lemma InterFrameBalanced(input: Input, o: Options)
    requires InterFrame(input, o).Ok?
    ensures Nested(InterFrame(input, o).value.super)
    ensures Nested(InterFrame(input, o).value.vectors)
    ensures Nested(InterFrame(input, o).value.smooth)
  {
    var tuning := Lower(o.tuning);
    SuperBalanced(Lower(o.preset), o.gpu);
    VectorsBalanced(Lower(o.preset), tuning, o.gpu);
    SmoothBalanced(o.newNum, o.newDen, input.format.fps, o.frameDouble, o.gpu, o.gpuid, o.overrideAlgo, o.overrideArea, tuning);
  }

  /** As written, the Super and SmoothFps strings nest their braces, and the Vectors string does
      exactly when the tuning is not 'animation'. */
  lemma InterFrameBalancedAsWritten(input: Input, o: Options)
    requires InterFrameAsWritten(input, o).Ok?
    ensures Nested(InterFrameAsWritten(input, o).value.super)
    ensures Nested(InterFrameAsWritten(input, o).value.vectors) <==> Lower(o.tuning) != "animation"
    ensures Nested(InterFrameAsWritten(input, o).value.smooth)
  {
    var tuning := Lower(o.tuning);
    SuperBalanced(Lower(o.preset), o.gpu);
    VectorsUnbalancedAsWritten(Lower(o.preset), tuning, o.gpu);
    SmoothBalanced(o.newNum, o.newDen, input.format.fps, o.frameDouble, o.gpu, o.gpuid, o.overrideAlgo, o.overrideArea, tuning);
  }

  // ---------------------------------------------------------------- meaning

  lemma RateTextDouble()
    ensures RateText(Rate(2, 1, false)) == (LB + "rate:" + LB + "num:2,den:1,abs:false" + RB + ",")
  {
    assert Repr(1) == "1" && Repr(2) == "2";
    assert "num:2,den:1,abs:false" == "num:" + "2" + ",den:" + "1" + ",abs:false";
  }

  lemma ReprDefaultRate()
    ensures Repr(60000) == "60000" && Repr(1001) == "1001"
  {
    assert Digits(6) == "6";
    assert Digits(60) == Digits(6) + "0";
    assert Digits(600) == Digits(60) + "0";
    assert Digits(6000) == Digits(600) + "0";
    assert Digits(1) == "1";
    assert Digits(10) == Digits(1) + "0";
    assert Digits(100) == Digits(10) + "0";
  }

  /** The rate record with its two numbers already written out. */
  lemma RateJoin(n: string, d: string)
    requires n == "60000" && d == "1001"
    ensures (LB + "rate:" + LB + "num:") + n + ",den:" + d + (",abs:true" + RB + ",")
            == (LB + "rate:" + LB + "num:60000,den:1001,abs:true" + RB + ",")
  {
    assert "num:60000,den:1001,abs:true" == "num:" + n + ",den:" + d + ",abs:true";
  }

  lemma RateTextDefault()
    ensures RateText(Rate(60000, 1001, true)) == (LB + "rate:" + LB + "num:60000,den:1001,abs:true" + RB + ",")
  {
    ReprDefaultRate();
    RateJoin(Repr(60000), Repr(1001));
  }

  /** Each of the three rate pieces is the same `{rate:{num,den,abs}}` record, so
      the rate SmoothFps is asked for reads back as TargetRate. */
  lemma SmoothRateMeaning(newNum: Option<int>, newDen: int, fps: real, frameDouble: bool)
    ensures SmoothRate(newNum, newDen, fps, frameDouble) == RateText(TargetRate(newNum, newDen, fps, frameDouble))
  {
    RateTextDouble();
    RateTextDefault();
  }

  /** Options are matched after lower-casing (upper-casing for InputType): spelling
      them in any case gives the same plan. */
  lemma InterFrameCaseInsensitive(input: Input, o: Options)
    ensures InterFrame(input, o.(preset := Lower(o.preset), tuning := Lower(o.tuning), inputType := Upper(o.inputType)))
            == InterFrame(input, o)
  {
    LowerNormalises(o.preset);
    LowerNormalises(o.tuning);
    UpperNormalises(o.inputType);
  }

  /** The defaults on a 23.976 fps yuv420p8 clip: medium preset, film tuning, one view. */
  lemma InterFrameDefaults()
    ensures InterFrame(Video(ClipFormat(1, 1, 8, 24000.0 / 1001.0)), DefaultOptions)
            == Ok(Plan(SuperString("medium", true), VectorsString("medium", "film", true),
                       SmoothString(None, 1, 24000.0 / 1001.0, false, true, 0, None, None, "film"), Single))
    ensures SuperString("medium", true) == (LB + "gpu:1" + RB)
    ensures TargetRate(None, 1, 24000.0 / 1001.0, false) == Rate(60000, 1001, true)
  {
    assert Lower("Medium") == "medium";
    assert Lower("Film") == "film";
    assert Upper("2D") == "2D";
  }
}


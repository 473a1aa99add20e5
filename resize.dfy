// Resolution-dependent matrix choice (textsub._m, dpidDown.M), the subsampling
// table getCSS, and dpidDown's argument normalisation and output-format choice
// (xvs.py:673-679, 1264-1360, 2227-2239).
module Resize {
  import opened Wrappers
  import opened Text

  // ---------------------------------------------------------------- matrix by resolution

  /** 0 for SD (at most 1024x576), 1 for HD (at most 2048x1536), 2 above. */
  function Tier(w: int, h: int): (t: nat)
    ensures t <= 2
    ensures t == 0 <==> w <= 1024 && h <= 576
    ensures t == 1 <==> !(w <= 1024 && h <= 576) && w <= 2048 && h <= 1536
  {
    if w <= 1024 && h <= 576 then 0 else if w <= 2048 && h <= 1536 then 1 else 2
  }

  /** A frame no larger in either direction never lands in a higher tier, so neither table gives it
      a newer standard than the larger frame gets. */
  lemma TierMonotone(w: int, h: int, w': int, h': int)
    requires w <= w' && h <= h'
    ensures Tier(w, h) <= Tier(w', h')
    ensures TextsubMatrix(w', h') == "601" ==> TextsubMatrix(w, h) == "601"
    ensures TextsubMatrix(w, h) == "2020" ==> TextsubMatrix(w', h') == "2020"
    ensures DpidMatrix(w', h') == "170m" ==> DpidMatrix(w, h) == "170m"
    ensures DpidMatrix(w, h) == "2020ncl" ==> DpidMatrix(w', h') == "2020ncl"
  {
  }

  /** textsub's `_m`: the matrix name handed to the subtitle renderer. */
  function TextsubMatrix(w: int, h: int): (m: string)
    ensures m == ["601", "709", "2020"][Tier(w, h)]
  {
    if w <= 1024 && h <= 576 then "601"
    else if w <= 2048 && h <= 1536 then "709"
    else "2020"
  }

  /** dpidDown's `M`: the output matrix when none is given, from the target size. */
  function DpidMatrix(w: int, h: int): (m: string)
    ensures m == ["170m", "709", "2020ncl"][Tier(w, h)]
  {
    if w <= 1024 && h <= 576 then "170m"
    else if w <= 2048 && h <= 1536 then "709"
    else "2020ncl"
  }

  /** The two tables pick the same standard at every size: BT.601 is SMPTE 170M,
      and BT.2020 is used in its non-constant-luminance form. */
  lemma MatricesAgree(w: int, h: int)
    ensures TextsubMatrix(w, h) == "601" <==> DpidMatrix(w, h) == "170m"
    ensures TextsubMatrix(w, h) == "709" <==> DpidMatrix(w, h) == "709"
    ensures TextsubMatrix(w, h) == "2020" <==> DpidMatrix(w, h) == "2020ncl"
  {
  }

  // ---------------------------------------------------------------- getCSS

  /** (subsampling_w, subsampling_h) to the usual J:a:b name. */
  const CssNames: map<(int, int), string> :=
    map[(1, 1) := "420", (1, 0) := "422", (0, 0) := "444", (2, 2) := "410", (2, 0) := "411", (0, 1) := "440"]

  function GetCss(w: int, h: int): (r: Result<string>)
    ensures r.Ok? <==> (w, h) in CssNames
    ensures r.Ok? ==> r.value == CssNames[(w, h)]
    ensures r.Err? ==> r.error == ValueError("Unknown subsampling")
  {
    if (w, h) in CssNames then Ok(CssNames[(w, h)]) else Err(ValueError("Unknown subsampling"))
  }

  /** No two subsamplings share a name. */
  lemma GetCssInjective(w: int, h: int, w': int, h': int)
    requires GetCss(w, h).Ok? && GetCss(w', h').Ok?
    requires GetCss(w, h).value == GetCss(w', h').value
    ensures w == w' && h == h'
  {
  }

  // ---------------------------------------------------------------- dpidDown: css

  /** dpidDown's aliases, applied to the lower-cased text of `css`, as written:
      4:1:0 becomes "42", which reads back as subsampling (2, 1). */
  function CssAliasAsWritten(css: string): string
  {
    if css == "444" || css == "4:4:4" then "11"
    else if css == "440" || css == "4:4:0" then "12"
    else if css == "422" || css == "4:2:2" then "21"
    else if css == "420" || css == "4:2:0" then "22"
    else if css == "411" || css == "4:1:1" then "41"
    else if css == "410" || css == "4:1:0" then "42"
    else css
  }

  const CssCodesAsWritten: seq<string> := ["11", "12", "21", "22", "41", "42", "rgb"]

  /** The aliases with 4:1:0 read as getCSS names it, quartered in both directions (VapourSynth's
      YUV410). The alias table otherwise reads J:a:b as horizontal and vertical factors, under which
      4:1:0 is (2, 1): the two readings disagree, and this one follows getCSS. The code "42" stays
      accepted. */
  function CssAlias(css: string): string
  {
    if css == "410" || css == "4:1:0" then "44" else CssAliasAsWritten(css)
  }

  const CssCodes: seq<string> := ["11", "12", "21", "22", "41", "42", "44", "rgb"]

  /** `css=str(css).lower()`, the aliases, then the membership check, as written. */
  function NormaliseCssAsWritten(css: Option<string>): (r: Result<Option<string>>)
    ensures css.None? ==> r == Ok(None)
    ensures css.Some? ==> (r.Ok? <==> CssAliasAsWritten(Lower(css.value)) in CssCodesAsWritten)
    ensures r.Ok? && css.Some? ==> r.value == Some(CssAliasAsWritten(Lower(css.value)))
    ensures r.Err? ==> r.error == ValueError("")
  {
    match css
    case None => Ok(None)
    case Some(c) =>
      var code := CssAliasAsWritten(Lower(c));
      if code !in CssCodesAsWritten then Err(ValueError("")) else Ok(Some(code))
  }

  /** The same with the corrected 4:1:0 alias. */
  function NormaliseCss(css: Option<string>): (r: Result<Option<string>>)
    ensures css.None? ==> r == Ok(None)
    ensures css.Some? ==> (r.Ok? <==> CssAlias(Lower(css.value)) in CssCodes)
    ensures r.Ok? && css.Some? ==> r.value == Some(CssAlias(Lower(css.value)))
    ensures r.Err? ==> r.error == ValueError("")
  {
    match css
    case None => Ok(None)
    case Some(c) =>
      var code := CssAlias(Lower(c));
      if code !in CssCodes then Err(ValueError("")) else Ok(Some(code))
  }

  /** A normalised code is "rgb" or two digits. */
  predicate CodeShape(css: Option<string>)
  {
    css.Some? ==> css.value == "rgb" || |css.value| == 2
  }

  lemma NormalisedShape(css: Option<string>)
    ensures NormaliseCss(css).Ok? ==> CodeShape(NormaliseCss(css).value)
    ensures NormaliseCssAsWritten(css).Ok? ==> CodeShape(NormaliseCssAsWritten(css).value)
  {
  }

  function DigitValue(c: char): int
  {
    c as int - '0' as int
  }

  /** The two digits become `int(css[0])//2` and `int(css[1])//2`, which reach
      register_format as subsampling_w and subsampling_h. */
  function CodeSubsampling(code: string): (int, int)
    requires |code| == 2
  {
    (DigitValue(code[0]) / 2, DigitValue(code[1]) / 2)
  }

  /** Each name getCSS can give, normalised. */
  lemma Css444()
    ensures NormaliseCss(Some("444")) == Ok(Some("11"))
    ensures CodeSubsampling("11") == (0, 0)
  {
    assert Lower("444") == "444";
  }

  lemma Css440()
    ensures NormaliseCss(Some("440")) == Ok(Some("12"))
    ensures CodeSubsampling("12") == (0, 1)
  {
    assert Lower("440") == "440";
  }

  lemma Css422()
    ensures NormaliseCss(Some("422")) == Ok(Some("21"))
    ensures CodeSubsampling("21") == (1, 0)
  {
    assert Lower("422") == "422";
  }

  lemma Css420()
    ensures NormaliseCss(Some("420")) == Ok(Some("22"))
    ensures CodeSubsampling("22") == (1, 1)
  {
    assert Lower("420") == "420";
  }

  lemma Css411()
    ensures NormaliseCss(Some("411")) == Ok(Some("41"))
    ensures CodeSubsampling("41") == (2, 0)
  {
    assert Lower("411") == "411";
  }

  lemma Css410()
    ensures NormaliseCss(Some("410")) == Ok(Some("44"))
    ensures CodeSubsampling("44") == (2, 2)
  {
    assert Lower("410") == "410";
  }

  /** Whatever getCSS names, dpidDown reads back as the same subsampling. */
  lemma CssRoundTrip(w: int, h: int)
    requires GetCss(w, h).Ok?
    ensures NormaliseCss(Some(GetCss(w, h).value)).Ok?
    ensures var code := NormaliseCss(Some(GetCss(w, h).value)).value.value;
            |code| == 2 && CodeSubsampling(code) == (w, h)
  {
    if (w, h) == (1, 1) { assert CssNames[(w, h)] == "420"; Css420(); }
    else if (w, h) == (1, 0) { assert CssNames[(w, h)] == "422"; Css422(); }
    else if (w, h) == (0, 0) { assert CssNames[(w, h)] == "444"; Css444(); }
    else if (w, h) == (2, 2) { assert CssNames[(w, h)] == "410"; Css410(); }
    else if (w, h) == (2, 0) { assert CssNames[(w, h)] == "411"; Css411(); }
    else { assert CssNames[(w, h)] == "440"; Css440(); }
  }

  /** As written, the name getCSS gives subsampling (2, 2) reads back as (2, 1). */
  lemma CssRoundTripFailsAsWritten()
    ensures GetCss(2, 2) == Ok("410")
    ensures NormaliseCssAsWritten(Some("410")) == Ok(Some("42"))
    ensures CodeSubsampling("42") == (2, 1)
  {
    assert Lower("410") == "410";
  }

  lemma CssColon()
    ensures NormaliseCss(Some("4:2:0")) == Ok(Some("22"))
  {
    assert Lower("4:2:0") == "4:2:0";
  }

  lemma CssRgb()
    ensures NormaliseCss(Some("RGB")) == Ok(Some("rgb"))
  {
    assert Lower("RGB") == "rgb";
  }

  lemma CssUnknown()
    ensures NormaliseCss(Some("yuv")).Err?
  {
    assert Lower("yuv") == "yuv";
  }

  /** The six subsamplings dpidDown knows by name, as bare digits. */
  const CssDigitNames: seq<string> := ["444", "440", "422", "420", "411", "410"]

  /** `"4:a:b"` for the digits `"4ab"`. */
  function ColonSpelling(d: string): (r: string)
    requires |d| == 3
    ensures |r| == 5 && r[0] == d[0] && r[2] == d[1] && r[4] == d[2] && r[1] == r[3] == ':'
  {
    [d[0], ':', d[1], ':', d[2]]
  }

  /** Every lower-case text dpidDown accepts: the codes themselves and both spellings of each name. */
  const CssAccepted: seq<string> := CssCodes + CssDigitNames
    + ["4:4:4", "4:4:0", "4:2:2", "4:2:0", "4:1:1", "4:1:0"]

  lemma ColonSpellings()
    ensures forall i :: 0 <= i < |CssDigitNames| ==> ColonSpelling(CssDigitNames[i]) == CssAccepted[|CssCodes| + 6 + i]
  {
    assert ColonSpelling("444") == "4:4:4";
    assert ColonSpelling("440") == "4:4:0";
    assert ColonSpelling("422") == "4:2:2";
    assert ColonSpelling("420") == "4:2:0";
    assert ColonSpelling("411") == "4:1:1";
    assert ColonSpelling("410") == "4:1:0";
  }

  /** A lower-case text has an alias code, or is itself a code, exactly when it is accepted. */
  lemma AliasAccepted(t: string)
    ensures CssAlias(t) in CssCodes <==> t in CssAccepted
  {
  }

  /**
   * dpidDown's css option does not depend on case; each name's J:a:b spelling is the same option
   * as its bare digits, and both are accepted; any other text that is not a code fails.
   */
  lemma CssSpellings(s: string)
    ensures NormaliseCss(Some(s)) == NormaliseCss(Some(Lower(s)))
    ensures forall i :: 0 <= i < |CssDigitNames| ==>
              NormaliseCss(Some(ColonSpelling(CssDigitNames[i]))) == NormaliseCss(Some(CssDigitNames[i])) &&
              NormaliseCss(Some(CssDigitNames[i])).Ok?
    ensures NormaliseCss(Some(s)).Ok? <==> Lower(s) in CssAccepted
  {
    LowerNormalises(s);
    AliasAccepted(Lower(s));
    ColonSpellings();
    forall i | 0 <= i < |CssDigitNames|
      ensures NormaliseCss(Some(ColonSpelling(CssDigitNames[i]))) == NormaliseCss(Some(CssDigitNames[i]))
      ensures NormaliseCss(Some(CssDigitNames[i])).Ok?
    {
      var d := CssDigitNames[i];
      var c := ColonSpelling(d);
      LowerNormalises(d);
      LowerNormalises(c);
      assert IsLower(d) && IsLower(c);
    }
  }

  // ---------------------------------------------------------------- dpidDown: range

  /** `.lower()`, then tv means limited and pc means full; nothing else is accepted. */
  function NormaliseRange(r: string): (res: Result<string>)
    ensures res.Ok? <==> Lower(r) in ["limited", "full", "tv", "pc"]
    ensures res.Ok? ==> res.value in ["limited", "full"]
    ensures res.Ok? ==> (res.value == "limited" <==> Lower(r) in ["limited", "tv"])
    ensures res.Err? ==> res.error == ValueError("")
  {
    var l := Lower(r);
    var a := if l == "tv" then "limited" else if l == "pc" then "full" else l;
    if a !in ["limited", "full"] then Err(ValueError("")) else Ok(a)
  }

  // ---------------------------------------------------------------- dpidDown

  datatype Source = Source(width: int, height: int, isRgb: bool, subW: int, subH: int)

  /** dpidDown's keyword arguments other than Lambda and dither_type. */
  datatype DpidArgs = DpidArgs(width: Option<int>, height: Option<int>, matrixIn: Option<string>,
                               matrix: Option<string>, transferIn: string, transfer: Option<string>,
                               css: Option<string>, depth: int, rangeIn: Option<string>, rangeOut: Option<string>)

  const DpidDefaults := DpidArgs(None, None, None, None, "709", None, None, 16, None, None)

  /** The final resize: back to RGB, or to YUV with the given subsampling. */
  datatype Format = RgbOut | YuvOut(subW: int, subH: int, isFloat: bool, depth: int)

  datatype DpidPlan = DpidPlan(width: int, height: int, matrixIn: Option<string>, matrix: string,
                               transferIn: string, transfer: string, rangeIn: string, rangeOut: string,
                               css: Option<string>, out: Format)

  /** The output format as written: with no css, the source's subsampling_h and
      subsampling_w go to register_format in that order, i.e. swapped. */
  function OutputAsWritten(src: Source, css: Option<string>, depth: int): Format
    requires CodeShape(css)
  {
    if css == Some("rgb") || (src.isRgb && css.None?) then RgbOut
    else if css.None? then YuvOut(src.subH, src.subW, depth == 32, depth)
    else
      var s := CodeSubsampling(css.value);
      YuvOut(s.0, s.1, depth == 32, depth)
  }

  /** The output format with the source's subsampling kept in place. */
  function OutputFormat(src: Source, css: Option<string>, depth: int): Format
    requires CodeShape(css)
  {
    if css == Some("rgb") || (src.isRgb && css.None?) then RgbOut
    else if css.None? then YuvOut(src.subW, src.subH, depth == 32, depth)
    else
      var s := CodeSubsampling(css.value);
      YuvOut(s.0, s.1, depth == 32, depth)
  }

  /** range_out when not given, from range_in and the conversion made (xvs.py:1310-1320). */
  function DefaultRangeOut(isRgb: bool, css: Option<string>, rangeIn: string): string
  {
    if css.None? then rangeIn
    else if isRgb && css == Some("rgb") then rangeIn
    else if !isRgb && css != Some("rgb") then rangeIn
    else if isRgb && css != Some("rgb") then "limited"
    else "full"
  }

  /** range_in before normalisation: full for RGB, limited otherwise. */
  function RangeIn0(src: Source, a: DpidArgs): string
  {
    if a.rangeIn.Some? then a.rangeIn.value else if src.isRgb then "full" else "limited"
  }

  function RangeOut0(src: Source, a: DpidArgs, css: Option<string>): string
  {
    if a.rangeOut.Some? then a.rangeOut.value else DefaultRangeOut(src.isRgb, css, RangeIn0(src, a))
  }

  /** The body of dpidDown given the outcome of the css normalisation; `swapped`
      selects the output format as written. */
  function DpidWith(src: Source, a: DpidArgs, cssR: Result<Option<string>>, swapped: bool): Result<DpidPlan>
    requires cssR.Ok? ==> CodeShape(cssR.value)
  {
    var width := if a.width.Some? then a.width.value else src.width;
    var height := if a.height.Some? then a.height.value else src.height;
    if width > src.width || height > src.height then Err(ValueError(""))
    else
      var transfer := if a.transfer.Some? then a.transfer.value else a.transferIn;
      var matrix := if a.matrix.Some? then a.matrix.value else DpidMatrix(width, height);
      var matrixIn := if src.isRgb then Some("rgb") else a.matrixIn;
      var css :- cssR;
      var rangeIn :- NormaliseRange(RangeIn0(src, a));
      var rangeOut :- NormaliseRange(RangeOut0(src, a, css));
      var out := if swapped then OutputAsWritten(src, css, a.depth) else OutputFormat(src, css, a.depth);
      Ok(DpidPlan(width, height, matrixIn, matrix, a.transferIn, transfer, rangeIn, rangeOut, css, out))
  }

  /** dpidDown with the corrected 4:1:0 alias and the source's subsampling kept. */
  function DpidDown(src: Source, a: DpidArgs): (res: Result<DpidPlan>)
    ensures res.Err? ==> res.error == ValueError("")
    ensures res.Ok? ==> res.value.rangeIn in ["limited", "full"] && res.value.rangeOut in ["limited", "full"]
    ensures res.Ok? ==> res.value.width <= src.width && res.value.height <= src.height
    ensures res.Ok? && a.matrix.None? ==> res.value.matrix == DpidMatrix(res.value.width, res.value.height)
    ensures res.Ok? ==> res.value.matrixIn == (if src.isRgb then Some("rgb") else a.matrixIn)
    ensures res.Ok? ==> res.value.transfer == (if a.transfer.Some? then a.transfer.value else a.transferIn)
  {
    NormalisedShape(a.css);
    DpidWith(src, a, NormaliseCss(a.css), false)
  }

  /** dpidDown as written: the 4:1:0 alias "42" and the swapped subsampling. */
  function DpidDownAsWritten(src: Source, a: DpidArgs): (res: Result<DpidPlan>)
    ensures res.Ok? ==> res.value.rangeIn in ["limited", "full"] && res.value.rangeOut in ["limited", "full"]
    ensures res.Ok? ==> res.value.width <= src.width && res.value.height <= src.height
  {
    NormalisedShape(a.css);
    DpidWith(src, a, NormaliseCssAsWritten(a.css), true)
  }

  /** The error cases: a target larger than the source, an unknown css, or a
      range that is not limited/full/tv/pc. */
  lemma DpidDownFails(src: Source, a: DpidArgs)
    ensures DpidDown(src, a).Err? <==>
              (a.width.Some? && a.width.value > src.width)
              || (a.height.Some? && a.height.value > src.height)
              || NormaliseCss(a.css).Err?
              || NormaliseRange(RangeIn0(src, a)).Err?
              || NormaliseRange(RangeOut0(src, a, NormaliseCss(a.css).value)).Err?
  {
  }

  /** The two versions agree unless css names 4:1:0 (or its corrected code), or no
      css is given for a YUV source whose two subsampling factors differ. */
  lemma DpidVersionsAgree(src: Source, a: DpidArgs)
    requires a.css.Some? ==> CssAlias(Lower(a.css.value)) != "44"
    requires a.css.None? ==> src.isRgb || src.subW == src.subH
    ensures DpidDownAsWritten(src, a) == DpidDown(src, a)
  {
  }

  /** Without a css argument a 4:2:2 source comes out 4:4:0 as written. */
  lemma DpidSwapsSubsampling()
    ensures var src := Source(1920, 1080, false, 1, 0);
            DpidDownAsWritten(src, DpidDefaults).Ok?
            && DpidDownAsWritten(src, DpidDefaults).value.out == YuvOut(0, 1, false, 16)
  {
    var src := Source(1920, 1080, false, 1, 0);
    assert NormaliseRange("limited") == Ok("limited") by {
      assert Lower("limited") == "limited";
    }
  }

  /** With no css argument a YUV source keeps its own subsampling, and otherwise
      the subsampling is the one `css` names. */
  lemma DpidKeepsSubsampling(src: Source, a: DpidArgs)
    requires DpidDown(src, a).Ok?
    ensures var p := DpidDown(src, a).value;
            (a.css.None? && !src.isRgb ==> p.out == YuvOut(src.subW, src.subH, a.depth == 32, a.depth))
            && (a.css.None? && src.isRgb ==> p.out == RgbOut)
            && (p.css.Some? && p.css.value != "rgb" ==> p.out.YuvOut? && (p.out.subW, p.out.subH) == CodeSubsampling(p.css.value))
  {
  }

  lemma RangeNames()
    ensures NormaliseRange("limited") == Ok("limited")
    ensures NormaliseRange("full") == Ok("full")
  {
    assert Lower("limited") == "limited";
    assert Lower("full") == "full";
  }

  /** The result is RGB exactly when css says rgb, or when an RGB source gets no css. */
  lemma DpidOutFamily(src: Source, a: DpidArgs)
    requires DpidDown(src, a).Ok?
    ensures var p := DpidDown(src, a).value;
            p.out.RgbOut? == (p.css == Some("rgb") || (src.isRgb && p.css.None?))
            && p.css == NormaliseCss(a.css).value
            && p.rangeIn == NormaliseRange(RangeIn0(src, a)).value
            && p.rangeOut == NormaliseRange(RangeOut0(src, a, p.css)).value
  {
  }

  /** When range_out is not given, it equals range_in while the colour family stays,
      becomes limited when RGB turns into YUV, and full when YUV turns into RGB. */
  lemma DpidRangeFollowsFamily(src: Source, a: DpidArgs)
    requires DpidDown(src, a).Ok? && a.rangeOut.None?
    ensures var p := DpidDown(src, a).value;
            (src.isRgb == p.out.RgbOut? ==> p.rangeOut == p.rangeIn)
            && (src.isRgb && p.out.YuvOut? ==> p.rangeOut == "limited")
            && (!src.isRgb && p.out.RgbOut? ==> p.rangeOut == "full")
  {
    var p := DpidDown(src, a).value;
    DpidOutFamily(src, a);
    RangeNames();
    var r0 := RangeOut0(src, a, p.css);
    assert src.isRgb == p.out.RgbOut? ==> r0 == RangeIn0(src, a);
    assert src.isRgb && p.out.YuvOut? ==> r0 == "limited";
    assert !src.isRgb && p.out.RgbOut? ==> r0 == "full";
  }
}

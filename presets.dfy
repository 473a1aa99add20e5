/**
 * Decision tables of three wrappers around foreign filters: the preset defaults and scene-change
 * thresholds of `mvfrc` (motion-compensated frame-rate conversion), the defaults and branch
 * choices of the anti-aliaser `XSAA`, and the neighbourhood choice and repetition of the
 * morphological `inpand` (minimum) and `expand` (maximum).
 */
module Presets {
  import opened Wrappers
  import opened Rounding

  // ---------------------------------------------------------------- mvfrc

  /** Whether `clip` is a clip, and the keyword arguments of mvfrc that the table touches; None
      stands for Python's None. */
  datatype MvfrcArgs = MvfrcArgs(isClip: bool, it: int, scp: real, preset: string,
                                 flowMask: Option<int>, blockMode: Option<int>, search: Option<int>)

  const MvfrcDefaults := MvfrcArgs(true, 140, 15.0, "fast", None, None, None)

  /** What reaches MAnalyse (search) and the block or flow interpolator. */
  datatype MvfrcPlan = MvfrcPlan(search: int, blockMode: int, flowMask: int, thscd1: int, thscd2: int)

  const MvfrcPresets: seq<string> := ["fast", "medium", "slow"]

  /** Position of the preset in fast, medium, slow. */
  function PresetIndex(preset: string): (r: Option<nat>)
    ensures r.Some? <==> preset in MvfrcPresets
    ensures r.Some? ==> r.value < 3 && MvfrcPresets[r.value] == preset
  {
    if preset == "fast" then Some(0)
    else if preset == "medium" then Some(1)
    else if preset == "slow" then Some(2)
    else None
  }

  /** `int(scp * 255 / 100)`: the scene-change percentage as a threshold on 0..255. */
  function Thscd2(scp: real): int
  {
    Trunc(scp * 255.0 / 100.0)
  }

  function OrDefault(v: Option<int>, d: int): (r: int)
    ensures v.Some? ==> r == v.value
    ensures v.None? ==> r == d
  {
    if v.Some? then v.value else d
  }

  function Mvfrc(a: MvfrcArgs): (res: Result<MvfrcPlan>)
    ensures res.Ok? <==> a.isClip && a.preset in MvfrcPresets
    ensures !a.isClip ==> res == Err(TypeError("mvfrc: This is not a clip!"))
    ensures a.isClip && res.Err? ==> res.error == TypeError("mvfrc: preset should be fast, medium, or slow")
    ensures res.Ok? ==> res.value.thscd1 == a.it && res.value.thscd2 == Thscd2(a.scp)
    ensures res.Ok? && a.search.Some? ==> res.value.search == a.search.value
    ensures res.Ok? && a.blockMode.Some? ==> res.value.blockMode == a.blockMode.value
    ensures res.Ok? && a.flowMask.Some? ==> res.value.flowMask == a.flowMask.value
  {
    if !a.isClip then Err(TypeError("mvfrc: This is not a clip!"))
    else match PresetIndex(a.preset)
    case None => Err(TypeError("mvfrc: preset should be fast, medium, or slow"))
    case Some(p) =>
      Ok(MvfrcPlan(OrDefault(a.search, [0, 3, 3][p]),
                   OrDefault(a.blockMode, [0, 0, 3][p]),
                   OrDefault(a.flowMask, [0, 0, 2][p]),
                   a.it, Thscd2(a.scp)))
  }

  /** The preset table with nothing overridden. */
  lemma MvfrcPresetTable(a: MvfrcArgs)
    requires a.isClip && a.search.None? && a.blockMode.None? && a.flowMask.None?
    ensures a.preset == "fast" ==> Mvfrc(a) == Ok(MvfrcPlan(0, 0, 0, a.it, Thscd2(a.scp)))
    ensures a.preset == "medium" ==> Mvfrc(a) == Ok(MvfrcPlan(3, 0, 0, a.it, Thscd2(a.scp)))
    ensures a.preset == "slow" ==> Mvfrc(a) == Ok(MvfrcPlan(3, 3, 2, a.it, Thscd2(a.scp)))
  {
  }

  /** A slower preset never searches less, or uses a simpler block mode or flow mask. */
  lemma MvfrcPresetsOrdered(a: MvfrcArgs, b: MvfrcArgs)
    requires a.search.None? && a.blockMode.None? && a.flowMask.None?
    requires b.search.None? && b.blockMode.None? && b.flowMask.None?
    requires a.isClip && b.isClip
    requires PresetIndex(a.preset).Some? && PresetIndex(b.preset).Some?
    requires PresetIndex(a.preset).value <= PresetIndex(b.preset).value
    ensures Mvfrc(a).value.search <= Mvfrc(b).value.search
    ensures Mvfrc(a).value.blockMode <= Mvfrc(b).value.blockMode
    ensures Mvfrc(a).value.flowMask <= Mvfrc(b).value.flowMask
  {
  }

  /** A percentage maps into 0..255, never decreasing; the default 15 gives 38. */
  lemma Thscd2Range(scp: real, scp': real)
    requires 0.0 <= scp <= scp' <= 100.0
    ensures 0 <= Thscd2(scp) <= Thscd2(scp') <= 255
  {
    TruncMonotone(scp * 255.0 / 100.0, scp' * 255.0 / 100.0);
    TruncMonotone(scp' * 255.0 / 100.0, 255.0);
  }

  lemma Thscd2Default()
    ensures Thscd2(15.0) == 38
    ensures Thscd2(100.0) == 255 && Thscd2(0.0) == 0
  {
    TruncBounds(15.0 * 255.0 / 100.0);
  }

  /** With the declared defaults mvfrc searches with the fast preset's table. */
  lemma MvfrcDefaultPlan()
    ensures Mvfrc(MvfrcDefaults) == Ok(MvfrcPlan(0, 0, 0, 140, 38))
  {
    Thscd2Default();
  }

  // ---------------------------------------------------------------- XSAA

  datatype Family = Gray | Yuv | Rgb

  /** `maskmode`: an int, or a clip used as the mask itself. */
  datatype MaskArg = MaskNumber(n: int) | MaskClip

  datatype XsaaArgs = XsaaArgs(nsize: Option<int>, qual: Option<int>, aamode: int, maskmode: MaskArg,
                               opencl: bool, linedarken: bool, preaa: int)

  const XsaaDefaults := XsaaArgs(None, None, -1, MaskNumber(1), false, false, 0)

  /** Where the mask for the final merge comes from. */
  datatype Mask = NoMask | EdgesOfInput | EdgesOfOutput | External

  /** The luma the AA filter reads, and the one a masked merge keeps outside the mask. */
  datatype Luma = Plain | Prefiltered

  datatype XsaaPlan = XsaaPlan(
    kernel: string,            // the nnedi3 implementation
    aaInput: Luma,
    enlarge: bool,             // double the height and resize back, instead of two fields merged
    nsize: int, qual: int, field: int, dh: bool,
    linedarken: bool,
    mask: Mask,
    mergeBase: Luma,           // only meaningful when mask != NoMask
    reshuffle: bool)           // put the chroma of the source back

  function XsaaMask(m: MaskArg): (r: Mask)
    ensures r == EdgesOfInput <==> m == MaskNumber(1)
    ensures r == EdgesOfOutput <==> m == MaskNumber(2)
    ensures r == External <==> m.MaskClip?
  {
    match m
    case MaskClip => External
    case MaskNumber(n) => if n == 1 then EdgesOfInput else if n == 2 then EdgesOfOutput else NoMask
  }

  function Xsaa(height: int, family: Family, a: XsaaArgs): (res: Result<XsaaPlan>)
    ensures res.Ok? <==> a.aamode in {-1, 0, 1} && family != Rgb && a.preaa in {0, 1, 2}
    ensures a.aamode !in {-1, 0, 1} ==> res == Err(ValueError(""))
    ensures a.aamode in {-1, 0, 1} && family == Rgb ==> res == Err(TypeError("RGB is unsupported"))
    ensures a.aamode in {-1, 0, 1} && family != Rgb && a.preaa !in {0, 1, 2} ==> res == Err(ValueError(""))
    ensures res.Ok? ==> res.value.enlarge == (a.aamode == 1 || (a.aamode == -1 && height < 720))
    ensures res.Ok? ==> res.value.aaInput == (if a.preaa == 0 then Plain else Prefiltered)
    ensures res.Ok? ==> res.value.dh == res.value.enlarge
    ensures res.Ok? ==> res.value.reshuffle == (family == Yuv)
  {
    if a.aamode !in {-1, 0, 1} then Err(ValueError(""))
    else
      var enlarge := if a.aamode == -1 then height < 720 else a.aamode == 1;
      var kernel := if a.opencl then "nnedi3cl" else "znedi3";
      if family == Rgb then Err(TypeError("RGB is unsupported"))
      else if a.preaa !in {0, 1, 2} then Err(ValueError(""))
      else
        var aaInput := if a.preaa == 0 then Plain else Prefiltered;
        var nsize := OrDefault(a.nsize, if enlarge then 1 else 3);
        var qual := OrDefault(a.qual, if enlarge then 2 else 1);
        var mergeBase := if a.preaa == 1 then Plain else aaInput;
        Ok(XsaaPlan(kernel, aaInput, enlarge, nsize, qual, if enlarge then 1 else 3, enlarge,
                    a.linedarken, XsaaMask(a.maskmode), mergeBase, family == Yuv))
  }

  /** The defaults for an enlarged and for a field-merged pass. */
  lemma XsaaDefaultsBySize(height: int, family: Family, a: XsaaArgs)
    requires Xsaa(height, family, a).Ok? && a.nsize.None? && a.qual.None?
    ensures var p := Xsaa(height, family, a).value;
            (p.enlarge ==> p.nsize == 1 && p.qual == 2 && p.field == 1 && p.dh)
            && (!p.enlarge ==> p.nsize == 3 && p.qual == 1 && p.field == 3 && !p.dh)
  {
  }

  /** A masked merge keeps the untouched luma outside the mask unless preaa is 2. */
  lemma XsaaMergeBase(height: int, family: Family, a: XsaaArgs)
    requires Xsaa(height, family, a).Ok?
    ensures (Xsaa(height, family, a).value.mergeBase == Prefiltered) == (a.preaa == 2)
  {
  }

  /** Explicit settings always win over the size-dependent defaults. */
  lemma XsaaOverrides(height: int, family: Family, a: XsaaArgs)
    requires Xsaa(height, family, a).Ok? && a.nsize.Some? && a.qual.Some?
    ensures Xsaa(height, family, a).value.nsize == a.nsize.value
    ensures Xsaa(height, family, a).value.qual == a.qual.value
  {
  }

  /** A mask number other than 1 or 2 leaves the anti-aliased clip unmasked; a clip given as the
      mask is used as it is. */
  lemma XsaaMasking(height: int, family: Family, a: XsaaArgs)
    requires Xsaa(height, family, a).Ok?
    ensures (Xsaa(height, family, a).value.mask == NoMask) <==> a.maskmode.MaskNumber? && a.maskmode.n !in {1, 2}
    ensures (Xsaa(height, family, a).value.mask == External) <==> a.maskmode.MaskClip?
    ensures a.maskmode == MaskNumber(1) ==> Xsaa(height, family, a).value.mask == EdgesOfInput
    ensures a.maskmode == MaskNumber(2) ==> Xsaa(height, family, a).value.mask == EdgesOfOutput
  {
  }

  /** With every default, a 1080p YUV clip gets the field-merged pass and an edge mask
      from its own luma; a 480p one is enlarged. */
  lemma XsaaDefaultPlans()
    ensures Xsaa(1080, Yuv, XsaaDefaults)
              == Ok(XsaaPlan("znedi3", Plain, false, 3, 1, 3, false, false, EdgesOfInput, Plain, true))
    ensures Xsaa(480, Gray, XsaaDefaults)
              == Ok(XsaaPlan("znedi3", Plain, true, 1, 2, 1, true, false, EdgesOfInput, Plain, false))
  {
  }

  // ---------------------------------------------------------------- inpand / expand

  /** The eight neighbours in the order the coordinates list names them, as (dx, dy):
      top-left, top, top-right, left, right, bottom-left, bottom, bottom-right. */
  const Neighbours: seq<(int, int)> := [(-1, -1), (0, -1), (1, -1), (-1, 0), (1, 0), (-1, 1), (0, 1), (1, 1)]

  /** The `coordinates` list for a mode name; TypeError("") for any other name. */
  function Coordinates(mode: string): (res: Result<seq<int>>)
    ensures res.Ok? <==> mode in ["square", "horizontal", "vertical", "both"]
    ensures res.Err? ==> res.error == TypeError("")
    ensures res.Ok? ==> |res.value| == 8 && forall i :: 0 <= i < 8 ==> res.value[i] in {0, 1}
  {
    if mode == "square" then Ok([1, 1, 1, 1, 1, 1, 1, 1])
    else if mode == "horizontal" then Ok([0, 0, 0, 1, 1, 0, 0, 0])
    else if mode == "vertical" then Ok([0, 1, 0, 0, 0, 0, 1, 0])
    else if mode == "both" then Ok([0, 1, 0, 1, 1, 0, 1, 0])
    else Err(TypeError(""))
  }

  /** The neighbours a coordinates list switches on. */
  function Selected(cd: seq<int>): set<(int, int)>
    requires |cd| == 8
  {
    set i | 0 <= i < 8 && cd[i] == 1 :: Neighbours[i]
  }

  lemma NeighbourIndex(d: (int, int))
    requires d.0 in {-1, 0, 1} && d.1 in {-1, 0, 1} && d != (0, 0)
    ensures exists i :: 0 <= i < 8 && Neighbours[i] == d
  {
    var i := if d.1 == -1 then d.0 + 1 else if d.1 == 0 then (if d.0 == -1 then 3 else 4) else d.0 + 6;
    assert Neighbours[i] == d;
  }

  /** horizontal and vertical are the two neighbours along one axis, and both is
      their union, the 4-neighbourhood. */
  lemma ModeAxes()
    ensures Selected(Coordinates("horizontal").value) == {(-1, 0), (1, 0)}
    ensures Selected(Coordinates("vertical").value) == {(0, -1), (0, 1)}
    ensures Selected(Coordinates("both").value)
              == Selected(Coordinates("horizontal").value) + Selected(Coordinates("vertical").value)
  {
    var h, v := Coordinates("horizontal").value, Coordinates("vertical").value;
    assert Neighbours[3] in Selected(h) && Neighbours[4] in Selected(h);
    assert Neighbours[1] in Selected(v) && Neighbours[6] in Selected(v);
  }

  /** square is the full 8-neighbourhood. */
  lemma ModeSquare()
    ensures forall d: (int, int) :: d in Selected(Coordinates("square").value)
              <==> d.0 in {-1, 0, 1} && d.1 in {-1, 0, 1} && d != (0, 0)
  {
    var sq := Coordinates("square").value;
    forall d: (int, int) | d.0 in {-1, 0, 1} && d.1 in {-1, 0, 1} && d != (0, 0)
      ensures d in Selected(sq)
    {
      NeighbourIndex(d);
    }
  }

  /** `f` applied n times. */
  function Iterate<C>(f: C -> C, x: C, n: nat): C
  {
    if n == 0 then x else f(Iterate(f, x, n - 1))
  }

  /** inpand with `filter` the host's Minimum, expand with its Maximum: one filter pass
      with the mode's coordinates, then again on the result while cycle > 1. */
  function Morph<C>(filter: (C, seq<int>) -> C, clip: C, mode: string, cycle: int): (res: Result<C>)
    ensures res.Ok? == Coordinates(mode).Ok?
    decreases if cycle <= 1 then 0 else cycle
  {
    var cd :- Coordinates(mode);
    var last := filter(clip, cd);
    if cycle <= 1 then Ok(last) else Morph(filter, last, mode, cycle - 1)
  }

  lemma {:induction false} IterateShift<C>(f: C -> C, x: C, n: nat)
    ensures Iterate(f, f(x), n) == Iterate(f, x, n + 1)
  {
    if n > 0 {
      IterateShift(f, x, n - 1);
    }
  }

  /** A valid mode filters max(cycle, 1) times; any other mode fails before filtering. */
  lemma {:induction false} MorphIterates<C>(filter: (C, seq<int>) -> C, clip: C, mode: string, cycle: int)
    ensures Coordinates(mode).Err? ==> Morph(filter, clip, mode, cycle) == Err(TypeError(""))
    ensures Coordinates(mode).Ok? ==>
              Morph(filter, clip, mode, cycle)
                == Ok(Iterate(c => filter(c, Coordinates(mode).value), clip, if cycle <= 1 then 1 else cycle))
    decreases if cycle <= 1 then 0 else cycle
  {
    if Coordinates(mode).Ok? {
      var f := c => filter(c, Coordinates(mode).value);
      if cycle > 1 {
        MorphIterates(filter, filter(clip, Coordinates(mode).value), mode, cycle - 1);
        var m := if cycle - 1 <= 1 then 1 else cycle - 1;
        assert m == cycle - 1;
        IterateShift(f, clip, m);
      }
    }
  }

  /** Running m cycles and then n more is the same as running m + n cycles. */
  lemma MorphCompose<C>(filter: (C, seq<int>) -> C, clip: C, mode: string, m: nat, n: nat)
    requires m >= 1 && n >= 1 && Coordinates(mode).Ok?
    ensures Morph(filter, Morph(filter, clip, mode, m).value, mode, n) == Morph(filter, clip, mode, m + n)
  {
    var f := c => filter(c, Coordinates(mode).value);
    MorphIterates(filter, clip, mode, m);
    MorphIterates(filter, Morph(filter, clip, mode, m).value, mode, n);
    MorphIterates(filter, clip, mode, m + n);
    IterateAdd(f, clip, m, n);
  }

  lemma {:induction false} IterateAdd<C>(f: C -> C, x: C, m: nat, n: nat)
    ensures Iterate(f, Iterate(f, x, m), n) == Iterate(f, x, m + n)
  {
    if n > 0 {
      IterateAdd(f, x, m, n - 1);
    }
  }
}

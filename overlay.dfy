/**
 * `Overlaymod`: places `clipb` on `clipa` with its top-left corner at the signed offset (x, y).
 * Each side's margin (how far `clipb` falls short of `clipa`'s edge) is split into a crop
 * amount and a padding amount; `clipb` and its mask are cropped and then padded to `clipa`'s size.
 */
module Overlay {
  import opened Wrappers

  /** How much to crop from one side and how much to pad onto it. */
  datatype Split = Split(crop: nat, pad: nat)

  /** `min(v, 0) * -1, max(v, 0)`: a negative margin is cropped, a positive one padded. */
  function SplitMargin(v: int): (s: Split)
    ensures s.pad as int - s.crop as int == v
    ensures s.crop == 0 || s.pad == 0
  {
    Split(if v < 0 then -v else 0, if v > 0 then v else 0)
  }

  /** There is only one such split: padding minus cropping is the margin, and one of them is zero. */
  lemma SplitUnique(v: int, s: Split)
    requires s.pad as int - s.crop as int == v && (s.crop == 0 || s.pad == 0)
    ensures s == SplitMargin(v)
  {
  }

  /** The four sides, for a `bw` by `bh` clip placed at (x, y) on an `aw` by `ah` clip. */
  datatype Margins = Margins(l: Split, r: Split, t: Split, b: Split)

  function MarginsOf(aw: int, ah: int, bw: int, bh: int, x: int, y: int): Margins {
    Margins(SplitMargin(x), SplitMargin(aw - bw - x), SplitMargin(y), SplitMargin(ah - bh - y))
  }

  /** What is left of `clipb` horizontally after cropping is its overlap with `clipa`, `[x, x + bw)` within `[0, aw)`. */
  lemma CroppedWidth(aw: int, bw: int, x: int)
    ensures var l, r := SplitMargin(x), SplitMargin(aw - bw - x);
            bw - l.crop - r.crop == (if x + bw < aw then x + bw else aw) - (if x > 0 then x else 0)
  {
  }

  /** Cropping then padding turns `clipb`'s width into `clipa`'s, and likewise the height. */
  lemma CropPadSize(aw: int, ah: int, bw: int, bh: int, x: int, y: int)
    ensures var m := MarginsOf(aw, ah, bw, bh, x, y);
            bw - m.l.crop - m.r.crop + m.l.pad + m.r.pad == aw
            && bh - m.t.crop - m.b.crop + m.t.pad + m.b.pad == ah
  {
  }

  // ---------------------------------------------------------------------------------------------
  // The crop and pad steps on frames (rows of samples).

  type Frame<T> = seq<seq<T>>

  ghost predicate Rect<T>(f: Frame<T>, w: nat, h: nat) {
    |f| == h && forall j :: 0 <= j < h ==> |f[j]| == w
  }

  /** `CropRel(clip, cl, cr, ct, cb)`. */
  function CropRel<T>(f: Frame<T>, w: nat, cl: nat, cr: nat, ct: nat, cb: nat): Frame<T>
    requires Rect(f, w, |f|) && cl + cr <= w && ct + cb <= |f|
  {
    seq(|f| - ct - cb, j requires 0 <= j < |f| - ct - cb => f[ct + j][cl..w - cr])
  }

  /** `n` samples of the value `c`. */
  function Fill<T>(n: nat, c: T): (r: seq<T>)
    ensures |r| == n && forall i :: 0 <= i < n ==> r[i] == c
  {
    seq(n, _ => c)
  }

  /** `AddBorders(clip, pl, pr, pt, pb)` with border value `c`. */
  function AddBorders<T>(f: Frame<T>, w: nat, pl: nat, pr: nat, pt: nat, pb: nat, c: T): Frame<T>
    requires Rect(f, w, |f|)
  {
    seq(pt + |f| + pb, j requires 0 <= j < pt + |f| + pb =>
      if pt <= j < pt + |f| then Fill(pl, c) + f[j - pt] + Fill(pr, c)
      else Fill(pl + w + pr, c))
  }

  /** `cap`: crop then pad, for the margins of a placement. */
  function Cap<T>(f: Frame<T>, w: nat, m: Margins, c: T): Frame<T>
    requires Rect(f, w, |f|) && m.l.crop + m.r.crop <= w && m.t.crop + m.b.crop <= |f|
  {
    var cropped := CropRel(f, w, m.l.crop, m.r.crop, m.t.crop, m.b.crop);
    assert Rect(cropped, w - m.l.crop - m.r.crop, |cropped|);
    AddBorders(cropped, w - m.l.crop - m.r.crop, m.l.pad, m.r.pad, m.t.pad, m.b.pad, c)
  }

  /** Row `j` of a crop-then-pad: a border row, or a cropped row of `f` between two borders. */
  lemma AddBordersRow<T>(f: Frame<T>, w: nat, pl: nat, pr: nat, pt: nat, pb: nat, c: T, j: nat)
    requires Rect(f, w, |f|)
    ensures |AddBorders(f, w, pl, pr, pt, pb, c)| == pt + |f| + pb
    ensures j < pt + |f| + pb ==>
              AddBorders(f, w, pl, pr, pt, pb, c)[j]
              == if pt <= j < pt + |f| then Fill(pl, c) + f[j - pt] + Fill(pr, c) else Fill(pl + w + pr, c)
  {
  }

  lemma CapRowShape<T>(f: Frame<T>, w: nat, m: Margins, c: T, j: nat)
    requires Rect(f, w, |f|) && m.l.crop + m.r.crop <= w && m.t.crop + m.b.crop <= |f|
    ensures var ch := |f| - m.t.crop - m.b.crop;
            |Cap(f, w, m, c)| == m.t.pad + ch + m.b.pad
    ensures var ch := |f| - m.t.crop - m.b.crop;
            m.t.pad <= j < m.t.pad + ch ==>
              Cap(f, w, m, c)[j]
              == Fill(m.l.pad, c) + f[m.t.crop + j - m.t.pad][m.l.crop..w - m.r.crop] + Fill(m.r.pad, c)
    ensures var ch := |f| - m.t.crop - m.b.crop;
            (j < m.t.pad || m.t.pad + ch <= j < m.t.pad + ch + m.b.pad) ==>
              Cap(f, w, m, c)[j] == Fill(m.l.pad + (w - m.l.crop - m.r.crop) + m.r.pad, c)
  {
    var cw := w - m.l.crop - m.r.crop;
    var cropped := CropRel(f, w, m.l.crop, m.r.crop, m.t.crop, m.b.crop);
    assert Rect(cropped, cw, |cropped|);
    var out := AddBorders(cropped, cw, m.l.pad, m.r.pad, m.t.pad, m.b.pad, c);
    assert Cap(f, w, m, c) == out;
    AddBordersRow(cropped, cw, m.l.pad, m.r.pad, m.t.pad, m.b.pad, c, j);
    if m.t.pad <= j < m.t.pad + |cropped| {
      var row := cropped[j - m.t.pad];
      assert row == f[m.t.crop + j - m.t.pad][m.l.crop..w - m.r.crop];
      assert out[j] == Fill(m.l.pad, c) + row + Fill(m.r.pad, c);
    }
  }

  /** One row cropped then padded: sample `i` is `row[i - x]` where that exists, else the border. */
  lemma RowPlaced<T>(row: seq<T>, aw: nat, x: int, c: T, i: int)
    requires var l, r := SplitMargin(x), SplitMargin(aw - |row| - x); l.crop + r.crop <= |row|
    requires 0 <= i < aw
    ensures var l, r := SplitMargin(x), SplitMargin(aw - |row| - x);
            var out := Fill(l.pad, c) + row[l.crop..|row| - r.crop] + Fill(r.pad, c);
            |out| == aw && out[i] == if x <= i < x + |row| then row[i - x] else c
  {
    var l, r := SplitMargin(x), SplitMargin(aw - |row| - x);
    var mid := row[l.crop..|row| - r.crop];
    var out := Fill(l.pad, c) + mid + Fill(r.pad, c);
    if i < l.pad {
      assert out[i] == c;
    } else if i < l.pad + |mid| {
      assert out[i] == mid[i - l.pad] == row[l.crop + i - l.pad];
    } else {
      assert out[i] == c;
    }
  }

  /** Along one axis, the padded-in part is exactly the placed range, and it comes from offset `j - y`. */
  lemma AxisPlaced(ah: int, h: nat, y: int, j: int)
    requires var t, b := SplitMargin(y), SplitMargin(ah - h - y); t.crop + b.crop <= h && 0 <= j < ah
    ensures var t, b := SplitMargin(y), SplitMargin(ah - h - y);
            (t.pad <= j < t.pad + (h - t.crop - b.crop) <==> y <= j < y + h)
            && t.crop + j - t.pad == j - y
  {
  }

  /** A row of the placed frame that crosses `clipb`. */
  lemma CapRowInside<T>(f: Frame<T>, aw: nat, ah: nat, bw: nat, x: int, y: int, c: T, j: nat)
    requires Rect(f, bw, |f|)
    requires var m := MarginsOf(aw, ah, bw, |f|, x, y);
             m.l.crop + m.r.crop <= bw && m.t.crop + m.b.crop <= |f|
    requires j < ah && y <= j < y + |f|
    ensures var out := Cap(f, bw, MarginsOf(aw, ah, bw, |f|, x, y), c);
            j < |out| && |out[j]| == aw
            && forall i :: 0 <= i < aw ==> out[j][i] == if x <= i < x + bw then f[j - y][i - x] else c
  {
    var m := MarginsOf(aw, ah, bw, |f|, x, y);
    CropPadSize(aw, ah, bw, |f|, x, y);
    AxisPlaced(ah, |f|, y, j);
    CapRowShape(f, bw, m, c, j);
    var row := f[j - y];
    assert |row| == bw;
    var out := Cap(f, bw, m, c);
    assert out[j] == Fill(m.l.pad, c) + row[m.l.crop..bw - m.r.crop] + Fill(m.r.pad, c);
    forall i | 0 <= i < aw
      ensures out[j][i] == if x <= i < x + bw then row[i - x] else c
    {
      RowPlaced(row, aw, x, c, i);
    }
  }

  /** A row of the placed frame above or below `clipb` is all border. */
  lemma CapRowOutside<T>(f: Frame<T>, aw: nat, ah: nat, bw: nat, x: int, y: int, c: T, j: nat)
    requires Rect(f, bw, |f|)
    requires var m := MarginsOf(aw, ah, bw, |f|, x, y);
             m.l.crop + m.r.crop <= bw && m.t.crop + m.b.crop <= |f|
    requires j < ah && !(y <= j < y + |f|)
    ensures var out := Cap(f, bw, MarginsOf(aw, ah, bw, |f|, x, y), c);
            j < |out| && out[j] == Fill(aw, c)
  {
    var m := MarginsOf(aw, ah, bw, |f|, x, y);
    CropPadSize(aw, ah, bw, |f|, x, y);
    AxisPlaced(ah, |f|, y, j);
    CapRowShape(f, bw, m, c, j);
  }

  /** Row `j` of the placed frame. */
  lemma CapRow<T>(f: Frame<T>, aw: nat, ah: nat, bw: nat, x: int, y: int, c: T, j: nat)
    requires Rect(f, bw, |f|)
    requires var m := MarginsOf(aw, ah, bw, |f|, x, y);
             m.l.crop + m.r.crop <= bw && m.t.crop + m.b.crop <= |f|
    requires j < ah
    ensures var out := Cap(f, bw, MarginsOf(aw, ah, bw, |f|, x, y), c);
            j < |out| && |out[j]| == aw
            && forall i :: 0 <= i < aw ==>
                 out[j][i] == if y <= j < y + |f| && x <= i < x + bw then f[j - y][i - x] else c
  {
    if y <= j < y + |f| {
      CapRowInside(f, aw, ah, bw, x, y, c, j);
    } else {
      CapRowOutside(f, aw, ah, bw, x, y, c, j);
    }
  }

  /**
   * Placing an overlapping `clipb` gives a frame of `clipa`'s size whose sample (i, j) is the
   * sample (i - x, j - y) of `clipb` inside the placed rectangle and the border value outside it.
   */
  lemma CapPlaces<T>(f: Frame<T>, aw: nat, ah: nat, bw: nat, x: int, y: int, c: T)
    requires Rect(f, bw, |f|)
    requires var m := MarginsOf(aw, ah, bw, |f|, x, y);
             m.l.crop + m.r.crop <= bw && m.t.crop + m.b.crop <= |f|
    ensures var out := Cap(f, bw, MarginsOf(aw, ah, bw, |f|, x, y), c);
            Rect(out, aw, ah)
            && forall j, i :: 0 <= j < ah && 0 <= i < aw ==>
                 out[j][i] == if y <= j < y + |f| && x <= i < x + bw then f[j - y][i - x] else c
  {
    CropPadSize(aw, ah, bw, |f|, x, y);
    forall j | 0 <= j < ah
      ensures var out := Cap(f, bw, MarginsOf(aw, ah, bw, |f|, x, y), c);
              j < |out| && |out[j]| == aw
              && forall i :: 0 <= i < aw ==>
                   out[j][i] == if y <= j < y + |f| && x <= i < x + bw then f[j - y][i - x] else c
    {
      CapRow(f, aw, ah, bw, x, y, c, j);
    }
  }

  /**
   * The mask is a white (`(1 << bits) - 1`) clip of `clipb`'s size put through the same steps with
   * black borders, so it selects `clipb` exactly inside the placed rectangle.
   */
  lemma MaskPlaced(aw: nat, ah: nat, bw: nat, bh: nat, x: int, y: int, white: int)
    requires var m := MarginsOf(aw, ah, bw, bh, x, y);
             m.l.crop + m.r.crop <= bw && m.t.crop + m.b.crop <= bh
    ensures var mask := Fill(bh, Fill(bw, white));
            var out := Cap(mask, bw, MarginsOf(aw, ah, bw, bh, x, y), 0);
            Rect(out, aw, ah)
            && forall j, i :: 0 <= j < ah && 0 <= i < aw ==>
                 out[j][i] == if y <= j < y + bh && x <= i < x + bw then white else 0
  {
    var mask := Fill(bh, Fill(bw, white));
    assert Rect(mask, bw, |mask|);
    CapPlaces(mask, aw, ah, bw, x, y, 0);
  }

  // ---------------------------------------------------------------------------------------------
  // Argument checks.

  /** An argument that is a clip of the given size, or anything else (including `None`). */
  datatype ClipArg = Clip(width: int, height: int) | NotAClip

  /**
   * As written. `alpha` defaults to `None`, yet anything but a clip raises TypeError; the size
   * check compares `mask`, a blank clip made from `clipb`, with `clipb`, so it never fails.
   */
  function OverlayChecksAsWritten(clipa: ClipArg, clipb: ClipArg, alpha: ClipArg): Result<()> {
    if !(clipa.Clip? && clipb.Clip?) then Err(TypeError("Overlaymod: This is not a clip"))
    else if !alpha.Clip? then Err(TypeError("Overlaymod: 'alpha' is not a clip"))
    else
      var mask := Clip(clipb.width, clipb.height);
      if mask.width != clipb.width || mask.height != clipb.height
      then Err(TypeError("Overlaymod: 'alpha' must be the same dimension as 'clipb'"))
      else Ok(())
  }

  /** The default call (no alpha) always fails, and an alpha clip of any size passes. */
  lemma AlphaChecksAsWritten(clipa: ClipArg, clipb: ClipArg, aw: int, ah: int)
    requires clipa.Clip? && clipb.Clip?
    ensures OverlayChecksAsWritten(clipa, clipb, NotAClip) == Err(TypeError("Overlaymod: 'alpha' is not a clip"))
    ensures OverlayChecksAsWritten(clipa, clipb, Clip(aw, ah)) == Ok(())
  {
  }

  /** Evidently intended: `alpha` is optional (the code later tests `alpha is not None`), and a given one must match `clipb`. */
  function OverlayChecks(clipa: ClipArg, clipb: ClipArg, alpha: Option<ClipArg>): Result<()> {
    if !(clipa.Clip? && clipb.Clip?) then Err(TypeError("Overlaymod: This is not a clip"))
    else if alpha.Some? && !alpha.value.Clip? then Err(TypeError("Overlaymod: 'alpha' is not a clip"))
    else if alpha.Some? && (alpha.value.width != clipb.width || alpha.value.height != clipb.height)
    then Err(TypeError("Overlaymod: 'alpha' must be the same dimension as 'clipb'"))
    else Ok(())
  }

  /** The corrected checks pass exactly for two clips and an absent alpha or one of `clipb`'s size. */
  lemma OverlayChecksAccept(clipa: ClipArg, clipb: ClipArg, alpha: Option<ClipArg>)
    ensures OverlayChecks(clipa, clipb, alpha).Ok? <==>
            clipa.Clip? && clipb.Clip? && (alpha.None? || alpha.value == Clip(clipb.width, clipb.height))
  {
  }
}

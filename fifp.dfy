/**
 * `FIFP` ("fix interlaced frames in progressive video"), mode 1, pass 2: reading the per-frame
 * combing analysis of pass 1, writing timecode-format-v2 timestamps, and choosing which frames of
 * the doubled clip to keep. A progressive frame is kept once; an interlaced frame is deinterlaced
 * into both of its fields, which doubles the rate for that frame.
 */
module Fifp {
  import opened Wrappers
  import opened Rounding

  // ---------------------------------------------------------------------------------------------
  // Reading `analyze.csv`.

  /**
   * A line of the analysis file after `split(",")`. `lst[int(i[0])] = int(i[1])` evaluates its
   * right-hand side first, so a line with fewer than two fields (the empty line after the last
   * newline) raises IndexError on `i[1]`, and a line with two fields that `int()` cannot both read
   * (the header `frame,combed`) raises ValueError.
   */
  datatype CsvLine = Row(frame: int, combed: int) | Short | NotInt

  /** The file pass 1 writes for frames analysed in order: a header, one row per frame, and the empty line after the last newline. */
  function AnalysisFile(combed: seq<int>): seq<CsvLine> {
    [NotInt] + seq(|combed|, i requires 0 <= i < |combed| => Row(i, combed[i])) + [Short]
  }

  /** Python's `s[lo:hi]` for non-negative bounds. */
  function Slice<T>(s: seq<T>, lo: nat, hi: nat): (r: seq<T>)
    ensures var h := if hi <= |s| then hi else |s|;
            r == if lo >= h then [] else s[lo..h]
  {
    var h := if hi <= |s| then hi else |s|;
    if lo >= h then [] else s[lo..h]
  }

  /** The position `lst[i]` refers to in a list of length `n`: a negative index counts from the end. */
  function Slot(i: int, n: nat): (k: Option<nat>)
    ensures k.Some? <==> -(n as int) <= i < n
    ensures k.Some? ==> k.value < n && (k.value == i || k.value == i + n)
  {
    if 0 <= i < n then Some(i) else if -(n as int) <= i < 0 then Some(i + n) else None
  }

  /** The line can be stored in a list of length `n`. */
  predicate Placeable(l: CsvLine, n: nat) {
    l.Row? && Slot(l.frame, n).Some?
  }

  /** The exception a line that cannot be stored raises. */
  function LineError(l: CsvLine): PyError {
    match l
    case Short => IndexError
    case NotInt => ValueError("invalid literal for int() with base 10")
    case Row(_, _) => IndexError
  }

  /** `lst[int(row[0])] = int(row[1])` for each row in turn. */
  function PlaceRows(rows: seq<CsvLine>, lst: seq<Option<int>>): (res: Result<seq<Option<int>>>)
    ensures res.Ok? <==> forall j :: 0 <= j < |rows| ==> Placeable(rows[j], |lst|)
    ensures res.Ok? ==> |res.value| == |lst|
    decreases |rows|
  {
    if rows == [] then Ok(lst)
    else
      match rows[0]
      case Short => Err(IndexError)
      case NotInt => Err(ValueError("invalid literal for int() with base 10"))
      case Row(f, c) =>
        match Slot(f, |lst|)
        case None => Err(IndexError)
        case Some(k) => PlaceRows(rows[1..], lst[k := Some(c)])
  }

  /** The first line that cannot be stored decides the exception: IndexError for a short line or a frame number out of range, ValueError for a line `int()` cannot read. */
  lemma {:induction false} PlaceRowsFirstError(rows: seq<CsvLine>, lst: seq<Option<int>>, j: nat)
    requires j < |rows| && !Placeable(rows[j], |lst|)
    requires forall k :: 0 <= k < j ==> Placeable(rows[k], |lst|)
    ensures PlaceRows(rows, lst) == Err(LineError(rows[j]))
    decreases j
  {
    if j > 0 {
      var k := Slot(rows[0].frame, |lst|).value;
      assert Placeable(rows[0], |lst|);
      assert forall i :: 0 <= i < j - 1 ==> rows[1..][i] == rows[i + 1];
      PlaceRowsFirstError(rows[1..], lst[k := Some(rows[0].combed)], j - 1);
    }
  }

  /** The rows after the header, up to (but not including) line `hi`, placed by frame number into a list of `None`. */
  function ParseRows(lines: seq<CsvLine>, hi: nat): Result<seq<Option<int>>> {
    var tmp := Slice(lines, 1, hi);
    PlaceRows(tmp, seq(|tmp|, _ => None))
  }

  /** Pass 2 reads `split("\n")[1:len(src)]`. */
  method ReadAnalysis(lines: seq<CsvLine>, frames: nat) returns (res: Result<seq<Option<int>>>)
    ensures res == ParseRows(lines, frames)
  {
    var tmp := Slice(lines, 1, frames);
    var lst := new Option<int>[|tmp|](_ => None);
    ghost var start := lst[..];
    assert start == seq(|tmp|, _ => None);
    for j := 0 to |tmp|
      invariant PlaceRows(tmp, start) == PlaceRows(tmp[j..], lst[..])
    {
      assert tmp[j..][0] == tmp[j] && tmp[j..][1..] == tmp[j + 1..];
      match tmp[j]
      case Short =>
        return Err(IndexError);
      case NotInt =>
        return Err(ValueError("invalid literal for int() with base 10"));
      case Row(f, c) =>
        var k := Slot(f, lst.Length);
        if k.None? {
          assert PlaceRows(tmp[j..], lst[..]) == Err(IndexError);
          return Err(IndexError);
        }
        lst[k.value] := Some(c);
    }
    assert tmp[|tmp|..] == [];
    return Ok(lst[..]);
  }

  function Somes(combed: seq<int>): seq<Option<int>> {
    seq(|combed|, i requires 0 <= i < |combed| => Some(combed[i]))
  }

  /** Rows for frames `j..m-1` in order fill those entries. */
  lemma {:induction false} PlaceInOrder(combed: seq<int>, j: nat, lst: seq<Option<int>>)
    requires j <= |combed| == |lst| && lst[..j] == Somes(combed)[..j]
    ensures PlaceRows(seq(|combed| - j, i requires 0 <= i < |combed| - j => Row(j + i, combed[j + i])), lst) == Ok(Somes(combed))
    decreases |combed| - j
  {
    var rows := seq(|combed| - j, i requires 0 <= i < |combed| - j => Row(j + i, combed[j + i]));
    if j == |combed| {
      assert lst == lst[..j];
      assert Somes(combed)[..j] == Somes(combed);
      assert rows == [];
    } else {
      assert rows[0] == Row(j, combed[j]);
      var next := lst[j := Some(combed[j])];
      assert next[..j + 1] == Somes(combed)[..j + 1] by {
        assert next[..j] == lst[..j];
      }
      assert rows[1..] == seq(|combed| - (j + 1), i requires 0 <= i < |combed| - (j + 1) => Row(j + 1 + i, combed[j + 1 + i]));
      PlaceInOrder(combed, j + 1, next);
    }
  }

  /** The file of frames `0..n-1`, read up to line `n` (as written) or `n + 1` (all rows). */
  lemma ReadPrefix(combed: seq<int>, k: nat)
    requires k <= |combed|
    ensures ParseRows(AnalysisFile(combed), k + 1) == Ok(Somes(combed[..k]))
  {
    var file := AnalysisFile(combed);
    var c := combed[..k];
    assert Slice(file, 1, k + 1) == seq(|c|, i requires 0 <= i < |c| => Row(0 + i, c[0 + i]));
    PlaceInOrder(c, 0, seq(|c|, _ => None));
  }

  /**
   * As written, reading the analysis of `n >= 1` frames stops one row short: the last frame gets
   * no entry, and the list (whose length sets the selection cycle) has only `n - 1` entries.
   */
  lemma AnalysisDropsLastFrame(combed: seq<int>)
    requires |combed| >= 1
    ensures ParseRows(AnalysisFile(combed), |combed|) == Ok(Somes(combed[..|combed| - 1]))
    ensures |ParseRows(AnalysisFile(combed), |combed|).value| == |combed| - 1
  {
    ReadPrefix(combed, |combed| - 1);
  }

  /** The evidently intended read, `split("\n")[1:len(src) + 1]`: one entry per frame. */
  function ReadAnalysisIntended(lines: seq<CsvLine>, frames: nat): Result<seq<Option<int>>> {
    ParseRows(lines, frames + 1)
  }

  /** With the intended bound, every frame's classification is read. */
  lemma AnalysisReadsEveryFrame(combed: seq<int>)
    ensures ReadAnalysisIntended(AnalysisFile(combed), |combed|) == Ok(Somes(combed))
  {
    ReadPrefix(combed, |combed|);
    assert combed[..|combed|] == combed;
  }

  /**
   * A clip at least two frames longer than the analysis makes the read reach the empty last line,
   * whose single field leaves `i[1]` out of range: IndexError, not ValueError.
   */
  lemma ReadReachesEmptyLine(combed: seq<int>, frames: nat)
    requires frames >= |combed| + 2
    ensures ParseRows(AnalysisFile(combed), frames) == Err(IndexError)
  {
    var file := AnalysisFile(combed);
    var tmp := Slice(file, 1, frames);
    assert tmp == file[1..];
    assert tmp[|combed|] == Short;
    PlaceRowsFirstError(tmp, seq(|tmp|, _ => None), |combed|);
  }

  // ---------------------------------------------------------------------------------------------
  // Timecodes v2.

  /** `1000 / num * den`: milliseconds per source frame. */
  function FrameMs(num: int, den: int): real
    requires num != 0
  {
    1000.0 / num as real * den as real
  }

  /** The start of field `f` of the doubled clip, in whole milliseconds: `int(f / 2 * b)`. */
  function FieldTime(f: int, b: real): int {
    Trunc(f as real * b / 2.0)
  }

  /** Frame `i` ends at `int((i + 1) * b)` and its second field starts at `int((i + 0.5) * b)`. */
  lemma SourceTimes(i: nat, b: real)
    ensures FieldTime(2 * i + 2, b) == Trunc((i + 1) as real * b)
    ensures FieldTime(2 * i + 1, b) == Trunc((i as real + 0.5) * b)
  {
    assert (2 * i + 2) as real * b / 2.0 == (i + 1) as real * b;
    assert (2 * i + 1) as real * b / 2.0 == (i as real + 0.5) * b;
  }

  /**
   * The timestamps up to the end of the listed frames: 0, then per frame its end, preceded by
   * the start of its second field for an interlaced one; any entry other than 0 or 1 fails.
   */
  function Stamps(lst: seq<Option<int>>, b: real): Option<seq<int>>
    decreases |lst|
  {
    if lst == [] then Some([0])
    else
      var i := |lst| - 1;
      match Stamps(lst[..i], b)
      case None => None
      case Some(s) =>
        if lst[i] == Some(0) then Some(s + [FieldTime(2 * i + 2, b)])
        else if lst[i] == Some(1) then Some(s + [FieldTime(2 * i + 1, b), FieldTime(2 * i + 2, b)])
        else None
  }

  /** A zero numerator fails the division; an entry other than 0 or 1 raises ValueError. */
  function TimecodesSpec(lst: seq<Option<int>>, num: int, den: int): Result<seq<int>> {
    if num == 0 then Err(ZeroDivisionError)
    else
      match Stamps(lst, FrameMs(num, den))
      case None => Err(ValueError(""))
      case Some(s) => Ok(s)
  }

  /** The timestamp loop (the lines written to `timecodes.txt` after the header). */
  method Timecodes(lst: seq<Option<int>>, num: int, den: int) returns (res: Result<seq<int>>)
    ensures res == TimecodesSpec(lst, num, den)
  {
    if num == 0 {
      return Err(ZeroDivisionError);
    }
    var b := 1000.0 / num as real * den as real;
    var ts := [0];
    for i := 0 to |lst|
      invariant Stamps(lst[..i], b) == Some(ts)
    {
      assert lst[..i + 1][..i] == lst[..i] && lst[..i + 1][i] == lst[i] && |lst[..i + 1]| - 1 == i;
      var middle, end := Trunc((i as real + 0.5) * b), Trunc((i + 1) as real * b);
      assert middle == FieldTime(2 * i + 1, b) && end == FieldTime(2 * i + 2, b) by {
        SourceTimes(i, b);
      }
      if lst[i] == Some(0) {
        ts := ts + [end];
      } else if lst[i] == Some(1) {
        ts := ts + [middle, end];
      } else {
        assert Stamps(lst[..i + 1], b).None?;
        NoneExtends(lst, i + 1, b);
        assert lst[..|lst|] == lst;
        return Err(ValueError(""));
      }
    }
    assert lst[..|lst|] == lst;
    return Ok(ts);
  }

  /** A failure on a prefix is a failure of the whole list. */
  lemma {:induction false} NoneExtends(lst: seq<Option<int>>, k: nat, b: real)
    requires k <= |lst| && Stamps(lst[..k], b).None?
    ensures Stamps(lst, b).None?
    decreases |lst| - k
  {
    if k < |lst| {
      assert lst[..k + 1][..k] == lst[..k];
      NoneExtends(lst, k + 1, b);
    } else {
      assert lst[..k] == lst;
    }
  }

  /** The number of entries `tlist` treats as interlaced: every entry that is not 0. */
  function Interlaced(lst: seq<Option<int>>): nat
    decreases |lst|
  {
    if lst == [] then 0 else Interlaced(lst[..|lst| - 1]) + (if lst[|lst| - 1] == Some(0) then 0 else 1)
  }

  /** Timestamps exist exactly when every entry is 0 or 1. */
  lemma {:induction false} StampsDefined(lst: seq<Option<int>>, b: real)
    ensures Stamps(lst, b).Some? <==> forall i :: 0 <= i < |lst| ==> lst[i] == Some(0) || lst[i] == Some(1)
    decreases |lst|
  {
    if lst != [] {
      var i := |lst| - 1;
      StampsDefined(lst[..i], b);
      assert forall j :: 0 <= j < i ==> lst[..i][j] == lst[j];
    }
  }

  // ---------------------------------------------------------------------------------------------
  // The frames kept from the doubled clip.

  /** Field `2i` of frame `i` is always kept, field `2i + 1` too unless the entry is 0. */
  function TListSpec(lst: seq<Option<int>>): seq<int>
    decreases |lst|
  {
    if lst == [] then []
    else
      var i := |lst| - 1;
      TListSpec(lst[..i]) + (if lst[i] == Some(0) then [2 * i] else [2 * i, 2 * i + 1])
  }

  /** The `tlist` append loop. */
  method TList(lst: seq<Option<int>>) returns (tlist: seq<int>)
    ensures tlist == TListSpec(lst)
  {
    tlist := [];
    for i := 0 to |lst|
      invariant tlist == TListSpec(lst[..i])
    {
      assert lst[..i + 1][..i] == lst[..i];
      if lst[i] == Some(0) {
        tlist := tlist + [2 * i];
      } else {
        tlist := tlist + [2 * i];
        tlist := tlist + [2 * i + 1];
      }
    }
    assert lst[..|lst|] == lst;
  }

  /**
   * `tlist` is strictly increasing, lies within one cycle of the doubled clip, and has one entry
   * per frame plus one per interlaced frame.
   */
  lemma {:induction false} TListShape(lst: seq<Option<int>>)
    ensures var t := TListSpec(lst);
            |t| == |lst| + Interlaced(lst)
            && (forall k :: 0 <= k < |t| ==> 0 <= t[k] < 2 * |lst|)
            && (forall a, c :: 0 <= a < c < |t| ==> t[a] < t[c])
    decreases |lst|
  {
    if lst != [] {
      TListShape(lst[..|lst| - 1]);
    }
  }

  /** Every frame's first field is kept, and its second field exactly when it is not marked progressive. */
  lemma {:induction false} TListMembers(lst: seq<Option<int>>, i: nat)
    requires i < |lst|
    ensures 2 * i in TListSpec(lst)
    ensures 2 * i + 1 in TListSpec(lst) <==> lst[i] != Some(0)
    decreases |lst|
  {
    var n := |lst| - 1;
    var pre := TListSpec(lst[..n]);
    TListShape(lst[..n]);
    if i < n {
      TListMembers(lst[..n], i);
      assert lst[..n][i] == lst[i];
    } else {
      assert 2 * i !in pre && 2 * i + 1 !in pre;
    }
  }

  /** Each kept field starts at its field time, and the last timestamp is the end of the `n` frames. */
  ghost predicate Matches(s: seq<int>, t: seq<int>, n: nat, b: real) {
    |s| == |t| + 1 && s[|t|] == FieldTime(2 * n, b)
    && forall k :: 0 <= k < |t| ==> s[k] == FieldTime(t[k], b)
  }

  /** Appending one frame's timestamps and fields keeps the correspondence. */
  lemma MatchesStep(s: seq<int>, t: seq<int>, i: nat, b: real, c: Option<int>, s2: seq<int>, t2: seq<int>)
    requires Matches(s, t, i, b) && (c == Some(0) || c == Some(1))
    requires s2 == s + (if c == Some(0) then [FieldTime(2 * i + 2, b)] else [FieldTime(2 * i + 1, b), FieldTime(2 * i + 2, b)])
    requires t2 == t + (if c == Some(0) then [2 * i] else [2 * i, 2 * i + 1])
    ensures Matches(s2, t2, i + 1, b)
  {
    assert forall k :: 0 <= k < |t| ==> s2[k] == s[k] && t2[k] == t[k];
    assert s2[|t|] == s[|t|] && t2[|t|] == 2 * i;
    assert 2 * (i + 1) == 2 * i + 2;
  }

  /**
   * Each kept frame starts at the time of its field, and the last timestamp is the end of the
   * clip: the timecodes describe exactly the selected frames.
   */
  lemma {:induction false} StampsMatchSelection(lst: seq<Option<int>>, b: real)
    requires Stamps(lst, b).Some?
    ensures Matches(Stamps(lst, b).value, TListSpec(lst), |lst|, b)
    decreases |lst|
  {
    if lst != [] {
      var i := |lst| - 1;
      assert Stamps(lst[..i], b).Some?;
      StampsMatchSelection(lst[..i], b);
      MatchesStep(Stamps(lst[..i], b).value, TListSpec(lst[..i]), i, b, lst[i], Stamps(lst, b).value, TListSpec(lst));
    } else {
      assert FieldTime(0, b) == 0 by {
        assert 0 as real * b / 2.0 == 0.0;
      }
    }
  }

  /** Field times never decrease as the field index grows, when a frame lasts a non-negative time. */
  lemma FieldTimeMonotone(p: int, q: int, b: real)
    requires 0 <= p <= q && b >= 0.0
    ensures 0 <= FieldTime(p, b) <= FieldTime(q, b)
  {
    assert (q - p) as real * b >= 0.0;
    assert p as real * b >= 0.0;
    TruncMonotone(p as real * b / 2.0, q as real * b / 2.0);
  }

  /** With a non-negative frame duration the timestamps never decrease. */
  lemma StampsNonDecreasing(lst: seq<Option<int>>, b: real)
    requires Stamps(lst, b).Some? && b >= 0.0
    ensures var s := Stamps(lst, b).value;
            forall a, c :: 0 <= a < c < |s| ==> s[a] <= s[c]
  {
    var s, t := Stamps(lst, b).value, TListSpec(lst);
    StampsMatchSelection(lst, b);
    TListShape(lst);
    assert Matches(s, t, |lst|, b);
    forall a, c | 0 <= a < c < |s|
      ensures s[a] <= s[c]
    {
      if c < |t| {
        FieldTimeMonotone(t[a], t[c], b);
      } else {
        FieldTimeMonotone(t[a], 2 * |lst|, b);
      }
    }
  }

  lemma TruncIs(r: real, k: nat)
    requires k as real <= r < k as real + 1.0
    ensures Trunc(r) == k
  {
    TruncBounds(r);
  }

  /** At 24000/1001 fps a frame lasts 1001/24 ms, about 41.7. */
  lemma FieldTimesExample()
    ensures FrameMs(24000, 1001) == 1001.0 / 24.0
    ensures var b := FrameMs(24000, 1001);
            FieldTime(2, b) == 41 && FieldTime(3, b) == 62 && FieldTime(4, b) == 83 && FieldTime(6, b) == 125
  {
    var b := 1001.0 / 24.0;
    TruncIs(2.0 * b / 2.0, 41);
    TruncIs(3.0 * b / 2.0, 62);
    TruncIs(4.0 * b / 2.0, 83);
    TruncIs(6.0 * b / 2.0, 125);
  }

  /** At 24000/1001 fps, a progressive, an interlaced and a progressive frame. */
  lemma TimecodesExample()
    ensures TimecodesSpec([Some(0), Some(1), Some(0)], 24000, 1001) == Ok([0, 41, 62, 83, 125])
  {
    var lst := [Some(0), Some(1), Some(0)];
    var b := FrameMs(24000, 1001);
    FieldTimesExample();
    assert lst[..2][..1] == lst[..1] && lst[..1][..0] == lst[..0] && lst[..0] == [];
    assert Stamps(lst[..0], b) == Some([0]);
    assert lst[..1][0] == Some(0) && lst[..2][1] == Some(1) && |lst[..1]| == 1 && |lst[..2]| == 2;
    assert Stamps(lst[..1], b) == Some([0] + [FieldTime(2, b)]);
    assert [0] + [FieldTime(2, b)] == [0, 41];
    assert [0, 41] + [FieldTime(3, b), FieldTime(4, b)] == [0, 41, 62, 83];
    assert Stamps(lst[..2], b) == Some([0, 41] + [FieldTime(3, b), FieldTime(4, b)]);
    assert [0, 41, 62, 83] + [FieldTime(6, b)] == [0, 41, 62, 83, 125];
    assert Stamps(lst, b) == Some([0, 41, 62, 83] + [FieldTime(6, b)]);
  }

  /** The interlaced frame contributes both of its fields to `tlist`. */
  lemma TListExample()
    ensures TListSpec([Some(0), Some(1), Some(0)]) == [0, 2, 3, 4]
  {
    var lst := [Some(0), Some(1), Some(0)];
    assert lst[..2][..1] == lst[..1] && lst[..1][..0] == lst[..0] && lst[..0] == [];
    assert TListSpec(lst[..1]) == [0];
    assert TListSpec(lst[..2]) == [0, 2, 3];
  }

  /** A value other than 0 and 1 in the analysis stops the timecodes. */
  lemma TimecodesRejectExample()
    ensures TimecodesSpec([Some(0), Some(2)], 24000, 1001) == Err(ValueError(""))
  {
    var bad := [Some(0), Some(2)];
    var b := FrameMs(24000, 1001);
    FieldTimesExample();
    assert bad[..1][..0] == bad[..0] && bad[..0] == [];
    assert bad[..1][0] == Some(0) && |bad[..1]| == 1;
    assert Stamps(bad[..1], b) == Some([0] + [FieldTime(2, b)]);
  }

  // ---------------------------------------------------------------------------------------------
  // Pass 2 as a whole.

  /** What pass 2 hands to the host: the timecodes (when `tc`), and `SelectEvery(cycle, offsets)` on the doubled clip. */
  datatype Pass2Out = Pass2Out(timecodes: Option<seq<int>>, cycle: int, offsets: seq<int>)

  /**
   * As written. After the timecodes, `di = core.std.Cache(di, ...)` reads the local `di` before
   * it is ever assigned, so pass 2 raises UnboundLocalError before the selection is built.
   */
  function Pass2AsWritten(lines: seq<CsvLine>, frames: nat, num: int, den: int, tc: bool): (res: Result<Pass2Out>)
    ensures res.Err?
  {
    var lst :- ParseRows(lines, frames);
    var stamps :- if tc then TimecodesSpec(lst, num, den) else Ok([]);
    Err(UnboundLocalError("di"))
  }

  /** Whenever the analysis reads and the timecodes are written, pass 2 still fails, on `di`. */
  lemma Pass2NeverSelects(lines: seq<CsvLine>, frames: nat, num: int, den: int, tc: bool)
    requires ParseRows(lines, frames).Ok?
    requires tc ==> TimecodesSpec(ParseRows(lines, frames).value, num, den).Ok?
    ensures Pass2AsWritten(lines, frames, num, den, tc) == Err(UnboundLocalError("di"))
  {
  }

  /** With `dl` cached (and every row read), pass 2 returns the selection of `tlist` over a cycle of twice the frame count. */
  function Pass2(lines: seq<CsvLine>, frames: nat, num: int, den: int, tc: bool): Result<Pass2Out> {
    var lst :- ReadAnalysisIntended(lines, frames);
    var stamps :- if tc then TimecodesSpec(lst, num, den) else Ok([]);
    Ok(Pass2Out(if tc then Some(stamps) else None, 2 * |lst|, TListSpec(lst)))
  }

  /**
   * On the analysis pass 1 writes, the corrected pass 2 keeps one field of each progressive frame
   * and both of each other frame, and (with a positive rate) writes one timestamp per kept frame
   * and one for the end, each at its field's time.
   */
  lemma Pass2Selects(combed: seq<int>, num: int, den: int, tc: bool)
    requires forall i :: 0 <= i < |combed| ==> combed[i] == 0 || combed[i] == 1
    requires num != 0 || !tc
    ensures Pass2(AnalysisFile(combed), |combed|, num, den, tc).Ok?
    ensures var out := Pass2(AnalysisFile(combed), |combed|, num, den, tc).value;
            out.cycle == 2 * |combed| && out.offsets == TListSpec(Somes(combed))
            && (tc <==> out.timecodes.Some?)
            && (tc ==> |out.timecodes.value| == |out.offsets| + 1
                       && forall k :: 0 <= k < |out.offsets| ==>
                            out.timecodes.value[k] == FieldTime(out.offsets[k], FrameMs(num, den)))
  {
    AnalysisReadsEveryFrame(combed);
    var lst := Somes(combed);
    if tc {
      StampsDefined(lst, FrameMs(num, den));
      StampsMatchSelection(lst, FrameMs(num, den));
      assert Matches(Stamps(lst, FrameMs(num, den)).value, TListSpec(lst), |lst|, FrameMs(num, den));
    }
  }

  // ---------------------------------------------------------------------------------------------
  // Choosing the stage.

  datatype Stage = SameRateDeinterlace | Analyze | Encode

  /**
   * As written: mode 0 deinterlaces in place, mode 1 runs pass 1 or 2, and any other mode raises
   * ValueError. For mode 1 with any other pass the ValueError is constructed but not raised, so
   * the call returns `None` instead of a clip.
   */
  function FifpStage(mode: int, pass: int): (r: Result<Option<Stage>>)
    ensures r.Err? <==> mode != 0 && mode != 1
    ensures r.Err? ==> r.error == ValueError("mode must be 0 or 1")
    ensures r == Ok(None) <==> mode == 1 && pass != 1 && pass != 2
  {
    if mode == 0 then Ok(Some(SameRateDeinterlace))
    else if mode == 1 then
      if pass == 1 then Ok(Some(Analyze)) else if pass == 2 then Ok(Some(Encode)) else Ok(None)
    else Err(ValueError("mode must be 0 or 1"))
  }

  /** Evidently intended: a bad pass number raises the ValueError the code builds, so every
      successful call yields a stage. */
  function FifpStageIntended(mode: int, pass: int): (r: Result<Option<Stage>>)
    ensures r.Err? <==> (mode != 0 && mode != 1) || (mode == 1 && pass != 1 && pass != 2)
    ensures mode == 1 && pass != 1 && pass != 2 ==> r == Err(ValueError("pass must be 1 or 2"))
    ensures r.Ok? ==> r.value.Some? && r == FifpStage(mode, pass)
  {
    if mode == 1 && pass != 1 && pass != 2 then Err(ValueError("pass must be 1 or 2")) else FifpStage(mode, pass)
  }
}

/**
 * `splicev1`: joins clips of different frame rates and describes the result in a
 * timecode-format-v1 file. Missing frame-rate numerators and denominators are filled in, in the
 * caller's own lists, and each clip after the first gets one line `first,last,fps` over the
 * running frame count.
 */
module Splice {
  import opened Wrappers

  /** The properties of an input clip that the function reads. */
  datatype ClipInfo = ClipInfo(fpsNum: int, fpsDen: int, numFrames: nat)

  /** A frame rate `num / den`, kept as the exact rational the source turns into text. */
  datatype Rate = Rate(num: int, den: int)

  /** A timecode-v1 line: frames `first` through `last` play at `rate`. */
  datatype Line = Line(first: int, last: int, rate: Rate)

  /** The `assume` rate of the header, the lines after it, and the length of the joined clip. */
  datatype Timecodes = Timecodes(assumed: Rate, lines: seq<Line>, frames: int)

  /** A Python list of optional integers that the function extends and overwrites in place. */
  class RateList {
    var items: seq<Option<int>>

    constructor(items0: seq<Option<int>>)
      ensures items == items0
    {
      items := items0;
    }
  }

  /** What the function sees for an argument: `None` behaves as an empty list. */
  function Given(l: RateList?): seq<Option<int>>
    reads l
  {
    if l == null then [] else l.items
  }

  /** The list extended with `None` up to length `n`; a longer list is kept as it is. */
  function Padded(s: seq<Option<int>>, n: nat): (p: seq<Option<int>>)
    ensures |p| == if |s| >= n then |s| else n
    ensures forall i :: 0 <= i < |p| ==> p[i] == if i < |s| then s[i] else None
  {
    if |s| >= n then s else s + seq(n - |s|, _ => None)
  }

  /** A missing numerator is the clip's own. */
  function FillNum(c: ClipInfo, n: Option<int>): int {
    if n.None? then c.fpsNum else n.value
  }

  /**
   * A missing numerator takes the clip's denominator too, replacing any given one; a numerator
   * given without a denominator gets 1001 above 10000 and 1 otherwise.
   */
  function FillDen(c: ClipInfo, n: Option<int>, d: Option<int>): int {
    if n.None? then c.fpsDen
    else if d.None? then (if n.value > 10000 then 1001 else 1)
    else d.value
  }

  /** The numerator list after the call: filled for every clip, extra entries untouched. */
  function FilledNums(clips: seq<ClipInfo>, nums: seq<Option<int>>): seq<Option<int>> {
    var p := Padded(nums, |clips|);
    seq(|p|, i requires 0 <= i < |p| => if i < |clips| then Some(FillNum(clips[i], p[i])) else p[i])
  }

  /** The denominator list after the call. */
  function FilledDens(clips: seq<ClipInfo>, nums: seq<Option<int>>, dens: seq<Option<int>>): seq<Option<int>> {
    var p, q := Padded(nums, |clips|), Padded(dens, |clips|);
    seq(|q|, i requires 0 <= i < |q| => if i < |clips| then Some(FillDen(clips[i], p[i], q[i])) else q[i])
  }

  /** The frame rate clip `i` is given. */
  function RateOf(clips: seq<ClipInfo>, nums: seq<Option<int>>, dens: seq<Option<int>>, i: nat): Rate
    requires i < |clips|
  {
    var p, q := Padded(nums, |clips|), Padded(dens, |clips|);
    Rate(FillNum(clips[i], p[i]), FillDen(clips[i], p[i], q[i]))
  }

  /** The number of frames in a sequence of clips. */
  function Total(s: seq<ClipInfo>): (t: int)
    ensures t >= 0
  {
    if s == [] then 0 else Total(s[..|s| - 1]) + s[|s| - 1].numFrames
  }

  /**
   * The result of the call: a zero denominator raises ZeroDivisionError when the rates are
   * computed; with no clips at all, reading the first rate raises IndexError.
   */
  function SpliceSpec(clips: seq<ClipInfo>, nums: seq<Option<int>>, dens: seq<Option<int>>): Result<Timecodes> {
    if exists i :: 0 <= i < |clips| && RateOf(clips, nums, dens, i).den == 0 then Err(ZeroDivisionError)
    else if |clips| == 0 then Err(IndexError)
    else
      Ok(Timecodes(RateOf(clips, nums, dens, 0),
                   seq(|clips| - 1, k requires 0 <= k < |clips| - 1 =>
                         Line(Total(clips[..k + 1]), Total(clips[..k + 2]) - 1, RateOf(clips, nums, dens, k + 1))),
                   Total(clips)))
  }

  /** Appends `None` to the list until it has `n` entries (the padding loops). */
  method Pad(l: RateList, n: nat)
    modifies l
    ensures l.items == Padded(old(l.items), n)
  {
    ghost var s0 := l.items;
    var k := |l.items|;
    while k < n
      invariant l.items == Padded(s0, k)
      invariant k == |l.items| >= |s0| && (k == |s0| || k <= n)
      decreases n - k
    {
      l.items := l.items + [None];
      k := k + 1;
    }
    assert l.items == Padded(s0, n);
  }

  /** Fills in each clip's missing numerator and denominator (the lists are already padded). */
  method Fill(clips: seq<ClipInfo>, ns: RateList, ds: RateList)
    requires ns != ds && |ns.items| >= |clips| && |ds.items| >= |clips|
    modifies ns, ds
    ensures ns.items == FilledNums(clips, old(ns.items))
    ensures ds.items == FilledDens(clips, old(ns.items), old(ds.items))
  {
    ghost var p, q := ns.items, ds.items;
    assert Padded(p, |clips|) == p && Padded(q, |clips|) == q;
    for i := 0 to |clips|
      invariant |ns.items| == |p| && |ds.items| == |q|
      invariant forall j :: 0 <= j < |p| ==> ns.items[j] == if j < i then Some(FillNum(clips[j], p[j])) else p[j]
      invariant forall j :: 0 <= j < |q| ==> ds.items[j] == if j < i then Some(FillDen(clips[j], p[j], q[j])) else q[j]
    {
      if ns.items[i].None? {
        ns.items := ns.items[i := Some(clips[i].fpsNum)];
        ds.items := ds.items[i := Some(clips[i].fpsDen)];
      } else if ds.items[i].None? {
        ds.items := ds.items[i := Some(if ns.items[i].value > 10000 then 1001 else 1)];
      }
    }
  }

  /** The frame counts, then `fnum[i] += fnum[i - 1]` in place: each entry becomes a running total. */
  method RunningTotals(clips: seq<ClipInfo>) returns (fnum: array<int>)
    ensures fresh(fnum) && fnum.Length == |clips|
    ensures forall j :: 0 <= j < |clips| ==> fnum[j] == Total(clips[..j + 1])
  {
    fnum := new int[|clips|](i requires 0 <= i < |clips| => clips[i].numFrames);
    if |clips| > 0 {
      assert clips[..1] == [clips[0]] && clips[..1][..0] == [];
    }
    var i := 1;
    while i < |clips|
      invariant 1 <= i && (|clips| > 0 ==> i <= |clips|)
      invariant forall j :: 0 <= j < i && j < |clips| ==> fnum[j] == Total(clips[..j + 1])
      invariant forall j :: i <= j < |clips| ==> fnum[j] == clips[j].numFrames
    {
      assert clips[..i + 1][..i] == clips[..i];
      fnum[i] := fnum[i] + fnum[i - 1];
      i := i + 1;
    }
  }

  /**
   * splicev1. A list the caller passes (and that is not empty) is the one padded and filled;
   * `None` or an empty list is replaced by a fresh list the caller does not see.
   */
  method SpliceV1(clips: seq<ClipInfo>, num: RateList?, den: RateList?) returns (res: Result<Timecodes>)
    requires num != null && den != null && num == den ==> |num.items| == 0
    modifies num, den
    ensures res == SpliceSpec(clips, old(Given(num)), old(Given(den)))
    ensures num != null ==> num.items == if |old(num.items)| == 0 then old(num.items)
                                         else FilledNums(clips, old(Given(num)))
    ensures den != null ==> den.items == if |old(den.items)| == 0 then old(den.items)
                                         else FilledDens(clips, old(Given(num)), old(Given(den)))
  {
    ghost var nums0, dens0 := Given(num), Given(den);
    var ns, ds := FilledLists(clips, num, den);
    var n := |clips|;
    var rates :- Rates(clips, ns, ds, nums0, dens0);
    var fnum := RunningTotals(clips);
    if n == 0 {
      res := Err(IndexError);
      return;
    }
    var lines := TimecodeLines(clips, fnum, rates);
    // The joined clip `clip[0] + clip[1] + ...` has all the frames.
    assert clips[..n] == clips;
    SpliceSpecOk(clips, nums0, dens0, lines);
    res := Ok(Timecodes(rates[0], lines, fnum[n - 1]));
  }

  /**
   * The first half of splicev1: picks the caller's list or a fresh one for each argument, pads
   * both to the number of clips and fills them in.
   */
  method FilledLists(clips: seq<ClipInfo>, num: RateList?, den: RateList?) returns (ns: seq<Option<int>>, ds: seq<Option<int>>)
    requires num != null && den != null && num == den ==> |num.items| == 0
    modifies num, den
    ensures ns == FilledNums(clips, old(Given(num))) && ds == FilledDens(clips, old(Given(num)), old(Given(den)))
    ensures num != null ==> num.items == if |old(num.items)| == 0 then old(num.items) else ns
    ensures den != null ==> den.items == if |old(den.items)| == 0 then old(den.items) else ds
  {
    ghost var nums0, dens0 := Given(num), Given(den);
    var nl: RateList, dl: RateList;
    if num == null || |num.items| == 0 {
      nl := new RateList([]);
    } else {
      nl := num;
    }
    if den == null || |den.items| == 0 {
      dl := new RateList([]);
    } else {
      dl := den;
    }
    assert nl.items == nums0 && dl.items == dens0 && nl != dl;
    Pad(nl, |clips|);
    Pad(dl, |clips|);
    Fill(clips, nl, dl);
    ns, ds := nl.items, dl.items;
  }

  /** `float(num[i]) / den[i]` for every clip, kept exact; a zero denominator fails. */
  method Rates(clips: seq<ClipInfo>, ns: seq<Option<int>>, ds: seq<Option<int>>, ghost nums: seq<Option<int>>, ghost dens: seq<Option<int>>)
    returns (res: Result<seq<Rate>>)
    requires ns == FilledNums(clips, nums) && ds == FilledDens(clips, nums, dens)
    ensures res.Err? <==> exists i :: 0 <= i < |clips| && RateOf(clips, nums, dens, i).den == 0
    ensures res.Err? ==> res.error == ZeroDivisionError
    ensures res.Ok? ==> |res.value| == |clips| && forall j :: 0 <= j < |clips| ==> res.value[j] == RateOf(clips, nums, dens, j)
  {
    var rates: seq<Rate> := [];
    for i := 0 to |clips|
      invariant |rates| == i
      invariant forall j :: 0 <= j < i ==> rates[j] == RateOf(clips, nums, dens, j) && rates[j].den != 0
    {
      var r := Rate(ns[i].value, ds[i].value);
      assert r == RateOf(clips, nums, dens, i);
      if r.den == 0 {
        return Err(ZeroDivisionError);
      }
      rates := rates + [r];
    }
    return Ok(rates);
  }

  /** Line `i` runs from the total before clip `i` to one less than the total through it. */
  method TimecodeLines(clips: seq<ClipInfo>, fnum: array<int>, rates: seq<Rate>) returns (lines: seq<Line>)
    requires fnum.Length == |clips| == |rates| > 0
    requires forall j :: 0 <= j < |clips| ==> fnum[j] == Total(clips[..j + 1])
    ensures |lines| == |clips| - 1
    ensures forall j :: 0 <= j < |clips| - 1 ==> lines[j] == Line(Total(clips[..j + 1]), Total(clips[..j + 2]) - 1, rates[j + 1])
  {
    lines := [];
    for i := 1 to |clips|
      invariant |lines| == i - 1
      invariant forall j :: 0 <= j < i - 1 ==> lines[j] == Line(Total(clips[..j + 1]), Total(clips[..j + 2]) - 1, rates[j + 1])
    {
      lines := lines + [Line(fnum[i - 1], fnum[i] - 1, rates[i])];
    }
  }

  /** The successful result, given its lines one by one. */
  lemma SpliceSpecOk(clips: seq<ClipInfo>, nums: seq<Option<int>>, dens: seq<Option<int>>, lines: seq<Line>)
    requires |clips| > 0 && !exists i :: 0 <= i < |clips| && RateOf(clips, nums, dens, i).den == 0
    requires |lines| == |clips| - 1
    requires forall j :: 0 <= j < |clips| - 1 ==>
               lines[j] == Line(Total(clips[..j + 1]), Total(clips[..j + 2]) - 1, RateOf(clips, nums, dens, j + 1))
    ensures SpliceSpec(clips, nums, dens) == Ok(Timecodes(RateOf(clips, nums, dens, 0), lines, Total(clips)))
  {
    var ls := SpliceSpec(clips, nums, dens).value.lines;
    assert |ls| == |lines|;
    forall j | 0 <= j < |ls|
      ensures ls[j] == lines[j]
    {
    }
    assert ls == lines;
  }

  lemma TotalStep(s: seq<ClipInfo>, k: nat)
    requires k < |s|
    ensures Total(s[..k + 1]) == Total(s[..k]) + s[k].numFrames
  {
    assert s[..k + 1][..k] == s[..k];
  }

  /** How each clip's rate is chosen. */
  lemma FillRules(clips: seq<ClipInfo>, nums: seq<Option<int>>, dens: seq<Option<int>>, i: nat)
    requires i < |clips|
    ensures var r := RateOf(clips, nums, dens, i);
            var n := if i < |nums| then nums[i] else None;
            var d := if i < |dens| then dens[i] else None;
            (n.None? ==> r == Rate(clips[i].fpsNum, clips[i].fpsDen))
            && (n.Some? && d.None? ==> r == Rate(n.value, if n.value > 10000 then 1001 else 1))
            && (n.Some? && d.Some? ==> r == Rate(n.value, d.value))
  {
  }

  /** The call fails exactly when some rate has a zero denominator or there is no clip. */
  lemma SpliceErrors(clips: seq<ClipInfo>, nums: seq<Option<int>>, dens: seq<Option<int>>)
    ensures SpliceSpec(clips, nums, dens).Err? <==>
            |clips| == 0 || exists i :: 0 <= i < |clips| && RateOf(clips, nums, dens, i).den == 0
    ensures |clips| == 0 ==> SpliceSpec(clips, nums, dens) == Err(IndexError)
  {
  }

  /** The header covers the first clip's frames, and the joined clip has all the frames. */
  lemma SpliceHeader(clips: seq<ClipInfo>, nums: seq<Option<int>>, dens: seq<Option<int>>)
    requires SpliceSpec(clips, nums, dens).Ok?
    ensures var t := SpliceSpec(clips, nums, dens).value;
            |t.lines| == |clips| - 1 && t.assumed == RateOf(clips, nums, dens, 0) && t.frames == Total(clips)
            && (|t.lines| > 0 ==> t.lines[0].first == clips[0].numFrames)
            && (|t.lines| > 0 ==> t.lines[|t.lines| - 1].last == t.frames - 1)
  {
    assert clips[..1] == [clips[0]];
    assert Total(clips[..1]) == clips[0].numFrames by {
      TotalStep(clips, 0);
    }
    assert clips[..|clips|] == clips;
  }

  /** Each line covers exactly its clip's frames at its clip's rate. */
  lemma SpliceLineLength(clips: seq<ClipInfo>, nums: seq<Option<int>>, dens: seq<Option<int>>, k: nat)
    requires SpliceSpec(clips, nums, dens).Ok? && k < |SpliceSpec(clips, nums, dens).value.lines|
    ensures var l := SpliceSpec(clips, nums, dens).value.lines[k];
            l.last - l.first + 1 == clips[k + 1].numFrames && l.rate == RateOf(clips, nums, dens, k + 1)
  {
    TotalStep(clips, k + 1);
  }

  /** Each line starts on the frame after the previous one ends. */
  lemma SpliceContiguous(clips: seq<ClipInfo>, nums: seq<Option<int>>, dens: seq<Option<int>>, k: nat)
    requires SpliceSpec(clips, nums, dens).Ok? && k + 1 < |SpliceSpec(clips, nums, dens).value.lines|
    ensures var t := SpliceSpec(clips, nums, dens).value;
            t.lines[k + 1].first == t.lines[k].last + 1
  {
  }

  /** Three clips of 24, 30 and 24 frames with rates 24000/1001, 30000 (no denominator) and their own. */
  lemma SpliceExample()
    ensures var clips := [ClipInfo(24000, 1001, 24), ClipInfo(30, 1, 30), ClipInfo(25, 1, 24)];
            SpliceSpec(clips, [Some(24000), Some(30000)], [Some(1001)])
              == Ok(Timecodes(Rate(24000, 1001), [Line(24, 53, Rate(30000, 1001)), Line(54, 77, Rate(25, 1))], 78))
  {
    var clips := [ClipInfo(24000, 1001, 24), ClipInfo(30, 1, 30), ClipInfo(25, 1, 24)];
    var nums, dens := [Some(24000), Some(30000)], [Some(1001)];
    var p, q := Padded(nums, 3), Padded(dens, 3);
    assert p[0] == Some(24000) && p[1] == Some(30000) && p[2] == None;
    assert q[0] == Some(1001) && q[1] == None && q[2] == None;
    assert RateOf(clips, nums, dens, 0) == Rate(24000, 1001);
    assert RateOf(clips, nums, dens, 1) == Rate(30000, 1001);
    assert RateOf(clips, nums, dens, 2) == Rate(25, 1);
    assert !exists i :: 0 <= i < |clips| && RateOf(clips, nums, dens, i).den == 0;
    assert clips[..1] == [clips[0]] && clips[..2] == [clips[0], clips[1]] && clips[..3] == clips;
    assert [clips[0], clips[1]][..1] == [clips[0]];
    assert clips[..2][..1] == clips[..1];
    assert Total(clips[..1]) == 24;
    assert Total(clips[..2]) == 54;
    assert Total(clips) == 78;
    SpliceSpecOk(clips, nums, dens, [Line(24, 53, Rate(30000, 1001)), Line(54, 77, Rate(25, 1))]);
  }
}

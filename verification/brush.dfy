/**
  The raster half of `scribble_draw_brush`, identical in both programs:
  make sure the surface exists at the widget's size, then fill the sample's
  dab on it.
 */
module Brush {

  import opened CNumeric
  import opened Optional
  import opened Raster
  import opened Samples

  /** The dab painted for one sample. */
  function DabOf(smp: Sample): Rect {
    Dab(smp.x, smp.y, smp.pressure)
  }

  /** The dabs painted for a sequence of samples, in the same order. */
  function Dabs(ss: seq<Sample>): (rs: seq<Rect>)
    ensures |rs| == |ss|
    ensures forall i {:trigger rs[i]} :: 0 <= i < |ss| ==> rs[i] == DabOf(ss[i])
    decreases |ss|
  {
    if |ss| == 0 then [] else [DabOf(ss[0])] + Dabs(ss[1..])
  }

  /** Appending the first sample's dab and then the rest's is appending all of them. */
  lemma {:induction false} AppendDabs(base: seq<Rect>, ss: seq<Sample>)
    requires |ss| > 0
    ensures (base + [DabOf(ss[0])]) + Dabs(ss[1..]) == base + Dabs(ss)
  {
    assert Dabs(ss) == [DabOf(ss[0])] + Dabs(ss[1..]);
  }

  /** Guard the surface, then paint the sample's dab on it. */
  function PaintSample(current: Option<Surface>, w: Widget, smp: Sample): (s: Surface)
    ensures SameSize(s, w)
    ensures s.dabs == Ensure(current, w).dabs + [DabOf(smp)]
  {
    Paint(Ensure(current, w), DabOf(smp))
  }

  /** After one brush call a pixel is black where the sample's dab lies, and
      otherwise what it was on the kept surface, or white on a recreated one. */
  lemma PaintSampleColors(current: Option<Surface>, w: Widget, smp: Sample)
    ensures var s := PaintSample(current, w, smp);
      forall px, py :: InBounds(s, px, py) ==>
        ColorAt(s, px, py) ==
          if Covers(DabOf(smp), px, py) then Black
          else if current.Some? && SameSize(current.value, w) then ColorAt(current.value, px, py)
          else White
  {
  }

  /** A pixel covered by any dab in the log is black. */
  lemma CoveredIsBlack(s: Surface, i: int, px: int, py: int)
    requires 0 <= i < |s.dabs|
    requires InBounds(s, px, py)
    requires Covers(s.dabs[i], px, py)
    ensures ColorAt(s, px, py) == Black
  {
  }

  /** On a surface whose dab log ends with the dabs of `ss`, the pixel of every
      sample pressed hard enough to paint (pressure at least 0.1) is black. */
  lemma {:induction false} SamplesLeaveMarks(s: Surface, before: seq<Rect>, ss: seq<Sample>, i: int)
    requires s.dabs == before + Dabs(ss)
    requires 0 <= i < |ss|
    requires ss[i].pressure >= 0.1
    requires InBounds(s, Trunc(ss[i].x), Trunc(ss[i].y))
    ensures ColorAt(s, Trunc(ss[i].x), Trunc(ss[i].y)) == Black
  {
    DabCoversSample(ss[i].x, ss[i].y, ss[i].pressure);
    assert s.dabs[|before| + i] == DabOf(ss[i]);
    CoveredIsBlack(s, |before| + i, Trunc(ss[i].x), Trunc(ss[i].y));
  }
}

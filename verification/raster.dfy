/**
  The scribble surface of both programs: an image the size of the drawing
  widget, created white, on which each sample paints one filled square (a
  "dab"). Pixels are not stored: a surface is its dimensions plus the list of
  rectangles filled on it since it was created, and a pixel is black exactly
  when some filled rectangle covers it. Rectangles have integer corners, so a
  fill covers whole pixels with no anti-aliased edge; the fill colour is the
  default source colour of a fresh drawing context, opaque black.
 */
module Raster {

  import opened CNumeric
  import opened Optional

  /** The current size of the drawing widget, as its `get_width()` / `get_height()` report it. */
  datatype Widget = Widget(width: nat, height: nat)

  /** A rectangle with origin `(x, y)` and signed extents, as handed to the path builder. */
  datatype Rect = Rect(x: int, y: int, width: int, height: int)

  datatype Color = White | Black

  /** An image surface: its size and the rectangles filled on it, oldest first. */
  datatype Surface = Surface(width: int, height: int, dabs: seq<Rect>)

  /** The smaller and the larger of two ints. */
  function Min(a: int, b: int): int { if a <= b then a else b }
  function Max(a: int, b: int): int { if a <= b then b else a }

  /** Whether the fill of `r` covers pixel `(px, py)`, the unit square with that
      top-left corner. A negative extent spans back from the origin. */
  predicate Covers(r: Rect, px: int, py: int) {
    && Min(r.x, r.x + r.width) <= px < Max(r.x, r.x + r.width)
    && Min(r.y, r.y + r.height) <= py < Max(r.y, r.y + r.height)
  }

  predicate InBounds(s: Surface, px: int, py: int) {
    0 <= px < s.width && 0 <= py < s.height
  }

  /** The colour of an in-bounds pixel: black when some dab covers it, white otherwise. */
  function ColorAt(s: Surface, px: int, py: int): Color
    requires InBounds(s, px, py)
  {
    if exists i :: 0 <= i < |s.dabs| && Covers(s.dabs[i], px, py) then Black else White
  }

  /** Every pixel of the surface is white. */
  ghost predicate Blank(s: Surface) {
    forall px, py :: InBounds(s, px, py) ==> ColorAt(s, px, py) == White
  }

  predicate SameSize(s: Surface, w: Widget) {
    s.width == w.width && s.height == w.height
  }

  /** `scribble_create_surface`: a new surface of exactly the widget's size, painted white. */
  function Create(w: Widget): (s: Surface)
    ensures SameSize(s, w)
    ensures Blank(s)
  {
    Surface(w.width, w.height, [])
  }

  /** The guard at the top of `scribble_draw_brush`: keep the surface when it
      exists and has the widget's size, recreate it otherwise. */
  function Ensure(current: Option<Surface>, w: Widget): (s: Surface)
    ensures SameSize(s, w)
    ensures current.Some? && SameSize(current.value, w) ==> s == current.value
    ensures !(current.Some? && SameSize(current.value, w)) ==> Blank(s) && s.dabs == []
  {
    if current.None? || current.value.width != w.width || current.value.height != w.height then
      Create(w)
    else
      current.value
  }

  /** Running the guard a second time changes nothing. */
  lemma EnsureIdempotent(current: Option<Surface>, w: Widget)
    ensures Ensure(Some(Ensure(current, w)), w) == Ensure(current, w)
  {
  }

  /** The square painted for a sample at `(x, y)` with `pressure`: side
      `(int)(pressure * 10)`, origin `((int)x - side / 2, (int)y - side / 2)`
      with C++ integer division. */
  function Dab(x: real, y: real, pressure: real): (r: Rect)
    ensures r.width == r.height == Trunc(pressure * 10.0)
    ensures 0.0 <= pressure ==> 0 <= r.width && r.width as real <= pressure * 10.0 < r.width as real + 1.0
    ensures 0 <= r.width ==>
      && r.x <= Trunc(x) && 0 <= (r.x + r.width - Trunc(x)) - (Trunc(x) - r.x) <= 1
      && r.y <= Trunc(y) && 0 <= (r.y + r.height - Trunc(y)) - (Trunc(y) - r.y) <= 1
  {
    var side := Trunc(pressure * 10.0);
    var half := CDiv(side, 2);
    Rect(Trunc(x) - half, Trunc(y) - half, side, side)
  }

  /** For pressure in 0..1 the side is 0..10, and exactly 10 at full pressure. */
  lemma DabSideBounds(x: real, y: real, pressure: real)
    requires 0.0 <= pressure <= 1.0
    ensures 0 <= Dab(x, y, pressure).width <= 10
    ensures Dab(x, y, pressure).width == 10 <==> pressure == 1.0
  {
    var side := Dab(x, y, pressure).width;
    if side == 10 {
      assert pressure * 10.0 >= 10.0;
    }
  }

  /** A dab of side 1 or more covers the pixel of its own sample. */
  lemma DabCoversSample(x: real, y: real, pressure: real)
    requires pressure >= 0.1
    ensures Covers(Dab(x, y, pressure), Trunc(x), Trunc(y))
  {
    TruncAtLeast(pressure * 10.0, 1);
  }

  /** Filling a rectangle with opaque black: the surface keeps its size, and
      a pixel turns black when the rectangle covers it and keeps its colour
      otherwise. */
  function Paint(s: Surface, r: Rect): (t: Surface)
    ensures t.width == s.width && t.height == s.height
    ensures forall px, py :: InBounds(t, px, py) ==>
      ColorAt(t, px, py) == (if Covers(r, px, py) then Black else ColorAt(s, px, py))
  {
    FillColors(s, r);
    Surface(s.width, s.height, s.dabs + [r])
  }

  /** The pixels of a surface whose log gains one rectangle. */
  lemma FillColors(s: Surface, r: Rect)
    ensures var t := Surface(s.width, s.height, s.dabs + [r]);
      forall px, py :: InBounds(t, px, py) ==>
        ColorAt(t, px, py) == (if Covers(r, px, py) then Black else ColorAt(s, px, py))
  {
    var t := Surface(s.width, s.height, s.dabs + [r]);
    forall px, py | InBounds(t, px, py)
      ensures ColorAt(t, px, py) == (if Covers(r, px, py) then Black else ColorAt(s, px, py))
    {
      if Covers(r, px, py) {
        assert t.dabs[|s.dabs|] == r;
      } else if ColorAt(s, px, py) == Black {
        var i :| 0 <= i < |s.dabs| && Covers(s.dabs[i], px, py);
        assert t.dabs[i] == s.dabs[i];
      } else {
        forall i | 0 <= i < |t.dabs|
          ensures !Covers(t.dabs[i], px, py)
        {
          if i < |s.dabs| {
            assert t.dabs[i] == s.dabs[i];
          }
        }
      }
    }
  }
}

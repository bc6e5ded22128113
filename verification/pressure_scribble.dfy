/**
  The stylus handlers of pressure/main.cc: the scribbler without MIDI. Its
  only state is the scribble surface, absent until the first brush call or
  resize; its only outward effect is a redraw request after every dab.
 */
module PressureScribble {

  import opened Optional
  import opened Raster
  import opened Samples
  import opened Effects
  import opened Brush

  datatype Scribble = Scribble(surface: Option<Surface>)

  /** A handler's new state and what it asked of the outside world, in order. */
  datatype Outcome = Outcome(state: Scribble, effects: seq<Effect>)

  /** No surface exists before the first event. */
  const Init: Scribble := Scribble(None)

  /** The widget has a surface of its own size. */
  predicate Fits(s: Scribble, w: Widget) {
    s.surface.Some? && SameSize(s.surface.value, w)
  }

  /** `scribble_draw_brush`: one dab on the guarded surface, then one redraw. */
  function DrawBrush(s: Scribble, w: Widget, smp: Sample): (o: Outcome)
    ensures Fits(o.state, w)
    ensures o.state.surface.value.dabs == Ensure(s.surface, w).dabs + [DabOf(smp)]
    ensures o.effects == [QueueDraw]
  {
    Outcome(Scribble(Some(PaintSample(s.surface, w, smp))), [QueueDraw])
  }

  /** The brush applied to each sample in turn. */
  function DrawAll(s: Scribble, w: Widget, ss: seq<Sample>): (o: Outcome)
    ensures |ss| == 0 ==> o.state == s
    ensures |ss| > 0 ==> Fits(o.state, w)
    ensures |o.effects| == |ss|
    decreases |ss|
  {
    if |ss| == 0 then Outcome(s, [])
    else
      var first := DrawBrush(s, w, ss[0]);
      var rest := DrawAll(first.state, w, ss[1..]);
      Outcome(rest.state, first.effects + rest.effects)
  }

  /** Each sample's dab is painted, in sample order, on the guarded surface. */
  lemma {:induction false} DrawAllDabs(s: Scribble, w: Widget, ss: seq<Sample>)
    requires |ss| > 0
    ensures DrawAll(s, w, ss).state.surface.value.dabs == Ensure(s.surface, w).dabs + Dabs(ss)
    decreases |ss|
  {
    var first := DrawBrush(s, w, ss[0]);
    if |ss| == 1 {
      assert Dabs(ss) == [DabOf(ss[0])];
    } else {
      DrawAllDabs(first.state, w, ss[1..]);
      assert Ensure(first.state.surface, w) == first.state.surface.value;
      AppendDabs(Ensure(s.surface, w).dabs, ss);
    }
  }

  /** A brush call's only outward effect is its redraw request. */
  lemma {:induction false} DrawAllRedraws(s: Scribble, w: Widget, ss: seq<Sample>)
    ensures forall i :: 0 <= i < |DrawAll(s, w, ss).effects| ==> DrawAll(s, w, ss).effects[i] == QueueDraw
    decreases |ss|
  {
    if |ss| > 0 {
      var first := DrawBrush(s, w, ss[0]);
      var rest := DrawAll(first.state, w, ss[1..]);
      DrawAllRedraws(first.state, w, ss[1..]);
      var es := DrawAll(s, w, ss).effects;
      assert es == [QueueDraw] + rest.effects;
      forall i | 0 <= i < |es|
        ensures es[i] == QueueDraw
      {
        if i > 0 {
          assert es[i] == rest.effects[i - 1];
        }
      }
    }
  }

  /** `on_drawingarea_scribble_stylus_motion`: the brush for every backlog
      entry, oldest first, then for the event's own position. */
  function Motion(s: Scribble, w: Widget, numAxes: nat, backlog: seq<TimeCoord>,
                  x: real, y: real, pressure: Option<real>): (o: Outcome)
    ensures Fits(o.state, w)
    ensures o.state.surface.value.dabs ==
      Ensure(s.surface, w).dabs + Dabs(Expand(numAxes, backlog, x, y, pressure))
    ensures Redraws(o.effects) == |backlog| + 1 == |o.effects|
  {
    var ss := Expand(numAxes, backlog, x, y, pressure);
    var o := DrawAll(s, w, ss);
    DrawAllDabs(s, w, ss);
    DrawAllRedraws(s, w, ss);
    RedrawsAll(o.effects);
    o
  }

  lemma {:induction false} RedrawsAll(es: seq<Effect>)
    requires forall i :: 0 <= i < |es| ==> es[i] == QueueDraw
    ensures Redraws(es) == |es|
    decreases |es|
  {
    if |es| > 0 {
      RedrawsAll(es[1..]);
    }
  }

  /** `on_drawingarea_scribble_stylus_down`: does nothing. */
  function StylusDown(s: Scribble, x: real, y: real): (o: Outcome)
    ensures o.state == s && o.effects == []
  {
    Outcome(s, [])
  }

  /** `on_drawingarea_scribble_resize`: a new white surface at the widget's
      size, whatever was painted before; the reported size is not used. */
  function Resize(s: Scribble, w: Widget, width: int, height: int): (o: Outcome)
    ensures Fits(o.state, w)
    ensures Blank(o.state.surface.value) && o.state.surface.value.dabs == []
    ensures o.effects == []
  {
    Outcome(Scribble(Some(Create(w))), [])
  }

  /** The arguments of the resize signal make no difference. */
  lemma ResizeIgnoresArguments(s: Scribble, w: Widget, w1: int, h1: int, w2: int, h2: int)
    ensures Resize(s, w, w1, h1) == Resize(s, w, w2, h2)
  {
  }

  /** After a motion event, the pixel under every sample that pressed hard
      enough to paint is black. */
  lemma MotionLeavesMarks(s: Scribble, w: Widget, numAxes: nat, backlog: seq<TimeCoord>,
                          x: real, y: real, pressure: Option<real>, i: int)
    requires 0 <= i <= |backlog|
    requires Expand(numAxes, backlog, x, y, pressure)[i].pressure >= 0.1
    requires var smp := Expand(numAxes, backlog, x, y, pressure)[i];
      0 <= CNumeric.Trunc(smp.x) < w.width && 0 <= CNumeric.Trunc(smp.y) < w.height
    ensures var smp := Expand(numAxes, backlog, x, y, pressure)[i];
      var surface := Motion(s, w, numAxes, backlog, x, y, pressure).state.surface.value;
      ColorAt(surface, CNumeric.Trunc(smp.x), CNumeric.Trunc(smp.y)) == Black
  {
    var ss := Expand(numAxes, backlog, x, y, pressure);
    var surface := Motion(s, w, numAxes, backlog, x, y, pressure).state.surface.value;
    SamplesLeaveMarks(surface, Ensure(s.surface, w).dabs, ss, i);
  }

  /** Painting then resizing leaves nothing of the stroke. */
  lemma ResizeDiscardsStroke(s: Scribble, w: Widget, smp: Sample, w2: Widget, width: int, height: int)
    ensures var after := Resize(DrawBrush(s, w, smp).state, w2, width, height).state;
      forall px, py :: InBounds(after.surface.value, px, py) ==> ColorAt(after.surface.value, px, py) == White
  {
  }
}

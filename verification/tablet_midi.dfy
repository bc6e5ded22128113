/**
  The stylus handlers of tablet-midi/main.cc: the scribbler of
  pressure/main.cc with a MIDI voice attached. Every brush call paints the
  sample's dab, sends a Note Off for the previous key when the key changes,
  sends a Note On for the sample's key and velocity, remembers the key, and
  requests a redraw.
 */
module TabletMidi {

  import opened Optional
  import opened Midi
  import opened NoteMapper
  import opened Raster
  import opened Samples
  import opened Effects
  import opened Brush

  /** The surface (absent until first needed) and the last key sent, `m_prev_freq`. */
  datatype Scribble = Scribble(surface: Option<Surface>, prevPitch: int)

  /** A handler's new state and what it asked of the outside world, in order. */
  datatype Outcome = Outcome(state: Scribble, effects: seq<Effect>)

  /** No surface yet, and the remembered key starts at 0, not at "no key". */
  const Init: Scribble := Scribble(None, 0)

  /** The remembered key is a MIDI key. */
  predicate Valid(s: Scribble) {
    0 <= s.prevPitch <= MAX_DATA
  }

  /** The widget has a surface of its own size. */
  predicate Fits(s: Scribble, w: Widget) {
    s.surface.Some? && SameSize(s.surface.value, w)
  }

  /** The key and velocity a sample plays on a widget `width` pixels wide. */
  function NoteOf(smp: Sample, width: int): (n: Note)
    requires width > 0
    ensures NoteInRange(n)
  {
    Note(Pitch(smp.x, width), Velocity(smp.pressure))
  }

  function Notes(ss: seq<Sample>, width: int): (ns: seq<Note>)
    requires width > 0
    ensures |ns| == |ss|
    ensures forall i {:trigger ns[i]} :: 0 <= i < |ss| ==> ns[i] == NoteOf(ss[i], width)
    decreases |ss|
  {
    if |ss| == 0 then [] else [NoteOf(ss[0], width)] + Notes(ss[1..], width)
  }

  /** `scribble_draw_brush`: paint the sample's dab on the guarded surface,
      send the mapper's messages for the sample's note, remember its key,
      then request one redraw. */
  function DrawBrush(s: Scribble, w: Widget, smp: Sample): (o: Outcome)
    requires w.width > 0
    ensures Fits(o.state, w)
    ensures o.state.surface.value.dabs == Ensure(s.surface, w).dabs + [DabOf(smp)]
    ensures o.state.prevPitch == Pitch(smp.x, w.width)
  {
    Outcome(Scribble(Some(PaintSample(s.surface, w, smp)), Pitch(smp.x, w.width)),
            Sends(Wire(Step(s.prevPitch, NoteOf(smp, w.width)))) + [QueueDraw])
  }

  /** One brush call sends the mapper's messages for the sample's note, in
      the mapper's order, and requests exactly one redraw, after them. */
  lemma DrawBrushSends(s: Scribble, w: Widget, smp: Sample)
    requires w.width > 0
    ensures Sent(DrawBrush(s, w, smp).effects) == Wire(Step(s.prevPitch, NoteOf(smp, w.width)))
    ensures Redraws(DrawBrush(s, w, smp).effects) == 1
    ensures DrawBrush(s, w, smp).effects[|DrawBrush(s, w, smp).effects| - 1] == QueueDraw
  {
    var ms := Wire(Step(s.prevPitch, NoteOf(smp, w.width)));
    SentSends(ms);
    SentAppend(Sends(ms), [QueueDraw]);
  }

  /** What one brush call hands the transport, byte for byte: when the key
      changes `[128, prev, 64]` then `[144, key, velocity]`, otherwise only
      the latter; and the redraw comes after both. */
  lemma DrawBrushEffects(s: Scribble, w: Widget, smp: Sample)
    requires w.width > 0
    requires Valid(s)
    ensures var key := Pitch(smp.x, w.width);
      DrawBrush(s, w, smp).effects ==
        (if s.prevPitch != key then [Send([128, s.prevPitch, 64])] else [])
        + [Send([144, key, Velocity(smp.pressure)]), QueueDraw]
  {
  }

  /** The brush applied to each sample in turn. */
  function DrawAll(s: Scribble, w: Widget, ss: seq<Sample>): (o: Outcome)
    requires w.width > 0
    ensures |ss| == 0 ==> o.state == s
    ensures |ss| > 0 ==> Fits(o.state, w)
    ensures o.state.prevPitch == LastPitch(s.prevPitch, Notes(ss, w.width))
    decreases |ss|
  {
    if |ss| == 0 then Outcome(s, [])
    else
      var first := DrawBrush(s, w, ss[0]);
      var rest := DrawAll(first.state, w, ss[1..]);
      assert Notes(ss, w.width)[1..] == Notes(ss[1..], w.width);
      Outcome(rest.state, first.effects + rest.effects)
  }

  /** The messages sent for a run of samples are the mapper's run over their
      notes, and one redraw is requested per sample. */
  lemma {:induction false} DrawAllSends(s: Scribble, w: Widget, ss: seq<Sample>)
    requires w.width > 0
    ensures Sent(DrawAll(s, w, ss).effects) == Wire(Run(s.prevPitch, Notes(ss, w.width)))
    ensures Redraws(DrawAll(s, w, ss).effects) == |ss|
    decreases |ss|
  {
    if |ss| > 0 {
      var first := DrawBrush(s, w, ss[0]);
      var rest := DrawAll(first.state, w, ss[1..]);
      var ns := Notes(ss, w.width);
      assert ns[1..] == Notes(ss[1..], w.width);
      DrawAllSends(first.state, w, ss[1..]);
      DrawBrushSends(s, w, ss[0]);
      SentAppend(first.effects, rest.effects);
      WireAppend(Step(s.prevPitch, ns[0]), Run(ns[0].pitch, ns[1..]));
    }
  }

  /** The outward effects of playing `ns` from remembered key `prev`, sample
      by sample: each note's messages from the mapper, then that sample's
      redraw request. */
  function Trace(prev: int, ns: seq<Note>): (es: seq<Effect>)
    ensures Redraws(es) == |ns|
    decreases |ns|
  {
    if |ns| == 0 then []
    else
      var head := Sends(Wire(Step(prev, ns[0]))) + [QueueDraw];
      SentSends(Wire(Step(prev, ns[0])));
      SentAppend(Sends(Wire(Step(prev, ns[0]))), [QueueDraw]);
      SentAppend(head, Trace(ns[0].pitch, ns[1..]));
      head + Trace(ns[0].pitch, ns[1..])
  }

  /** The messages of a trace, read in order, are the wire form of the
      mapper's run over the same notes. */
  lemma {:induction false} TraceSends(prev: int, ns: seq<Note>)
    ensures Sent(Trace(prev, ns)) == Wire(Run(prev, ns))
    decreases |ns|
  {
    if |ns| > 0 {
      var head := Sends(Wire(Step(prev, ns[0]))) + [QueueDraw];
      TraceSends(ns[0].pitch, ns[1..]);
      SentSends(Wire(Step(prev, ns[0])));
      SentAppend(Sends(Wire(Step(prev, ns[0]))), [QueueDraw]);
      SentAppend(head, Trace(ns[0].pitch, ns[1..]));
      WireAppend(Step(prev, ns[0]), Run(ns[0].pitch, ns[1..]));
    }
  }

  /** The brush over a run of samples emits exactly the per-sample trace of
      their notes: no message and no redraw is moved, dropped or added. */
  lemma {:induction false} DrawAllEffects(s: Scribble, w: Widget, ss: seq<Sample>)
    requires w.width > 0
    ensures DrawAll(s, w, ss).effects == Trace(s.prevPitch, Notes(ss, w.width))
    decreases |ss|
  {
    if |ss| > 0 {
      var first := DrawBrush(s, w, ss[0]);
      var ns := Notes(ss, w.width);
      assert ns[1..] == Notes(ss[1..], w.width);
      DrawAllEffects(first.state, w, ss[1..]);
    }
  }

  /** Each sample's dab is painted, in sample order, on the guarded surface. */
  lemma {:induction false} DrawAllDabs(s: Scribble, w: Widget, ss: seq<Sample>)
    requires w.width > 0
    requires |ss| > 0
    ensures DrawAll(s, w, ss).state.surface.value.dabs == Ensure(s.surface, w).dabs + Dabs(ss)
    decreases |ss|
  {
    var first := DrawBrush(s, w, ss[0]);
    if |ss| == 1 {
      assert Dabs(ss) == [DabOf(ss[0])];
    } else {
      DrawAllDabs(first.state, w, ss[1..]);
      assert Ensure(first.state.surface, w) == first.state.surface.value;
      AppendDabs(Ensure(s.surface, w).dabs, ss);
    }
  }

  /** `on_drawingarea_scribble_stylus_motion`: the brush for every backlog
      entry, oldest first, then for the event's own position. The messages
      sent are the mapper's run over the samples' notes in that order, one
      redraw is requested per sample, and the surface ends with the samples'
      dabs in that order. */
  function Motion(s: Scribble, w: Widget, numAxes: nat, backlog: seq<TimeCoord>,
                  x: real, y: real, pressure: Option<real>): (o: Outcome)
    requires w.width > 0
    ensures Fits(o.state, w) && Valid(o.state)
    ensures o.state.surface.value.dabs ==
      Ensure(s.surface, w).dabs + Dabs(Expand(numAxes, backlog, x, y, pressure))
    ensures o.state.prevPitch == Pitch(x, w.width)
    ensures Sent(o.effects) ==
      Wire(Run(s.prevPitch, Notes(Expand(numAxes, backlog, x, y, pressure), w.width)))
    ensures Redraws(o.effects) == |backlog| + 1
    ensures o.effects == Trace(s.prevPitch, Notes(Expand(numAxes, backlog, x, y, pressure), w.width))
  {
    var ss := Expand(numAxes, backlog, x, y, pressure);
    DrawAllDabs(s, w, ss);
    DrawAllSends(s, w, ss);
    DrawAllEffects(s, w, ss);
    DrawAll(s, w, ss)
  }

  /** `on_drawingarea_scribble_stylus_down`: does nothing. */
  function StylusDown(s: Scribble, x: real, y: real): (o: Outcome)
    ensures o.state == s && o.effects == []
  {
    Outcome(s, [])
  }

  /** `on_drawingarea_scribble_resize`: a new white surface at the widget's
      size, whatever was painted before; the reported size is not used and
      no message is sent. */
  function Resize(s: Scribble, w: Widget, width: int, height: int): (o: Outcome)
    ensures Fits(o.state, w)
    ensures Blank(o.state.surface.value) && o.state.surface.value.dabs == []
    ensures o.state.prevPitch == s.prevPitch
    ensures o.effects == []
  {
    Outcome(Scribble(Some(Create(w)), s.prevPitch), [])
  }

  /** The arguments of the resize signal make no difference. */
  lemma ResizeIgnoresArguments(s: Scribble, w: Widget, w1: int, h1: int, w2: int, h2: int)
    ensures Resize(s, w, w1, h1) == Resize(s, w, w2, h2)
  {
  }

  /** The remembered key starts in range and every handler keeps it there. */
  lemma HandlersKeepValid(s: Scribble, w: Widget, numAxes: nat, backlog: seq<TimeCoord>,
                          x: real, y: real, pressure: Option<real>, width: int, height: int)
    requires Valid(s)
    ensures Valid(Init)
    ensures w.width > 0 ==> Valid(Motion(s, w, numAxes, backlog, x, y, pressure).state)
    ensures Valid(StylusDown(s, x, y).state)
    ensures Valid(Resize(s, w, width, height).state)
  {
  }

  /** From the initial state, the first sample whose key is not 0 releases
      key 0 before it plays: the transport first receives `[128, 0, 64]`. */
  lemma FirstKeyReleasesZero(w: Widget, smp: Sample)
    requires w.width > 0
    requires Pitch(smp.x, w.width) != 0
    ensures Sent(DrawBrush(Init, w, smp).effects) ==
      [[128, 0, 64], [144, Pitch(smp.x, w.width), Velocity(smp.pressure)]]
  {
    DrawBrushSends(Init, w, smp);
    var n := NoteOf(smp, w.width);
    assert Step(0, n) == [NoteOff(0, 64), NoteOn(n.pitch, n.velocity)];
    assert Wire(Step(0, n)) == [Encode(NoteOff(0, 64)), Encode(NoteOn(n.pitch, n.velocity))];
  }

  /** Every message a motion event sends is a well-formed 3-byte Note On or
      Note Off; read back, the log is monophonic from the remembered key, and
      its attacks are exactly the samples' notes, one per sample, in order. */
  lemma MotionLogIsMonophonic(s: Scribble, w: Widget, numAxes: nat, backlog: seq<TimeCoord>,
                              x: real, y: real, pressure: Option<real>)
    requires w.width > 0
    requires Valid(s)
    ensures var log := Run(s.prevPitch, Notes(Expand(numAxes, backlog, x, y, pressure), w.width));
      && Monophonic(s.prevPitch, log)
      && Attacks(log) == Notes(Expand(numAxes, backlog, x, y, pressure), w.width)
      && |Sent(Motion(s, w, numAxes, backlog, x, y, pressure).effects)| == |log|
      && forall i :: 0 <= i < |log| ==>
           Decode(Sent(Motion(s, w, numAxes, backlog, x, y, pressure).effects)[i]) == Some(log[i])
  {
    var ns := Notes(Expand(numAxes, backlog, x, y, pressure), w.width);
    var log := Run(s.prevPitch, ns);
    RunIsMonophonic(s.prevPitch, ns);
    RunInRange(s.prevPitch, ns);
    forall i | 0 <= i < |log|
      ensures Decode(Encode(log[i])) == Some(log[i])
    {
      DecodeEncode(log[i]);
    }
  }

  /** Samples that all stay on the remembered key re-attack it once each and
      never release it. */
  lemma {:induction false} RepeatedKeyOnlyReattacks(s: Scribble, w: Widget, ss: seq<Sample>)
    requires w.width > 0
    requires Valid(s)
    requires forall i :: 0 <= i < |ss| ==> Pitch(ss[i].x, w.width) == s.prevPitch
    ensures |Sent(DrawAll(s, w, ss).effects)| == |ss|
    ensures forall i :: 0 <= i < |ss| ==>
      Sent(DrawAll(s, w, ss).effects)[i] == [144, s.prevPitch, Velocity(ss[i].pressure)]
  {
    var ns := Notes(ss, w.width);
    DrawAllSends(s, w, ss);
    RunRepeat(s.prevPitch, ns);
  }

  /** Across a whole motion event, one Note On per sample and one Note Off per key change. */
  lemma MotionCounts(s: Scribble, w: Widget, numAxes: nat, backlog: seq<TimeCoord>,
                     x: real, y: real, pressure: Option<real>)
    requires w.width > 0
    ensures var ns := Notes(Expand(numAxes, backlog, x, y, pressure), w.width);
      && CountOn(Run(s.prevPitch, ns)) == |backlog| + 1
      && CountOff(Run(s.prevPitch, ns)) == Changes(s.prevPitch, ns)
  {
    RunCounts(s.prevPitch, Notes(Expand(numAxes, backlog, x, y, pressure), w.width));
  }

  /** A 256-pixel-wide widget, no backlog, a reading at (128, 50) with
      pressure 0.5, from remembered key 64: a dab of side 5 around (128, 50)
      and the single message `[144, 64, 64]`. */
  lemma ExampleMotion(surface: Option<Surface>)
    ensures var o := Motion(Scribble(surface, 64), Widget(256, 256), 6, [], 128.0, 50.0, Some(0.5));
      && Sent(o.effects) == [[144, 64, 64]]
      && o.state.surface.value.dabs[|o.state.surface.value.dabs| - 1] == Rect(126, 48, 5, 5)
  {
    var ss := Expand(6, [], 128.0, 50.0, Some(0.5));
    assert ss == [Samples.Sample(128.0, 50.0, 0.5)];
    PitchBand(128.0, 256, 64);
    VelocityBand(0.5, 64);
    assert Notes(ss, 256) == [Note(64, 64)];
  }
}

# Stylus scribbler with a MIDI voice — a verified Dafny model

Two small GTK programs share one drawing idea. In `pressure/main.cc` a
stylus moving over a drawing widget leaves filled squares ("dabs") on an
image surface. Each dab's side grows with pen pressure. In
`tablet-midi/main.cc` every dab also plays a note over MIDI. The key follows
the horizontal position and the velocity follows the pressure. When the key
changes, the previous key is released first.

This project models the per-sample logic of both programs as pure functions
over immutable state:

- `CNumeric`: the C++ conversions the code relies on. `(int)` on a double
  truncates toward zero, `/` on ints truncates toward zero, and
  `std::clamp` pins a value into a range.
- `Midi`: Note On / Note Off on channel 1 and their 3-byte wire form, status
  0x90 / 0x80 (MIDI 1.0 Detailed Specification, Channel Voice Messages). It
  also has a decoder, used to state that the encoding loses nothing.
- `NoteMapper`: key and velocity from position and pressure, and the
  messages for one sample given the last key sent (`m_prev_freq`). `Run`
  folds that over a sequence of notes. `Monophonic` is an independent
  description of the logs a one-voice receiver expects; it is proved
  equivalent to the logs `Run` can produce.
- `Raster`: the widget size, rectangles, and the surface. A surface is its
  size plus the rectangles filled on it since it was created. A pixel is
  black exactly when a filled rectangle covers it, and white otherwise.
  `Create`, `Ensure` (the size guard), `Dab` and `Paint` live here.
- `Samples`: how a motion event becomes brush samples. The backlog comes
  first, oldest first, then the event's own position. A missing pressure
  counts as 1.
- `Effects`: what a handler does that the outside sees, in order. That is a
  message handed to the MIDI transport or a redraw request.
- `Brush`: the raster half of `scribble_draw_brush`. It is the same code in
  both programs.
- `PressureScribble` and `TabletMidi`: the stylus-down, stylus-motion and
  resize handlers and `scribble_draw_brush` of each program. Each handler
  returns the new state and the effects it caused.

The widget's current size (`get_width()` / `get_height()`) is a parameter
of every handler. The device's axis count, the backlog and the gesture's
current pressure are parameters of the motion handler. The MIDI transport
is the list of `Send` effects.

Behaviour kept as the code has it:
- The remembered key starts at 0, not at "no key". From the start, the
  first sample whose key is not 0 therefore sends a Note Off for key 0 at
  velocity 64 before its Note On (`TabletMidi.FirstKeyReleasesZero`).
- The dab side is `(int)(pressure * 10)` and is not clamped. A negative
  pressure would give a rectangle with negative extents, which the fill
  spans back from its origin (`Raster.Covers`).
- Key and velocity truncate toward zero before clamping. For negative
  inputs this differs from flooring, but the clamp to 0 hides it.
- A backlog entry's pressure is read only when GDK 4's PRESSURE axis index
  (5: IGNORE, X, Y, DELTA_X, DELTA_Y, PRESSURE) is at most the device's
  axis count. The handler keeps a read-only proxy of the device's `n-axes`
  property, not the number (tablet-midi/main.cc:207, pressure/main.cc:177),
  so the comparison reads the property again for every backlog entry, and
  not at all when the backlog is empty. The device cannot change its axes
  inside one synchronous handler, so every read gives the same count; this
  is why `Motion` takes a single `numAxes`.
- Stylus-down does nothing. Resize ignores the size it is given and
  recreates the surface at the widget's size, which discards the stroke.

## Model

| member | source | states |
|---|---|---|
| NoteMapper.Pitch | tablet-midi/main.cc:250 | the key is always a MIDI key, 0..127 |
| NoteMapper.PitchBand | tablet-midi/main.cc:250 | key p is produced exactly when p·width ≤ 128·x < (p+1)·width; key 0 also takes everything left of that band and key 127 everything right of it (both directions) |
| NoteMapper.PitchInsideWidget | tablet-midi/main.cc:250 | inside the widget no clamping happens; x = width (or more) gives 127; x below width/128 gives 0 |
| NoteMapper.PitchMonotone | tablet-midi/main.cc:250 | moving right never lowers the key |
| NoteMapper.Velocity | tablet-midi/main.cc:251 | the velocity is always 0..127 |
| NoteMapper.VelocityBand | tablet-midi/main.cc:251 | velocity v is produced exactly when v ≤ 128·pressure < v+1, with 0 and 127 taking everything beyond (both directions) |
| NoteMapper.FullPressureVelocity | tablet-midi/main.cc:251 | pressure 1.0 gives velocity 127, not 128 |
| NoteMapper.Step | tablet-midi/main.cc:253-280 | one message when the key repeats, two when it changes; the last is always Note On for the new key and velocity; the first of two releases the previous key at velocity 64 |
| NoteMapper.RunCounts | tablet-midi/main.cc:253-283 | over any sequence of samples: one Note On per sample, and one Note Off per key change |
| NoteMapper.RunRepeat | tablet-midi/main.cc:253-283 | N samples on the sounding key give exactly N Note Ons of that key, with their velocities, and no Note Off |
| NoteMapper.RunAppend | tablet-midi/main.cc:253-283 | processing two batches one after the other is the same as processing their concatenation |
| NoteMapper.RunIsMonophonic | tablet-midi/main.cc:253-283 | every log the mapper sends is monophonic: each Note Off releases exactly the sounding key at velocity 64 and is followed at once by a Note On for a different key; its attacks are exactly the input notes, in order |
| NoteMapper.MonophonicIsRun | tablet-midi/main.cc:253-283 | conversely, every monophonic log is exactly what the mapper sends for its own attacks |
| NoteMapper.RunInRange | tablet-midi/main.cc:250-283 | starting from a key in 0..127, every key and velocity sent fits in a 7-bit data byte |
| NoteMapper.ExampleRun | tablet-midi/main.cc:253-283 | from key 0, keys 60, 60, 64 give Note Off 0, Note On 60, Note On 60, Note Off 60, Note On 64 |
| Midi.Encode | tablet-midi/main.cc:270-273 | every message is 3 bytes: the status byte 0x90 or 0x80, then the key and the velocity when they fit in 7 bits |
| Midi.ToByte | tablet-midi/main.cc:255-258 | pushing an int into the byte vector keeps it modulo 256, and keeps 0..255 unchanged |
| Midi.DecodeEncode | tablet-midi/main.cc:270-273 | a message with 7-bit data reads back from its bytes unchanged |
| Midi.EncodeDecode | tablet-midi/main.cc:255-258 | any 3 bytes that read back as a message are exactly that message's encoding |
| Midi.Wire | tablet-midi/main.cc:255-275 | the wire form of a message list has one 3-byte encoding per message, in the same order |
| CNumeric.Trunc | tablet-midi/main.cc:234 | `(int)` gives the integer part, rounding toward zero, for both signs |
| CNumeric.TruncAtLeast | tablet-midi/main.cc:250 | for k ≥ 1, the truncation is at least k exactly when the value is |
| CNumeric.TruncAtMost | tablet-midi/main.cc:250 | for k ≥ 0, the truncation is at most k exactly when the value is below k+1 |
| CNumeric.Clamp | tablet-midi/main.cc:250-251 | the result lies in the range; it is the value itself inside the range and the nearer bound outside it |
| CNumeric.CDiv | tablet-midi/main.cc:236 | C++ int division: the remainder is smaller than the divisor and has the dividend's sign |
| Raster.Create | tablet-midi/main.cc:182-191 | a new surface has exactly the widget's size and every pixel white |
| Raster.Ensure | tablet-midi/main.cc:229-232 | afterwards the surface has the widget's size; an existing surface of that size is kept unchanged; otherwise the surface is new and entirely white |
| Raster.EnsureIdempotent | pressure/main.cc:199-202 | running the size guard a second time changes nothing |
| Raster.Dab | tablet-midi/main.cc:234-236 | a square of side `(int)(pressure*10)`, the largest integer not above 10·pressure for non-negative pressure; around the sample it reaches floor(side/2) to the left and top and ceil(side/2) to the right and bottom |
| Raster.DabSideBounds | pressure/main.cc:204 | for pressure in 0..1 the side is 0..10, and is 10 only at full pressure |
| Raster.DabCoversSample | pressure/main.cc:204-206 | a dab of pressure 0.1 or more covers the sample's own pixel |
| Raster.Paint | pressure/main.cc:217-218 | the fill keeps the surface's size; afterwards a pixel is black where the rectangle lies and keeps its earlier colour elsewhere |
| Samples.FromBacklog | pressure/main.cc:179-185 | a backlog entry keeps its X and Y; its pressure is used only when the device has the pressure axis, otherwise it is 1 |
| Samples.BacklogSamples | pressure/main.cc:178-186 | one sample per backlog entry, in backlog order |
| Samples.Expand | tablet-midi/main.cc:206-224 | a motion event gives backlog-length + 1 samples: the backlog in order, then the event's position with the gesture's pressure, or 1 when there is none |
| Brush.Dabs | pressure/main.cc:204-206 | one dab per sample, in sample order |
| Brush.PaintSample | pressure/main.cc:197-218 | after one brush call the surface has the widget's size and its dab log is the guarded surface's log plus this sample's dab |
| Brush.PaintSampleColors | pressure/main.cc:197-218 | after one brush call a pixel is black under the dab, its earlier colour elsewhere on a kept surface, and white elsewhere on a recreated one |
| Brush.CoveredIsBlack | pressure/main.cc:217-218 | a pixel covered by any dab in the surface's log is black |
| Brush.SamplesLeaveMarks | pressure/main.cc:176-218 | on a surface whose log ends with the samples' dabs, each sample with pressure 0.1 or more leaves its pixel black |
| PressureScribble.DrawBrush | pressure/main.cc:197-221 | after a brush call the surface fits the widget and ends with the sample's dab, and exactly one redraw is requested |
| PressureScribble.DrawAll | pressure/main.cc:178-193 | with no samples nothing changes; with samples the surface fits the widget; one effect per sample |
| PressureScribble.DrawAllDabs | pressure/main.cc:178-193 | the surface ends with every sample's dab, in sample order, on top of the guarded surface |
| PressureScribble.DrawAllRedraws | pressure/main.cc:218-220 | every effect of a run of brush calls is a redraw request |
| PressureScribble.Motion | pressure/main.cc:176-194 | a motion event paints the backlog's dabs in order, then the current sample's, and makes backlog-length + 1 redraw requests, each right after its own sample's messages |
| PressureScribble.StylusDown | pressure/main.cc:169-174 | stylus-down changes no state and has no effect |
| PressureScribble.Resize | pressure/main.cc:163-167 | resize leaves a new, entirely white surface of the widget's size and no dab |
| PressureScribble.ResizeIgnoresArguments | pressure/main.cc:163-167 | the size passed to the resize handler makes no difference |
| PressureScribble.MotionLeavesMarks | pressure/main.cc:176-194 | after a motion event, every sample with pressure 0.1 or more whose pixel is on the surface has left that pixel black |
| PressureScribble.ResizeDiscardsStroke | pressure/main.cc:163-167 | painting a dab and then resizing leaves every pixel white |
| TabletMidi.NoteOf | tablet-midi/main.cc:250-251 | a sample's key and velocity are both in 0..127 |
| TabletMidi.DrawBrush | tablet-midi/main.cc:227-286 | after a brush call the surface fits the widget and ends with the sample's dab, and the remembered key is the sample's key |
| TabletMidi.DrawBrushSends | tablet-midi/main.cc:253-285 | one brush call sends exactly the mapper's messages for the sample, in order, and then requests exactly one redraw |
| TabletMidi.DrawBrushEffects | tablet-midi/main.cc:253-285 | byte for byte: on a key change `[128, prev, 64]` then `[144, key, vel]`, otherwise only `[144, key, vel]`; then the redraw |
| TabletMidi.DrawAll | tablet-midi/main.cc:208-223 | with no samples nothing changes; otherwise the surface fits the widget and the remembered key is the last sample's key |
| TabletMidi.DrawAllSends | tablet-midi/main.cc:208-223 | the messages sent for a run of samples are the mapper's run over their notes, and there is one redraw per sample |
| TabletMidi.DrawAllEffects | tablet-midi/main.cc:208-223 | the effects of a run of samples are, sample by sample, that sample's Note Off (on a key change) and Note On, then its redraw request; nothing is reordered, dropped or added |
| TabletMidi.TraceSends | tablet-midi/main.cc:253-285 | the messages of the per-sample trace, read in order, are the wire form of the mapper's run over the same notes |
| TabletMidi.DrawAllDabs | tablet-midi/main.cc:208-223 | the surface ends with every sample's dab, in sample order, on top of the guarded surface |
| TabletMidi.Motion | tablet-midi/main.cc:206-224 | a motion event paints the samples' dabs in order, sends the mapper's run over their notes, leaves the current position's key remembered, and makes backlog-length + 1 redraw requests, each right after its own sample's messages |
| TabletMidi.StylusDown | tablet-midi/main.cc:199-204 | stylus-down changes no state and sends nothing |
| TabletMidi.Resize | tablet-midi/main.cc:193-197 | resize leaves a new, entirely white surface of the widget's size, keeps the remembered key, and sends nothing |
| TabletMidi.ResizeIgnoresArguments | tablet-midi/main.cc:193-197 | the size passed to the resize handler makes no difference |
| TabletMidi.HandlersKeepValid | tablet-midi/main.cc:56 | the remembered key starts at 0, and every handler keeps it in 0..127 |
| TabletMidi.FirstKeyReleasesZero | tablet-midi/main.cc:253-283 | from the start, a first sample whose key is not 0 sends `[128, 0, 64]` and then `[144, key, vel]` |
| TabletMidi.MotionLogIsMonophonic | tablet-midi/main.cc:206-283 | every message a motion event sends decodes as a MIDI Note On or Note Off; together they form a monophonic log whose attacks are the samples' notes, in order |
| TabletMidi.RepeatedKeyOnlyReattacks | tablet-midi/main.cc:253-283 | samples that stay on the remembered key send exactly one `[144, key, vel]` each, and nothing else |
| TabletMidi.MotionCounts | tablet-midi/main.cc:206-283 | a motion event sends backlog-length + 1 Note Ons and one Note Off per key change |
| TabletMidi.ExampleMotion | tablet-midi/main.cc:227-283 | width 256, no backlog, sample (128, 50, 0.5), remembered key 64: a dab `Rect(126, 48, 5, 5)` and the single message `[144, 64, 64]` |

## Left out

- Window and widget construction, controller wiring and the draw callback
  that copies the surface to the screen (tablet-midi/main.cc:65-123,
  174-179; pressure/main.cc:58-96, 144-149). These are GUI glue.
- `on_drawingarea_checkerboard_draw`: decorative, never connected to a
  widget.
- `chooseMidiPort`, `RtMidiOut` construction and the destructor: these do
  interactive port selection and resource handling in the MIDI library.
- Send failures. `sendMessage` raising an error ends the process with
  `exit(EXIT_FAILURE)`. The model treats every send as delivered: the
  transport is a foreign call.
- Console logging, the unused `SLEEP` macro, and the commented-out code
  (drag gestures, the down-event dab, the SIGINT handler).
- Cairo pixel work: a surface keeps its list of filled rectangles, not
  pixels. Clipping is modelled only in that `ColorAt` is defined for
  in-bounds pixels. Integer-corner rectangles fill whole pixels, so no
  anti-aliasing is modelled.
- Double-precision rounding: positions and pressures are exact `real`s.
  NaN and infinity cannot arise. An `(int)` cast whose value lies outside
  the 32-bit range is undefined in C++; here it gives the exact integer.
- NoteMapper.Pitch: requires a widget width above 0. With width 0 the code
  divides by zero and casts the infinite or NaN result to `int`, which C++
  leaves undefined.
- TabletMidi.DrawBrush: requires a widget width above 0, for the same
  reason (and so do `DrawAll`, `Motion` and the lemmas about them).
- A final Note Off when the program closes: the code never sends one, and
  the model sends none either.

/**
  The MIDI half of `scribble_draw_brush` in tablet-midi/main.cc: a sample's
  horizontal position becomes a key, its pressure a velocity, and the one
  field of state, the previously sent key, decides whether the new Note On
  is preceded by a Note Off for the old key.
 */
module NoteMapper {

  import opened CNumeric
  import opened Midi

  /** The highest MIDI key and velocity. */
  const MAX_DATA: int := 127

  /** The key for horizontal position `x` on a widget `width` pixels wide:
      `(int)(x * 128 / width)`, clamped into 0..127. */
  function Pitch(x: real, width: int): (p: int)
    requires width > 0
    ensures 0 <= p <= MAX_DATA
  {
    Clamp(Trunc(x * 128.0 / width as real), 0, MAX_DATA)
  }

  /** The attack velocity for `pressure`: `(int)(pressure * 128)`, clamped into 0..127. */
  function Velocity(pressure: real): (v: int)
    ensures 0 <= v <= MAX_DATA
  {
    Clamp(Trunc(pressure * 128.0), 0, MAX_DATA)
  }

  /** Dividing by a positive width preserves a lower bound scaled by it. */
  lemma ScaledAtLeast(a: real, w: real, k: real)
    requires w > 0.0
    ensures a / w >= k <==> a >= k * w
  {
    assert a / w * w == a;
    if a / w >= k {
      assert a / w * w >= k * w;
    } else {
      assert a / w * w < k * w;
    }
  }

  /** Which key a position produces, stated without truncation or clamping:
      key `p` covers the band `p * width <= 128 * x < (p + 1) * width`, the
      lowest key also takes everything left of it and the highest everything
      right of it. */
  lemma PitchBand(x: real, width: int, p: int)
    requires width > 0
    requires 0 <= p <= MAX_DATA
    ensures Pitch(x, width) == p <==>
      && (p == 0 || (p * width) as real <= 128.0 * x)
      && (p == MAX_DATA || 128.0 * x < ((p + 1) * width) as real)
  {
    var w := width as real;
    var q := x * 128.0 / w;
    ScaledAtLeast(x * 128.0, w, p as real);
    ScaledAtLeast(x * 128.0, w, (p + 1) as real);
    assert (p * width) as real == p as real * w;
    assert ((p + 1) * width) as real == (p + 1) as real * w;
    if p >= 1 {
      TruncAtLeast(q, p);
    }
    TruncAtMost(q, p);
    if p + 1 <= MAX_DATA {
      TruncAtLeast(q, p + 1);
    }
  }

  /** Inside the widget no clamping happens, and the right edge gives the top key. */
  lemma PitchInsideWidget(x: real, width: int)
    requires width > 0
    ensures 0.0 <= x < width as real ==> Pitch(x, width) == Trunc(x * 128.0 / width as real)
    ensures x >= width as real ==> Pitch(x, width) == MAX_DATA
    ensures x < width as real / 128.0 ==> Pitch(x, width) == 0
  {
    var w := width as real;
    var q := x * 128.0 / w;
    ScaledAtLeast(x * 128.0, w, 128.0);
    ScaledAtLeast(x * 128.0, w, 1.0);
    ScaledAtLeast(x * 128.0, w, 0.0);
    TruncAtMost(q, MAX_DATA);
    TruncAtLeast(q, 1);
    if 0.0 <= x {
      TruncTowardZero(q);
    }
    if x >= w {
      TruncAtLeast(q, 128);
    }
  }

  /** Key is monotone in position. */
  lemma PitchMonotone(x1: real, x2: real, width: int)
    requires width > 0
    requires x1 <= x2
    ensures Pitch(x1, width) <= Pitch(x2, width)
  {
    var w := width as real;
    assert x1 * 128.0 <= x2 * 128.0;
    assert x1 * 128.0 / w <= x2 * 128.0 / w;
    TruncMonotone(x1 * 128.0 / w, x2 * 128.0 / w);
  }

  /** Which velocity a pressure produces, stated without truncation or clamping:
      velocity `v` covers `v <= 128 * pressure < v + 1`, 0 also takes everything
      below and 127 everything from 127/128 up (so full pressure 1.0 gives 127). */
  lemma VelocityBand(pressure: real, v: int)
    requires 0 <= v <= MAX_DATA
    ensures Velocity(pressure) == v <==>
      && (v == 0 || v as real <= 128.0 * pressure)
      && (v == MAX_DATA || 128.0 * pressure < (v + 1) as real)
  {
    var q := pressure * 128.0;
    if v >= 1 {
      TruncAtLeast(q, v);
    }
    TruncAtMost(q, v);
    if v + 1 <= MAX_DATA {
      TruncAtLeast(q, v + 1);
    }
  }

  /** Full pressure gives 127, not 128. */
  lemma FullPressureVelocity()
    ensures Velocity(1.0) == MAX_DATA
  {
    VelocityBand(1.0, MAX_DATA);
  }

  /** One sample's key and attack velocity. */
  datatype Note = Note(pitch: int, velocity: int)

  predicate NoteInRange(n: Note) {
    0 <= n.pitch <= MAX_DATA && 0 <= n.velocity <= MAX_DATA
  }

  /** The messages sent for `n` when `prev` was the last key sent: a Note Off
      for `prev` with the fixed release velocity when the key changes, then
      always a Note On for the new key. */
  function Step(prev: int, n: Note): (ms: seq<Message>)
    ensures |ms| == (if prev == n.pitch then 1 else 2)
    ensures ms[|ms| - 1] == NoteOn(n.pitch, n.velocity)
    ensures |ms| == 2 ==> ms[0] == NoteOff(prev, RELEASE_VELOCITY)
  {
    if prev != n.pitch then
      [NoteOff(prev, RELEASE_VELOCITY), NoteOn(n.pitch, n.velocity)]
    else
      [NoteOn(n.pitch, n.velocity)]
  }

  /** The last key sent after a run of notes starting from `prev`. */
  function LastPitch(prev: int, ns: seq<Note>): int {
    if |ns| == 0 then prev else ns[|ns| - 1].pitch
  }

  /** The messages sent for a sequence of notes, oldest first. */
  function Run(prev: int, ns: seq<Note>): seq<Message>
    decreases |ns|
  {
    if |ns| == 0 then [] else Step(prev, ns[0]) + Run(ns[0].pitch, ns[1..])
  }

  function CountOn(ms: seq<Message>): nat {
    if |ms| == 0 then 0 else (if ms[0].NoteOn? then 1 else 0) + CountOn(ms[1..])
  }

  function CountOff(ms: seq<Message>): nat {
    if |ms| == 0 then 0 else (if ms[0].NoteOff? then 1 else 0) + CountOff(ms[1..])
  }

  /** How many times the key changes along `ns`, starting from `prev`. */
  function Changes(prev: int, ns: seq<Note>): nat
    decreases |ns|
  {
    if |ns| == 0 then 0
    else (if ns[0].pitch != prev then 1 else 0) + Changes(ns[0].pitch, ns[1..])
  }

  lemma {:induction false} CountAppend(a: seq<Message>, b: seq<Message>)
    ensures CountOn(a + b) == CountOn(a) + CountOn(b)
    ensures CountOff(a + b) == CountOff(a) + CountOff(b)
    decreases |a|
  {
    if |a| > 0 {
      assert (a + b)[0] == a[0];
      assert (a + b)[1..] == a[1..] + b;
      CountAppend(a[1..], b);
    } else {
      assert a + b == b;
    }
  }

  /** One Note On per note, and one Note Off per key change. */
  lemma {:induction false} RunCounts(prev: int, ns: seq<Note>)
    ensures CountOn(Run(prev, ns)) == |ns|
    ensures CountOff(Run(prev, ns)) == Changes(prev, ns)
    decreases |ns|
  {
    if |ns| > 0 {
      var s := Step(prev, ns[0]);
      CountAppend(s, Run(ns[0].pitch, ns[1..]));
      RunCounts(ns[0].pitch, ns[1..]);
      if |s| == 2 {
        assert s[1..][1..] == [];
      } else {
        assert s[1..] == [];
      }
    }
  }

  /** `n` repeats of the sounding key give `n` Note Ons and nothing else. */
  lemma {:induction false} RunRepeat(prev: int, ns: seq<Note>)
    requires forall i :: 0 <= i < |ns| ==> ns[i].pitch == prev
    ensures |Run(prev, ns)| == |ns|
    ensures forall i :: 0 <= i < |ns| ==> Run(prev, ns)[i] == NoteOn(prev, ns[i].velocity)
    ensures CountOff(Run(prev, ns)) == 0
    decreases |ns|
  {
    if |ns| > 0 {
      RunRepeat(prev, ns[1..]);
      RunCounts(prev, ns);
      assert Changes(prev, ns) == 0 by {
        RepeatNoChanges(prev, ns);
      }
    }
  }

  lemma {:induction false} RepeatNoChanges(prev: int, ns: seq<Note>)
    requires forall i :: 0 <= i < |ns| ==> ns[i].pitch == prev
    ensures Changes(prev, ns) == 0
    decreases |ns|
  {
    if |ns| > 0 {
      RepeatNoChanges(prev, ns[1..]);
    }
  }

  /** Running two batches back to back is running their concatenation. */
  lemma {:induction false} RunAppend(prev: int, a: seq<Note>, b: seq<Note>)
    ensures Run(prev, a + b) == Run(prev, a) + Run(LastPitch(prev, a), b)
    decreases |a|
  {
    if |a| > 0 {
      assert (a + b)[0] == a[0];
      assert (a + b)[1..] == a[1..] + b;
      RunAppend(a[0].pitch, a[1..], b);
      assert LastPitch(a[0].pitch, a[1..]) == LastPitch(prev, a);
    } else {
      assert a + b == b;
    }
  }

  /**
    An independent description of the logs the mapper can produce, read as a
    monophonic receiver would: from a held key, a message log is monophonic
    when it is a sequence of either a re-attack of the held key, or a release
    of exactly the held key at velocity 64 immediately followed by an attack
    of a different key, which becomes the held key.
   */
  predicate Monophonic(held: int, log: seq<Message>)
    decreases |log|
  {
    if |log| == 0 then true
    else match log[0]
      case NoteOn(k, _) => k == held && Monophonic(held, log[1..])
      case NoteOff(k, v) =>
        && k == held && v == RELEASE_VELOCITY
        && |log| >= 2 && log[1].NoteOn? && log[1].key != held
        && Monophonic(log[1].key, log[2..])
  }

  /** The attacks of a log, as notes. */
  function Attacks(log: seq<Message>): seq<Note>
    decreases |log|
  {
    if |log| == 0 then []
    else if log[0].NoteOn? then [Note(log[0].key, log[0].velocity)] + Attacks(log[1..])
    else Attacks(log[1..])
  }

  /** Everything the mapper sends is monophonic: every Note Off releases the
      key that is sounding, and a new key is only attacked after that release. */
  lemma {:induction false} RunIsMonophonic(prev: int, ns: seq<Note>)
    ensures Monophonic(prev, Run(prev, ns))
    ensures Attacks(Run(prev, ns)) == ns
    decreases |ns|
  {
    if |ns| > 0 {
      var s := Step(prev, ns[0]);
      var rest := Run(ns[0].pitch, ns[1..]);
      RunIsMonophonic(ns[0].pitch, ns[1..]);
      var log := s + rest;
      if prev == ns[0].pitch {
        assert log[1..] == rest;
      } else {
        assert log[1] == NoteOn(ns[0].pitch, ns[0].velocity);
        assert log[1..] == [log[1]] + rest;
        assert log[1..][1..] == rest;
        assert log[2..] == rest;
      }
    }
  }

  /** Conversely, every monophonic log is what the mapper sends for its own attacks. */
  lemma {:induction false} MonophonicIsRun(held: int, log: seq<Message>)
    requires Monophonic(held, log)
    ensures Run(held, Attacks(log)) == log
    decreases |log|
  {
    if |log| > 0 {
      match log[0]
      case NoteOn(k, v) =>
        MonophonicIsRun(held, log[1..]);
        assert log == [log[0]] + log[1..];
      case NoteOff(k, v) =>
        var on := log[1];
        MonophonicIsRun(on.key, log[2..]);
        assert log[1..][1..] == log[2..];
        assert Attacks(log) == [Note(on.key, on.velocity)] + Attacks(log[2..]);
        assert log == [log[0], log[1]] + log[2..];
    }
  }

  /** Starting from a key in range, with notes in range, every message sent
      fits in a 3-byte MIDI message. */
  lemma {:induction false} RunInRange(prev: int, ns: seq<Note>)
    requires 0 <= prev <= MAX_DATA
    requires forall i :: 0 <= i < |ns| ==> NoteInRange(ns[i])
    ensures forall i :: 0 <= i < |Run(prev, ns)| ==> DataInRange(Run(prev, ns)[i])
    decreases |ns|
  {
    if |ns| > 0 {
      RunInRange(ns[0].pitch, ns[1..]);
      var s := Step(prev, ns[0]);
      var rest := Run(ns[0].pitch, ns[1..]);
      forall i | 0 <= i < |s + rest|
        ensures DataInRange((s + rest)[i])
      {
        if i >= |s| {
          assert (s + rest)[i] == rest[i - |s|];
        }
      }
    }
  }

  /** The example run 60, 60, 64 from the initial key 0. */
  lemma ExampleRun()
    ensures Run(0, [Note(60, 100), Note(60, 90), Note(64, 80)]) ==
      [NoteOff(0, 64), NoteOn(60, 100), NoteOn(60, 90), NoteOff(60, 64), NoteOn(64, 80)]
  {
  }
}

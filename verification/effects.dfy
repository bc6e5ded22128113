/**
  What a handler does that the outside world sees, in order: a message
  handed to the MIDI transport, or a redraw requested from the widget.
 */
module Effects {

  import Midi

  datatype Effect =
    | Send(bytes: seq<Midi.byte>)
    | QueueDraw

  /** The messages sent, in order. */
  function Sent(es: seq<Effect>): (ms: seq<seq<Midi.byte>>)
    ensures |ms| <= |es|
    decreases |es|
  {
    if |es| == 0 then []
    else if es[0].Send? then [es[0].bytes] + Sent(es[1..])
    else Sent(es[1..])
  }

  /** How many redraws were requested. */
  function Redraws(es: seq<Effect>): (n: nat)
    ensures n <= |es|
    decreases |es|
  {
    if |es| == 0 then 0
    else (if es[0].QueueDraw? then 1 else 0) + Redraws(es[1..])
  }

  lemma {:induction false} SentAppend(a: seq<Effect>, b: seq<Effect>)
    ensures Sent(a + b) == Sent(a) + Sent(b)
    ensures Redraws(a + b) == Redraws(a) + Redraws(b)
    decreases |a|
  {
    if |a| > 0 {
      assert (a + b)[0] == a[0];
      assert (a + b)[1..] == a[1..] + b;
      SentAppend(a[1..], b);
    } else {
      assert a + b == b;
    }
  }

  /** A list of sends, one per wire message, in the same order. */
  function Sends(ms: seq<seq<Midi.byte>>): (es: seq<Effect>)
    ensures |es| == |ms|
    ensures forall i {:trigger es[i]} :: 0 <= i < |ms| ==> es[i] == Send(ms[i])
    decreases |ms|
  {
    if |ms| == 0 then [] else [Send(ms[0])] + Sends(ms[1..])
  }

  /** Projecting a list of sends back gives the wire messages, and no redraw. */
  lemma {:induction false} SentSends(ms: seq<seq<Midi.byte>>)
    ensures Sent(Sends(ms)) == ms
    ensures Redraws(Sends(ms)) == 0
    decreases |ms|
  {
    if |ms| > 0 {
      assert Sends(ms)[1..] == Sends(ms[1..]);
      SentSends(ms[1..]);
    }
  }
}

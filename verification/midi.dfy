/**
  The two MIDI 1.0 channel-voice messages the scribbler sends, and their
  3-byte wire form (MIDI 1.0 Detailed Specification, "Channel Voice
  Messages"): a status byte whose high nibble is the message kind and whose
  low nibble is the channel (0 here, i.e. channel 1), followed by two data
  bytes, each below 0x80.
 */
module Midi {

  import opened Optional

  type byte = b: int | 0 <= b < 256

  /** Status byte of Note Off on channel 1. */
  const NOTE_OFF: byte := 0x80
  /** Status byte of Note On on channel 1. */
  const NOTE_ON: byte := 0x90
  /** The fixed release velocity sent with every Note Off. */
  const RELEASE_VELOCITY: int := 64

  datatype Message =
    | NoteOn(key: int, velocity: int)
    | NoteOff(key: int, velocity: int)

  /** Both data fields fit in a 7-bit data byte. */
  predicate DataInRange(m: Message) {
    0 <= m.key < 128 && 0 <= m.velocity < 128
  }

  /** Pushing an `int` into a `std::vector<unsigned char>` keeps it modulo 256. */
  function ToByte(v: int): (b: byte)
    ensures 0 <= v < 256 ==> b == v
    ensures (v - b) % 256 == 0
  {
    v % 256
  }

  /** The three bytes handed to the transport for `m`. */
  function Encode(m: Message): (bytes: seq<byte>)
    ensures |bytes| == 3
    ensures bytes[0] == (if m.NoteOn? then NOTE_ON else NOTE_OFF)
    ensures DataInRange(m) ==> bytes[1] == m.key && bytes[2] == m.velocity
  {
    match m
    case NoteOn(k, v) => [NOTE_ON, ToByte(k), ToByte(v)]
    case NoteOff(k, v) => [NOTE_OFF, ToByte(k), ToByte(v)]
  }

  /** Reads a 3-byte channel-1 Note On or Note Off back; anything else is `None`. */
  function Decode(bytes: seq<byte>): (m: Option<Message>)
    ensures m.Some? ==> |bytes| == 3 && DataInRange(m.value)
    ensures m.Some? ==> (m.value.NoteOn? <==> bytes[0] == NOTE_ON)
  {
    if |bytes| != 3 || bytes[1] >= 128 || bytes[2] >= 128 then None
    else if bytes[0] == NOTE_ON then Some(NoteOn(bytes[1], bytes[2]))
    else if bytes[0] == NOTE_OFF then Some(NoteOff(bytes[1], bytes[2]))
    else None
  }

  /** Encoding loses nothing for messages whose data fit in 7 bits. */
  lemma DecodeEncode(m: Message)
    requires DataInRange(m)
    ensures Decode(Encode(m)) == Some(m)
  {
  }

  /** Every byte string that decodes is exactly the encoding of what it decodes to. */
  lemma EncodeDecode(bytes: seq<byte>)
    requires Decode(bytes).Some?
    ensures Encode(Decode(bytes).value) == bytes
  {
  }

  /** The wire form of a sequence of messages, one 3-byte message each. */
  function Wire(ms: seq<Message>): (w: seq<seq<byte>>)
    ensures |w| == |ms|
    ensures forall i {:trigger w[i]} :: 0 <= i < |ms| ==> w[i] == Encode(ms[i])
  {
    if |ms| == 0 then [] else [Encode(ms[0])] + Wire(ms[1..])
  }

  /** The wire form of a concatenation is the concatenation of wire forms. */
  lemma WireAppend(a: seq<Message>, b: seq<Message>)
    ensures Wire(a + b) == Wire(a) + Wire(b)
  {
  }
}

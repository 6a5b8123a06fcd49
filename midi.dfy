/**
 * MIDI message framing: the byte arrays hand2midi hands to its output port.
 *
 * A message is the byte slice of one `send` call. Status bytes are built as
 * `base | (channel - 1)` on `u8`, exactly as the program writes them; `Decode`
 * reads a message back as a Channel Voice Message of the MIDI 1.0 Detailed
 * Specification (high nibble = message kind, low nibble = channel - 1, data
 * bytes below 0x80), and every builder is proved to round-trip through it.
 */
module Midi {
  import opened Options

  /** An unsigned 8-bit value (Rust `u8`). */
  type Byte = b: int | 0 <= b < 256

  /** The bytes of one `send` call on the output port. */
  type Message = seq<Byte>

  /** The channel every message of the program goes to (1-based). */
  const MIDI_CHANNEL: Byte := 2

  const NOTE_OFF: Byte := 0x80
  const NOTE_ON: Byte := 0x90
  const CONTROL_CHANGE: Byte := 0xB0
  const PROGRAM_CHANGE: Byte := 0xC0

  /** Controller number of the All Notes Off channel mode message. */
  const ALL_NOTES_OFF: Byte := 123

  /** The sixteen channels a status byte can address. */
  predicate ValidChannel(channel: int) {
    1 <= channel <= 16
  }

  function Pow2(n: nat): (r: nat)
    ensures r >= 1
  {
    if n == 0 then 1 else 2 * Pow2(n - 1)
  }

  /** Bitwise or of the low `width` bits of `a` and `b`. */
  function BitOr(a: nat, b: nat, width: nat): (r: nat)
    ensures r < Pow2(width)
  {
    if width == 0 then 0
    else (if a % 2 == 1 || b % 2 == 1 then 1 else 0) + 2 * BitOr(a / 2, b / 2, width - 1)
  }

  lemma {:induction false} OrWithZero(a: nat, width: nat)
    requires a < Pow2(width)
    ensures BitOr(a, 0, width) == a
  {
    if width > 0 {
      OrWithZero(a / 2, width - 1);
    }
  }

  /** When the bits of `b` lie below the lowest set bit of `a`, or is addition. */
  lemma {:induction false} OrDisjoint(hi: nat, b: nat, k: nat, width: nat)
    requires k <= width && b < Pow2(k) && hi * Pow2(k) < Pow2(width)
    ensures BitOr(hi * Pow2(k), b, width) == hi * Pow2(k) + b
  {
    if k == 0 {
      OrWithZero(hi, width);
    } else {
      assert hi * Pow2(k) == 2 * (hi * Pow2(k - 1));
      OrDisjoint(hi, b / 2, k - 1, width - 1);
    }
  }

  lemma Pow2Nibble()
    ensures Pow2(4) == 16 && Pow2(8) == 256
  {
    assert Pow2(2) == 4;
    assert Pow2(4) == 16;
    assert Pow2(6) == 64;
  }

  /**
   * `kind | (channel - 1)` on `u8`. The subtraction underflows for channel 0,
   * so the channel is at least 1. For a kind with a clear low nibble and one of
   * the sixteen channels, the channel lands in the low nibble.
   */
  function StatusByte(kind: Byte, channel: Byte): (s: Byte)
    requires 1 <= channel
    ensures kind % 16 == 0 && ValidChannel(channel) ==> s == kind + channel - 1
  {
    var s := BitOr(kind, channel - 1, 8);
    if kind % 16 == 0 && ValidChannel(channel) then
      Pow2Nibble();
      assert (kind / 16) * Pow2(4) == kind && channel - 1 < Pow2(4) && kind < Pow2(8);
      OrDisjoint(kind / 16, channel - 1, 4, 8);
      s
    else
      s
  }

  /** For a clear low nibble, the status byte's high nibble is the kind and its low nibble the channel - 1. */
  lemma StatusFields(kind: Byte, channel: Byte)
    requires 1 <= channel
    ensures kind % 16 == 0 && ValidChannel(channel) ==>
      var s := StatusByte(kind, channel);
      s % 16 == channel - 1 && s - s % 16 == kind
  {
    if kind % 16 == 0 && ValidChannel(channel) {
      var s := StatusByte(kind, channel);
      assert s == 16 * (kind / 16) + (channel - 1);
    }
  }

  /** A Channel Voice Message as a receiver reads it. */
  datatype Event =
    | NoteOffEvent(channel: int, pitch: int, velocity: int)
    | NoteOnEvent(channel: int, pitch: int, velocity: int)
    | ControlChangeEvent(channel: int, controller: int, value: int)
    | ProgramChangeEvent(channel: int, program: int)

  /**
   * Reads a message as one of the four Channel Voice Messages the program uses:
   * a status byte (bit 7 set) followed by one data byte for a program change or
   * two for the others, every data byte below 0x80. Anything else is `None`.
   */
  function Decode(m: Message): (e: Option<Event>) {
    if |m| == 0 || m[0] < 0x80 then None
    else
      var kind := m[0] - m[0] % 16;
      var channel := m[0] % 16 + 1;
      if kind == PROGRAM_CHANGE then
        if |m| == 2 && m[1] < 0x80 then Some(ProgramChangeEvent(channel, m[1])) else None
      else if (kind == NOTE_OFF || kind == NOTE_ON || kind == CONTROL_CHANGE)
              && |m| == 3 && m[1] < 0x80 && m[2] < 0x80 then
        if kind == NOTE_OFF then Some(NoteOffEvent(channel, m[1], m[2]))
        else if kind == NOTE_ON then Some(NoteOnEvent(channel, m[1], m[2]))
        else Some(ControlChangeEvent(channel, m[1], m[2]))
      else None
  }

  /** The note-off message of `send_midi_note_off` and of the sweep in `change_instrument`. */
  function NoteOff(channel: Byte, pitch: Byte, velocity: Byte): (m: Message)
    requires 1 <= channel
    ensures ValidChannel(channel) && pitch < 0x80 && velocity < 0x80 ==>
              Decode(m) == Some(NoteOffEvent(channel, pitch, velocity))
  {
    StatusFields(NOTE_OFF, channel);
    [StatusByte(NOTE_OFF, channel), pitch, velocity]
  }

  /** The note-on message sent for each chord note. */
  function NoteOn(channel: Byte, pitch: Byte, velocity: Byte): (m: Message)
    requires 1 <= channel
    ensures ValidChannel(channel) && pitch < 0x80 && velocity < 0x80 ==>
              Decode(m) == Some(NoteOnEvent(channel, pitch, velocity))
  {
    StatusFields(NOTE_ON, channel);
    [StatusByte(NOTE_ON, channel), pitch, velocity]
  }

  /** The control-change message of `send_midi_cc`. */
  function ControlChange(channel: Byte, controller: Byte, value: Byte): (m: Message)
    requires 1 <= channel
    ensures ValidChannel(channel) && controller < 0x80 && value < 0x80 ==>
              Decode(m) == Some(ControlChangeEvent(channel, controller, value))
    ensures value >= 0x80 ==> Decode(m) == None
  {
    StatusFields(CONTROL_CHANGE, channel);
    [StatusByte(CONTROL_CHANGE, channel), controller, value]
  }

  /** The two-byte program-change message. */
  function ProgramChange(channel: Byte, program: Byte): (m: Message)
    requires 1 <= channel
    ensures ValidChannel(channel) && program < 0x80 ==>
              Decode(m) == Some(ProgramChangeEvent(channel, program))
  {
    StatusFields(PROGRAM_CHANGE, channel);
    [StatusByte(PROGRAM_CHANGE, channel), program]
  }

  /** Note-offs with velocity 0 for the pitches 0, 1, ..., n - 1, in that order. */
  function NoteOffSweep(channel: Byte, n: nat): (ms: seq<Message>)
    requires 1 <= channel && n <= 256
  {
    seq(n, k requires 0 <= k < n => NoteOff(channel, k, 0))
  }

  /**
   * What `change_instrument` sends: note-offs for pitches 0 to 126 (the range
   * `0..127` stops before 127), the All Notes Off controller on MIDI_CHANNEL
   * (not on `channel`), then the program change on `channel`.
   */
  function InstrumentChange(channel: Byte, program: Byte): (ms: seq<Message>)
    requires 1 <= channel
  {
    NoteOffSweep(channel, 127)
      + [ControlChange(MIDI_CHANNEL, ALL_NOTES_OFF, 0), ProgramChange(channel, program)]
  }

  method ChangeInstrument(channel: Byte, program: Byte) returns (sent: seq<Message>)
    requires 1 <= channel
    ensures sent == InstrumentChange(channel, program)
  {
    sent := [];
    var note := 0;
    while note < 127
      invariant 0 <= note <= 127
      invariant sent == NoteOffSweep(channel, note)
    {
      sent := sent + [NoteOff(channel, note, 0)];
      note := note + 1;
    }
    sent := sent + [ControlChange(MIDI_CHANNEL, ALL_NOTES_OFF, 0)];
    sent := sent + [ProgramChange(channel, program)];
  }

  /**
   * An instrument change is 129 messages: one note-off for every pitch below
   * 127 in ascending order and none for pitch 127, then All Notes Off, then the
   * program change as the last message.
   */
  lemma InstrumentChangeShape(channel: Byte, program: Byte)
    requires ValidChannel(channel) && program < 0x80
    ensures var ms := InstrumentChange(channel, program);
      && |ms| == 129
      && (forall k :: 0 <= k < 127 ==> Decode(ms[k]) == Some(NoteOffEvent(channel, k, 0)))
      && Decode(ms[127]) == Some(ControlChangeEvent(MIDI_CHANNEL, ALL_NOTES_OFF, 0))
      && Decode(ms[128]) == Some(ProgramChangeEvent(channel, program))
      && (forall pitch: Byte ::
            NoteOff(channel, pitch, 0) in ms <==> pitch < 127)
  {
    var ms := InstrumentChange(channel, program);
    forall pitch: Byte
      ensures NoteOff(channel, pitch, 0) in ms <==> pitch < 127
    {
      if pitch < 127 {
        assert ms[pitch] == NoteOff(channel, pitch, 0);
      } else {
        forall k | 0 <= k < |ms|
          ensures ms[k] != NoteOff(channel, pitch, 0)
        {
          if k < 127 {
            assert ms[k][1] == k;
          } else {
            assert ms[k][0] != StatusByte(NOTE_OFF, channel);
          }
        }
      }
    }
  }
}

/**
 * Chord-on framing: `send_midi_chord_on` sends a program change, the four
 * envelope controllers, then note-ons for the scale degrees 6, 0, 2 and 4
 * steps above the root. The root's position comes from `binary_search(..)
 * .unwrap()` and each chord note from `scale[index + offset]`, so a root that
 * is not a member, or one of the top six members, panics after the five
 * header messages have gone out; the model returns those as `panicked`.
 */
module Chord {
  import opened Options
  import opened Midi
  import opened Scale

  /** Scale steps above the root, in the order the note-ons are sent. */
  const CHORD_OFFSETS: seq<nat> := [6, 0, 2, 4]

  /** The messages a call got out before it returned or panicked. */
  datatype Sends = Sends(messages: seq<Message>, panicked: bool)

  /**
   * Every member can be printed by `midi_to_note_name(chord_note).unwrap()`:
   * the name is `None` from 128 up, and the octave underflows below 12.
   */
  ghost predicate NameableScale(s: seq<Byte>) {
    forall k :: 0 <= k < |s| ==> 12 <= s[k] < 128
  }

  /** The four chord pitches for the root at position `i`, in sending order. */
  function ChordPitches(scale: seq<Byte>, i: nat): (ps: seq<Byte>)
    requires i + 6 < |scale|
  {
    seq(4, k requires 0 <= k < 4 => scale[i + CHORD_OFFSETS[k]])
  }

  /** Program change, then controllers 1 to 4 carrying the envelope. */
  function ChordHeader(program: Byte, attack: Byte, decay: Byte, sustain: Byte, release: Byte): (ms: seq<Message>) {
    [ProgramChange(MIDI_CHANNEL, program),
     ControlChange(MIDI_CHANNEL, 1, attack),
     ControlChange(MIDI_CHANNEL, 2, decay),
     ControlChange(MIDI_CHANNEL, 3, sustain),
     ControlChange(MIDI_CHANNEL, 4, release)]
  }

  /** `send_midi_chord_on` on a strictly ascending scale (what `binary_search` assumes). */
  function ChordOn(note: Byte, velocity: Byte, program: Byte,
                   attack: Byte, decay: Byte, sustain: Byte, release: Byte,
                   scale: seq<Byte>): (r: Sends)
    requires StrictlyAscending(scale) && NameableScale(scale)
    ensures |r.messages| == if r.panicked then 5 else 9
    ensures r.messages[..5] == ChordHeader(program, attack, decay, sustain, release)
    ensures r.panicked <==> forall i :: 0 <= i < |scale| && scale[i] == note ==> i + 6 >= |scale|
    ensures !r.panicked ==>
      exists i :: 0 <= i && i + 6 < |scale| && scale[i] == note &&
        forall k :: 0 <= k < 4 ==>
          r.messages[5 + k] == NoteOn(MIDI_CHANNEL, ChordPitches(scale, i)[k], velocity)
  {
    var header := ChordHeader(program, attack, decay, sustain, release);
    match IndexOf(scale, note)
    case None => Sends(header, true)
    case Some(i) =>
      if i + 6 < |scale| then
        var ps := ChordPitches(scale, i);
        var noteOns := seq(4, k requires 0 <= k < 4 => NoteOn(MIDI_CHANNEL, ps[k], velocity));
        assert scale[i] == note;
        Sends(header + noteOns, false)
      else
        Sends(header, true)
  }

  /** Semitones from scale degree `r` of an octave to the degree `d` steps higher. */
  function Interval(r: nat, d: nat): (semitones: int)
    requires r < 7 && d < 7
  {
    OCTAVE_SIZE * ((r + d) / 7) + MINOR_PATTERN[(r + d) % 7] - MINOR_PATTERN[r]
  }

  lemma DegreeStep(i: nat, d: nat)
    requires d < 7
    ensures Degree(i + d) - Degree(i) == Interval(i % 7, d)
  {
    var q, r := i / 7, i % 7;
    assert i + d == 7 * (q + (r + d) / 7) + (r + d) % 7;
    assert (i + d) / 7 == q + (r + d) / 7;
    assert (i + d) % 7 == (r + d) % 7;
  }

  lemma IntervalTable(r: nat)
    requires r < 7
    ensures Interval(r, 2) in {3, 4} && Interval(r, 4) in {6, 7} && Interval(r, 6) in {10, 11}
  {
    if r == 0 {
    } else if r == 1 {
    } else if r == 2 {
    } else if r == 3 {
    } else if r == 4 {
    } else if r == 5 {
    } else {
      assert r == 6;
    }
  }

  /**
   * On the natural-minor table the chord is a diatonic seventh chord on the
   * root: a minor or major third, a perfect or diminished fifth and a minor or
   * major seventh above it, sent highest note first.
   */
  lemma {:induction false} MinorSeventhChord(octaves: nat, i: nat)
    requires octaves <= MAX_OCTAVES && i + 6 < 7 * octaves
    ensures var s := MinorScale(octaves);
      var ps := ChordPitches(s, i);
      && ps[1] == s[i]
      && ps[2] - ps[1] in {3, 4}
      && ps[3] - ps[1] in {6, 7}
      && ps[0] - ps[1] in {10, 11}
  {
    MinorScaleIntervals(octaves, i);
    SeventhChordOn(MinorScale(octaves), i);
  }

  /** The chord pitches are the members 6, 0, 2 and 4 positions above the root. */
  lemma SeventhChordOn(s: seq<Byte>, i: nat)
    requires i + 6 < |s|
    ensures var ps := ChordPitches(s, i);
      ps[0] == s[i + 6] && ps[1] == s[i] && ps[2] == s[i + 2] && ps[3] == s[i + 4]
  {
  }

  /** The third, fifth and seventh above any position of the table. */
  lemma MinorScaleIntervals(octaves: nat, i: nat)
    requires octaves <= MAX_OCTAVES && i + 6 < 7 * octaves
    ensures var s := MinorScale(octaves);
      && s[i + 2] - s[i] in {3, 4}
      && s[i + 4] - s[i] in {6, 7}
      && s[i + 6] - s[i] in {10, 11}
  {
    MinorScaleSpan(octaves, i, 2, 3);
    MinorScaleSpan(octaves, i, 4, 6);
    MinorScaleSpan(octaves, i, 6, 10);
  }

  /** Two, four and six positions up the table are `low` or `low + 1` semitones up. */
  lemma MinorScaleSpan(octaves: nat, i: nat, d: nat, low: int)
    requires octaves <= MAX_OCTAVES && i + d < 7 * octaves
    requires (d == 2 && low == 3) || (d == 4 && low == 6) || (d == 6 && low == 10)
    ensures MinorScale(octaves)[i + d] - MinorScale(octaves)[i] in {low, low + 1}
  {
    MinorScaleStep(octaves, i, d);
    IntervalTable(i % 7);
  }

  /** `d` positions up the table from position `i` is the interval of its scale degree. */
  lemma MinorScaleStep(octaves: nat, i: nat, d: nat)
    requires octaves <= MAX_OCTAVES && d < 7 && i + d < 7 * octaves
    ensures MinorScale(octaves)[i + d] - MinorScale(octaves)[i] == Interval(i % 7, d)
  {
    DegreeStep(i, d);
  }

  /**
   * The chord on the base note sounds 52, 42, 45 and 49; 49 is itself a member
   * of the table, so it can later be played, and tracked, as a root.
   */
  lemma BaseChord()
    ensures var s := MinorScale(3);
      ChordPitches(s, 0) == [52, 42, 45, 49] && s[4] == 49
  {
    var s := MinorScale(3);
    assert s[0] == 42 && s[2] == 45 && s[4] == 49 && s[6] == 52;
  }

  /**
   * In the three-octave table the program plays, the chord lookup panics
   * exactly for the roots 68 and up: the top six members, G#4 to E5.
   */
  lemma {:induction false} ThreeOctaveChordPanics(note: Byte, velocity: Byte, program: Byte,
                                                attack: Byte, decay: Byte, sustain: Byte, release: Byte)
    requires note in MinorScale(3)
    ensures ChordOn(note, velocity, program, attack, decay, sustain, release, MinorScale(3)).panicked
        <==> note >= 68
  {
    var s := MinorScale(3);
    assert s[15] == 68;
    var i :| 0 <= i < |s| && s[i] == note;
    assert i >= 15 <==> note >= 68;
  }
}

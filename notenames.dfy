/**
 * Note names: the pitch-to-name mapping of `midi_to_note_name`, with a parser
 * that reads a name back, so that the mapping is shown to lose nothing.
 */
module NoteNames {
  import opened Options
  import opened Midi

  /** The twelve pitch classes, C first. */
  const NAMES: seq<string> := ["C", "C#", "D", "D#", "E", "F", "F#", "G", "G#", "A", "A#", "B"]

  const DIGITS: string := "0123456789"

  /**
   * `names[v % 12]` followed by the octave `v / 12 - 1` in decimal, for a
   * value in 0..127; `None` above. The octave is computed on `u8`, so a value
   * below 12 underflows (a panic in a debug build): the value is at least 12.
   * From 12 to 127 the octave is a single digit, 0 to 9.
   */
  function MidiToNoteName(v: Byte): (r: Option<string>)
    requires v >= 12
    ensures r.Some? <==> v < 128
    ensures r.Some? ==> 2 <= |r.value| <= 3 && ParseNoteName(r.value) == Some(v)
  {
    if v < 128 then
      var octave := v / 12 - 1;
      var name := NAMES[v % 12] + [DIGITS[octave]];
      NameRoundTrip(v % 12, octave);
      Some(name)
    else
      None
  }

  /** Position of `s` in NAMES at or after `from`, if any. */
  function NameIndex(s: string, from: nat): (r: Option<nat>)
    requires from <= |NAMES|
    ensures r.Some? ==> from <= r.value < |NAMES| && NAMES[r.value] == s
    ensures r.None? ==> forall k :: from <= k < |NAMES| ==> NAMES[k] != s
    decreases |NAMES| - from
  {
    if from == |NAMES| then None
    else if NAMES[from] == s then Some(from)
    else NameIndex(s, from + 1)
  }

  /** Reads "F#2" back as 42: a pitch-class name then one octave digit. */
  function ParseNoteName(s: string): (pitch: Option<int>) {
    if |s| < 2 then None
    else
      var d := s[|s| - 1];
      if '0' <= d <= '9' then
        match NameIndex(s[..|s| - 1], 0)
        case Some(k) => Some(12 * ((d as int - '0' as int) + 1) + k)
        case None => None
      else None
  }

  lemma NamesDistinct()
    ensures forall i, j :: 0 <= i < j < |NAMES| ==> NAMES[i] != NAMES[j]
  {
  }

  lemma NameRoundTrip(k: nat, octave: nat)
    requires k < 12 && octave < 10
    ensures ParseNoteName(NAMES[k] + [DIGITS[octave]]) == Some(12 * (octave + 1) + k)
  {
    var s := NAMES[k] + [DIGITS[octave]];
    assert s[..|s| - 1] == NAMES[k];
    NamesDistinct();
    assert DIGITS[octave] as int - '0' as int == octave;
  }

  /** 42, the base note of the scale, is F#2. */
  lemma BaseNoteName()
    ensures MidiToNoteName(42) == Some("F#2")
  {
    assert NAMES[42 % 12] + [DIGITS[42 / 12 - 1]] == "F#" + ['2'] == "F#2";
  }
}

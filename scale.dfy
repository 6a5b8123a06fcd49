/**
 * The pitch table and the quantizer: `generate_minor_scale` builds the natural
 * minor scale upward from F#2, and `find_nearest_note_in_scale` snaps a pitch
 * to its closest member of the table.
 */
module Scale {
  import opened Options
  import opened Midi

  /** MIDI pitch of F#2, the lowest note of the table. */
  const BASE_NOTE: Byte := 42
  const OCTAVE_SIZE: Byte := 12

  /** Semitone offsets of the natural minor scale within one octave. */
  const MINOR_PATTERN: seq<Byte> := [0, 2, 3, 5, 7, 9, 10]

  /**
   * Largest octave count whose pitches fit in `u8`: octave 17 would start at
   * 42 + 12 * 17 + 10 > 255, and the `u8` addition overflows.
   */
  const MAX_OCTAVES: nat := 17

  /** Pitch at position `i` of the table: octave `i / 7`, scale degree `i % 7`. */
  function Degree(i: nat): (p: int)
    ensures i < 7 * MAX_OCTAVES ==> BASE_NOTE <= p < 256
  {
    BASE_NOTE + OCTAVE_SIZE * (i / 7) + MINOR_PATTERN[i % 7]
  }


  lemma DegreeAt(octave: nat, k: nat)
    requires k < 7
    ensures Degree(7 * octave + k) == BASE_NOTE + OCTAVE_SIZE * octave + MINOR_PATTERN[k]
  {
    assert (7 * octave + k) / 7 == octave;
    assert (7 * octave + k) % 7 == k;
  }

  /**
   * The nested loops of `generate_minor_scale`: for each octave, push the seven
   * pattern offsets above `BASE_NOTE + octave * OCTAVE_SIZE`.
   */
  method GenerateMinorScale(octaves: Byte) returns (scale: seq<Byte>)
    requires octaves <= MAX_OCTAVES
    ensures scale == MinorScale(octaves)
  {
    scale := [];
    var octave := 0;
    while octave < octaves
      invariant 0 <= octave <= octaves
      invariant |scale| == 7 * octave
      invariant forall i :: 0 <= i < |scale| ==> scale[i] == Degree(i)
    {
      var k := 0;
      while k < 7
        invariant 0 <= k <= 7
        invariant |scale| == 7 * octave + k
        invariant forall i :: 0 <= i < |scale| ==> scale[i] == Degree(i)
      {
        DegreeAt(octave, k);
        scale := scale + [BASE_NOTE + octave * OCTAVE_SIZE + MINOR_PATTERN[k]];
        k := k + 1;
      }
      octave := octave + 1;
    }
  }

  lemma {:induction false} DegreeIncreasing(i: nat, j: nat)
    requires i < j
    ensures Degree(i) < Degree(j)
  {
    var qi, ri, qj, rj := i / 7, i % 7, j / 7, j % 7;
    assert i == 7 * qi + ri && j == 7 * qj + rj;
    assert forall a, b :: 0 <= a < b < 7 ==> MINOR_PATTERN[a] < MINOR_PATTERN[b];
    if qi < qj {
      assert OCTAVE_SIZE * qi + MINOR_PATTERN[ri] < OCTAVE_SIZE * qj;
    } else {
      assert qi == qj && ri < rj;
    }
  }

  ghost predicate StrictlyAscending(s: seq<int>) {
    forall i, j :: 0 <= i < j < |s| ==> s[i] < s[j]
  }

  /**
   * The closed form of the table for `octaves` octaves: seven pitches per
   * octave, strictly ascending (so no pitch twice), all within the `octaves`
   * octaves starting at BASE_NOTE.
   */
  function MinorScale(octaves: nat): (s: seq<Byte>)
    requires octaves <= MAX_OCTAVES
    ensures |s| == 7 * octaves
    ensures StrictlyAscending(s)
    ensures forall k :: 0 <= k < |s| ==> BASE_NOTE <= s[k] < BASE_NOTE + OCTAVE_SIZE * octaves
  {
    var s := seq(7 * octaves, i requires 0 <= i < 7 * octaves => Degree(i));
    assert StrictlyAscending(s) by {
      forall i, j | 0 <= i < j < |s|
        ensures s[i] < s[j]
      {
        DegreeIncreasing(i, j);
      }
    }
    assert forall k :: 0 <= k < |s| ==> s[k] < BASE_NOTE + OCTAVE_SIZE * octaves by {
      forall k | 0 <= k < |s|
        ensures s[k] < BASE_NOTE + OCTAVE_SIZE * octaves
      {
        DegreeIncreasing(k, 7 * octaves);
        DegreeAt(octaves, 0);
      }
    }
    s
  }

  /** Three octaves, as the program builds them: 21 pitches from F#2 (42) to E5 (76). */
  lemma ThreeOctaveScale()
    ensures var s := MinorScale(3);
      |s| == 21 && s[0] == 42 && s[20] == 76
  {
  }

  /** Each member reappears an octave higher, seven positions on. */
  lemma MinorScaleOctavePeriodic(octaves: nat, i: nat)
    requires octaves <= MAX_OCTAVES && i + 7 < 7 * octaves
    ensures MinorScale(octaves)[i + 7] == MinorScale(octaves)[i] + OCTAVE_SIZE
  {
    assert (i + 7) / 7 == i / 7 + 1 && (i + 7) % 7 == i % 7;
  }

  /** `(pitch as i16 - note as i16).abs()`; exact for two `u8` values. */
  function Distance(a: int, b: int): (d: nat) {
    if a >= b then a - b else b - a
  }

  /**
   * The position `find_nearest_note_in_scale` settles on: a member at the least
   * distance from `pitch`, and the first such member, because the scan replaces
   * its candidate only on a strictly smaller distance.
   */
  function NearestIndex(pitch: int, s: seq<Byte>): (k: nat)
    requires |s| > 0
    ensures k < |s|
    ensures forall j :: 0 <= j < |s| ==> Distance(pitch, s[k]) <= Distance(pitch, s[j])
    ensures forall j :: 0 <= j < k ==> Distance(pitch, s[k]) < Distance(pitch, s[j])
    decreases |s|
  {
    if |s| == 1 then 0
    else
      var k := NearestIndex(pitch, s[..|s| - 1]);
      if Distance(pitch, s[|s| - 1]) < Distance(pitch, s[k]) then |s| - 1 else k
  }

  function Nearest(pitch: int, s: seq<Byte>): (nearest: Byte)
    requires |s| > 0
  {
    s[NearestIndex(pitch, s)]
  }

  /**
   * The scan of `find_nearest_note_in_scale`. The candidate starts at the first
   * member with a best distance of `u8::MAX`; `scale[0]` panics on an empty
   * scale, so the scale is not empty.
   */
  method FindNearestNoteInScale(pitch: Byte, scale: seq<Byte>) returns (nearest: Byte)
    requires |scale| > 0
    ensures nearest == Nearest(pitch, scale)
  {
    nearest := scale[0];
    var minDistance := 255;
    var i := 0;
    while i < |scale|
      invariant 0 <= i <= |scale|
      invariant i == 0 ==> nearest == scale[0] && minDistance == 255
      invariant i > 0 ==> nearest == Nearest(pitch, scale[..i]) && minDistance == Distance(pitch, nearest)
    {
      var note := scale[i];
      var distance := Distance(pitch, note);
      assert scale[..i + 1][..i] == scale[..i];
      if distance < minDistance {
        minDistance := distance;
        nearest := note;
      }
      i := i + 1;
    }
    assert scale[..|scale|] == scale;
  }

  /** On an ascending scale an exact tie between two members goes to the lower one. */
  lemma {:induction false} NearestTieGoesLow(pitch: int, s: seq<Byte>, j: nat)
    requires |s| > 0 && StrictlyAscending(s) && j < |s|
    requires Distance(pitch, s[j]) == Distance(pitch, Nearest(pitch, s))
    ensures Nearest(pitch, s) <= s[j]
  {
    var k := NearestIndex(pitch, s);
    assert k <= j;
  }

  /** 50 lies midway between 49 and 51 in the three-octave table; 49 wins. */
  lemma NearestToFifty()
    ensures Nearest(50, MinorScale(3)) == 49
  {
    var s := MinorScale(3);
    assert s[4] == 49 && s[5] == 51;
    var k := NearestIndex(50, s);
    assert Distance(50, s[k]) <= 1;
    assert k == 4;
  }

  /** Position of `x` in `s` at or after `from`, scanning upward. */
  function IndexFrom(s: seq<Byte>, x: int, from: nat): (r: Option<nat>)
    requires from <= |s|
    ensures r.Some? ==> from <= r.value < |s| && s[r.value] == x
    ensures r.None? ==> forall j :: from <= j < |s| ==> s[j] != x
    decreases |s| - from
  {
    if from == |s| then None
    else if s[from] == x then Some(from)
    else IndexFrom(s, x, from + 1)
  }

  /**
   * `scale.binary_search(&note)` on a strictly ascending slice: the one
   * position holding `x`, or nothing when `x` is not a member.
   */
  function IndexOf(s: seq<Byte>, x: int): (r: Option<nat>)
    requires StrictlyAscending(s)
    ensures r.Some? ==> r.value < |s| && s[r.value] == x
    ensures r.Some? ==> forall j :: 0 <= j < |s| && s[j] == x ==> j == r.value
    ensures r.None? <==> x !in s
  {
    IndexFrom(s, x, 0)
  }
}

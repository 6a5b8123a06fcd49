/**
 * Note lifetimes: the duration formula and the `active_notes` map of the main
 * loop, which records one expiry time per pitch (`insert` overwrites) and, on
 * every step, removes the entries whose time has come so that a note-off can
 * be sent for each. Instants are milliseconds.
 */
module Scheduler {
  import opened Midi

  const MAX_DURATION: nat := 5000
  const MIN_DURATION: nat := 100
  /** Largest MIDI velocity, the divisor of the duration formula. */
  const VELOCITY_RANGE: nat := 127

  lemma {:induction false} DivMonotone(a: nat, b: nat, n: nat)
    requires a <= b && n > 0
    ensures a / n <= b / n
  {
    assert (a / n) * n + a % n == a && (b / n) * n + b % n == b;
    assert (a / n) * n <= b;
    assert b < (b / n + 1) * n;
  }

  /**
   * How long a note sounds: `max - velocity * (max - min) / 127` in `u64`
   * arithmetic, so the product is divided with truncation. The velocity comes
   * out of `map_to_midi` clamped to 127 (above 129 the subtraction would
   * underflow). The softest note lasts 5 s and the hardest 100 ms.
   */
  function NoteDuration(velocity: Byte): (d: nat)
    requires velocity <= VELOCITY_RANGE
    ensures MIN_DURATION <= d <= MAX_DURATION
    ensures velocity == 0 ==> d == MAX_DURATION
    ensures velocity == VELOCITY_RANGE ==> d == MIN_DURATION
  {
    DivMonotone(velocity * (MAX_DURATION - MIN_DURATION), VELOCITY_RANGE * (MAX_DURATION - MIN_DURATION), VELOCITY_RANGE);
    MAX_DURATION - velocity * (MAX_DURATION - MIN_DURATION) / VELOCITY_RANGE
  }

  /** A harder note never lasts longer than a softer one. */
  lemma {:induction false} DurationNonIncreasing(v1: Byte, v2: Byte)
    requires v1 <= v2 <= VELOCITY_RANGE
    ensures NoteDuration(v2) <= NoteDuration(v1)
  {
    DivMonotone(v1 * (MAX_DURATION - MIN_DURATION), v2 * (MAX_DURATION - MIN_DURATION), VELOCITY_RANGE);
  }

  /** Pitches whose expiry has come at `now` (`now >= off_time`). */
  function Due(active: map<Byte, nat>, now: nat): (due: set<Byte>) {
    set p | p in active && active[p] <= now
  }

  /** The entries still sounding after `now`. */
  function Pending(active: map<Byte, nat>, now: nat): (pending: map<Byte, nat>) {
    map p | p in active && now < active[p] :: active[p]
  }

  ghost predicate Distinct(s: seq<Byte>) {
    forall i, j :: 0 <= i < j < |s| ==> s[i] != s[j]
  }

  /**
   * An expiry pass splits the tracked pitches in two: those due are dropped
   * and every other entry is kept with its expiry unchanged.
   */
  lemma ExpiryPartition(active: map<Byte, nat>, now: nat)
    ensures Due(active, now) !! Pending(active, now).Keys
    ensures Due(active, now) + Pending(active, now).Keys == active.Keys
    ensures forall p :: p in Pending(active, now) ==> Pending(active, now)[p] == active[p]
  {
  }

  /**
   * A note scheduled at `now` is not due in the same step: its expiry lies at
   * least MIN_DURATION ahead.
   */
  lemma FreshNoteNotDue(active: map<Byte, nat>, pitch: Byte, velocity: Byte, now: nat)
    requires velocity <= VELOCITY_RANGE
    ensures var scheduled := active[pitch := now + NoteDuration(velocity)];
      pitch !in Due(scheduled, now) && scheduled[pitch] >= now + MIN_DURATION
  {
  }

  /** At velocity 127 a note is still tracked 99 ms later and due at 100 ms. */
  lemma HardestNoteLasts100ms(active: map<Byte, nat>, pitch: Byte, t: nat)
    ensures var scheduled := active[pitch := t + NoteDuration(127)];
      pitch !in Due(scheduled, t + 99) && pitch in Due(scheduled, t + 100)
  {
  }

  /** `active_notes: HashMap<u8, Instant>`: pitch to expiry time. */
  class NoteTracker {
    var active: map<Byte, nat>

    constructor ()
      ensures active == map[]
    {
      active := map[];
    }

    /**
     * `active_notes.insert(pitch, now + duration)`: records the expiry, or
     * replaces the one already there (no note-off is sent for a re-trigger).
     */
    method NoteOn(pitch: Byte, velocity: Byte, now: nat)
      requires velocity <= VELOCITY_RANGE
      modifies this
      ensures active == old(active)[pitch := now + NoteDuration(velocity)]
    {
      active := active[pitch := now + NoteDuration(velocity)];
    }

    /**
     * The expiry pass: collect the pitches with `now >= off_time`, then remove
     * each. The order of `expired` is the map's iteration order, which the
     * program does not fix; the contract fixes only which pitches, each once.
     */
    method ExpireDue(now: nat) returns (expired: seq<Byte>)
      modifies this
      ensures Distinct(expired)
      ensures forall p :: p in expired <==> p in Due(old(active), now)
      ensures active == Pending(old(active), now)
    {
      expired := [];
      var unvisited := active.Keys;
      while unvisited != {}
        invariant unvisited <= active.Keys
        invariant Distinct(expired)
        invariant forall p :: p in expired <==> p in active && p !in unvisited && active[p] <= now
        decreases unvisited
      {
        var p :| p in unvisited;
        if active[p] <= now {
          expired := expired + [p];
        }
        unvisited := unvisited - {p};
      }
      var i := 0;
      while i < |expired|
        invariant 0 <= i <= |expired|
        invariant forall p :: p in active <==> p in old(active) && p !in expired[..i]
        invariant forall p :: p in active ==> active[p] == old(active)[p]
      {
        active := active - {expired[i]};
        i := i + 1;
      }
      assert expired[..i] == expired;
    }
  }
}

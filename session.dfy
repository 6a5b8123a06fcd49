/**
 * One run of the main loop: the state `main` keeps between tracking frames
 * and the work it does for each right-hand sample. A step smooths the sample,
 * plays a chord when the rate gate opens, schedules the root's note-off,
 * retires the notes whose time has come and, on a pinch outside the cooldown,
 * switches to the next instrument. Messages go to a log in sending order.
 */
module Session {
  import opened Options
  import opened Midi
  import opened Scale
  import opened Chord
  import opened Smoother
  import opened Scheduler

  /** The table the program plays: `generate_minor_scale(3)`. */
  const SCALE_OCTAVES: Byte := 3

  /** Envelope values the loop passes to `send_midi_chord_on`. */
  const ATTACK: Byte := 70
  const DECAY: Byte := 100
  const SUSTAIN: Byte := 80

  /** Controllers sent after each chord. */
  const CUTOFF: Byte := 74
  const REVERB: Byte := 91
  const DURATION_CONTROLLER: Byte := 92
  const MODULATION: Byte := 1

  /** A pinch closer than this (in the sensor's millimetres) is a gesture. */
  const PINCH_THRESHOLD: real := 10.0
  /** Seconds between two program changes, as `as_secs() >= 1` compares them. */
  const PROGRAM_COOLDOWN_SECS: nat := 1

  /** Velocity to cutoff and reverb, the duration as `u8` to controller 92, depth to modulation. */
  function ExpressionControls(velocity: Byte, duration: nat, depth: Byte): (ms: seq<Message>) {
    [ControlChange(MIDI_CHANNEL, CUTOFF, velocity),
     ControlChange(MIDI_CHANNEL, REVERB, velocity),
     ControlChange(MIDI_CHANNEL, DURATION_CONTROLLER, duration % 256),
     ControlChange(MIDI_CHANNEL, MODULATION, depth)]
  }

  /**
   * What the rate-gated block sends for the mapped `note`, `velocity` and
   * `depth`: the chord on the nearest scale note, with the duration as `u8` for
   * the release controller, then the expression controllers. A panic in the
   * chord lookup ends the block (and the program) after the chord header.
   */
  function NoteBlock(note: Byte, velocity: Byte, depth: Byte, program: Byte, scale: seq<Byte>): (block: Sends)
    requires velocity <= VELOCITY_RANGE && |scale| > 0
    requires StrictlyAscending(scale) && NameableScale(scale)
  {
    var duration := NoteDuration(velocity);
    var v := if velocity < 127 then velocity else 127;
    var chord := ChordOn(Nearest(note, scale), v, program, ATTACK, DECAY, SUSTAIN, duration % 256, scale);
    if chord.panicked then chord
    else Sends(chord.messages + ExpressionControls(v, duration, depth), false)
  }

  /**
   * On the program's table the block is a chord on the nearest member, and it
   * panics after the five header messages exactly when that member is 68 or
   * higher.
   */
  lemma {:induction false} NoteBlockOnTable(note: Byte, velocity: Byte, depth: Byte, program: Byte)
    requires velocity <= VELOCITY_RANGE && program < 128
    ensures var s := MinorScale(SCALE_OCTAVES);
      var b := NoteBlock(note, velocity, depth, program, s);
      && (b.panicked <==> Nearest(note, s) >= 68)
      && |b.messages| == (if b.panicked then 5 else 13)
      && Decode(b.messages[0]) == Some(ProgramChangeEvent(MIDI_CHANNEL, program))
  {
    TableIsPlayable();
    var s := MinorScale(SCALE_OCTAVES);
    var root := Nearest(note, s);
    assert root in s by { assert s[NearestIndex(note, s)] == root; }
    NoteBlockHeader(note, velocity, depth, program, s);
    ThreeOctaveChordPanics(root, velocity, program, ATTACK, DECAY, SUSTAIN, NoteDuration(velocity) % 256);
  }

  /**
   * On any playable scale the block panics exactly when the chord does, and it
   * opens with the program change.
   */
  lemma NoteBlockHeader(note: Byte, velocity: Byte, depth: Byte, program: Byte, scale: seq<Byte>)
    requires velocity <= VELOCITY_RANGE && program < 128 && |scale| > 0
    requires StrictlyAscending(scale) && NameableScale(scale)
    ensures var b := NoteBlock(note, velocity, depth, program, scale);
      && (b.panicked <==> ChordOn(Nearest(note, scale), velocity, program, ATTACK, DECAY, SUSTAIN,
                                  NoteDuration(velocity) % 256, scale).panicked)
      && |b.messages| == (if b.panicked then 5 else 13)
      && Decode(b.messages[0]) == Some(ProgramChangeEvent(MIDI_CHANNEL, program))
  {
    var chord := ChordOn(Nearest(note, scale), velocity, program, ATTACK, DECAY, SUSTAIN,
                         NoteDuration(velocity) % 256, scale);
    var b := NoteBlock(note, velocity, depth, program, scale);
    assert b.messages[0] == chord.messages[..5][0];
  }

  /**
   * When the chord goes out, the root's note-on is the second note-on and the
   * expression controllers follow it; the duration controller is a MIDI
   * control change only when the duration as `u8` stays below 128.
   */
  lemma {:induction false} NoteBlockControls(note: Byte, velocity: Byte, depth: Byte, program: Byte,
                                             scale: seq<Byte>)
    requires velocity <= VELOCITY_RANGE && depth < 128 && |scale| > 0
    requires StrictlyAscending(scale) && NameableScale(scale)
    ensures var b := NoteBlock(note, velocity, depth, program, scale);
      !b.panicked ==>
        && |b.messages| == 13
        && Decode(b.messages[6]) == Some(NoteOnEvent(MIDI_CHANNEL, Nearest(note, scale), velocity))
        && Decode(b.messages[9]) == Some(ControlChangeEvent(MIDI_CHANNEL, CUTOFF, velocity))
        && Decode(b.messages[10]) == Some(ControlChangeEvent(MIDI_CHANNEL, REVERB, velocity))
        && Decode(b.messages[12]) == Some(ControlChangeEvent(MIDI_CHANNEL, MODULATION, depth))
        && (Decode(b.messages[11]).Some? <==> NoteDuration(velocity) % 256 < 128)
  {
    var root := Nearest(note, scale);
    var release := NoteDuration(velocity) % 256;
    var chord := ChordOn(root, velocity, program, ATTACK, DECAY, SUSTAIN, release, scale);
    var b := NoteBlock(note, velocity, depth, program, scale);
    if !chord.panicked {
      var controls := ExpressionControls(velocity, NoteDuration(velocity), depth);
      assert b.messages == chord.messages + controls;
      assert b.messages[9..] == controls;
      var i :| 0 <= i && i + 6 < |scale| && scale[i] == root &&
        forall k :: 0 <= k < 4 ==> chord.messages[5 + k] == NoteOn(MIDI_CHANNEL, ChordPitches(scale, i)[k], velocity);
      assert b.messages[6] == chord.messages[6] == NoteOn(MIDI_CHANNEL, root, velocity);
    }
  }

  /**
   * The emission gate: enough time since the last note for the tilt-derived
   * delay, and the smoothed x, y differ from the last step's.
   */
  predicate RateGateOpen(elapsedMs: nat, delayMs: nat, position: Position, last: (int, int)) {
    elapsedMs >= delayMs && (position.x - last.0, position.y - last.1) != (0, 0)
  }

  /** The gesture gate: a pinch, at least a whole second after the last change. */
  predicate PinchFires(pinch: real, elapsedMs: nat) {
    pinch < PINCH_THRESHOLD && elapsedMs / 1000 >= PROGRAM_COOLDOWN_SECS
  }

  /** `(program + 1) % 128`: the next General MIDI program, wrapping after 127. */
  function NextProgram(program: Byte): (r: Byte)
    requires program < 128
    ensures r < 128
    ensures r == 0 <==> program == 127
    ensures program < 127 ==> r == program + 1
  {
    (program + 1) % 128
  }

  /** One note-off with velocity 0 for each released pitch, in release order. */
  function NoteOffs(pitches: seq<Byte>): (ms: seq<Message>) {
    seq(|pitches|, k requires 0 <= k < |pitches| => NoteOff(MIDI_CHANNEL, pitches[k], 0))
  }

  /**
   * The sends of the rate-gated block: the note snapped to the table, the
   * chord on it with the velocity capped at 127 and the duration as `u8` for
   * the release, then, unless the chord lookup panicked, the controllers.
   * It computes what `NoteBlock` specifies; it exists to run the
   * `FindNearestNoteInScale` loop, which a function cannot call.
   */
  method EmitNote(note: Byte, velocity: Byte, depth: Byte, program: Byte, scale: seq<Byte>)
    returns (nearest: Byte, block: Sends)
    requires velocity <= VELOCITY_RANGE && |scale| > 0
    requires StrictlyAscending(scale) && NameableScale(scale)
    ensures nearest == Nearest(note, scale) && nearest in scale
    ensures block == NoteBlock(note, velocity, depth, program, scale)
  {
    nearest := FindNearestNoteInScale(note, scale);
    var duration := NoteDuration(velocity);
    var v := if velocity < 127 then velocity else 127;
    block := ChordOn(nearest, v, program, ATTACK, DECAY, SUSTAIN, duration % 256, scale);
    if !block.panicked {
      block := Sends(block.messages + ExpressionControls(v, duration, depth), false);
    }
  }

  /** The note-off loop of a step: one velocity-0 note-off per pitch, in order. */
  method SendNoteOffs(expired: seq<Byte>) returns (offs: seq<Message>)
    ensures offs == NoteOffs(expired)
  {
    offs := [];
    var i := 0;
    while i < |expired|
      invariant 0 <= i <= |expired|
      invariant offs == NoteOffs(expired[..i])
    {
      offs := offs + [NoteOff(MIDI_CHANNEL, expired[i], 0)];
      i := i + 1;
      assert NoteOffs(expired[..i]) == NoteOffs(expired[..i - 1]) + [NoteOff(MIDI_CHANNEL, expired[i - 1], 0)];
    }
    assert expired[..i] == expired;
  }

  /** Whole seconds are compared, so the cooldown is 1000 ms to the millisecond. */
  lemma CooldownInMilliseconds(pinch: real, elapsedMs: nat)
    ensures PinchFires(pinch, elapsedMs) <==> pinch < PINCH_THRESHOLD && elapsedMs >= 1000
  {
  }

  /**
   * The duration rides on controllers as `duration as u8`. The value is not
   * monotone in the velocity: 136 at velocity 0 and 248 at velocity 90 are
   * not MIDI data bytes, so those controller-92 messages do not read as
   * control changes, while 98 at velocity 1 is one.
   */
  lemma DurationControllerOverflow()
    ensures NoteDuration(0) % 256 == 136
    ensures NoteDuration(1) % 256 == 98
    ensures NoteDuration(90) % 256 == 248
    ensures Decode(ControlChange(MIDI_CHANNEL, DURATION_CONTROLLER, NoteDuration(0) % 256)) == None
    ensures Decode(ControlChange(MIDI_CHANNEL, DURATION_CONTROLLER, NoteDuration(90) % 256)) == None
    ensures Decode(ControlChange(MIDI_CHANNEL, DURATION_CONTROLLER, NoteDuration(1) % 256))
      == Some(ControlChangeEvent(MIDI_CHANNEL, DURATION_CONTROLLER, 98))
  {
    assert NoteDuration(0) == 5000 && 5000 % 256 == 136;
    assert 4900 / 127 == 38 && NoteDuration(1) == 4962 && 4962 % 256 == 98;
    assert 90 * 4900 / 127 == 3472 && NoteDuration(90) == 1528 && 1528 % 256 == 248;
  }

  /**
   * Every tracked note is a table pitch that expires at most MAX_DURATION after
   * the last note was played, so the first right-hand frame at or after that
   * instant releases it.
   */
  ghost predicate Tracked(active: map<Byte, nat>, scale: seq<Byte>, lastNoteTime: nat) {
    forall p :: p in active ==> p in scale && active[p] <= lastNoteTime + MAX_DURATION
  }

  /** Scheduling a table pitch at the time of the last note keeps the bound. */
  lemma TrackedAfterNoteOn(active: map<Byte, nat>, scale: seq<Byte>, last: nat,
                           pitch: Byte, velocity: Byte, now: nat)
    requires Tracked(active, scale, last) && last <= now
    requires pitch in scale && velocity <= VELOCITY_RANGE
    ensures Tracked(active[pitch := now + NoteDuration(velocity)], scale, now)
  {
  }

  /** Dropping the due entries keeps the bound. */
  lemma TrackedAfterExpiry(active: map<Byte, nat>, scale: seq<Byte>, last: nat, now: nat)
    requires Tracked(active, scale, last)
    ensures Tracked(Pending(active, now), scale, last)
  {
  }

  /** The three-octave table meets what the chord lookup and its printout need. */
  lemma TableIsPlayable()
    ensures var s := MinorScale(SCALE_OCTAVES);
      |s| == 21 && StrictlyAscending(s) && NameableScale(s)
  {
  }

  class Session {
    const scale: seq<Byte>
    const smoother: MovingAverage
    const tracker: NoteTracker
    var program: Byte
    var lastNoteTime: nat
    var lastProgramChangeTime: nat
    var lastHandPosition: (int, int)
    /** Every message sent so far, in order. */
    var sent: seq<Message>
    /** Set once a panic has ended the program. */
    var halted: bool

    /**
     * The loop's invariant: the table is the three-octave minor scale, the
     * program a valid MIDI program, and the tracked notes are bounded.
     */
    ghost predicate Valid()
      reads this, smoother, tracker
    {
      && scale == MinorScale(SCALE_OCTAVES)
      && smoother.Valid()
      && program < 128
      && Tracked(tracker.active, scale, lastNoteTime)
    }

    /**
     * The set-up part of `main` at instant `start`: the scale, program 0, an
     * initial instrument change, a fresh smoother and an empty note map.
     */
    constructor (start: nat)
      ensures Valid() && !halted
      ensures fresh(smoother) && fresh(tracker)
      ensures smoother.samples == INITIAL && tracker.active == map[]
      ensures program == 0 && lastHandPosition == (0, 0)
      ensures lastNoteTime == start && lastProgramChangeTime == start
      ensures sent == InstrumentChange(MIDI_CHANNEL, 0)
    {
      var table := GenerateMinorScale(SCALE_OCTAVES);
      scale := table;
      smoother := new MovingAverage();
      tracker := new NoteTracker();
      program := 0;
      lastNoteTime := start;
      lastHandPosition := (0, 0);
      lastProgramChangeTime := start;
      halted := false;
      var change := ChangeInstrument(MIDI_CHANNEL, 0);
      sent := change;
    }

    /**
     * One right-hand sample at instant `now`. `sample` is the palm position
     * (`None` when a coordinate is not a number); `note`, `velocity` and
     * `depth` are what `map_to_midi` makes of the smoothed position;
     * `delayMs` is the tilt-derived delay; `pinch` the pinch distance. The
     * clock is monotonic, so `now` is not before either stored instant.
     * `released` lists the pitches whose note-offs this step sent.
     */
    method Step(sample: Option<Position>, note: Byte, velocity: Byte, depth: Byte,
                delayMs: nat, pinch: real, now: nat)
      returns (ghost released: seq<Byte>)
      requires Valid() && !halted
      requires velocity <= VELOCITY_RANGE
      requires lastNoteTime <= now && lastProgramChangeTime <= now
      modifies this, smoother, tracker
      ensures Valid()
      ensures smoother.samples
        == if sample.Some? then old(smoother.samples)[1..] + [sample.value] else old(smoother.samples)
      ensures
        var position := if sample.Some? then WindowMean(smoother.samples) else ORIGIN;
        var fire := RateGateOpen(now - old(lastNoteTime), delayMs, position, old(lastHandPosition));
        var block := NoteBlock(note, velocity, depth, old(program), scale);
        if fire && block.panicked then
          && halted
          && sent == old(sent) + block.messages
          && tracker.active == old(tracker.active)
          && program == old(program)
          && lastNoteTime == old(lastNoteTime)
          && lastProgramChangeTime == old(lastProgramChangeTime)
          && lastHandPosition == old(lastHandPosition)
        else
          var scheduled := if fire then old(tracker.active)[Nearest(note, scale) := now + NoteDuration(velocity)]
                           else old(tracker.active);
          var pinched := PinchFires(pinch, now - old(lastProgramChangeTime));
          && !halted
          && lastNoteTime == (if fire then now else old(lastNoteTime))
          && tracker.active == Pending(scheduled, now)
          && Distinct(released)
          && (forall p :: p in released <==> p in Due(scheduled, now))
          && program == (if pinched then NextProgram(old(program)) else old(program))
          && lastProgramChangeTime == (if pinched then now else old(lastProgramChangeTime))
          && lastHandPosition == (position.x, position.y)
          && sent == old(sent)
                     + (if fire then block.messages else [])
                     + (if pinched then InstrumentChange(MIDI_CHANNEL, program) else [])
                     + NoteOffs(released)
    {
      var position := HandTracking(sample, smoother);
      ghost var block := NoteBlock(note, velocity, depth, program, scale);
      ghost var active := tracker.active;
      var fire := Play(position, note, velocity, depth, delayMs, now);
      if halted {
        assert fire && block.panicked;
        released := [];
        return;
      }
      assert tracker.active == if fire then active[Nearest(note, scale) := now + NoteDuration(velocity)] else active;
      assert sent == old(sent) + (if fire then block.messages else []);
      released := Retire(pinch, now);
      lastHandPosition := (position.x, position.y);
    }

    /**
     * The rate-gated block: when the gate opens, snap the note to the table,
     * send the chord and the expression controllers, schedule the root's
     * note-off and restart the rate clock. A panic in the chord lookup leaves
     * the messages sent so far and halts.
     */
    method Play(position: Position, note: Byte, velocity: Byte, depth: Byte, delayMs: nat, now: nat)
      returns (fire: bool)
      requires Valid() && !halted
      requires velocity <= VELOCITY_RANGE && lastNoteTime <= now
      modifies this, tracker
      ensures Valid()
      ensures fire == RateGateOpen(now - old(lastNoteTime), delayMs, position, lastHandPosition)
      ensures program == old(program) && lastProgramChangeTime == old(lastProgramChangeTime)
      ensures lastHandPosition == old(lastHandPosition)
      ensures var block := NoteBlock(note, velocity, depth, program, scale);
        && sent == old(sent) + (if fire then block.messages else [])
        && halted == (fire && block.panicked)
        && if fire && !block.panicked then
             && tracker.active == old(tracker.active)[Nearest(note, scale) := now + NoteDuration(velocity)]
             && lastNoteTime == now
           else
             && tracker.active == old(tracker.active)
             && lastNoteTime == old(lastNoteTime)
    {
      var movement := (position.x - lastHandPosition.0, position.y - lastHandPosition.1);
      fire := now - lastNoteTime >= delayMs && movement != (0, 0);
      if fire {
        PlayNote(note, velocity, depth, now);
      }
    }

    /**
     * The body of the rate-gated block: send the block for `note` and, unless
     * the chord lookup panicked, schedule the root's note-off and restart the
     * rate clock.
     */
    method PlayNote(note: Byte, velocity: Byte, depth: Byte, now: nat)
      requires Valid() && !halted
      requires velocity <= VELOCITY_RANGE && lastNoteTime <= now
      modifies this, tracker
      ensures Valid()
      ensures program == old(program) && lastProgramChangeTime == old(lastProgramChangeTime)
      ensures lastHandPosition == old(lastHandPosition)
      ensures var block := NoteBlock(note, velocity, depth, program, scale);
        && sent == old(sent) + block.messages
        && halted == block.panicked
        && if block.panicked then
             && tracker.active == old(tracker.active)
             && lastNoteTime == old(lastNoteTime)
           else
             && tracker.active == old(tracker.active)[Nearest(note, scale) := now + NoteDuration(velocity)]
             && lastNoteTime == now
    {
      TableIsPlayable();
      var nearest, block := EmitNote(note, velocity, depth, program, scale);
      sent := sent + block.messages;
      if block.panicked {
        halted := true;
        return;
      }
      TrackedAfterNoteOn(tracker.active, scale, lastNoteTime, nearest, velocity, now);
      tracker.NoteOn(nearest, velocity, now);
      lastNoteTime := now;
    }

    /**
     * The rest of a step: collect the due notes, run the pinch gesture, then
     * send a note-off for each due note (each was already forgotten).
     */
    method Retire(pinch: real, now: nat) returns (ghost released: seq<Byte>)
      requires Valid() && lastProgramChangeTime <= now
      modifies this, tracker
      ensures Valid()
      ensures halted == old(halted) && lastNoteTime == old(lastNoteTime)
      ensures lastHandPosition == old(lastHandPosition)
      ensures tracker.active == Pending(old(tracker.active), now)
      ensures Distinct(released)
      ensures forall p :: p in released <==> p in Due(old(tracker.active), now)
      ensures var pinched := PinchFires(pinch, now - old(lastProgramChangeTime));
        && program == (if pinched then NextProgram(old(program)) else old(program))
        && lastProgramChangeTime == (if pinched then now else old(lastProgramChangeTime))
        && sent == old(sent)
                   + (if pinched then InstrumentChange(MIDI_CHANNEL, program) else [])
                   + NoteOffs(released)
    {
      ghost var before := tracker.active;
      var expired := tracker.ExpireDue(now);
      TrackedAfterExpiry(before, scale, lastNoteTime, now);
      Gesture(pinch, now);
      var offs := SendNoteOffs(expired);
      sent := sent + offs;
      released := expired;
    }

    /**
     * The pinch gesture: a pinch at least a second after the last change moves
     * to the next program, silences the channel and selects it.
     */
    method Gesture(pinch: real, now: nat)
      requires Valid() && lastProgramChangeTime <= now
      modifies this
      ensures Valid()
      ensures halted == old(halted) && lastNoteTime == old(lastNoteTime)
      ensures lastHandPosition == old(lastHandPosition)
      ensures var pinched := PinchFires(pinch, now - old(lastProgramChangeTime));
        && program == (if pinched then NextProgram(old(program)) else old(program))
        && lastProgramChangeTime == (if pinched then now else old(lastProgramChangeTime))
        && sent == old(sent) + (if pinched then InstrumentChange(MIDI_CHANNEL, program) else [])
    {
      if pinch < PINCH_THRESHOLD && (now - lastProgramChangeTime) / 1000 >= PROGRAM_COOLDOWN_SECS {
        program := (program + 1) % 128;
        var change := ChangeInstrument(MIDI_CHANNEL, program);
        sent := sent + change;
        lastProgramChangeTime := now;
      }
    }
  }

  /**
   * The debounce on a fresh session started at 0 ms, with the hand pinched at
   * 1000, 1500 and 2600 ms: the first pinch changes the program, the second,
   * 500 ms after that change, does nothing, and the third, 1100 ms after it,
   * changes the program again.
   */
  method PinchDebounce() returns (afterFirst: Byte, afterSecond: Byte, afterThird: Byte)
    ensures afterFirst == 1 && afterSecond == 1 && afterThird == 2
  {
    var session := new Session(0);
    session.Gesture(5.0, 1000);
    afterFirst := session.program;
    session.Gesture(5.0, 1500);
    afterSecond := session.program;
    session.Gesture(5.0, 2600);
    afterThird := session.program;
  }
}

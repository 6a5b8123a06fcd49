# hand2midi signal-to-MIDI core in Dafny

hand2midi turns the palm position of the right hand, as a Leap Motion sensor
reports it, into MIDI. Each tracking frame runs through the same steps. The
position is smoothed over the last three samples. Its x, y and z are mapped to
a pitch, a velocity and a modulation depth, and the pitch is snapped to a
three-octave natural-minor table starting at F#2. When enough time has passed
and the hand has moved, the program sends a four-note chord with an envelope
and expression controllers. The chord's root gets a lifetime that shrinks as
the velocity grows. A pinch switches to the next General MIDI program. A root
whose lifetime has run out gets a note-off at the first right-hand frame at or
after its expiry.

This project models that core of `src/main.rs` and proves what it does:

- `Midi` (midi.dfy): the byte messages of `send_midi_note_off`, `send_midi_cc`,
  the program change and the note-on, and `change_instrument`. A decoder for
  the Channel Voice Messages of the MIDI 1.0 Detailed Specification is the
  partner that every builder round-trips through.
- `NoteNames` (notenames.dfy): `midi_to_note_name`, with a parser that reads
  every name back to its pitch.
- `Scale` (scale.dfy): `generate_minor_scale` as a loop proved against its
  closed form, `find_nearest_note_in_scale` as a loop proved against an argmin
  specification, and `binary_search` on the table.
- `Chord` (chord.dfy): `send_midi_chord_on`, including the panic when the root
  is not a member or is among the top six members.
- `Smoother` (smoother.dfy): the `MovingAverage` class and the not-a-number
  guard of `hand_tracking`.
- `Scheduler` (scheduler.dfy): the duration formula and the `active_notes` map
  as a `NoteTracker` class with `NoteOn` and `ExpireDue`.
- `Session` (session.dfy): the state `main` keeps across frames and one
  frame's work (`Step`), split into the rate gate (`Play`) with its block (`PlayNote`), the pinch
  gesture (`Gesture`) and the expiry pass (`Retire`). Sends append to a log,
  `sent`.

Bytes are the source's `u8` values, as `Byte` (0 to 255); palm positions are
unbounded integers. Instants are natural-number milliseconds. A panic the
program can reach, the failed `binary_search(..).unwrap()` or the out-of-range
table index in `send_midi_chord_on`, is returned as an outcome
(`Sends.panicked`, `Session.halted`). A `u8` overflow or underflow would panic
in a debug build, but the program's constants rule every one out, so the model
states it as a precondition: the channel is at least 1, the octave count is at
most 17, and a named pitch is at least 12. The `duration as u8` cast truncates
and never panics; it is modelled as the value modulo 256.

Behaviour worth knowing:

- The smoother always divides by three. Before three samples are in, the seed
  origins still count (`Smoother.WarmUpCountsOrigins`).
- A re-triggered pitch only has its expiry overwritten. No note-off is sent
  before the new note-on (`Scheduler.NoteTracker.NoteOn`).
- Only the chord's root is tracked; the other three chord notes are not. Such
  a pitch gets a note-off only when an entry for the same pitch, tracked as a
  root before or after, expires, or from the sweep of the next program change. The chord on 42, for example,
  sounds 52, 42, 45 and 49, and 49 is itself a member of the table
  (`Chord.BaseChord`).
- The release controller and controller 92 carry the duration as `u8`, i.e.
  modulo 256. For about half of all velocities (velocity 0 among them) that
  value is 128 or more, which is not a MIDI data byte
  (`Session.DurationControllerOverflow`).

## Model

| member | source | states |
|---|---|---|
| Midi.StatusByte | src/main.rs:163 | for a message kind with a zero low nibble and a channel 1 to 16, `kind \| (channel - 1)` is `kind + channel - 1` |
| Midi.NoteOff | src/main.rs:158-166 | the three bytes decode as a MIDI Note Off on that channel with that pitch and velocity |
| Midi.NoteOn | src/main.rs:151-152 | the three bytes decode as a MIDI Note On on that channel with that pitch and velocity |
| Midi.ControlChange | src/main.rs:168-176 | the bytes decode as a Control Change with that controller and value; a value of 128 or more makes the message no Channel Voice Message at all |
| Midi.ProgramChange | src/main.rs:190-191 | the two bytes decode as a Program Change on that channel with that program |
| Midi.ChangeInstrument | src/main.rs:178-193 | the loop sends exactly the messages of `InstrumentChange`: the note-off sweep, All Notes Off on MIDI_CHANNEL, then the program change |
| Midi.InstrumentChangeShape | src/main.rs:183-191 | 129 messages: note-offs for pitches 0 to 126 in ascending order and none for 127, then controller 123 = 0, then the program change last |
| NoteNames.MidiToNoteName | src/main.rs:375-389 | a name exists exactly for values below 128; it is 2 or 3 characters long and parses back to the same pitch, so the mapping is injective |
| NoteNames.BaseNoteName | src/main.rs:33 | the base note 42 is named "F#2" |
| Scale.Degree | src/main.rs:36-44 | every table position below 7 * 17 holds a pitch from BASE_NOTE up that fits in `u8` |
| Scale.GenerateMinorScale | src/main.rs:36-44 | the nested loops build exactly `MinorScale(octaves)`, whose element i is 42 + 12 * (i / 7) + pattern[i % 7] |
| Scale.MinorScale | src/main.rs:36-44 | the table has 7 pitches per octave, is strictly ascending, and stays within the requested octaves above BASE_NOTE |
| Scale.ThreeOctaveScale | src/main.rs:199 | the table the program plays has 21 pitches from 42 to 76 |
| Scale.MinorScaleOctavePeriodic | src/main.rs:38-41 | each member reappears 12 semitones higher seven positions on |
| Scale.NearestIndex | src/main.rs:97-109 | the chosen member is at the least distance from the pitch, and every earlier member is strictly farther |
| Scale.FindNearestNoteInScale | src/main.rs:97-109 | the scan, started at the first member with best distance 255, returns the argmin `Nearest(pitch, scale)` |
| Scale.NearestTieGoesLow | src/main.rs:103 | on an ascending table an exact tie goes to the lower member |
| Scale.NearestToFifty | src/main.rs:103 | 50, midway between 49 and 51 in the program's table, snaps to 49 |
| Scale.IndexOf | src/main.rs:148 | on a strictly ascending table the search finds the one position holding the pitch, or reports that the pitch is not a member |
| Chord.ChordOn | src/main.rs:126-156 | the program change and controllers 1 to 4 go out first; the call panics after them exactly when the root is not a member or lies within six positions of the top; otherwise four note-ons follow, for the members 6, 0, 2 and 4 positions above the root |
| Chord.MinorSeventhChord | src/main.rs:145-147 | on the minor table the four notes form a seventh chord on the root: a third of 3 or 4, a fifth of 6 or 7 and a seventh of 10 or 11 semitones above it |
| Chord.MinorScaleIntervals | src/main.rs:145-147 | two, four and six positions above any table position lie 3 or 4, 6 or 7 and 10 or 11 semitones higher |
| Chord.BaseChord | src/main.rs:145-152 | the chord on the base note 42 sounds 52, 42, 45 and 49, and 49 is the table member at position 4, so it can later be played and tracked as a root |
| Chord.ThreeOctaveChordPanics | src/main.rs:146-147 | in the program's table the chord lookup panics exactly for the roots 68 and up |
| Smoother.TruncDiv | src/main.rs:68 | the quotient is truncated toward zero, as Rust's `i32` division does |
| Smoother.WindowKeepsLatest | src/main.rs:56-61 | after any run of insertions the window holds the last three inserted samples, the seed origins included, in order |
| Smoother.WindowAfterWarmUp | src/main.rs:56-61 | from the third insertion on the window is exactly the last three samples |
| Smoother.MeanOfLastThree | src/main.rs:63-69 | from the third insertion on, the reported position is the per-axis truncated mean of the last three samples |
| Smoother.WindowMean | src/main.rs:63-68 | defines the reported position: each axis sum of the window divided by its length, truncated toward zero; `MeanOfLastThree` and `StillHandStaysPut` state what it reports |
| Smoother.StillHandStaysPut | src/main.rs:63-68 | three equal samples are reported as that sample, so a hand held still is reported where it is |
| Smoother.MovingAverage.SmoothedPosition | src/main.rs:63-69 | defines `get_smoothed_position` on the window the object holds, as `WindowMean` of its three samples |
| Smoother.WarmUpCountsOrigins | src/main.rs:50-54 | before warm-up the seed origins count: one sample (9, -8, 4) is reported as (3, -2, 1) |
| Smoother.MovingAverage.constructor | src/main.rs:50-54 | the window starts as three origin samples |
| Smoother.MovingAverage.AddSample | src/main.rs:56-61 | the newest sample is appended, the oldest dropped, and the window stays three long |
| Smoother.AddSamples | src/main.rs:55-60 | after `add_sample` for each sample in order, the object holds `Window` of its old window and the samples, so by `WindowKeepsLatest` the last three of them |
| Smoother.HandTracking | src/main.rs:72-85 | a sample with a not-a-number coordinate leaves the window unchanged and yields the origin; otherwise it is inserted and the smoothed position is returned |
| Scheduler.NoteDuration | src/main.rs:303-310 | the duration lies in [100, 5000] ms, 5000 at velocity 0 and 100 at velocity 127 |
| Scheduler.DurationNonIncreasing | src/main.rs:308-310 | a harder note never lasts longer than a softer one |
| Scheduler.ExpiryPartition | src/main.rs:338-349 | the due pitches and the remaining entries split the tracked pitches, and remaining entries keep their expiry |
| Scheduler.FreshNoteNotDue | src/main.rs:333 | a note scheduled in a step is at least 100 ms away from expiry, so it is not due in that step |
| Scheduler.HardestNoteLasts100ms | src/main.rs:303-310 | at velocity 127 a note is still tracked 99 ms later and due at 100 ms |
| Scheduler.NoteTracker.constructor | src/main.rs:225 | no notes are tracked at start |
| Scheduler.NoteTracker.NoteOn | src/main.rs:333 | the pitch's expiry becomes now plus its duration, replacing any earlier one; no other entry changes |
| Scheduler.NoteTracker.ExpireDue | src/main.rs:338-362 | returns each pitch with expiry at or before now exactly once, and leaves exactly the later entries, with their expiries unchanged |
| Session.NextProgram | src/main.rs:355 | the next program stays below 128, is one more below 127 and wraps to 0 only from 127 |
| Session.NoteBlockOnTable | src/main.rs:312-330 | on the program's table the block panics after the five header messages exactly when the nearest member is 68 or higher, and otherwise sends 13 messages |
| Session.NoteBlock | src/main.rs:302-330 | defines the block: the chord on the nearest table member with velocity at most 127 and the duration as `u8` as release, then the expression controllers, or the chord alone when it panics; `NoteBlockOnTable`, `NoteBlockHeader` and `NoteBlockControls` state its shape |
| Session.ExpressionControls | src/main.rs:327-330 | defines the four controllers after the chord: 74 and 91 carry the velocity, 92 the duration modulo 256, 1 the depth, all on MIDI_CHANNEL; `NoteBlockControls` proves how each decodes |
| Session.NoteBlockHeader | src/main.rs:312-330 | on any ascending, printable table the block panics exactly when the chord lookup does, has 5 messages then and 13 otherwise, and opens with the program change |
| Session.NoteBlockControls | src/main.rs:325-328 | when the chord goes out, the root's note-on is the seventh message (the second note-on) and controllers 74, 91 and 1 follow with velocity, velocity and depth; controller 92 is a control change only when the duration modulo 256 is below 128 |
| Session.DurationControllerOverflow | src/main.rs:322-329 | the duration as `u8` is 136 at velocity 0, 98 at velocity 1 and 248 at velocity 90, so the controller-92 message is no MIDI control change at velocities 0 and 90 but is one at velocity 1 |
| Session.EmitNote | src/main.rs:257-328 | sends the block for the nearest table member: the chord and, unless it panicked, the expression controllers |
| Session.SendNoteOffs | src/main.rs:360-363 | one velocity-0 note-off per released pitch, in release order |
| Session.Session.constructor | src/main.rs:199-225 | the table is the three-octave minor scale, program 0, an empty note map, three origin samples, and an instrument change to program 0 sent first |
| Session.Session.Play | src/main.rs:249-335 | the block runs exactly when the delay has passed and the smoothed x, y moved; it sends the block, tracks only the root with its duration and restarts the rate clock, or halts on a chord panic |
| Session.RateGateOpen | src/main.rs:243-250 | defines the emission gate: at least the delay has elapsed since the last note and the smoothed x, y differ from the last step's; `Play` opens it exactly then |
| Session.PinchFires | src/main.rs:352-353 | defines the gesture gate: a pinch distance below 10 and at least one whole second since the last program change; `CooldownInMilliseconds` restates the second as 1000 ms |
| Session.Session.PlayNote | src/main.rs:257-334 | inside the gate: the block for the nearest table note is sent; unless the chord lookup panicked, the root alone is scheduled for note-off after its duration and the rate clock restarts at now; a panic halts with the other state unchanged |
| Session.Session.Gesture | src/main.rs:352-358 | a pinch below 10 at least 1000 ms after the last change moves to the next program, sends the instrument change and restarts the cooldown; otherwise nothing changes |
| Session.Session.Retire | src/main.rs:338-363 | the due notes are dropped from the map and each gets one note-off, sent after any instrument change |
| Session.Session.Step | src/main.rs:235-365 | one frame: the smoothed sample, the gated block, the gesture and the note-offs, in that order, with the whole new state; the program stays a valid MIDI program and every tracked note is a table pitch due within 5000 ms of the last note |
| Session.CooldownInMilliseconds | src/main.rs:353 | comparing whole seconds is the same as comparing against 1000 ms |
| Session.PinchDebounce | src/main.rs:352-358 | in a session started at 0 ms, pinches at 1000, 1500 and 2600 ms leave the program at 1, 1 and 2: a pinch 500 ms after a change does nothing, one 1100 ms after it changes the program again |

## Left out

- Leap Motion connection, polling and the right-hand filter: sensor I/O. Each palm sample, pinch distance and instant becomes a `Step` input.
- `map_leap_coordinates_to_screen` and `mouse.move_to`: pointer side effects on floating point.
- `map_to_midi`: floating-point scaling and rounding. Its outputs (note, velocity, depth) are `Step` inputs, with velocity at most 127 as its clamp guarantees.
- The tilt-to-rate computation: floating-point clamping. The resulting delay in milliseconds is a `Step` input.
- The `as i32` casts of the palm coordinates, and `i32` overflow in the smoother's sums: positions are unbounded integers.
- A not-a-number pinch distance: the pinch is a `real`, so the comparison that is false for not-a-number is not modelled.
- MIDI port enumeration and connection, and send errors with their `?` and `.ok()` handling: every send succeeds and appends to the log.
- Screen clearing, the diagnostics printout and the `scale_notenames` list it prints: console output. The printout's own `unwrap`s (of the table's first and last member and of the nearest note's name) are dropped; none can fail on the three-octave table, whose members run from 42 to 76. The one printout `unwrap` kept is in `send_midi_chord_on`'s own printout of each chord note's name, as the `NameableScale` precondition of `Chord.ChordOn`.
- The `program == 200` stop: it can never hold because the program wraps modulo 128 (`Session.NextProgram`).
- Release-build `u8` wrap-around: the model follows a debug build, where an overflow panics.
- Scheduler.NoteTracker.ExpireDue: does not fix the order of the released pitches, because a `HashMap`'s iteration order is unspecified; only which pitches, each once.
- Session.Session.constructor: takes one start instant for both the note clock and the program-change clock, which the program reads separately a few statements apart.

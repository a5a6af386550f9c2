# padbeats MIDI-clock core, modelled in Dafny

padbeats is a small step sequencer that slaves to an external MIDI clock master.
The master sends the MIDI 1.0 system real-time messages Timing Clock (24 per quarter
note), Start, Continue and Stop. This project models the three state machines that
follow those messages, and proves what each one promises:

- `Sequencing.Sequencer` (padbeats/sequencer.py). It keeps an exact position in
  quarter notes and a running flag. Each running clock pulse adds 1/24. Each time the
  position becomes whole, it plays column `position mod 8` of a fixed 6×8 beat grid as
  note-on messages on channel index 9. `Measure` and `Beat` turn the position into
  1-based musical coordinates. `DoNotes` is the helper that sends a list of
  (note, velocity) pairs. `SequencerRuns` states the sequencer's behaviour over whole
  message streams: no drift, a boundary on exactly every 24th running pulse, and the
  transport rules.
- `ClockReceiver.MidiClockReceiver` (midiclock_mido.py). It keeps a FIFO window of
  the last 24 inter-pulse durations and estimates BPM = 2.5 / mean. It raises a sticky
  `sync` flag once two durations are known and tracks a running flag.
- `ClockSync.MidiClock` (padbeats/_clock.py). It has the same window, bounded by
  `deque(maxlen=24)`. It relays the estimated tempo to a downstream `clockblocks.Clock`,
  and turns Start/Continue/Stop into that clock's `release_from_suspension` and
  `rouse_and_hold`. The downstream clock is modelled as a ghost log of the commands it
  received.

`Tempo` holds what the two estimators share: the window (`Recent`), the sum, the mean
and the estimate. `Messages` holds the inbound message type and an `Outcome` type for
Python's ZeroDivisionError.

Modelling choices:

- Python `Fraction` and the estimators' floats are Dafny `real`, so the arithmetic is
  exact.
- The wall-clock time each estimator reads is a `now` parameter.
- The outbound MIDI port is a `Port` object whose `sent` sequence records every message.
- Each class carries ghost state that makes its invariant statable:
  - the pulse count since Start, for the sequencer, with position = pulses / 24;
  - the full history of durations, for the estimators, with window = its last 24 entries.
- A division by zero is an error outcome, not a precondition: 2.5 / mean with a window
  summing to 0, or measure/beat with a time signature of 0.

Two behaviours differ from what a reader might expect. The model follows the code in
both cases:

- The estimators' `sync` flag and first tempo update come on the third clock pulse,
  because two durations need three timestamps.
- The first boundary after Start plays grid column 1, not 0, because the position is
  already 1 when the step is computed. Column 0 plays on quarter notes 8, 16, …

## Model

| member | source | states |
|---|---|---|
| Tempo.Estimate | midiclock_mido.py:55-56 | the BPM update raises ZeroDivisionError exactly when the window's durations sum to zero |
| Tempo.EstimateTimesMean | midiclock_mido.py:56 | a successful estimate times the window's sum equals 2.5 × the window length, i.e. BPM × mean interval = 2.5 |
| Tempo.SteadyClock | midiclock_mido.py:55-56 | a window of equal intervals d ≠ 0 gives exactly 2.5 / d BPM |
| Tempo.EstimateBetween | midiclock_mido.py:55-56 | with every interval in [lo, hi] and lo > 0, no division by zero occurs and the BPM lies between 2.5/hi and 2.5/lo |
| Tempo.RecentSlides | midiclock_mido.py:47-53 | appending a duration to the window of a history gives the window of the extended history: plain append below 24, oldest evicted at 24; never more than 24 |
| Tempo.WindowAfter | padbeats/_clock.py:26-37 | appending at most one duration and trimming the oldest on overflow keeps the window equal to the last 24 durations ever measured, and it holds ≥ 2 samples exactly when at least 2 durations were measured |
| ClockReceiver.MidiClockReceiver.constructor | midiclock_mido.py:32-37 | bpm is the given value or 120.0, sync is false, running is true, the window is empty and there is no last timestamp |
| ClockReceiver.MidiClockReceiver.Receive | midiclock_mido.py:39-66 | sync is never reset; Start/Continue set running and Stop clears it; no transport message changes the window, the last timestamp, bpm or sync; a clock message has the per-pulse effect below and never changes running |
| ClockReceiver.MidiClockReceiver.OnClock | midiclock_mido.py:45-57 | one pulse records `now - last` if there was a last pulse and stores `now`; the window becomes the last 24 durations; with ≥ 2 samples bpm becomes the window's estimate and sync is set, raising on a zero sum; otherwise bpm and sync stay; sync first becomes true on the third pulse |
| ClockReceiver.MidiClockReceiver.RecordPulse | midiclock_mido.py:46-53 | the first pulse records no duration; later pulses append `now - last` and evict the oldest above 24; `now` becomes the last timestamp; bpm, sync and running are untouched |
| ClockReceiver.MidiClockReceiver.UpdateTempo | midiclock_mido.py:55-57 | with ≥ 2 samples and a non-zero sum, bpm = 2.5 / mean and sync is set; with a zero sum it raises; with fewer samples nothing changes |
| ClockSync.TransportKeepsTempo | padbeats/_clock.py:45-54 | release and hold commands never change the downstream clock's tempo |
| ClockSync.MidiClock.constructor | padbeats/_clock.py:20-27 | bpm is 120, the downstream clock starts at tempo 120 with no commands, the window is empty and there is no last timestamp |
| ClockSync.MidiClock.Receive | padbeats/_clock.py:29-54 | Start and Continue issue exactly one release_from_suspension, Stop exactly one rouse_and_hold, and none of them touches bpm, the window or the tempo; a clock message has the per-pulse effect below; the downstream tempo always equals bpm |
| ClockSync.MidiClock.OnClock | padbeats/_clock.py:34-43 | one pulse records the new duration into the maxlen-24 window; the downstream tempo is set only when the window holds ≥ 2 samples, and then to the new estimate; a zero sum raises and sends nothing |
| ClockSync.MidiClock.RecordPulse | padbeats/_clock.py:35-39 | the first pulse records no duration; later pulses append `now - last`, and a full window drops its oldest entry first; no command is sent |
| ClockSync.MidiClock.UpdateTempo | padbeats/_clock.py:41-43 | with ≥ 2 samples and a non-zero sum, bpm = 2.5 / mean and exactly one SetTempo(bpm) is sent; otherwise bpm and the command log stay, and a zero sum raises |
| Sequencing.SentVelocity | padbeats/sequencer.py:36 | a missing or zero velocity is sent as 127, any other as given; the sent velocity is never 0 |
| Sequencing.NoteMessagesSpec | padbeats/sequencer.py:34-37 | one message per (note, velocity) pair, in list order, with that pair's note, its velocity or 127, and the given kind and channel |
| Sequencing.DoNotes | padbeats/sequencer.py:28-37 | the port receives exactly those messages appended after what it had already sent |
| Sequencing.SetLanesSpec | padbeats/sequencer.py:101-105 | the lanes selected for a step are exactly the lanes whose grid cell is set, each once, in increasing lane order |
| Sequencing.BoundaryNotes | padbeats/sequencer.py:98-107 | a boundary sends only note-ons, one per set lane in lane order, each with the lane's note, velocity 112 and channel 9 |
| Sequencing.DefaultLanes | padbeats/sequencer.py:59-66 | in the default grid every step has exactly lanes 0 and 5 set |
| Sequencing.DefaultBoundary | padbeats/sequencer.py:18-25 | with the default grid and note map every boundary sends exactly note-ons 36 then 51, velocity 112, channel 9 |
| Sequencing.StepOf | padbeats/sequencer.py:86 | the step a boundary plays always lies in 0..7 |
| Sequencing.PositionOfPulses | padbeats/sequencer.py:83-85 | after p pulses the position p/24 is whole exactly when p is a multiple of 24, and its integer part is p div 24 |
| Sequencing.PulseAfter | padbeats/sequencer.py:81-107 | a running pulse moves the position from p/24 to exactly (p+1)/24 and sends notes exactly when p+1 is a multiple of 24, playing step ((p+1) div 24) mod 8 |
| Sequencing.Sequencer.constructor | padbeats/sequencer.py:50-72 | a new sequencer is at position 0, running, with the default grid and the given note map |
| Sequencing.Sequencer.HandleClock | padbeats/sequencer.py:74-114 | the transport and the appended messages are what the message rules prescribe (a running pulse adds 1/24 and plays the step's notes on a whole position; a stopped pulse does nothing; Start resets to 0 and runs; Continue runs; Stop halts; others change nothing); earlier messages are kept; notes go out only on a running pulse that completes a quarter note |
| Sequencing.Sequencer.Measure | padbeats/sequencer.py:116-118 | a zero time signature raises; for ts > 0 the measure is the one whose span of 4·ts quarter notes holds the position, and it is ≥ 1 for a non-negative position |
| Sequencing.Sequencer.Beat | padbeats/sequencer.py:120-122 | a zero time signature raises; for ts > 0 the beat lies in 1..ceil(4·ts) |
| Sequencing.Sequencer.MeasureAndBeat | padbeats/sequencer.py:116-122 | for ts > 0 the position lies inside the reported beat of the reported measure |
| Sequencing.Sequencer.SevenQuarterNotes | padbeats/sequencer.py:116-122 | in 4/4 at position 7 the measure is 2 and the beat is 4 |
| SequencerRuns.RunConcat | padbeats/sequencer.py:74-114 | running a concatenated stream is running its parts one after the other |
| SequencerRuns.RunningPulses | padbeats/sequencer.py:81-107 | n running pulses from position p/24 reach exactly (p+n)/24, still running, and send what the integer pulse counter prescribes: no drift |
| SequencerRuns.StoppedPulses | padbeats/sequencer.py:81-82 | while stopped, any number of pulses neither move the position nor send anything |
| SequencerRuns.ScheduleConcat | padbeats/sequencer.py:81-107 | what a + b pulses send is what the first a send followed by what the next b send |
| SequencerRuns.QuietPulses | padbeats/sequencer.py:83-85 | pulses none of which completes a quarter note send nothing |
| SequencerRuns.QuarterNote | padbeats/sequencer.py:83-107 | the 24 pulses of a quarter note send nothing until the last, which plays that quarter note's step |
| SequencerRuns.OneQuarter | padbeats/sequencer.py:83-107 | each further quarter note after Start appends exactly its own step's notes |
| SequencerRuns.QuartersFromStart | padbeats/sequencer.py:83-110 | 24·k running pulses from Start play steps 1, 2, …, k mod 8 in order and nothing else |
| SequencerRuns.StartThenPulses | padbeats/sequencer.py:108-110 | Start resets the position whatever it was; n pulses later it is exactly n/24, running, having sent what the pulse counter prescribes from 0 |
| SequencerRuns.FirstBoundaryAfterStart | padbeats/sequencer.py:83-86 | the first 24 pulses after Start end at position 1 and have sent exactly grid column 1 |
| SequencerRuns.TransportMessage | padbeats/sequencer.py:111-114 | Stop clears and Continue sets the running flag, both keep the position and send nothing |
| SequencerRuns.Pause | padbeats/sequencer.py:111-114 | Stop, any number of pulses, then Continue returns to exactly the same position, running, having sent nothing |
| SequencerRuns.StopThenStart | padbeats/sequencer.py:108-114 | after Stop then Start, m pulses put the position at exactly m/24 whatever came before |
| SequencerRuns.DefaultMeasureFromStart | padbeats/sequencer.py:59-66 | with the default grid and note map, 8 quarter notes from Start send 8 pairs of note-ons 36 and 51, velocity 112, channel 9, and nothing else |

## Left out

- The device I/O is not modelled: `open_midi_input`/`open_midi_output`, padbeats/midi_util.py, `mido.Message` construction and opening ports. Sending is appending to `Port.sent`.
- `main()`, the `__main__` blocks, `Sequencer.run`'s endless print loop, the `Thread` wiring and every `print` call are presentation only.
- Registering `handle_clock` as the input port's callback (padbeats/sequencer.py:72) and the `midi_in` field are not modelled. `HandleClock` is called directly.
- The concurrency between the MIDI callback thread and the reporting loop that polls bpm, sync and the measure is not modelled.
- `time.time()` is not modelled. Each estimator takes the arrival time as the `now` parameter.
- The internals of `clockblocks.Clock` are not modelled, since it is a foreign library. Only the commands it receives (tempo assignments, `release_from_suspension`, `rouse_and_hold`) are recorded, in a ghost log.
- The commented-out note-off code (padbeats/sequencer.py:87-97) is not modelled, because it does not run.
- The numpy beat matrix is a 6×8 grid of `bool`, where a cell is set when it is non-zero. The grid is the fixed default the constructor builds.
- Tempo.Estimate: uses exact reals instead of IEEE doubles. Rounding is not modelled, and neither is a mean that is non-zero yet underflows, or a sum of tiny non-zero durations that rounds to 0.0.
- Sequencing.DoNotes: mido's `ValueError` range checks on note, velocity and channel are not modelled. Any integers are accepted.
- Sequencing.Sequencer.constructor: requires a note map of six notes, which is what the `NoteMap` type annotation states. The `IndexError` a shorter tuple would raise at the first boundary is not modelled.
- Sequencing.Sequencer.Measure: a negative time signature is not given a meaning. Its floor division result is returned but not described.
- Sequencing.Sequencer.Beat: a negative time signature is not given a meaning. Its floor division result is returned but not described.
- SequencerRuns.Pause: is stated for the Stop…Continue segment on its own. Pulses before and after it compose through RunConcat and RunningPulses.

/** The standalone MIDI-clock receiver: it follows Timing Clock messages to estimate
    the tempo, raises a sticky sync flag once the estimate rests on two intervals, and
    tracks Start/Continue/Stop in a running flag. The arrival time of each message is
    passed in as `now` (the source reads the wall clock itself). */
module ClockReceiver {
  import opened Messages
  import opened Tempo

  class MidiClockReceiver {
    var bpm: real
    var sync: bool
    var running: bool
    /** The FIFO window of recent inter-pulse durations. */
    var samples: seq<real>
    var lastClock: Option<real>

    /** The tempo given at construction (120.0 when none was). */
    ghost const initialBpm: real
    /** Number of clock messages received so far. */
    ghost var pulses: nat
    /** Every duration ever measured, oldest first. */
    ghost var history: seq<real>

    ghost predicate Valid()
      reads this
    {
      && (lastClock.Some? <==> pulses > 0)
      && |history| == (if pulses == 0 then 0 else pulses - 1)
      && samples == Recent(history)
      && |samples| <= Capacity
      && (|samples| >= 2 <==> pulses >= 3)
      && (sync ==> pulses >= 3)
      && (!sync ==> bpm == initialBpm)
    }

    constructor (initial: Option<real>)
      ensures Valid()
      ensures bpm == initialBpm == (if initial.Some? then initial.value else DefaultBpm)
      ensures !sync && running && samples == [] && lastClock == None && pulses == 0
    {
      bpm := if initial.Some? then initial.value else DefaultBpm;
      initialBpm := if initial.Some? then initial.value else DefaultBpm;
      sync := false;
      running := true;
      samples := [];
      lastClock := None;
      pulses := 0;
      history := [];
    }

    /** Handles one inbound message that arrived at time `now`. `raised` reports the
        ZeroDivisionError the BPM update raises when the window's intervals sum to zero;
        the window and the last timestamp are already updated when that happens. */
    method Receive(message: Message, now: real) returns (raised: bool)
      requires Valid()
      modifies this
      ensures Valid()
      ensures old(sync) ==> sync
      ensures !message.Clock? ==>
        && !raised
        && samples == old(samples) && lastClock == old(lastClock)
        && bpm == old(bpm) && sync == old(sync)
        && pulses == old(pulses) && history == old(history)
      ensures message.Start? || message.Continue? ==> running
      ensures message.Stop? ==> !running
      ensures message.Clock? || message.Other? ==> running == old(running)
      ensures message.Clock? ==> PulseEffect(old(samples), old(lastClock), old(bpm), old(sync), old(pulses), old(history), now, raised)
    {
      raised := false;
      match message {
        case Clock =>
          raised := OnClock(now);
        case Start =>
          running := true;
        case Continue =>
          running := true;
        case Stop =>
          running := false;
        case Other(_) =>
      }
    }

    /** What one clock pulse at `now` does to a receiver that was in the given state. */
    ghost predicate PulseEffect(samples0: seq<real>, last0: Option<real>, bpm0: real, sync0: bool,
                                pulses0: nat, history0: seq<real>, now: real, raised: bool)
      reads this
    {
      var added := if last0.Some? then [now - last0.value] else [];
      && pulses == pulses0 + 1
      && history == history0 + added
      && samples == Recent(samples0 + added)
      && lastClock == Some(now)
      && (raised <==> |samples| >= 2 && Sum(samples) == 0.0)
      && (|samples| >= 2 && !raised ==> bpm == Estimate(samples).value && sync)
      && (|samples| < 2 || raised ==> bpm == bpm0 && sync == sync0)
      // the first time there are two samples is the third clock pulse
      && (!raised ==> (sync <==> sync0 || pulses >= 3))
    }

    method OnClock(now: real) returns (raised: bool)
      requires Valid()
      modifies this
      ensures Valid()
      ensures running == old(running)
      ensures PulseEffect(old(samples), old(lastClock), old(bpm), old(sync), old(pulses), old(history), now, raised)
    {
      RecordPulse(now);
      raised := UpdateTempo();
    }

    /** Stores the interval since the previous pulse, if there was one, in the window,
        evicting the oldest interval once the window exceeds `Capacity`. */
    method RecordPulse(now: real)
      requires Valid()
      modifies this
      ensures Valid()
      ensures var added := if old(lastClock).Some? then [now - old(lastClock).value] else [];
        && pulses == old(pulses) + 1
        && history == old(history) + added
        && samples == Recent(old(samples) + added)
        && lastClock == Some(now)
      ensures bpm == old(bpm) && sync == old(sync) && running == old(running)
    {
      ghost var added := if lastClock.Some? then [now - lastClock.value] else [];
      ghost var grown := samples + added;
      if lastClock.Some? {
        samples := samples + [now - lastClock.value];
        history := history + [now - lastClock.value];
      }
      assert samples == grown && history == old(history) + added;
      lastClock := Some(now);
      if |samples| > Capacity {
        samples := samples[1..];
      }
      WindowAfter(old(history), added);
      assert samples == Recent(history);
      pulses := pulses + 1;
    }

    /** Recomputes the tempo from the window once it holds two intervals, and marks the
        receiver synchronised; the division raises when the intervals sum to zero. */
    method UpdateTempo() returns (raised: bool)
      requires Valid()
      modifies this
      ensures Valid()
      ensures samples == old(samples) && lastClock == old(lastClock) && running == old(running)
      ensures pulses == old(pulses) && history == old(history)
      ensures raised <==> |samples| >= 2 && Sum(samples) == 0.0
      ensures |samples| >= 2 && !raised ==> bpm == Estimate(samples).value && sync
      ensures |samples| < 2 || raised ==> bpm == old(bpm) && sync == old(sync)
    {
      raised := false;
      if |samples| >= 2 {
        match Estimate(samples) {
          case ZeroDivisionError =>
            raised := true;
          case Ok(estimate) =>
            bpm := estimate;
            sync := true;
        }
      }
    }
  }
}

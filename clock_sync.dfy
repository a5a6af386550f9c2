/** The tempo-propagating clock follower: it estimates the tempo of an external MIDI
    clock master like the standalone receiver, and relays that tempo and the master's
    transport (Start/Continue/Stop) to a downstream scheduling clock. The downstream
    clock is a foreign object; only the commands sent to it are recorded. */
module ClockSync {
  import opened Messages
  import opened Tempo

  /** A command issued to the downstream clock. */
  datatype ClockCommand = SetTempo(tempo: real) | ReleaseFromSuspension | RouseAndHold

  /** The downstream clock's tempo after it was created with `initial` and then
      received `log`: the last tempo set, or `initial` when none was. */
  function TempoAfter(initial: real, log: seq<ClockCommand>): real
  {
    if log == [] then initial
    else if log[|log| - 1].SetTempo? then log[|log| - 1].tempo
    else TempoAfter(initial, log[..|log| - 1])
  }

  /** Transport commands never change the downstream tempo. */
  lemma {:induction false} TransportKeepsTempo(initial: real, log: seq<ClockCommand>, extra: seq<ClockCommand>)
    requires forall i :: 0 <= i < |extra| ==> !extra[i].SetTempo?
    ensures TempoAfter(initial, log + extra) == TempoAfter(initial, log)
  {
    if extra != [] {
      var shorter := extra[..|extra| - 1];
      assert (log + extra)[..|log + extra| - 1] == log + shorter;
      assert (log + extra)[|log + extra| - 1] == extra[|extra| - 1];
      assert !extra[|extra| - 1].SetTempo?;
      TransportKeepsTempo(initial, log, shorter);
    } else {
      assert log + extra == log;
    }
  }

  class MidiClock {
    var bpm: real
    /** The window of recent inter-pulse durations, a deque bounded to `Capacity`. */
    var samples: seq<real>
    var lastClock: Option<real>

    /** The tempo the downstream clock was created with. */
    ghost const initialTempo: real
    /** Every command sent to the downstream clock, oldest first. */
    ghost var commands: seq<ClockCommand>
    /** Number of clock messages received so far. */
    ghost var pulses: nat
    /** Every duration ever measured, oldest first. */
    ghost var history: seq<real>

    ghost predicate Valid()
      reads this
    {
      && (lastClock.Some? <==> pulses > 0)
      && |history| == (if pulses == 0 then 0 else pulses - 1)
      && samples == Recent(history)
      && |samples| <= Capacity
      // the downstream clock always runs at the estimated tempo
      && TempoAfter(initialTempo, commands) == bpm
    }

    constructor ()
      ensures Valid()
      ensures bpm == DefaultBpm && initialTempo == DefaultBpm
      ensures samples == [] && lastClock == None && commands == [] && pulses == 0
    {
      bpm := DefaultBpm;
      initialTempo := DefaultBpm;
      samples := [];
      lastClock := None;
      commands := [];
      pulses := 0;
      history := [];
    }

    /** Handles one inbound message that arrived at time `now`. `raised` reports the
        ZeroDivisionError of the BPM update; the window and the last timestamp are
        already updated when that happens, and no tempo is sent. */
    method Receive(message: Message, now: real) returns (raised: bool)
      requires Valid()
      modifies this
      ensures Valid()
      ensures !message.Clock? ==>
        && !raised
        && bpm == old(bpm) && samples == old(samples) && lastClock == old(lastClock)
        && pulses == old(pulses) && history == old(history)
      ensures message.Start? || message.Continue? ==> commands == old(commands) + [ReleaseFromSuspension]
      ensures message.Stop? ==> commands == old(commands) + [RouseAndHold]
      ensures message.Other? ==> commands == old(commands)
      ensures message.Clock? ==>
        PulseEffect(old(samples), old(lastClock), old(bpm), old(pulses), old(history), old(commands), now, raised)
    {
      raised := false;
      match message {
        case Clock =>
          raised := OnClock(now);
        case Start =>
          commands := commands + [ReleaseFromSuspension];
          TransportKeepsTempo(initialTempo, old(commands), [ReleaseFromSuspension]);
        case Continue =>
          commands := commands + [ReleaseFromSuspension];
          TransportKeepsTempo(initialTempo, old(commands), [ReleaseFromSuspension]);
        case Stop =>
          commands := commands + [RouseAndHold];
          TransportKeepsTempo(initialTempo, old(commands), [RouseAndHold]);
        case Other(_) =>
      }
    }

    /** What one clock pulse at `now` does to a follower that was in the given state:
        the tempo is recomputed and sent downstream only once the window holds two
        samples, and it is the window's estimate that is sent. */
    ghost predicate PulseEffect(samples0: seq<real>, last0: Option<real>, bpm0: real, pulses0: nat,
                                history0: seq<real>, commands0: seq<ClockCommand>, now: real, raised: bool)
      reads this
    {
      var added := if last0.Some? then [now - last0.value] else [];
      && pulses == pulses0 + 1
      && history == history0 + added
      && samples == Recent(samples0 + added)
      && lastClock == Some(now)
      && (raised <==> |samples| >= 2 && Sum(samples) == 0.0)
      && (|samples| >= 2 && !raised ==>
            bpm == Estimate(samples).value && commands == commands0 + [SetTempo(bpm)])
      && (|samples| < 2 || raised ==> bpm == bpm0 && commands == commands0)
    }

    method OnClock(now: real) returns (raised: bool)
      requires Valid()
      modifies this
      ensures Valid()
      ensures PulseEffect(old(samples), old(lastClock), old(bpm), old(pulses), old(history), old(commands), now, raised)
    {
      RecordPulse(now);
      raised := UpdateTempo();
    }

    /** Appends the interval since the previous pulse, if there was one, to the window;
        a deque with maxlen drops its oldest entry when appended to while full. */
    method RecordPulse(now: real)
      requires Valid()
      modifies this
      ensures Valid()
      ensures var added := if old(lastClock).Some? then [now - old(lastClock).value] else [];
        && pulses == old(pulses) + 1
        && history == old(history) + added
        && samples == Recent(old(samples) + added)
        && lastClock == Some(now)
      ensures bpm == old(bpm) && commands == old(commands)
    {
      ghost var added := if lastClock.Some? then [now - lastClock.value] else [];
      ghost var grown := samples + added;
      if lastClock.Some? {
        var d := now - lastClock.value;
        if |samples| == Capacity {
          assert samples[1..] + [d] == grown[1..];
          samples := samples[1..] + [d];
        } else {
          samples := samples + [d];
        }
        history := history + [d];
      }
      assert samples == (if |grown| > Capacity then grown[1..] else grown);
      assert history == old(history) + added;
      WindowAfter(old(history), added);
      assert samples == Recent(history);
      lastClock := Some(now);
      pulses := pulses + 1;
    }

    /** Once the window holds two intervals, recomputes the tempo from it and sets the
        downstream clock to it; the division raises when the intervals sum to zero. */
    method UpdateTempo() returns (raised: bool)
      requires Valid()
      modifies this
      ensures Valid()
      ensures samples == old(samples) && lastClock == old(lastClock)
      ensures pulses == old(pulses) && history == old(history)
      ensures raised <==> |samples| >= 2 && Sum(samples) == 0.0
      ensures |samples| >= 2 && !raised ==>
        bpm == Estimate(samples).value && commands == old(commands) + [SetTempo(bpm)]
      ensures |samples| < 2 || raised ==> bpm == old(bpm) && commands == old(commands)
    {
      raised := false;
      if |samples| >= 2 {
        match Estimate(samples) {
          case ZeroDivisionError =>
            raised := true;
          case Ok(estimate) =>
            bpm := estimate;
            commands := commands + [SetTempo(bpm)];
        }
      }
    }
  }
}

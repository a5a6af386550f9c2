/** Properties of the sequencer over whole message streams: an exact position that
    never drifts, a quarter-note boundary on exactly every 24th running pulse, and
    the transport rules for Start, Continue and Stop. */
module SequencerRuns {
  import opened Messages
  import opened Sequencing

  /** The transport after a stream of messages, and everything the stream sent. */
  function Run(outs: seq<seq<NoteMessage>>, t: Transport, ms: seq<Message>): (Transport, seq<NoteMessage>)
    requires |outs| == Width
    decreases |ms|
  {
    if ms == [] then (t, [])
    else
      var first := Handle(outs, t, ms[0]);
      var rest := Run(outs, first.0, ms[1..]);
      (rest.0, first.1 + rest.1)
  }

  lemma RunFirst(outs: seq<seq<NoteMessage>>, t: Transport, ms: seq<Message>)
    requires |outs| == Width && ms != []
    ensures var first := Handle(outs, t, ms[0]);
      var rest := Run(outs, first.0, ms[1..]);
      Run(outs, t, ms) == (rest.0, first.1 + rest.1)
  {
  }

  /** `n` timing clock messages. */
  function Clocks(n: nat): seq<Message>
  {
    seq(n, _ => Clock)
  }

  /** Reference definition with an integer pulse counter: what `n` running pulses send
      after `p` pulses since Start. Pulse number j completes a quarter note when
      j is a multiple of 24, and then plays step (j / 24) mod 8. */
  function PulseSchedule(outs: seq<seq<NoteMessage>>, p: nat, n: nat): seq<NoteMessage>
    requires |outs| == Width
    decreases n
  {
    if n == 0 then []
    else
      (if OnBoundary(p + 1) then outs[StepOf(QuarterOf(p + 1))] else [])
      + PulseSchedule(outs, p + 1, n - 1)
  }

  /** What the first `k` quarter notes after Start send: quarter note q plays step q % 8,
      so the first plays step 1 and step 0 comes on the 8th, 16th, ... */
  function Quarters(outs: seq<seq<NoteMessage>>, k: nat): seq<NoteMessage>
    requires |outs| == Width
  {
    if k == 0 then [] else Quarters(outs, k - 1) + outs[StepOf(k)]
  }

  lemma ScheduleFirst(outs: seq<seq<NoteMessage>>, p: nat, n: nat)
    requires |outs| == Width && n > 0
    ensures PulseSchedule(outs, p, n)
      == (if OnBoundary(p + 1) then outs[StepOf(QuarterOf(p + 1))] else [])
         + PulseSchedule(outs, p + 1, n - 1)
  {
  }

  /** Running a concatenation runs its parts one after the other. */
  lemma {:induction false} RunConcat(outs: seq<seq<NoteMessage>>, t: Transport, a: seq<Message>, b: seq<Message>)
    requires |outs| == Width
    ensures var first := Run(outs, t, a);
      var second := Run(outs, first.0, b);
      Run(outs, t, a + b) == (second.0, first.1 + second.1)
    decreases |a|
  {
    if a == [] {
      assert a + b == b;
      var second := Run(outs, t, b);
      assert Run(outs, t, a).1 + second.1 == second.1;
    } else {
      var ab := a + b;
      assert ab[0] == a[0] && ab[1..] == a[1..] + b;
      var head := Handle(outs, t, a[0]);
      var tail := Run(outs, head.0, a[1..]);
      var second := Run(outs, tail.0, b);
      RunConcat(outs, head.0, a[1..], b);
      RunFirst(outs, t, a);
      RunFirst(outs, t, ab);
      assert head.1 + (tail.1 + second.1) == (head.1 + tail.1) + second.1;
    }
  }

  /** From p pulses since Start, n running pulses put the position at exactly
      (p + n) / 24 quarter notes, keep the clock running, and send exactly what the
      integer pulse counter prescribes: no floating drift, however large n is. */
  lemma {:induction false} RunningPulses(outs: seq<seq<NoteMessage>>, p: nat, n: nat)
    requires |outs| == Width
    ensures Run(outs, Transport(PositionOf(p), true), Clocks(n))
      == (Transport(PositionOf(p + n), true), PulseSchedule(outs, p, n))
    decreases n
  {
    var t := Transport(PositionOf(p), true);
    if n > 0 {
      var fired := if OnBoundary(p + 1) then outs[StepOf(QuarterOf(p + 1))] else [];
      var t1 := Transport(PositionOf(p + 1), true);
      PulseAfter(outs, p);
      assert Handle(outs, t, Clock) == (t1, fired);
      assert Clocks(n)[0] == Clock && Clocks(n)[1..] == Clocks(n - 1);
      RunFirst(outs, t, Clocks(n));
      RunningPulses(outs, p + 1, n - 1);
      assert p + 1 + (n - 1) == p + n;
      ScheduleFirst(outs, p, n);
    } else {
      assert Clocks(n) == [];
      assert Run(outs, t, Clocks(n)) == (t, []);
    }
  }

  /** While stopped, clock pulses neither move the position nor send anything. */
  lemma {:induction false} StoppedPulses(outs: seq<seq<NoteMessage>>, q: real, n: nat)
    requires |outs| == Width
    ensures Run(outs, Transport(q, false), Clocks(n)) == (Transport(q, false), [])
    decreases n
  {
    if n > 0 {
      assert Clocks(n)[0] == Clock && Clocks(n)[1..] == Clocks(n - 1);
      assert Handle(outs, Transport(q, false), Clock) == (Transport(q, false), []);
      StoppedPulses(outs, q, n - 1);
      var none: seq<NoteMessage> := [];
      assert none + none == none;
    } else {
      assert Clocks(n) == [];
    }
  }

  lemma {:induction false} ScheduleConcat(outs: seq<seq<NoteMessage>>, p: nat, a: nat, b: nat)
    requires |outs| == Width
    ensures PulseSchedule(outs, p, a + b)
      == PulseSchedule(outs, p, a) + PulseSchedule(outs, p + a, b)
    decreases a
  {
    if a > 0 {
      ScheduleConcat(outs, p + 1, a - 1, b);
    }
  }

  /** Pulses none of which completes a quarter note send nothing. */
  lemma {:induction false} QuietPulses(outs: seq<seq<NoteMessage>>, p: nat, n: nat)
    requires |outs| == Width
    requires forall j :: p < j <= p + n ==> !OnBoundary(j)
    ensures PulseSchedule(outs, p, n) == []
    decreases n
  {
    if n > 0 {
      assert !OnBoundary(p + 1);
      QuietPulses(outs, p + 1, n - 1);
    }
  }

  /** The pulses strictly inside quarter note k + 1 complete no quarter note. */
  lemma InsideQuarter(k: nat)
    ensures forall j :: QuarterPulses(k) < j < QuarterPulses(k) + PulsesPerQuarter ==> !OnBoundary(j)
  {
  }

  /** The last pulse of quarter note k + 1 completes it. */
  lemma EndOfQuarter(k: nat)
    ensures QuarterPulses(k) + PulsesPerQuarter == QuarterPulses(k + 1)
    ensures OnBoundary(QuarterPulses(k + 1)) && QuarterOf(QuarterPulses(k + 1)) == k + 1
  {
  }

  /** The 24 pulses of quarter note k + 1 send nothing until the last, which completes
      that quarter note and plays its step. */
  lemma QuarterNote(outs: seq<seq<NoteMessage>>, k: nat, n: nat)
    requires |outs| == Width && n == PulsesPerQuarter
    ensures PulseSchedule(outs, QuarterPulses(k), n) == outs[StepOf(k + 1)]
  {
    var p := QuarterPulses(k);
    var quiet: nat := n - 1;
    var fired := outs[StepOf(k + 1)];
    assert PulseSchedule(outs, p, quiet) == [] by {
      InsideQuarter(k);
      QuietPulses(outs, p, quiet);
    }
    assert PulseSchedule(outs, p + quiet, 1) == fired by {
      EndOfQuarter(k);
      ScheduleFirst(outs, p + quiet, 1);
      assert fired + [] == fired;
    }
    ScheduleConcat(outs, p, quiet, 1);
    assert [] + fired == fired;
  }

  /** Each quarter note after Start appends its own step's notes to what was sent. */
  lemma OneQuarter(outs: seq<seq<NoteMessage>>, k: nat)
    requires |outs| == Width
    ensures PulseSchedule(outs, 0, QuarterPulses(k + 1))
      == PulseSchedule(outs, 0, QuarterPulses(k)) + outs[StepOf(k + 1)]
  {
    var whole: nat := PulsesPerQuarter;
    QuarterNote(outs, k, whole);
    EndOfQuarter(k);
    ScheduleConcat(outs, 0, QuarterPulses(k), whole);
  }

  /** After k quarter notes' worth of running pulses from Start, the k quarter notes
      have played steps 1, 2, ..., k mod 8 in that order, and nothing else was sent. */
  lemma {:induction false} QuartersFromStart(outs: seq<seq<NoteMessage>>, k: nat)
    requires |outs| == Width
    ensures PulseSchedule(outs, 0, QuarterPulses(k)) == Quarters(outs, k)
  {
    if k > 0 {
      OneQuarter(outs, k - 1);
      QuartersFromStart(outs, k - 1);
    }
  }

  /** Start resets the position whatever it was; n pulses later it is exactly n / 24
      and the pulses have sent what the pulse counter prescribes from 0. */
  lemma StartThenPulses(outs: seq<seq<NoteMessage>>, t: Transport, n: nat)
    requires |outs| == Width
    ensures Run(outs, t, [Start] + Clocks(n))
      == (Transport(PositionOf(n), true), PulseSchedule(outs, 0, n))
  {
    RunConcat(outs, t, [Start], Clocks(n));
    var restart := Transport(PositionOf(0), true);
    RunFirst(outs, t, [Start]);
    assert [Start][0] == Start && [Start][1..] == [];
    assert PositionOf(0) == 0.0;
    assert Handle(outs, t, Start) == (restart, []);
    assert Run(outs, t, [Start]) == (restart, []);
    RunningPulses(outs, 0, n);
    var pulses := Run(outs, restart, Clocks(n));
    assert [] + pulses.1 == pulses.1;
  }

  /** The first quarter note after Start plays column 1 of the grid, not column 0. */
  lemma FirstBoundaryAfterStart(outs: seq<seq<NoteMessage>>, t: Transport)
    requires |outs| == Width
    ensures Run(outs, t, [Start] + Clocks(PulsesPerQuarter))
      == (Transport(1.0, true), outs[1])
  {
    var one: nat := 1;
    StartThenPulses(outs, t, PulsesPerQuarter);
    QuartersFromStart(outs, one);
    assert QuarterPulses(one) == PulsesPerQuarter;
    var fired := outs[StepOf(one)];
    assert Quarters(outs, one) == [] + fired == fired;
    PositionOfPulses(PulsesPerQuarter);
    assert PositionOf(PulsesPerQuarter) == 1.0;
  }

  /** A single Stop or Continue only sets the running flag and sends nothing. */
  lemma TransportMessage(outs: seq<seq<NoteMessage>>, t: Transport, m: Message)
    requires |outs| == Width
    requires m.Stop? || m.Continue?
    ensures Run(outs, t, [m]) == (Transport(t.quarterNotes, m.Continue?), [])
  {
    RunFirst(outs, t, [m]);
    assert [m][0] == m && [m][1..] == [];
    var none: seq<NoteMessage> := [];
    assert none + none == none;
  }

  /** Pausing with Stop, letting any number of clock pulses pass, and resuming with
      Continue loses and gains nothing: the clock runs again from exactly where it
      stopped, and nothing was sent in between. */
  lemma Pause(outs: seq<seq<NoteMessage>>, q: real, paused: nat)
    requires |outs| == Width
    ensures Run(outs, Transport(q, true), [Stop] + Clocks(paused) + [Continue])
      == (Transport(q, true), [])
  {
    var t := Transport(q, true);
    var stopped := Transport(q, false);
    var none: seq<NoteMessage> := [];
    assert Run(outs, t, [Stop] + Clocks(paused)) == (stopped, none) by {
      TransportMessage(outs, t, Stop);
      StoppedPulses(outs, q, paused);
      RunConcat(outs, t, [Stop], Clocks(paused));
      assert none + none == none;
    }
    TransportMessage(outs, stopped, Continue);
    RunConcat(outs, t, [Stop] + Clocks(paused), [Continue]);
    assert none + none == none;
  }

  /** Stop followed by Start throws the position away: m pulses later it is m / 24. */
  lemma StopThenStart(outs: seq<seq<NoteMessage>>, t: Transport, n: nat, m: nat)
    requires |outs| == Width
    ensures Run(outs, t, Clocks(n) + [Stop] + [Start] + Clocks(m)).0
      == Transport(PositionOf(m), true)
  {
    RunConcat(outs, t, Clocks(n) + [Stop], [Start] + Clocks(m));
    assert Clocks(n) + [Stop] + [Start] + Clocks(m) == (Clocks(n) + [Stop]) + ([Start] + Clocks(m));
    StartThenPulses(outs, Run(outs, t, Clocks(n) + [Stop]).0, m);
  }

  /** With the default grid and note map, one 8-beat measure from Start sends 8 pairs
      of note-ons, each the bass drum (36) then the ride cymbal (51), velocity 112,
      channel 9. */
  lemma DefaultMeasureFromStart(t: Transport)
    ensures WellFormed(DefaultBeatMatrix, DefaultNoteMap)
    ensures Run(Boundaries(DefaultBeatMatrix, DefaultNoteMap), t, [Start] + Clocks(QuarterPulses(Width))).1
      == DefaultBeats(Width)
  {
    DefaultBoundary(0);
    var outs := Boundaries(DefaultBeatMatrix, DefaultNoteMap);
    StartThenPulses(outs, t, QuarterPulses(Width));
    QuartersFromStart(outs, Width);
    DefaultQuarters(Width);
  }

  /** `k` repetitions of the default boundary's two note-ons. */
  function DefaultBeats(k: nat): seq<NoteMessage>
  {
    if k == 0 then []
    else DefaultBeats(k - 1) + [NoteMessage(NoteOn, 36, 112, 9), NoteMessage(NoteOn, 51, 112, 9)]
  }

  lemma {:induction false} DefaultQuarters(k: nat)
    ensures WellFormed(DefaultBeatMatrix, DefaultNoteMap)
    ensures Quarters(Boundaries(DefaultBeatMatrix, DefaultNoteMap), k) == DefaultBeats(k)
  {
    DefaultBoundary(0);
    if k > 0 {
      DefaultQuarters(k - 1);
      DefaultBoundary(StepOf(k));
    }
  }
}

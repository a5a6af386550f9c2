/** The step sequencer: it follows an external MIDI clock, keeps the exact musical
    position in quarter notes, and on every quarter-note boundary plays the column of
    a fixed 6×8 beat grid that the position selects, as note-on messages on the
    General MIDI percussion channel. */
module Sequencing {
  import opened Messages

  /** Steps (columns) of the beat grid. */
  const Width: nat := 8
  /** Instrument lanes (rows) of the beat grid. */
  const Height: nat := 6
  /** MIDI timing clocks per quarter note. */
  const PulsesPerQuarter: nat := 24
  /** How far one clock pulse advances the position, in quarter notes. */
  const PulseLength: real := 1.0 / 24.0
  const TriggerVelocity: int := 112
  /** Channel index 9, i.e. MIDI channel 10, the General MIDI percussion channel. */
  const PercussionChannel: int := 9
  /** The velocity sent when none (or zero) is given. */
  const LoudestVelocity: int := 127

  /** Electric bass drum, acoustic snare, hand clap, closed hat, open hat, ride cymbal 1. */
  const DefaultNoteMap: seq<int> := [36, 40, 39, 42, 46, 51]

  const LaneOn: seq<bool> := [true, true, true, true, true, true, true, true]
  const LaneOff: seq<bool> := [false, false, false, false, false, false, false, false]
  /** The grid every sequencer plays: lanes 0 and 5 on every step, the others silent. */
  const DefaultBeatMatrix: seq<seq<bool>> := [LaneOn, LaneOff, LaneOff, LaneOff, LaneOff, LaneOn]

  datatype NoteKind = NoteOn | NoteOff

  /** An outbound channel-voice message. */
  datatype NoteMessage = NoteMessage(kind: NoteKind, note: int, velocity: int, channel: int)

  /** The outbound MIDI port: everything sent to it, in order. */
  class Port {
    var sent: seq<NoteMessage>

    constructor ()
      ensures sent == []
    {
      sent := [];
    }

    method Send(message: NoteMessage)
      modifies this
      ensures sent == old(sent) + [message]
    {
      sent := sent + [message];
    }
  }

  /** The velocity a (note, velocity) pair is sent with: the given one, or the loudest
      when it is missing or zero. */
  function SentVelocity(velocity: Option<int>): (r: int)
    ensures velocity.Some? && velocity.value != 0 ==> r == velocity.value
    ensures velocity == None || velocity == Some(0) ==> r == LoudestVelocity
    ensures r != 0
  {
    match velocity
    case Some(v) => if v != 0 then v else LoudestVelocity
    case None => LoudestVelocity
  }

  /** The messages that sending each (note, velocity) pair of `notes` produces, in order. */
  function NoteMessages(kind: NoteKind, notes: seq<(int, Option<int>)>, channel: int): seq<NoteMessage>
  {
    if notes == [] then []
    else
      var last := notes[|notes| - 1];
      NoteMessages(kind, notes[..|notes| - 1], channel) + [NoteMessage(kind, last.0, SentVelocity(last.1), channel)]
  }

  /** One message per pair, in list order, each with the pair's note, the pair's
      velocity (or 127 in place of a missing or zero one), and the given kind and channel. */
  lemma {:induction false} NoteMessagesSpec(kind: NoteKind, notes: seq<(int, Option<int>)>, channel: int)
    ensures var r := NoteMessages(kind, notes, channel);
      && |r| == |notes|
      && forall i :: 0 <= i < |notes| ==>
           r[i] == NoteMessage(kind, notes[i].0, SentVelocity(notes[i].1), channel)
  {
    if notes != [] {
      NoteMessagesSpec(kind, notes[..|notes| - 1], channel);
    }
  }

  /** Sends one message per (note, velocity) pair, in list order. */
  method DoNotes(out: Port, kind: NoteKind, notes: seq<(int, Option<int>)>, channel: int := 0)
    modifies out
    ensures out.sent == old(out.sent) + NoteMessages(kind, notes, channel)
  {
    for i := 0 to |notes|
      invariant out.sent == old(out.sent) + NoteMessages(kind, notes[..i], channel)
    {
      var (note, velocity) := notes[i];
      out.Send(NoteMessage(kind, note, SentVelocity(velocity), channel));
      assert notes[..i + 1][..i] == notes[..i];
    }
    assert notes[..|notes|] == notes;
  }

  /** A grid of Height lanes of Width steps and a note for each lane. */
  predicate WellFormed(grid: seq<seq<bool>>, noteMap: seq<int>)
  {
    && |grid| == Height
    && (forall lane :: 0 <= lane < Height ==> |grid[lane]| == Width)
    && |noteMap| == Height
  }

  /** The lanes below `k` whose cell at `step` is set, in increasing order. */
  function SetLanes(grid: seq<seq<bool>>, step: nat, k: nat): seq<nat>
    requires k <= |grid|
    requires forall lane :: 0 <= lane < k ==> step < |grid[lane]|
  {
    if k == 0 then []
    else SetLanes(grid, step, k - 1) + (if grid[k - 1][step] then [k - 1] else [])
  }

  /** SetLanes holds every set lane below `k`, and only those, each once, in
      increasing order. */
  lemma {:induction false} SetLanesSpec(grid: seq<seq<bool>>, step: nat, k: nat)
    requires k <= |grid|
    requires forall lane :: 0 <= lane < k ==> step < |grid[lane]|
    ensures var lanes := SetLanes(grid, step, k);
      && (forall lane: nat :: lane in lanes <==> lane < k && grid[lane][step])
      && (forall i :: 0 <= i < |lanes| ==> lanes[i] < k)
      && (forall i, j :: 0 <= i < j < |lanes| ==> lanes[i] < lanes[j])
  {
    if k > 0 {
      SetLanesSpec(grid, step, k - 1);
    }
  }

  /** The (note, velocity) pairs a boundary on `step` plays: one per set lane, lanes
      in increasing order, each lane's note at the trigger velocity. */
  function Triggered(grid: seq<seq<bool>>, noteMap: seq<int>, step: nat): seq<(int, Option<int>)>
    requires WellFormed(grid, noteMap) && step < Width
  {
    var lanes := SetLanes(grid, step, Height);
    SetLanesSpec(grid, step, Height);
    seq(|lanes|, i requires 0 <= i < |lanes| => (noteMap[lanes[i]], Some(TriggerVelocity)))
  }

  /** Everything a quarter-note boundary on `step` sends. */
  function BoundaryMessages(grid: seq<seq<bool>>, noteMap: seq<int>, step: nat): seq<NoteMessage>
    requires WellFormed(grid, noteMap) && step < Width
  {
    NoteMessages(NoteOn, Triggered(grid, noteMap, step), PercussionChannel)
  }

  /** A boundary sends note-ons only: one per set lane, in lane order, with the lane's
      note, velocity 112 and channel 9. */
  lemma BoundaryNotes(grid: seq<seq<bool>>, noteMap: seq<int>, step: nat)
    requires WellFormed(grid, noteMap) && step < Width
    ensures var lanes := SetLanes(grid, step, Height);
      && (forall i :: 0 <= i < |lanes| ==> lanes[i] < Height)
      && |BoundaryMessages(grid, noteMap, step)| == |lanes|
      && forall i :: 0 <= i < |lanes| ==>
           BoundaryMessages(grid, noteMap, step)[i]
             == NoteMessage(NoteOn, noteMap[lanes[i]], TriggerVelocity, PercussionChannel)
  {
    SetLanesSpec(grid, step, Height);
    NoteMessagesSpec(NoteOn, Triggered(grid, noteMap, step), PercussionChannel);
  }

  /** With the default grid, every step has exactly lanes 0 and 5 set. */
  lemma DefaultLanes(step: nat)
    requires step < Width
    ensures SetLanes(DefaultBeatMatrix, step, Height) == [0, 5]
  {
    var grid := DefaultBeatMatrix;
    assert LaneOn[step] && !LaneOff[step];
    assert SetLanes(grid, step, 0) == [];
    assert SetLanes(grid, step, 1) == [0];
    assert SetLanes(grid, step, 2) == [0];
    assert SetLanes(grid, step, 3) == [0];
    assert SetLanes(grid, step, 4) == [0];
    assert SetLanes(grid, step, 5) == [0];
  }

  /** With the default grid and note map, every boundary plays the bass drum (36) and
      the ride cymbal (51), and nothing else. */
  lemma DefaultBoundary(step: nat)
    requires step < Width
    ensures WellFormed(DefaultBeatMatrix, DefaultNoteMap)
    ensures BoundaryMessages(DefaultBeatMatrix, DefaultNoteMap, step)
      == [NoteMessage(NoteOn, 36, 112, 9), NoteMessage(NoteOn, 51, 112, 9)]
  {
    DefaultLanes(step);
    BoundaryNotes(DefaultBeatMatrix, DefaultNoteMap, step);
  }

  /** True when `x` is a whole number: a Fraction whose denominator is 1. */
  predicate IsWhole(x: real)
  {
    x.Floor as real == x
  }

  /** Python's `%` on fractions: the remainder of floor division, which takes the sign
      of the divisor. */
  function FloorMod(a: real, b: real): real
    requires b != 0.0
  {
    a - b * (a / b).Floor as real
  }

  function Ceil(x: real): int
  {
    -((-x).Floor)
  }

  /** The transport state of a sequencer: its position in quarter notes since the last
      Start, and whether the master clock is running. */
  datatype Transport = Transport(quarterNotes: real, running: bool)

  /** What a boundary on each step sends, step by step: a sequencer's grid and note map
      never change, so these eight message lists are all it can ever send. */
  function Boundaries(grid: seq<seq<bool>>, noteMap: seq<int>): (outs: seq<seq<NoteMessage>>)
    requires WellFormed(grid, noteMap)
    ensures |outs| == Width
    ensures forall step :: 0 <= step < Width ==> outs[step] == BoundaryMessages(grid, noteMap, step)
  {
    seq(Width, step requires 0 <= step < Width => BoundaryMessages(grid, noteMap, step))
  }

  /** What one inbound message does to the transport, and what it sends; `outs` holds
      what a boundary on each step sends. */
  function Handle(outs: seq<seq<NoteMessage>>, t: Transport, m: Message): (Transport, seq<NoteMessage>)
    requires |outs| == Width
  {
    match m
    case Clock =>
      if !t.running then (t, [])
      else
        var q := t.quarterNotes + PulseLength;
        (Transport(q, true), if IsWhole(q) then outs[StepOf(q.Floor)] else [])
    case Start => (Transport(0.0, true), [])
    case Continue => (Transport(t.quarterNotes, true), [])
    case Stop => (Transport(t.quarterNotes, false), [])
    case Other(_) => (t, [])
  }

  /** The grid column the end of quarter note `quarter` plays: the count wraps around
      the grid's 8 steps. */
  function StepOf(quarter: int): (step: nat)
    ensures step < Width
  {
    quarter % 8
  }

  /** The number of whole quarter notes `pulses` clock pulses make. */
  function QuarterOf(pulses: nat): nat
  {
    pulses / 24
  }

  /** True when `pulses` clock pulses make a whole number of quarter notes. */
  predicate OnBoundary(pulses: nat)
  {
    pulses % 24 == 0
  }

  /** The number of clock pulses in `quarters` quarter notes. */
  function QuarterPulses(quarters: nat): nat
  {
    24 * quarters
  }

  /** The position, in quarter notes, reached after `pulses` running clock pulses. */
  function PositionOf(pulses: nat): real
  {
    pulses as real / 24.0
  }

  /** The position after `pulses` running clock pulses since Start, as an exact fraction:
      it is a whole number exactly on every 24th pulse, and that number is pulses / 24. */
  lemma PositionOfPulses(pulses: nat)
    ensures PositionOf(pulses).Floor == QuarterOf(pulses)
    ensures IsWhole(PositionOf(pulses)) <==> OnBoundary(pulses)
  {
    var k, r := pulses / 24, pulses % 24;
    assert pulses == 24 * k + r;
    assert pulses as real / 24.0 == k as real + r as real / 24.0;
    assert 0.0 <= r as real / 24.0 < 1.0;
  }

  /** One running clock pulse after `p` pulses since Start: the position becomes exactly
      (p + 1) / 24, and notes go out exactly when p + 1 is a multiple of 24, playing
      step ((p + 1) / 24) mod 8. */
  lemma PulseAfter(outs: seq<seq<NoteMessage>>, p: nat)
    requires |outs| == Width
    ensures Handle(outs, Transport(PositionOf(p), true), Clock)
      == (Transport(PositionOf(p + 1), true),
          if OnBoundary(p + 1) then outs[StepOf(QuarterOf(p + 1))] else [])
  {
    var q := PositionOf(p) + PulseLength;
    assert q == PositionOf(p + 1);
    PositionOfPulses(p + 1);
  }

  class Sequencer {
    const midiOut: Port
    const noteMap: seq<int>
    const beatMatrix: seq<seq<bool>>
    /** The exact position in quarter notes since the last Start. */
    var quarterNotes: real
    var clockRunning: bool
    /** Running clock pulses since the last Start. */
    ghost var pulses: nat

    ghost predicate Valid()
      reads this
    {
      && WellFormed(beatMatrix, noteMap)
      && quarterNotes == PositionOf(pulses)
    }

    /** A new sequencer stands at position 0 and counts pulses at once, before any Start. */
    constructor (midiOut: Port, noteMap: seq<int> := DefaultNoteMap)
      requires |noteMap| == Height
      ensures Valid()
      ensures this.midiOut == midiOut && this.noteMap == noteMap && beatMatrix == DefaultBeatMatrix
      ensures quarterNotes == 0.0 && clockRunning && pulses == 0
    {
      this.midiOut := midiOut;
      this.noteMap := noteMap;
      beatMatrix := DefaultBeatMatrix;
      quarterNotes := 0.0;
      clockRunning := true;
      pulses := 0;
    }

    /** Handles one inbound message. Notes go out only on a running clock pulse that
        completes a quarter note, which is exactly every 24th running pulse since Start. */
    method HandleClock(message: Message)
      requires Valid()
      modifies this, midiOut
      ensures Valid()
      ensures |midiOut.sent| >= |old(midiOut.sent)| && midiOut.sent[..|old(midiOut.sent)|] == old(midiOut.sent)
      ensures Handle(Boundaries(beatMatrix, noteMap), Transport(old(quarterNotes), old(clockRunning)), message)
        == (Transport(quarterNotes, clockRunning), midiOut.sent[|old(midiOut.sent)|..])
      ensures pulses == if message.Start? then 0
                        else if message.Clock? && old(clockRunning) then old(pulses) + 1
                        else old(pulses)
      ensures midiOut.sent != old(midiOut.sent) ==>
        message.Clock? && old(clockRunning) && OnBoundary(pulses)
    {
      match message {
        case Clock =>
          if clockRunning {
            quarterNotes := quarterNotes + PulseLength;
            pulses := pulses + 1;
            PositionOfPulses(pulses);
            if IsWhole(quarterNotes) {
              var step := StepOf(quarterNotes.Floor);
              DoNotes(midiOut, NoteOn, Triggered(beatMatrix, noteMap, step), PercussionChannel);
            }
          }
        case Start =>
          clockRunning := true;
          quarterNotes := 0.0;
          pulses := 0;
        case Continue =>
          clockRunning := true;
        case Stop =>
          clockRunning := false;
        case Other(_) =>
      }
      assert midiOut.sent == old(midiOut.sent) ==> midiOut.sent[|old(midiOut.sent)|..] == [];
    }

    /** The 1-based measure for a time signature given as a fraction of a whole note
        (4/4 is 1.0): the measure whose span of 4·timeSig quarter notes holds the position. */
    function Measure(timeSig: real := 1.0): (r: Outcome<int>)
      reads this
      ensures r.ZeroDivisionError? <==> timeSig == 0.0
      ensures timeSig > 0.0 ==>
        && r.Ok? && (quarterNotes >= 0.0 ==> r.value >= 1)
        && (r.value - 1) as real * (4.0 * timeSig) <= quarterNotes < r.value as real * (4.0 * timeSig)
    {
      var perMeasure := timeSig * 4.0;
      if perMeasure == 0.0 then ZeroDivisionError
      else
        FloorDivBounds(quarterNotes, perMeasure);
        Ok((quarterNotes / perMeasure).Floor + 1)
    }

    /** The 1-based beat within the measure: one more than the whole quarter notes
        elapsed since the measure began. */
    function Beat(timeSig: real := 1.0): (r: Outcome<int>)
      reads this
      ensures r.ZeroDivisionError? <==> timeSig == 0.0
      ensures timeSig > 0.0 ==> r.Ok? && 1 <= r.value <= Ceil(4.0 * timeSig)
    {
      var perMeasure := timeSig * 4.0;
      if perMeasure == 0.0 then ZeroDivisionError
      else
        FloorDivBounds(quarterNotes, perMeasure);
        Ok(FloorMod(quarterNotes, perMeasure).Floor + 1)
    }

    /** Measure and beat together locate the position: it lies in the given beat of the
        given measure, counting whole measures of 4·timeSig quarter notes and then whole
        quarter notes. */
    lemma MeasureAndBeat(timeSig: real)
      requires timeSig > 0.0
      ensures Measure(timeSig).Ok? && Beat(timeSig).Ok?
      ensures var start := (Measure(timeSig).value - 1) as real * (4.0 * timeSig);
        start + (Beat(timeSig).value - 1) as real <= quarterNotes < start + Beat(timeSig).value as real
    {
      var perMeasure := timeSig * 4.0;
      var m := (quarterNotes / perMeasure).Floor;
      var rest := FloorMod(quarterNotes, perMeasure);
      assert Measure(timeSig) == Ok(m + 1);
      assert Beat(timeSig) == Ok(rest.Floor + 1);
      assert quarterNotes == m as real * perMeasure + rest;
    }

    /** In 4/4, seven quarter notes after Start the sequencer is on beat 4 of measure 2. */
    lemma SevenQuarterNotes()
      requires quarterNotes == 7.0
      ensures Measure() == Ok(2) && Beat() == Ok(4)
    {
      assert 7.0 / 4.0 == 1.75;
      assert (1.75).Floor == 1;
      assert FloorMod(7.0, 4.0) == 3.0;
    }
  }

  /** Floor division of reals by a positive divisor brackets the dividend. */
  lemma FloorDivBounds(a: real, b: real)
    requires b != 0.0
    ensures b > 0.0 ==> var k := (a / b).Floor as real; k * b <= a < (k + 1.0) * b
    ensures b > 0.0 ==> 0.0 <= FloorMod(a, b) < b
  {
    if b > 0.0 {
      var x := a / b;
      var k := x.Floor as real;
      assert x * b == a;
      assert k <= x < k + 1.0;
      MultiplyMonotone(k, x, b);
      MultiplyMonotone(x, k + 1.0, b);
      assert k * b <= a;
      var next := k + 1.0;
      assert a == x * b < next * b;
    }
  }

  lemma MultiplyMonotone(x: real, y: real, b: real)
    requires b > 0.0 && x <= y
    ensures x * b <= y * b
    ensures x < y ==> x * b < y * b
  {
  }
}

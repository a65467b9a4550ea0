/**
 MIDI clock pulses for the playout of one frame (`scheduleMidiFrame` in
 Client/Source/JammerNetzAudioEngine.cpp), in exact arithmetic: 24 pulses per quarter note, as
 the Timing Clock message of the MIDI 1.0 Detailed Specification, System Real Time Messages,
 demands. The source's guards against rounding are zero here.
 */
module MidiClock {
  import opened Packets

  const PULSES_PER_QUARTER_NOTE := 24.0
  const MAXIMUM_PULSES_PER_FRAME: nat := 8
  const MAXIMUM_BPM := 1000.0

  /** A message for the MIDI sender, `at` samples after the beginning of the audio chunk. */
  datatype MidiEvent = MidiEvent(at: real, bpm: real, signal: MidiSignal, clock: bool)

  function Ceiling(x: real): int {
    -(0.0 - x).Floor
  }

  lemma CeilingIsLeast(x: real, p: int)
    ensures p as real >= x <==> p >= Ceiling(x)
  {}

  function SamplesPerPulse(bpm: real): (s: real)
    requires 0.0 < bpm
    ensures s > 0.0
  {
    QuotientIsPositive(SAMPLE_RATE as real * 60.0, bpm * PULSES_PER_QUARTER_NOTE);
    SAMPLE_RATE as real * 60.0 / (bpm * PULSES_PER_QUARTER_NOTE)
  }

  lemma QuotientIsPositive(x: real, y: real)
    requires x > 0.0 && y > 0.0
    ensures x / y > 0.0
  {}

  /** Frames without a usable tempo or server time carry no clock. */
  predicate Clocked(serverSampleEnd: Counter, bpm: real) {
    0.0 < bpm <= MAXIMUM_BPM && serverSampleEnd >= SAMPLE_BUFFER_SIZE
  }

  /** The first pulse at or after a sample. */
  function FirstPulse(sample: nat, bpm: real): int
    requires 0.0 < bpm
  {
    Ceiling(sample as real / SamplesPerPulse(bpm))
  }

  function Range(low: int, high: int): (r: seq<int>)
    ensures |r| == if low <= high then high - low else 0
    ensures forall i :: 0 <= i < |r| ==> r[i] == low + i
  {
    if low <= high then seq(high - low, i => low + i) else []
  }

  /** The pulses that belong to the frame which ends at this server sample. */
  function FramePulses(serverSampleEnd: Counter, bpm: real): seq<int>
    requires Clocked(serverSampleEnd, bpm)
  {
    Range(FirstPulse(serverSampleEnd - SAMPLE_BUFFER_SIZE, bpm), FirstPulse(serverSampleEnd, bpm))
  }

  /** The server sample of a pulse. */
  function PulseSample(pulse: int, bpm: real): real
    requires 0.0 < bpm
  {
    pulse as real * SamplesPerPulse(bpm)
  }

  /** Where in the chunk a pulse is, when its frame begins at `frameOffset`. */
  function PulseAt(serverSampleEnd: Counter, bpm: real, frameOffset: nat, pulse: int): real
    requires Clocked(serverSampleEnd, bpm)
  {
    frameOffset as real + PulseSample(pulse, bpm) - (serverSampleEnd - SAMPLE_BUFFER_SIZE) as real
  }

  function ClockEvents(serverSampleEnd: Counter, bpm: real, frameOffset: nat, pulses: seq<int>): (r: seq<MidiEvent>)
    requires Clocked(serverSampleEnd, bpm)
    ensures |r| == |pulses|
  {
    seq(|pulses|, i requires 0 <= i < |pulses| =>
      MidiEvent(PulseAt(serverSampleEnd, bpm, frameOffset, pulses[i]), bpm, NoSignal, true))
  }

  function TransportEvents(signal: MidiSignal, bpm: real, frameOffset: nat): seq<MidiEvent> {
    if signal == NoSignal then [] else [MidiEvent(frameOffset as real, bpm, signal, false)]
  }

  /** Everything a frame schedules. */
  function FrameEvents(serverSampleEnd: Counter, bpm: real, signal: MidiSignal, frameOffset: nat): seq<MidiEvent> {
    TransportEvents(signal, bpm, frameOffset)
    + if Clocked(serverSampleEnd, bpm)
      then ClockEvents(serverSampleEnd, bpm, frameOffset, FramePulses(serverSampleEnd, bpm))
      else []
  }

  // ----- which pulses a frame has -----

  lemma QuotientTimes(x: real, y: real)
    requires y > 0.0
    ensures x / y * y == x
  {}

  /** There are 24 pulses to a quarter note, and `bpm` quarter notes to a minute of 48000 samples a second. */
  lemma {:induction false} PulsesPerQuarterNote(bpm: real)
    requires 0.0 < bpm
    ensures SamplesPerPulse(bpm) * (bpm * 24.0) == 48000.0 * 60.0
  {
    QuotientTimes(SAMPLE_RATE as real * 60.0, bpm * PULSES_PER_QUARTER_NOTE);
  }

  /** A pulse of the frame that begins at `frameOffset`. */
  predicate IsPulse(e: MidiEvent, serverSampleEnd: Counter, bpm: real, frameOffset: nat, pulse: int)
    requires 0.0 < bpm
  {
    var start := serverSampleEnd as real - 128.0;
    && start <= pulse as real * SamplesPerPulse(bpm) < serverSampleEnd as real
    && e == MidiEvent(frameOffset as real + (pulse as real * SamplesPerPulse(bpm) - start), bpm, NoSignal, true)
  }

  lemma ClockEventIsPulse(serverSampleEnd: Counter, bpm: real, frameOffset: nat, pulse: int, e: MidiEvent)
    requires Clocked(serverSampleEnd, bpm)
    ensures IsPulse(e, serverSampleEnd, bpm, frameOffset, pulse)
        <==> pulse in FramePulses(serverSampleEnd, bpm)
             && e == MidiEvent(PulseAt(serverSampleEnd, bpm, frameOffset, pulse), bpm, NoSignal, true)
  {
    PulsesOfFrame(serverSampleEnd, bpm, pulse);
    hide SamplesPerPulse, FramePulses;
  }

  lemma InClockEvents(serverSampleEnd: Counter, bpm: real, frameOffset: nat, pulses: seq<int>, e: MidiEvent)
    requires Clocked(serverSampleEnd, bpm)
    ensures e in ClockEvents(serverSampleEnd, bpm, frameOffset, pulses)
        <==> exists p ::
               p in pulses && e == MidiEvent(PulseAt(serverSampleEnd, bpm, frameOffset, p), bpm, NoSignal, true)
  {
    hide PulseAt;
    var all := ClockEvents(serverSampleEnd, bpm, frameOffset, pulses);
    forall i | 0 <= i < |pulses|
      ensures all[i] == MidiEvent(PulseAt(serverSampleEnd, bpm, frameOffset, pulses[i]), bpm, NoSignal, true)
    {}
    if p :| p in pulses && e == MidiEvent(PulseAt(serverSampleEnd, bpm, frameOffset, p), bpm, NoSignal, true) {
      var i :| 0 <= i < |pulses| && pulses[i] == p;
      assert all[i] == e;
    }
    if e in all {
      var i :| 0 <= i < |all| && all[i] == e;
      assert pulses[i] in pulses;
    }
  }

  /**
   A frame schedules its command at its first sample, and, if its tempo is positive and at most 1000 and
   its server time is not before its first sample, each pulse that lies in it at the pulse's distance
   from the first sample; and nothing else.
   */
  lemma {:induction false} FrameEventsAreExact(serverSampleEnd: Counter, bpm: real, signal: MidiSignal,
                                               frameOffset: nat, e: MidiEvent)
    ensures e in FrameEvents(serverSampleEnd, bpm, signal, frameOffset)
        <==> || (signal != NoSignal && e == MidiEvent(frameOffset as real, bpm, signal, false))
             || (0.0 < bpm <= 1000.0 && serverSampleEnd >= 128
                 && exists pulse :: IsPulse(e, serverSampleEnd, bpm, frameOffset, pulse))
  {
    hide IsPulse, ClockEvents, FramePulses, PulseAt;
    if Clocked(serverSampleEnd, bpm) {
      InClockEvents(serverSampleEnd, bpm, frameOffset, FramePulses(serverSampleEnd, bpm), e);
      forall pulse
        ensures IsPulse(e, serverSampleEnd, bpm, frameOffset, pulse)
            <==> pulse in FramePulses(serverSampleEnd, bpm)
                 && e == MidiEvent(PulseAt(serverSampleEnd, bpm, frameOffset, pulse), bpm, NoSignal, true)
      {
        ClockEventIsPulse(serverSampleEnd, bpm, frameOffset, pulse, e);
      }
    }
  }

  lemma DivisionOrder(x: real, y: real, s: real)
    requires s > 0.0
    ensures x >= y / s <==> x * s >= y
  {
    var q := y / s;
    assert q * s == y;
    if x >= q {
      TimesKeepsOrder(q, x, s);
    } else {
      TimesKeepsStrictOrder(x, q, s);
    }
  }

  lemma TimesKeepsOrder(x: real, y: real, s: real)
    requires s > 0.0 && x <= y
    ensures x * s <= y * s
  {}

  lemma TimesKeepsStrictOrder(x: real, y: real, s: real)
    requires s > 0.0 && x < y
    ensures x * s < y * s
  {}

  lemma FirstPulseIsLeast(sample: nat, bpm: real, pulse: int)
    requires 0.0 < bpm
    ensures pulse >= FirstPulse(sample, bpm) <==> PulseSample(pulse, bpm) >= sample as real
  {
    hide SamplesPerPulse;
    var s := SamplesPerPulse(bpm);
    CeilingIsLeast(sample as real / s, pulse);
    DivisionOrder(pulse as real, sample as real, s);
  }

  /** A frame has exactly the pulses whose sample lies in it. */
  lemma PulsesOfFrame(serverSampleEnd: Counter, bpm: real, pulse: int)
    requires Clocked(serverSampleEnd, bpm)
    ensures pulse in FramePulses(serverSampleEnd, bpm)
            <==> (serverSampleEnd - SAMPLE_BUFFER_SIZE) as real <= PulseSample(pulse, bpm)
                 < serverSampleEnd as real
  {
    hide FirstPulse, SamplesPerPulse;
    FirstPulseIsLeast(serverSampleEnd - SAMPLE_BUFFER_SIZE, bpm, pulse);
    FirstPulseIsLeast(serverSampleEnd, bpm, pulse);
    InRange(FirstPulse(serverSampleEnd - SAMPLE_BUFFER_SIZE, bpm), FirstPulse(serverSampleEnd, bpm), pulse);
  }

  lemma InRange(low: int, high: int, p: int)
    ensures p in Range(low, high) <==> low <= p < high
  {
    if low <= p < high {
      assert Range(low, high)[p - low] == p;
    }
  }

  /** At the fastest tempo a pulse comes every 120 samples. */
  lemma PulsesAreFarApart(bpm: real)
    requires 0.0 < bpm <= MAXIMUM_BPM
    ensures SamplesPerPulse(bpm) >= 120.0
  {
    DivisionOrder(120.0, SAMPLE_RATE as real * 60.0, bpm * PULSES_PER_QUARTER_NOTE);
    assert 120.0 * (bpm * PULSES_PER_QUARTER_NOTE) <= SAMPLE_RATE as real * 60.0;
    var y := bpm * PULSES_PER_QUARTER_NOTE;
    DivisionUpper(120.0, SAMPLE_RATE as real * 60.0, y);
  }

  lemma DivisionUpper(x: real, y: real, s: real)
    requires s > 0.0 && x * s <= y
    ensures x <= y / s
  {
    var q := y / s;
    assert q * s == y;
    if q < x {
      TimesKeepsStrictOrder(q, x, s);
    }
  }

  /** So no frame has more than two pulses, and the bound of eight never cuts one off. */
  lemma FewPulses(serverSampleEnd: Counter, bpm: real)
    requires Clocked(serverSampleEnd, bpm)
    ensures |FramePulses(serverSampleEnd, bpm)| <= 2 < MAXIMUM_PULSES_PER_FRAME
  {
    PulsesAreFarApart(bpm);
    var first, s := FirstPulse(serverSampleEnd - SAMPLE_BUFFER_SIZE, bpm), SamplesPerPulse(bpm);
    FirstPulseIsLeast(serverSampleEnd - SAMPLE_BUFFER_SIZE, bpm, first);
    FirstPulseIsLeast(serverSampleEnd, bpm, first + 2);
    hide FirstPulse, SamplesPerPulse;
    assert (first + 2) as real * s == first as real * s + 2.0 * s;
  }

  // ----- contiguous frames -----

  /** The pulses of `n` frames whose server times follow each other. */
  function RunPulses(firstEnd: Counter, bpm: real, n: nat): seq<int>
    requires Clocked(firstEnd, bpm) && firstEnd + n * SAMPLE_BUFFER_SIZE < U64_LIMIT
  {
    if n == 0 then []
    else RunPulses(firstEnd, bpm, n - 1) + FramePulses(firstEnd + (n - 1) * SAMPLE_BUFFER_SIZE, bpm)
  }

  lemma FirstPulseMonotone(a: nat, b: nat, bpm: real)
    requires a <= b && 0.0 < bpm
    ensures FirstPulse(a, bpm) <= FirstPulse(b, bpm)
  {
    FirstPulseIsLeast(b, bpm, FirstPulse(b, bpm));
    FirstPulseIsLeast(a, bpm, FirstPulse(b, bpm));
  }

  /**
   At a constant tempo, contiguous frames have every pulse in their stretch of server time
   exactly once and in order.
   */
  lemma {:induction false} EveryPulseOnce(firstEnd: Counter, bpm: real, n: nat)
    requires Clocked(firstEnd, bpm) && firstEnd + n * SAMPLE_BUFFER_SIZE < U64_LIMIT
    ensures RunPulses(firstEnd, bpm, n)
         == Range(FirstPulse(firstEnd - SAMPLE_BUFFER_SIZE, bpm),
                  FirstPulse(firstEnd - SAMPLE_BUFFER_SIZE + n * SAMPLE_BUFFER_SIZE, bpm))
  {
    hide FirstPulse;
    if n > 0 {
      var start, before := firstEnd - SAMPLE_BUFFER_SIZE, firstEnd - SAMPLE_BUFFER_SIZE + (n - 1) * SAMPLE_BUFFER_SIZE;
      EveryPulseOnce(firstEnd, bpm, n - 1);
      FirstPulseMonotone(start, before, bpm);
      FirstPulseMonotone(before, before + SAMPLE_BUFFER_SIZE, bpm);
      RangesJoin(FirstPulse(start, bpm), FirstPulse(before, bpm), FirstPulse(before + SAMPLE_BUFFER_SIZE, bpm));
    }
  }

  lemma RangesJoin(a: int, b: int, c: int)
    requires a <= b <= c
    ensures Range(a, b) + Range(b, c) == Range(a, c)
  {}

  /**
   The pulses of frame `k` of such a run, played `k` frames after the first, all lie on one
   straight line: pulse by pulse the playout time advances by `SamplesPerPulse`.
   */
  lemma PulsesAreEven(firstEnd: Counter, bpm: real, k: nat, start: nat, pulse: int)
    requires Clocked(firstEnd, bpm) && firstEnd + k * SAMPLE_BUFFER_SIZE < U64_LIMIT
    ensures PulseAt(firstEnd + k * SAMPLE_BUFFER_SIZE, bpm, start + k * SAMPLE_BUFFER_SIZE, pulse)
         == PulseAt(firstEnd, bpm, start, 0) + pulse as real * SamplesPerPulse(bpm)
  {
    assert 0.0 * SamplesPerPulse(bpm) == 0.0;
  }

  // ----- the loop -----

  /** What the loop finds out about a candidate. */
  lemma Candidate(serverSampleEnd: Counter, bpm: real, frameOffset: nat, pulses: seq<int>, i: nat)
    requires Clocked(serverSampleEnd, bpm) && pulses == FramePulses(serverSampleEnd, bpm) && i <= |pulses|
    ensures var pulse := FirstPulse(serverSampleEnd - SAMPLE_BUFFER_SIZE, bpm) + i;
      && (i < |pulses| <==> PulseSample(pulse, bpm) < serverSampleEnd as real)
      && (i < |pulses| ==> pulses[i] == pulse && PulseAt(serverSampleEnd, bpm, frameOffset, pulse) >= 0.0)
  {
    hide FirstPulse, SamplesPerPulse;
    var first := FirstPulse(serverSampleEnd - SAMPLE_BUFFER_SIZE, bpm);
    FirstPulseMonotone(serverSampleEnd - SAMPLE_BUFFER_SIZE, serverSampleEnd, bpm);
    FirstPulseIsLeast(serverSampleEnd, bpm, first + i);
    FirstPulseIsLeast(serverSampleEnd - SAMPLE_BUFFER_SIZE, bpm, first + i);
  }

  lemma ClockEventsGrow(serverSampleEnd: Counter, bpm: real, frameOffset: nat, pulses: seq<int>, i: nat)
    requires Clocked(serverSampleEnd, bpm) && i < |pulses|
    ensures ClockEvents(serverSampleEnd, bpm, frameOffset, pulses[..i + 1])
         == ClockEvents(serverSampleEnd, bpm, frameOffset, pulses[..i])
            + [MidiEvent(PulseAt(serverSampleEnd, bpm, frameOffset, pulses[i]), bpm, NoSignal, true)]
  {
    hide PulseAt;
  }

  method ScheduleMidiFrame(serverSampleEnd: Counter, bpm: real, signal: MidiSignal, frameOffsetSamples: nat)
    returns (events: seq<MidiEvent>)
    ensures events == FrameEvents(serverSampleEnd, bpm, signal, frameOffsetSamples)
  {
    events := [];
    if signal != NoSignal {
      events := [MidiEvent(frameOffsetSamples as real, bpm, signal, false)];
    }
    if bpm <= 0.0 || bpm > MAXIMUM_BPM || serverSampleEnd < SAMPLE_BUFFER_SIZE {
      return;
    }
    var clock := SchedulePulses(serverSampleEnd, bpm, frameOffsetSamples);
    events := events + clock;
  }

  method SchedulePulses(serverSampleEnd: Counter, bpm: real, frameOffsetSamples: nat) returns (events: seq<MidiEvent>)
    requires Clocked(serverSampleEnd, bpm)
    ensures events == ClockEvents(serverSampleEnd, bpm, frameOffsetSamples, FramePulses(serverSampleEnd, bpm))
  {
    hide FirstPulse, SamplesPerPulse, FramePulses, ClockEvents, PulseSample;
    ghost var pulses := FramePulses(serverSampleEnd, bpm);
    var frameStart, frameEnd := (serverSampleEnd - SAMPLE_BUFFER_SIZE) as real, serverSampleEnd as real;
    var firstPulse := FirstPulse(serverSampleEnd - SAMPLE_BUFFER_SIZE, bpm);
    FewPulses(serverSampleEnd, bpm);
    events := [];
    var pulse := firstPulse;
    NoClockEvents(serverSampleEnd, bpm, frameOffsetSamples);
    Candidate(serverSampleEnd, bpm, frameOffsetSamples, pulses, 0);
    while pulse < firstPulse + MAXIMUM_PULSES_PER_FRAME
      invariant firstPulse <= pulse <= firstPulse + |pulses|
      invariant events == ClockEvents(serverSampleEnd, bpm, frameOffsetSamples, pulses[..pulse - firstPulse])
    {
      Candidate(serverSampleEnd, bpm, frameOffsetSamples, pulses, pulse - firstPulse);
      var pulseSample := PulseSample(pulse, bpm);
      if pulseSample >= frameEnd {
        break;
      }
      ClockEventsGrow(serverSampleEnd, bpm, frameOffsetSamples, pulses, pulse - firstPulse);
      var offset := frameOffsetSamples as real + pulseSample - frameStart;
      events := events + [MidiEvent(if offset < 0.0 then 0.0 else offset, bpm, NoSignal, true)];
      pulse := pulse + 1;
    }
    assert pulses[..pulse - firstPulse] == pulses;
  }

  lemma NoClockEvents(serverSampleEnd: Counter, bpm: real, frameOffset: nat)
    requires Clocked(serverSampleEnd, bpm)
    ensures ClockEvents(serverSampleEnd, bpm, frameOffset, []) == []
  {}
}

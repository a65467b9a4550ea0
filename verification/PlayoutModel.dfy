/**
 Playout of the prepared frames on values (Client/Source/JammerNetzAudioEngine.cpp:
 `resetPlayoutState`, `appendPlayoutTiming`, `scheduleMidiForPlayout` and the playout part of
 `processChunk`). Each frame written to the playout buffer leaves a marker of its first sample;
 the chunk that plays this sample schedules the frame's MIDI. The playout buffer is a bounded
 FIFO, of which only the number of samples matters here.
 */
module PlayoutModel {
  import opened Packets
  import opened ReceiveModel
  import opened MidiClock

  const PLAYOUT_RINGBUFFER_SIZE: nat := 16384 * 8
  const MAXIMUM_MARKERS: nat := PLAYOUT_RINGBUFFER_SIZE / SAMPLE_BUFFER_SIZE + 1
  const MAXIMUM_CHUNK: nat := 8192

  datatype Marker = Marker(playoutSample: nat, serverSampleEnd: Counter, bpm: real, signal: MidiSignal)

  datatype Timing = Timing(markers: seq<Marker>, written: nat, consumed: nat, dropped: nat)

  function MarkerOf(frame: Frame, playoutSample: nat): Marker {
    Marker(playoutSample, frame.serverSampleEnd, frame.bpm, frame.midi)
  }

  function Appended(t: Timing, frame: Frame): Timing {
    if |t.markers| == MAXIMUM_MARKERS then
      t.(dropped := t.dropped + 1, written := t.written + SAMPLE_BUFFER_SIZE)
    else
      t.(markers := t.markers + [MarkerOf(frame, t.written)], written := t.written + SAMPLE_BUFFER_SIZE)
  }

  function AppendedAll(t: Timing, frames: seq<Frame>): Timing {
    if frames == [] then t else Appended(AppendedAll(t, frames[..|frames| - 1]), frames[|frames| - 1])
  }

  /**
   Whatever the ring has room for: every frame moves the position on, frames that fit get their marker at
   their position, and the others are counted as dropped.
   */
  lemma {:induction false} FullRingDropsMarkers(t: Timing, frames: seq<Frame>)
    requires |t.markers| <= MAXIMUM_MARKERS
    ensures var r := AppendedAll(t, frames);
      var fitting := if |t.markers| + |frames| <= MAXIMUM_MARKERS then |frames| else MAXIMUM_MARKERS - |t.markers|;
      && r.written == t.written + SAMPLE_BUFFER_SIZE * |frames|
      && r.dropped == t.dropped + |frames| - fitting
      && r.consumed == t.consumed
      && |r.markers| == |t.markers| + fitting && r.markers[..|t.markers|] == t.markers
      && forall i :: 0 <= i < fitting ==>
           r.markers[|t.markers| + i] == Marker(t.written + SAMPLE_BUFFER_SIZE * i, frames[i].serverSampleEnd,
                                                frames[i].bpm, frames[i].midi)
  {
    if frames != [] {
      FullRingDropsMarkers(t, frames[..|frames| - 1]);
    }
  }

  /** How many markers at the front lie before sample `end`. */
  function Due(markers: seq<Marker>, end: nat): (n: nat)
    ensures n <= |markers|
    ensures forall i :: 0 <= i < n ==> markers[i].playoutSample < end
    ensures n < |markers| ==> markers[n].playoutSample >= end
  {
    if markers == [] || markers[0].playoutSample >= end then 0 else 1 + Due(markers[1..], end)
  }

  function OffsetOf(marker: Marker, consumed: nat): nat {
    if marker.playoutSample > consumed then marker.playoutSample - consumed else 0
  }

  function MarkerEvents(marker: Marker, consumed: nat): seq<MidiEvent> {
    FrameEvents(marker.serverSampleEnd, marker.bpm, marker.signal, OffsetOf(marker, consumed))
  }

  function AllEvents(markers: seq<Marker>, consumed: nat): seq<MidiEvent> {
    if markers == [] then []
    else AllEvents(markers[..|markers| - 1], consumed) + MarkerEvents(markers[|markers| - 1], consumed)
  }

  function Scheduled(t: Timing, samples: nat): Timing {
    t.(markers := t.markers[Due(t.markers, t.consumed + samples)..], consumed := t.consumed + samples)
  }

  /** What a chunk sends, if there is a MIDI sender. */
  function SentEvents(t: Timing, samples: nat, hasSender: bool): seq<MidiEvent> {
    if hasSender then AllEvents(t.markers[..Due(t.markers, t.consumed + samples)], t.consumed) else []
  }

  const NO_TIMING := Timing([], 0, 0, 0)

  function TimingReset(t: Timing): Timing {
    NO_TIMING.(dropped := t.dropped)
  }

  /** `ready`: samples in the playout buffer. */
  datatype Player = Player(timing: Timing, ready: nat, playing: bool)

  const NEW_PLAYER := Player(NO_TIMING, 0, false)

  function PlayerReset(p: Player): Player {
    Player(TimingReset(p.timing), 0, false)
  }

  /** Frames are taken until the chunk can be played; those of an old generation are thrown away. */
  function Fed(p: Player, frames: seq<Frame>, samples: nat, generation: nat): Player
    decreases |frames|
  {
    if p.ready >= samples || frames == [] then p
    else if frames[0].generation != generation then Fed(p, frames[1..], samples, generation)
    else Fed(p.(timing := Appended(p.timing, frames[0]), ready := p.ready + SAMPLE_BUFFER_SIZE),
             frames[1..], samples, generation)
  }

  /** The frames that `Fed` takes and plays. */
  function Kept(p: Player, frames: seq<Frame>, samples: nat, generation: nat): seq<Frame>
    decreases |frames|
  {
    if p.ready >= samples || frames == [] then []
    else if frames[0].generation != generation then Kept(p, frames[1..], samples, generation)
    else [frames[0]] + Kept(p.(timing := Appended(p.timing, frames[0]), ready := p.ready + SAMPLE_BUFFER_SIZE),
                            frames[1..], samples, generation)
  }

  /** How many frames it takes out of the queue. */
  function Taken(p: Player, frames: seq<Frame>, samples: nat, generation: nat): (n: nat)
    ensures n <= |frames|
    decreases |frames|
  {
    if p.ready >= samples || frames == [] then 0
    else if frames[0].generation != generation then 1 + Taken(p, frames[1..], samples, generation)
    else 1 + Taken(p.(timing := Appended(p.timing, frames[0]), ready := p.ready + SAMPLE_BUFFER_SIZE),
                   frames[1..], samples, generation)
  }

  /** Whether the chunk is played, once the player was fed: it also begins here, or breaks off. */
  predicate Plays(p: Player, samples: nat) {
    p.ready >= samples
  }

  predicate Underruns(p: Player, samples: nat) {
    p.playing && p.ready < samples
  }

  function ChunkPlayed(p: Player, samples: nat): Player {
    if Plays(p, samples) then Player(Scheduled(p.timing, samples), p.ready - samples, true)
    else if Underruns(p, samples) then PlayerReset(p)
    else p
  }

  // ----- runs -----

  datatype Action =
    | Chunk(frames: seq<Frame>, samples: nat, generation: nat, hasSender: bool)
    /** The reset that a new server asks for, at the beginning of a chunk. */
    | Reset

  /** A frame's marker was due in the chunk that began at `chunkStart`. */
  datatype Entry = Entry(marker: Marker, chunkStart: nat, chunkLength: nat, hasSender: bool)

  /**
   Since the last reset: `frames` were appended, `log` was scheduled, and `sent` are the
   messages that went to the MIDI sender, timed in samples since the reset.
   */
  datatype History = History(player: Player, frames: seq<Frame>, log: seq<Entry>, sent: seq<MidiEvent>)

  function Entries(markers: seq<Marker>, chunkStart: nat, chunkLength: nat, hasSender: bool): (es: seq<Entry>)
    ensures |es| == |markers|
  {
    seq(|markers|, i requires 0 <= i < |markers| => Entry(markers[i], chunkStart, chunkLength, hasSender))
  }

  /** Messages of a chunk, timed from the beginning of the run instead of that of the chunk. */
  function Shifted(events: seq<MidiEvent>, chunkStart: nat): (r: seq<MidiEvent>)
    ensures |r| == |events|
  {
    seq(|events|, i requires 0 <= i < |events| => events[i].(at := chunkStart as real + events[i].at))
  }

  function Step(h: History, a: Action): History {
    match a
    case Reset => History(PlayerReset(h.player), [], [], [])
    case Chunk(frames, samples, generation, hasSender) =>
      if samples == 0 || samples > MAXIMUM_CHUNK then h
      else
        var fed := Fed(h.player, frames, samples, generation);
        var due := fed.timing.markers[..Due(fed.timing.markers, fed.timing.consumed + samples)];
        if Underruns(fed, samples) then History(ChunkPlayed(fed, samples), [], [], [])
        else
          var kept := h.frames + Kept(h.player, frames, samples, generation);
          if !Plays(fed, samples) then h.(player := ChunkPlayed(fed, samples), frames := kept)
          else
            var start := fed.timing.consumed;
            History(ChunkPlayed(fed, samples), kept,
                    h.log + Entries(due, start, samples, hasSender),
                    h.sent + Shifted(SentEvents(fed.timing, samples, hasSender), start))
  }

  function Run(actions: seq<Action>): History {
    if actions == [] then History(NEW_PLAYER, [], [], [])
    else Step(Run(actions[..|actions| - 1]), actions[|actions| - 1])
  }

  /** Frames whose first sample was played. */
  function Begun(consumed: nat): nat {
    (consumed + SAMPLE_BUFFER_SIZE - 1) / SAMPLE_BUFFER_SIZE
  }

  /** The frames from `first` on, each with its first sample. */
  ghost predicate MarkersMatch(markers: seq<Marker>, frames: seq<Frame>, first: nat) {
    && |markers| == |frames| - first
    && forall i :: 0 <= i < |markers| ==> markers[i] == MarkerOf(frames[first + i], SAMPLE_BUFFER_SIZE * (first + i))
  }

  lemma MarkersMatchDrop(markers: seq<Marker>, frames: seq<Frame>, first: nat, n: nat)
    requires MarkersMatch(markers, frames, first) && n <= |markers|
    ensures MarkersMatch(markers[n..], frames, first + n)
  {
    forall i | 0 <= i < |markers| - n
      ensures markers[n..][i] == MarkerOf(frames[first + n + i], SAMPLE_BUFFER_SIZE * (first + n + i))
    {
      assert markers[n..][i] == markers[n + i];
    }
  }

  lemma MarkersMatchAppend(markers: seq<Marker>, frames: seq<Frame>, first: nat, frame: Frame)
    requires MarkersMatch(markers, frames, first)
    ensures MarkersMatch(markers + [MarkerOf(frame, SAMPLE_BUFFER_SIZE * |frames|)], frames + [frame], first)
  {}

  /** The markers wait for exactly the frames that have not begun. */
  ghost predicate Tracks(p: Player, frames: seq<Frame>) {
    var t := p.timing;
    && t.dropped == 0
    && t.written == SAMPLE_BUFFER_SIZE * |frames|
    && t.consumed + p.ready == t.written
    && p.ready < MAXIMUM_CHUNK + SAMPLE_BUFFER_SIZE
    && MarkersMatch(t.markers, frames, Begun(t.consumed))
  }

  /** The frame's MIDI is due in this chunk, at its sample. */
  ghost predicate Exact(e: Entry, frame: Frame, k: nat) {
    && e.marker == Marker(SAMPLE_BUFFER_SIZE * k, frame.serverSampleEnd, frame.bpm, frame.midi)
    && e.chunkStart <= SAMPLE_BUFFER_SIZE * k < e.chunkStart + e.chunkLength
  }

  /** The log has one entry for each frame that has begun: in its chunk, at its sample. */
  ghost predicate Logged(h: History) {
    && |h.log| == Begun(h.player.timing.consumed) <= |h.frames|
    && (forall k :: 0 <= k < |h.log| ==> Exact(h.log[k], h.frames[k], k))
  }

  lemma AppendTracks(p: Player, frames: seq<Frame>, frame: Frame)
    requires Tracks(p, frames) && p.ready < MAXIMUM_CHUNK
    ensures Tracks(p.(timing := Appended(p.timing, frame), ready := p.ready + SAMPLE_BUFFER_SIZE), frames + [frame])
  {
    var t := p.timing;
    BegunBounds(t.consumed, |frames|, p.ready);
    MarkersMatchAppend(t.markers, frames, Begun(t.consumed), frame);
    assert |t.markers| < MAXIMUM_MARKERS;
    hide MarkersMatch, Begun;
  }

  /** Fewer markers than the ring can hold. */
  lemma BegunBounds(consumed: nat, frames: nat, ready: nat)
    requires consumed + ready == SAMPLE_BUFFER_SIZE * frames
    ensures Begun(consumed) <= frames
    ensures frames - Begun(consumed) <= ready / SAMPLE_BUFFER_SIZE
  {}

  lemma {:induction false} FeedTracks(p: Player, frames: seq<Frame>, input: seq<Frame>, samples: nat, generation: nat)
    requires Tracks(p, frames) && samples <= MAXIMUM_CHUNK
    ensures Tracks(Fed(p, input, samples, generation), frames + Kept(p, input, samples, generation))
    ensures Fed(p, input, samples, generation).playing == p.playing
    ensures Fed(p, input, samples, generation).timing.consumed == p.timing.consumed
    decreases |input|
  {
    hide Tracks;
    if p.ready >= samples || input == [] {
      assert frames + [] == frames;
    } else if input[0].generation != generation {
      FeedTracks(p, frames, input[1..], samples, generation);
    } else {
      var q := p.(timing := Appended(p.timing, input[0]), ready := p.ready + SAMPLE_BUFFER_SIZE);
      AppendTracks(p, frames, input[0]);
      FeedTracks(q, frames + [input[0]], input[1..], samples, generation);
      assert frames + [input[0]] + Kept(q, input[1..], samples, generation)
          == frames + Kept(p, input, samples, generation);
    }
  }

  /** The chunk schedules exactly the frames that begin in it. */
  lemma DueIsBegun(p: Player, frames: seq<Frame>, samples: nat)
    requires Tracks(p, frames) && samples <= p.ready
    ensures Begun(p.timing.consumed) + Due(p.timing.markers, p.timing.consumed + samples)
         == Begun(p.timing.consumed + samples) <= |frames|
  {
    var t, n := p.timing, Due(p.timing.markers, p.timing.consumed + samples);
    var first, next := Begun(t.consumed), Begun(t.consumed + samples);
    BegunBounds(t.consumed + samples, |frames|, p.ready - samples);
    if n < |t.markers| {
      assert t.markers[n].playoutSample == SAMPLE_BUFFER_SIZE * (first + n);
    }
    if n > 0 {
      assert t.markers[n - 1].playoutSample == SAMPLE_BUFFER_SIZE * (first + (n - 1));
    }
  }

  lemma PlayTracks(p: Player, frames: seq<Frame>, samples: nat)
    requires Tracks(p, frames) && Plays(p, samples)
    requires samples <= MAXIMUM_CHUNK
    ensures Tracks(ChunkPlayed(p, samples), frames)
  {
    hide Due, Begun, MarkersMatch;
    DueIsBegun(p, frames, samples);
    var t := p.timing;
    MarkersMatchDrop(t.markers, frames, Begun(t.consumed), Due(t.markers, t.consumed + samples));
  }

  /** The entry of one frame that begins in the chunk. */
  lemma EntryIsExact(p: Player, frames: seq<Frame>, samples: nat, hasSender: bool, i: nat)
    requires Tracks(p, frames) && i < Due(p.timing.markers, p.timing.consumed + samples)
    ensures var t, k := p.timing, Begun(p.timing.consumed) + i;
      Exact(Entry(t.markers[i], t.consumed, samples, hasSender), frames[k], k)
  {
    var t, k := p.timing, Begun(p.timing.consumed) + i;
    assert t.markers[i].playoutSample == SAMPLE_BUFFER_SIZE * k;
    assert SAMPLE_BUFFER_SIZE * k >= SAMPLE_BUFFER_SIZE * Begun(t.consumed) >= t.consumed;
  }

  ghost predicate Inv(h: History) {
    Tracks(h.player, h.frames) && Logged(h)
  }

  lemma ResetKeepsInv(h: History)
    requires h.player.timing.dropped == 0
    ensures Inv(History(PlayerReset(h.player), [], [], []))
  {}

  /** Feeding leaves the log alone. */
  lemma FeedKeepsLog(h: History, p: Player, more: seq<Frame>)
    requires Logged(h) && p.timing.consumed == h.player.timing.consumed
    ensures Logged(h.(player := p, frames := h.frames + more))
  {}

  lemma ChunkIsExact(p: Player, frames: seq<Frame>, samples: nat, hasSender: bool, entries: seq<Entry>)
    requires Tracks(p, frames)
    requires var t := p.timing;
      entries == Entries(t.markers[..Due(t.markers, t.consumed + samples)], t.consumed, samples, hasSender)
    ensures var first := Begun(p.timing.consumed);
      && first + |entries| <= |frames|
      && forall i :: 0 <= i < |entries| ==> Exact(entries[i], frames[first + i], first + i)
  {
    var t := p.timing;
    assert |t.markers| == |frames| - Begun(t.consumed);
    hide Tracks, Due, Begun, Exact, Entries;
    var n := Due(t.markers, t.consumed + samples);
    forall i | 0 <= i < |entries| ensures Exact(entries[i], frames[Begun(t.consumed) + i], Begun(t.consumed) + i) {
      EntryIsExact(p, frames, samples, hasSender, i);
      EntriesAt(t.markers[..n], t.consumed, samples, hasSender, i);
    }
  }

  lemma PlayKeepsLog(h: History, samples: nat, hasSender: bool, sent: seq<MidiEvent>)
    requires Inv(h) && Plays(h.player, samples) && samples <= MAXIMUM_CHUNK
    ensures var t := h.player.timing;
      var due := t.markers[..Due(t.markers, t.consumed + samples)];
      Logged(History(ChunkPlayed(h.player, samples), h.frames,
                     h.log + Entries(due, t.consumed, samples, hasSender), sent))
  {
    hide Tracks, Due, Begun, Exact, Entries, ChunkPlayed;
    var t := h.player.timing;
    var entries := Entries(t.markers[..Due(t.markers, t.consumed + samples)], t.consumed, samples, hasSender);
    DueIsBegun(h.player, h.frames, samples);
    PlayConsumes(h.player, samples);
    ChunkIsExact(h.player, h.frames, samples, hasSender, entries);
    LogExtends(h.log, entries, h.frames);
  }

  lemma PlayConsumes(p: Player, samples: nat)
    requires Plays(p, samples)
    ensures ChunkPlayed(p, samples).timing.consumed == p.timing.consumed + samples
  {}

  lemma EntriesAt(markers: seq<Marker>, chunkStart: nat, chunkLength: nat, hasSender: bool, i: nat)
    requires i < |markers|
    ensures Entries(markers, chunkStart, chunkLength, hasSender)[i]
         == Entry(markers[i], chunkStart, chunkLength, hasSender)
  {}

  lemma LogExtends(log: seq<Entry>, entries: seq<Entry>, frames: seq<Frame>)
    requires |log| + |entries| <= |frames|
    requires forall k :: 0 <= k < |log| ==> Exact(log[k], frames[k], k)
    requires forall i :: 0 <= i < |entries| ==> Exact(entries[i], frames[|log| + i], |log| + i)
    ensures forall k :: 0 <= k < |log + entries| ==> Exact((log + entries)[k], frames[k], k)
  {
    hide Exact;
    forall k | 0 <= k < |log + entries| ensures Exact((log + entries)[k], frames[k], k) {
      if k >= |log| {
        assert Exact(entries[k - |log|], frames[|log| + (k - |log|)], |log| + (k - |log|));
      }
    }
  }

  lemma ChunkKeepsInv(h: History, a: Action)
    requires Inv(h) && a.Chunk?
    ensures Inv(Step(h, a))
  {
    hide Tracks, Logged, Due, Fed, Kept, SentEvents, Shifted;
    if 0 < a.samples <= MAXIMUM_CHUNK {
      var fed := Fed(h.player, a.frames, a.samples, a.generation);
      var g := h.(player := fed, frames := h.frames + Kept(h.player, a.frames, a.samples, a.generation));
      FeedTracks(h.player, h.frames, a.frames, a.samples, a.generation);
      FeedKeepsLog(h, fed, Kept(h.player, a.frames, a.samples, a.generation));
      if Plays(fed, a.samples) {
        PlayTracks(fed, g.frames, a.samples);
        PlayKeepsLog(g, a.samples, a.hasSender,
                     h.sent + Shifted(SentEvents(fed.timing, a.samples, a.hasSender), fed.timing.consumed));
      } else {
        NothingDropped(fed, g.frames);
        ResetKeepsInv(g);
      }
    }
  }

  lemma NothingDropped(p: Player, frames: seq<Frame>)
    requires Tracks(p, frames)
    ensures p.timing.dropped == 0
  {}

  lemma {:induction false} RunsKeepInv(actions: seq<Action>)
    ensures Inv(Run(actions))
  {
    if actions == [] {
      assert Begun(0) == 0;
    } else {
      hide Tracks, Logged, Due, Fed, Kept, ChunkPlayed;
      RunsKeepInv(actions[..|actions| - 1]);
      var h, a := Run(actions[..|actions| - 1]), actions[|actions| - 1];
      NothingDropped(h.player, h.frames);
      if a.Chunk? {
        ChunkKeepsInv(h, a);
      } else {
        ResetKeepsInv(h);
      }
    }
  }

  /**
   Over any run of chunks: no marker is dropped, and between resets the MIDI of each frame is
   scheduled exactly once, in the order of the frames, in the chunk that plays its first sample,
   at exactly this sample.
   */
  lemma {:induction false} MarkersAreExact(actions: seq<Action>)
    ensures var h := Run(actions);
      && h.player.timing.dropped == 0
      && |h.log| == Begun(h.player.timing.consumed)
      && |h.log| <= |h.frames|
      && forall k :: 0 <= k < |h.log| ==> Exact(h.log[k], h.frames[k], k)
  {
    RunsKeepInv(actions);
    hide Run, Exact, Begun;
  }

  /** A frame's first sample is among the samples played exactly when the frame is in the log. */
  lemma BegunIsPlayed(consumed: nat, k: nat)
    ensures k < Begun(consumed) <==> SAMPLE_BUFFER_SIZE * k < consumed
  {}

  // ----- what is fed and played -----

  /** The frames of the current generation. */
  function Current(frames: seq<Frame>, generation: nat): seq<Frame> {
    if frames == [] then []
    else (if frames[0].generation == generation then [frames[0]] else []) + Current(frames[1..], generation)
  }

  /**
   Frames are taken in order until there are enough samples for the chunk or no frames are left, and not
   one more; those of the current generation are played, and those of any other are not.
   */
  lemma {:induction false} FeedingTakesEnough(p: Player, frames: seq<Frame>, samples: nat, generation: nat)
    ensures var n, fed := Taken(p, frames, samples, generation), Fed(p, frames, samples, generation);
      && Kept(p, frames, samples, generation) == Current(frames[..n], generation)
      && fed.ready == p.ready + SAMPLE_BUFFER_SIZE * |Current(frames[..n], generation)|
      && (n < |frames| ==> fed.ready >= samples)
      && (n > 0 ==> p.ready + SAMPLE_BUFFER_SIZE * |Current(frames[..n - 1], generation)| < samples)
      && fed.playing == p.playing
    decreases |frames|
  {
    hide Appended, Current;
    NoneCurrent(generation);
    assert frames[..0] == [];
    if p.ready < samples && frames != [] {
      var q := if frames[0].generation != generation then p
               else p.(timing := Appended(p.timing, frames[0]), ready := p.ready + SAMPLE_BUFFER_SIZE);
      var m := Taken(q, frames[1..], samples, generation);
      FeedingTakesEnough(q, frames[1..], samples, generation);
      CurrentHead(frames, m + 1, generation);
      if m > 0 {
        CurrentHead(frames, m, generation);
      }
    }
  }

  lemma NoneCurrent(generation: nat)
    ensures Current([], generation) == []
  {}

  lemma CurrentHead(frames: seq<Frame>, n: nat, generation: nat)
    requires 0 < n <= |frames|
    ensures Current(frames[..n], generation)
         == (if frames[0].generation == generation then [frames[0]] else []) + Current(frames[1..][..n - 1], generation)
  {
    assert frames[..n][1..] == frames[1..][..n - 1];
  }

  lemma {:induction false} CurrentOfPrefix(frames: seq<Frame>, n: nat, generation: nat)
    requires n <= |frames|
    ensures |Current(frames[..n], generation)| <= |Current(frames, generation)|
  {
    if n > 0 {
      CurrentOfPrefix(frames[1..], n - 1, generation);
      CurrentHead(frames, n, generation);
    }
  }

  /**
   A chunk is played if and only if what is ready and all current frames together have enough samples.
   If they have not, a player that was playing starts over with nothing, and one that was not waits.
   */
  lemma {:induction false} ChunkIsPlayedWhenReady(h: History, a: Action)
    requires a.Chunk? && 0 < a.samples <= MAXIMUM_CHUNK
    ensures var p, q := h.player, Step(h, a).player;
      var ready := p.ready + SAMPLE_BUFFER_SIZE * |Current(a.frames, a.generation)|;
      if ready >= a.samples then
        q.playing && q.timing.consumed == p.timing.consumed + a.samples
      else if p.playing then
        Step(h, a) == History(Player(Timing([], 0, 0, q.timing.dropped), 0, false), [], [], [])
      else
        && !q.playing && q.timing.consumed == p.timing.consumed && q.ready == ready
        && Step(h, a) == h.(player := q, frames := h.frames + Current(a.frames, a.generation))
  {
    hide Appended, Current, Due, SentEvents, Entries, Shifted, Taken, Kept;
    FeedingTakesEnough(h.player, a.frames, a.samples, a.generation);
    FedKeepsPosition(h.player, a.frames, a.samples, a.generation);
    var n := Taken(h.player, a.frames, a.samples, a.generation);
    CurrentOfPrefix(a.frames, n, a.generation);
    hide Fed;
    assert n == |a.frames| ==> a.frames[..n] == a.frames;
  }

  lemma {:induction false} FedKeepsPosition(p: Player, frames: seq<Frame>, samples: nat, generation: nat)
    ensures Fed(p, frames, samples, generation).timing.consumed == p.timing.consumed
    decreases |frames|
  {
    if p.ready < samples && frames != [] {
      FedKeepsPosition(if frames[0].generation != generation then p
                       else p.(timing := Appended(p.timing, frames[0]), ready := p.ready + SAMPLE_BUFFER_SIZE),
                       frames[1..], samples, generation);
    }
  }

  // ----- the clock -----

  /** The frames of one tempo, whose server times follow each other. */
  ghost predicate Contiguous(frames: seq<Frame>, firstEnd: Counter, bpm: real) {
    forall k :: 0 <= k < |frames| ==>
      && frames[k].bpm == bpm
      && frames[k].serverSampleEnd == firstEnd + k * SAMPLE_BUFFER_SIZE
  }

  /** What an entry sends, timed in samples since the reset. */
  function EntryEvents(e: Entry): seq<MidiEvent> {
    if e.hasSender then Shifted(MarkerEvents(e.marker, e.chunkStart), e.chunkStart) else []
  }

  function LoggedEvents(log: seq<Entry>): seq<MidiEvent> {
    if log == [] then [] else LoggedEvents(log[..|log| - 1]) + EntryEvents(log[|log| - 1])
  }

  lemma ShiftedSum(a: seq<MidiEvent>, b: seq<MidiEvent>, start: nat)
    ensures Shifted(a + b, start) == Shifted(a, start) + Shifted(b, start)
  {}

  lemma LogGrows(log: seq<Entry>, e: Entry)
    ensures LoggedEvents(log + [e]) == LoggedEvents(log) + EntryEvents(e)
  {
    hide EntryEvents;
    assert (log + [e])[..|log|] == log;
  }

  lemma EntriesGrow(log: seq<Entry>, markers: seq<Marker>, start: nat, samples: nat, hasSender: bool)
    ensures markers == [] ==> log + Entries(markers, start, samples, hasSender) == log
    ensures markers != [] ==>
              var n := |markers| - 1;
              log + Entries(markers, start, samples, hasSender)
              == log + Entries(markers[..n], start, samples, hasSender) + [Entry(markers[n], start, samples, hasSender)]
  {}

  /** What a chunk with these due markers sends. */
  function ChunkEvents(markers: seq<Marker>, start: nat, hasSender: bool): seq<MidiEvent> {
    if hasSender then AllEvents(markers, start) else []
  }

  lemma {:induction false} ChunkIsLogged(log: seq<Entry>, markers: seq<Marker>, start: nat, samples: nat,
                                         hasSender: bool)
    ensures LoggedEvents(log + Entries(markers, start, samples, hasSender))
         == LoggedEvents(log) + Shifted(ChunkEvents(markers, start, hasSender), start)
  {
    hide MarkerEvents, Entries, Shifted, LoggedEvents;
    EntriesGrow(log, markers, start, samples, hasSender);
    if markers == [] {
      NothingShifted(start);
    } else {
      var n := |markers| - 1;
      ChunkIsLogged(log, markers[..n], start, samples, hasSender);
      LogGrows(log + Entries(markers[..n], start, samples, hasSender), Entry(markers[n], start, samples, hasSender));
      ShiftedSum(AllEvents(markers[..n], start), MarkerEvents(markers[n], start), start);
      hide AllEvents;
      NothingShifted(start);
    }
  }

  lemma NothingShifted(start: nat)
    ensures Shifted([], start) == []
  {}

  lemma ChunkIsSent(h: History, a: Action)
    requires a.Chunk? && h.sent == LoggedEvents(h.log)
    ensures Step(h, a).sent == LoggedEvents(Step(h, a).log)
  {
    hide LoggedEvents, Entries, Shifted, ChunkPlayed, Fed, Kept, Due, AllEvents;
    NothingLogged();
    var t := Fed(h.player, a.frames, a.samples, a.generation).timing;
    ChunkIsLogged(h.log, t.markers[..Due(t.markers, t.consumed + a.samples)], t.consumed, a.samples, a.hasSender);
  }

  /** What was sent is what the log says, frame by frame. */
  lemma {:induction false} SentIsLogged(actions: seq<Action>)
    ensures Run(actions).sent == LoggedEvents(Run(actions).log)
  {
    NothingLogged();
    if actions != [] {
      hide LoggedEvents, ChunkPlayed;
      SentIsLogged(actions[..|actions| - 1]);
      if actions[|actions| - 1].Chunk? {
        ChunkIsSent(Run(actions[..|actions| - 1]), actions[|actions| - 1]);
        hide Step;
      }
    }
  }

  lemma NothingLogged()
    ensures LoggedEvents([]) == []
  {}

  /** The clock messages, or the others. */
  function Only(events: seq<MidiEvent>, clock: bool): seq<MidiEvent> {
    if events == [] then []
    else Only(events[..|events| - 1], clock)
         + if events[|events| - 1].clock == clock then [events[|events| - 1]] else []
  }

  lemma {:induction false} OnlyOfSum(a: seq<MidiEvent>, b: seq<MidiEvent>, clock: bool)
    ensures Only(a + b, clock) == Only(a, clock) + Only(b, clock)
  {
    if b == [] {
      assert a + b == a;
    } else {
      assert (a + b)[..|a + b| - 1] == a + b[..|b| - 1];
      OnlyOfSum(a, b[..|b| - 1], clock);
    }
  }

  lemma {:induction false} OnlyOfKind(events: seq<MidiEvent>, clock: bool)
    requires forall i :: 0 <= i < |events| ==> events[i].clock
    ensures Only(events, clock) == if clock then events else []
  {
    if events != [] {
      OnlyOfKind(events[..|events| - 1], clock);
    }
  }

  /** The pulse `p`, at its point on the line of a run that begins with server sample `firstEnd` - 128. */
  function PulseOnLine(firstEnd: Counter, bpm: real, p: int): MidiEvent
    requires Clocked(firstEnd, bpm)
  {
    MidiEvent(p as real * SamplesPerPulse(bpm) - (firstEnd - SAMPLE_BUFFER_SIZE) as real, bpm, NoSignal, true)
  }

  function PulsesOnLine(firstEnd: Counter, bpm: real, pulses: seq<int>): (r: seq<MidiEvent>)
    requires Clocked(firstEnd, bpm)
    ensures |r| == |pulses|
  {
    seq(|pulses|, i requires 0 <= i < |pulses| => PulseOnLine(firstEnd, bpm, pulses[i]))
  }

  /** A frame of the run, and the chunk that begins it. */
  ghost predicate InRun(e: Entry, firstEnd: Counter, bpm: real, k: nat) {
    && Clocked(firstEnd, bpm) && firstEnd + k * SAMPLE_BUFFER_SIZE < U64_LIMIT
    && e.hasSender
    && e.marker.bpm == bpm && e.marker.serverSampleEnd == firstEnd + k * SAMPLE_BUFFER_SIZE
    && e.chunkStart + OffsetOf(e.marker, e.chunkStart) == SAMPLE_BUFFER_SIZE * k
  }

  /** Where the chunk puts a pulse is the pulse's point on the line. */
  lemma PulseIsOnLine(e: Entry, firstEnd: Counter, bpm: real, k: nat, p: int)
    requires InRun(e, firstEnd, bpm, k)
    ensures Clocked(e.marker.serverSampleEnd, bpm)
    ensures e.chunkStart as real + PulseAt(e.marker.serverSampleEnd, bpm, OffsetOf(e.marker, e.chunkStart), p)
         == PulseOnLine(firstEnd, bpm, p).at
  {
    PulsesAreEven(firstEnd, bpm, k, 0, p);
    hide SamplesPerPulse, PulseSample;
  }

  /** The pulses of a frame that begins at `offset`, if it carries a clock. */
  function ClockPart(m: Marker, offset: nat): seq<MidiEvent> {
    if Clocked(m.serverSampleEnd, m.bpm)
    then ClockEvents(m.serverSampleEnd, m.bpm, offset, FramePulses(m.serverSampleEnd, m.bpm)) else []
  }

  lemma ClockPartIsClock(m: Marker, offset: nat, start: nat)
    ensures forall i :: 0 <= i < |ClockPart(m, offset)| ==> Shifted(ClockPart(m, offset), start)[i].clock
  {
    hide FramePulses, PulseAt;
  }

  lemma PartsOfMarker(m: Marker, consumed: nat)
    ensures var offset := OffsetOf(m, consumed);
      MarkerEvents(m, consumed) == TransportEvents(m.signal, m.bpm, offset) + ClockPart(m, offset)
  {
    hide FramePulses, ClockEvents, TransportEvents, OffsetOf;
  }

  /** An entry sends the command of its frame and the pulses of its frame, and nothing else. */
  lemma EntryParts(e: Entry)
    requires e.hasSender
    ensures var m, offset, start := e.marker, OffsetOf(e.marker, e.chunkStart), e.chunkStart;
      && Only(EntryEvents(e), true) == Shifted(ClockPart(m, offset), start)
      && Only(EntryEvents(e), false) == Shifted(TransportEvents(m.signal, m.bpm, offset), start)
  {
    hide Only, OffsetOf, ClockPart, TransportEvents, Shifted, MarkerEvents;
    var m, offset, start := e.marker, OffsetOf(e.marker, e.chunkStart), e.chunkStart;
    var signals, clocks := TransportEvents(m.signal, m.bpm, offset), ClockPart(m, offset);
    PartsOfMarker(m, start);
    SignalIsNoClock(m.signal, m.bpm, offset, start);
    ClockPartIsClock(m, offset, start);
    ShiftedSum(signals, clocks, start);
    OnlyOfSum(Shifted(signals, start), Shifted(clocks, start), true);
    OnlyOfSum(Shifted(signals, start), Shifted(clocks, start), false);
    OnlyOfKind(Shifted(clocks, start), true);
    OnlyOfKind(Shifted(clocks, start), false);
  }

  lemma ShiftedClock(e: Entry, firstEnd: Counter, bpm: real, k: nat, pulses: seq<int>)
    requires InRun(e, firstEnd, bpm, k) && Clocked(firstEnd, bpm) && Clocked(e.marker.serverSampleEnd, bpm)
    ensures Shifted(ClockEvents(e.marker.serverSampleEnd, bpm, OffsetOf(e.marker, e.chunkStart), pulses), e.chunkStart)
         == PulsesOnLine(firstEnd, bpm, pulses)
  {
    hide OffsetOf, InRun, PulseAt;
    forall i | 0 <= i < |pulses|
      ensures e.chunkStart as real
              + PulseAt(e.marker.serverSampleEnd, bpm, OffsetOf(e.marker, e.chunkStart), pulses[i])
           == PulseOnLine(firstEnd, bpm, pulses[i]).at
    {
      PulseIsOnLine(e, firstEnd, bpm, k, pulses[i]);
    }
  }

  lemma EntryClock(e: Entry, firstEnd: Counter, bpm: real, k: nat)
    requires InRun(e, firstEnd, bpm, k)
    ensures Clocked(e.marker.serverSampleEnd, bpm)
    ensures Only(EntryEvents(e), true)
         == PulsesOnLine(firstEnd, bpm, FramePulses(e.marker.serverSampleEnd, bpm))
  {
    assert e.hasSender && e.marker.bpm == bpm && Clocked(firstEnd, bpm) && Clocked(e.marker.serverSampleEnd, bpm);
    hide Only, EntryEvents, FramePulses, OffsetOf, InRun, ClockEvents, TransportEvents, Shifted, PulsesOnLine;
    EntryParts(e);
    ShiftedClock(e, firstEnd, bpm, k, FramePulses(e.marker.serverSampleEnd, bpm));
  }

  lemma SignalIsNoClock(signal: MidiSignal, bpm: real, offset: nat, start: nat)
    ensures Only(Shifted(TransportEvents(signal, bpm, offset), start), true) == []
    ensures Only(Shifted(TransportEvents(signal, bpm, offset), start), false)
         == Shifted(TransportEvents(signal, bpm, offset), start)
  {}

  lemma PulsesOnLineSum(firstEnd: Counter, bpm: real, a: seq<int>, b: seq<int>)
    requires Clocked(firstEnd, bpm)
    ensures PulsesOnLine(firstEnd, bpm, a + b) == PulsesOnLine(firstEnd, bpm, a) + PulsesOnLine(firstEnd, bpm, b)
  {
    hide PulseOnLine;
  }

  lemma {:induction false} LogClock(log: seq<Entry>, firstEnd: Counter, bpm: real)
    requires Clocked(firstEnd, bpm) && firstEnd + |log| * SAMPLE_BUFFER_SIZE < U64_LIMIT
    requires forall k :: 0 <= k < |log| ==> InRun(log[k], firstEnd, bpm, k)
    ensures Only(LoggedEvents(log), true) == PulsesOnLine(firstEnd, bpm, RunPulses(firstEnd, bpm, |log|))
  {
    hide InRun, EntryEvents, PulseOnLine, FramePulses;
    if log == [] {
      assert Only(LoggedEvents(log), true) == [];
    } else {
      hide Only;
      var n := |log| - 1;
      LogClock(log[..n], firstEnd, bpm);
      EntryClock(log[n], firstEnd, bpm, n);
      EndInRun(log[n], firstEnd, bpm, n);
      OnlyOfSum(LoggedEvents(log[..n]), EntryEvents(log[n]), true);
      PulsesOnLineSum(firstEnd, bpm, RunPulses(firstEnd, bpm, n), FramePulses(log[n].marker.serverSampleEnd, bpm));
      hide PulsesOnLine;
    }
  }

  lemma EndInRun(e: Entry, firstEnd: Counter, bpm: real, k: nat)
    requires InRun(e, firstEnd, bpm, k)
    ensures e.marker.serverSampleEnd == firstEnd + k * SAMPLE_BUFFER_SIZE
  {}

  lemma OffsetIsExact(e: Entry, frame: Frame, k: nat)
    requires Exact(e, frame, k)
    ensures e.chunkStart + OffsetOf(e.marker, e.chunkStart) == SAMPLE_BUFFER_SIZE * k
    ensures e.marker.bpm == frame.bpm && e.marker.serverSampleEnd == frame.serverSampleEnd
  {}

  /**
   While the played frames are contiguous and keep their tempo, and a sender is there, the clock
   messages of the whole run are exactly those of every pulse of the server time played so far,
   each once and in order, and in playout time they are all exactly `SamplesPerPulse` apart,
   across chunks and frames.
   */
  lemma {:induction false} ClockIsEven(actions: seq<Action>, firstEnd: Counter, bpm: real)
    requires Clocked(firstEnd, bpm)
    requires Contiguous(Run(actions).frames, firstEnd, bpm)
    requires firstEnd + |Run(actions).log| * SAMPLE_BUFFER_SIZE < U64_LIMIT
    requires forall k :: 0 <= k < |Run(actions).log| ==> Run(actions).log[k].hasSender
    ensures var h := Run(actions);
      Only(h.sent, true)
      == PulsesOnLine(firstEnd, bpm,
                      Range(FirstPulse(firstEnd - SAMPLE_BUFFER_SIZE, bpm),
                            FirstPulse(firstEnd - SAMPLE_BUFFER_SIZE + |h.log| * SAMPLE_BUFFER_SIZE, bpm)))
  {
    hide Run, FirstPulse, Begun, OffsetOf, PulsesOnLine, Only, LoggedEvents;
    MarkersAreExact(actions);
    SentIsLogged(actions);
    var h := Run(actions);
    forall k | 0 <= k < |h.log| ensures InRun(h.log[k], firstEnd, bpm, k) {
      assert h.frames[k].bpm == bpm;
      OffsetIsExact(h.log[k], h.frames[k], k);
    }
    LogClock(h.log, firstEnd, bpm);
    EveryPulseOnce(firstEnd, bpm, |h.log|);
  }

  // ----- the transport commands -----

  /** The commands of these frames, each at the first sample of its frame. */
  function FrameSignals(frames: seq<Frame>): seq<MidiEvent> {
    if frames == [] then []
    else
      var n := |frames| - 1;
      FrameSignals(frames[..n])
      + if frames[n].midi == NoSignal then []
        else [MidiEvent((SAMPLE_BUFFER_SIZE * n) as real, frames[n].bpm, frames[n].midi, false)]
  }

  lemma EntrySignal(e: Entry, frame: Frame, k: nat)
    requires e.hasSender && Exact(e, frame, k)
    ensures Only(EntryEvents(e), false) == TransportEvents(frame.midi, frame.bpm, SAMPLE_BUFFER_SIZE * k)
  {
    hide Only, EntryEvents, FramePulses, ClockEvents;
    EntryParts(e);
    SignalIsShifted(e.marker.signal, e.marker.bpm, OffsetOf(e.marker, e.chunkStart), e.chunkStart);
    hide Shifted, TransportEvents;
  }

  lemma SignalIsShifted(signal: MidiSignal, bpm: real, offset: nat, start: nat)
    ensures Shifted(TransportEvents(signal, bpm, offset), start) == TransportEvents(signal, bpm, start + offset)
  {}

  lemma {:induction false} LogSignals(log: seq<Entry>, frames: seq<Frame>)
    requires |log| == |frames| && forall k :: 0 <= k < |log| ==> log[k].hasSender && Exact(log[k], frames[k], k)
    ensures Only(LoggedEvents(log), false) == FrameSignals(frames)
  {
    if log != [] {
      hide Exact, EntryEvents, TransportEvents;
      var n := |log| - 1;
      LogSignals(log[..n], frames[..n]);
      EntrySignal(log[n], frames[n], n);
      OnlyOfSum(LoggedEvents(log[..n]), EntryEvents(log[n]), false);
      hide Only;
    }
  }

  /** Every start and stop command is sent exactly once, at the first sample of its frame, in order. */
  lemma {:induction false} SignalsAreExact(actions: seq<Action>)
    requires forall k :: 0 <= k < |Run(actions).log| ==> Run(actions).log[k].hasSender
    ensures var h := Run(actions);
      |h.log| <= |h.frames| && Only(h.sent, false) == FrameSignals(h.frames[..|h.log|])
  {
    hide Run, Exact, Only, LoggedEvents, FrameSignals;
    MarkersAreExact(actions);
    SentIsLogged(actions);
    LogSignals(Run(actions).log, Run(actions).frames[..|Run(actions).log|]);
  }
}

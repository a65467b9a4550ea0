/**
 The playout of the audio engine as an object, with its ring of timing markers
 (Client/Source/JammerNetzAudioEngine.h, Client/Source/JammerNetzAudioEngine.cpp). Each method
 is proved to do what `PlayoutModel` says.
 */
module AudioEnginePlayout {
  import opened Packets
  import opened Rings
  import opened ReceiveModel
  import opened MidiClock
  import opened PlayoutModel

  /** The `count` elements from slot `head` on, around the end of the array. */
  function Cyclic<T>(slots: seq<T>, head: nat, count: nat): (s: seq<T>)
    requires head < |slots| && count <= |slots|
    ensures |s| == count
  {
    seq(count, i requires 0 <= i < count => slots[Slot(|slots|, head, i)])
  }

  function SlotAfter(length: nat, head: nat, count: nat): nat
    requires head < length && count <= length
    ensures SlotAfter(length, head, count) < length
  {
    if head + count < length then head + count else head + count - length
  }

  lemma CyclicAppend<T>(slots: seq<T>, head: nat, count: nat, x: T)
    requires head < |slots| && count < |slots|
    ensures Cyclic(slots[SlotAfter(|slots|, head, count) := x], head, count + 1) == Cyclic(slots, head, count) + [x]
    ensures Following(|slots|, SlotAfter(|slots|, head, count)) == SlotAfter(|slots|, head, count + 1)
  {}

  lemma CyclicRest<T>(slots: seq<T>, head: nat, count: nat)
    requires head < |slots| && 0 < count <= |slots|
    ensures Cyclic(slots, head, count)[0] == slots[head]
    ensures Cyclic(slots, Following(|slots|, head), count - 1) == Cyclic(slots, head, count)[1..]
    ensures SlotAfter(|slots|, Following(|slots|, head), count - 1) == SlotAfter(|slots|, head, count)
  {}

  lemma NextSlot(length: nat, index: nat)
    requires index < length
    ensures (index + 1) % length == Following(length, index)
  {}

  class AudioEngine {
    const playoutTimingMarkers: array<Marker>
    var playoutTimingRead: nat
    var playoutTimingWrite: nat
    var playoutTimingCount: nat
    var playoutSamplesWritten: nat
    var playoutSamplesRead: nat
    var midiTimingMarkersDropped: nat
    /** `playoutBuffer_->getNumReady()` */
    var playoutReady: nat
    var isPlaying: bool
    var resetPlayoutRequested: bool

    ghost predicate Valid()
      reads this
    {
      && playoutTimingMarkers.Length == MAXIMUM_MARKERS
      && playoutTimingRead < MAXIMUM_MARKERS
      && playoutTimingCount <= MAXIMUM_MARKERS
      && playoutTimingWrite == SlotAfter(MAXIMUM_MARKERS, playoutTimingRead, playoutTimingCount)
    }

    ghost function Markers(): seq<Marker>
      requires Valid()
      reads this, playoutTimingMarkers
    {
      Cyclic(playoutTimingMarkers[..], playoutTimingRead, playoutTimingCount)
    }

    ghost function Model(): Player
      requires Valid()
      reads this, playoutTimingMarkers
    {
      Player(Timing(Markers(), playoutSamplesWritten, playoutSamplesRead, midiTimingMarkersDropped),
             playoutReady, isPlaying)
    }

    constructor ()
      ensures Valid() && Model() == NEW_PLAYER && fresh(playoutTimingMarkers)
    {
      playoutTimingMarkers := new Marker[MAXIMUM_MARKERS];
      playoutTimingRead, playoutTimingWrite, playoutTimingCount := 0, 0, 0;
      playoutSamplesWritten, playoutSamplesRead, midiTimingMarkersDropped := 0, 0, 0;
      playoutReady, isPlaying, resetPlayoutRequested := 0, false, false;
    }

    method ResetPlayoutState()
      requires Valid()
      modifies this`playoutReady, this`playoutTimingRead, this`playoutTimingWrite, this`playoutTimingCount,
               this`playoutSamplesWritten, this`playoutSamplesRead
      ensures Valid() && Model() == PlayerReset(old(Model())).(playing := old(isPlaying))
    {
      playoutReady := 0;
      playoutTimingRead, playoutTimingWrite, playoutTimingCount := 0, 0, 0;
      playoutSamplesWritten, playoutSamplesRead := 0, 0;
    }

    method AppendPlayoutTiming(frame: Frame)
      requires Valid()
      modifies this`playoutSamplesWritten, this`midiTimingMarkersDropped, this`playoutTimingWrite,
               this`playoutTimingCount, playoutTimingMarkers
      ensures Valid() && Model() == old(Model()).(timing := Appended(old(Model()).timing, frame))
    {
      hide Cyclic, Following, SlotAfter;
      if playoutTimingCount == playoutTimingMarkers.Length {
        midiTimingMarkersDropped := midiTimingMarkersDropped + 1;
        playoutSamplesWritten := playoutSamplesWritten + SAMPLE_BUFFER_SIZE;
        return;
      }
      var marker := MarkerOf(frame, playoutSamplesWritten);
      CyclicAppend(playoutTimingMarkers[..], playoutTimingRead, playoutTimingCount, marker);
      NextSlot(playoutTimingMarkers.Length, playoutTimingWrite);
      playoutTimingMarkers[playoutTimingWrite] := marker;
      playoutTimingWrite := (playoutTimingWrite + 1) % playoutTimingMarkers.Length;
      playoutTimingCount := playoutTimingCount + 1;
      playoutSamplesWritten := playoutSamplesWritten + SAMPLE_BUFFER_SIZE;
    }

    method ScheduleMidiForPlayout(numSamples: nat, hasSender: bool) returns (events: seq<MidiEvent>)
      requires Valid()
      modifies this`playoutTimingRead, this`playoutTimingCount, this`playoutSamplesRead
      ensures Valid() && Model() == old(Model()).(timing := Scheduled(old(Model()).timing, numSamples))
      ensures events == SentEvents(old(Model()).timing, numSamples, hasSender)
    {
      hide FrameEvents, Cyclic, AllEvents, Due, SlotAfter;
      var readEnd := playoutSamplesRead + numSamples;
      ghost var markers, n := Markers(), 0;
      events := [];
      NoEvents(markers, playoutSamplesRead);
      while playoutTimingCount > 0
        invariant n <= |markers| && Valid() && Markers() == markers[n..]
        invariant forall i :: 0 <= i < n ==> markers[i].playoutSample < readEnd
        invariant events == if hasSender then AllEvents(markers[..n], playoutSamplesRead) else []
        modifies this`playoutTimingRead, this`playoutTimingCount
      {
        var marker := playoutTimingMarkers[playoutTimingRead];
        assert marker == markers[n] by {
          CyclicRest(playoutTimingMarkers[..], playoutTimingRead, playoutTimingCount);
        }
        if marker.playoutSample >= readEnd {
          break;
        }
        if hasSender {
          var frameOffset := if marker.playoutSample > playoutSamplesRead
                             then marker.playoutSample - playoutSamplesRead else 0;
          var more := ScheduleMidiFrame(marker.serverSampleEnd, marker.bpm, marker.signal, frameOffset);
          events := events + more;
        }
        AllEventsGrow(markers, n, playoutSamplesRead);
        DropMarker();
        n := n + 1;
      }
      DueIsUnique(markers, readEnd, n);
      playoutSamplesRead := readEnd;
    }

    method DropMarker()
      requires Valid() && playoutTimingCount > 0
      modifies this`playoutTimingRead, this`playoutTimingCount
      ensures Valid() && Markers() == old(Markers())[1..] && playoutTimingCount == old(playoutTimingCount) - 1
    {
      hide Cyclic, Following, SlotAfter;
      CyclicRest(playoutTimingMarkers[..], playoutTimingRead, playoutTimingCount);
      NextSlot(playoutTimingMarkers.Length, playoutTimingRead);
      playoutTimingRead := (playoutTimingRead + 1) % playoutTimingMarkers.Length;
      playoutTimingCount := playoutTimingCount - 1;
    }

    /** The playout part of `processChunk`: `frames` is what the receive worker has ready. */
    method PlayChunk(frames: seq<Frame>, numSamples: nat, expectedGeneration: nat, hasSender: bool)
      returns (taken: nat, rebuffer: bool, events: seq<MidiEvent>)
      requires Valid()
      modifies this, playoutTimingMarkers
      ensures Valid()
      ensures !resetPlayoutRequested
      ensures var start := if old(resetPlayoutRequested) then PlayerReset(old(Model())) else old(Model());
        var fed := Fed(start, frames, numSamples, expectedGeneration);
        && taken == Taken(start, frames, numSamples, expectedGeneration)
        && Model() == ChunkPlayed(fed, numSamples)
        && rebuffer == Underruns(fed, numSamples)
        && events == if Plays(fed, numSamples) then SentEvents(fed.timing, numSamples, hasSender) else []
    {
      hide Appended, Scheduled, SentEvents;
      if resetPlayoutRequested {
        resetPlayoutRequested := false;
        ResetPlayoutState();
        isPlaying := false;
      }
      taken := Feed(frames, numSamples, expectedGeneration);
      rebuffer, events := false, [];
      if !isPlaying && playoutReady >= numSamples {
        isPlaying := true;
      }
      if isPlaying {
        if playoutReady < numSamples {
          isPlaying := false;
          ResetPlayoutState();
          rebuffer := true;
        } else {
          events := ScheduleMidiForPlayout(numSamples, hasSender);
          playoutReady := playoutReady - numSamples;
        }
      }
    }

    method Feed(frames: seq<Frame>, numSamples: nat, expectedGeneration: nat) returns (taken: nat)
      requires Valid()
      modifies this`playoutSamplesWritten, this`midiTimingMarkersDropped, this`playoutTimingWrite,
               this`playoutTimingCount, this`playoutReady, playoutTimingMarkers
      ensures Valid()
      ensures taken == Taken(old(Model()), frames, numSamples, expectedGeneration)
      ensures Model() == Fed(old(Model()), frames, numSamples, expectedGeneration)
    {
      hide Appended;
      taken := 0;
      ghost var was := Model();
      while playoutReady < numSamples
        invariant Valid() && taken <= |frames|
        invariant Fed(Model(), frames[taken..], numSamples, expectedGeneration)
               == Fed(was, frames, numSamples, expectedGeneration)
        invariant taken + Taken(Model(), frames[taken..], numSamples, expectedGeneration)
               == Taken(was, frames, numSamples, expectedGeneration)
        decreases |frames| - taken, numSamples - playoutReady
      {
        if taken == |frames| {
          break;
        }
        var frame := frames[taken];
        assert frames[taken..][1..] == frames[taken + 1..];
        taken := taken + 1;
        if frame.generation != expectedGeneration {
          continue;
        }
        AppendPlayoutTiming(frame);
        playoutReady := playoutReady + SAMPLE_BUFFER_SIZE;
      }
    }
  }

  lemma NoEvents(markers: seq<Marker>, consumed: nat)
    ensures AllEvents(markers[..0], consumed) == []
  {}

  lemma AllEventsGrow(markers: seq<Marker>, n: nat, consumed: nat)
    requires n < |markers|
    ensures AllEvents(markers[..n + 1], consumed)
         == AllEvents(markers[..n], consumed) + MarkerEvents(markers[n], consumed)
  {
    assert markers[..n + 1][..n] == markers[..n];
  }

  lemma DueIsUnique(markers: seq<Marker>, end: nat, n: nat)
    requires n <= |markers|
    requires forall i :: 0 <= i < n ==> markers[i].playoutSample < end
    requires n < |markers| ==> markers[n].playoutSample >= end
    ensures Due(markers, end) == n
  {}
}

/**
 The mixing step as an object (Server/Source/ServerMixerCore.h, Server/Source/ServerMixerCore.cpp),
 proved to produce exactly the mixes of `MixModel`.
 */
module ServerMixerCores {
  import opened Packets
  import opened MixModel

  datatype Diagnostic =
    | NoChannels
    | WrongBufferSize(have: nat, want: nat)
    | ChannelCountMismatch(sent: nat, declared: nat)

  datatype Outgoing = Outgoing(targetAddress: Name, block: Block, sessionSetup: seq<Channel>)

  datatype MixStepResult = MixStepResult(serverTime: Counter, outgoing: seq<Outgoing>, diagnostics: seq<Diagnostic>)

  // ----- the specification -----

  function DiagnosticsOf(p: Packet, length: nat): seq<Diagnostic> {
    var audio := p.block.audio;
    (if audio.channels == [] then [NoChannels] else [])
    + if audio.length != length then [WrongBufferSize(audio.length, length)]
      else if |audio.channels| != |p.block.setup.channels|
      then [ChannelCountMismatch(|audio.channels|, |p.block.setup.channels|)]
      else []
  }

  function AllDiagnostics(inputs: seq<Input>, length: nat): seq<Diagnostic> {
    if inputs == [] then []
    else AllDiagnostics(inputs[..|inputs| - 1], length) + DiagnosticsOf(inputs[|inputs| - 1].packet, length)
  }

  function Repeated(ds: seq<Diagnostic>, n: nat): seq<Diagnostic> {
    if n == 0 then [] else Repeated(ds, n - 1) + ds
  }

  /** Everybody else's channels. */
  function SessionSetup(inputs: seq<Input>, receiver: Name): seq<Channel> {
    if inputs == [] then []
    else
      var last := inputs[|inputs| - 1];
      SessionSetup(inputs[..|inputs| - 1], receiver)
      + if last.client != receiver then last.packet.block.setup.channels else []
  }

  function MixSide(inputs: seq<Input>, length: nat, receiver: Name, side: Side): (s: seq<real>)
    ensures |s| == length
  {
    seq(length, i requires 0 <= i < length => MixSample(inputs, length, receiver, side, i))
  }

  /** What `receiver` is sent for its own packet `p`. */
  function OutgoingFor(inputs: seq<Input>, receiver: Input, length: nat, time: Counter, bpm: real,
                       mixdown: ChannelSetup): Outgoing
  {
    Outgoing(receiver.client,
             Block(receiver.packet.Counter(), receiver.packet.block.timestamp, time, bpm, FoldSignals(inputs), mixdown,
                   RawAudio(length, [MixSide(inputs, length, receiver.client, LeftSide),
                                     MixSide(inputs, length, receiver.client, RightSide)])),
             SessionSetup(inputs, receiver.client))
  }

  function Advance(time: Counter, samples: nat): Counter {
    (time + samples) % U64_LIMIT
  }

  /** All receivers share one length, one server time, one tempo and one transport signal. */
  function MixStep(inputs: seq<Input>, time: Counter, lastBpm: real, mixdown: ChannelSetup): MixStepResult {
    if inputs == [] then
      MixStepResult(time, [], [])
    else
      var length := inputs[0].packet.block.audio.length;
      var after := Advance(time, length);
      MixStepResult(after,
                    seq(|inputs|, r requires 0 <= r < |inputs| =>
                      OutgoingFor(inputs, inputs[r], length, after, MixBpm(inputs, lastBpm), mixdown)),
                    Repeated(AllDiagnostics(inputs, length), |inputs|))
  }

  /**
   One step, all receivers: each output sample and what its receiver was spared add up to
   the same total, and time, tempo and transport are the same for everybody.
   */
  lemma MixStepConserves(inputs: seq<Input>, time: Counter, lastBpm: real, mixdown: ChannelSetup, r: nat, i: nat)
    requires r < |inputs| && i < inputs[0].packet.block.audio.length && DistinctClients(inputs)
    ensures var length := inputs[0].packet.block.audio.length;
      var result := MixStep(inputs, time, lastBpm, mixdown);
      && |result.outgoing| == |inputs|
      && var block := result.outgoing[r].block;
      && result.outgoing[r].targetAddress == inputs[r].client
      && block.audio.channels[0][i] + WithheldSample(inputs[r].packet, length, LeftSide, i)
         == TotalSample(inputs, length, LeftSide, i)
      && block.audio.channels[1][i] + WithheldSample(inputs[r].packet, length, RightSide, i)
         == TotalSample(inputs, length, RightSide, i)
      && block.counter == inputs[r].packet.Counter() && block.timestamp == inputs[r].packet.block.timestamp
      && block.serverTime == result.serverTime
      && block.bpm == result.outgoing[0].block.bpm
      && block.midi == result.outgoing[0].block.midi
  {
    var length := inputs[0].packet.block.audio.length;
    MixPlusWithheldIsTotal(inputs, length, r, LeftSide, i);
    MixPlusWithheldIsTotal(inputs, length, r, RightSide, i);
    hide MixSample, TotalSample, WithheldSample, DistinctClients;
  }

  /**
   One step, all receivers: each gets two channels of the step's length. On the left it hears all
   that the others route to the left or to both sides, and the echo of its own channels of that kind
   that are not send-only, unless it wants none; on the right likewise.
   */
  lemma {:induction false} EveryReceiverHears(inputs: seq<Input>, time: Counter, lastBpm: real, mixdown: ChannelSetup,
                                              r: nat, i: nat)
    requires r < |inputs| && i < inputs[0].packet.block.audio.length && DistinctClients(inputs)
    ensures var length, own := inputs[0].packet.block.audio.length, inputs[r].packet;
      var others := inputs[..r] + inputs[r + 1..];
      var audio := MixStep(inputs, time, lastBpm, mixdown).outgoing[r].block.audio;
      && audio.length == length && |audio.channels| == 2
      && audio.channels[0][i] == RoutedTotal(others, length, {Left, SendLeft, Mono, SendMono}, i)
           + (if own.block.setup.dontSendEcho then 0.0 else RoutedFrom(own, length, {Left, Mono}, i))
      && audio.channels[1][i] == RoutedTotal(others, length, {Right, SendRight, Mono, SendMono}, i)
           + (if own.block.setup.dontSendEcho then 0.0 else RoutedFrom(own, length, {Right, Mono}, i))
  {
    var length := inputs[0].packet.block.audio.length;
    OthersPlusEcho(inputs, length, r, LeftSide, i);
    OthersPlusEcho(inputs, length, r, RightSide, i);
    hide MixSample, RoutedTotal, RoutedFrom, DistinctClients, AllDiagnostics, Repeated, MixBpm;
  }

  /** Outgoing block `o` answers input `x`. */
  predicate Answers(o: Outgoing, x: Input) {
    && o.targetAddress == x.client
    && o.block.counter == x.packet.Counter() && o.block.timestamp == x.packet.block.timestamp
  }

  lemma MixAnswersInOrder(inputs: seq<Input>, time: Counter, lastBpm: real, mixdown: ChannelSetup)
    ensures var outgoing := MixStep(inputs, time, lastBpm, mixdown).outgoing;
      |outgoing| == |inputs| && forall k :: 0 <= k < |inputs| ==> Answers(outgoing[k], inputs[k])
  {
    hide MixBpm, FoldSignals, MixSide, SessionSetup, AllDiagnostics, Repeated;
  }

  // ----- many steps -----

  /** The server time and the tempo after a number of mixes, from the start. */
  datatype Clock = Clock(time: Counter, bpm: real)

  function ClockAfter(mixes: seq<seq<Input>>, mixdown: ChannelSetup): Clock {
    if mixes == [] then Clock(0, 120.0)
    else
      var before, last := ClockAfter(mixes[..|mixes| - 1], mixdown), mixes[|mixes| - 1];
      Clock(MixStep(last, before.time, before.bpm, mixdown).serverTime, MixBpm(last, before.bpm))
  }

  function SamplesMixed(mixes: seq<seq<Input>>): nat {
    if mixes == [] then 0
    else
      var last := mixes[|mixes| - 1];
      SamplesMixed(mixes[..|mixes| - 1]) + if last == [] then 0 else last[0].packet.block.audio.length
  }

  /** The server time counts the samples mixed since the start, and wraps around at 64 bits. */
  lemma {:induction false} ServerTimeCountsSamples(mixes: seq<seq<Input>>, mixdown: ChannelSetup)
    ensures ClockAfter(mixes, mixdown).time == SamplesMixed(mixes) % U64_LIMIT
  {
    if mixes != [] {
      ServerTimeCountsSamples(mixes[..|mixes| - 1], mixdown);
      hide OutgoingFor, AllDiagnostics, Repeated, MixBpm;
    }
  }

  ghost predicate SendsTempo(inputs: seq<Input>) {
    exists k :: 0 <= k < |inputs| && inputs[k].packet.block.bpm > 0.0
  }

  lemma TempoIsSent(inputs: seq<Input>)
    ensures SendsTempo(inputs) <==> MaximumBpm(inputs) > 0.0
  {
    FastestWins(inputs);
  }

  /**
   The tempo is the fastest one of the latest mix in which anybody sent a positive one, whatever came
   before it, and 120 as long as nobody has.
   */
  lemma {:induction false} TempoIsRemembered(mixes: seq<seq<Input>>, mixdown: ChannelSetup, k: nat)
    requires k <= |mixes| && forall j :: k <= j < |mixes| ==> !SendsTempo(mixes[j])
    requires k > 0 ==> SendsTempo(mixes[k - 1])
    ensures ClockAfter(mixes, mixdown).bpm == if k == 0 then 120.0 else MaximumBpm(mixes[k - 1])
  {
    hide MixStep, SendsTempo, MaximumBpm;
    if mixes != [] {
      TempoIsSent(mixes[|mixes| - 1]);
      if k < |mixes| {
        TempoIsRemembered(mixes[..|mixes| - 1], mixdown, k);
      }
    }
  }

  /** What everybody is told with a mix. */
  lemma MixIsLabelled(inputs: seq<Input>, time: Counter, lastBpm: real, mixdown: ChannelSetup, r: nat)
    requires r < |inputs|
    ensures var result := MixStep(inputs, time, lastBpm, mixdown);
      var block := result.outgoing[r].block;
      && block.serverTime == result.serverTime
      && block.setup == mixdown
      && (SendsTempo(inputs) ==>
            && (forall k :: 0 <= k < |inputs| ==> inputs[k].packet.block.bpm <= block.bpm)
            && exists k :: 0 <= k < |inputs| && inputs[k].packet.block.bpm == block.bpm)
      && (!SendsTempo(inputs) ==> block.bpm == lastBpm)
      && (block.midi.StopSignal? <==> Sends(inputs, StopSignal))
      && (block.midi.StartSignal? <==> Sends(inputs, StartSignal) && !Sends(inputs, StopSignal))
  {
    FastestWins(inputs);
    TempoIsSent(inputs);
    StopWins(inputs);
    hide MaximumBpm, FoldSignals, MixSide, SessionSetup, AllDiagnostics, Repeated, Sends, SendsTempo;
  }

  // ----- diagnostics -----

  /** Complaint `d` is due for packet `p` in a mix of `length` samples. */
  predicate Deserves(p: Packet, length: nat, d: Diagnostic) {
    var audio, declared := p.block.audio, |p.block.setup.channels|;
    match d
    case NoChannels => |audio.channels| == 0
    case WrongBufferSize(have, want) => have == audio.length && want == length && have != want
    case ChannelCountMismatch(s, n) => audio.length == length && s == |audio.channels| && n == declared && s != n
  }

  /** How many packets deserve it. */
  function CountDeserving(inputs: seq<Input>, length: nat, d: Diagnostic): nat {
    if inputs == [] then 0
    else CountDeserving(inputs[..|inputs| - 1], length, d)
         + if Deserves(inputs[|inputs| - 1].packet, length, d) then 1 else 0
  }

  lemma DiagnosticIsDeserved(p: Packet, length: nat, d: Diagnostic)
    ensures multiset(DiagnosticsOf(p, length))[d] == if Deserves(p, length, d) then 1 else 0
  {}

  lemma {:induction false} AllDeserve(inputs: seq<Input>, length: nat, d: Diagnostic)
    ensures multiset(AllDiagnostics(inputs, length))[d] == CountDeserving(inputs, length, d)
  {
    hide DiagnosticsOf, Deserves;
    if inputs != [] {
      AllDeserve(inputs[..|inputs| - 1], length, d);
      DiagnosticIsDeserved(inputs[|inputs| - 1].packet, length, d);
    }
  }

  lemma OneMoreTime(n: nat, m: nat)
    requires n > 0
    ensures n * m == (n - 1) * m + m
  {}

  lemma {:induction false} RepeatedCount(ds: seq<Diagnostic>, n: nat, d: Diagnostic)
    ensures multiset(Repeated(ds, n))[d] == n * multiset(ds)[d]
  {
    if n == 0 {
      assert Repeated(ds, n) == [];
    } else {
      RepeatedCount(ds, n - 1, d);
      assert multiset(Repeated(ds, n)) == multiset(Repeated(ds, n - 1)) + multiset(ds);
      hide Repeated;
      OneMoreTime(n, multiset(ds)[d]);
    }
  }

  /**
   A mix complains exactly of what is wrong with a packet, compared to the first one: once for each
   receiver and each packet that deserves it.
   */
  lemma {:induction false} ComplaintsAreDeserved(inputs: seq<Input>, time: Counter, lastBpm: real,
                                                 mixdown: ChannelSetup, d: Diagnostic)
    requires inputs != []
    ensures multiset(MixStep(inputs, time, lastBpm, mixdown).diagnostics)[d]
         == |inputs| * CountDeserving(inputs, inputs[0].packet.block.audio.length, d)
  {
    AllDeserve(inputs, inputs[0].packet.block.audio.length, d);
    RepeatedCount(AllDiagnostics(inputs, inputs[0].packet.block.audio.length), |inputs|, d);
    hide AllDiagnostics, Repeated, OutgoingFor, MixBpm, CountDeserving;
  }

  function AllChannels(inputs: seq<Input>): seq<Channel> {
    if inputs == [] then [] else AllChannels(inputs[..|inputs| - 1]) + inputs[|inputs| - 1].packet.block.setup.channels
  }

  /** What a receiver is told of the session and its own channels are all the channels there are. */
  lemma {:induction false} SessionSetupOmitsOnlyReceiver(inputs: seq<Input>, r: nat)
    requires r < |inputs| && DistinctClients(inputs)
    ensures multiset(SessionSetup(inputs, inputs[r].client)) + multiset(inputs[r].packet.block.setup.channels)
            == multiset(AllChannels(inputs))
  {
    var front, last := inputs[..|inputs| - 1], inputs[|inputs| - 1];
    if r == |inputs| - 1 {
      forall j | 0 <= j < |front| ensures front[j].client != last.client {
        assert front[j] == inputs[j];
      }
      OutsiderIsToldAll(front, last.client);
    } else {
      assert front[r] == inputs[r];
      SessionSetupOmitsOnlyReceiver(front, r);
    }
  }

  lemma {:induction false} ToldOfOthers(inputs: seq<Input>, r: nat)
    requires r < |inputs| && DistinctClients(inputs)
    ensures SessionSetup(inputs, inputs[r].client) == AllChannels(inputs[..r] + inputs[r + 1..])
  {
    var front, last := inputs[..|inputs| - 1], inputs[|inputs| - 1];
    var others := inputs[..r] + inputs[r + 1..];
    if r == |inputs| - 1 {
      assert others == front;
      OutsiderIsToldAll(front, last.client);
    } else {
      assert front[r] == inputs[r];
      ToldOfOthers(front, r);
      assert others[..|others| - 1] == front[..r] + front[r + 1..];
    }
  }

  /** Each receiver of a mix is told of all channels of all the others, in the order of their names. */
  lemma EveryReceiverIsToldOfOthers(inputs: seq<Input>, time: Counter, lastBpm: real, mixdown: ChannelSetup, r: nat)
    requires r < |inputs| && DistinctClients(inputs)
    ensures MixStep(inputs, time, lastBpm, mixdown).outgoing[r].sessionSetup
         == AllChannels(inputs[..r] + inputs[r + 1..])
  {
    ToldOfOthers(inputs, r);
    hide MixBpm, FoldSignals, MixSide, SessionSetup, AllChannels, AllDiagnostics, Repeated, DistinctClients;
  }

  lemma {:induction false} OutsiderIsToldAll(inputs: seq<Input>, receiver: Name)
    requires forall j :: 0 <= j < |inputs| ==> inputs[j].client != receiver
    ensures SessionSetup(inputs, receiver) == AllChannels(inputs)
  {
    if inputs != [] {
      OutsiderIsToldAll(inputs[..|inputs| - 1], receiver);
    }
  }

  // ----- the object -----

  method AddFrom(dest: array<real>, src: seq<real>, gain: real)
    requires |src| == dest.Length
    modifies dest
    ensures forall i :: 0 <= i < dest.Length ==> dest[i] == old(dest[i]) + src[i] * gain
  {
    for i := 0 to dest.Length
      invariant forall k :: 0 <= k < i ==> dest[k] == old(dest[k]) + src[k] * gain
      invariant forall k :: i <= k < dest.Length ==> dest[k] == old(dest[k])
    {
      dest[i] := dest[i] + src[i] * gain;
    }
  }

  method MixChannel(left: array<real>, right: array<real>, packet: Packet, channel: nat, isForSender: bool)
    requires left != right && left.Length == right.Length == packet.block.audio.length
    requires channel < ChannelsToMix(packet)
    modifies left, right
    ensures forall i :: 0 <= i < left.Length ==>
              && left[i] == old(left[i]) + (if isForSender && KeptFromSender(packet, channel) then 0.0
                                            else ChannelSample(packet, channel, LeftSide, i))
              && right[i] == old(right[i]) + (if isForSender && KeptFromSender(packet, channel) then 0.0
                                              else ChannelSample(packet, channel, RightSide, i))
  {
    var setup := packet.block.setup.channels[channel];
    var samples := packet.block.audio.channels[channel];
    var wantsEcho := !packet.block.setup.dontSendEcho;
    match setup.target {
      case Mute =>
      case SendLeft =>
        if !isForSender { AddFrom(left, samples, setup.volume); }
      case Left =>
        if !isForSender || wantsEcho { AddFrom(left, samples, setup.volume); }
      case SendRight =>
        if !isForSender { AddFrom(right, samples, setup.volume); }
      case Right =>
        if !isForSender || wantsEcho { AddFrom(right, samples, setup.volume); }
      case SendMono =>
        if !isForSender {
          AddFrom(left, samples, setup.volume);
          AddFrom(right, samples, setup.volume);
        }
      case Mono =>
        if !isForSender || wantsEcho {
          AddFrom(left, samples, setup.volume);
          AddFrom(right, samples, setup.volume);
        }
    }
  }

  method BufferMixdown(left: array<real>, right: array<real>, packet: Packet, isForSender: bool)
    returns (diagnostics: seq<Diagnostic>)
    requires left != right && left.Length == right.Length
    modifies left, right
    ensures diagnostics == DiagnosticsOf(packet, left.Length)
    ensures forall i :: 0 <= i < left.Length ==>
              && left[i] == old(left[i]) + Contribution(packet, left.Length, isForSender, LeftSide, i)
              && right[i] == old(right[i]) + Contribution(packet, left.Length, isForSender, RightSide, i)
  {
    hide KeptFromSender, ChannelSample;
    var audio := packet.block.audio;
    diagnostics := [];
    if |audio.channels| == 0 {
      diagnostics := diagnostics + [NoChannels];
    }
    if audio.length != left.Length {
      diagnostics := diagnostics + [WrongBufferSize(audio.length, left.Length)];
      return;
    }
    if |audio.channels| != |packet.block.setup.channels| {
      diagnostics := diagnostics + [ChannelCountMismatch(|audio.channels|, |packet.block.setup.channels|)];
    }
    for channel := 0 to ChannelsToMix(packet)
      invariant forall i :: 0 <= i < left.Length ==>
                  && left[i] == old(left[i]) + Share(packet, channel, isForSender, LeftSide, i)
                  && right[i] == old(right[i]) + Share(packet, channel, isForSender, RightSide, i)
    {
      MixChannel(left, right, packet, channel, isForSender);
    }
  }

  class ServerMixerCore {
    var serverTime: Counter
    var lastBpm: real
    const mixdownSetup: ChannelSetup

    constructor (mixdownSetup: ChannelSetup)
      ensures this.mixdownSetup == mixdownSetup && serverTime == 0 && lastBpm == 120.0
    {
      this.mixdownSetup := mixdownSetup;
      serverTime, lastBpm := 0, 120.0;
    }

    method Mix(incoming: seq<Input>) returns (result: MixStepResult)
      modifies this
      ensures result == MixStep(incoming, old(serverTime), old(lastBpm), mixdownSetup)
      ensures serverTime == result.serverTime
      ensures lastBpm == MixBpm(incoming, old(lastBpm))
    {
      result := MixStepResult(serverTime, [], []);
      if incoming == [] {
        return;
      }
      var bufferLength := incoming[0].packet.block.audio.length;
      serverTime := Advance(serverTime, bufferLength);
      result := result.(serverTime := serverTime);
      var outgoing: seq<Outgoing>, diagnostics: seq<Diagnostic> := [], [];
      for r := 0 to |incoming|
        modifies `lastBpm
        invariant |outgoing| == r
        invariant lastBpm == if r == 0 then old(lastBpm) else MixBpm(incoming, old(lastBpm))
        invariant forall k :: 0 <= k < r ==>
                    outgoing[k] == OutgoingFor(incoming, incoming[k], bufferLength, serverTime,
                                               MixBpm(incoming, old(lastBpm)), mixdownSetup)
        invariant diagnostics == Repeated(AllDiagnostics(incoming, bufferLength), r)
      {
        var left, right, sessionSetup, maximumBpm, midiSignal, found :=
          MixFor(incoming, incoming[r].client, bufferLength);
        diagnostics := diagnostics + found;
        if maximumBpm > 0.0 {
          lastBpm := maximumBpm;
        }
        var receiver := incoming[r];
        outgoing := outgoing + [Outgoing(receiver.client,
                                         Block(receiver.packet.Counter(), receiver.packet.block.timestamp, serverTime,
                                               lastBpm, midiSignal, mixdownSetup,
                                               RawAudio(bufferLength, [left, right])),
                                         sessionSetup)];
      }
      result := result.(outgoing := outgoing, diagnostics := diagnostics);
    }

    /** The loop over all clients, for one receiver. */
    static method MixFor(incoming: seq<Input>, receiver: Name, bufferLength: nat)
      returns (left: seq<real>, right: seq<real>, sessionSetup: seq<Channel>, maximumBpm: real,
               midiSignal: MidiSignal, diagnostics: seq<Diagnostic>)
      ensures left == MixSide(incoming, bufferLength, receiver, LeftSide)
      ensures right == MixSide(incoming, bufferLength, receiver, RightSide)
      ensures sessionSetup == SessionSetup(incoming, receiver)
      ensures maximumBpm == MaximumBpm(incoming)
      ensures midiSignal == FoldSignals(incoming)
      ensures diagnostics == AllDiagnostics(incoming, bufferLength)
    {
      hide Contribution, DiagnosticsOf;
      var output0 := new real[bufferLength](_ => 0.0);
      var output1 := new real[bufferLength](_ => 0.0);
      sessionSetup, maximumBpm, midiSignal, diagnostics := [], 0.0, NoSignal, [];
      for j := 0 to |incoming|
        invariant forall i :: 0 <= i < bufferLength ==>
                    && output0[i] == MixSample(incoming[..j], bufferLength, receiver, LeftSide, i)
                    && output1[i] == MixSample(incoming[..j], bufferLength, receiver, RightSide, i)
        invariant sessionSetup == SessionSetup(incoming[..j], receiver)
        invariant maximumBpm == MaximumBpm(incoming[..j])
        invariant midiSignal == FoldSignals(incoming[..j])
        invariant diagnostics == AllDiagnostics(incoming[..j], bufferLength)
      {
        var client := incoming[j];
        assert incoming[..j + 1][..j] == incoming[..j];
        var found := BufferMixdown(output0, output1, client.packet, client.client == receiver);
        diagnostics := diagnostics + found;
        if client.client != receiver {
          sessionSetup := sessionSetup + client.packet.block.setup.channels;
        }
        maximumBpm := if maximumBpm < client.packet.block.bpm then client.packet.block.bpm else maximumBpm;
        if client.packet.block.midi == StartSignal && midiSignal == NoSignal {
          midiSignal := StartSignal;
        }
        if client.packet.block.midi == StopSignal {
          midiSignal := StopSignal;
        }
      }
      assert incoming[..|incoming|] == incoming;
      left, right := output0[..], output1[..];
    }
  }
}

/**
 What the server mixes for each receiver (Server/Source/ServerMixerCore.cpp), one output
 sample at a time, and the laws these mixes obey.
 */
module MixModel {
  import opened Packets

  datatype Input = Input(client: Name, packet: Packet)

  datatype Side = LeftSide | RightSide

  predicate Hears(t: Target, side: Side) {
    match t
    case Mute => false
    case Left | SendLeft => side.LeftSide?
    case Right | SendRight => side.RightSide?
    case Mono | SendMono => true
  }

  predicate SendOnly(t: Target) {
    t.SendLeft? || t.SendRight? || t.SendMono?
  }

  function Min(a: nat, b: nat): nat {
    if a < b then a else b
  }

  /** Only channels that are both sent and declared are mixed. */
  function ChannelsToMix(p: Packet): (n: nat)
    ensures n <= |p.block.audio.channels| && n <= |p.block.setup.channels|
  {
    Min(|p.block.audio.channels|, |p.block.setup.channels|)
  }

  /** The sample that channel `k` puts into every mix that includes it. */
  function ChannelSample(p: Packet, k: nat, side: Side, i: nat): real
    requires k < ChannelsToMix(p) && i < p.block.audio.length
  {
    if Hears(p.block.setup.channels[k].target, side)
    then p.block.audio.channels[k][i] * p.block.setup.channels[k].volume
    else 0.0
  }

  /** Whether a client is spared its own channel `k`. */
  predicate KeptFromSender(p: Packet, k: nat)
    requires k < ChannelsToMix(p)
  {
    SendOnly(p.block.setup.channels[k].target) || p.block.setup.dontSendEcho
  }

  /** The first `n` channels of `p` as they sound to others, or to `p`'s own sender. */
  function Share(p: Packet, n: nat, forSender: bool, side: Side, i: nat): real
    requires n <= ChannelsToMix(p) && i < p.block.audio.length
  {
    if n == 0 then 0.0
    else Share(p, n - 1, forSender, side, i)
         + if forSender && KeptFromSender(p, n - 1) then 0.0 else ChannelSample(p, n - 1, side, i)
  }

  /** What `p` adds to sample `i` of a mix of `length` samples; a block of another length adds nothing. */
  function Contribution(p: Packet, length: nat, forSender: bool, side: Side, i: nat): real
    requires i < length
  {
    if p.block.audio.length == length then Share(p, ChannelsToMix(p), forSender, side, i) else 0.0
  }

  /** Sample `i` of the mix that `receiver` gets. */
  function MixSample(inputs: seq<Input>, length: nat, receiver: Name, side: Side, i: nat): real
    requires i < length
  {
    if inputs == [] then 0.0
    else MixSample(inputs[..|inputs| - 1], length, receiver, side, i)
         + var last := inputs[|inputs| - 1];
           Contribution(last.packet, length, last.client == receiver, side, i)
  }

  /** The mix of everything, which nobody in particular receives. */
  function TotalSample(inputs: seq<Input>, length: nat, side: Side, i: nat): real
    requires i < length
  {
    if inputs == [] then 0.0
    else TotalSample(inputs[..|inputs| - 1], length, side, i)
         + Contribution(inputs[|inputs| - 1].packet, length, false, side, i)
  }

  /** The part of its own audio that `p`'s sender does not get back. */
  function WithheldSample(p: Packet, length: nat, side: Side, i: nat): real
    requires i < length
  {
    if p.block.audio.length != length then 0.0 else WithheldShare(p, ChannelsToMix(p), side, i)
  }

  function WithheldShare(p: Packet, n: nat, side: Side, i: nat): real
    requires n <= ChannelsToMix(p) && i < p.block.audio.length
  {
    if n == 0 then 0.0
    else WithheldShare(p, n - 1, side, i)
         + if KeptFromSender(p, n - 1) then ChannelSample(p, n - 1, side, i) else 0.0
  }

  ghost predicate DistinctClients(inputs: seq<Input>) {
    forall i, j :: 0 <= i < j < |inputs| ==> inputs[i].client != inputs[j].client
  }

  // ----- conservation -----

  lemma {:induction false} SharePlusWithheld(p: Packet, n: nat, side: Side, i: nat)
    requires n <= ChannelsToMix(p) && i < p.block.audio.length
    ensures Share(p, n, true, side, i) + WithheldShare(p, n, side, i) == Share(p, n, false, side, i)
  {
    if n > 0 {
      SharePlusWithheld(p, n - 1, side, i);
    }
  }

  /** Somebody who sends nothing hears the total. */
  lemma {:induction false} OutsiderHearsTotal(inputs: seq<Input>, length: nat, receiver: Name, side: Side, i: nat)
    requires i < length
    requires forall j :: 0 <= j < |inputs| ==> inputs[j].client != receiver
    ensures MixSample(inputs, length, receiver, side, i) == TotalSample(inputs, length, side, i)
  {
    if inputs != [] {
      OutsiderHearsTotal(inputs[..|inputs| - 1], length, receiver, side, i);
    }
  }

  /**
   Conservation: what a receiver gets, and what it is spared of its own audio, add up to
   one total that is the same for all receivers.
   */
  lemma {:induction false} MixPlusWithheldIsTotal(inputs: seq<Input>, length: nat, r: nat, side: Side, i: nat)
    requires i < length && r < |inputs| && DistinctClients(inputs)
    ensures MixSample(inputs, length, inputs[r].client, side, i) + WithheldSample(inputs[r].packet, length, side, i)
            == TotalSample(inputs, length, side, i)
  {
    var front, last := inputs[..|inputs| - 1], inputs[|inputs| - 1];
    if r == |inputs| - 1 {
      OutsiderHearsTotal(front, length, last.client, side, i);
      if last.packet.block.audio.length == length {
        SharePlusWithheld(last.packet, ChannelsToMix(last.packet), side, i);
      }
    } else {
      MixPlusWithheldIsTotal(front, length, r, side, i);
    }
  }

  lemma {:induction false} NoEchoNoShare(p: Packet, n: nat, side: Side, i: nat)
    requires n <= ChannelsToMix(p) && i < p.block.audio.length
    requires p.block.setup.dontSendEcho
    ensures Share(p, n, true, side, i) == 0.0
  {
    if n > 0 {
      NoEchoNoShare(p, n - 1, side, i);
    }
  }

  /** With echo off, a receiver's mix is the total of the others: its own packet does not matter. */
  lemma {:induction false} EchoOffHearsOnlyOthers(inputs: seq<Input>, length: nat, r: nat, side: Side, i: nat)
    requires i < length && r < |inputs| && DistinctClients(inputs)
    requires inputs[r].packet.block.setup.dontSendEcho
    ensures MixSample(inputs, length, inputs[r].client, side, i)
            == TotalSample(inputs[..r] + inputs[r + 1..], length, side, i)
  {
    var front, last := inputs[..|inputs| - 1], inputs[|inputs| - 1];
    var others := inputs[..r] + inputs[r + 1..];
    if r == |inputs| - 1 {
      assert others == front;
      OutsiderHearsTotal(front, length, last.client, side, i);
      if last.packet.block.audio.length == length {
        NoEchoNoShare(last.packet, ChannelsToMix(last.packet), side, i);
      }
    } else {
      EchoOffHearsOnlyOthers(front, length, r, side, i);
      assert others[..|others| - 1] == front[..r] + front[r + 1..];
    }
  }

  // ----- what is heard where -----

  /** The targets that others hear on the left and on the right, and those that their own sender hears. */
  const TO_LEFT := {Left, SendLeft, Mono, SendMono}
  const TO_RIGHT := {Right, SendRight, Mono, SendMono}
  const ECHO_LEFT := {Left, Mono}
  const ECHO_RIGHT := {Right, Mono}

  function Heard(side: Side): set<Target> {
    if side.LeftSide? then TO_LEFT else TO_RIGHT
  }

  function Echoing(side: Side): set<Target> {
    if side.LeftSide? then ECHO_LEFT else ECHO_RIGHT
  }

  /** Sample `i`, scaled, of those of the first `n` channels that have one of the `targets`. */
  function Routed(p: Packet, n: nat, targets: set<Target>, i: nat): real
    requires n <= |p.block.audio.channels| && n <= |p.block.setup.channels| && i < p.block.audio.length
  {
    if n == 0 then 0.0
    else Routed(p, n - 1, targets, i)
         + if p.block.setup.channels[n - 1].target in targets
           then p.block.audio.channels[n - 1][i] * p.block.setup.channels[n - 1].volume else 0.0
  }

  /** All channels that are sent and declared, in a mix of `length` samples: other blocks are not mixed. */
  function RoutedFrom(p: Packet, length: nat, targets: set<Target>, i: nat): real
    requires i < length
  {
    var sent, declared := |p.block.audio.channels|, |p.block.setup.channels|;
    if p.block.audio.length != length then 0.0
    else Routed(p, if sent <= declared then sent else declared, targets, i)
  }

  function RoutedTotal(inputs: seq<Input>, length: nat, targets: set<Target>, i: nat): real
    requires i < length
  {
    if inputs == [] then 0.0
    else RoutedTotal(inputs[..|inputs| - 1], length, targets, i)
         + RoutedFrom(inputs[|inputs| - 1].packet, length, targets, i)
  }

  lemma HeardTargets(t: Target, side: Side)
    ensures Hears(t, side) <==> t in Heard(side)
    ensures Hears(t, side) && !SendOnly(t) <==> t in Echoing(side)
  {}

  lemma {:induction false} ShareIsRouted(p: Packet, n: nat, side: Side, i: nat)
    requires n <= ChannelsToMix(p) && i < p.block.audio.length
    ensures Share(p, n, false, side, i) == Routed(p, n, Heard(side), i)
    ensures Share(p, n, true, side, i)
         == if p.block.setup.dontSendEcho then 0.0 else Routed(p, n, Echoing(side), i)
  {
    if n > 0 {
      ShareIsRouted(p, n - 1, side, i);
      HeardTargets(p.block.setup.channels[n - 1].target, side);
      hide Hears, SendOnly, Heard, Echoing, ChannelsToMix;
    }
  }

  /** What a packet adds for others, and what for its own sender. */
  lemma ContributionIsRouted(p: Packet, length: nat, side: Side, i: nat)
    requires i < length
    ensures Contribution(p, length, false, side, i) == RoutedFrom(p, length, Heard(side), i)
    ensures Contribution(p, length, true, side, i)
         == if p.block.setup.dontSendEcho then 0.0 else RoutedFrom(p, length, Echoing(side), i)
  {
    if p.block.audio.length == length {
      ShareIsRouted(p, ChannelsToMix(p), side, i);
    }
    hide Heard, Echoing, Routed, Share;
  }

  lemma {:induction false} TotalIsRouted(inputs: seq<Input>, length: nat, side: Side, i: nat)
    requires i < length
    ensures TotalSample(inputs, length, side, i) == RoutedTotal(inputs, length, Heard(side), i)
  {
    hide Contribution, RoutedFrom, Heard;
    if inputs != [] {
      TotalIsRouted(inputs[..|inputs| - 1], length, side, i);
      ContributionIsRouted(inputs[|inputs| - 1].packet, length, side, i);
    }
  }

  /**
   Somebody who sends nothing hears, on the left, all channels of the mix's length that go to the left
   or to both sides, each at its own volume, and on the right those that go to the right or to both.
   */
  lemma {:induction false} OutsiderHearsAllChannels(inputs: seq<Input>, length: nat, receiver: Name, i: nat)
    requires i < length
    requires forall j :: 0 <= j < |inputs| ==> inputs[j].client != receiver
    ensures MixSample(inputs, length, receiver, LeftSide, i)
         == RoutedTotal(inputs, length, {Left, SendLeft, Mono, SendMono}, i)
    ensures MixSample(inputs, length, receiver, RightSide, i)
         == RoutedTotal(inputs, length, {Right, SendRight, Mono, SendMono}, i)
  {
    OutsiderHearsTotal(inputs, length, receiver, LeftSide, i);
    OutsiderHearsTotal(inputs, length, receiver, RightSide, i);
    TotalIsRouted(inputs, length, LeftSide, i);
    TotalIsRouted(inputs, length, RightSide, i);
    hide MixSample, TotalSample, RoutedTotal;
  }

  /** In a mix for anybody, a receiver hears the others and the echo of its own packet. */
  lemma OthersPlusEcho(inputs: seq<Input>, length: nat, r: nat, side: Side, i: nat)
    requires i < length && r < |inputs| && DistinctClients(inputs)
    ensures MixSample(inputs, length, inputs[r].client, side, i)
         == RoutedTotal(inputs[..r] + inputs[r + 1..], length, Heard(side), i)
            + if inputs[r].packet.block.setup.dontSendEcho then 0.0
              else RoutedFrom(inputs[r].packet, length, Echoing(side), i)
  {
    hide Contribution, Heard, Echoing, RoutedFrom;
    var others := inputs[..r] + inputs[r + 1..];
    MixRemove(inputs, r, length, inputs[r].client, side, i);
    forall j | 0 <= j < |others| ensures others[j].client != inputs[r].client {
      assert others[j] == inputs[if j < r then j else j + 1];
    }
    OutsiderHearsTotal(others, length, inputs[r].client, side, i);
    TotalIsRouted(others, length, side, i);
    ContributionIsRouted(inputs[r].packet, length, side, i);
    hide MixSample, TotalSample, RoutedTotal;
  }

  lemma {:induction false} WithheldShareIsRouted(p: Packet, n: nat, i: nat)
    requires n <= ChannelsToMix(p) && i < p.block.audio.length
    ensures var setup := p.block.setup;
      && WithheldShare(p, n, LeftSide, i)
         == Routed(p, n, if setup.dontSendEcho then TO_LEFT else {SendLeft, SendMono}, i)
      && WithheldShare(p, n, RightSide, i)
         == Routed(p, n, if setup.dontSendEcho then TO_RIGHT else {SendRight, SendMono}, i)
  {
    if n > 0 {
      WithheldShareIsRouted(p, n - 1, i);
      hide ChannelsToMix;
    }
  }

  /** What a receiver is spared of its own channels: those that are only sent, or all if it wants no echo. */
  lemma {:induction false} SendOnlyIsWithheld(p: Packet, length: nat, i: nat)
    requires i < length
    ensures var setup := p.block.setup;
      && WithheldSample(p, length, LeftSide, i)
         == RoutedFrom(p, length, if setup.dontSendEcho then TO_LEFT else {SendLeft, SendMono}, i)
      && WithheldSample(p, length, RightSide, i)
         == RoutedFrom(p, length, if setup.dontSendEcho then TO_RIGHT else {SendRight, SendMono}, i)
  {
    if p.block.audio.length == length {
      WithheldShareIsRouted(p, ChannelsToMix(p), i);
    }
    hide WithheldShare, Routed;
  }

  // ----- the order of the clients -----

  lemma {:induction false} MixRemove(inputs: seq<Input>, k: nat, length: nat, receiver: Name, side: Side, i: nat)
    requires i < length && k < |inputs|
    ensures MixSample(inputs, length, receiver, side, i)
            == MixSample(inputs[..k] + inputs[k + 1..], length, receiver, side, i)
               + Contribution(inputs[k].packet, length, inputs[k].client == receiver, side, i)
  {
    hide Contribution;
    var front, others := inputs[..|inputs| - 1], inputs[..k] + inputs[k + 1..];
    if k == |inputs| - 1 {
      assert others == front;
    } else {
      MixRemove(front, k, length, receiver, side, i);
      assert others[..|others| - 1] == front[..k] + front[k + 1..];
    }
  }

  lemma RemoveOne(s: seq<Input>, k: nat)
    requires k < |s|
    ensures multiset(s[..k] + s[k + 1..]) == multiset(s) - multiset{s[k]}
  {
    assert s == s[..k] + [s[k]] + s[k + 1..];
  }

  lemma FindElement(a: seq<Input>, b: seq<Input>) returns (k: nat)
    requires multiset(a) == multiset(b) && a != []
    ensures k < |b| && b[k] == a[|a| - 1]
  {
    assert a[|a| - 1] in multiset(a);
    assert a[|a| - 1] in multiset(b);
    k :| 0 <= k < |b| && b[k] == a[|a| - 1];
  }

  /** A mix does not depend on the order of the clients. */
  lemma {:induction false} MixIgnoresOrder(a: seq<Input>, b: seq<Input>, length: nat, receiver: Name, side: Side,
                                           i: nat)
    requires i < length
    requires multiset(a) == multiset(b)
    ensures MixSample(a, length, receiver, side, i) == MixSample(b, length, receiver, side, i)
  {
    if a == [] {
      assert |multiset(b)| == 0;
    } else {
      hide Contribution;
      var k := FindElement(a, b);
      assert a[..|a| - 1] == a[..|a| - 1] + a[|a| - 1 + 1..];
      RemoveOne(a, |a| - 1);
      RemoveOne(b, k);
      MixIgnoresOrder(a[..|a| - 1], b[..k] + b[k + 1..], length, receiver, side, i);
      MixRemove(b, k, length, receiver, side, i);
    }
  }

  // ----- tempo and transport -----

  function MaximumBpm(inputs: seq<Input>): (m: real)
    ensures 0.0 <= m
  {
    if inputs == [] then 0.0
    else
      var m, bpm := MaximumBpm(inputs[..|inputs| - 1]), inputs[|inputs| - 1].packet.block.bpm;
      if m < bpm then bpm else m
  }

  /** The tempo of a mix: the fastest client's, or the last one known when nobody sends any. */
  function MixBpm(inputs: seq<Input>, lastBpm: real): real {
    if MaximumBpm(inputs) > 0.0 then MaximumBpm(inputs) else lastBpm
  }

  /** The signal after the loop over the clients. */
  function FoldSignals(inputs: seq<Input>): MidiSignal {
    if inputs == [] then NoSignal
    else
      var before, now := FoldSignals(inputs[..|inputs| - 1]), inputs[|inputs| - 1].packet.block.midi;
      if now == StopSignal then StopSignal
      else if now == StartSignal && before == NoSignal then StartSignal
      else before
  }

  predicate Sends(inputs: seq<Input>, signal: MidiSignal) {
    exists k :: 0 <= k < |inputs| && inputs[k].packet.block.midi == signal
  }

  /** A stop wins over any start, a start over silence, in whatever order they come. */
  lemma {:induction false} StopWins(inputs: seq<Input>)
    ensures FoldSignals(inputs) == if Sends(inputs, StopSignal) then StopSignal
                                   else if Sends(inputs, StartSignal) then StartSignal
                                   else NoSignal
  {
    if inputs != [] {
      var front := inputs[..|inputs| - 1];
      StopWins(front);
      SendsGrows(inputs, StopSignal);
      SendsGrows(inputs, StartSignal);
    }
  }

  lemma SendsGrows(inputs: seq<Input>, signal: MidiSignal)
    requires inputs != []
    ensures Sends(inputs, signal) <==>
              Sends(inputs[..|inputs| - 1], signal) || inputs[|inputs| - 1].packet.block.midi == signal
  {
    var front := inputs[..|inputs| - 1];
    assert forall k :: 0 <= k < |front| ==> front[k] == inputs[k];
    if Sends(front, signal) {
      var k :| 0 <= k < |front| && front[k].packet.block.midi == signal;
      assert inputs[k].packet.block.midi == signal;
    }
  }

  /** The tempo is one of the clients' and none is faster, unless no client sends a positive one. */
  lemma {:induction false} FastestWins(inputs: seq<Input>)
    ensures forall k :: 0 <= k < |inputs| ==> inputs[k].packet.block.bpm <= MaximumBpm(inputs)
    ensures MaximumBpm(inputs) > 0.0 ==>
              exists k :: 0 <= k < |inputs| && inputs[k].packet.block.bpm == MaximumBpm(inputs)
  {
    if inputs != [] {
      var front := inputs[..|inputs| - 1];
      FastestWins(front);
      forall k | 0 <= k < |inputs| ensures inputs[k].packet.block.bpm <= MaximumBpm(inputs) {
        if k < |front| { assert front[k] == inputs[k]; }
      }
      if MaximumBpm(inputs) == MaximumBpm(front) > 0.0 {
        var k :| 0 <= k < |front| && front[k].packet.block.bpm == MaximumBpm(front);
        assert inputs[k].packet.block.bpm == MaximumBpm(inputs);
      }
    }
  }

  lemma SameSends(a: seq<Input>, b: seq<Input>, signal: MidiSignal)
    requires multiset(a) == multiset(b)
    requires Sends(a, signal)
    ensures Sends(b, signal)
  {
    var k :| 0 <= k < |a| && a[k].packet.block.midi == signal;
    assert a[k] in multiset(a);
    assert a[k] in multiset(b);
  }

  lemma BpmAtMost(a: seq<Input>, b: seq<Input>)
    requires multiset(a) == multiset(b)
    ensures MaximumBpm(a) <= MaximumBpm(b)
  {
    FastestWins(a);
    FastestWins(b);
    if MaximumBpm(a) > 0.0 {
      var k :| 0 <= k < |a| && a[k].packet.block.bpm == MaximumBpm(a);
      assert a[k] in multiset(a);
      assert a[k] in multiset(b);
    }
  }

  /** Tempo and transport do not depend on the order of the clients. */
  lemma ControlIgnoresOrder(a: seq<Input>, b: seq<Input>, lastBpm: real)
    requires multiset(a) == multiset(b)
    ensures MixBpm(a, lastBpm) == MixBpm(b, lastBpm)
    ensures FoldSignals(a) == FoldSignals(b)
  {
    BpmAtMost(a, b);
    BpmAtMost(b, a);
    StopWins(a);
    StopWins(b);
    forall signal ensures Sends(a, signal) <==> Sends(b, signal) {
      if Sends(a, signal) { SameSends(a, b, signal); }
      if Sends(b, signal) { SameSends(b, a, signal); }
    }
  }
}

/**
 What becomes of a client's wish for no echo: through the wire (`WireFormat`) into the server's
 mix (`MixModel`). The flag is written and not read again, so it never reaches the mixer.
 */
module EchoPath {
  import opened Packets
  import opened MixModel
  import opened WireFormat

  function WithEchoFlag(p: Packet, dontSendEcho: bool): Packet {
    p.(block := p.block.(setup := p.block.setup.(dontSendEcho := dontSendEcho)))
  }

  /** The server receives the same packet, whatever the client wished. */
  lemma EchoFlagNeverArrives(p: Packet, dontSendEcho: bool)
    ensures Received(WithEchoFlag(p, dontSendEcho)) == Received(p)
    ensures !Received(p).block.setup.dontSendEcho
  {}

  /** All packets have come over the wire. */
  ghost predicate OverTheWire(inputs: seq<Input>, sent: seq<Packet>) {
    |inputs| == |sent| && forall j :: 0 <= j < |inputs| ==> inputs[j].packet == Received(sent[j])
  }

  /** A received packet is the sent one, except for the flag. */
  lemma ReceivedSetup(p: Packet)
    ensures var q := Received(p);
      && q.block.audio == p.block.audio && q.block.setup.channels == p.block.setup.channels
      && ChannelsToMix(q) == ChannelsToMix(p) && !q.block.setup.dontSendEcho
  {}

  lemma {:induction false} ReceivedIsRouted(p: Packet, n: nat, targets: set<Target>, i: nat)
    requires n <= ChannelsToMix(p) && i < p.block.audio.length
    requires ChannelsToMix(Received(p)) == ChannelsToMix(p) && Received(p).block.audio == p.block.audio
    ensures Routed(Received(p), n, targets, i) == Routed(p, n, targets, i)
  {
    hide AudioOnWire, ChannelsToMix;
    if n > 0 {
      ReceivedIsRouted(p, n - 1, targets, i);
    }
  }

  /**
   Every receiver of packets that came over the wire hears the total of the others plus the full
   echo of its own channels that are neither muted nor send-only, whether or not it asked for
   none. So it hears only the others if and only if that echo happens to be zero.
   */
  lemma {:induction false} WireHearsOthersAndEcho(inputs: seq<Input>, sent: seq<Packet>, length: nat, r: nat,
                                                  side: Side, i: nat)
    requires i < length && r < |inputs| && DistinctClients(inputs) && OverTheWire(inputs, sent)
    ensures var others := RoutedTotal(inputs[..r] + inputs[r + 1..], length, Heard(side), i);
      var echo := RoutedFrom(sent[r], length, Echoing(side), i);
      && MixSample(inputs, length, inputs[r].client, side, i) == others + echo
      && (MixSample(inputs, length, inputs[r].client, side, i) == others <==> echo == 0.0)
  {
    ReceivedSetup(sent[r]);
    OthersPlusEcho(inputs, length, r, side, i);
    if sent[r].block.audio.length == length {
      ReceivedIsRouted(sent[r], ChannelsToMix(sent[r]), Echoing(side), i);
    }
    hide MixSample, RoutedTotal, Routed, ChannelsToMix, Received, DistinctClients, Echoing, Heard;
    assert inputs[r].packet == Received(sent[r]);
  }

  /** The wish that a client can express: channels that are muted or send-only have no echo. */
  lemma {:induction false} QuietChannelsHaveNoEcho(p: Packet, n: nat, side: Side, i: nat)
    requires n <= ChannelsToMix(p) && i < p.block.audio.length
    requires forall k :: 0 <= k < n ==> p.block.setup.channels[k].target in {Mute, SendLeft, SendRight, SendMono}
    ensures Routed(p, n, Echoing(side), i) == 0.0
  {
    if n > 0 {
      QuietChannelsHaveNoEcho(p, n - 1, side, i);
    }
  }

  /** One mono channel of ones, from a client that asks for no echo. */
  const CLICK := Packet(Block(1, 0.0, 0, 0.0, NoSignal, ChannelSetup(true, [Channel(Mono, 1.0)]),
                              RawAudio(1, [[1.0]])), None)

  /** It hears nobody but itself, although `MixModel.EchoOffHearsOnlyOthers` would give it silence. */
  lemma UnwantedEcho(client: Name, side: Side)
    ensures CLICK.block.setup.dontSendEcho
    ensures MixSample([Input(client, Received(CLICK))], 1, client, side, 0) == 1.0
    ensures MixSample([Input(client, CLICK)], 1, client, side, 0) == 0.0
  {
    var inputs := [Input(client, Received(CLICK))];
    WireHearsOthersAndEcho(inputs, [CLICK], 1, 0, side, 0);
    assert inputs[..0] + inputs[1..] == [];
    assert Routed(CLICK, 1, Echoing(side), 0) == Routed(CLICK, 0, Echoing(side), 0) + 1.0;
    var asked := [Input(client, CLICK)];
    EchoOffHearsOnlyOthers(asked, 1, 0, side, 0);
    assert asked[..0] + asked[1..] == [];
  }
}

/**
 Audio packets as the server and the clients exchange them
 (common/JammerNetzPackage.h, common/JammerNetzPackage.cpp).

 Message counters and server times are the source's unsigned 64-bit integers, so
 `Next` and `Previous` wrap around at the ends of the range. Samples are reals.
 */
module Packets {

  datatype Option<+T> = None | Some(value: T)

  const U64_LIMIT: nat := 0x1_0000_0000_0000_0000
  const SAMPLE_BUFFER_SIZE: nat := 128
  const SAMPLE_RATE: nat := 48000

  /** An unsigned 64-bit integer. */
  type Counter = c: nat | c < U64_LIMIT

  function Next(c: Counter): Counter {
    if c + 1 == U64_LIMIT then 0 else c + 1
  }

  function Previous(c: Counter): Counter {
    if c == 0 then U64_LIMIT - 1 else c - 1
  }

  function Max(a: nat, b: nat): nat {
    if a < b then b else a
  }

  lemma {:induction false} SubsetSize<T>(a: set<T>, b: set<T>)
    requires a <= b
    ensures |a| <= |b|
  {
    if x :| x in a {
      SubsetSize(a - {x}, b - {x});
    }
  }

  /** A client's address, in the order in which the server's maps list them. */
  type Name = nat

  datatype MidiSignal = NoSignal | StartSignal | StopSignal

  datatype Target = Mute | Left | Right | Mono | SendMono | SendLeft | SendRight

  datatype Channel = Channel(target: Target, volume: real)

  datatype ChannelSetup = ChannelSetup(dontSendEcho: bool, channels: seq<Channel>)

  /** An audio buffer: every channel holds `length` samples. */
  datatype RawAudio = RawAudio(length: nat, channels: seq<seq<real>>)

  ghost predicate WellFormed(a: RawAudio) {
    forall c :: 0 <= c < |a.channels| ==> |a.channels[c]| == a.length
  }

  type Audio = a: RawAudio | WellFormed(a) witness RawAudio(0, [])

  /** The buffer after `AudioBuffer::clear`: the same shape, all samples zero. */
  function Silence(a: Audio): (s: Audio) {
    RawAudio(a.length, seq(|a.channels|, _ => seq(a.length, _ => 0.0)))
  }

  /** Samples that nobody can hear, in a buffer of the shape of `a`. */
  ghost predicate IsSilent(s: Audio, a: Audio) {
    && s.length == a.length && |s.channels| == |a.channels|
    && forall c, i :: 0 <= c < |s.channels| && 0 <= i < s.length ==> s.channels[c][i] == 0.0
  }

  lemma SilenceIsSilent(a: Audio)
    ensures IsSilent(Silence(a), a)
  {}

  lemma SilenceIsUnique(s: Audio, a: Audio)
    requires IsSilent(s, a)
    ensures s == Silence(a)
  {
    forall c | 0 <= c < |s.channels| ensures s.channels[c] == Silence(a).channels[c] {
      assert |s.channels[c]| == s.length;
    }
  }

  datatype Block = Block(
    counter: Counter,
    timestamp: real,
    serverTime: Counter,
    bpm: real,
    midi: MidiSignal,
    setup: ChannelSetup,
    audio: Audio)

  /** One audio block, and optionally a redundant copy of an earlier one. */
  datatype Packet = Packet(block: Block, fec: Option<Block>) {
    function Counter(): Counter {
      block.counter
    }

    /** The redundant block is the one with this counter. */
    predicate CanHeal(c: Counter) {
      fec.Some? && fec.value.counter == c
    }
  }

  /**
   The server time `frames` frames of `samples` samples earlier, computed with the
   source's guard against 64-bit overflow.
   */
  function Rewind(time: Counter, samples: nat, frames: Counter): (r: Counter)
    requires 0 < frames
  {
    var missing := if samples <= (U64_LIMIT - 1) / frames then samples * frames else U64_LIMIT - 1;
    if time >= missing then time - missing else 0
  }

  /** The guarded computation is the exact difference, cut off at zero. */
  lemma {:induction false} RewindIsExact(time: Counter, samples: nat, frames: Counter)
    requires 0 < frames
    ensures Rewind(time, samples, frames) == if time >= samples * frames then time - samples * frames else 0
  {
    var q := (U64_LIMIT - 1) / frames;
    if samples <= q {
      MulMonotone(samples, q, frames);
    } else {
      MulMonotone(q + 1, samples, frames);
    }
  }

  lemma MulMonotone(a: nat, b: nat, c: nat)
    requires a <= b
    ensures a * c <= b * c
  {
    assert b * c == a * c + (b - a) * c;
  }

  /** The packet that stands in for the missing packet with counter `c`. */
  function FillIn(p: Packet, c: Counter): (r: Packet)
  {
    if p.CanHeal(c) then
      Packet(p.fec.value, None)
    else
      var frames := if p.Counter() > c then p.Counter() - c else 1;
      Packet(p.block.(counter := c,
                      serverTime := Rewind(p.block.serverTime, p.block.audio.length, frames),
                      midi := NoSignal),
             None)
  }

  /**
   A fill-in without redundant data gets the server time that its lost packet had, if the
   server time advances by one block for each counter.
   */
  lemma FillInTimeIsContiguous(p: Packet, c: Counter, start: int)
    requires c < p.Counter() && !p.CanHeal(c)
    requires p.block.serverTime == start + p.Counter() * p.block.audio.length
    requires 0 <= start + c * p.block.audio.length
    ensures FillIn(p, c).block.serverTime == start + c * p.block.audio.length
    ensures FillIn(p, c).Counter() == c && FillIn(p, c).block.midi == NoSignal
  {
    var n := p.block.audio.length;
    RewindIsExact(p.block.serverTime, n, p.Counter() - c);
    assert n * (p.Counter() - c) == p.Counter() * n - c * n;
  }

  /** Silent padding placed in front of a client's first packet. */
  function PrePadding(p: Packet): (r: Packet) {
    Packet(Block(Previous(p.Counter()), p.block.timestamp, 0, 0.0, NoSignal, p.block.setup, Silence(p.block.audio)),
           None)
  }

  /** A packet whose own samples were cleared. */
  function Cleared(p: Packet): Packet {
    p.(block := p.block.(audio := Silence(p.block.audio)))
  }

  /**
   What is left of the queued packet `p` once the fill-in for `c` that was made
   from it is cleared: a fill-in shares its sample buffer with the block it was
   copied from.
   */
  function ClearedThroughFillIn(p: Packet, c: Counter): (r: Packet)
    ensures r.Counter() == p.Counter()
  {
    if p.CanHeal(c) then
      p.(fec := Some(p.fec.value.(audio := Silence(p.fec.value.audio))))
    else
      Cleared(p)
  }
}

/**
 How an audio packet changes between its sender and its receiver: what
 `JammerNetzAudioData::serialize` and the deserialising constructor do to a block
 (common/JammerNetzPackage.cpp), apart from FlatBuffers and the conversion to 16 bits.
 */
module WireFormat {
  import opened Packets

  const MAXFRAMESIZE: nat := 65536
  const FEC_SAMPLERATE_REDUCTION: nat := 2

  /** Every `k`-th sample. */
  function Decimated(s: seq<real>, k: nat): (r: seq<real>)
    requires k > 0
    ensures |r| == |s| / k
  {
    seq(|s| / k, i requires 0 <= i < |s| / k => (ScaledWithin(i, |s|, k); s[i * k]))
  }

  lemma ScaledWithin(i: nat, n: nat, k: nat)
    requires k > 0 && i < n / k
    ensures i * k + k <= n
  {
    assert n == n / k * k + n % k;
    assert (i + 1) * k <= n / k * k by {
      assert (n / k - i - 1) * k >= 0;
    }
  }

  /** Every sample `k` times. */
  function Held(s: seq<real>, k: nat): (r: seq<real>)
    ensures |r| == |s| * k
  {
    seq(|s| * k, i requires 0 <= i < |s| * k => (QuotientWithin(i, |s|, k); s[i / k]))
  }

  lemma QuotientWithin(i: nat, n: nat, k: nat)
    requires i < n * k
    ensures k > 0 && i / k < n
  {
    assert k == 0 ==> n * k == 0;
    assert i == i / k * k + i % k;
  }

  lemma SmallMultiple(d: int, k: nat)
    requires 0 - k < d * k < k
    ensures d == 0
  {
    assert d >= 1 ==> d * k >= k;
    assert d <= -1 ==> d * k <= 0 - k;
  }

  lemma QuotientOfScaled(i: nat, j: nat, k: nat)
    requires j < k
    ensures (i * k + j) / k == i
  {
    var n := i * k + j;
    var q, r := n / k, n % k;
    assert n == q * k + r;
    assert (q - i) * k == q * k - i * k;
    SmallMultiple(q - i, k);
  }

  /** Decimation undoes holding: sending a received block again changes nothing more. */
  lemma {:induction false} DecimatedHeld(s: seq<real>, k: nat)
    requires k > 0
    ensures Decimated(Held(s, k), k) == s
  {
    QuotientOfScaled(|s|, 0, k);
    forall i | 0 <= i < |s| ensures Decimated(Held(s, k), k)[i] == s[i] {
      QuotientOfScaled(i, 0, k);
      ScaledWithin(i, |s| * k, k);
    }
  }

  /** A held sample is the one at the beginning of its group. */
  lemma HeldDecimated(s: seq<real>, k: nat, i: nat)
    requires k > 0 && i < |s| / k * k
    ensures i - i % k < |s|
    ensures Held(Decimated(s, k), k)[i] == s[i - i % k]
  {
    QuotientWithin(i, |s| / k, k);
    ScaledWithin(i / k, |s|, k);
    assert i / k * k == i - i % k;
  }

  /** The loop of `appendAudioBuffer` that leaves out samples. */
  method Decimate(read: array<real>, reductionFactor: nat) returns (output: seq<real>)
    requires reductionFactor == FEC_SAMPLERATE_REDUCTION && read.Length <= 2 * MAXFRAMESIZE
    ensures output == Decimated(read[..], reductionFactor)
  {
    var tempBuffer := new real[MAXFRAMESIZE];
    var outputSamples := read.Length / 2;
    var i := 0;
    while i < read.Length
      invariant i % reductionFactor == 0 && i <= read.Length + 1
      invariant forall j :: 0 <= j < i / reductionFactor ==> tempBuffer[j] == read[2 * j]
    {
      tempBuffer[i / reductionFactor] := read[i];
      i := i + reductionFactor;
    }
    return tempBuffer[..outputSamples];
  }

  /** Where the loops of `readAudioBytes` write for sample `i`. */
  predicate Writes(i: nat, k: nat, slot: nat) {
    i * k <= slot < i * k + k
  }

  /** The writes for one vector of `count` samples stay inside `length` if and only if it fits, repeated. */
  lemma WritesStayInside(count: nat, k: nat, length: nat)
    ensures (forall i: nat, slot: nat :: i < count && Writes(i, k, slot) ==> slot < length) <==> count * k <= length
  {
    if count * k <= length {
      forall i: nat, slot: nat | i < count && Writes(i, k, slot) ensures slot < length {
        RoomForGroup(i, count, k);
      }
    } else {
      assert count > 0 && k > 0 by {
        assert count == 0 || k == 0 ==> count * k == 0;
      }
      RoomForGroup(count - 1, count, k);
      assert Writes(count - 1, k, (count - 1) * k + (k - 1));
    }
  }

  /** Every write of `readAudioBytes` goes to a declared channel and a slot of its buffer. */
  ghost predicate BlockStaysInside(counts: seq<nat>, k: nat, channels: nat, length: nat) {
    forall c: nat, i: nat, slot: nat :: c < |counts| && i < counts[c] && Writes(i, k, slot) ==>
      c < channels && slot < length
  }

  /** Every received vector belongs to a declared channel and fits, repeated, unless there is nothing to write. */
  ghost predicate BlockFits(counts: seq<nat>, k: nat, channels: nat, length: nat) {
    forall c: nat :: c < |counts| && counts[c] > 0 && k > 0 ==> c < channels && counts[c] * k <= length
  }

  lemma ChannelStaysInside(counts: seq<nat>, k: nat, channels: nat, length: nat, c: nat)
    requires BlockStaysInside(counts, k, channels, length)
    requires c < |counts| && counts[c] > 0 && k > 0
    ensures c < channels && counts[c] * k <= length
  {
    assert Writes(0, k, 0);
    WritesStayInside(counts[c], k, length);
  }

  /**
   The buffer has the declared channels and the declared length; the loops go over the received
   vectors, of `counts` samples. No write is out of bounds if and only if each vector with samples
   belongs to a declared channel and fits, repeated. (With a received rate above 48000, `k` is zero
   and nothing is written.)
   */
  lemma BlockStaysInsideExactlyWhenItFits(counts: seq<nat>, k: nat, channels: nat, length: nat)
    ensures BlockStaysInside(counts, k, channels, length) <==> BlockFits(counts, k, channels, length)
  {
    if BlockStaysInside(counts, k, channels, length) {
      forall c: nat | c < |counts| && counts[c] > 0 && k > 0 ensures c < channels && counts[c] * k <= length {
        ChannelStaysInside(counts, k, channels, length, c);
      }
    }
    if BlockFits(counts, k, channels, length) {
      forall c: nat, i: nat, slot: nat | c < |counts| && i < counts[c] && Writes(i, k, slot)
        ensures c < channels && slot < length
      {
        WritesStayInside(counts[c], k, length);
      }
    }
  }

  /** One declared channel of 128 samples, and two received vectors that fit it: the second has no buffer. */
  lemma UndeclaredChannelIsOutside()
    ensures !BlockStaysInside([64, 64], 2, 1, SAMPLE_BUFFER_SIZE)
    ensures forall c: nat :: c < |[64, 64]| ==> [64, 64][c] * 2 <= SAMPLE_BUFFER_SIZE
  {
    BlockStaysInsideExactlyWhenItFits([64, 64], 2, 1, SAMPLE_BUFFER_SIZE);
    assert [64, 64][1] == 64;
  }

  /** The loops of `readAudioBytes` that repeat samples, wherever they stay inside the buffer. */
  method Hold(samples: seq<real>, upsampleRate: nat, write: array<real>)
    requires |samples| * upsampleRate <= write.Length
    modifies write
    ensures write[..] == Held(samples, upsampleRate) + old(write[|samples| * upsampleRate..])
  {
    ghost var beyond := write[|samples| * upsampleRate..];
    for i := 0 to |samples|
      invariant i * upsampleRate <= |samples| * upsampleRate
      invariant write[..i * upsampleRate] == Held(samples[..i], upsampleRate)
      invariant write[|samples| * upsampleRate..] == beyond
    {
      HeldGrows(samples, i, upsampleRate);
      RoomForGroup(i, |samples|, upsampleRate);
      HoldSample(samples[i], upsampleRate, write, i * upsampleRate, |samples| * upsampleRate);
    }
    assert samples[..|samples|] == samples;
    assert write[..] == write[..|samples| * upsampleRate] + write[|samples| * upsampleRate..];
  }

  lemma RoomForGroup(i: nat, n: nat, k: nat)
    requires i < n
    ensures i * k + k == (i + 1) * k <= n * k
  {
    MulMonotone(i + 1, n, k);
  }

  /** The inner loop: one sample, `count` times from `start` on, and nothing from `end` on. */
  method HoldSample(sample: real, count: nat, write: array<real>, start: nat, ghost end: nat)
    requires start + count <= end <= write.Length
    modifies write
    ensures write[..start + count] == old(write[..start]) + seq(count, _ => sample)
    ensures write[end..] == old(write[end..])
  {
    for j := 0 to count
      invariant write[..start] == old(write[..start])
      invariant write[end..] == old(write[end..])
      invariant forall m :: start <= m < start + j ==> write[m] == sample
    {
      write[start + j] := sample;
    }
  }

  lemma HeldGrows(s: seq<real>, n: nat, k: nat)
    requires n < |s|
    ensures Held(s[..n + 1], k) == Held(s[..n], k) + seq(k, _ => s[n])
  {
    var r := Held(s[..n + 1], k);
    assert |r| == n * k + k;
    forall i | 0 <= i < |r| ensures r[i] == (Held(s[..n], k) + seq(k, _ => s[n]))[i] {
      if i < n * k {
        QuotientWithin(i, n, k);
      } else {
        QuotientOfScaled(n, i - n * k, k);
      }
    }
  }

  // ----- blocks and packets -----

  function ChannelOnWire(s: seq<real>, k: nat): (r: seq<real>)
    requires k > 0
  {
    if k == 1 then s else Held(Decimated(s, k), k)
  }

  function AudioOnWire(a: Audio, k: nat): (r: Audio)
    requires k > 0
    ensures k == 1 ==> r == a
  {
    assert k == 1 ==> a.length / k * k == a.length;
    RawAudio(a.length / k * k,
             seq(|a.channels|, c requires 0 <= c < |a.channels| => ChannelOnWire(a.channels[c], k)))
  }

  /**
   A block as its receiver reads it. Whether the sender wants no echo is written, but not
   read again.
   */
  function OnWire(b: Block, k: nat): (r: Block)
    requires k > 0
    ensures r.counter == b.counter
  {
    b.(setup := b.setup.(dontSendEcho := false), audio := AudioOnWire(b.audio, k))
  }

  function Received(p: Packet): (r: Packet)
    ensures r.Counter() == p.Counter()
  {
    Packet(OnWire(p.block, 1),
           match p.fec
           case Some(b) => Some(OnWire(b, FEC_SAMPLERATE_REDUCTION))
           case None => None)
  }

  /** The main block arrives as it was sent, exactly unless its sender asked for no echo. */
  lemma MainBlockSurvives(p: Packet)
    ensures Received(p).block == p.block <==> !p.block.setup.dontSendEcho
  {}

  /** The redundant block of 128 samples arrives with every second sample replaced by the one before it. */
  lemma RedundantBlockLosesResolution(p: Packet, c: nat, i: nat)
    requires p.fec.Some? && p.fec.value.audio.length == SAMPLE_BUFFER_SIZE
    requires c < |p.fec.value.audio.channels| && i < SAMPLE_BUFFER_SIZE
    ensures var sent, got := p.fec.value.audio, Received(p).fec.value.audio;
      && got.length == sent.length && |got.channels| == |sent.channels|
      && |got.channels[c]| == |sent.channels[c]| == SAMPLE_BUFFER_SIZE
      && got.channels[c][i] == sent.channels[c][i - i % 2]
      && Received(p).fec.value == p.fec.value.(setup := p.fec.value.setup.(dontSendEcho := false), audio := got)
  {
    HeldDecimated(p.fec.value.audio.channels[c], FEC_SAMPLERATE_REDUCTION, i);
  }
}

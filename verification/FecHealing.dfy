/**
 Forward error correction from end to end: the packets that the send thread addresses to one
 client (`SendThreads`), on the wire (`WireFormat`), through a network that delivers in order
 and never loses two packets in a row, into the client's packet queue (`StreamQueueModel`).
 */
module FecHealing {
  import opened Packets
  import opened StreamQueueModel
  import opened SendThreads
  import opened WireFormat

  /** What the send thread makes of the packages for `target` while FEC is on. */
  function StreamTo(sent: seq<OutgoingPackage>, target: Name): (packets: seq<Packet>)
  {
    if sent == [] then []
    else
      var before, p := sent[..|sent| - 1], sent[|sent| - 1];
      var rest := StreamTo(before, target);
      if p.target == target then rest + [Attached(before, p, true)] else rest
  }

  /** The `i`-th packet of a stream with these blocks: each carries the block before it. */
  function PacketAt(blocks: seq<Block>, i: nat): (p: Packet)
    requires i < |blocks|
    ensures p.Counter() == blocks[i].counter
  {
    Packet(blocks[i], if i == 0 then None else Some(blocks[i - 1]))
  }

  /** Whatever goes to other addresses in between. */
  lemma {:induction false} StreamIsChained(sent: seq<OutgoingPackage>, target: Name)
    ensures |StreamTo(sent, target)| == |BlocksTo(sent, target)|
    ensures forall i :: 0 <= i < |StreamTo(sent, target)| ==>
              StreamTo(sent, target)[i] == PacketAt(BlocksTo(sent, target), i)
  {
    if sent != [] {
      StreamIsChained(sent[..|sent| - 1], target);
    }
  }

  /** The counters of the blocks follow each other. */
  ghost predicate Consecutive(blocks: seq<Block>) {
    forall i :: 0 <= i < |blocks| ==> blocks[i].counter == blocks[0].counter + i
  }

  // ----- the network and the receiver -----

  datatype Event = Arrival | Loss | Pull

  /** `arrived[i]`: whether packet `i` of the stream was delivered. */
  datatype Link = Link(arrived: seq<bool>, queue: Queue, output: seq<Emission>)

  const IDLE := Link([], EMPTY_QUEUE, [])

  function Step(stream: seq<Packet>, s: Link, e: Event): Link {
    match e
    case Arrival =>
      if |s.arrived| < |stream| then
        s.(arrived := s.arrived + [true], queue := Pushed(s.queue, Received(stream[|s.arrived|])))
      else s
    case Loss =>
      if |s.arrived| < |stream| then s.(arrived := s.arrived + [false]) else s
    case Pull =>
      if s.queue.heap == [] then s
      else s.(queue := Pop(s.queue).queue, output := s.output + [Emission(Pop(s.queue).packet, Pop(s.queue).isFillIn)])
  }

  function Run(stream: seq<Packet>, events: seq<Event>): Link {
    if events == [] then IDLE
    else Step(stream, Run(stream, events[..|events| - 1]), events[|events| - 1])
  }

  ghost predicate NoAdjacentLosses(arrived: seq<bool>) {
    forall i :: 0 <= i < |arrived| - 1 ==> arrived[i] || arrived[i + 1]
  }

  /** The delivered packet that is last in the stream. */
  function LastArrived(arrived: seq<bool>): int {
    if arrived == [] then -1
    else if arrived[|arrived| - 1] then |arrived| - 1
    else |arrived| - 2
  }

  // ----- the invariant -----

  /** From counter `a` to counter `b` it is one step, or two over a lost packet. */
  ghost predicate Steps(base: nat, arrived: seq<bool>, a: nat, b: nat) {
    b == a + 1 || (b == a + 2 && base <= a + 1 < base + |arrived| && !arrived[a + 1 - base])
  }

  /** A queued packet is the delivered packet of the stream that has its counter. */
  ghost predicate Genuine(blocks: seq<Block>, base: nat, arrived: seq<bool>, p: Packet) {
    && base <= p.Counter() < base + |arrived|
    && |arrived| <= |blocks|
    && arrived[p.Counter() - base]
    && p == Received(PacketAt(blocks, p.Counter() - base))
  }

  ghost predicate QueueFollows(blocks: seq<Block>, base: nat, arrived: seq<bool>, heap: seq<Packet>) {
    && (forall p :: p in heap ==> Genuine(blocks, base, arrived, p))
    && (forall i, j :: 0 <= i && j == i + 1 && j < |heap| ==>
          Steps(base, arrived, heap[i].Counter(), heap[j].Counter()))
    && (heap != [] ==> heap[|heap| - 1].Counter() == base + LastArrived(arrived))
  }

  ghost predicate Continues(base: nat, arrived: seq<bool>, q: Queue) {
    && q.stats.dropped == 0 && q.gap <= 1
    && (q.lastData.None? ==> q.lastPopped == 0 && q.gap == 0)
    && (q.lastData.Some? ==>
          && base <= q.lastPopped
          && (q.heap == [] ==> q.lastPopped == base + LastArrived(arrived))
          && (q.heap != [] ==> Steps(base, arrived, q.lastPopped, q.heap[0].Counter()))
          && (q.gap == 1 ==> q.heap != [] && q.heap[0].Counter() == q.lastPopped + 1))
  }

  /** What may come out at one place: the delivered packet, or the redundant copy of the lost block. */
  ghost predicate Healed(blocks: seq<Block>, base: nat, arrived: seq<bool>, o: Emission) {
    && base <= o.packet.Counter() < base + |arrived|
    && |arrived| <= |blocks|
    && var i := o.packet.Counter() - base;
      && o.fillIn == !arrived[i]
      && o.packet == if arrived[i] then Received(PacketAt(blocks, i))
                     else Packet(OnWire(blocks[i], FEC_SAMPLERATE_REDUCTION), None)
  }

  ghost predicate OutputFollows(blocks: seq<Block>, base: nat, arrived: seq<bool>, q: Queue, output: seq<Emission>) {
    && (forall o :: o in output ==> Healed(blocks, base, arrived, o))
    && (forall i, j :: 0 <= i && j == i + 1 && j < |output| ==>
          output[j].packet.Counter() == output[i].packet.Counter() + 1)
    && (output != [] ==> q.lastData.Some? && output[|output| - 1].packet.Counter() == q.lastPopped)
  }

  ghost predicate Inv(blocks: seq<Block>, s: Link)
    requires blocks != []
  {
    var base := blocks[0].counter;
    && |s.arrived| <= |blocks|
    && Valid(s.queue)
    && QueueFollows(blocks, base, s.arrived, s.queue.heap)
    && Continues(base, s.arrived, s.queue)
    && OutputFollows(blocks, base, s.arrived, s.queue, s.output)
  }

  // ----- arrivals and losses -----

  lemma GenuineStays(blocks: seq<Block>, base: nat, arrived: seq<bool>, p: Packet, b: bool)
    requires Genuine(blocks, base, arrived, p) && |arrived| < |blocks|
    ensures Genuine(blocks, base, arrived + [b], p)
  {
    hide Received, PacketAt;
  }

  lemma HealedStays(blocks: seq<Block>, base: nat, arrived: seq<bool>, o: Emission, b: bool)
    requires Healed(blocks, base, arrived, o) && |arrived| < |blocks|
    ensures Healed(blocks, base, arrived + [b], o)
  {
    hide Received, PacketAt, OnWire;
  }

  lemma StepsStay(base: nat, arrived: seq<bool>, a: nat, b: nat, flag: bool)
    requires Steps(base, arrived, a, b)
    ensures Steps(base, arrived + [flag], a, b)
  {}

  lemma OutputStays(blocks: seq<Block>, base: nat, arrived: seq<bool>, q: Queue, output: seq<Emission>, b: bool)
    requires OutputFollows(blocks, base, arrived, q, output) && |arrived| < |blocks|
    ensures OutputFollows(blocks, base, arrived + [b], q, output)
  {
    hide Healed;
    forall o | o in output ensures Healed(blocks, base, arrived + [b], o) {
      HealedStays(blocks, base, arrived, o, b);
    }
  }

  lemma QueueStays(blocks: seq<Block>, base: nat, arrived: seq<bool>, heap: seq<Packet>)
    requires QueueFollows(blocks, base, arrived, heap) && |arrived| < |blocks|
    requires arrived == [] || arrived[|arrived| - 1]
    ensures QueueFollows(blocks, base, arrived + [false], heap)
  {
    hide Genuine, Steps;
    forall p | p in heap ensures Genuine(blocks, base, arrived + [false], p) {
      GenuineStays(blocks, base, arrived, p, false);
    }
    forall i, j | 0 <= i && j == i + 1 && j < |heap|
      ensures Steps(base, arrived + [false], heap[i].Counter(), heap[j].Counter())
    {
      StepsStay(base, arrived, heap[i].Counter(), heap[j].Counter(), false);
    }
    if arrived == [] {
      NoneWithoutArrivals(blocks, base, heap);
    }
  }

  lemma NoneWithoutArrivals(blocks: seq<Block>, base: nat, heap: seq<Packet>)
    requires QueueFollows(blocks, base, [], heap)
    ensures heap == []
  {
    HeadIsElement(heap);
  }

  lemma ContinuesAfterLoss(base: nat, arrived: seq<bool>, q: Queue)
    requires Continues(base, arrived, q)
    requires if arrived == [] then q.heap == [] else arrived[|arrived| - 1]
    ensures Continues(base, arrived + [false], q)
  {
    hide Steps;
    if q.lastData.Some? && q.heap != [] {
      StepsStay(base, arrived, q.lastPopped, q.heap[0].Counter(), false);
    }
  }

  lemma LossKeepsInv(blocks: seq<Block>, s: Link)
    requires blocks != [] && Inv(blocks, s) && |s.arrived| < |blocks|
    requires s.arrived == [] || s.arrived[|s.arrived| - 1]
    ensures Inv(blocks, s.(arrived := s.arrived + [false]))
  {
    hide QueueFollows, Continues, OutputFollows, Valid;
    var base := blocks[0].counter;
    QueueStays(blocks, base, s.arrived, s.queue.heap);
    if s.arrived == [] {
      NoneWithoutArrivals(blocks, base, s.queue.heap);
    }
    ContinuesAfterLoss(base, s.arrived, s.queue);
    OutputStays(blocks, base, s.arrived, s.queue, s.output, false);
  }

  /** The newly arrived packet is larger than everything before, unless its counter is zero. */
  lemma ArrivalIsNew(blocks: seq<Block>, s: Link, p: Packet)
    requires blocks != [] && Inv(blocks, s)
    requires p.Counter() == blocks[0].counter + |s.arrived|
    ensures forall x :: x in s.queue.heap ==> x.Counter() < p.Counter()
    ensures Accepts(s.queue, p) || (p.Counter() == 0 && s.queue.lastData.None? && s.arrived == [])
  {
    hide Steps, Received, PacketAt, Sorted;
    forall x | x in s.queue.heap ensures x.Counter() < p.Counter() {
      assert Genuine(blocks, blocks[0].counter, s.arrived, x);
    }
    if s.queue.lastData.Some? && s.queue.heap != [] {
      assert s.queue.heap[0] in s.queue.heap;
    }
  }

  lemma ArrivalFollowsQueue(blocks: seq<Block>, base: nat, arrived: seq<bool>, heap: seq<Packet>, p: Packet)
    requires QueueFollows(blocks, base, arrived, heap) && |arrived| < |blocks|
    requires NoAdjacentLosses(arrived)
    requires blocks[|arrived|].counter == base + |arrived|
    requires p == Received(PacketAt(blocks, |arrived|))
    ensures QueueFollows(blocks, base, arrived + [true], heap + [p])
  {
    hide Genuine, Steps, Received, PacketAt;
    var now, queue := arrived + [true], heap + [p];
    forall x | x in queue ensures Genuine(blocks, base, now, x) {
      if x in heap {
        GenuineStays(blocks, base, arrived, x, true);
      } else {
        NewIsGenuine(blocks, base, arrived, p);
      }
    }
    forall i, j | 0 <= i && j == i + 1 && j < |queue| ensures Steps(base, now, queue[i].Counter(), queue[j].Counter()) {
      if j < |heap| {
        StepsStay(base, arrived, heap[i].Counter(), heap[j].Counter(), true);
      } else {
        StepToNew(base, arrived, heap[i].Counter());
      }
    }
  }

  lemma NewIsGenuine(blocks: seq<Block>, base: nat, arrived: seq<bool>, p: Packet)
    requires |arrived| < |blocks|
    requires blocks[|arrived|].counter == base + |arrived|
    requires p == Received(PacketAt(blocks, |arrived|))
    ensures Genuine(blocks, base, arrived + [true], p)
    ensures p.Counter() == base + |arrived|
  {}

  lemma StepToNew(base: nat, arrived: seq<bool>, a: nat)
    requires a == base + LastArrived(arrived) && NoAdjacentLosses(arrived)
    ensures Steps(base, arrived + [true], a, base + |arrived|)
  {}

  lemma ArrivalContinues(base: nat, arrived: seq<bool>, q: Queue, p: Packet)
    requires Continues(base, arrived, q) && NoAdjacentLosses(arrived)
    requires p.Counter() == base + |arrived|
    requires Accepts(q, p) && Insert(q.heap, p) == q.heap + [p]
    ensures Continues(base, arrived + [true], Pushed(q, p))
  {
    hide Steps, Insert, NoAdjacentLosses;
    if q.lastData.Some? {
      if q.heap != [] {
        StepsStay(base, arrived, q.lastPopped, q.heap[0].Counter(), true);
      } else {
        StepToNew(base, arrived, q.lastPopped);
      }
    }
  }

  lemma ArrivalKeepsInv(blocks: seq<Block>, s: Link, p: Packet)
    requires blocks != [] && Inv(blocks, s) && |s.arrived| < |blocks| && Consecutive(blocks)
    requires NoAdjacentLosses(s.arrived)
    requires p == Received(PacketAt(blocks, |s.arrived|))
    ensures Inv(blocks, s.(arrived := s.arrived + [true], queue := Pushed(s.queue, p)))
  {
    var base := blocks[0].counter;
    ArrivalIsNew(blocks, s, p);
    hide QueueFollows, Continues, OutputFollows, Valid, NoAdjacentLosses, Insert, Received, PacketAt;
    PushKeepsValid(s.queue, p);
    OutputStays(blocks, base, s.arrived, s.queue, s.output, true);
    if Accepts(s.queue, p) {
      InsertAtEnd(s.queue.heap, p);
      ArrivalFollowsQueue(blocks, base, s.arrived, s.queue.heap, p);
      ArrivalContinues(base, s.arrived, s.queue, p);
      OutputIgnoresPush(blocks, base, s.arrived + [true], s.queue, p, s.output);
    } else {
      OutputIgnoresPush(blocks, base, s.arrived + [true], s.queue, p, s.output);
      NoneWithoutArrivals(blocks, base, s.queue.heap);
      FirstIsRejected(blocks, base, s.queue, p);
    }
  }

  lemma OutputIgnoresPush(blocks: seq<Block>, base: nat, arrived: seq<bool>, q: Queue, p: Packet, output: seq<Emission>)
    requires OutputFollows(blocks, base, arrived, q, output)
    ensures OutputFollows(blocks, base, arrived, Pushed(q, p), output)
  {
    hide Healed, Insert;
  }

  /** A first packet with counter zero is too late for an empty queue. */
  lemma FirstIsRejected(blocks: seq<Block>, base: nat, q: Queue, p: Packet)
    requires Continues(base, [], q) && q.lastData.None? && q.heap == [] && !Accepts(q, p) && TooLate(q, p)
    ensures Continues(base, [true], Pushed(q, p))
    ensures QueueFollows(blocks, base, [true], Pushed(q, p).heap)
  {}

  // ----- pulls -----

  lemma PullHead(blocks: seq<Block>, base: nat, arrived: seq<bool>, q: Queue)
    requires Valid(q) && q.heap != [] && HeadIsNext(q)
    requires QueueFollows(blocks, base, arrived, q.heap) && Continues(base, arrived, q)
    ensures QueueFollows(blocks, base, arrived, PopHead(q).queue.heap)
    ensures Continues(base, arrived, PopHead(q).queue)
    ensures Healed(blocks, base, arrived, Emission(PopHead(q).packet, false))
  {
    hide Steps, Received, PacketAt, Valid;
    var h := q.heap;
    assert Genuine(blocks, base, arrived, h[0]);
    forall p | p in h[1..] ensures Genuine(blocks, base, arrived, p) {
      assert p in h;
    }
    forall i, j | 0 <= i && j == i + 1 && j < |h| - 1
      ensures Steps(base, arrived, h[1..][i].Counter(), h[1..][j].Counter())
    {
      assert h[1..][i] == h[i + 1] && h[1..][j] == h[j + 1];
    }
    if |h| > 1 {
      assert Steps(base, arrived, h[0].Counter(), h[1].Counter());
    }
  }

  /** A gap is one lost packet wide, and the head of the queue carries the redundant copy of its block. */
  lemma PullFillIn(blocks: seq<Block>, base: nat, arrived: seq<bool>, q: Queue)
    requires Valid(q) && q.heap != [] && !HeadIsNext(q)
    requires QueueFollows(blocks, base, arrived, q.heap) && Continues(base, arrived, q)
    requires blocks != [] && base == blocks[0].counter && Consecutive(blocks)
    ensures Conceal(q).queue.heap == q.heap
    ensures Continues(base, arrived, Conceal(q).queue)
    ensures Healed(blocks, base, arrived, Emission(Conceal(q).packet, true))
  {
    ConcealSteps(q);
    hide Valid, OnWire, AudioOnWire;
    var p := q.heap[0];
    assert Genuine(blocks, base, arrived, p);
    assert Steps(base, arrived, q.lastPopped, p.Counter());
    assert p.fec == Some(OnWire(blocks[p.Counter() - base - 1], FEC_SAMPLERATE_REDUCTION));
  }

  lemma PullFollows(blocks: seq<Block>, base: nat, arrived: seq<bool>, q: Queue)
    requires Valid(q) && q.heap != []
    requires QueueFollows(blocks, base, arrived, q.heap) && Continues(base, arrived, q)
    requires blocks != [] && base == blocks[0].counter && Consecutive(blocks)
    ensures QueueFollows(blocks, base, arrived, Pop(q).queue.heap)
    ensures Continues(base, arrived, Pop(q).queue)
    ensures Healed(blocks, base, arrived, Emission(Pop(q).packet, Pop(q).isFillIn))
  {
    hide Valid, QueueFollows, Continues, Healed, Consecutive, HeadIsNext;
    if HeadIsNext(q) {
      PullHead(blocks, base, arrived, q);
    } else {
      PullFillIn(blocks, base, arrived, q);
      hide FillIn, Missing;
    }
  }

  lemma PullExtendsOutput(blocks: seq<Block>, base: nat, arrived: seq<bool>, q: Queue, r: Queue, output: seq<Emission>,
                          o: Emission)
    requires OutputFollows(blocks, base, arrived, q, output) && Healed(blocks, base, arrived, o)
    requires r.lastData.Some? && o.packet.Counter() == r.lastPopped
    requires q.lastData.Some? ==> o.packet.Counter() == q.lastPopped + 1
    ensures OutputFollows(blocks, base, arrived, r, output + [o])
  {
    hide Healed;
  }

  lemma PullKeepsInv(blocks: seq<Block>, s: Link)
    requires blocks != [] && Inv(blocks, s) && Consecutive(blocks) && s.queue.heap != []
    ensures var popped := Pop(s.queue);
      Inv(blocks, s.(queue := popped.queue, output := s.output + [Emission(popped.packet, popped.isFillIn)]))
  {
    hide Valid, QueueFollows, Continues, Healed, Consecutive, Pop, OutputFollows;
    var base, popped := blocks[0].counter, Pop(s.queue);
    PopKeepsValid(s.queue);
    PulledCounter(blocks, s);
    PullFollows(blocks, base, s.arrived, s.queue);
    PullExtendsOutput(blocks, base, s.arrived, s.queue, popped.queue, s.output,
                      Emission(popped.packet, popped.isFillIn));
  }

  lemma PulledCounter(blocks: seq<Block>, s: Link)
    requires blocks != [] && Inv(blocks, s) && s.queue.heap != []
    ensures Pop(s.queue).queue.lastData.Some?
    ensures Pop(s.queue).packet.Counter() == Pop(s.queue).queue.lastPopped
    ensures s.queue.lastData.Some? ==> Pop(s.queue).packet.Counter() == s.queue.lastPopped + 1
  {
    hide QueueFollows, OutputFollows;
    PopKeepsValid(s.queue);
    if !HeadIsNext(s.queue) {
      ConcealSteps(s.queue);
    }
  }

  // ----- runs -----

  lemma {:induction false} StreamIsReceived(blocks: seq<Block>, stream: seq<Packet>, events: seq<Event>)
    requires blocks != [] && Consecutive(blocks)
    requires |stream| == |blocks| && forall i :: 0 <= i < |stream| ==> stream[i] == PacketAt(blocks, i)
    requires NoAdjacentLosses(Run(stream, events).arrived)
    ensures Inv(blocks, Run(stream, events))
  {
    if events != [] {
      hide Inv, Consecutive, Pushed, Pop, PacketAt, Received;
      var before, e := events[..|events| - 1], events[|events| - 1];
      var s := Run(stream, before);
      FewerEvents(stream, s, e);
      StreamIsReceived(blocks, stream, before);
      match e
      case Arrival =>
        if |s.arrived| < |stream| {
          ArrivalKeepsInv(blocks, s, Received(stream[|s.arrived|]));
        }
      case Loss =>
        if |s.arrived| < |stream| {
          LossFollowsArrival(stream, s);
          LossKeepsInv(blocks, s);
        }
      case Pull =>
        if s.queue.heap != [] {
          PullKeepsInv(blocks, s);
        }
    } else {
      IdleKeepsInv(blocks);
    }
  }

  lemma IdleKeepsInv(blocks: seq<Block>)
    requires blocks != []
    ensures Inv(blocks, IDLE)
  {}

  lemma FewerEvents(stream: seq<Packet>, s: Link, e: Event)
    requires NoAdjacentLosses(Step(stream, s, e).arrived)
    ensures NoAdjacentLosses(s.arrived)
  {
    hide Pushed, Pop;
    var now := Step(stream, s, e).arrived;
    assert forall i :: 0 <= i < |s.arrived| ==> now[i] == s.arrived[i];
  }

  lemma LossFollowsArrival(stream: seq<Packet>, s: Link)
    requires |s.arrived| < |stream| && NoAdjacentLosses(Step(stream, s, Loss).arrived)
    ensures s.arrived == [] || s.arrived[|s.arrived| - 1]
  {
    var now := Step(stream, s, Loss).arrived;
    var i := |s.arrived| - 1;
    if i >= 0 {
      assert !now[i + 1] && now[i] == s.arrived[i];
    }
  }

  /**
   End to end: whatever is sent to other addresses, and however arrivals, losses and pulls
   interleave, if the counters follow each other and no two adjacent packets are lost, then
   nothing is counted as dropped, what comes out is uninterrupted, and each output is the
   delivered packet, or for a lost one exactly the redundant copy of its block.
   */
  lemma {:induction false} EveryGapIsHealed(sent: seq<OutgoingPackage>, target: Name, events: seq<Event>)
    requires Consecutive(BlocksTo(sent, target))
    requires NoAdjacentLosses(Run(StreamTo(sent, target), events).arrived)
    ensures var blocks, s := BlocksTo(sent, target), Run(StreamTo(sent, target), events);
      && s.queue.stats.dropped == 0
      && (forall k :: 0 <= k < |s.output| - 1 ==>
            s.output[k + 1].packet.Counter() == s.output[k].packet.Counter() + 1)
      && (blocks != [] ==> forall o :: o in s.output ==> Healed(blocks, blocks[0].counter, s.arrived, o))
  {
    StreamIsChained(sent, target);
    var blocks, stream := BlocksTo(sent, target), StreamTo(sent, target);
    var s := Run(stream, events);
    if blocks == [] {
      NothingComesOut(events);
    } else {
      StreamIsReceived(blocks, stream, events);
      hide Run, Healed, Valid, QueueFollows;
      forall k | 0 <= k < |s.output| - 1 ensures s.output[k + 1].packet.Counter() == s.output[k].packet.Counter() + 1 {
        var j := k + 1;
        assert s.output[j].packet.Counter() == s.output[k].packet.Counter() + 1;
      }
    }
  }

  /** The latest counter that may come out first: the first may be lost, and a counter of zero is rejected. */
  function FirstOut(base: nat): nat {
    if base == 0 then 2 else base + 1
  }

  /** Everything that has arrived is queued or has come out, but for a first packet that was lost or rejected. */
  ghost predicate Complete(base: nat, s: Link) {
    && (LastArrived(s.arrived) >= 0 && base + LastArrived(s.arrived) > 0 ==>
          s.queue.heap != [] || s.queue.lastData.Some?)
    && (s.queue.lastData.Some? ==> s.output != [])
    && (s.queue.lastData.None? ==> s.output == [])
    && (s.queue.lastData.None? && s.queue.heap != [] ==> s.queue.heap[0].Counter() <= FirstOut(base))
    && (s.output != [] ==> s.output[0].Counter() <= FirstOut(base))
  }

  lemma ArrivalStaysComplete(blocks: seq<Block>, s: Link, p: Packet)
    requires blocks != [] && Inv(blocks, s) && NoAdjacentLosses(s.arrived)
    requires Complete(blocks[0].counter, s) && p.Counter() == blocks[0].counter + |s.arrived|
    ensures Complete(blocks[0].counter, s.(arrived := s.arrived + [true], queue := Pushed(s.queue, p)))
  {
    ArrivalIsNew(blocks, s, p);
    InsertAtEnd(s.queue.heap, p);
    hide QueueFollows, Continues, OutputFollows, Valid, Insert;
  }

  lemma LossStaysComplete(base: nat, s: Link)
    requires Complete(base, s) && (s.arrived == [] || s.arrived[|s.arrived| - 1])
    ensures Complete(base, s.(arrived := s.arrived + [false]))
  {}

  lemma PullStaysComplete(blocks: seq<Block>, s: Link)
    requires blocks != [] && Inv(blocks, s) && Complete(blocks[0].counter, s) && s.queue.heap != []
    ensures var popped := Pop(s.queue);
      Complete(blocks[0].counter,
               s.(queue := popped.queue, output := s.output + [Emission(popped.packet, popped.isFillIn)]))
  {
    PulledCounter(blocks, s);
    if !HeadIsNext(s.queue) {
      ConcealSteps(s.queue);
    }
    hide QueueFollows, Continues, OutputFollows, Valid, FillIn;
  }

  lemma {:induction false} RunsStayComplete(blocks: seq<Block>, stream: seq<Packet>, events: seq<Event>)
    requires blocks != [] && Consecutive(blocks)
    requires |stream| == |blocks| && forall i :: 0 <= i < |stream| ==> stream[i] == PacketAt(blocks, i)
    requires NoAdjacentLosses(Run(stream, events).arrived)
    ensures Complete(blocks[0].counter, Run(stream, events))
  {
    if events != [] {
      var before, e := events[..|events| - 1], events[|events| - 1];
      var s := Run(stream, before);
      FewerEvents(stream, s, e);
      StreamIsReceived(blocks, stream, before);
      RunsStayComplete(blocks, stream, before);
      if e.Arrival? && |s.arrived| < |stream| {
        assert Received(stream[|s.arrived|]).Counter() == blocks[0].counter + |s.arrived|;
        hide Inv, Complete, Consecutive, Pushed, PacketAt, Received;
        ArrivalStaysComplete(blocks, s, Received(stream[|s.arrived|]));
      } else {
        hide Inv, Complete, Consecutive, Pop, PacketAt, Received;
        if e.Loss? && |s.arrived| < |stream| {
          LossFollowsArrival(stream, s);
          LossStaysComplete(blocks[0].counter, s);
        } else if e.Pull? && s.queue.heap != [] {
          PullStaysComplete(blocks, s);
        }
      }
    }
  }

  /**
   Nothing that can be healed is left out: once the queue is empty, the output goes from the first block,
   or the second if the first was lost, to the last that has arrived. Only a packet with counter zero is
   rejected, so that a stream that begins with it may come out from counter 1 or 2 on.
   */
  lemma {:induction false} EverythingComesOut(sent: seq<OutgoingPackage>, target: Name, events: seq<Event>)
    requires BlocksTo(sent, target) != [] && Consecutive(BlocksTo(sent, target))
    requires NoAdjacentLosses(Run(StreamTo(sent, target), events).arrived)
    requires Run(StreamTo(sent, target), events).queue.heap == []
    requires var last := LastArrived(Run(StreamTo(sent, target), events).arrived);
      last >= 0 && BlocksTo(sent, target)[0].counter + last > 0
    ensures var base, s := BlocksTo(sent, target)[0].counter, Run(StreamTo(sent, target), events);
      && s.output != []
      && s.output[0].packet.Counter() <= (if base == 0 then 2 else base + 1)
      && s.output[|s.output| - 1].packet.Counter() == base + LastArrived(s.arrived)
  {
    StreamIsChained(sent, target);
    var blocks, stream := BlocksTo(sent, target), StreamTo(sent, target);
    StreamIsReceived(blocks, stream, events);
    RunsStayComplete(blocks, stream, events);
    hide Run, Valid, QueueFollows, Healed, BlocksTo, StreamTo, LastArrived;
  }

  lemma {:induction false} NothingComesOut(events: seq<Event>)
    ensures Run([], events) == IDLE
  {
    if events != [] {
      NothingComesOut(events[..|events| - 1]);
    }
  }
}

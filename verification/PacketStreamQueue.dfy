/**
 The packet queue as an object (common/PacketStreamQueue.h, common/PacketStreamQueue.cpp).
 Each method is proved to do what `StreamQueueModel` says.
 */
module PacketStreamQueues {
  import opened Packets
  import opened StreamQueueModel

  datatype FastForwardResult = FastForwardResult(discardedPackets: nat, oldestRetainedCounter: Option<Counter>)

  const NOTHING_DISCARDED := FastForwardResult(0, None)

  /** What the caller of `fastForwardToSize` is told. */
  function FastForwardReport(q: Queue, retained: nat): FastForwardResult {
    if |q.heap| <= retained then NOTHING_DISCARDED
    else FastForwardResult(|q.heap| - retained,
                           if retained == 0 then None else Some(q.heap[|q.heap| - retained].Counter()))
  }

  /** The report is true: so many packets are gone, and this is the oldest of those that are left. */
  lemma FastForwardReportIsTrue(q: Queue, retained: nat)
    ensures var kept, report := FastForwarded(q, retained).heap, FastForwardReport(q, retained);
      && |kept| == |q.heap| - report.discardedPackets
      && |kept| == (if |q.heap| <= retained then |q.heap| else retained)
      && report.oldestRetainedCounter
         == if report.discardedPackets == 0 || kept == [] then None else Some(kept[0].Counter())
  {}

  class PacketStreamQueue {
    var packetQueue: seq<Packet>
    var currentlyInQueue: set<Counter>
    var lastPushedMessage: Counter
    var lastPoppedMessage: Counter
    var lastPoppedMessageData: Option<Packet>
    var currentGap: nat
    var quality: Stats

    ghost function Model(): Queue
      reads this
    {
      Queue(packetQueue, currentlyInQueue, lastPushedMessage, lastPoppedMessage, lastPoppedMessageData,
            currentGap, quality)
    }

    constructor ()
      ensures Model() == EMPTY_QUEUE && Valid(Model())
    {
      packetQueue, currentlyInQueue := [], {};
      lastPushedMessage, lastPoppedMessage, lastPoppedMessageData := 0, 0, None;
      currentGap, quality := 0, NO_STATS;
    }

    method HasBeenPushedBefore(packet: Packet) returns (before: bool)
      modifies this`quality
      ensures before == !Accepts(old(Model()), packet)
      ensures Model() == if before then Pushed(old(Model()), packet) else old(Model())
    {
      if packet.Counter() <= lastPoppedMessage {
        quality := quality.(tooLate := quality.tooLate + 1);
        return true;
      }
      if packet.Counter() in currentlyInQueue {
        quality := quality.(duplicate := quality.duplicate + 1);
        return true;
      }
      return false;
    }

    method Push(packet: Packet) returns (accepted: bool)
      requires Valid(Model())
      modifies this
      ensures Valid(Model())
      ensures Model() == Pushed(old(Model()), packet)
      ensures accepted == Accepts(old(Model()), packet)
    {
      hide Valid, Insert;
      PushKeepsValid(Model(), packet);
      var before := HasBeenPushedBefore(packet);
      if before {
        return false;
      }
      currentlyInQueue := currentlyInQueue + {packet.Counter()};
      quality := quality.(pushed := quality.pushed + 1);
      packetQueue := Insert(packetQueue, packet);
      if packet.Counter() < lastPushedMessage {
        quality := quality.(outOfOrder := quality.outOfOrder + 1,
                            maxWrongOrderSpan := Max(quality.maxWrongOrderSpan, lastPushedMessage - packet.Counter()));
      }
      lastPushedMessage := packet.Counter();
      return true;
    }

    method TryPop() returns (element: Option<Packet>, isFillIn: bool)
      requires Valid(Model())
      modifies this
      ensures Valid(Model())
      ensures old(packetQueue) == [] ==> element == None && !isFillIn && Model() == old(Model())
      ensures old(packetQueue) != [] ==>
                && Model() == Pop(old(Model())).queue
                && element == Some(Pop(old(Model())).packet)
                && isFillIn == Pop(old(Model())).isFillIn
    {
      hide Valid, FillIn, Cleared, ClearedThroughFillIn;
      if packetQueue == [] {
        return None, false;
      }
      PopKeepsValid(Model());
      var packet := packetQueue[0];
      packetQueue := packetQueue[1..];
      if Next(lastPoppedMessage) == packet.Counter() || lastPoppedMessageData.None? {
        lastPoppedMessage := packet.Counter();
        lastPoppedMessageData := Some(packet);
        currentlyInQueue := currentlyInQueue - {lastPoppedMessage};
        currentGap := 0;
        quality := quality.(popped := quality.popped + 1);
        return Some(packet), false;
      }
      var fill: Packet;
      if currentGap < 1 {
        packetQueue := [packet] + packetQueue;
        assert packetQueue == old(packetQueue);
        fill := FillIn(packet, Next(lastPoppedMessage));
        if packet.CanHeal(Next(lastPoppedMessage)) {
          quality := quality.(healed := quality.healed + 1);
        } else {
          quality := quality.(dropped := quality.dropped + 1);
        }
      } else {
        // Clearing the fill-in clears the buffer that it shares with the queued packet.
        fill := Cleared(FillIn(packet, Previous(packet.Counter())));
        packetQueue := [ClearedThroughFillIn(packet, Previous(packet.Counter()))] + packetQueue;
        quality := quality.(dropped := quality.dropped + 1);
      }
      lastPoppedMessage := fill.Counter();
      currentGap := currentGap + 1;
      quality := quality.(maxGap := Max(quality.maxGap, currentGap));
      assert Model() == Conceal(old(Model())).queue;
      return Some(fill), true;
    }

    method FastForwardToSize(retained: nat) returns (result: FastForwardResult)
      requires Valid(Model())
      modifies this
      ensures Valid(Model())
      ensures Model() == FastForwarded(old(Model()), retained)
      ensures result == FastForwardReport(old(Model()), retained)
    {
      hide Valid, Counters;
      FastForwardKeepsValid(Model(), retained);
      ghost var heap, seen := packetQueue, currentlyInQueue;
      var discardedPackets: nat, newestDiscarded: Option<Counter> := 0, None;
      NoCounters(heap);
      while |packetQueue| > retained
        invariant discardedPackets <= |heap|
        invariant discardedPackets > 0 ==> discardedPackets + retained <= |heap|
        invariant packetQueue == heap[discardedPackets..]
        invariant currentlyInQueue == seen - Counters(heap[..discardedPackets])
        invariant newestDiscarded == if discardedPackets == 0 then None else Some(heap[discardedPackets - 1].Counter())
        modifies `packetQueue, `currentlyInQueue
      {
        var discarded := packetQueue[0];
        packetQueue := packetQueue[1..];
        currentlyInQueue := currentlyInQueue - {discarded.Counter()};
        newestDiscarded := Some(discarded.Counter());
        CountersGrow(heap, discardedPackets);
        discardedPackets := discardedPackets + 1;
      }
      if discardedPackets == 0 {
        return NOTHING_DISCARDED;
      }
      result := FastForwardResult(discardedPackets, None);
      lastPoppedMessageData := None;
      currentGap := 0;
      if packetQueue != [] {
        var oldest := packetQueue[0].Counter();
        result := result.(oldestRetainedCounter := Some(oldest));
        lastPoppedMessage := if oldest == 0 then 0 else oldest - 1;
      } else if newestDiscarded.Some? {
        lastPoppedMessage := newestDiscarded.value;
      }
      quality := quality.(dropped := quality.dropped + discardedPackets,
                          popped := quality.popped + discardedPackets);
    }

    method Reset()
      modifies this
      ensures Model() == EMPTY_QUEUE && Valid(Model())
    {
      packetQueue := [];
      currentlyInQueue := {};
      lastPushedMessage, lastPoppedMessage, lastPoppedMessageData := 0, 0, None;
      currentGap := 0;
      quality := NO_STATS;
    }

    function Size(): (n: nat)
      reads this
      ensures n == |Model().heap|
    {
      |packetQueue|
    }
  }

  lemma NoCounters(h: seq<Packet>)
    ensures Counters(h[..0]) == {}
  {}

  lemma CountersGrow(h: seq<Packet>, n: nat)
    requires n < |h|
    ensures Counters(h[..n + 1]) == Counters(h[..n]) + {h[n].Counter()}
  {
    assert h[..n + 1] == h[..n] + [h[n]];
    assert forall p :: p in h[..n + 1] <==> p in h[..n] || p == h[n];
  }
}

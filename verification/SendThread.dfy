/**
 The server's send thread (Server/Source/SendThread.h, Server/Source/SendThread.cpp): which
 earlier block is attached to a packet, separately for each address, and which packets are
 followed by a statistics message. Sockets, encryption and the split session messages are
 not part of this model.
 */
module SendThreads {
  import opened Packets
  import opened Rings

  const FEC_RINGBUFFER_SIZE: nat := 16
  const STATISTICS_INTERVAL: nat := 100

  datatype OutgoingPackage = OutgoingPackage(target: Name, block: Block)

  /** The blocks that went to one address, oldest first. */
  function BlocksTo(sent: seq<OutgoingPackage>, target: Name): seq<Block> {
    if sent == [] then []
    else
      var rest, p := BlocksTo(sent[..|sent| - 1], target), sent[|sent| - 1];
      if p.target == target then rest + [p.block] else rest
  }

  function Last<T>(s: seq<T>): Option<T> {
    if s == [] then None else Some(s[|s| - 1])
  }

  /** With FEC, a packet carries the block that went to its address before. */
  function Attached(sent: seq<OutgoingPackage>, package: OutgoingPackage, useFEC: bool): Packet {
    Packet(package.block, if useFEC then Last(BlocksTo(sent, package.target)) else None)
  }

  /** With FEC, the block attached to a packet is that of the latest package to the same address, if any. */
  lemma {:induction false} AttachedIsLatest(sent: seq<OutgoingPackage>, package: OutgoingPackage, k: nat)
    requires k < |sent| && sent[k].target == package.target
    requires forall j :: k < j < |sent| ==> sent[j].target != package.target
    ensures Attached(sent, package, true) == Packet(package.block, Some(sent[k].block))
  {
    if k < |sent| - 1 {
      AttachedIsLatest(sent[..|sent| - 1], package, k);
    }
  }

  /** Without FEC, or to a new address, a packet carries nothing else. */
  lemma {:induction false} NothingAttached(sent: seq<OutgoingPackage>, package: OutgoingPackage, useFEC: bool)
    requires useFEC ==> forall j :: 0 <= j < |sent| ==> sent[j].target != package.target
    ensures Attached(sent, package, useFEC) == Packet(package.block, None)
  {
    if useFEC && sent != [] {
      NothingAttached(sent[..|sent| - 1], package, useFEC);
    }
  }

  lemma BlocksToGrows(sent: seq<OutgoingPackage>, package: OutgoingPackage, target: Name)
    ensures BlocksTo(sent + [package], target)
         == if package.target == target then BlocksTo(sent, target) + [package.block] else BlocksTo(sent, target)
  {
    assert (sent + [package])[..|sent|] == sent;
  }

  class SendThread {
    var fecData: map<Name, RingOfAudioBuffers<Block>>
    var packageCounters: map<Name, nat>
    ghost var sent: seq<OutgoingPackage>

    ghost function Rings(): set<RingOfAudioBuffers<Block>>
      reads this`fecData
    {
      set a | a in fecData :: fecData[a]
    }

    ghost function Slots(): set<array<Block>>
      reads this`fecData
    {
      set a | a in fecData :: fecData[a].data
    }

    /** No two addresses share a ring. */
    ghost predicate Separate()
      reads this`fecData
    {
      forall a, b :: a in fecData && b in fecData && a != b ==>
        fecData[a] != fecData[b] && fecData[a].data != fecData[b].data
    }

    /** Each ring holds the newest blocks that went to its address. */
    ghost predicate Remembers(a: Name)
      requires a in fecData
      reads this`fecData, this`sent, Rings(), Slots()
    {
      && fecData[a].Valid()
      && fecData[a].data.Length == FEC_RINGBUFFER_SIZE
      && fecData[a].Contents() == Newest(BlocksTo(sent, a), FEC_RINGBUFFER_SIZE - 1)
    }

    ghost predicate Valid()
      reads this`fecData, this`sent, Rings(), Slots()
    {
      && Separate()
      && (forall a :: a in fecData ==> Remembers(a))
      && (forall a :: a !in fecData ==> BlocksTo(sent, a) == [])
    }

    /** Between two packets, the counters hold the numbers of packets sent. */
    ghost predicate Counted()
      reads this
    {
      forall a :: |BlocksTo(sent, a)| == if a in packageCounters then packageCounters[a] else 0
    }

    constructor ()
      ensures Valid() && Counted() && sent == [] && packageCounters == map[] && fresh(Rings()) && fresh(Slots())
    {
      fecData, packageCounters, sent := map[], map[], [];
    }

    /**
     The body of the thread's loop: after every hundredth packet to an address, beginning with the
     first, the statistics are due.
     */
    method Process(package: OutgoingPackage, useFEC: bool) returns (dataForClient: Packet, statisticsDue: bool)
      requires Valid() && Counted()
      modifies this, Rings(), Slots()
      ensures Valid() && Counted() && fresh(Rings() - old(Rings())) && fresh(Slots() - old(Slots()))
      ensures sent == old(sent) + [package]
      ensures dataForClient == Attached(old(sent), package, useFEC)
      ensures statisticsDue <==> |BlocksTo(old(sent), package.target)| % 100 == 0
    {
      hide Valid, BlocksTo;
      ghost var before := sent;
      dataForClient := SendAudioBlock(package, useFEC);
      if package.target !in packageCounters {
        packageCounters := packageCounters[package.target := 0];
      }
      statisticsDue := packageCounters[package.target] % STATISTICS_INTERVAL == 0;
      packageCounters := packageCounters[package.target := packageCounters[package.target] + 1];
      forall a ensures |BlocksTo(sent, a)| == if a in packageCounters then packageCounters[a] else 0 {
        BlocksToGrows(before, package, a);
      }
    }

    method SendAudioBlock(package: OutgoingPackage, useFEC: bool) returns (dataForClient: Packet)
      requires Valid()
      modifies this`fecData, this`sent, Rings(), Slots()
      ensures Valid() && fresh(Rings() - old(Rings())) && fresh(Slots() - old(Slots()))
      ensures sent == old(sent) + [package]
      ensures dataForClient == Attached(old(sent), package, useFEC)
    {
      hide Valid, BlocksTo;
      EnsureRing(package.target);
      var fecBlock := LastSent(package.target, useFEC);
      dataForClient := Packet(package.block, fecBlock);
      Remember(package);
    }

    method LastSent(target: Name, useFEC: bool) returns (fecBlock: Option<Block>)
      requires Valid() && target in fecData
      ensures fecBlock == if useFEC then Last(BlocksTo(sent, target)) else None
    {
      assert Remembers(target);
      if useFEC && !fecData[target].IsEmpty() {
        fecBlock := fecData[target].GetLast();
      } else {
        fecBlock := None;
      }
    }

    /** The first packet to an address gives it a ring. */
    method EnsureRing(target: Name)
      requires Valid()
      modifies this`fecData
      ensures Valid() && target in fecData
      ensures fresh(Rings() - old(Rings())) && fresh(Slots() - old(Slots()))
    {
      if target !in fecData {
        var ring := new RingOfAudioBuffers<Block>(FEC_RINGBUFFER_SIZE);
        fecData := fecData[target := ring];
        assert forall a :: a in old(fecData) ==> old(Remembers(a));
      }
    }

    method Remember(package: OutgoingPackage)
      requires Valid() && package.target in fecData
      modifies this`sent, fecData[package.target], fecData[package.target].data
      ensures Valid() && sent == old(sent) + [package]
    {
      ghost var blocks := BlocksTo(sent, package.target);
      assert Remembers(package.target);
      NewestOfNewest(blocks, package.block, FEC_RINGBUFFER_SIZE - 1);
      fecData[package.target].Push(package.block);
      sent := sent + [package];
      forall a ensures BlocksTo(sent, a)
          == if package.target == a then BlocksTo(old(sent), a) + [package.block] else BlocksTo(old(sent), a)
      {
        BlocksToGrows(old(sent), package, a);
      }
      assert forall a :: a in fecData ==> old(Remembers(a));
    }
  }
}

/**
 The client's receive worker as an object (Client/Source/AudioReceiveWorker.h,
 Client/Source/AudioReceiveWorker.cpp). Each method is proved to do what `ReceiveModel` says.
 */
module AudioReceiveWorkers {
  import opened Packets
  import opened StreamQueueModel
  import opened PacketStreamQueues
  import opened ReceiveModel

  const CLIENT_PLAYOUT_JITTER_BUFFER: nat := 20 * (SAMPLE_RATE / 1000) / SAMPLE_BUFFER_SIZE
  const CLIENT_PLAYOUT_MAX_BUFFER: nat := 60 * (SAMPLE_RATE / 1000) / SAMPLE_BUFFER_SIZE

  class AudioReceiveWorker {
    var inboundQueue: seq<Packet>
    const packetQueue: PacketStreamQueue
    var outputQueue: seq<Frame>
    var minimumFrames: nat
    var maximumFrames: nat
    var rebufferRequested: bool
    var requestedGeneration: nat
    var activeGeneration: nat
    var streamStarted: bool
    var recoveringFromOverrun: bool
    var latestServerBpm: real
    var serverBpmPending: bool
    var discarded: nat
    var inboundOverruns: nat

    ghost function Model(): Worker
      reads this, packetQueue
    {
      Worker(inboundQueue, packetQueue.Model(), outputQueue, rebufferRequested, requestedGeneration,
             activeGeneration, streamStarted, recoveringFromOverrun, discarded)
    }

    ghost predicate Ok()
      reads this, packetQueue
    {
      && Valid(packetQueue.Model())
      && |inboundQueue| <= INPUT_CAPACITY
      && |outputQueue| <= OUTPUT_CAPACITY
      && minimumFrames <= maximumFrames
    }

    constructor ()
      ensures Ok() && Model() == NEW_WORKER && fresh(packetQueue)
      ensures minimumFrames == 7 && maximumFrames == 22
    {
      inboundQueue, outputQueue := [], [];
      packetQueue := new PacketStreamQueue();
      minimumFrames, maximumFrames := CLIENT_PLAYOUT_JITTER_BUFFER, CLIENT_PLAYOUT_MAX_BUFFER;
      rebufferRequested, requestedGeneration, activeGeneration := false, 0, 0;
      streamStarted, recoveringFromOverrun := false, false;
      latestServerBpm, serverBpmPending, discarded, inboundOverruns := 0.0, false, 0, 0;
    }

    method Enqueue(packet: Packet)
      requires Ok()
      modifies this`inboundQueue, this`inboundOverruns
      ensures Ok() && Model() == Enqueued(old(Model()), packet)
      ensures inboundOverruns == old(inboundOverruns) + (if |old(inboundQueue)| < INPUT_CAPACITY then 0 else 1)
    {
      if |inboundQueue| < INPUT_CAPACITY {
        inboundQueue := inboundQueue + [packet];
      } else {
        inboundOverruns := inboundOverruns + 1;
      }
    }

    method TryPop() returns (frame: Option<Frame>)
      requires Ok()
      modifies this`outputQueue
      ensures Ok() && Model() == FrameTaken(old(Model()))
      ensures frame == if old(outputQueue) == [] then None else Some(old(outputQueue)[0])
    {
      if outputQueue == [] {
        return None;
      }
      frame := Some(outputQueue[0]);
      outputQueue := outputQueue[1..];
    }

    method SetPlayoutRange(minimum: nat, maximum: nat)
      requires Ok()
      modifies this`minimumFrames, this`maximumFrames
      ensures Ok() && minimumFrames == minimum && maximumFrames == Max(minimum, maximum)
    {
      minimumFrames, maximumFrames := minimum, Max(minimum, maximum);
    }

    method RequestRebuffer()
      modifies this`rebufferRequested
      ensures rebufferRequested
    {
      rebufferRequested := true;
    }

    method RequestReset() returns (generation: nat)
      modifies this`requestedGeneration
      ensures generation == requestedGeneration == old(requestedGeneration) + 1
    {
      requestedGeneration := requestedGeneration + 1;
      return requestedGeneration;
    }

    method TakeServerBpmUpdate() returns (bpm: Option<real>)
      modifies this`serverBpmPending
      ensures !serverBpmPending
      ensures bpm == if old(serverBpmPending) then Some(latestServerBpm) else None
    {
      bpm := if serverBpmPending then Some(latestServerBpm) else None;
      serverBpmPending := false;
    }

    method ProcessNextFrame() returns (prepared: bool)
      requires Ok()
      modifies this, packetQueue
      ensures Ok() && minimumFrames == old(minimumFrames) && maximumFrames == old(maximumFrames)
      ensures Model() == Stepped(old(Model()), minimumFrames, maximumFrames)
      ensures prepared == Prepares(BeforePreparing(old(Model()), minimumFrames, maximumFrames), maximumFrames)
      ensures prepared ==>
                && serverBpmPending && outputQueue != []
                && latestServerBpm == outputQueue[|outputQueue| - 1].bpm
      ensures !prepared ==> serverBpmPending == old(serverBpmPending) && latestServerBpm == old(latestServerBpm)
    {
      hide Valid, Drained, ResetApplied, Rebuffered, DiscardedAll, RecoveryTested, OverrunTested, Prepared, Prepares;
      hide Combined;
      ghost var was := Model();
      PartsValid(was);
      TakeUpRequestsAndArrivals();
      var minimum, maximum := minimumFrames, maximumFrames;
      HandleOverrun(minimum, maximum);
      if !streamStarted && packetQueue.Size() >= minimum {
        streamStarted := true;
      }
      assert Model() == BeforePreparing(was, minimum, maximum);
      hide BeforePreparing;
      prepared := PrepareIfPlaying(maximum);
    }

    /** The first three statements. */
    method TakeUpRequestsAndArrivals()
      requires Ok()
      modifies this`inboundQueue, this`streamStarted, this`recoveringFromOverrun, this`activeGeneration,
               this`rebufferRequested, packetQueue
      ensures Ok() && Model() == Rebuffered(Drained(ResetApplied(old(Model()))))
    {
      hide Valid, Drained, ResetApplied;
      ApplyResetIfRequested();
      DrainInbound();
      if rebufferRequested {
        rebufferRequested, streamStarted, recoveringFromOverrun := false, false, false;
      }
    }

    /** From `combinedReadyFrames() > maximum` to the end of the recovery. */
    method HandleOverrun(minimum: nat, maximum: nat)
      requires Ok()
      modifies this`recoveringFromOverrun, this`discarded, packetQueue
      ensures Ok()
      ensures Model() == RecoveryTested(DiscardedAll(OverrunTested(old(Model()), maximum), minimum), minimum)
    {
      hide Valid, Pop, DiscardedAll;
      if CombinedReadyFrames() > maximum {
        recoveringFromOverrun := true;
      }
      DiscardingEnds(Model(), minimum);
      if recoveringFromOverrun {
        DiscardDownTo(minimum);
        if CombinedReadyFrames() <= minimum {
          recoveringFromOverrun := false;
        }
      }
    }

    method PrepareIfPlaying(maximum: nat) returns (prepared: bool)
      requires Ok() && maximum == maximumFrames
      modifies this`outputQueue, this`latestServerBpm, this`serverBpmPending, packetQueue
      ensures Ok() && Model() == Prepared(old(Model()), maximum)
      ensures prepared == Prepares(old(Model()), maximum)
      ensures prepared ==>
                && serverBpmPending && outputQueue != []
                && latestServerBpm == outputQueue[|outputQueue| - 1].bpm
      ensures !prepared ==> serverBpmPending == old(serverBpmPending) && latestServerBpm == old(latestServerBpm)
    {
      hide Valid, Pop, FrameOf;
      prepared := false;
      if streamStarted && !recoveringFromOverrun && |outputQueue| < maximum {
        prepared := PrepareOneFrame();
      }
    }

    function CombinedReadyFrames(): (n: nat)
      reads this, packetQueue
      ensures n == Combined(Model())
    {
      |outputQueue| + packetQueue.Size()
    }

    method ApplyResetIfRequested()
      requires Ok()
      modifies this`inboundQueue, this`streamStarted, this`recoveringFromOverrun, this`activeGeneration, packetQueue
      ensures Ok() && Model() == ResetApplied(old(Model()))
    {
      hide Valid;
      if requestedGeneration == activeGeneration {
        return;
      }
      while inboundQueue != []
        modifies this`inboundQueue
        decreases |inboundQueue|
      {
        inboundQueue := inboundQueue[1..];
      }
      packetQueue.Reset();
      streamStarted, recoveringFromOverrun := false, false;
      activeGeneration := requestedGeneration;
    }

    method DrainInbound()
      requires Ok()
      modifies this`inboundQueue, packetQueue
      ensures Ok() && Model() == Drained(old(Model()))
    {
      hide Valid, Pushed;
      ghost var all, was, n := inboundQueue, packetQueue.Model(), 0;
      while inboundQueue != []
        invariant n <= |all| && inboundQueue == all[n..]
        invariant Valid(packetQueue.Model())
        invariant packetQueue.Model() == PushedAll(was, all[..n])
        decreases |inboundQueue|
      {
        var _ := packetQueue.Push(inboundQueue[0]);
        assert all[..n + 1][..n] == all[..n];
        inboundQueue := inboundQueue[1..];
        n := n + 1;
      }
      assert all[..n] == all;
    }

    /** Fill-ins do not shorten the queue; the loop ends because the potential falls. */
    method DiscardDownTo(minimum: nat)
      requires Ok() && recoveringFromOverrun
      modifies this`discarded, packetQueue
      ensures Ok() && Model() == DiscardedAll(old(Model()), minimum)
    {
      hide Valid, Pop;
      ghost var was := Model();
      while CombinedReadyFrames() > minimum
        invariant Valid(packetQueue.Model())
        invariant DiscardedAll(Model(), minimum) == DiscardedAll(was, minimum)
        decreases Potential(packetQueue.Model())
      {
        ghost var current := packetQueue.Model();
        var packet, isFillIn := packetQueue.TryPop();
        if packet.None? {
          break;
        }
        PopDecreasesPotential(current);
        discarded := discarded + 1;
      }
    }

    method PrepareOneFrame() returns (prepared: bool)
      requires Ok() && streamStarted && !recoveringFromOverrun && |outputQueue| < maximumFrames
      modifies this`outputQueue, this`latestServerBpm, this`serverBpmPending, packetQueue
      ensures Ok() && Model() == Prepared(old(Model()), maximumFrames)
      ensures prepared == Prepares(old(Model()), maximumFrames)
      ensures prepared ==>
                && serverBpmPending && outputQueue != []
                && latestServerBpm == outputQueue[|outputQueue| - 1].bpm
      ensures !prepared ==> serverBpmPending == old(serverBpmPending) && latestServerBpm == old(latestServerBpm)
    {
      hide Valid, Pop, FrameChannel;
      if |outputQueue| == OUTPUT_CAPACITY {
        return false;
      }
      var packet, isFillIn := packetQueue.TryPop();
      if packet.None? {
        return false;
      }
      outputQueue := outputQueue + [FrameOf(packet.value, activeGeneration)];
      latestServerBpm, serverBpmPending := packet.value.block.bpm, true;
      return true;
    }
  }
}

/**
 One client's queue and connection state as an object, whose methods the server calls
 under its mutex (Server/Source/ClientState.cpp). Each method is proved to do what
 `ClientModel` says.
 */
module ClientStates {
  import opened Packets
  import opened StreamQueueModel
  import opened PacketStreamQueues
  import opened ClientModel

  datatype QueueSnapshot = QueueSnapshot(connection: Connection, size: nat, activityGeneration: nat)

  datatype PressureResult = PressureResult(before: QueueSnapshot, after: QueueSnapshot, fastForward: FastForwardResult)

  function SnapshotOf(c: Client): QueueSnapshot {
    QueueSnapshot(c.connection, QueueSize(c), c.generation)
  }

  class ClientState {
    var connection: Connection
    var queue: PacketStreamQueue?
    var disconnectDeadline: int
    var activityGeneration: nat
    var hasConnected: bool

    ghost function Repr(): set<object>
      reads this
    {
      {this} + Queues()
    }

    ghost function Queues(): set<object>
      reads this
    {
      if queue == null then {} else {queue}
    }

    ghost function Model(): Client
      reads Repr()
    {
      Client(connection, if queue == null then None else Some(queue.Model()),
             disconnectDeadline, activityGeneration, hasConnected)
    }

    ghost predicate Ok()
      reads Repr()
    {
      ValidClient(Model())
    }

    constructor ()
      ensures Ok() && Model() == NEW_CLIENT && fresh(Repr())
    {
      connection, queue, disconnectDeadline := Disconnected, null, 0;
      activityGeneration, hasConnected := 0, false;
    }

    method Push(packet: Packet, initialPrefillCount: nat) returns (queued: bool, transition: Transition)
      requires Ok()
      modifies Repr()
      ensures Ok() && fresh(Repr() - old(Repr()))
      ensures Model() == ClientPushed(old(Model()), packet, initialPrefillCount)
      ensures queued == Accepts(QueueBeforePush(old(Model()), packet, initialPrefillCount), packet)
      ensures transition == TransitionOf(old(Model()))
    {
      hide Valid, Pushed, PushedAll, Paddings, Accepts;
      ghost var was := Model();
      ClientPushValid(was, packet, initialPrefillCount);
      EmptyQueueValid();
      transition := NoTransition;
      var isInitialConnection := !hasConnected;
      if queue == null {
        queue := new PacketStreamQueue();
        transition := if isInitialConnection then InitialConnection else Reconnection;
      } else if connection == Disconnecting {
        transition := GraceRecovery;
      }
      connection := Connected;
      hasConnected := true;
      activityGeneration := activityGeneration + 1;
      if isInitialConnection {
        Prefill(queue, packet, initialPrefillCount);
      }
      assert queue.Model() == QueueBeforePush(was, packet, initialPrefillCount);
      queued := queue.Push(packet);
    }

    /** The padding is created backwards from the packet, and pushed from the top of a stack. */
    static method Prefill(queue: PacketStreamQueue, packet: Packet, count: nat)
      requires Valid(queue.Model())
      modifies queue
      ensures Valid(queue.Model())
      ensures queue.Model() == PushedAll(old(queue.Model()), Paddings(packet, count))
    {
      hide Valid, Pushed;
      var lastInserted := packet;
      var reverse: seq<Packet> := [];
      for i := 0 to count
        invariant lastInserted == Padding(packet, i)
        invariant reverse == Paddings(packet, i)
        modifies {}
      {
        lastInserted := PrePadding(lastInserted);
        reverse := [lastInserted] + reverse;
        PaddingsGrow(packet, i);
      }
      ghost var all := reverse;
      ghost var n := 0;
      while reverse != []
        invariant n <= |all| && reverse == all[n..]
        invariant Valid(queue.Model())
        invariant queue.Model() == PushedAll(old(queue.Model()), all[..n])
        decreases |reverse|
      {
        var _ := queue.Push(reverse[0]);
        assert all[..n + 1][..n] == all[..n];
        reverse := reverse[1..];
        n := n + 1;
      }
      assert all[..n] == all;
    }

    method TryPop() returns (packet: Option<Packet>, isFillIn: bool, observedActivityGeneration: nat)
      requires Ok()
      modifies Queues()
      ensures Ok()
      ensures Model() == ClientPopped(old(Model()))
      ensures observedActivityGeneration == old(Model().generation)
      ensures packet.Some? == CanPop(old(Model()))
      ensures packet.Some? ==>
                && packet.value == Pop(old(Model()).queue.value).packet
                && isFillIn == Pop(old(Model()).queue.value).isFillIn
    {
      hide Valid, Pop;
      ClientPopValid(Model());
      observedActivityGeneration := activityGeneration;
      if connection == Disconnected || queue == null {
        return None, false, observedActivityGeneration;
      }
      packet, isFillIn := queue.TryPop();
    }

    method ApplyQueuePressure(maximumPacketCount: nat, retainedPacketCount: nat) returns (result: PressureResult)
      requires Ok()
      modifies Queues()
      ensures Ok()
      ensures Model() == Pressed(old(Model()), maximumPacketCount, retainedPacketCount)
      ensures result.before == SnapshotOf(old(Model())) && result.after == SnapshotOf(Model())
      ensures result.fastForward ==
                if QueueSize(old(Model())) <= maximumPacketCount then NOTHING_DISCARDED
                else FastForwardReport(old(Model()).queue.value, retainedPacketCount)
    {
      hide Valid, FastForwarded, FastForwardReport;
      PressedValid(Model(), maximumPacketCount, retainedPacketCount);
      var before := Snapshot();
      if connection == Disconnected || queue == null {
        return PressureResult(before, before, NOTHING_DISCARDED);
      }
      var fastForward := NOTHING_DISCARDED;
      if queue.Size() > maximumPacketCount {
        fastForward := queue.FastForwardToSize(retainedPacketCount);
      }
      result := PressureResult(before, QueueSnapshot(connection, queue.Size(), activityGeneration), fastForward);
    }

    method Snapshot() returns (snapshot: QueueSnapshot)
      ensures snapshot == SnapshotOf(Model())
    {
      var size := 0;
      if connection != Disconnected && queue != null {
        size := queue.Size();
      }
      snapshot := QueueSnapshot(connection, size, activityGeneration);
    }

    method MarkUnderrun(observedActivityGeneration: nat, now: int) returns (marked: bool)
      requires Ok()
      modifies this`connection, this`disconnectDeadline
      ensures Ok()
      ensures marked == CanMark(old(Model()), observedActivityGeneration)
      ensures Model() == Marked(old(Model()), observedActivityGeneration, now)
    {
      hide Valid;
      if connection != Connected || activityGeneration != observedActivityGeneration {
        return false;
      }
      connection := Disconnecting;
      disconnectDeadline := now + DISCONNECT_GRACE_PERIOD;
      return true;
    }

    method DisconnectIfGraceExpired(now: int) returns (disconnected: bool)
      requires Ok()
      modifies this
      ensures Ok() && Repr() <= old(Repr())
      ensures disconnected == GraceExpired(old(Model()), now)
      ensures Model() == Expired(old(Model()), now)
    {
      hide Valid;
      if connection != Disconnecting || now < disconnectDeadline {
        return false;
      }
      connection := Disconnected;
      queue := null;
      return true;
    }
  }

  lemma PaddingsGrow(p: Packet, i: nat)
    ensures Paddings(p, i + 1) == [Padding(p, i + 1)] + Paddings(p, i)
  {}
}

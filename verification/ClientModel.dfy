/**
 The value of one client's connection state on the server, and what each operation
 makes of it (Server/Source/ClientState.h, Server/Source/ClientState.cpp). Times are
 in milliseconds.
 */
module ClientModel {
  import opened Packets
  import opened StreamQueueModel

  datatype Connection = Disconnected | Connected | Disconnecting

  datatype Transition = NoTransition | InitialConnection | GraceRecovery | Reconnection

  const DISCONNECT_GRACE_PERIOD: int := 2000

  datatype Client = Client(
    connection: Connection,
    queue: Option<Queue>,
    deadline: int,
    generation: nat,
    hasConnected: bool)

  const NEW_CLIENT := Client(Disconnected, None, 0, 0, false)

  ghost predicate ValidClient(c: Client) {
    && (c.connection.Disconnected? <==> c.queue.None?)
    && (c.queue.Some? ==> Valid(c.queue.value) && c.hasConnected)
  }

  /** The size that a snapshot reports. */
  function QueueSize(c: Client): nat {
    if c.connection.Disconnected? || c.queue.None? then 0 else |c.queue.value.heap|
  }

  // ----- push -----

  /** The `k`-th padding packet in front of `p`. */
  function Padding(p: Packet, k: nat): Packet {
    if k == 0 then p else PrePadding(Padding(p, k - 1))
  }

  /** The padding in the order in which it is pushed: lowest counter first. */
  function Paddings(p: Packet, n: nat): seq<Packet> {
    seq(n, i requires 0 <= i < n => Padding(p, n - i))
  }

  function TransitionOf(c: Client): Transition {
    if c.queue.None? then
      if c.hasConnected then Reconnection else InitialConnection
    else if c.connection.Disconnecting? then
      GraceRecovery
    else
      NoTransition
  }

  /** The queue that the packet itself is pushed to. */
  function QueueBeforePush(c: Client, p: Packet, prefill: nat): Queue {
    var q := if c.queue.None? then EMPTY_QUEUE else c.queue.value;
    if c.hasConnected then q else PushedAll(q, Paddings(p, prefill))
  }

  function ClientPushed(c: Client, p: Packet, prefill: nat): Client {
    Client(Connected, Some(Pushed(QueueBeforePush(c, p, prefill), p)), c.deadline, c.generation + 1, true)
  }

  // ----- the mixer's operations -----

  /** A pop succeeds exactly when there is a queue and it is not empty. */
  predicate CanPop(c: Client) {
    !c.connection.Disconnected? && c.queue.Some? && c.queue.value.heap != []
  }

  function ClientPopped(c: Client): Client {
    if CanPop(c) then c.(queue := Some(Pop(c.queue.value).queue)) else c
  }

  function Pressed(c: Client, maximum: nat, retained: nat): Client {
    if c.connection.Disconnected? || c.queue.None? || |c.queue.value.heap| <= maximum then c
    else c.(queue := Some(FastForwarded(c.queue.value, retained)))
  }

  predicate CanMark(c: Client, observed: nat) {
    c.connection.Connected? && c.generation == observed
  }

  function Marked(c: Client, observed: nat, now: int): Client {
    if CanMark(c, observed) then
      c.(connection := Disconnecting, deadline := now + DISCONNECT_GRACE_PERIOD)
    else
      c
  }

  predicate GraceExpired(c: Client, now: int) {
    c.connection.Disconnecting? && c.deadline <= now
  }

  function Expired(c: Client, now: int): Client {
    if GraceExpired(c, now) then c.(connection := Disconnected, queue := None) else c
  }

  // ----- every operation keeps a client valid -----

  lemma ClientPushValid(c: Client, p: Packet, prefill: nat)
    requires ValidClient(c)
    ensures Valid(QueueBeforePush(c, p, prefill))
    ensures ValidClient(ClientPushed(c, p, prefill))
  {
    EmptyQueueValid();
    hide Valid;
    var q := if c.queue.None? then EMPTY_QUEUE else c.queue.value;
    PushedAllValid(q, Paddings(p, prefill));
    PushKeepsValid(QueueBeforePush(c, p, prefill), p);
  }

  lemma ClientPopValid(c: Client)
    requires ValidClient(c)
    ensures ValidClient(ClientPopped(c))
  {
    hide Valid;
    if CanPop(c) {
      PopKeepsValid(c.queue.value);
    }
  }

  lemma PressedValid(c: Client, maximum: nat, retained: nat)
    requires ValidClient(c)
    ensures ValidClient(Pressed(c, maximum, retained))
  {
    hide Valid;
    if c.queue.Some? {
      FastForwardKeepsValid(c.queue.value, retained);
    }
  }

  /** Pressure bounds the queue, and leaves a queue within the bound alone. */
  lemma PressureBounds(c: Client, maximum: nat, retained: nat)
    requires retained <= maximum
    ensures QueueSize(Pressed(c, maximum, retained)) <= maximum
    ensures QueueSize(c) <= maximum ==> Pressed(c, maximum, retained) == c
    ensures QueueSize(c) > maximum ==> QueueSize(Pressed(c, maximum, retained)) == retained
  {}

  // ----- prefill -----

  lemma {:induction false} PaddingCounter(p: Packet, k: nat)
    requires k < U64_LIMIT
    ensures Padding(p, k).Counter() == if k <= p.Counter() then p.Counter() - k else p.Counter() + U64_LIMIT - k
  {
    if k > 0 {
      PaddingCounter(p, k - 1);
    }
  }

  lemma {:induction false} PushedAllSize(q: Queue, ps: seq<Packet>)
    ensures |PushedAll(q, ps).heap| <= |q.heap| + |ps|
    ensures PushedAll(q, ps).lastPopped == q.lastPopped
    ensures forall i :: 0 <= i < |ps| && TooLate(q, ps[i]) ==> |PushedAll(q, ps).heap| < |q.heap| + |ps|
  {
    if ps != [] {
      PushedAllSize(q, ps[..|ps| - 1]);
      forall i | 0 <= i < |ps| && TooLate(q, ps[i])
        ensures |PushedAll(q, ps).heap| < |q.heap| + |ps|
      {
        if i < |ps| - 1 {
          assert ps[..|ps| - 1][i] == ps[i];
        }
      }
    }
  }

  /** The packets of a first connection, in counter order. */
  function Prefilled(p: Packet, prefill: nat): seq<Packet> {
    Paddings(p, prefill) + [p]
  }

  ghost predicate Consecutive(ps: seq<Packet>) {
    forall i :: 0 <= i < |ps| ==> ps[i].Counter() == ps[0].Counter() + i && ps[i].Counter() > 0
  }

  ghost predicate HoldsExactly(q: Queue, ps: seq<Packet>) {
    q.heap == ps && q.inQueue == Counters(ps) && q.lastPopped == 0
  }

  lemma PushNewest(q: Queue, ps: seq<Packet>, p: Packet)
    requires HoldsExactly(q, ps)
    requires 0 < p.Counter() && Below(ps, p.Counter())
    ensures HoldsExactly(Pushed(q, p), ps + [p])
  {
    InsertAtEnd(ps, p);
    InsertElements(ps, p);
  }

  lemma ConsecutiveFront(ps: seq<Packet>)
    requires Consecutive(ps) && ps != []
    ensures Consecutive(ps[..|ps| - 1])
    ensures Below(ps[..|ps| - 1], ps[|ps| - 1].Counter()) && 0 < ps[|ps| - 1].Counter()
  {}

  lemma NothingHeld()
    ensures HoldsExactly(EMPTY_QUEUE, [])
  {
    assert Counters([]) == {};
  }

  lemma {:induction false} ConsecutivePushes(ps: seq<Packet>)
    requires Consecutive(ps)
    ensures HoldsExactly(PushedAll(EMPTY_QUEUE, ps), ps)
  {
    hide Consecutive, Below, HoldsExactly, Pushed, Counters;
    if ps == [] {
      NothingHeld();
    } else {
      var front, p := ps[..|ps| - 1], ps[|ps| - 1];
      ConsecutiveFront(ps);
      ConsecutivePushes(front);
      PushNewest(PushedAll(EMPTY_QUEUE, front), front, p);
      assert ps == front + [p];
    }
  }

  /**
   The first packet of a client is preceded by `prefill` silent packets exactly when its
   counter is larger than `prefill`. Otherwise a padding counter runs into 0, or past it,
   and at least one packet is lost.
   */
  lemma PrefillIsComplete(p: Packet, prefill: nat)
    requires prefill < U64_LIMIT
    ensures var q := ClientPushed(NEW_CLIENT, p, prefill).queue.value;
      && (prefill < p.Counter() ==> q.heap == Prefilled(p, prefill))
      && (|q.heap| == prefill + 1 <==> prefill < p.Counter())
  {
    var ps := Prefilled(p, prefill);
    assert ps[..|ps| - 1] == Paddings(p, prefill);
    assert PushedAll(EMPTY_QUEUE, ps) == ClientPushed(NEW_CLIENT, p, prefill).queue.value;
    forall i | 0 <= i < |ps| ensures ps[i] == Padding(p, prefill - i) {}
    if prefill < p.Counter() {
      forall i | 0 <= i < |ps| ensures ps[i].Counter() == ps[0].Counter() + i && ps[i].Counter() > 0 {
        PaddingCounter(p, prefill - i);
        PaddingCounter(p, prefill);
      }
      assert Consecutive(ps);
      ConsecutivePushes(ps);
    } else {
      PaddingCounter(p, p.Counter());
      assert TooLate(EMPTY_QUEUE, ps[prefill - p.Counter()]);
      PushedAllSize(EMPTY_QUEUE, ps);
    }
  }

  lemma {:induction false} PaddingBlock(p: Packet, k: nat)
    requires 0 < k
    ensures var r := Padding(p, k);
      && r.fec == None
      && r.block == p.block.(counter := r.Counter(), serverTime := 0, bpm := 0.0, midi := NoSignal,
                             audio := Silence(p.block.audio))
  {
    if k > 1 {
      PaddingBlock(p, k - 1);
    }
  }

  /**
   All padding is silent, in buffers of the shape of the first packet. It keeps that packet's time
   stamp and setup, and has no server time, tempo, command or redundant block of its own.
   */
  lemma {:induction false} PaddingIsSilent(p: Packet, k: nat)
    requires 0 < k
    ensures var r := Padding(p, k);
      && r.fec == None
      && IsSilent(r.block.audio, p.block.audio)
      && r.block == p.block.(counter := r.Counter(), serverTime := 0, bpm := 0.0, midi := NoSignal,
                             audio := r.block.audio)
  {
    PaddingBlock(p, k);
    SilenceIsSilent(p.block.audio);
  }

  /**
   A client that returns after a disconnection starts over with nothing but its packet, whatever
   padding a new client would get; one that was not disconnected goes on with its queue.
   */
  lemma {:induction false} ReturningClientGetsNoPadding(c: Client, p: Packet, prefill: nat)
    requires ValidClient(c) && c.hasConnected
    ensures var r := ClientPushed(c, p, prefill);
      && r.queue.Some?
      && r == c.(connection := Connected, generation := c.generation + 1, queue := r.queue)
      && if c.connection.Disconnected? then
           && r.queue.value.heap == (if p.Counter() > 0 then [p] else [])
           && r.queue.value.lastPopped == 0 && r.queue.value.lastData == None
         else
           r.queue.value == Pushed(c.queue.value, p)
  {
    hide Valid;
    assert Insert([], p) == [p];
  }

  // ----- the life of a client -----

  datatype ClientOp =
    | OpPush(packet: Packet, prefill: nat)
    | OpPop
    | OpPress(maximum: nat, retained: nat)
    | OpMark(observed: nat, at: int)
    | OpExpire(at: int)

  function ClientStep(c: Client, op: ClientOp): Client {
    match op
    case OpPush(p, prefill) => ClientPushed(c, p, prefill)
    case OpPop => ClientPopped(c)
    case OpPress(maximum, retained) => Pressed(c, maximum, retained)
    case OpMark(observed, now) => Marked(c, observed, now)
    case OpExpire(now) => Expired(c, now)
  }

  function ClientRun(ops: seq<ClientOp>): Client {
    if ops == [] then NEW_CLIENT else ClientStep(ClientRun(ops[..|ops| - 1]), ops[|ops| - 1])
  }

  function CountArrivals(ops: seq<ClientOp>): nat {
    if ops == [] then 0 else CountArrivals(ops[..|ops| - 1]) + if ops[|ops| - 1].OpPush? then 1 else 0
  }

  lemma {:induction false} ClientRunsValid(ops: seq<ClientOp>)
    ensures ValidClient(ClientRun(ops))
  {
    hide Valid, ClientPushed, ClientPopped, Pressed;
    if ops != [] {
      var c := ClientRun(ops[..|ops| - 1]);
      ClientRunsValid(ops[..|ops| - 1]);
      match ops[|ops| - 1]
      case OpPush(p, prefill) => ClientPushValid(c, p, prefill);
      case OpPop => ClientPopValid(c);
      case OpPress(maximum, retained) => PressedValid(c, maximum, retained);
      case OpMark(observed, now) =>
      case OpExpire(now) =>
    }
  }

  /**
   Over the whole life of a client: its generation counts its packets, it has connected if and only if
   there was one, and before that nothing changes it. So only its very first packet is padded.
   */
  lemma {:induction false} OnlyFirstPacketIsPadded(ops: seq<ClientOp>)
    ensures var c := ClientRun(ops);
      && c.generation == CountArrivals(ops)
      && (c.hasConnected <==> exists k :: 0 <= k < |ops| && ops[k].OpPush?)
      && (!c.hasConnected ==> c == NEW_CLIENT)
  {
    hide Pushed, Pop, FastForwarded, QueueBeforePush;
    if ops != [] {
      var front := ops[..|ops| - 1];
      OnlyFirstPacketIsPadded(front);
      if k :| 0 <= k < |front| && front[k].OpPush? {
        assert ops[k].OpPush?;
      } else {
        assert forall k :: 0 <= k < |front| ==> !front[k].OpPush? && ops[k] == front[k];
      }
    }
  }

  /** What a push reports about the connection. */
  lemma TransitionTells(c: Client)
    requires ValidClient(c)
    ensures TransitionOf(c).InitialConnection? <==> !c.hasConnected
    ensures TransitionOf(c).Reconnection? <==> c.hasConnected && c.connection.Disconnected?
    ensures TransitionOf(c).GraceRecovery? <==> c.connection.Disconnecting?
    ensures TransitionOf(c).NoTransition? <==> c.connection.Connected?
  {
    hide Valid;
  }
}

/**
 The accept thread and the mixer thread together. Every operation on a client is atomic
 under the client's mutex (Server/Source/ClientState.cpp); between any two operations of the
 mixer (Server/Source/ServerMixScheduler.cpp:40-107) any number of packets may arrive, for
 known and for new clients. The mixer visits each client at most once per pass, in any order.
 */
module ServerProtocol {
  import opened Packets
  import opened StreamQueueModel
  import opened ClientModel
  import opened SchedulerModel

  /** What became of the packets that a client's queues accepted, over all its connections. */
  datatype Ledger = Ledger(accepted: multiset<Counter>, delivered: multiset<Counter>, discarded: multiset<Counter>)

  const NO_PACKETS := Ledger(multiset{}, multiset{}, multiset{})

  datatype Phase = Idle | Checking | Popping | Marking

  datatype State = State(
    clients: map<Name, Client>,
    ledgers: map<Name, Ledger>,
    phase: Phase,
    now: int,
    visited: set<Name>,                 // by the current pass
    active: set<Name>,                  // counted as clients by the pressure pass
    ready: set<Name>,                   // counted as available by the pressure pass
    failed: Option<(Name, nat)>,        // popped in vain; its snapshot is still to come
    observed: map<Name, nat>)

  const START := State(map[], map[], Idle, 0, {}, {}, {}, None, map[])

  datatype Action =
    | Arrive(name: Name, packet: Packet)
    | BeginStep(time: int)
    | Expire(name: Name)
    | Press(name: Name)
    | Decide
    | PopOne(name: Name)
    | Look
    | BeginMarking
    | Mark(name: Name)
    | EndStep

  // ----- counting packets -----

  function Bag(h: seq<Packet>): multiset<Counter> {
    multiset(CounterSeq(h))
  }

  function QueuedBag(c: Client): multiset<Counter> {
    if c.queue.None? then multiset{} else Bag(c.queue.value.heap)
  }

  /** The counters that `q` accepts when `ps` are pushed in turn. */
  function AcceptedBag(q: Queue, ps: seq<Packet>): multiset<Counter> {
    if ps == [] then multiset{}
    else
      var front, p := ps[..|ps| - 1], ps[|ps| - 1];
      AcceptedBag(q, front) + if Accepts(PushedAll(q, front), p) then multiset{p.Counter()} else multiset{}
  }

  lemma BagConcat(g: seq<Packet>, h: seq<Packet>)
    ensures Bag(g + h) == Bag(g) + Bag(h)
  {
    assert CounterSeq(g + h) == CounterSeq(g) + CounterSeq(h);
  }

  lemma BagOne(p: Packet)
    ensures Bag([p]) == multiset{p.Counter()}
  {
    assert CounterSeq([p]) == [p.Counter()];
  }

  lemma BagSameCounters(g: seq<Packet>, h: seq<Packet>)
    requires |g| == |h|
    requires forall i :: 0 <= i < |g| ==> g[i].Counter() == h[i].Counter()
    ensures Bag(g) == Bag(h)
  {
    assert CounterSeq(g) == CounterSeq(h);
  }

  lemma BagInsert(h: seq<Packet>, p: Packet)
    ensures Bag(Insert(h, p)) == Bag(h) + multiset{p.Counter()}
  {
    var k := Rank(h, p.Counter());
    assert h == h[..k] + h[k..];
    BagConcat(h[..k], h[k..]);
    BagConcat(h[..k], [p]);
    BagConcat(h[..k] + [p], h[k..]);
    BagOne(p);
  }

  lemma {:induction false} BagPushedAll(q: Queue, ps: seq<Packet>)
    ensures Bag(PushedAll(q, ps).heap) == Bag(q.heap) + AcceptedBag(q, ps)
  {
    if ps != [] {
      var front, p := ps[..|ps| - 1], ps[|ps| - 1];
      BagPushedAll(q, front);
      BagInsert(PushedAll(q, front).heap, p);
    }
  }

  lemma BagPop(q: Queue)
    requires Valid(q) && q.heap != []
    ensures Bag(q.heap) == Bag(Pop(q).queue.heap)
                           + if Pop(q).isFillIn then multiset{} else multiset{Pop(q).packet.Counter()}
  {
    if HeadIsNext(q) {
      assert q.heap == [q.heap[0]] + q.heap[1..];
      BagConcat([q.heap[0]], q.heap[1..]);
      BagOne(q.heap[0]);
    } else {
      ConcealSteps(q);
      BagSameCounters(q.heap, Pop(q).queue.heap);
    }
  }

  // ----- what the operations do to the ledger -----

  function ArrivingPackets(c: Client, p: Packet, prefill: nat): seq<Packet> {
    if c.hasConnected then [p] else Paddings(p, prefill) + [p]
  }

  function QueueOrEmpty(c: Client): Queue {
    if c.queue.None? then EMPTY_QUEUE else c.queue.value
  }

  function LedgerArrive(l: Ledger, c: Client, p: Packet, prefill: nat): Ledger {
    l.(accepted := l.accepted + AcceptedBag(QueueOrEmpty(c), ArrivingPackets(c, p, prefill)))
  }

  function LedgerPop(l: Ledger, c: Client): Ledger {
    if CanPop(c) && !Pop(c.queue.value).isFillIn
    then l.(delivered := l.delivered + multiset{Pop(c.queue.value).packet.Counter()})
    else l
  }

  function LedgerPress(l: Ledger, c: Client, maximum: nat, retained: nat): Ledger {
    if QueueSize(c) <= maximum || QueueSize(c) <= retained then l
    else l.(discarded := l.discarded + Bag(c.queue.value.heap[..QueueSize(c) - retained]))
  }

  /** Everything accepted is queued, was delivered as a real packet, or was fast-forwarded over. */
  ghost predicate Balanced(c: Client, l: Ledger) {
    l.accepted == QueuedBag(c) + l.delivered + l.discarded
  }

  /** A client in its grace period has nothing left to lose. */
  ghost predicate Good(c: Client, l: Ledger) {
    && ValidClient(c)
    && (c.connection.Disconnecting? ==> QueueSize(c) == 0)
    && Balanced(c, l)
  }

  /** What the mixer saw with generation `g`, no queued packet, cannot be outdated unnoticed. */
  ghost predicate Observed(c: Client, g: nat) {
    g <= c.generation && (g == c.generation ==> QueueSize(c) == 0)
  }

  // ----- every operation keeps a client good -----

  lemma {:induction false} PushedAllAppend(q: Queue, ps: seq<Packet>, p: Packet)
    ensures PushedAll(q, ps + [p]) == Pushed(PushedAll(q, ps), p)
  {
    assert (ps + [p])[..|ps + [p]| - 1] == ps;
  }

  lemma ArrivalIsPushed(c: Client, p: Packet, prefill: nat)
    ensures ClientPushed(c, p, prefill).queue == Some(PushedAll(QueueOrEmpty(c), ArrivingPackets(c, p, prefill)))
  {
    hide Pushed;
    PushedAllAppend(QueueOrEmpty(c), [], p);
    assert [] + [p] == [p];
    PushedAllAppend(QueueOrEmpty(c), Paddings(p, prefill), p);
  }

  lemma ArriveGood(c: Client, l: Ledger, p: Packet, prefill: nat)
    requires Good(c, l)
    ensures Good(ClientPushed(c, p, prefill), LedgerArrive(l, c, p, prefill))
  {
    hide ValidClient, Paddings, PushedAll, AcceptedBag;
    ClientPushValid(c, p, prefill);
    ArrivalIsPushed(c, p, prefill);
    BagPushedAll(QueueOrEmpty(c), ArrivingPackets(c, p, prefill));
  }

  lemma PopGood(c: Client, l: Ledger)
    requires Good(c, l)
    ensures Good(ClientPopped(c), LedgerPop(l, c))
  {
    hide Valid, Pop, Bag;
    ClientPopValid(c);
    if CanPop(c) {
      BagPop(c.queue.value);
    }
  }

  lemma PressGood(c: Client, l: Ledger, maximum: nat, retained: nat)
    requires Good(c, l)
    ensures Good(Pressed(c, maximum, retained), LedgerPress(l, c, maximum, retained))
  {
    hide Valid, Bag;
    PressedValid(c, maximum, retained);
    if QueueSize(c) > maximum && QueueSize(c) > retained {
      var h := c.queue.value.heap;
      assert h == h[..|h| - retained] + h[|h| - retained..];
      BagConcat(h[..|h| - retained], h[|h| - retained..]);
    }
  }

  lemma MarkGood(c: Client, l: Ledger, g: nat, now: int)
    requires Good(c, l) && Observed(c, g)
    ensures Good(Marked(c, g, now), l)
  {
    hide Valid, Bag;
  }

  /** The disconnect removes the queue without touching the ledger: it must have been empty. */
  lemma ExpireGood(c: Client, l: Ledger, now: int)
    requires Good(c, l)
    ensures Good(Expired(c, now), l)
  {
    hide Valid;
  }

  // ----- the machine -----

  function ClientOf(s: State, name: Name): Client {
    if name in s.clients then s.clients[name] else NEW_CLIENT
  }

  function LedgerOf(s: State, name: Name): Ledger {
    if name in s.ledgers then s.ledgers[name] else NO_PACKETS
  }

  function With(s: State, name: Name, c: Client, l: Ledger): State {
    s.(clients := s.clients[name := c], ledgers := s.ledgers[name := l])
  }

  predicate Enabled(s: State, a: Action) {
    match a
    case Arrive(_, _) => true
    case BeginStep(_) => s.phase.Idle?
    case Expire(name) => s.phase.Checking? && name in s.clients && name !in s.visited
    case Press(name) => s.phase.Checking? && name in s.clients && name !in s.visited
    case Decide => s.phase.Checking?
    case PopOne(name) => s.phase.Popping? && name in s.clients && name !in s.visited && s.failed.None?
    case Look => s.phase.Popping? && s.failed.Some?
    case BeginMarking => s.phase.Popping? && s.failed.None?
    case Mark(name) => s.phase.Marking? && name in s.observed && name !in s.visited
    case EndStep => s.phase.Marking?
  }

  function PressOne(s: State, cfg: BufferConfig, name: Name): State {
    var c := Pressed(ClientOf(s, name), MaximumDepth(cfg), TargetDepth(cfg));
    With(s, name, c, LedgerPress(LedgerOf(s, name), ClientOf(s, name), MaximumDepth(cfg), TargetDepth(cfg))).(
      visited := s.visited + {name},
      active := if Active(c) then s.active + {name} else s.active,
      ready := if Ready(c, cfg) then s.ready + {name} else s.ready)
  }

  function PopFor(s: State, name: Name): State {
    var c := ClientOf(s, name);
    With(s, name, ClientPopped(c), LedgerPop(LedgerOf(s, name), c)).(
      visited := s.visited + {name},
      failed := if CanPop(c) then None else Some((name, c.generation)))
  }

  function Step(s: State, cfg: BufferConfig, a: Action): State {
    if !Enabled(s, a) then s
    else match a
      case Arrive(name, p) =>
        var prefill := AtLeastZero(cfg.prefill);
        With(s, name, ClientPushed(ClientOf(s, name), p, prefill),
             LedgerArrive(LedgerOf(s, name), ClientOf(s, name), p, prefill))
      case BeginStep(time) =>
        s.(phase := Checking, now := time, visited := {}, active := {}, ready := {}, observed := map[])
      case Expire(name) => With(s, name, Expired(ClientOf(s, name), s.now), LedgerOf(s, name))
      case Press(name) => PressOne(s, cfg, name)
      case Decide =>
        if |s.active| > 1 && |s.ready| != |s.active| then s.(phase := Idle)
        else s.(phase := Popping, visited := {})
      case PopOne(name) => PopFor(s, name)
      case Look =>
        var (name, generation) := s.failed.value;
        s.(failed := None,
           observed := if Active(ClientOf(s, name)) then s.observed[name := generation] else s.observed)
      case BeginMarking => s.(phase := Marking, visited := {})
      case Mark(name) =>
        With(s, name, Marked(ClientOf(s, name), s.observed[name], s.now), LedgerOf(s, name)).(
          visited := s.visited + {name})
      case EndStep => s.(phase := Idle)
  }

  function Run(cfg: BufferConfig, actions: seq<Action>): State {
    if actions == [] then START
    else Step(Run(cfg, actions[..|actions| - 1]), cfg, actions[|actions| - 1])
  }

  // ----- safety: nothing is lost -----

  ghost predicate AllGood(s: State) {
    && s.ledgers.Keys == s.clients.Keys
    && forall name :: name in s.clients ==> Good(s.clients[name], s.ledgers[name])
  }

  ghost predicate ObservationsHold(s: State) {
    && (s.failed.Some? ==> Observed(ClientOf(s, s.failed.value.0), s.failed.value.1))
    && (forall name :: name in s.observed ==> Observed(ClientOf(s, name), s.observed[name]))
  }

  lemma NewClientGood()
    ensures Good(NEW_CLIENT, NO_PACKETS)
  {}

  lemma GoodAt(s: State, name: Name)
    requires AllGood(s)
    ensures Good(ClientOf(s, name), LedgerOf(s, name))
  {
    hide Good;
    NewClientGood();
  }

  /** Nothing but an arrival, which advances the generation, can make a queue longer. */
  ghost predicate KeepsObservations(before: Client, after: Client) {
    && before.generation <= after.generation
    && (before.generation == after.generation ==> QueueSize(after) <= QueueSize(before))
  }

  lemma WithObservations(s: State, name: Name, c: Client, l: Ledger)
    requires ObservationsHold(s)
    requires KeepsObservations(ClientOf(s, name), c)
    ensures ObservationsHold(With(s, name, c, l))
  {
    hide QueueSize;
    var r := With(s, name, c, l);
    assert forall n :: n != name ==> ClientOf(r, n) == ClientOf(s, n);
  }

  lemma SameObservations(s: State, t: State)
    requires ObservationsHold(s)
    requires s.clients == t.clients && s.failed == t.failed && s.observed == t.observed
    ensures ObservationsHold(t)
  {
    hide Observed;
    assert forall n :: ClientOf(s, n) == ClientOf(t, n);
  }

  lemma PopKeepsObservations(c: Client)
    requires ValidClient(c)
    ensures KeepsObservations(c, ClientPopped(c))
    ensures !CanPop(c) ==> ClientPopped(c) == c && Observed(c, c.generation)
  {
    if CanPop(c) {
      hide Valid, Pop;
      PopDecreasesPotential(c.queue.value);
    }
  }

  ghost predicate Safe(s: State) {
    AllGood(s) && ObservationsHold(s)
  }

  lemma StepGood(s: State, cfg: BufferConfig, a: Action)
    requires Safe(s)
    ensures AllGood(Step(s, cfg, a))
  {
    hide Good, Observed, ClientPushed, ClientPopped, Pressed, Expired, Marked,
         LedgerArrive, LedgerPop, LedgerPress, Active, Ready, CanPop;
    if Enabled(s, a) {
      match a
      case Arrive(name, p) =>
        GoodAt(s, name);
        ArriveGood(ClientOf(s, name), LedgerOf(s, name), p, AtLeastZero(cfg.prefill));
      case Expire(name) =>
        GoodAt(s, name);
        ExpireGood(ClientOf(s, name), LedgerOf(s, name), s.now);
      case Press(name) =>
        GoodAt(s, name);
        PressGood(ClientOf(s, name), LedgerOf(s, name), MaximumDepth(cfg), TargetDepth(cfg));
      case PopOne(name) =>
        GoodAt(s, name);
        PopGood(ClientOf(s, name), LedgerOf(s, name));
      case Mark(name) =>
        GoodAt(s, name);
        MarkGood(ClientOf(s, name), LedgerOf(s, name), s.observed[name], s.now);
      case _ =>
    }
  }

  lemma StepObservations(s: State, cfg: BufferConfig, a: Action)
    requires Safe(s)
    ensures ObservationsHold(Step(s, cfg, a))
  {
    hide Safe, ObservationsHold, Enabled;
    match a
    case Arrive(name, p) => ArrivalObservations(s, cfg, name, p);
    case Expire(name) => if Enabled(s, a) { ExpireObservations(s, cfg, name); } else { SafeObservations(s); }
    case Press(name) => if Enabled(s, a) { PressObservations(s, cfg, name); } else { SafeObservations(s); }
    case PopOne(name) => if Enabled(s, a) { PopObservations(s, cfg, name); } else { SafeObservations(s); }
    case Mark(name) => if Enabled(s, a) { MarkObservations(s, cfg, name); } else { SafeObservations(s); }
    case _ => LocalObservations(s, cfg, a);
  }

  lemma SafeObservations(s: State)
    requires Safe(s)
    ensures ObservationsHold(s)
  {}

  /** The mixer's own steps turn a failed pop into an observation, or forget it. */
  lemma LocalObservations(s: State, cfg: BufferConfig, a: Action)
    requires Safe(s)
    requires a.BeginStep? || a.Decide? || a.Look? || a.BeginMarking? || a.EndStep?
    ensures ObservationsHold(Step(s, cfg, a))
  {
    hide Observed, Active, AllGood;
    assert forall n :: ClientOf(Step(s, cfg, a), n) == ClientOf(s, n);
  }

  lemma ArrivalObservations(s: State, cfg: BufferConfig, name: Name, p: Packet)
    requires Safe(s)
    ensures ObservationsHold(Step(s, cfg, Arrive(name, p)))
  {
    var c := ClientPushed(ClientOf(s, name), p, AtLeastZero(cfg.prefill));
    assert KeepsObservations(ClientOf(s, name), c);
    hide KeepsObservations, ClientPushed, LedgerArrive, AllGood, ObservationsHold;
    WithObservations(s, name, c, LedgerArrive(LedgerOf(s, name), ClientOf(s, name), p, AtLeastZero(cfg.prefill)));
  }

  lemma ExpireObservations(s: State, cfg: BufferConfig, name: Name)
    requires Safe(s) && Enabled(s, Expire(name))
    ensures ObservationsHold(Step(s, cfg, Expire(name)))
  {
    assert KeepsObservations(ClientOf(s, name), Expired(ClientOf(s, name), s.now));
    hide KeepsObservations, Expired, AllGood, ObservationsHold;
    WithObservations(s, name, Expired(ClientOf(s, name), s.now), LedgerOf(s, name));
  }

  lemma PressKeepsObservations(c: Client, maximum: nat, retained: nat)
    ensures KeepsObservations(c, Pressed(c, maximum, retained))
  {}

  lemma PressObservations(s: State, cfg: BufferConfig, name: Name)
    requires Safe(s) && Enabled(s, Press(name))
    ensures ObservationsHold(Step(s, cfg, Press(name)))
  {
    hide KeepsObservations, Pressed, LedgerPress, AllGood, ObservationsHold, Active, Ready, MaximumDepth, TargetDepth;
    PressKeepsObservations(ClientOf(s, name), MaximumDepth(cfg), TargetDepth(cfg));
    var c := Pressed(ClientOf(s, name), MaximumDepth(cfg), TargetDepth(cfg));
    var l := LedgerPress(LedgerOf(s, name), ClientOf(s, name), MaximumDepth(cfg), TargetDepth(cfg));
    WithObservations(s, name, c, l);
    SameObservations(With(s, name, c, l), Step(s, cfg, Press(name)));
  }

  lemma PopObservations(s: State, cfg: BufferConfig, name: Name)
    requires Safe(s) && Enabled(s, PopOne(name))
    ensures ObservationsHold(Step(s, cfg, PopOne(name)))
  {
    var c := ClientOf(s, name);
    GoodAt(s, name);
    PopKeepsObservations(c);
    hide KeepsObservations, ClientPopped, LedgerPop, AllGood, Good, Observed, CanPop;
    WithObservations(s, name, ClientPopped(c), LedgerPop(LedgerOf(s, name), c));
  }

  lemma MarkObservations(s: State, cfg: BufferConfig, name: Name)
    requires Safe(s) && Enabled(s, Mark(name))
    ensures ObservationsHold(Step(s, cfg, Mark(name)))
  {
    assert KeepsObservations(ClientOf(s, name), Marked(ClientOf(s, name), s.observed[name], s.now));
    hide KeepsObservations, Marked, AllGood, ObservationsHold;
    var c := Marked(ClientOf(s, name), s.observed[name], s.now);
    WithObservations(s, name, c, LedgerOf(s, name));
    SameObservations(With(s, name, c, LedgerOf(s, name)), Step(s, cfg, Mark(name)));
  }

  lemma {:induction false} RunsAreSafe(cfg: BufferConfig, actions: seq<Action>)
    ensures Safe(Run(cfg, actions))
  {
    if actions != [] {
      var s := Run(cfg, actions[..|actions| - 1]);
      RunsAreSafe(cfg, actions[..|actions| - 1]);
      hide Step, AllGood, ObservationsHold;
      StepGood(s, cfg, actions[|actions| - 1]);
      StepObservations(s, cfg, actions[|actions| - 1]);
    }
  }

  /**
   In every interleaving, a client whose grace period is running has an empty queue, and
   everything its queues ever accepted is still queued, was delivered once as a real packet,
   or was fast-forwarded over: no disconnect has thrown anything away.
   */
  lemma {:induction false} DisconnectLosesNothing(cfg: BufferConfig, actions: seq<Action>, name: Name)
    requires name in Run(cfg, actions).clients
    ensures var s := Run(cfg, actions);
      && name in s.ledgers
      && (s.clients[name].connection.Disconnecting? ==> QueueSize(s.clients[name]) == 0)
      && s.ledgers[name].accepted == QueuedBag(s.clients[name]) + s.ledgers[name].delivered + s.ledgers[name].discarded
  {
    RunsAreSafe(cfg, actions);
    hide ValidClient, Run, QueuedBag;
  }

  /**
   A packet that arrives in the grace period reconnects the client even if the queue rejects
   it; the queue stays empty exactly when the packet is at or below the last popped counter.
   */
  lemma RecoveryMayStayEmpty(c: Client, p: Packet, prefill: nat)
    requires ValidClient(c) && c.connection.Disconnecting? && QueueSize(c) == 0
    ensures TransitionOf(c) == GraceRecovery
    ensures ClientPushed(c, p, prefill).connection == Connected
    ensures QueueSize(ClientPushed(c, p, prefill)) == 0 <==> p.Counter() <= c.queue.value.lastPopped
  {}

  // ----- the readiness barrier -----

  ghost predicate StillReady(s: State, cfg: BufferConfig, names: set<Name>) {
    forall name :: name in names ==> Ready(ClientOf(s, name), cfg)
  }

  /** What the pressure pass counted stays true until the client is popped, whatever arrives. */
  ghost predicate BarrierHolds(s: State, cfg: BufferConfig) {
    && (s.phase.Checking? ==> s.ready <= s.active <= s.visited && StillReady(s, cfg, s.ready) && s.observed == map[])
    && (s.phase.Popping? ==> StillReady(s, cfg, s.ready - s.visited))
    && (s.phase.Popping? || s.phase.Marking? ==>
          && (|s.active| > 1 ==> s.active == s.ready)
          && s.observed.Keys !! s.ready)
    && (s.failed.Some? ==> s.phase.Popping? && s.failed.value.0 !in s.ready)
  }

  lemma SubsetOfSameSize(a: set<Name>, b: set<Name>)
    requires a <= b && |a| == |b|
    ensures a == b
  {
    assert b == a + (b - a);
    assert |b| == |a| + |b - a|;
  }

  lemma ArrivalKeepsReady(c: Client, cfg: BufferConfig, p: Packet, prefill: nat)
    requires ValidClient(c) && Ready(c, cfg)
    ensures Ready(ClientPushed(c, p, prefill), cfg)
  {
    hide Valid;
  }

  lemma ReadyCanPop(c: Client, cfg: BufferConfig)
    requires ValidClient(c) && Ready(c, cfg) && 0 <= cfg.jitter
    ensures CanPop(c) && QueueSize(ClientPopped(c)) >= cfg.jitter
  {
    ServeReady(c, cfg, 0);
  }

  /** A change of one client that keeps it ready, or that does not concern the given names. */
  lemma WithReady(s: State, cfg: BufferConfig, names: set<Name>, name: Name, c: Client, l: Ledger)
    requires StillReady(s, cfg, names)
    requires name in names ==> Ready(c, cfg)
    ensures StillReady(With(s, name, c, l), cfg, names)
  {
    hide Ready;
  }

  lemma ArrivalBarrier(s: State, cfg: BufferConfig, name: Name, p: Packet)
    requires AllGood(s) && BarrierHolds(s, cfg)
    ensures BarrierHolds(Step(s, cfg, Arrive(name, p)), cfg)
  {
    hide Ready, StillReady, ClientPushed, LedgerArrive;
    var names := if s.phase.Checking? then s.ready else s.ready - s.visited;
    var c := ClientOf(s, name);
    GoodAt(s, name);
    hide AllGood;
    if Ready(c, cfg) {
      ArrivalKeepsReady(c, cfg, p, AtLeastZero(cfg.prefill));
    }
    if StillReady(s, cfg, names) {
      assert name in names ==> Ready(c, cfg) by { ReadyAmong(s, cfg, names, name); }
      WithReady(s, cfg, names, name, ClientPushed(c, p, AtLeastZero(cfg.prefill)),
                LedgerArrive(LedgerOf(s, name), c, p, AtLeastZero(cfg.prefill)));
    }
  }

  lemma ReadyAmong(s: State, cfg: BufferConfig, names: set<Name>, name: Name)
    requires StillReady(s, cfg, names)
    ensures name in names ==> Ready(ClientOf(s, name), cfg)
  {}

  lemma ExpireBarrier(s: State, cfg: BufferConfig, name: Name)
    requires BarrierHolds(s, cfg) && Enabled(s, Expire(name))
    ensures BarrierHolds(Step(s, cfg, Expire(name)), cfg)
  {
    hide StillReady, Expired;
    WithReady(s, cfg, s.ready, name, Expired(ClientOf(s, name), s.now), LedgerOf(s, name));
  }

  lemma PressBarrier(s: State, cfg: BufferConfig, name: Name)
    requires BarrierHolds(s, cfg) && Enabled(s, Press(name))
    ensures BarrierHolds(Step(s, cfg, Press(name)), cfg)
  {
    hide Pressed, LedgerPress, Ready, Active, MaximumDepth, TargetDepth;
    var r := Step(s, cfg, Press(name));
    assert Ready(ClientOf(r, name), cfg) ==> Active(ClientOf(r, name)) by { ReadyIsActive(ClientOf(r, name), cfg); }
    assert StillReady(r, cfg, r.ready);
  }

  lemma ReadyIsActive(c: Client, cfg: BufferConfig)
    ensures Ready(c, cfg) ==> Active(c)
  {}

  lemma ReadyGoodCanPop(c: Client, l: Ledger, cfg: BufferConfig)
    requires Good(c, l) && 0 <= cfg.jitter
    ensures Ready(c, cfg) ==> CanPop(c)
  {
    hide Valid, Balanced;
    if Ready(c, cfg) {
      ReadyCanPop(c, cfg);
    }
  }

  /** The popped client is no longer among those that are still to be popped. */
  lemma PoppedStillReady(s: State, cfg: BufferConfig, name: Name)
    requires StillReady(s, cfg, s.ready - s.visited)
    requires Enabled(s, PopOne(name))
    ensures StillReady(Step(s, cfg, PopOne(name)), cfg, s.ready - (s.visited + {name}))
  {
    hide Ready, CanPop, ClientPopped, LedgerPop;
    forall n | n in s.ready - (s.visited + {name}) ensures Ready(ClientOf(Step(s, cfg, PopOne(name)), n), cfg) {
      assert n in s.ready - s.visited;
      assert ClientOf(Step(s, cfg, PopOne(name)), n) == ClientOf(s, n);
    }
  }

  lemma PopBarrier(s: State, cfg: BufferConfig, name: Name)
    requires AllGood(s) && BarrierHolds(s, cfg) && Enabled(s, PopOne(name)) && 0 <= cfg.jitter
    ensures BarrierHolds(Step(s, cfg, PopOne(name)), cfg)
  {
    hide AllGood, Good, CanPop, StillReady, ClientPopped, LedgerPop;
    GoodAt(s, name);
    ReadyGoodCanPop(ClientOf(s, name), LedgerOf(s, name), cfg);
    ReadyAmong(s, cfg, s.ready - s.visited, name);
    hide Ready;
    PoppedStillReady(s, cfg, name);
  }

  lemma LocalBarrier(s: State, cfg: BufferConfig, a: Action)
    requires BarrierHolds(s, cfg)
    requires a.BeginStep? || a.Decide? || a.Look? || a.BeginMarking? || a.EndStep? || a.Mark?
    ensures BarrierHolds(Step(s, cfg, a), cfg)
  {
    hide Ready, Active, Marked;
    if a.Decide? && Enabled(s, a) && |s.active| > 1 && |s.ready| == |s.active| {
      SubsetOfSameSize(s.ready, s.active);
    }
  }

  lemma StepBarrier(s: State, cfg: BufferConfig, a: Action)
    requires Safe(s) && BarrierHolds(s, cfg) && 0 <= cfg.jitter
    ensures BarrierHolds(Step(s, cfg, a), cfg)
  {
    hide AllGood, ObservationsHold, BarrierHolds, Enabled;
    if Enabled(s, a) {
      match a
      case Arrive(name, p) => ArrivalBarrier(s, cfg, name, p);
      case Expire(name) => ExpireBarrier(s, cfg, name);
      case Press(name) => PressBarrier(s, cfg, name);
      case PopOne(name) => PopBarrier(s, cfg, name);
      case _ => LocalBarrier(s, cfg, a);
    }
  }

  lemma {:induction false} RunsKeepBarrier(cfg: BufferConfig, actions: seq<Action>)
    requires 0 <= cfg.jitter
    ensures BarrierHolds(Run(cfg, actions), cfg)
  {
    if actions != [] {
      hide Safe, BarrierHolds, Step;
      RunsKeepBarrier(cfg, actions[..|actions| - 1]);
      RunsAreSafe(cfg, actions[..|actions| - 1]);
      StepBarrier(Run(cfg, actions[..|actions| - 1]), cfg, actions[|actions| - 1]);
    }
  }

  /**
   In every interleaving, once a step with several clients has passed the barrier, every
   client that it counted gives a packet when it is popped and keeps the jitter buffer, and
   none of them is ever marked in this step.
   */
  lemma {:induction false} CountedClientsAreServed(cfg: BufferConfig, actions: seq<Action>, name: Name)
    requires 0 <= cfg.jitter
    requires var s := Run(cfg, actions); |s.active| > 1 && name in s.active
    ensures var s := Run(cfg, actions);
      && (Enabled(s, PopOne(name)) ==>
            CanPop(s.clients[name]) && QueueSize(ClientPopped(s.clients[name])) >= cfg.jitter)
      && !Enabled(s, Mark(name))
  {
    RunsKeepBarrier(cfg, actions);
    RunsAreSafe(cfg, actions);
    hide Run, Ready, Valid, CanPop, ClientPopped, ObservationsHold, Balanced;
    var s := Run(cfg, actions);
    if Enabled(s, PopOne(name)) {
      ReadyCanPop(ClientOf(s, name), cfg);
    }
  }

  // ----- a configuration that starves -----

  /** Nobody was ready in the current step, and it serves nobody if it counted several clients. */
  ghost predicate Starves(s: State) {
    s.ready == {} && (s.phase.Popping? || s.phase.Marking? ==> |s.active| <= 1)
  }

  lemma StarvedStep(s: State, cfg: BufferConfig, a: Action)
    requires MaximumDepth(cfg) <= cfg.jitter && Starves(s)
    ensures Starves(Step(s, cfg, a))
  {
    hide ClientPushed, ClientPopped, Marked, Expired, LedgerArrive, LedgerPop, LedgerPress, CanPop;
    if a.Press? {
      PressureBounds(ClientOf(s, a.name), MaximumDepth(cfg), TargetDepth(cfg));
    }
  }

  lemma {:induction false} StarvedRun(cfg: BufferConfig, actions: seq<Action>)
    requires MaximumDepth(cfg) <= cfg.jitter
    ensures Starves(Run(cfg, actions))
  {
    if actions != [] {
      hide Starves, Step;
      StarvedRun(cfg, actions[..|actions| - 1]);
      StarvedStep(Run(cfg, actions[..|actions| - 1]), cfg, actions[|actions| - 1]);
    } else {
      hide Step;
    }
  }

  /**
   If the maximum does not exceed the jitter buffer, then in every interleaving, whatever
   arrives, no client is ever popped or marked in a step that counted several clients.
   */
  lemma {:induction false} StarvedSessionsAreNeverServed(cfg: BufferConfig, actions: seq<Action>, name: Name)
    requires MaximumDepth(cfg) <= cfg.jitter
    ensures var s := Run(cfg, actions);
      |s.active| > 1 ==> !Enabled(s, PopOne(name)) && !Enabled(s, Mark(name))
  {
    StarvedRun(cfg, actions);
    hide Run;
  }

  // ----- a silent client -----

  /** The connected client `name` is as it was, and it holds up every step. */
  ghost predicate HoldsUp(s: State, cfg: BufferConfig, name: Name, c: Client) {
    && name in s.clients && s.clients[name] == c
    && (s.phase.Idle? || s.phase.Checking?)
    && (s.phase.Checking? ==> s.ready <= s.active && name !in s.ready)
  }

  /** It has no more than the jitter buffer holds back, and no more than the maximum. */
  ghost predicate Silent(c: Client, cfg: BufferConfig) {
    c.connection.Connected? && QueueSize(c) <= cfg.jitter && QueueSize(c) <= MaximumDepth(cfg)
  }

  /** The pressure pass has counted the client and another one when it comes to its decision. */
  predicate CountsBoth(s: State, name: Name) {
    s.phase.Checking? ==> name in s.active && |s.active| > 1
  }

  lemma FewerReady(ready: set<Name>, active: set<Name>, name: Name)
    requires ready <= active && name in active && name !in ready
    ensures |ready| < |active|
  {
    SubsetSize(ready, active - {name});
  }

  lemma SilentClientIsLeftAlone(c: Client, cfg: BufferConfig, now: int)
    requires Silent(c, cfg)
    ensures Expired(c, now) == c && Pressed(c, MaximumDepth(cfg), TargetDepth(cfg)) == c && !Ready(c, cfg)
  {}

  lemma HoldsUpStep(s: State, cfg: BufferConfig, a: Action, name: Name, c: Client)
    requires HoldsUp(s, cfg, name, c) && Silent(c, cfg)
    requires !(a.Arrive? && a.name == name)
    requires a.Decide? ==> CountsBoth(s, name)
    ensures HoldsUp(Step(s, cfg, a), cfg, name, c)
  {
    SilentClientIsLeftAlone(c, cfg, s.now);
    if a.Decide? && s.phase.Checking? {
      FewerReady(s.ready, s.active, name);
    }
    hide ClientPushed, Pressed, Expired, LedgerArrive, LedgerPress, Silent, QueueSize, Marked, ClientPopped, LedgerPop;
  }

  /** From `before` on the client sends nothing, and every decision has counted it and somebody else. */
  ghost predicate NothingFrom(cfg: BufferConfig, before: seq<Action>, actions: seq<Action>, name: Name) {
    forall k :: 0 <= k < |actions| ==>
      && !(actions[k].Arrive? && actions[k].name == name)
      && (actions[k].Decide? ==> CountsBoth(Run(cfg, before + actions[..k]), name))
  }

  /**
   In every interleaving, whatever the others send: from an idle state on, a connected client that
   is silent is neither served nor marked nor disconnected, and no step serves anybody, as long as
   the mixer's decisions count it and another client.
   */
  lemma {:induction false} SilentClientStaysStuck(cfg: BufferConfig, before: seq<Action>, actions: seq<Action>,
                                                  name: Name)
    requires var s := Run(cfg, before); s.phase.Idle? && name in s.clients && Silent(s.clients[name], cfg)
    requires NothingFrom(cfg, before, actions, name)
    ensures var s := Run(cfg, before + actions);
      && name in s.clients && s.clients[name] == Run(cfg, before).clients[name]
      && !s.phase.Popping? && !s.phase.Marking?
    ensures HoldsUp(Run(cfg, before + actions), cfg, name, Run(cfg, before).clients[name])
  {
    hide Step, Silent;
    if actions == [] {
      assert before + actions == before;
    } else {
      var n := |actions| - 1;
      assert forall k :: 0 <= k < n ==> actions[..n][..k] == actions[..k];
      SilentClientStaysStuck(cfg, before, actions[..n], name);
      assert (before + actions)[..|before + actions| - 1] == before + actions[..n];
      hide HoldsUp, CountsBoth;
      HoldsUpStep(Run(cfg, before + actions[..n]), cfg, actions[n], name, Run(cfg, before).clients[name]);
    }
    HoldsUpMeans(Run(cfg, before + actions), cfg, name, Run(cfg, before).clients[name]);
  }

  lemma HoldsUpMeans(s: State, cfg: BufferConfig, name: Name, c: Client)
    requires HoldsUp(s, cfg, name, c)
    ensures name in s.clients && s.clients[name] == c && !s.phase.Popping? && !s.phase.Marking?
  {}
}

/**
 One step of the server's scheduler on the values of its clients
 (Server/Source/ServerMixScheduler.cpp), and what the step guarantees.
 */
module SchedulerModel {
  import opened Packets
  import opened StreamQueueModel
  import opened ClientModel

  datatype BufferConfig = BufferConfig(jitter: int, maximum: int, prefill: int)

  function AtLeastZero(n: int): nat {
    if n < 0 then 0 else n
  }

  function MaximumDepth(cfg: BufferConfig): nat {
    AtLeastZero(cfg.maximum)
  }

  function TargetDepth(cfg: BufferConfig): nat {
    if AtLeastZero(cfg.jitter) < MaximumDepth(cfg) then AtLeastZero(cfg.jitter) else MaximumDepth(cfg)
  }

  /** A client after the pressure pass. */
  function Checked(c: Client, cfg: BufferConfig, now: int): Client {
    Pressed(Expired(c, now), MaximumDepth(cfg), TargetDepth(cfg))
  }

  predicate Active(c: Client) {
    !c.connection.Disconnected?
  }

  /** More packets are queued than the jitter buffer has to hold back. */
  predicate Ready(c: Client, cfg: BufferConfig) {
    Active(c) && QueueSize(c) > cfg.jitter
  }

  function CheckedAll(cs: seq<Client>, cfg: BufferConfig, now: int): (r: seq<Client>)
    ensures |r| == |cs|
  {
    seq(|cs|, i requires 0 <= i < |cs| => Checked(cs[i], cfg, now))
  }

  function CountActive(cs: seq<Client>): nat {
    if cs == [] then 0 else CountActive(cs[..|cs| - 1]) + if Active(cs[|cs| - 1]) then 1 else 0
  }

  function CountReady(cs: seq<Client>, cfg: BufferConfig): nat {
    if cs == [] then 0 else CountReady(cs[..|cs| - 1], cfg) + if Ready(cs[|cs| - 1], cfg) then 1 else 0
  }

  /** The barrier: with several clients, all of them have to be ready. */
  predicate Blocked(cs: seq<Client>, cfg: BufferConfig) {
    CountActive(cs) > 1 && CountReady(cs, cfg) != CountActive(cs)
  }

  /** A client after the pop pass and the underrun pass. */
  function Served(c: Client, now: int): Client {
    if CanPop(c) then ClientPopped(c) else Marked(c, c.generation, now)
  }

  function ServedAll(cs: seq<Client>, now: int): (r: seq<Client>)
    ensures |r| == |cs|
  {
    seq(|cs|, i requires 0 <= i < |cs| => Served(cs[i], now))
  }

  function Stepped(cs: seq<Client>, cfg: BufferConfig, now: int): seq<Client> {
    var checked := CheckedAll(cs, cfg, now);
    if Blocked(checked, cfg) then checked else ServedAll(checked, now)
  }

  ghost predicate AllValid(cs: seq<Client>) {
    forall i :: 0 <= i < |cs| ==> ValidClient(cs[i])
  }

  // ----- counting -----

  lemma {:induction false} ReadyAtMostActive(cs: seq<Client>, cfg: BufferConfig)
    ensures CountReady(cs, cfg) <= CountActive(cs)
    ensures CountReady(cs, cfg) == CountActive(cs) <==>
              forall i :: 0 <= i < |cs| && Active(cs[i]) ==> Ready(cs[i], cfg)
  {
    if cs != [] {
      var front := cs[..|cs| - 1];
      ReadyAtMostActive(front, cfg);
      assert forall i :: 0 <= i < |front| ==> front[i] == cs[i];
      if forall i :: 0 <= i < |front| && Active(front[i]) ==> Ready(front[i], cfg) {
        assert forall i :: 0 <= i < |cs| - 1 && Active(cs[i]) ==> Ready(cs[i], cfg);
      } else {
        var i :| 0 <= i < |front| && Active(front[i]) && !Ready(front[i], cfg);
        assert !Ready(cs[i], cfg);
      }
    }
  }

  lemma {:induction false} SomeActive(cs: seq<Client>)
    requires CountActive(cs) > 0
    ensures exists i :: 0 <= i < |cs| && Active(cs[i])
  {
    if !Active(cs[|cs| - 1]) {
      SomeActive(cs[..|cs| - 1]);
      var i :| 0 <= i < |cs| - 1 && Active(cs[..|cs| - 1][i]);
      assert Active(cs[i]);
    }
  }

  // ----- one step -----

  lemma CheckedValid(c: Client, cfg: BufferConfig, now: int)
    requires ValidClient(c)
    ensures ValidClient(Checked(c, cfg, now))
  {
    hide Valid;
    PressedValid(Expired(c, now), MaximumDepth(cfg), TargetDepth(cfg));
  }

  lemma ServedValid(c: Client, now: int)
    requires ValidClient(c)
    ensures ValidClient(Served(c, now))
  {
    hide Valid;
    ClientPopValid(c);
  }

  lemma SteppedValid(cs: seq<Client>, cfg: BufferConfig, now: int)
    requires AllValid(cs)
    ensures AllValid(Stepped(cs, cfg, now))
  {
    hide ValidClient, Blocked;
    var checked := CheckedAll(cs, cfg, now);
    forall i | 0 <= i < |cs| ensures ValidClient(checked[i]) && ValidClient(Served(checked[i], now)) {
      CheckedValid(cs[i], cfg, now);
      ServedValid(checked[i], now);
    }
  }

  /** The pressure pass bounds every queue, and touches only clients above the bound or past their grace. */
  lemma PressureIsLocal(c: Client, cfg: BufferConfig, now: int)
    ensures QueueSize(Checked(c, cfg, now)) <= MaximumDepth(cfg)
    ensures !GraceExpired(c, now) && QueueSize(c) <= MaximumDepth(cfg) ==> Checked(c, cfg, now) == c
    ensures !GraceExpired(c, now) && QueueSize(c) > MaximumDepth(cfg) ==>
              QueueSize(Checked(c, cfg, now)) == TargetDepth(cfg)
  {}

  /** The depth that pressure leaves: the jitter buffer, but never more than the maximum. */
  predicate IsDepth(depth: int, cfg: BufferConfig) {
    if cfg.jitter <= 0 || cfg.maximum <= 0 then depth == 0
    else depth <= cfg.jitter && depth <= cfg.maximum && (depth == cfg.jitter || depth == cfg.maximum)
  }

  /**
   Pressure on a client that was connected, or whose deadline lies ahead: a queue above the maximum
   keeps its newest packets, as many as the jitter buffer holds, and any other is left alone. Unless
   the jitter buffer is negative, a client that was above the maximum is then not ready.
   */
  lemma {:induction false} PressureKeepsTheNewest(c: Client, cfg: BufferConfig, now: int, depth: int)
    requires c.connection.Connected? || (c.connection.Disconnecting? && now < c.deadline)
    requires c.queue.Some? && IsDepth(depth, cfg)
    ensures var heap, r := c.queue.value.heap, Checked(c, cfg, now);
      if |heap| > cfg.maximum && heap != [] then
        && depth < |heap|
        && r == c.(queue := r.queue) && r.queue.Some?
        && r.queue.value.heap == heap[|heap| - depth..]
        && (0 <= cfg.jitter ==> !Ready(r, cfg))
      else
        r == c
  {}

  /**
   A step that finds the queue of an active client above the maximum pops nobody in a session of
   several active clients: it holds the whole session back until that client is ready again.
   */
  lemma {:induction false} OverfullQueueHoldsSessionBack(cs: seq<Client>, cfg: BufferConfig, now: int, i: nat)
    requires i < |cs| && 0 <= cfg.jitter
    requires cs[i].connection.Connected? || (cs[i].connection.Disconnecting? && now < cs[i].deadline)
    requires cs[i].queue.Some? && |cs[i].queue.value.heap| > cfg.maximum && cs[i].queue.value.heap != []
    requires CountActive(CheckedAll(cs, cfg, now)) > 1
    ensures Stepped(cs, cfg, now) == CheckedAll(cs, cfg, now)
  {
    var checked := CheckedAll(cs, cfg, now);
    var depth := if cfg.maximum <= 0 then 0 else if cfg.jitter < cfg.maximum then cfg.jitter else cfg.maximum;
    PressureKeepsTheNewest(cs[i], cfg, now, depth);
    ReadyAtMostActive(checked, cfg);
    assert Active(checked[i]) && !Ready(checked[i], cfg);
  }

  /** Serving a client that is ready takes one packet, leaves the jitter buffer filled and marks nothing. */
  lemma ServeReady(c: Client, cfg: BufferConfig, now: int)
    requires ValidClient(c) && Ready(c, cfg)
    requires 0 <= cfg.jitter
    ensures CanPop(c)
    ensures Served(c, now) == ClientPopped(c)
    ensures QueueSize(Served(c, now)) >= cfg.jitter
    ensures Served(c, now).connection == c.connection
  {
    hide Valid;
    PopDecreasesPotential(c.queue.value);
  }

  /**
   The barrier: with two or more active clients, nobody is popped unless all of them hold
   more than the jitter buffer; then each gives one packet, keeps the jitter buffer, and
   none is marked.
   */
  lemma {:induction false} AllOrNothing(cs: seq<Client>, cfg: BufferConfig, now: int)
    requires AllValid(cs) && 0 <= cfg.jitter
    requires CountActive(CheckedAll(cs, cfg, now)) > 1
    ensures var checked := CheckedAll(cs, cfg, now);
      var after := Stepped(cs, cfg, now);
      if forall i :: 0 <= i < |cs| && Active(checked[i]) ==> Ready(checked[i], cfg) then
        forall i :: 0 <= i < |cs| && Active(checked[i]) ==>
          && CanPop(checked[i])
          && after[i] == ClientPopped(checked[i])
          && QueueSize(after[i]) >= cfg.jitter
          && after[i].connection == checked[i].connection
      else
        after == checked
  {
    hide ValidClient, Active, Ready, Served, ClientPopped, CanPop;
    var checked := CheckedAll(cs, cfg, now);
    ReadyAtMostActive(checked, cfg);
    if forall i :: 0 <= i < |cs| && Active(checked[i]) ==> Ready(checked[i], cfg) {
      forall i | 0 <= i < |cs| && Active(checked[i])
        ensures CanPop(checked[i])
        ensures Served(checked[i], now) == ClientPopped(checked[i])
        ensures QueueSize(Served(checked[i], now)) >= cfg.jitter
        ensures Served(checked[i], now).connection == checked[i].connection
      {
        CheckedValid(cs[i], cfg, now);
        ServeReady(checked[i], cfg, now);
      }
    }
  }

  /**
   A configuration whose maximum does not exceed its jitter buffer starves every session of
   two or more clients: the pressure pass keeps all queues below the readiness threshold.
   With a larger maximum a queue can pass the barrier.
   */
  lemma StarvedExactlyWhenMaximumTooSmall(cfg: BufferConfig)
    requires cfg.maximum < U64_LIMIT - 1
    ensures (forall c, now :: ValidClient(c) ==> !Ready(Checked(c, cfg, now), cfg)) <==> MaximumDepth(cfg) <= cfg.jitter
  {
    if MaximumDepth(cfg) <= cfg.jitter {
      forall c, now ensures !Ready(Checked(c, cfg, now), cfg) {
        PressureIsLocal(c, cfg, now);
      }
    } else {
      var full := FullClient(MaximumDepth(cfg));
      PressureIsLocal(full, cfg, 0);
      assert Ready(Checked(full, cfg, 0), cfg);
    }
  }

  /** A connected client with the packets 1 to `n` in its queue. */
  ghost function FullClient(n: nat): (c: Client)
    requires n < U64_LIMIT - 1
    ensures ValidClient(c) && Active(c) && QueueSize(c) == n
  {
    var heap := seq(n, i requires 0 <= i < n =>
      Packet(Block(i + 1, 0.0, 0, 0.0, NoSignal, ChannelSetup(false, []), RawAudio(0, [])), None));
    Client(Connected, Some(EMPTY_QUEUE.(heap := heap, inQueue := Counters(heap))), 0, 1, true)
  }

  lemma StarvedSessionsNeverMix(cs: seq<Client>, cfg: BufferConfig, now: int)
    requires MaximumDepth(cfg) <= cfg.jitter
    requires CountActive(CheckedAll(cs, cfg, now)) > 1
    ensures Stepped(cs, cfg, now) == CheckedAll(cs, cfg, now)
  {
    var checked := CheckedAll(cs, cfg, now);
    SomeActive(checked);
    var i :| 0 <= i < |checked| && Active(checked[i]);
    PressureIsLocal(cs[i], cfg, now);
    ReadyAtMostActive(checked, cfg);
  }

  /**
   A connected client that stays silent blocks the session: with another active client, no
   step serves anybody, and no step ever marks or disconnects the silent one.
   */
  lemma SilentPeerBlocksSession(cs: seq<Client>, cfg: BufferConfig, now: int, i: nat)
    requires i < |cs| && cs[i].connection.Connected?
    requires QueueSize(cs[i]) <= cfg.jitter && QueueSize(cs[i]) <= MaximumDepth(cfg)
    requires CountActive(CheckedAll(cs, cfg, now)) > 1
    ensures Stepped(cs, cfg, now) == CheckedAll(cs, cfg, now)
    ensures Stepped(cs, cfg, now)[i] == cs[i]
  {
    var checked := CheckedAll(cs, cfg, now);
    PressureIsLocal(cs[i], cfg, now);
    assert Active(checked[i]) && !Ready(checked[i], cfg);
    ReadyAtMostActive(checked, cfg);
  }

  /**
   A step marks a connected client if and only if the pressure pass leaves its queue empty and
   no other client is active. (A negative jitter buffer, which lets empty queues pass the
   barrier, does away with the second condition.) An empty queue always is left as it is.
   */
  lemma MarkedExactlyWhenAloneAndEmpty(cs: seq<Client>, cfg: BufferConfig, now: int, i: nat)
    requires i < |cs| && ValidClient(cs[i]) && cs[i].connection.Connected?
    ensures var after := Stepped(cs, cfg, now)[i];
      && (after.connection.Disconnecting?
          <==> QueueSize(Checked(cs[i], cfg, now)) == 0
               && (CountActive(CheckedAll(cs, cfg, now)) <= 1 || cfg.jitter < 0))
      && (after.connection.Disconnecting? ==> after.deadline == now + 2000)
    ensures QueueSize(cs[i]) == 0 ==> QueueSize(Checked(cs[i], cfg, now)) == 0
  {
    var checked := CheckedAll(cs, cfg, now);
    PressureIsLocal(cs[i], cfg, now);
    ReadyAtMostActive(checked, cfg);
    hide Valid, CountActive, CountReady, Pop;
    assert Active(checked[i]);
  }

  /** A step leaves disconnected those who were, and those whose grace is over, whatever the barrier says. */
  lemma DisconnectedExactlyWhenGraceIsOver(cs: seq<Client>, cfg: BufferConfig, now: int, i: nat)
    requires i < |cs|
    ensures var after := Stepped(cs, cfg, now)[i];
      && (after.connection.Disconnected?
          <==> cs[i].connection.Disconnected? || (cs[i].connection.Disconnecting? && cs[i].deadline <= now))
      && (cs[i].connection.Disconnecting? && cs[i].deadline <= now ==>
            after == cs[i].(connection := Disconnected, queue := None))
      && (cs[i].connection.Disconnecting? && now < cs[i].deadline ==>
            after.connection.Disconnecting? && after.deadline == cs[i].deadline)
  {
    hide Pop, FastForwarded, Blocked;
  }

  // ----- many steps -----

  /** The clients after steps at these times, when nothing arrives. */
  function StepsOf(cs: seq<Client>, cfg: BufferConfig, times: seq<int>): (r: seq<Client>)
    ensures |r| == |cs|
  {
    if times == [] then cs else Stepped(StepsOf(cs, cfg, times[..|times| - 1]), cfg, times[|times| - 1])
  }

  lemma {:induction false} StepsValid(cs: seq<Client>, cfg: BufferConfig, times: seq<int>)
    requires AllValid(cs)
    ensures AllValid(StepsOf(cs, cfg, times))
  {
    hide AllValid, Stepped;
    if times != [] {
      StepsValid(cs, cfg, times[..|times| - 1]);
      SteppedValid(StepsOf(cs, cfg, times[..|times| - 1]), cfg, times[|times| - 1]);
    }
  }

  lemma {:induction false} CountsActive(cs: seq<Client>, i: nat)
    requires i < |cs| && Active(cs[i])
    ensures CountActive(cs) >= 1
    ensures CountActive(cs) > 1 <==> exists j :: 0 <= j < |cs| && j != i && Active(cs[j])
  {
    var front := cs[..|cs| - 1];
    assert forall j :: 0 <= j < |front| ==> front[j] == cs[j];
    if i < |front| {
      CountsActive(front, i);
    } else if CountActive(front) > 0 {
      SomeActive(front);
    } else if j :| 0 <= j < |front| && Active(front[j]) {
      CountsActive(front, j);
    }
  }

  /** Without arrivals, one silent client keeps a session with another connected client stuck for good. */
  lemma {:induction false} SilentSessionStaysStuck(cs: seq<Client>, cfg: BufferConfig, times: seq<int>, i: nat, j: nat)
    requires i < |cs| && j < |cs| && i != j && cs[i].connection.Connected? && cs[j].connection.Connected?
    requires QueueSize(cs[i]) <= cfg.jitter && QueueSize(cs[i]) <= MaximumDepth(cfg)
    ensures StepsOf(cs, cfg, times)[i] == cs[i]
    ensures StepsOf(cs, cfg, times)[j].connection.Connected?
  {
    if times != [] {
      var before, now := StepsOf(cs, cfg, times[..|times| - 1]), times[|times| - 1];
      SilentSessionStaysStuck(cs, cfg, times[..|times| - 1], i, j);
      var checked := CheckedAll(before, cfg, now);
      CountsActive(checked, i);
      assert Active(checked[j]);
      SilentPeerBlocksSession(before, cfg, now, i);
    }
  }

  /** Nobody but client `i` is connected. */
  ghost predicate Lonely(cs: seq<Client>, i: nat) {
    i < |cs| && forall j :: 0 <= j < |cs| && j != i ==> cs[j].connection.Disconnected?
  }

  /** One step of a lonely client: it is popped, or marked. */
  lemma LonelyStep(cs: seq<Client>, cfg: BufferConfig, now: int, i: nat)
    requires AllValid(cs) && Lonely(cs, i)
    ensures Lonely(Stepped(cs, cfg, now), i)
    ensures cs[i].connection.Connected? ==>
              var after := Stepped(cs, cfg, now)[i];
              || (after.connection.Connected? && 0 <= ClientPotential(after) < ClientPotential(cs[i]))
              || (after.connection.Disconnecting? && after.deadline == now + DISCONNECT_GRACE_PERIOD)
  {
    forall j | 0 <= j < |cs| ensures j != i ==> Stepped(cs, cfg, now)[j].connection.Disconnected? {
      DisconnectedExactlyWhenGraceIsOver(cs, cfg, now, j);
    }
    hide Valid, Pop, Potential;
    var checked := CheckedAll(cs, cfg, now);
    if cs[i].connection.Connected? {
      CountsActive(checked, i);
      CheckedPotential(cs[i], cfg, now);
      CheckedValid(cs[i], cfg, now);
      ServedPotential(checked[i], now);
      hide CountActive, CountReady, Pressed, ClientPotential;
    }
  }

  /** What a lonely client has come to: its queue shrinks until it is marked, and then the grace period ends. */
  lemma {:induction false} LonelySteps(cs: seq<Client>, cfg: BufferConfig, times: seq<int>, i: nat, late: int)
    requires AllValid(cs) && Lonely(cs, i) && cs[i].connection.Connected?
    requires forall k :: 0 <= k < |times| ==> times[k] + DISCONNECT_GRACE_PERIOD <= late
    ensures Lonely(StepsOf(cs, cfg, times), i)
    ensures var c := StepsOf(cs, cfg, times)[i];
      && (c.connection.Connected? ==> 0 <= ClientPotential(c) && ClientPotential(c) + |times| <= ClientPotential(cs[i]))
      && (c.connection.Disconnecting? ==> c.deadline <= late)
  {
    if times == [] {
      PotentialIsNatural(cs[i]);
    } else {
      var before, now := StepsOf(cs, cfg, times[..|times| - 1]), times[|times| - 1];
      LonelySteps(cs, cfg, times[..|times| - 1], i, late);
      StepsValid(cs, cfg, times[..|times| - 1]);
      LonelyStep(before, cfg, now, i);
      DisconnectedExactlyWhenGraceIsOver(before, cfg, now, i);
      hide Stepped, ClientPotential, AllValid;
    }
  }

  /**
   A silent client that is alone, among any number of disconnected ones, is disconnected: after
   more steps than its potential, the first step after the last grace period ends its connection.
   */
  lemma LonelySilentClientIsDisconnected(cs: seq<Client>, cfg: BufferConfig, times: seq<int>, i: nat, late: int)
    requires AllValid(cs) && Lonely(cs, i) && cs[i].connection.Connected?
    requires |times| > ClientPotential(cs[i])
    requires forall k :: 0 <= k < |times| ==> times[k] + DISCONNECT_GRACE_PERIOD <= late
    ensures StepsOf(cs, cfg, times + [late])[i].connection.Disconnected?
  {
    var before := StepsOf(cs, cfg, times);
    assert (times + [late])[..|times|] == times;
    LonelySteps(cs, cfg, times, i, late);
    DisconnectedExactlyWhenGraceIsOver(before, cfg, late, i);
  }

  // ----- the mixer's wake-again loop -----

  function ClientPotential(c: Client): int {
    if c.queue.None? then 0 else Potential(c.queue.value)
  }

  function TotalPotential(cs: seq<Client>): int {
    if cs == [] then 0 else TotalPotential(cs[..|cs| - 1]) + ClientPotential(cs[|cs| - 1])
  }

  lemma PotentialIsNatural(c: Client)
    requires ValidClient(c)
    ensures 0 <= ClientPotential(c)
  {}

  lemma CheckedPotential(c: Client, cfg: BufferConfig, now: int)
    requires ValidClient(c)
    ensures 0 <= ClientPotential(Checked(c, cfg, now)) <= ClientPotential(c)
  {}

  lemma ServedPotential(c: Client, now: int)
    requires ValidClient(c)
    ensures 0 <= ClientPotential(Served(c, now)) <= ClientPotential(c)
    ensures CanPop(c) ==> ClientPotential(Served(c, now)) < ClientPotential(c)
  {
    if CanPop(c) {
      hide Valid, Pop;
      PopDecreasesPotential(c.queue.value);
    }
  }

  lemma {:induction false} TotalPotentialOrder(cs: seq<Client>, ds: seq<Client>)
    requires |cs| == |ds|
    requires forall i :: 0 <= i < |cs| ==> ClientPotential(ds[i]) <= ClientPotential(cs[i])
    ensures TotalPotential(ds) <= TotalPotential(cs)
    ensures (exists i :: 0 <= i < |cs| && ClientPotential(ds[i]) < ClientPotential(cs[i])) ==>
              TotalPotential(ds) < TotalPotential(cs)
  {
    if cs != [] {
      var cf, df := cs[..|cs| - 1], ds[..|ds| - 1];
      assert forall i :: 0 <= i < |cf| ==> cf[i] == cs[i] && df[i] == ds[i];
      TotalPotentialOrder(cf, df);
      if i :| 0 <= i < |cs| && ClientPotential(ds[i]) < ClientPotential(cs[i]) {
        if i < |cf| {
          assert ClientPotential(df[i]) < ClientPotential(cf[i]);
        }
      }
    }
  }

  /** The step pops a fill-in, and so asks for another step at once. */
  predicate WakesAgain(cs: seq<Client>, cfg: BufferConfig, now: int) {
    var checked := CheckedAll(cs, cfg, now);
    !Blocked(checked, cfg) && exists i :: 0 <= i < |cs| && GivesFillIn(checked[i])
  }

  predicate GivesFillIn(c: Client) {
    CanPop(c) && Pop(c.queue.value).isFillIn
  }

  ghost predicate SomebodyPopped(cs: seq<Client>, cfg: BufferConfig, now: int) {
    var checked := CheckedAll(cs, cfg, now);
    !Blocked(checked, cfg) && exists i :: 0 <= i < |cs| && CanPop(checked[i])
  }

  /**
   Without arrivals, every step in which anybody is popped lowers the total potential, so the
   mixer can wake itself up again only finitely often, although fill-ins shrink no queue.
   */
  lemma WakingAgainTerminates(cs: seq<Client>, cfg: BufferConfig, now: int)
    requires AllValid(cs)
    ensures 0 <= TotalPotential(Stepped(cs, cfg, now)) <= TotalPotential(cs)
    ensures SomebodyPopped(cs, cfg, now) ==> TotalPotential(Stepped(cs, cfg, now)) < TotalPotential(cs)
  {
    hide ValidClient, ClientPotential, CanPop, Served, Checked, Blocked;
    var checked, after := CheckedAll(cs, cfg, now), Stepped(cs, cfg, now);
    forall i | 0 <= i < |cs|
      ensures 0 <= ClientPotential(after[i]) <= ClientPotential(checked[i]) <= ClientPotential(cs[i])
      ensures after == ServedAll(checked, now) && CanPop(checked[i]) ==>
                ClientPotential(after[i]) < ClientPotential(checked[i])
    {
      CheckedValid(cs[i], cfg, now);
      CheckedPotential(cs[i], cfg, now);
      ServedPotential(checked[i], now);
    }
    TotalPotentialOrder(cs, after);
    TotalPotentialPositive(after);
  }

  /** Without arrivals, the mixer wakes itself up at most as many times in a row as the total potential. */
  lemma {:induction false} SelfWakesAreBounded(cs: seq<Client>, cfg: BufferConfig, times: seq<int>)
    requires AllValid(cs)
    requires forall k :: 0 <= k < |times| ==> WakesAgain(StepsOf(cs, cfg, times[..k]), cfg, times[k])
    ensures 0 <= TotalPotential(StepsOf(cs, cfg, times)) <= TotalPotential(cs) - |times|
  {
    hide AllValid, WakesAgain, SomebodyPopped, Stepped;
    if times == [] {
      ValidPotential(cs);
    } else {
      var n := |times| - 1;
      var before := StepsOf(cs, cfg, times[..n]);
      assert forall k :: 0 <= k < n ==> times[..n][..k] == times[..k];
      SelfWakesAreBounded(cs, cfg, times[..n]);
      StepsValid(cs, cfg, times[..n]);
      WakingPops(before, cfg, times[n]);
      WakingAgainTerminates(before, cfg, times[n]);
    }
  }

  lemma WakingPops(cs: seq<Client>, cfg: BufferConfig, now: int)
    ensures WakesAgain(cs, cfg, now) ==> SomebodyPopped(cs, cfg, now)
  {
    hide CanPop, Checked, Blocked, Pop;
    var checked := CheckedAll(cs, cfg, now);
    if WakesAgain(cs, cfg, now) {
      var i :| 0 <= i < |cs| && GivesFillIn(checked[i]);
      assert CanPop(checked[i]);
    }
  }

  lemma ValidPotential(cs: seq<Client>)
    requires AllValid(cs)
    ensures 0 <= TotalPotential(cs)
  {
    forall i | 0 <= i < |cs| ensures 0 <= ClientPotential(cs[i]) {
      PotentialIsNatural(cs[i]);
    }
    TotalPotentialPositive(cs);
  }

  lemma {:induction false} TotalPotentialPositive(cs: seq<Client>)
    requires forall i :: 0 <= i < |cs| ==> 0 <= ClientPotential(cs[i])
    ensures 0 <= TotalPotential(cs)
  {
    if cs != [] {
      TotalPotentialPositive(cs[..|cs| - 1]);
    }
  }
}

/**
 The scheduler as an object over the server's clients
 (Server/Source/ServerMixScheduler.h, Server/Source/ServerMixScheduler.cpp), proved to take
 exactly the step of `SchedulerModel`. No packet arrives during a step here; arrivals
 between the calls on the clients are the subject of `ServerProtocol`.
 */
module ServerMixSchedulers {
  import opened Packets
  import opened StreamQueueModel
  import opened PacketStreamQueues
  import opened ClientModel
  import opened ClientStates
  import opened SchedulerModel
  import MixModel
  import opened ServerMixerCores

  datatype Trigger = NoTrigger | SingleClient | AllClientsReady

  /** A client of the server's map, in the order of iteration. */
  datatype Entry = Entry(name: Name, state: ClientState)

  datatype ScheduledMixResult = ScheduledMixResult(
    trigger: Trigger,
    pressure: PressureReport,
    pops: PopReport,
    underrunClients: seq<Name>,
    queuesAfter: map<Name, QueueSnapshot>,
    mix: MixStepResult)

  const NO_MIX := ScheduledMixResult(NoTrigger, NO_PRESSURE, NOTHING_POPPED, [], map[], MixStepResult(0, [], []))

  /** Why a step that is not blocked mixes. */
  function TriggerOf(checked: seq<Client>): Trigger {
    if CountActive(checked) == 1 then SingleClient
    else if CountActive(checked) > 1 then AllClientsReady
    else NoTrigger
  }

  // ----- the clients -----

  ghost function States(clients: seq<Entry>): set<object> {
    set e | e in clients :: e.state
  }

  ghost function Queues(clients: seq<Entry>): set<object>
    reads States(clients)
  {
    set e | e in clients && e.state.queue != null :: e.state.queue
  }

  ghost predicate DistinctNames(clients: seq<Entry>) {
    forall i, j :: 0 <= i < j < |clients| ==> clients[i].name != clients[j].name
  }

  /** All clients are valid, have different names and share no object. */
  ghost predicate Separate(clients: seq<Entry>)
    reads States(clients), Queues(clients)
  {
    && DistinctNames(clients)
    && (forall i :: 0 <= i < |clients| ==> clients[i].state.Ok())
    && (forall i, j :: 0 <= i < j < |clients| ==>
          && clients[i].state != clients[j].state
          && (clients[i].state.queue != null ==> clients[i].state.queue != clients[j].state.queue))
  }

  /** The clients are separate, and `models` are their values. */
  ghost predicate Holds(clients: seq<Entry>, models: seq<Client>)
    reads States(clients), Queues(clients)
  {
    && Separate(clients)
    && |models| == |clients|
    && forall i :: 0 <= i < |clients| ==> clients[i].state.Model() == models[i]
  }

  lemma SeparateEntry(clients: seq<Entry>, i: nat)
    requires i < |clients| && Separate(clients)
    ensures clients[i].state.Ok()
    ensures clients[i].state in States(clients)
    ensures clients[i].state.Queues() <= Queues(clients)
  {
    assert clients[i] in clients;
  }

  // ----- one call on one client, seen from all clients -----

  method ExpireClient(clients: seq<Entry>, ghost models: seq<Client>, i: nat, now: int) returns (disconnected: bool)
    requires i < |clients| && Holds(clients, models)
    modifies States(clients)
    ensures Queues(clients) <= old(Queues(clients))
    ensures Holds(clients, models[i := Expired(models[i], now)])
    ensures disconnected == GraceExpired(models[i], now)
  {
    hide ValidClient, Expired, GraceExpired;
    SeparateEntry(clients, i);
    disconnected := clients[i].state.DisconnectIfGraceExpired(now);
    forall k | 0 <= k < |clients| && k != i
      ensures clients[k].state.Model() == models[k]
    {
      assert unchanged(clients[k].state);
    }
  }

  method PressClient(clients: seq<Entry>, ghost models: seq<Client>, i: nat, cfg: BufferConfig)
    returns (pressure: PressureResult)
    requires i < |clients| && Holds(clients, models)
    modifies Queues(clients)
    ensures Holds(clients, models[i := Pressed(models[i], MaximumDepth(cfg), TargetDepth(cfg))])
    ensures pressure.before == SnapshotOf(models[i])
    ensures pressure.after == SnapshotOf(Pressed(models[i], MaximumDepth(cfg), TargetDepth(cfg)))
    ensures pressure.fastForward ==
              if QueueSize(models[i]) <= MaximumDepth(cfg) then NOTHING_DISCARDED
              else FastForwardReport(models[i].queue.value, TargetDepth(cfg))
  {
    hide ValidClient, Pressed, SnapshotOf, FastForwardReport, QueueSize, MaximumDepth, TargetDepth;
    SeparateEntry(clients, i);
    pressure := clients[i].state.ApplyQueuePressure(MaximumDepth(cfg), TargetDepth(cfg));
    forall k | 0 <= k < |clients| && k != i
      ensures clients[k].state.Model() == models[k]
    {
      assert clients[k].state.queue != null ==> unchanged(clients[k].state.queue);
    }
  }

  method PopClient(clients: seq<Entry>, ghost models: seq<Client>, i: nat)
    returns (popped: Option<Packet>, isFillIn: bool, generation: nat)
    requires i < |clients| && Holds(clients, models)
    modifies Queues(clients)
    ensures Holds(clients, models[i := ClientPopped(models[i])])
    ensures generation == models[i].generation
    ensures popped.Some? == CanPop(models[i])
    ensures popped.Some? ==>
              && popped.value == Pop(models[i].queue.value).packet
              && isFillIn == Pop(models[i].queue.value).isFillIn
  {
    hide ValidClient, ClientPopped, CanPop, Pop;
    SeparateEntry(clients, i);
    popped, isFillIn, generation := clients[i].state.TryPop();
    forall k | 0 <= k < |clients| && k != i
      ensures clients[k].state.Model() == models[k]
    {
      assert clients[k].state.queue != null ==> unchanged(clients[k].state.queue);
    }
  }

  method MarkClient(clients: seq<Entry>, ghost models: seq<Client>, i: nat, generation: nat, now: int)
    returns (marked: bool)
    requires i < |clients| && Holds(clients, models)
    modifies States(clients)
    ensures Queues(clients) <= old(Queues(clients))
    ensures Holds(clients, models[i := Marked(models[i], generation, now)])
    ensures marked == CanMark(models[i], generation)
  {
    hide ValidClient, Marked, CanMark;
    SeparateEntry(clients, i);
    marked := clients[i].state.MarkUnderrun(generation, now);
    forall k | 0 <= k < |clients| && k != i
      ensures clients[k].state.Model() == models[k]
    {
      assert unchanged(clients[k].state);
    }
  }

  // ----- the pressure pass -----

  /** What the pressure pass has counted and noted. */
  datatype PressureReport = PressureReport(
    clientCount: nat,
    available: nat,
    disconnected: seq<Name>,
    fastForwarded: map<Name, FastForwardResult>,
    queuesBefore: map<Name, QueueSnapshot>,
    queuesAfter: map<Name, QueueSnapshot>)

  const NO_PRESSURE := PressureReport(0, 0, [], map[], map[], map[])

  /** The pressure pass has to fast-forward this client. */
  predicate Overfull(c: Client, cfg: BufferConfig, now: int) {
    QueueSize(Expired(c, now)) > MaximumDepth(cfg)
  }

  /** The report on the clients with the values `models` before the pass. */
  function PressureReportOf(clients: seq<Entry>, models: seq<Client>, cfg: BufferConfig, now: int): PressureReport
    requires |clients| == |models|
  {
    if clients == [] then
      NO_PRESSURE
    else
      var n := |clients| - 1;
      var r, c, name := PressureReportOf(clients[..n], models[..n], cfg, now), models[n], clients[n].name;
      PressureReport(
        if Active(Checked(c, cfg, now)) then r.clientCount + 1 else r.clientCount,
        if Ready(Checked(c, cfg, now), cfg) then r.available + 1 else r.available,
        if GraceExpired(c, now) then r.disconnected + [name] else r.disconnected,
        if Overfull(c, cfg, now)
        then r.fastForwarded[name := FastForwardReport(Expired(c, now).queue.value, TargetDepth(cfg))]
        else r.fastForwarded,
        r.queuesBefore[name := SnapshotOf(Expired(c, now))],
        r.queuesAfter[name := SnapshotOf(Checked(c, cfg, now))])
  }

  lemma {:induction false} PressureReportCounts(clients: seq<Entry>, models: seq<Client>, cfg: BufferConfig, now: int)
    requires |clients| == |models|
    ensures PressureReportOf(clients, models, cfg, now).clientCount == CountActive(CheckedAll(models, cfg, now))
    ensures PressureReportOf(clients, models, cfg, now).available == CountReady(CheckedAll(models, cfg, now), cfg)
  {
    if clients != [] {
      var n := |clients| - 1;
      PressureReportCounts(clients[..n], models[..n], cfg, now);
      assert CheckedAll(models, cfg, now)[..n] == CheckedAll(models[..n], cfg, now);
    }
  }

  /** The counting at the end of the loop body. */
  function Noted(r: PressureReport, name: Name, gone: bool, p: PressureResult, cfg: BufferConfig): PressureReport {
    var s := r.(disconnected := if gone then r.disconnected + [name] else r.disconnected,
                queuesBefore := r.queuesBefore[name := p.before],
                queuesAfter := r.queuesAfter[name := p.after]);
    if p.after.connection == Disconnected then
      s
    else
      s.(fastForwarded := if p.fastForward.discardedPackets > 0 then s.fastForwarded[name := p.fastForward]
                          else s.fastForwarded,
         clientCount := s.clientCount + 1,
         available := if p.after.size > cfg.jitter then s.available + 1 else s.available)
  }

  lemma PressureReportNext(clients: seq<Entry>, models: seq<Client>, cfg: BufferConfig, now: int, i: nat,
                           p: PressureResult)
    requires i < |clients| == |models|
    requires p.before == SnapshotOf(Expired(models[i], now))
    requires p.after == SnapshotOf(Checked(models[i], cfg, now))
    requires p.fastForward == if Overfull(models[i], cfg, now)
                              then FastForwardReport(Expired(models[i], now).queue.value, TargetDepth(cfg))
                              else NOTHING_DISCARDED
    ensures PressureReportOf(clients[..i + 1], models[..i + 1], cfg, now)
            == Noted(PressureReportOf(clients[..i], models[..i], cfg, now), clients[i].name,
                     GraceExpired(models[i], now), p, cfg)
  {
    assert clients[..i + 1][..i] == clients[..i];
    assert models[..i + 1][..i] == models[..i];
  }

  /** A pass has dealt with the first `i` clients. */
  function Midway(done: seq<Client>, todo: seq<Client>, i: nat): (m: seq<Client>)
    requires i <= |done| == |todo|
    ensures |m| == |todo|
  {
    done[..i] + todo[i..]
  }

  lemma Advance(done: seq<Client>, todo: seq<Client>, i: nat)
    requires i < |done| == |todo|
    ensures Midway(done, todo, i)[i] == todo[i]
    ensures Midway(done, todo, i)[i := done[i]] == Midway(done, todo, i + 1)
  {}

  lemma HoldsLength(clients: seq<Entry>, models: seq<Client>)
    requires Holds(clients, models)
    ensures |models| == |clients|
    ensures DistinctNames(clients)
  {}

  /** Expiry and pressure for one client. */
  method CheckClient(clients: seq<Entry>, ghost models: seq<Client>, i: nat, cfg: BufferConfig, now: int)
    returns (gone: bool, pressure: PressureResult)
    requires i < |clients| && Holds(clients, models)
    modifies States(clients), Queues(clients)
    ensures Queues(clients) <= old(Queues(clients))
    ensures Holds(clients, models[i := Checked(models[i], cfg, now)])
    ensures gone == GraceExpired(models[i], now)
    ensures pressure.before == SnapshotOf(Expired(models[i], now))
    ensures pressure.after == SnapshotOf(Checked(models[i], cfg, now))
    ensures pressure.fastForward == if Overfull(models[i], cfg, now)
                                    then FastForwardReport(Expired(models[i], now).queue.value, TargetDepth(cfg))
                                    else NOTHING_DISCARDED
  {
    hide Holds, GraceExpired, Expired;
    HoldsLength(clients, models);
    gone := ExpireClient(clients, models, i, now);
    ghost var expired := models[i := Expired(models[i], now)];
    pressure := PressClient(clients, expired, i, cfg);
    assert expired[i := Checked(models[i], cfg, now)] == models[i := Checked(models[i], cfg, now)];
  }

  method PressurePass(clients: seq<Entry>, ghost models: seq<Client>, cfg: BufferConfig, now: int)
    returns (report: PressureReport)
    requires Holds(clients, models)
    modifies States(clients), Queues(clients)
    ensures Queues(clients) <= old(Queues(clients))
    ensures Holds(clients, CheckedAll(models, cfg, now))
    ensures |models| == |clients|
    ensures report == PressureReportOf(clients, models, cfg, now)
  {
    hide Holds, Checked, GraceExpired, Overfull, Noted;
    HoldsLength(clients, models);
    ghost var checked := CheckedAll(models, cfg, now);
    report := NO_PRESSURE;
    assert Midway(checked, models, 0) == models;
    for i := 0 to |clients|
      invariant Queues(clients) <= old(Queues(clients))
      invariant Holds(clients, Midway(checked, models, i))
      invariant report == PressureReportOf(clients[..i], models[..i], cfg, now)
    {
      Advance(checked, models, i);
      hide Midway, PressureReportOf;
      var gone, pressure := CheckClient(clients, Midway(checked, models, i), i, cfg, now);
      PressureReportNext(clients, models, cfg, now, i, pressure);
      report := Noted(report, clients[i].name, gone, pressure, cfg);
    }
    assert Midway(checked, models, |clients|) == checked;
    assert clients[..|clients|] == clients && models[..|clients|] == models;
  }

  // ----- the pop pass -----

  /** What the pop pass hands to the mixer, and the activity it saw where nothing could be popped. */
  datatype PopReport = PopReport(
    incoming: seq<MixModel.Input>,
    fillInClients: seq<Name>,
    shouldWakeAgain: bool,
    observedActivity: map<Name, nat>)

  const NOTHING_POPPED := PopReport([], [], false, map[])

  /** `std::map::emplace`: inputs are kept in the order of their names, and a name is taken once. */
  function Emplace(inputs: seq<MixModel.Input>, name: Name, packet: Packet): seq<MixModel.Input> {
    if inputs == [] || name < inputs[0].client then [MixModel.Input(name, packet)] + inputs
    else if name == inputs[0].client then inputs
    else [inputs[0]] + Emplace(inputs[1..], name, packet)
  }

  function PopReportOf(clients: seq<Entry>, models: seq<Client>): PopReport
    requires |clients| == |models|
  {
    if clients == [] then
      NOTHING_POPPED
    else
      var n := |clients| - 1;
      var r, c, name := PopReportOf(clients[..n], models[..n]), models[n], clients[n].name;
      if CanPop(c) then
        var popped := Pop(c.queue.value);
        PopReport(Emplace(r.incoming, name, popped.packet),
                  if popped.isFillIn then r.fillInClients + [name] else r.fillInClients,
                  r.shouldWakeAgain || popped.isFillIn,
                  r.observedActivity)
      else if Active(c) then
        r.(observedActivity := r.observedActivity[name := c.generation])
      else
        r
  }

  /** The end of the loop body, for one client. */
  function Taken(r: PopReport, name: Name, popped: Option<Packet>, isFillIn: bool, active: bool,
                 generation: nat): PopReport
  {
    match popped
    case Some(packet) =>
      PopReport(Emplace(r.incoming, name, packet),
                if isFillIn then r.fillInClients + [name] else r.fillInClients,
                r.shouldWakeAgain || isFillIn,
                r.observedActivity)
    case None =>
      if active then r.(observedActivity := r.observedActivity[name := generation]) else r
  }

  predicate Pops(c: Client, popped: Option<Packet>, isFillIn: bool, active: bool, generation: nat) {
    && generation == c.generation
    && popped.Some? == CanPop(c)
    && (popped.Some? ==> popped.value == Pop(c.queue.value).packet && isFillIn == Pop(c.queue.value).isFillIn)
    && (popped.None? ==> active == Active(c))
  }

  lemma PopReportNext(clients: seq<Entry>, models: seq<Client>, i: nat,
                      popped: Option<Packet>, isFillIn: bool, active: bool, generation: nat)
    requires i < |clients| == |models|
    requires Pops(models[i], popped, isFillIn, active, generation)
    ensures PopReportOf(clients[..i + 1], models[..i + 1])
            == Taken(PopReportOf(clients[..i], models[..i]), clients[i].name, popped, isFillIn, active, generation)
  {
    hide Pop;
    assert clients[..i + 1][..i] == clients[..i];
    assert models[..i + 1][..i] == models[..i];
  }

  function PoppedAll(cs: seq<Client>): seq<Client> {
    seq(|cs|, i requires 0 <= i < |cs| => ClientPopped(cs[i]))
  }

  /** Popping a client that could not be popped leaves it as it is, so the snapshot shows its state. */
  method PopOrObserve(clients: seq<Entry>, ghost models: seq<Client>, i: nat)
    returns (popped: Option<Packet>, isFillIn: bool, generation: nat, active: bool)
    requires i < |clients| && Holds(clients, models)
    modifies Queues(clients)
    ensures Holds(clients, models[i := ClientPopped(models[i])])
    ensures Pops(models[i], popped, isFillIn, active, generation)
  {
    hide Pop;
    popped, isFillIn, generation := PopClient(clients, models, i);
    active := true;
    if popped.None? {
      var snapshot := clients[i].state.Snapshot();
      active := snapshot.connection != Disconnected;
    }
  }

  method PopPass(clients: seq<Entry>, ghost models: seq<Client>) returns (report: PopReport)
    requires Holds(clients, models)
    modifies Queues(clients)
    ensures Holds(clients, PoppedAll(models))
    ensures |models| == |clients|
    ensures report == PopReportOf(clients, models)
  {
    hide Holds, ClientPopped, Pops, Taken, DistinctNames, Emplace, CanPop, Active, Pop;
    HoldsLength(clients, models);
    ghost var popped := PoppedAll(models);
    report := NOTHING_POPPED;
    assert Midway(popped, models, 0) == models;
    for i := 0 to |clients|
      invariant Holds(clients, Midway(popped, models, i))
      invariant report == PopReportOf(clients[..i], models[..i])
    {
      Advance(popped, models, i);
      hide Midway, PopReportOf;
      var packet, isFillIn, generation, active := PopOrObserve(clients, Midway(popped, models, i), i);
      PopReportNext(clients, models, i, packet, isFillIn, active, generation);
      report := Taken(report, clients[i].name, packet, isFillIn, active, generation);
    }
    assert Midway(popped, models, |clients|) == popped;
    assert clients[..|clients|] == clients && models[..|clients|] == models;
  }

  ghost predicate SortedByName(inputs: seq<MixModel.Input>) {
    forall i, j :: 0 <= i < j < |inputs| ==> inputs[i].client < inputs[j].client
  }

  ghost predicate NotNamed(inputs: seq<MixModel.Input>, name: Name) {
    forall x :: x in inputs ==> x.client != name
  }

  lemma {:induction false} EmplaceElements(inputs: seq<MixModel.Input>, name: Name, packet: Packet)
    requires NotNamed(inputs, name)
    ensures forall x :: x in Emplace(inputs, name, packet) <==> x == MixModel.Input(name, packet) || x in inputs
  {
    if inputs != [] && inputs[0].client <= name {
      assert inputs == [inputs[0]] + inputs[1..];
      EmplaceElements(inputs[1..], name, packet);
    }
  }

  /** A name that has its input already keeps it. */
  lemma {:induction false} EmplaceOnce(inputs: seq<MixModel.Input>, name: Name, packet: Packet)
    requires SortedByName(inputs) && !NotNamed(inputs, name)
    ensures Emplace(inputs, name, packet) == inputs
  {
    var k :| 0 <= k < |inputs| && inputs[k].client == name;
    if inputs[0].client != name {
      assert inputs[1..][k - 1].client == name;
      EmplaceOnce(inputs[1..], name, packet);
    }
  }

  lemma {:induction false} EmplaceSorted(inputs: seq<MixModel.Input>, name: Name, packet: Packet)
    requires SortedByName(inputs) && NotNamed(inputs, name)
    ensures SortedByName(Emplace(inputs, name, packet))
  {
    if inputs != [] && inputs[0].client <= name {
      assert inputs == [inputs[0]] + inputs[1..];
      EmplaceSorted(inputs[1..], name, packet);
      EmplaceElements(inputs[1..], name, packet);
      var rest := Emplace(inputs[1..], name, packet);
      forall j | 0 <= j < |rest| ensures inputs[0].client < rest[j].client {
        assert rest[j] in rest;
      }
    }
  }

  predicate Offers(c: Client, name: Name, x: MixModel.Input) {
    CanPop(c) && x == MixModel.Input(name, Pop(c.queue.value).packet)
  }

  ghost predicate GivenBy(clients: seq<Entry>, models: seq<Client>, x: MixModel.Input)
    requires |clients| == |models|
  {
    exists i :: 0 <= i < |clients| && Offers(models[i], clients[i].name, x)
  }

  lemma GivenByNext(clients: seq<Entry>, models: seq<Client>, x: MixModel.Input)
    requires 0 < |clients| == |models|
    ensures var n := |clients| - 1;
      GivenBy(clients, models, x) <==>
        GivenBy(clients[..n], models[..n], x) || Offers(models[n], clients[n].name, x)
  {
    hide Offers;
    var n := |clients| - 1;
    if GivenBy(clients[..n], models[..n], x) {
      var i :| 0 <= i < n && Offers(models[..n][i], clients[..n][i].name, x);
      assert Offers(models[i], clients[i].name, x);
    }
    if GivenBy(clients, models, x) {
      var i :| 0 <= i < |clients| && Offers(models[i], clients[i].name, x);
      assert i < n ==> Offers(models[..n][i], clients[..n][i].name, x);
    }
  }

  /** The mixer gets exactly one packet of every client that could be popped, in the order of the names. */
  lemma {:induction false} IncomingIsWhatWasPopped(clients: seq<Entry>, models: seq<Client>)
    requires |clients| == |models| && DistinctNames(clients)
    ensures SortedByName(PopReportOf(clients, models).incoming)
    ensures forall x :: x in PopReportOf(clients, models).incoming <==> GivenBy(clients, models, x)
  {
    if clients != [] {
      var n := |clients| - 1;
      var r := PopReportOf(clients[..n], models[..n]);
      IncomingIsWhatWasPopped(clients[..n], models[..n]);
      hide CanPop, Pop, Emplace;
      assert NotNamed(r.incoming, clients[n].name);
      if CanPop(models[n]) {
        EmplaceElements(r.incoming, clients[n].name, Pop(models[n].queue.value).packet);
        EmplaceSorted(r.incoming, clients[n].name, Pop(models[n].queue.value).packet);
      }
      hide GivenBy, SortedByName;
      forall x ensures x in PopReportOf(clients, models).incoming <==> GivenBy(clients, models, x) {
        GivenByNext(clients, models, x);
      }
    } else {
      assert forall x :: !GivenBy(clients, models, x);
    }
  }

  // ----- the underrun pass -----

  /** Popped in vain while connected. */
  predicate Underruns(c: Client) {
    !CanPop(c) && c.connection.Connected?
  }

  function UnderrunsOf(clients: seq<Entry>, models: seq<Client>): seq<Name>
    requires |clients| == |models|
  {
    if clients == [] then []
    else
      var n := |clients| - 1;
      UnderrunsOf(clients[..n], models[..n]) + if Underruns(models[n]) then [clients[n].name] else []
  }

  lemma UnderrunsNext(clients: seq<Entry>, models: seq<Client>, i: nat)
    requires i < |clients| == |models|
    ensures UnderrunsOf(clients[..i + 1], models[..i + 1])
            == UnderrunsOf(clients[..i], models[..i]) + if Underruns(models[i]) then [clients[i].name] else []
  {
    assert clients[..i + 1][..i] == clients[..i];
    assert models[..i + 1][..i] == models[..i];
  }

  /** The pop pass observed exactly the active clients that gave nothing. */
  lemma {:induction false} ObservedClients(clients: seq<Entry>, models: seq<Client>, name: Name)
    requires |clients| == |models| && DistinctNames(clients)
    ensures var observed := PopReportOf(clients, models).observedActivity;
      && (name in observed ==> exists i :: 0 <= i < |clients| && clients[i].name == name)
      && forall i :: 0 <= i < |clients| && clients[i].name == name ==>
           && (name in observed <==> !CanPop(models[i]) && Active(models[i]))
           && (name in observed ==> observed[name] == models[i].generation)
  {
    if clients != [] {
      hide CanPop, Active, Pop, Emplace;
      var n := |clients| - 1;
      ObservedClients(clients[..n], models[..n], name);
      assert forall i :: 0 <= i < n ==> clients[..n][i] == clients[i] && models[..n][i] == models[i];
    }
  }

  /** The pop pass observed `c` if it was active and gave nothing. */
  predicate Observes(observed: map<Name, nat>, name: Name, c: Client) {
    && (name in observed <==> !CanPop(c) && Active(c))
    && (name in observed ==> observed[name] == c.generation)
  }

  lemma ObservedClient(clients: seq<Entry>, models: seq<Client>, i: nat)
    requires i < |clients| == |models| && DistinctNames(clients)
    ensures Observes(PopReportOf(clients, models).observedActivity, clients[i].name, models[i])
  {
    ObservedClients(clients, models, clients[i].name);
  }

  /** Marking an observed client completes serving it; a client that was not observed is served already. */
  lemma MarkCompletes(c: Client, now: int)
    ensures CanPop(c) ==> ClientPopped(c) == Served(c, now)
    ensures !Active(c) ==> ClientPopped(c) == Served(c, now)
    ensures !CanPop(c) ==> Marked(ClientPopped(c), c.generation, now) == Served(c, now)
    ensures !CanPop(c) ==> (CanMark(ClientPopped(c), c.generation) <==> Underruns(c))
    ensures CanPop(c) || !Active(c) ==> !Underruns(c)
  {}

  method MarkIfObserved(clients: seq<Entry>, ghost current: seq<Client>, i: nat, ghost c: Client,
                        observed: map<Name, nat>, now: int)
    returns (marked: bool)
    requires i < |clients| && Holds(clients, current) && |current| == |clients|
    requires current[i] == ClientPopped(c)
    requires Observes(observed, clients[i].name, c)
    modifies States(clients)
    ensures Queues(clients) <= old(Queues(clients))
    ensures Holds(clients, current[i := Served(c, now)])
    ensures marked == Underruns(c)
  {
    MarkCompletes(c, now);
    hide Holds, Served, Marked, CanMark, ClientPopped, CanPop, Active, Underruns;
    marked := false;
    if clients[i].name in observed {
      marked := MarkClient(clients, current, i, observed[clients[i].name], now);
    } else {
      assert current[i := Served(c, now)] == current;
    }
  }

  /** What the snapshots of all clients show. */
  function SnapshotsOf(clients: seq<Entry>, models: seq<Client>): map<Name, QueueSnapshot>
    requires |clients| == |models|
  {
    if clients == [] then map[]
    else
      var n := |clients| - 1;
      SnapshotsOf(clients[..n], models[..n])[clients[n].name := SnapshotOf(models[n])]
  }

  lemma SnapshotsNext(clients: seq<Entry>, models: seq<Client>, i: nat)
    requires i < |clients| == |models|
    ensures SnapshotsOf(clients[..i + 1], models[..i + 1])
         == SnapshotsOf(clients[..i], models[..i])[clients[i].name := SnapshotOf(models[i])]
  {
    assert clients[..i + 1][..i] == clients[..i];
    assert models[..i + 1][..i] == models[..i];
  }

  method SnapshotClient(clients: seq<Entry>, ghost models: seq<Client>, i: nat) returns (snapshot: QueueSnapshot)
    requires i < |clients| && Holds(clients, models)
    ensures i < |models| && snapshot == SnapshotOf(models[i])
  {
    snapshot := clients[i].state.Snapshot();
  }

  method UnderrunPass(clients: seq<Entry>, ghost models: seq<Client>, observed: map<Name, nat>, now: int)
    returns (underrunClients: seq<Name>, queuesAfter: map<Name, QueueSnapshot>)
    requires |models| == |clients| && Holds(clients, PoppedAll(models))
    requires observed == PopReportOf(clients, models).observedActivity
    modifies States(clients)
    ensures Holds(clients, ServedAll(models, now))
    ensures underrunClients == UnderrunsOf(clients, models)
    ensures queuesAfter == SnapshotsOf(clients, ServedAll(models, now))
  {
    hide Holds, PopReportOf, Served, ClientPopped, Underruns, DistinctNames, Observes, SnapshotOf;
    ghost var popped, served := PoppedAll(models), ServedAll(models, now);
    HoldsLength(clients, popped);
    underrunClients, queuesAfter := [], map[];
    assert Midway(served, popped, 0) == popped;
    for i := 0 to |clients|
      invariant Holds(clients, Midway(served, popped, i))
      invariant underrunClients == UnderrunsOf(clients[..i], models[..i])
      invariant queuesAfter == SnapshotsOf(clients[..i], served[..i])
    {
      Advance(served, popped, i);
      UnderrunsNext(clients, models, i);
      SnapshotsNext(clients, served, i);
      ObservedClient(clients, models, i);
      hide UnderrunsOf, SnapshotsOf, Midway;
      var marked := MarkIfObserved(clients, Midway(served, popped, i), i, models[i], observed, now);
      underrunClients := underrunClients + if marked then [clients[i].name] else [];
      var snapshot := SnapshotClient(clients, Midway(served, popped, i)[i := served[i]], i);
      queuesAfter := queuesAfter[clients[i].name := snapshot];
    }
    assert Midway(served, popped, |clients|) == served;
    assert clients[..|clients|] == clients && models[..|clients|] == models && served[..|clients|] == served;
  }

  // ----- the whole step -----

  class ServerMixScheduler {
    const mixerCore: ServerMixerCore
    const bufferConfig: BufferConfig

    constructor (mixdownSetup: ChannelSetup, bufferConfig: BufferConfig)
      ensures this.bufferConfig == bufferConfig && fresh(mixerCore)
      ensures mixerCore.mixdownSetup == mixdownSetup && mixerCore.serverTime == 0
    {
      this.mixerCore := new ServerMixerCore(mixdownSetup);
      this.bufferConfig := bufferConfig;
    }

    method Process(clients: seq<Entry>, ghost models: seq<Client>, now: int) returns (result: ScheduledMixResult)
      requires Holds(clients, models)
      modifies mixerCore, States(clients), Queues(clients)
      ensures |models| == |clients|
      ensures Holds(clients, Stepped(models, bufferConfig, now))
      ensures result == ResultOf(clients, models, bufferConfig, now,
                                 old(mixerCore.serverTime), old(mixerCore.lastBpm), mixerCore.mixdownSetup)
    {
      ghost var checked := CheckedAll(models, bufferConfig, now);
      HoldsLength(clients, models);
      NotAClient(clients, mixerCore);
      hide Holds, States, Queues, CheckedAll, PressureReportOf, ServedResult, ServedAll;
      var pressure := PressurePass(clients, models, bufferConfig, now);
      PressureReportCounts(clients, models, bufferConfig, now);
      hide CountActive, CountReady;
      result := NO_MIX.(pressure := pressure);
      var allClientsReady := pressure.clientCount > 0 && pressure.clientCount == pressure.available;
      if !allClientsReady && pressure.clientCount > 1 {
        result := result.(queuesAfter := pressure.queuesAfter);
        return;
      }
      var trigger := NoTrigger;
      if pressure.clientCount == 1 {
        trigger := SingleClient;
      } else if allClientsReady {
        trigger := AllClientsReady;
      }
      result := Serve(clients, checked, now, result.(trigger := trigger));
    }

    /** The last two loops and the mix. */
    method Serve(clients: seq<Entry>, ghost checked: seq<Client>, now: int, start: ScheduledMixResult)
      returns (result: ScheduledMixResult)
      requires Holds(clients, checked) && |checked| == |clients|
      modifies mixerCore, States(clients), Queues(clients)
      ensures Holds(clients, ServedAll(checked, now))
      ensures result == ServedResult(clients, checked, now, start,
                                     old(mixerCore.serverTime), old(mixerCore.lastBpm), mixerCore.mixdownSetup)
    {
      NotAClient(clients, mixerCore);
      hide PopReportOf, UnderrunsOf, ServedAll, SnapshotsOf;
      var pops := PopPass(clients, checked);
      var underrunClients, queuesAfter := UnderrunPass(clients, checked, pops.observedActivity, now);
      NotAClient(clients, mixerCore);
      var mix := mixerCore.Mix(pops.incoming);
      result := start.(pops := pops, underrunClients := underrunClients, queuesAfter := queuesAfter, mix := mix);
    }
  }

  function ServedResult(clients: seq<Entry>, checked: seq<Client>, now: int, start: ScheduledMixResult,
                        time: Counter, lastBpm: real, mixdown: ChannelSetup): ScheduledMixResult
    requires |clients| == |checked|
  {
    var pops := PopReportOf(clients, checked);
    start.(pops := pops, underrunClients := UnderrunsOf(clients, checked),
           queuesAfter := SnapshotsOf(clients, ServedAll(checked, now)),
           mix := MixStep(pops.incoming, time, lastBpm, mixdown))
  }

  lemma NotAClient(clients: seq<Entry>, mixer: ServerMixerCore)
    ensures mixer !in States(clients) && mixer !in Queues(clients)
  {}

  /** What a step reports, given the clients before it and the state of the mixer. */
  function ResultOf(clients: seq<Entry>, models: seq<Client>, cfg: BufferConfig, now: int,
                    time: Counter, lastBpm: real, mixdown: ChannelSetup): ScheduledMixResult
    requires |clients| == |models|
  {
    var checked := CheckedAll(models, cfg, now);
    var start := NO_MIX.(pressure := PressureReportOf(clients, models, cfg, now));
    if Blocked(checked, cfg) then start.(queuesAfter := start.pressure.queuesAfter)
    else ServedResult(clients, checked, now, start.(trigger := TriggerOf(checked)), time, lastBpm, mixdown)
  }

  lemma {:induction false} FillInsWake(clients: seq<Entry>, checked: seq<Client>)
    requires |clients| == |checked|
    ensures PopReportOf(clients, checked).shouldWakeAgain <==>
              exists i :: 0 <= i < |checked| && GivesFillIn(checked[i])
  {
    if clients != [] {
      hide Pop, CanPop, Emplace;
      var n := |clients| - 1;
      FillInsWake(clients[..n], checked[..n]);
      assert forall i :: 0 <= i < n ==> checked[..n][i] == checked[i];
    }
  }

  /** The step asks for another one at once if and only if it popped a fill-in. */
  lemma WakesExactlyAfterFillIns(clients: seq<Entry>, models: seq<Client>, cfg: BufferConfig, now: int,
                                 time: Counter, lastBpm: real, mixdown: ChannelSetup)
    requires |clients| == |models|
    ensures ResultOf(clients, models, cfg, now, time, lastBpm, mixdown).pops.shouldWakeAgain
            <==> WakesAgain(models, cfg, now)
  {
    hide Blocked, PressureReportOf, PopReportOf, UnderrunsOf, MixStep, GivesFillIn, TriggerOf;
    FillInsWake(clients, CheckedAll(models, cfg, now));
  }

  // ----- what the reports say -----

  /** The pressure pass has to fast-forward this client. */
  predicate TooFull(c: Client, cfg: BufferConfig, now: int) {
    && (c.connection.Connected? || (c.connection.Disconnecting? && now < c.deadline))
    && c.queue.Some? && c.queue.value.heap != [] && |c.queue.value.heap| > cfg.maximum
  }

  /** What the snapshot before the pressure shows of a client. */
  predicate ShowsBefore(q: QueueSnapshot, c: Client, now: int) {
    && q.activityGeneration == c.generation
    && if c.connection.Disconnected? || (c.connection.Disconnecting? && c.deadline <= now)
       then q.connection == Disconnected && q.size == 0
       else q.connection == c.connection && q.size == if c.queue.None? then 0 else |c.queue.value.heap|
  }

  /** The pressure pass reports on client `c` truly. */
  predicate PressureNoted(r: PressureReport, name: Name, c: Client, cfg: BufferConfig, now: int) {
    && (name in r.disconnected <==> c.connection.Disconnecting? && c.deadline <= now)
    && (name in r.fastForwarded <==> TooFull(c, cfg, now))
    && (name in r.fastForwarded ==>
          r.fastForwarded[name] == FastForwardReport(c.queue.value, TargetDepth(cfg)))
    && name in r.queuesBefore && ShowsBefore(r.queuesBefore[name], c, now)
  }

  lemma PressureNotes(c: Client, cfg: BufferConfig, now: int)
    ensures GraceExpired(c, now) <==> c.connection.Disconnecting? && c.deadline <= now
    ensures Overfull(c, cfg, now) <==> TooFull(c, cfg, now)
    ensures TooFull(c, cfg, now) ==> Expired(c, now) == c
    ensures ShowsBefore(SnapshotOf(Expired(c, now)), c, now)
  {}

  /** Noting client `c` under a new name is true of it, and changes nothing for the other names. */
  lemma NotesAreTrue(clients: seq<Entry>, models: seq<Client>, cfg: BufferConfig, now: int, other: Name, d: Client)
    requires 0 < |clients| == |models|
    ensures var n := |clients| - 1;
      var r, s := PressureReportOf(clients[..n], models[..n], cfg, now), PressureReportOf(clients, models, cfg, now);
      && (clients[n].name !in r.disconnected && clients[n].name !in r.fastForwarded ==>
            PressureNoted(s, clients[n].name, models[n], cfg, now))
      && (other != clients[n].name ==> (PressureNoted(s, other, d, cfg, now) <==> PressureNoted(r, other, d, cfg, now)))
      && (other in s.disconnected || other in s.fastForwarded ==>
            other in r.disconnected || other in r.fastForwarded || other == clients[n].name)
  {
    hide Checked, TooFull, Overfull, Expired, GraceExpired, ShowsBefore, SnapshotOf, FastForwardReport, Active, Ready;
    PressureNotes(models[|models| - 1], cfg, now);
  }

  /** The pressure pass names exactly the clients that it disconnected and that it had to fast-forward. */
  lemma {:induction false} PressureReportIsTrue(clients: seq<Entry>, models: seq<Client>, cfg: BufferConfig, now: int)
    requires |clients| == |models| && DistinctNames(clients)
    ensures var r := PressureReportOf(clients, models, cfg, now);
      && (forall i :: 0 <= i < |clients| ==> PressureNoted(r, clients[i].name, models[i], cfg, now))
      && (forall n :: n in r.disconnected || n in r.fastForwarded ==> Named(clients, n))
  {
    hide PressureNoted, Named;
    if clients != [] {
      var n := |clients| - 1;
      var r := PressureReportOf(clients, models, cfg, now);
      PressureReportIsTrue(clients[..n], models[..n], cfg, now);
      hide PressureReportOf;
      forall x ensures x in r.disconnected || x in r.fastForwarded ==> Named(clients, x) {
        NotesAreTrue(clients, models, cfg, now, x, models[n]);
        NamedGrows(clients, x);
      }
      NewName(clients);
      forall i | 0 <= i < |clients| ensures PressureNoted(r, clients[i].name, models[i], cfg, now) {
        NotesAreTrue(clients, models, cfg, now, clients[i].name, models[i]);
        assert i < n ==> clients[..n][i] == clients[i] && models[..n][i] == models[i];
      }
    } else {
      assert PressureReportOf(clients, models, cfg, now) == NO_PRESSURE;
    }
  }

  lemma NewName(clients: seq<Entry>)
    requires clients != [] && DistinctNames(clients)
    ensures var n := |clients| - 1; !Named(clients[..n], clients[n].name)
  {}

  /** The fill-ins and the underruns name exactly the clients whose fill-in was popped, or that gave nothing. */
  lemma {:induction false} PopReportIsTrue(clients: seq<Entry>, models: seq<Client>, i: nat)
    requires |clients| == |models| && DistinctNames(clients) && i < |clients|
    ensures clients[i].name in PopReportOf(clients, models).fillInClients <==> GivesFillIn(models[i])
    ensures clients[i].name in UnderrunsOf(clients, models)
        <==> models[i].connection.Connected? && (models[i].queue.None? || models[i].queue.value.heap == [])
  {
    hide Pop, Emplace;
    var n := |clients| - 1;
    ListedAreClients(clients[..n], models[..n]);
    if i < n {
      PopReportIsTrue(clients[..n], models[..n], i);
    }
  }

  ghost predicate Named(clients: seq<Entry>, name: Name) {
    exists i :: 0 <= i < |clients| && clients[i].name == name
  }

  lemma NamedGrows(clients: seq<Entry>, name: Name)
    requires clients != []
    ensures Named(clients, name) <==> Named(clients[..|clients| - 1], name) || clients[|clients| - 1].name == name
  {
    var n := |clients| - 1;
    if i :| 0 <= i < n && clients[..n][i].name == name {
      assert clients[i].name == name;
    }
    if i :| 0 <= i < |clients| && clients[i].name == name {
      assert i < n ==> clients[..n][i].name == name;
    }
  }

  lemma {:induction false} ListedAreClients(clients: seq<Entry>, models: seq<Client>)
    requires |clients| == |models|
    ensures forall x :: x in PopReportOf(clients, models).fillInClients || x in UnderrunsOf(clients, models) ==>
              Named(clients, x)
  {
    hide Pop, Emplace, CanPop, Underruns, Named;
    if clients != [] {
      var n := |clients| - 1;
      ListedAreClients(clients[..n], models[..n]);
      forall x ensures Named(clients[..n], x) || x == clients[n].name ==> Named(clients, x) {
        NamedGrows(clients, x);
      }
    }
  }

  /** Client `i` is the only one that is not disconnected. */
  ghost predicate OnlyClient(cs: seq<Client>, i: nat) {
    && i < |cs| && !cs[i].connection.Disconnected?
    && forall j :: 0 <= j < |cs| && j != i ==> cs[j].connection.Disconnected?
  }

  ghost predicate SeveralClients(cs: seq<Client>) {
    exists i, j :: 0 <= i < j < |cs| && !cs[i].connection.Disconnected? && !cs[j].connection.Disconnected?
  }

  lemma CountTells(cs: seq<Client>)
    ensures CountActive(cs) == 1 <==> exists i :: OnlyClient(cs, i)
    ensures CountActive(cs) > 1 <==> SeveralClients(cs)
  {
    if i :| 0 <= i < |cs| && Active(cs[i]) {
      CountsActive(cs, i);
      hide CountActive;
      if CountActive(cs) > 1 {
        var j :| 0 <= j < |cs| && j != i && Active(cs[j]);
        assert SeveralClients(cs);
      } else {
        assert OnlyClient(cs, i);
      }
    } else if CountActive(cs) > 0 {
      SomeActive(cs);
    }
  }

  /** A step mixes for the only client that is not disconnected, or for several that are all ready. */
  lemma {:induction false} TriggerTells(clients: seq<Entry>, models: seq<Client>, cfg: BufferConfig, now: int,
                                        time: Counter, lastBpm: real, mixdown: ChannelSetup)
    requires |clients| == |models|
    ensures var cs := CheckedAll(models, cfg, now);
      var trigger := ResultOf(clients, models, cfg, now, time, lastBpm, mixdown).trigger;
      && (trigger.SingleClient? <==> exists i :: OnlyClient(cs, i))
      && (trigger.AllClientsReady? <==>
            SeveralClients(cs)
            && forall i :: 0 <= i < |cs| && !cs[i].connection.Disconnected? ==> QueueSize(cs[i]) > cfg.jitter)
  {
    hide PressureReportOf, PopReportOf, UnderrunsOf, SnapshotsOf, CountActive, CountReady, OnlyClient, SeveralClients;
    hide CheckedAll, ServedAll, QueueSize, MixStep;
    var cs := CheckedAll(models, cfg, now);
    ReadyAtMostActive(cs, cfg);
    CountTells(cs);
    assert forall i :: 0 <= i < |cs| ==> (Ready(cs[i], cfg) <==> Active(cs[i]) && QueueSize(cs[i]) > cfg.jitter);
  }

  /** Client `c` gave a packet, and `o` is the answer to it. */
  ghost predicate AnswersPop(o: Outgoing, name: Name, c: Client) {
    CanPop(c) && Answers(o, MixModel.Input(name, Pop(c.queue.value).packet))
  }

  ghost predicate IsAnswered(outgoing: seq<Outgoing>, name: Name, c: Client) {
    exists k :: 0 <= k < |outgoing| && AnswersPop(outgoing[k], name, c)
  }

  ghost predicate IsForPop(o: Outgoing, clients: seq<Entry>, checked: seq<Client>)
    requires |clients| == |checked|
  {
    exists i :: 0 <= i < |clients| && AnswersPop(o, clients[i].name, checked[i])
  }

  lemma AnswersAreForPops(clients: seq<Entry>, checked: seq<Client>, outgoing: seq<Outgoing>)
    requires |clients| == |checked| && DistinctNames(clients)
    requires var incoming := PopReportOf(clients, checked).incoming;
      |outgoing| == |incoming| && forall k :: 0 <= k < |incoming| ==> Answers(outgoing[k], incoming[k])
    ensures forall i :: 0 <= i < |clients| && CanPop(checked[i]) ==>
              IsAnswered(outgoing, clients[i].name, checked[i])
    ensures forall k :: 0 <= k < |outgoing| ==>
              IsForPop(outgoing[k], clients, checked)
  {
    IncomingIsWhatWasPopped(clients, checked);
    hide PopReportOf, CanPop, Pop, DistinctNames, SortedByName, Answers;
    var incoming := PopReportOf(clients, checked).incoming;
    forall i | 0 <= i < |clients| && CanPop(checked[i])
      ensures IsAnswered(outgoing, clients[i].name, checked[i])
    {
      var x := MixModel.Input(clients[i].name, Pop(checked[i].queue.value).packet);
      assert Offers(checked[i], clients[i].name, x);
      assert GivenBy(clients, checked, x);
      var k :| 0 <= k < |incoming| && incoming[k] == x;
      assert AnswersPop(outgoing[k], clients[i].name, checked[i]);
    }
    forall k | 0 <= k < |outgoing|
      ensures IsForPop(outgoing[k], clients, checked)
    {
      assert GivenBy(clients, checked, incoming[k]);
      var i :| 0 <= i < |clients| && Offers(checked[i], clients[i].name, incoming[k]);
      assert AnswersPop(outgoing[k], clients[i].name, checked[i]);
    }
  }

  /** A blocked step sends nothing; any other answers the popped packet of each client that gave one, and no more. */
  lemma {:induction false} PoppedClientsGetMixes(clients: seq<Entry>, models: seq<Client>, cfg: BufferConfig, now: int,
                                                 time: Counter, lastBpm: real, mixdown: ChannelSetup)
    requires |clients| == |models| && DistinctNames(clients)
    ensures var checked := CheckedAll(models, cfg, now);
      var outgoing := ResultOf(clients, models, cfg, now, time, lastBpm, mixdown).mix.outgoing;
      if Blocked(checked, cfg) then outgoing == []
      else
        && (forall i :: 0 <= i < |clients| && CanPop(checked[i]) ==>
              IsAnswered(outgoing, clients[i].name, checked[i]))
        && (forall k :: 0 <= k < |outgoing| ==>
              IsForPop(outgoing[k], clients, checked))
  {
    hide Blocked, PressureReportOf, PopReportOf, UnderrunsOf, SnapshotsOf, CheckedAll, ServedAll, CanPop, TriggerOf;
    hide MixStep, DistinctNames, Answers, IsAnswered, IsForPop;
    var checked := CheckedAll(models, cfg, now);
    MixAnswersInOrder(PopReportOf(clients, checked).incoming, time, lastBpm, mixdown);
    AnswersAreForPops(clients, checked,
                      MixStep(PopReportOf(clients, checked).incoming, time, lastBpm, mixdown).outgoing);
  }

  lemma {:induction false} PressureSnapshots(clients: seq<Entry>, models: seq<Client>, cfg: BufferConfig, now: int)
    requires |clients| == |models|
    ensures PressureReportOf(clients, models, cfg, now).queuesAfter
         == SnapshotsOf(clients, CheckedAll(models, cfg, now))
  {
    hide Checked, SnapshotOf;
    if clients != [] {
      var n := |clients| - 1;
      PressureSnapshots(clients[..n], models[..n], cfg, now);
      assert CheckedAll(models, cfg, now)[..n] == CheckedAll(models[..n], cfg, now);
    }
  }

  /** The observations after a step show exactly the clients it leaves behind, also when it is blocked. */
  lemma {:induction false} QueuesAfterShowTheStep(clients: seq<Entry>, models: seq<Client>, cfg: BufferConfig, now: int,
                                                  time: Counter, lastBpm: real, mixdown: ChannelSetup, i: nat)
    requires |clients| == |models| && DistinctNames(clients) && i < |clients|
    ensures var after := ResultOf(clients, models, cfg, now, time, lastBpm, mixdown).queuesAfter;
      && clients[i].name in after
      && var shown, c := after[clients[i].name], Stepped(models, cfg, now)[i];
      && shown.connection == c.connection && shown.activityGeneration == c.generation
      && shown.size == (if c.connection.Disconnected? || c.queue.None? then 0 else |c.queue.value.heap|)
      && |after| == |clients|
  {
    hide Blocked, PopReportOf, UnderrunsOf, MixStep, TriggerOf, Checked, Served, PressureReportOf;
    PressureSnapshots(clients, models, cfg, now);
    SnapshotsAt(clients, Stepped(models, cfg, now), i);
    hide SnapshotsOf;
  }

  lemma {:induction false} SnapshotsAt(clients: seq<Entry>, models: seq<Client>, i: nat)
    requires |clients| == |models| && DistinctNames(clients)
    ensures forall n :: n in SnapshotsOf(clients, models) ==> exists j :: 0 <= j < |clients| && clients[j].name == n
    ensures i < |clients| ==>
              clients[i].name in SnapshotsOf(clients, models)
              && SnapshotsOf(clients, models)[clients[i].name] == SnapshotOf(models[i])
    ensures |SnapshotsOf(clients, models)| == |clients|
  {
    hide SnapshotOf;
    if clients != [] {
      var n := |clients| - 1;
      SnapshotsAt(clients[..n], models[..n], i);
      assert forall j :: 0 <= j < n ==> clients[..n][j] == clients[j];
      assert clients[n].name !in SnapshotsOf(clients[..n], models[..n]);
    }
  }
}

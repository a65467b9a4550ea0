/**
 What a packet queue guarantees over whole runs: any interleaving of pushes, pops,
 fast-forwards and resets (common/PacketStreamQueue.cpp:17-170).
 */
module StreamQueueRuns {
  import opened Packets
  import opened StreamQueueModel

  datatype Op = Push(packet: Packet) | TryPop | FastForward(retained: nat) | Reset

  /** An emission without its payload. */
  datatype Mark = Real(counter: Counter) | Fill(counter: Counter)

  /**
   What has happened since the last reset. `delivered` and `marks` start over at each rebase,
   that is, whenever a fast-forward discards something.
   */
  datatype Log = Log(
    accepted: map<Counter, Packet>,
    discarded: set<Counter>,
    trace: seq<Emission>,
    delivered: seq<Counter>,
    marks: seq<Mark>)

  datatype State = State(queue: Queue, log: Log)

  const START := State(EMPTY_QUEUE, Log(map[], {}, [], [], []))

  function MarkOf(e: Emission): Mark {
    if e.fillIn then Fill(e.Counter()) else Real(e.Counter())
  }

  function AfterPush(s: State, p: Packet): State {
    State(Pushed(s.queue, p),
          if Accepts(s.queue, p) then s.log.(accepted := s.log.accepted[p.Counter() := p]) else s.log)
  }

  function AfterPop(s: State): State
    requires s.queue.heap != []
  {
    var r := Pop(s.queue);
    var e := Emission(r.packet, r.isFillIn);
    State(r.queue,
          s.log.(trace := s.log.trace + [e],
                 delivered := if r.isFillIn then s.log.delivered else s.log.delivered + [e.Counter()],
                 marks := s.log.marks + [MarkOf(e)]))
  }

  function AfterFastForward(s: State, retained: nat): State {
    if |s.queue.heap| <= retained then
      s
    else
      State(FastForwarded(s.queue, retained),
            s.log.(discarded := s.log.discarded + Counters(s.queue.heap[..|s.queue.heap| - retained]),
                   delivered := [],
                   marks := []))
  }

  function Step(s: State, op: Op): State {
    match op
    case Push(p) => AfterPush(s, p)
    case TryPop => if s.queue.heap == [] then s else AfterPop(s)
    case FastForward(n) => AfterFastForward(s, n)
    case Reset => START
  }

  function Run(s: State, ops: seq<Op>): State {
    if ops == [] then s else Step(Run(s, ops[..|ops| - 1]), ops[|ops| - 1])
  }

  // ----- vocabulary -----

  function RealsOf(trace: seq<Emission>): set<Counter> {
    set e | e in trace && !e.fillIn :: e.Counter()
  }

  function CountFills(trace: seq<Emission>): nat {
    if trace == [] then 0
    else CountFills(trace[..|trace| - 1]) + if trace[|trace| - 1].fillIn then 1 else 0
  }

  /** The number of fill-ins at the end of the trace. */
  function TrailingFills(trace: seq<Emission>): nat {
    if trace == [] || !trace[|trace| - 1].fillIn then 0 else 1 + TrailingFills(trace[..|trace| - 1])
  }

  ghost predicate Increasing(trace: seq<Emission>) {
    forall i, j :: 0 <= i < j < |trace| ==> trace[i].Counter() < trace[j].Counter()
  }

  ghost predicate NoThreeFillsInARow(trace: seq<Emission>) {
    forall i :: 0 <= i < |trace| - 2 ==> !(trace[i].fillIn && trace[i + 1].fillIn && trace[i + 2].fillIn)
  }

  /** The fill-ins that stand between the real packets `a` and `b`, whatever the distance. */
  function Bridge(a: Counter, b: Counter): seq<Mark>
    requires a < b
  {
    if b == a + 1 then [] else if b == a + 2 then [Fill(a + 1)] else [Fill(a + 1), Fill(b - 1)]
  }

  ghost predicate Rising(cs: seq<Counter>) {
    forall i, j :: 0 <= i < j < |cs| ==> cs[i] < cs[j]
  }

  /** The reference: the real packets `cs` in order, each gap bridged. */
  ghost function Concealed(cs: seq<Counter>): seq<Mark>
    requires Rising(cs)
  {
    var n := |cs|;
    if n == 0 then []
    else if n == 1 then [Real(cs[0])]
    else Concealed(cs[..n - 1]) + Bridge(cs[n - 2], cs[n - 1]) + [Real(cs[n - 1])]
  }

  /** The fill-ins emitted since the last real packet. */
  ghost function Pending(q: Queue, cs: seq<Counter>): seq<Mark>
    requires Positioned(q, cs)
  {
    if q.gap == 0 then []
    else if q.gap == 1 then [Fill(cs[|cs| - 1] + 1)]
    else [Fill(cs[|cs| - 1] + 1), Fill(q.heap[0].Counter() - 1)]
  }

  // ----- the invariant, clause by clause -----

  /** Emissions are strictly increasing, and everything consumed lies at or below `last`. */
  ghost predicate Ordered(trace: seq<Emission>, discarded: set<Counter>, last: Counter) {
    && Increasing(trace)
    && (forall e :: e in trace ==> e.Counter() <= last)
    && (forall c :: c in discarded ==> c <= last)
  }

  /** Accepted packets are queued, delivered or discarded, and no packet is two of these. */
  ghost predicate Conserved(accepted: set<Counter>, queued: set<Counter>, given: set<Counter>,
                            discarded: set<Counter>)
  {
    && accepted == queued + given + discarded
    && queued !! given
    && queued !! discarded
    && given !! discarded
  }

  /** The packet with counter `c` as it must lie in the queue: as pushed, unless it is marked. */
  ghost predicate IntactPacket(p: Packet, accepted: map<Counter, Packet>, marked: bool) {
    var c := p.Counter();
    && c in accepted
    && accepted[c].Counter() == c
    && p == if marked then ClearedThroughFillIn(accepted[c], Previous(c)) else accepted[c]
  }

  /** A queued packet is as it was pushed, but for the head once two fill-ins were made. */
  ghost predicate Intact(q: Queue, accepted: map<Counter, Packet>) {
    forall i :: 0 <= i < |q.heap| ==> IntactPacket(q.heap[i], accepted, i == 0 && q.gap == 2)
  }

  ghost predicate Positioned(q: Queue, cs: seq<Counter>) {
    && Rising(cs)
    && (q.lastData.None? <==> cs == [])
    && (q.lastData.Some? && q.gap == 0 ==> q.lastPopped == cs[|cs| - 1])
    && (q.lastData.Some? && q.gap == 1 ==> q.lastPopped - 1 == cs[|cs| - 1])
    && (q.gap > 0 ==> q.heap != [] && cs != [] && cs[|cs| - 1] + q.gap < q.heap[0].Counter())
  }

  /** The emissions are the reference bridging of the delivered packets, plus what is pending. */
  ghost predicate Bridged(q: Queue, log: Log) {
    && Positioned(q, log.delivered)
    && log.marks == Concealed(log.delivered) + Pending(q, log.delivered)
  }

  ghost predicate FewFills(trace: seq<Emission>, q: Queue) {
    && NoThreeFillsInARow(trace)
    && TrailingFills(trace) <= 2
    && (q.lastData.Some? ==> TrailingFills(trace) == q.gap)
  }

  ghost predicate Counted(q: Queue, log: Log) {
    && q.stats.pushed == |log.accepted|
    && q.stats.pushed - q.stats.popped == |q.heap|
    && q.stats.dropped + q.stats.healed == CountFills(log.trace) + |log.discarded|
  }

  ghost predicate Inv(s: State) {
    && Valid(s.queue)
    && Ordered(s.log.trace, s.log.discarded, s.queue.lastPopped)
    && Conserved(s.log.accepted.Keys, Counters(s.queue.heap), RealsOf(s.log.trace), s.log.discarded)
    && Intact(s.queue, s.log.accepted)
    && Bridged(s.queue, s.log)
    && FewFills(s.log.trace, s.queue)
    && Counted(s.queue, s.log)
  }

  // ----- the ledger as sets -----

  lemma LedgerPush(accepted: set<Counter>, queued: set<Counter>, given: set<Counter>, discarded: set<Counter>,
                   c: Counter)
    requires Conserved(accepted, queued, given, discarded)
    requires c !in accepted
    ensures Conserved(accepted + {c}, queued + {c}, given, discarded)
  {}

  lemma LedgerDeliver(accepted: set<Counter>, queued: set<Counter>, given: set<Counter>, discarded: set<Counter>,
                      c: Counter)
    requires Conserved(accepted, queued, given, discarded)
    requires c in queued
    ensures Conserved(accepted, queued - {c}, given + {c}, discarded)
  {}

  lemma LedgerDiscard(accepted: set<Counter>, queued: set<Counter>, given: set<Counter>, discarded: set<Counter>,
                      gone: set<Counter>)
    requires Conserved(accepted, queued, given, discarded)
    requires gone <= queued
    ensures Conserved(accepted, queued - gone, given, discarded + gone)
    ensures |discarded + gone| == |discarded| + |gone|
  {
    assert discarded !! gone;
  }

  // ----- pushes -----

  lemma PushIntact(s: State, p: Packet)
    requires Valid(s.queue) && Intact(s.queue, s.log.accepted)
    requires Accepts(s.queue, p)
    ensures Intact(AfterPush(s, p).queue, AfterPush(s, p).log.accepted)
  {
    var q, r := s.queue, AfterPush(s, p);
    var k := Rank(q.heap, p.Counter());
    if q.gap == 2 {
      assert q.heap[0] in q.heap;
      assert 0 < k;
    }
    forall i | 0 <= i < |r.queue.heap|
      ensures IntactPacket(r.queue.heap[i], r.log.accepted, i == 0 && r.queue.gap == 2)
    {
      var j := if i < k then i else i - 1;
      if i == k {
        assert r.queue.heap[i] == p;
      } else {
        assert r.queue.heap[i] == q.heap[j];
        assert q.heap[j] in q.heap;
        assert IntactPacket(q.heap[j], s.log.accepted, j == 0 && q.gap == 2);
      }
    }
  }

  lemma PushBridged(s: State, p: Packet)
    requires Valid(s.queue) && Bridged(s.queue, s.log)
    requires Accepts(s.queue, p)
    ensures Bridged(AfterPush(s, p).queue, AfterPush(s, p).log)
  {
    var q, r := s.queue, AfterPush(s, p).queue;
    PushKeepsValid(q, p);
    InsertElements(q.heap, p);
    if q.gap > 0 {
      assert r.heap[0] in r.heap;
      assert q.lastPopped < r.heap[0].Counter();
      assert r.heap[0] == p || r.heap[0] == q.heap[0] by {
        assert Rank(q.heap, p.Counter()) == 0 ==> r.heap[0] == p;
      }
    }
  }

  lemma AcceptedIsNew(s: State, p: Packet)
    requires Ordered(s.log.trace, s.log.discarded, s.queue.lastPopped)
    requires Conserved(s.log.accepted.Keys, Counters(s.queue.heap), RealsOf(s.log.trace), s.log.discarded)
    requires s.queue.inQueue == Counters(s.queue.heap)
    requires Accepts(s.queue, p)
    ensures p.Counter() !in s.log.accepted.Keys
  {
    assert p.Counter() !in RealsOf(s.log.trace);
  }

  lemma PushLedger(s: State, p: Packet)
    requires Conserved(s.log.accepted.Keys, Counters(s.queue.heap), RealsOf(s.log.trace), s.log.discarded)
    requires Accepts(s.queue, p) && p.Counter() !in s.log.accepted.Keys
    ensures var r := AfterPush(s, p);
      Conserved(r.log.accepted.Keys, Counters(r.queue.heap), RealsOf(r.log.trace), r.log.discarded)
  {
    hide Conserved;
    InsertElements(s.queue.heap, p);
    assert AfterPush(s, p).log.accepted.Keys == s.log.accepted.Keys + {p.Counter()};
    LedgerPush(s.log.accepted.Keys, Counters(s.queue.heap), RealsOf(s.log.trace), s.log.discarded, p.Counter());
  }

  lemma PushCounted(s: State, p: Packet)
    requires Counted(s.queue, s.log)
    requires Accepts(s.queue, p) && p.Counter() !in s.log.accepted.Keys
    ensures Counted(AfterPush(s, p).queue, AfterPush(s, p).log)
  {
    assert AfterPush(s, p).log.accepted.Keys == s.log.accepted.Keys + {p.Counter()};
  }

  /** A rejected packet only shows in the quality counters. */
  lemma RejectStep(s: State, p: Packet)
    requires Inv(s)
    requires !Accepts(s.queue, p)
    ensures Inv(AfterPush(s, p))
  {
    hide Conserved, Ordered, NoThreeFillsInARow, Sorted, IntactPacket, Concealed;
  }

  lemma AcceptStep(s: State, p: Packet)
    requires Inv(s)
    requires Accepts(s.queue, p)
    ensures Inv(AfterPush(s, p))
  {
    hide Conserved, Ordered, Intact, Bridged, NoThreeFillsInARow, Counted;
    AcceptedIsNew(s, p);
    PushLedger(s, p);
    PushCounted(s, p);
    PushIntact(s, p);
    PushBridged(s, p);
    hide Valid;
    PushKeepsValid(s.queue, p);
  }

  // ----- pops -----

  lemma IncreasingGrows(trace: seq<Emission>, discarded: set<Counter>, last: Counter, e: Emission)
    requires Ordered(trace, discarded, last)
    requires last < e.Counter()
    ensures Ordered(trace + [e], discarded, e.Counter())
  {
    var t := trace + [e];
    forall i, j | 0 <= i < j < |t| ensures t[i].Counter() < t[j].Counter() {
      if j == |trace| {
        assert t[i] in trace;
      }
    }
  }

  lemma FillsGrow(trace: seq<Emission>, e: Emission)
    requires NoThreeFillsInARow(trace)
    requires e.fillIn ==> TrailingFills(trace) < 2
    ensures NoThreeFillsInARow(trace + [e])
    ensures TrailingFills(trace + [e]) == if e.fillIn then TrailingFills(trace) + 1 else 0
    ensures CountFills(trace + [e]) == CountFills(trace) + if e.fillIn then 1 else 0
  {
    var t := trace + [e];
    assert t[..|t| - 1] == trace;
    forall i | 0 <= i < |t| - 2 ensures !(t[i].fillIn && t[i + 1].fillIn && t[i + 2].fillIn) {
      if i + 2 < |trace| {
        assert t[i] == trace[i] && t[i + 1] == trace[i + 1] && t[i + 2] == trace[i + 2];
      } else if e.fillIn && t[i].fillIn {
        assert t[i] == trace[..|trace| - 1][i];
        assert t[i + 1] == trace[|trace| - 1];
      }
    }
  }

  lemma RealsGrow(trace: seq<Emission>, e: Emission)
    ensures RealsOf(trace + [e]) == RealsOf(trace) + if e.fillIn then {} else {e.Counter()}
  {
    var reals := RealsOf(trace) + if e.fillIn then {} else {e.Counter()};
    forall c | c in reals ensures c in RealsOf(trace + [e]) {
      if c in RealsOf(trace) {
        var x :| x in trace && !x.fillIn && x.Counter() == c;
        assert x in trace + [e];
      } else {
        assert e in trace + [e];
      }
    }
  }

  lemma HeadTaken(h: seq<Packet>)
    requires Sorted(h) && h != []
    ensures Counters(h) == {h[0].Counter()} + Counters(h[1..])
    ensures h[0].Counter() !in Counters(h[1..])
  {
    SplitCounters(h, 1);
    assert h[..1] == [h[0]];
    assert Counters(h[..1]) == {h[0].Counter()};
  }

  /** Delivering the head adds it, and what is pending, to the reference bridging. */
  lemma ConcealedGrows(q: Queue, cs: seq<Counter>)
    requires Valid(q) && Positioned(q, cs)
    requires q.heap != [] && HeadIsNext(q)
    ensures Rising(cs + [q.heap[0].Counter()])
    ensures Concealed(cs + [q.heap[0].Counter()]) == Concealed(cs) + Pending(q, cs) + [Real(q.heap[0].Counter())]
  {
    var c := q.heap[0].Counter();
    var ds := cs + [c];
    assert q.heap[0] in q.heap;
    hide Sorted, Counters;
    assert ds[..|ds| - 1] == cs;
    if cs != [] {
      var a := cs[|cs| - 1];
      assert a < c;
      assert Pending(q, cs) == Bridge(a, c);
    }
  }

  lemma DeliverBridged(s: State)
    requires Valid(s.queue) && Bridged(s.queue, s.log)
    requires s.queue.heap != [] && HeadIsNext(s.queue)
    ensures Bridged(AfterPop(s).queue, AfterPop(s).log)
  {
    ConcealedGrows(s.queue, s.log.delivered);
    hide Valid, Concealed, HeadIsNext;
    assert AfterPop(s).log.marks == s.log.marks + [Real(s.queue.heap[0].Counter())];
  }

  lemma DeliverIntact(s: State)
    requires Valid(s.queue) && Intact(s.queue, s.log.accepted)
    requires s.queue.heap != [] && HeadIsNext(s.queue)
    ensures Intact(AfterPop(s).queue, s.log.accepted)
  {
    var q, r := s.queue, AfterPop(s).queue;
    forall i | 0 <= i < |r.heap| ensures IntactPacket(r.heap[i], s.log.accepted, false) {
      assert r.heap[i] == q.heap[i + 1];
    }
  }

  lemma DeliverLedger(s: State)
    requires Valid(s.queue)
    requires Conserved(s.log.accepted.Keys, Counters(s.queue.heap), RealsOf(s.log.trace), s.log.discarded)
    requires s.queue.heap != [] && HeadIsNext(s.queue)
    ensures var r := AfterPop(s);
      Conserved(r.log.accepted.Keys, Counters(r.queue.heap), RealsOf(r.log.trace), r.log.discarded)
  {
    hide Conserved;
    var c := s.queue.heap[0].Counter();
    RealsGrow(s.log.trace, Emission(s.queue.heap[0], false));
    HeadTaken(s.queue.heap);
    assert Counters(s.queue.heap[1..]) == Counters(s.queue.heap) - {c};
    LedgerDeliver(s.log.accepted.Keys, Counters(s.queue.heap), RealsOf(s.log.trace), s.log.discarded, c);
  }

  lemma DeliverStep(s: State)
    requires Inv(s)
    requires s.queue.heap != [] && HeadIsNext(s.queue)
    ensures Inv(AfterPop(s))
  {
    hide Conserved, Ordered, Intact, Bridged, NoThreeFillsInARow;
    var e := Emission(s.queue.heap[0], false);
    DeliverLedger(s);
    DeliverIntact(s);
    DeliverBridged(s);
    FillsGrow(s.log.trace, e);
    PopKeepsValid(s.queue);
    hide Valid;
    IncreasingGrows(s.log.trace, s.log.discarded, s.queue.lastPopped, e);
  }

  lemma ConcealIntact(s: State)
    requires Valid(s.queue) && Intact(s.queue, s.log.accepted)
    requires s.queue.heap != [] && !HeadIsNext(s.queue)
    ensures Intact(AfterPop(s).queue, s.log.accepted)
  {
    var q, r := s.queue, AfterPop(s).queue;
    ConcealSteps(q);
    forall i | 0 <= i < |r.heap| ensures IntactPacket(r.heap[i], s.log.accepted, i == 0 && r.gap == 2) {
      assert IntactPacket(q.heap[i], s.log.accepted, false);
      if 0 < i {
        assert r.heap[i] == q.heap[i];
      }
    }
  }

  lemma ConcealBridged(s: State)
    requires Valid(s.queue) && Bridged(s.queue, s.log)
    requires s.queue.heap != [] && !HeadIsNext(s.queue)
    ensures Bridged(AfterPop(s).queue, AfterPop(s).log)
  {
    ConcealSteps(s.queue);
    assert AfterPop(s).log.marks == s.log.marks + [Fill(Missing(s.queue))];
  }

  lemma ConcealLedger(s: State)
    requires Valid(s.queue)
    requires Conserved(s.log.accepted.Keys, Counters(s.queue.heap), RealsOf(s.log.trace), s.log.discarded)
    requires s.queue.heap != [] && !HeadIsNext(s.queue)
    ensures var r := AfterPop(s);
      Conserved(r.log.accepted.Keys, Counters(r.queue.heap), RealsOf(r.log.trace), r.log.discarded)
  {
    hide Conserved;
    RealsGrow(s.log.trace, Emission(Pop(s.queue).packet, true));
    assert RealsOf(AfterPop(s).log.trace) == RealsOf(s.log.trace);
    ConcealSteps(s.queue);
    SameCounters(s.queue.heap, AfterPop(s).queue.heap);
  }

  lemma ConcealFills(s: State)
    requires Inv(s)
    requires s.queue.heap != [] && !HeadIsNext(s.queue)
    ensures FewFills(AfterPop(s).log.trace, AfterPop(s).queue)
    ensures Counted(AfterPop(s).queue, AfterPop(s).log)
    ensures Ordered(AfterPop(s).log.trace, s.log.discarded, AfterPop(s).queue.lastPopped)
  {
    var e := Emission(Pop(s.queue).packet, true);
    ConcealSteps(s.queue);
    IncreasingGrows(s.log.trace, s.log.discarded, s.queue.lastPopped, e);
    FillsGrow(s.log.trace, e);
  }

  lemma ConcealStep(s: State)
    requires Inv(s)
    requires s.queue.heap != [] && !HeadIsNext(s.queue)
    ensures Inv(AfterPop(s))
  {
    hide Valid, Conserved, Ordered, Intact, Bridged, FewFills, Counted;
    PopKeepsValid(s.queue);
    ConcealLedger(s);
    ConcealFills(s);
    ConcealIntact(s);
    ConcealBridged(s);
  }

  // ----- fast-forwards -----

  lemma FastForwardIntact(s: State, retained: nat)
    requires Valid(s.queue) && Intact(s.queue, s.log.accepted)
    requires retained < |s.queue.heap|
    ensures Intact(AfterFastForward(s, retained).queue, s.log.accepted)
  {
    var q, r := s.queue, AfterFastForward(s, retained).queue;
    forall i | 0 <= i < |r.heap| ensures IntactPacket(r.heap[i], s.log.accepted, false) {
      assert r.heap[i] == q.heap[|q.heap| - retained + i];
    }
  }

  lemma FastForwardLedger(s: State, retained: nat)
    requires Valid(s.queue)
    requires Conserved(s.log.accepted.Keys, Counters(s.queue.heap), RealsOf(s.log.trace), s.log.discarded)
    requires retained < |s.queue.heap|
    ensures var r := AfterFastForward(s, retained);
      && Conserved(r.log.accepted.Keys, Counters(r.queue.heap), RealsOf(r.log.trace), r.log.discarded)
      && |r.log.discarded| == |s.log.discarded| + |s.queue.heap| - retained
  {
    hide Conserved, Counters, Valid;
    var h, n := s.queue.heap, |s.queue.heap| - retained;
    FastForwardSplits(s.queue, retained);
    FastForwardSize(s.queue, retained);
    LedgerDiscard(s.log.accepted.Keys, Counters(h), RealsOf(s.log.trace), s.log.discarded, Counters(h[..n]));
  }

  lemma FastForwardOrdered(s: State, retained: nat)
    requires Valid(s.queue) && Ordered(s.log.trace, s.log.discarded, s.queue.lastPopped)
    requires retained < |s.queue.heap|
    ensures var r := AfterFastForward(s, retained);
      Ordered(r.log.trace, r.log.discarded, r.queue.lastPopped)
  {
    hide Increasing, Counters, Valid, FastForwarded;
    FastForwardBounds(s.queue, retained);
    FastForwardKeepsValid(s.queue, retained);
  }

  lemma FastForwardStep(s: State, retained: nat)
    requires Inv(s)
    requires retained < |s.queue.heap|
    ensures Inv(AfterFastForward(s, retained))
  {
    hide Conserved, Ordered, Intact, Bridged, FewFills, Valid, Counters;
    FastForwardOrdered(s, retained);
    FastForwardLedger(s, retained);
    FastForwardIntact(s, retained);
    FastForwardBridged(s, retained);
    FastForwardKeepsValid(s.queue, retained);
  }

  /** A rebase begins anew. */
  lemma FastForwardBridged(s: State, retained: nat)
    requires retained < |s.queue.heap| && FewFills(s.log.trace, s.queue)
    ensures var r := AfterFastForward(s, retained);
      Bridged(r.queue, r.log) && FewFills(r.log.trace, r.queue)
  {
    hide NoThreeFillsInARow, Counters;
  }

  // ----- runs -----

  lemma StepKeepsInv(s: State, op: Op)
    requires Inv(s)
    ensures Inv(Step(s, op))
  {
    hide Inv, AfterPush, AfterPop, HeadIsNext, Accepts, FastForwarded;
    match op
    case Push(p) => if Accepts(s.queue, p) { AcceptStep(s, p); } else { RejectStep(s, p); }
    case TryPop =>
      if s.queue.heap != [] {
        if HeadIsNext(s.queue) { DeliverStep(s); } else { ConcealStep(s); }
      }
    case FastForward(n) =>
      if n < |s.queue.heap| { FastForwardStep(s, n); }
    case Reset => StartInv();
  }

  lemma StartInv()
    ensures Inv(START)
  {
    assert RealsOf([]) == {};
  }

  /** The invariant holds after every step of every run. */
  lemma {:induction false} RunKeepsInv(ops: seq<Op>)
    ensures Inv(Run(START, ops))
  {
    if ops == [] {
      StartInv();
    } else {
      RunKeepsInv(ops[..|ops| - 1]);
      StepKeepsInv(Run(START, ops[..|ops| - 1]), ops[|ops| - 1]);
    }
  }

  // ----- results -----

  /**
   However long a gap is, at most two fill-ins stand in for it. While one is being
   concealed there is a packet left to end it, and after the second fill-in that
   packet comes next.
   */
  lemma {:induction false} AtMostTwoFillIns(ops: seq<Op>)
    ensures var s := Run(START, ops);
      && NoThreeFillsInARow(s.log.trace)
      && s.queue.gap <= 2
      && (s.queue.gap > 0 ==> s.queue.heap != [])
      && (s.queue.gap == 2 ==> HeadIsNext(s.queue))
  {
    RunKeepsInv(ops);
  }

  /** Emitted counters strictly increase, and whatever is still queued comes after them. */
  lemma {:induction false} EmissionsRise(ops: seq<Op>)
    ensures var s := Run(START, ops);
      && Increasing(s.log.trace)
      && (forall e, p :: e in s.log.trace && p in s.queue.heap ==> e.Counter() < p.Counter())
  {
    RunKeepsInv(ops);
  }

  /**
   Accepted packets are at all times split between the queue, the real deliveries and
   the discarded ones. As emissions rise, no packet is delivered twice.
   */
  lemma {:induction false} AcceptedPacketsAreConserved(ops: seq<Op>)
    ensures var s := Run(START, ops);
      && Conserved(s.log.accepted.Keys, Counters(s.queue.heap), RealsOf(s.log.trace), s.log.discarded)
      && s.queue.inQueue == Counters(s.queue.heap)
      && Sorted(s.queue.heap)
  {
    RunKeepsInv(ops);
  }

  /** The emissions since the last rebase are a function of the real packets among them. */
  lemma {:induction false} EmissionsFollowTheReference(ops: seq<Op>)
    ensures var s := Run(START, ops);
      && Positioned(s.queue, s.log.delivered)
      && s.log.marks == Concealed(s.log.delivered) + Pending(s.queue, s.log.delivered)
  {
    RunKeepsInv(ops);
  }

  /** The quality counters balance. */
  lemma {:induction false} QualityCountersBalance(ops: seq<Op>)
    ensures var s := Run(START, ops);
      && s.queue.stats.pushed == |s.log.accepted|
      && s.queue.stats.pushed - s.queue.stats.popped == |s.queue.heap|
      && s.queue.stats.dropped + s.queue.stats.healed == CountFills(s.log.trace) + |s.log.discarded|
  {
    RunKeepsInv(ops);
  }

  /** `c` is not the successor, nor the second successor, of the last real packet. */
  predicate LongGapBefore(cs: seq<Counter>, c: Counter) {
    cs != [] && cs[|cs| - 1] + 2 < c
  }

  /** The redundant block of `p` is the one with counter `c`. */
  predicate Carries(p: Packet, c: Counter) {
    p.fec.Some? && p.fec.value.counter == c
  }

  /** Block `b` is block `a`, with every sample cleared. */
  ghost predicate IsMuted(b: Block, a: Block) {
    IsSilent(b.audio, a.audio) && b == a.(audio := b.audio)
  }

  /**
   A delivered packet is the accepted one, except that after a gap of two or more its
   samples have been cleared together with those of the second fill-in, which was
   copied from it, unless the fill-in came from the redundant block, which then is cleared.
   */
  lemma {:induction false} DeliveredSamples(ops: seq<Op>)
    requires var q := Run(START, ops).queue; q.heap != [] && HeadIsNext(q)
    ensures var s := Run(START, ops);
      var p := Pop(s.queue).packet;
      && p.Counter() in s.log.accepted
      && var sent := s.log.accepted[p.Counter()];
      var long, heals := LongGapBefore(s.log.delivered, p.Counter()), Carries(sent, Previous(p.Counter()));
      && (if long && !heals then IsMuted(p.block, sent.block) else p.block == sent.block)
      && (if long && heals then p.fec.Some? && IsMuted(p.fec.value, sent.fec.value) else p.fec == sent.fec)
      && (p.block.audio == sent.block.audio <==> (long ==> heals) || IsSilent(sent.block.audio, sent.block.audio))
  {
    RunKeepsInv(ops);
    var s := Run(START, ops);
    var q, cs := s.queue, s.log.delivered;
    assert IntactPacket(q.heap[0], s.log.accepted, q.gap == 2);
    assert q.heap[0] in q.heap;
    assert q.gap == 2 <==> LongGapBefore(cs, q.heap[0].Counter());
    hide Inv, Run, LongGapBefore, Silence, IsSilent;
    ClearedIsMuted(s.log.accepted[q.heap[0].Counter()], Previous(q.heap[0].Counter()));
  }

  lemma ClearedIsMuted(sent: Packet, c: Counter)
    ensures var p := ClearedThroughFillIn(sent, c);
      if Carries(sent, c) then p.block == sent.block && p.fec.Some? && IsMuted(p.fec.value, sent.fec.value)
      else
        && IsMuted(p.block, sent.block) && p.fec == sent.fec
        && (p.block.audio == sent.block.audio <==> IsSilent(sent.block.audio, sent.block.audio))
  {
    SilenceIsSilent(sent.block.audio);
    if sent.fec.Some? {
      SilenceIsSilent(sent.fec.value.audio);
    }
    if IsSilent(sent.block.audio, sent.block.audio) {
      SilenceIsUnique(sent.block.audio, sent.block.audio);
    }
    hide Silence;
  }

  /** The next pop makes a fill-in, the `n`-th of its gap. */
  predicate FillsNext(s: State, n: nat) {
    s.queue.heap != [] && Pop(s.queue).isFillIn && s.queue.gap + 1 == n
  }

  /** The accepted packet that ends the current gap. */
  predicate EndsGap(s: State, ending: Packet) {
    s.queue.heap != [] && s.queue.heap[0].Counter() in s.log.accepted
    && s.log.accepted[s.queue.heap[0].Counter()] == ending
  }

  lemma HeadEndsGap(s: State, ending: Packet)
    requires Inv(s) && s.queue.heap != [] && s.queue.gap < 2
    ensures EndsGap(s, ending) <==> ending == s.queue.heap[0]
  {
    hide Conserved, Ordered, Bridged, FewFills, Counted, Valid;
    assert IntactPacket(s.queue.heap[0], s.log.accepted, false);
  }

  /**
   The first fill-in of a gap is the redundant block for the missing counter if the packet that
   ends the gap carries it. Otherwise it repeats that packet: the accepted samples, tempo, time
   stamp and setup, without a transport command and without a redundant block.
   */
  lemma {:induction false} FirstFillInRepeats(ops: seq<Op>, ending: Packet)
    requires FillsNext(Run(START, ops), 1) && EndsGap(Run(START, ops), ending)
    ensures var s := Run(START, ops);
      var e := Pop(s.queue).packet;
      && e.Counter() == s.queue.lastPopped + 1 < ending.Counter()
      && e.fec == None
      && if Carries(ending, e.Counter()) then e.block == ending.fec.value
         else
           && e.block.audio == ending.block.audio && e.block.bpm == ending.block.bpm
           && e.block.timestamp == ending.block.timestamp && e.block.setup == ending.block.setup
           && e.block.midi == NoSignal
  {
    RunKeepsInv(ops);
    var s := Run(START, ops);
    HeadEndsGap(s, ending);
    ConcealSteps(s.queue);
    hide Inv, Run, Rewind;
  }

  /**
   The second fill-in of a gap comes right before the packet that ends it, and is silent: every
   sample is zero, in a buffer of the shape of the block it was made from. That is the redundant
   block if it matches, and the packet's own otherwise.
   */
  lemma {:induction false} SecondFillInIsSilent(ops: seq<Op>, ending: Packet)
    requires FillsNext(Run(START, ops), 2) && EndsGap(Run(START, ops), ending)
    ensures var e := Pop(Run(START, ops).queue).packet;
      && e.Counter() + 1 == ending.Counter()
      && e.fec == None
      && var source := if Carries(ending, e.Counter()) then ending.fec.value else ending.block;
         && IsSilent(e.block.audio, source.audio)
         && e.block.bpm == source.bpm && e.block.timestamp == source.timestamp && e.block.setup == source.setup
  {
    RunKeepsInv(ops);
    var s := Run(START, ops);
    HeadEndsGap(s, ending);
    ConcealSteps(s.queue);
    hide Inv, Run, Rewind;
    SilenceIsSilent(ending.block.audio);
    if ending.fec.Some? {
      SilenceIsSilent(ending.fec.value.audio);
    }
    hide Silence;
  }

  // ----- the statistics -----

  /** Pushes since the last reset that came when their counter was consumed or given up. */
  function LateArrivals(ops: seq<Op>): nat {
    if ops == [] || ops[|ops| - 1].Reset? then 0
    else
      var front, last := ops[..|ops| - 1], ops[|ops| - 1];
      LateArrivals(front)
      + if last.Push? && last.packet.Counter() <= Run(START, front).queue.lastPopped then 1 else 0
  }

  /** Pushes since the last reset of a counter that was queued. */
  function DoubleArrivals(ops: seq<Op>): nat {
    if ops == [] || ops[|ops| - 1].Reset? then 0
    else
      var front, last := ops[..|ops| - 1], ops[|ops| - 1];
      DoubleArrivals(front)
      + if last.Push? && last.packet.Counter() in Counters(Run(START, front).queue.heap) then 1 else 0
  }

  /** The counters of all other pushes since the last reset, in the order of their arrival. */
  function ArrivalOrder(ops: seq<Op>): seq<Counter> {
    if ops == [] || ops[|ops| - 1].Reset? then []
    else
      var front, last := ops[..|ops| - 1], ops[|ops| - 1];
      ArrivalOrder(front)
      + if last.Push? && IsNew(Run(START, front).queue, last.packet.Counter()) then [last.packet.Counter()] else []
  }

  /** Pops since the last reset that gave the redundant block of the queue's head for its first missing counter. */
  function Healings(ops: seq<Op>): nat {
    if ops == [] || ops[|ops| - 1].Reset? then 0
    else
      var front := ops[..|ops| - 1];
      Healings(front) + if ops[|ops| - 1].TryPop? && HealsNext(Run(START, front)) then 1 else 0
  }

  predicate HealsNext(s: State) {
    FillsNext(s, 1) && Carries(s.queue.heap[0], Next(s.queue.lastPopped))
  }

  predicate IsNew(q: Queue, c: Counter) {
    q.lastPopped < c && c !in Counters(q.heap)
  }

  /** How often a counter follows a larger one, and by how much it falls behind at most. */
  function Reversals(order: seq<Counter>): nat {
    if |order| < 2 then 0
    else Reversals(order[..|order| - 1]) + if order[|order| - 1] < order[|order| - 2] then 1 else 0
  }

  function WidestReversal(order: seq<Counter>): nat {
    if |order| < 2 then 0
    else
      var before, a, b := WidestReversal(order[..|order| - 1]), order[|order| - 2], order[|order| - 1];
      if b < a && a - b > before then a - b else before
  }

  /** The longest stretch of fill-ins. */
  function LongestFills(trace: seq<Emission>): nat {
    if trace == [] then 0
    else
      var before, trailing := LongestFills(trace[..|trace| - 1]), TrailingFills(trace);
      if trailing > before then trailing else before
  }

  ghost predicate TrueStatistics(q: Queue, trace: seq<Emission>, late: nat, double: nat, healed: nat,
                                 order: seq<Counter>)
  {
    && q.stats.tooLate == late
    && q.stats.duplicate == double
    && q.stats.healed == healed
    && q.stats.outOfOrder == Reversals(order)
    && q.stats.maxWrongOrderSpan == WidestReversal(order)
    && q.stats.maxGap == LongestFills(trace)
    && q.lastPushed == if order == [] then 0 else order[|order| - 1]
  }

  lemma ReversalsGrow(order: seq<Counter>, c: Counter)
    ensures var last := if order == [] then 0 else order[|order| - 1];
      && Reversals(order + [c]) == Reversals(order) + (if c < last then 1 else 0)
      && WidestReversal(order + [c])
         == if c < last && last - c > WidestReversal(order) then last - c else WidestReversal(order)
  {
    assert (order + [c])[..|order|] == order;
  }

  lemma QueuedIsNotLate(q: Queue, c: Counter)
    requires Valid(q) && c in Counters(q.heap)
    ensures q.lastPopped < c
  {}

  lemma PushStatistics(s: State, p: Packet, late: nat, double: nat, healed: nat,
                       order: seq<Counter>)
    requires Valid(s.queue) && TrueStatistics(s.queue, s.log.trace, late, double, healed, order)
    ensures var t := AfterPush(s, p);
      TrueStatistics(t.queue, t.log.trace,
                     late + (if p.Counter() <= s.queue.lastPopped then 1 else 0),
                     double + (if p.Counter() in Counters(s.queue.heap) then 1 else 0),
                     healed,
                     order + if IsNew(s.queue, p.Counter()) then [p.Counter()] else [])
  {
    hide Insert, LongestFills, Reversals, WidestReversal, Sorted;
    ReversalsGrow(order, p.Counter());
    if p.Counter() in Counters(s.queue.heap) {
      QueuedIsNotLate(s.queue, p.Counter());
    }
    assert order + [] == order;
    hide Counters;
  }

  /** What a pop does to the statistics. */
  lemma PopCounts(s: State)
    requires s.queue.heap != []
    ensures var q, r := s.queue, Pop(s.queue);
      && r.queue.lastPushed == q.lastPushed
      && r.queue.stats == q.stats.(
           healed := q.stats.healed + (if HealsNext(s) then 1 else 0),
           dropped := r.queue.stats.dropped,
           popped := r.queue.stats.popped,
           maxGap := if r.isFillIn then Max(q.stats.maxGap, q.gap + 1) else q.stats.maxGap)
  {
    hide FillIn, ClearedThroughFillIn;
  }

  lemma LongestGrows(trace: seq<Emission>, gap: nat, e: Emission)
    requires e.fillIn ==> TrailingFills(trace) == gap
    ensures LongestFills(trace + [e]) == if e.fillIn then Max(LongestFills(trace), gap + 1) else LongestFills(trace)
  {
    assert (trace + [e])[..|trace|] == trace;
  }

  lemma FillsAreTheGap(s: State)
    requires Inv(s) && s.queue.heap != []
    ensures Pop(s.queue).isFillIn ==> TrailingFills(s.log.trace) == s.queue.gap
  {
    hide Conserved, Ordered, Bridged, Intact, Counted, Valid, NoThreeFillsInARow, TrailingFills, FillIn;
  }

  lemma PopStatistics(s: State, late: nat, double: nat, healed: nat,
                      order: seq<Counter>)
    requires Inv(s) && s.queue.heap != [] && TrueStatistics(s.queue, s.log.trace, late, double, healed, order)
    ensures var t := AfterPop(s);
      TrueStatistics(t.queue, t.log.trace, late, double, healed + (if HealsNext(s) then 1 else 0), order)
  {
    hide Inv, Pop, HealsNext, Reversals, WidestReversal, LongestFills, TrailingFills;
    FillsAreTheGap(s);
    PopCounts(s);
    LongestGrows(s.log.trace, s.queue.gap, Emission(Pop(s.queue).packet, Pop(s.queue).isFillIn));
  }

  lemma FastForwardStatistics(s: State, retained: nat, late: nat, double: nat, healed: nat,
                              order: seq<Counter>)
    requires TrueStatistics(s.queue, s.log.trace, late, double, healed, order)
    ensures var t := AfterFastForward(s, retained);
      TrueStatistics(t.queue, t.log.trace, late, double, healed, order)
  {}

  /** The statistics of the state that `ops` leads to. */
  ghost predicate Tallied(s: State, ops: seq<Op>) {
    TrueStatistics(s.queue, s.log.trace, LateArrivals(ops), DoubleArrivals(ops), Healings(ops), ArrivalOrder(ops))
  }

  lemma TallyPush(s: State, front: seq<Op>, p: Packet)
    requires Valid(s.queue) && Tallied(s, front) && s == Run(START, front)
    ensures Tallied(Step(s, Push(p)), front + [Push(p)])
  {
    hide TrueStatistics, AfterPush, Valid, IsNew, Counters, Run;
    assert (front + [Push(p)])[..|front|] == front;
    PushStatistics(s, p, LateArrivals(front), DoubleArrivals(front), Healings(front), ArrivalOrder(front));
  }

  lemma TallyOther(s: State, front: seq<Op>, op: Op)
    requires Inv(s) && Tallied(s, front) && !op.Push? && s == Run(START, front)
    ensures Tallied(Step(s, op), front + [op])
  {
    hide TrueStatistics, AfterPop, AfterFastForward, Inv, Run, Counters;
    assert (front + [op])[..|front|] == front;
    assert ArrivalOrder(front) + [] == ArrivalOrder(front);
    match op
    case TryPop =>
      if s.queue.heap != [] {
        PopStatistics(s, LateArrivals(front), DoubleArrivals(front), Healings(front), ArrivalOrder(front));
      }
    case FastForward(n) =>
      FastForwardStatistics(s, n, LateArrivals(front), DoubleArrivals(front), Healings(front), ArrivalOrder(front));
    case Reset => NoStatistics(front + [op]);
  }

  lemma NoStatistics(ops: seq<Op>)
    requires ops == [] || ops[|ops| - 1].Reset?
    ensures Tallied(START, ops)
  {}

  lemma {:induction false} StatisticsHold(ops: seq<Op>)
    ensures Tallied(Run(START, ops), ops)
  {
    hide Tallied, Inv, Step;
    if ops != [] {
      var front, last := ops[..|ops| - 1], ops[|ops| - 1];
      var s := Run(START, front);
      StatisticsHold(front);
      RunKeepsInv(front);
      InvIsValid(s);
      hide Valid;
      assert front + [last] == ops;
      if last.Push? {
        TallyPush(s, front, last.packet);
      } else {
        TallyOther(s, front, last);
      }
    } else {
      NoStatistics(ops);
    }
  }

  /**
   The statistics of a stream are what really happened since the last reset: how many packets came
   too late or twice, how many lost packets were healed, how many counters came after a larger one
   and how far behind at most, and the longest stretch of fill-ins.
   */
  lemma {:induction false} StatisticsAreTrue(ops: seq<Op>)
    ensures var s := Run(START, ops);
      && s.queue.stats.tooLate == LateArrivals(ops)
      && s.queue.stats.duplicate == DoubleArrivals(ops)
      && s.queue.stats.healed == Healings(ops)
      && s.queue.stats.outOfOrder == Reversals(ArrivalOrder(ops))
      && s.queue.stats.maxWrongOrderSpan == WidestReversal(ArrivalOrder(ops))
      && s.queue.stats.maxGap == LongestFills(s.log.trace)
  {
    StatisticsHold(ops);
    hide Run, LateArrivals, DoubleArrivals, Healings, ArrivalOrder, Reversals, WidestReversal, LongestFills;
  }

  ghost predicate OnlyPushes(ops: seq<Op>) {
    forall i :: 0 <= i < |ops| ==> ops[i].Push?
  }

  lemma {:induction false} RunFromKeepsInv(s: State, ops: seq<Op>)
    requires Inv(s)
    ensures Inv(Run(s, ops))
  {
    hide Inv;
    if ops != [] {
      RunFromKeepsInv(s, ops[..|ops| - 1]);
      StepKeepsInv(Run(s, ops[..|ops| - 1]), ops[|ops| - 1]);
    }
  }

  /** The oldest queued packet is `p`, and it is the next counter to come. */
  predicate NextIs(q: Queue, p: Packet) {
    q.heap != [] && q.heap[0] == p && q.lastPopped + 1 == p.Counter()
  }

  lemma NextIsDelivered(q: Queue, p: Packet)
    requires NextIs(q, p)
    ensures q.heap != [] && !Pop(q).isFillIn && Pop(q).packet == p
  {}

  lemma PushKeepsNext(q: Queue, next: Packet, p: Packet)
    requires Valid(q)
    requires NextIs(q, next)
    ensures NextIs(Pushed(q, p), next)
  {
    if Accepts(q, p) {
      assert q.heap[0] in q.heap;
      assert q.heap[0].Counter() in q.inQueue;
      assert Rank(q.heap, p.Counter()) > 0;
    }
  }

  /** When the head is the next counter, no new arrival overtakes it. */
  lemma {:induction false} PushesKeepNext(s: State, next: Packet, ops: seq<Op>)
    requires Inv(s) && OnlyPushes(ops)
    requires NextIs(s.queue, next)
    ensures NextIs(Run(s, ops).queue, next)
  {
    if ops != [] {
      hide Inv, NextIs;
      PushesKeepNext(s, next, ops[..|ops| - 1]);
      RunFromKeepsInv(s, ops[..|ops| - 1]);
      InvIsValid(Run(s, ops[..|ops| - 1]));
      PushKeepsNext(Run(s, ops[..|ops| - 1]).queue, next, ops[|ops| - 1].packet);
    }
  }

  lemma RebaseHead(q: Queue, retained: nat)
    requires Valid(q)
    requires 0 < retained < |q.heap|
    ensures NextIs(FastForwarded(q, retained), q.heap[|q.heap| - retained])
  {
    assert q.heap[|q.heap| - retained] in q.heap;
  }

  /** The first packet after a rebase is the oldest one kept, whatever arrives in between. */
  lemma {:induction false} RebaseResumesAtOldestKept(before: seq<Op>, retained: nat, arrivals: seq<Op>)
    requires 0 < retained < |Run(START, before).queue.heap|
    requires OnlyPushes(arrivals)
    ensures var s := Run(START, before);
      var q := Run(AfterFastForward(s, retained), arrivals).queue;
      && q.heap != []
      && !Pop(q).isFillIn
      && Pop(q).packet == s.queue.heap[|s.queue.heap| - retained]
  {
    hide Inv, Run, NextIs;
    var s := Run(START, before);
    RunKeepsInv(before);
    InvIsValid(s);
    FastForwardStep(s, retained);
    RebaseHead(s.queue, retained);
    hide FastForwarded, Valid;
    PushesKeepNext(AfterFastForward(s, retained), s.queue.heap[|s.queue.heap| - retained], arrivals);
    NextIsDelivered(Run(AfterFastForward(s, retained), arrivals).queue, s.queue.heap[|s.queue.heap| - retained]);
  }

  // ----- draining -----

  /** Pops until the queue is empty: what the loops of the worker and of the mixer do. */
  ghost function Drained(s: State): State
    requires Inv(s)
    decreases Potential(s.queue)
  {
    if s.queue.heap == [] then
      s
    else
      StepKeepsInv(s, TryPop);
      PopDecreasesPotential(s.queue);
      Drained(AfterPop(s))
  }

  lemma AfterPopQueued(q: Queue)
    requires Valid(q) && q.heap != []
    ensures CounterSeq(q.heap) == (if HeadIsNext(q) then [q.heap[0].Counter()] else []) + CounterSeq(Pop(q).queue.heap)
  {
    if HeadIsNext(q) {
      assert CounterSeq(q.heap) == [q.heap[0].Counter()] + CounterSeq(q.heap[1..]);
    } else {
      ConcealSteps(q);
    }
  }

  /** What a drained queue leaves behind, given the counters that were delivered. */
  ghost predicate DrainedTo(s: State, delivered: seq<Counter>) {
    && s.queue.heap == []
    && s.queue.gap == 0
    && s.log.delivered == delivered
    && Rising(delivered)
    && s.log.marks == Concealed(delivered)
  }

  lemma EmptyIsDrained(s: State)
    requires Inv(s)
    requires s.queue.heap == []
    ensures DrainedTo(s, s.log.delivered)
  {
    hide Conserved, Ordered, Intact, FewFills, Concealed;
    assert Pending(s.queue, s.log.delivered) == [];
  }

  /** Draining terminates, delivers every queued packet in order, and leaves no gap pending. */
  lemma {:induction false} DrainingDeliversEverything(s: State)
    requires Inv(s)
    ensures DrainedTo(Drained(s), s.log.delivered + CounterSeq(s.queue.heap))
    decreases Potential(s.queue)
  {
    hide DrainedTo, Inv;
    InvIsValid(s);
    if s.queue.heap == [] {
      EmptyIsDrained(s);
      assert s.log.delivered + CounterSeq(s.queue.heap) == s.log.delivered;
    } else {
      hide Valid;
      StepKeepsInv(s, TryPop);
      AfterPopQueued(s.queue);
      PopDecreasesPotential(s.queue);
      DrainingDeliversEverything(AfterPop(s));
      var r := AfterPop(s);
      hide CounterSeq;
      assert r.log.delivered + CounterSeq(r.queue.heap) == s.log.delivered + CounterSeq(s.queue.heap);
    }
  }

  lemma InvIsValid(s: State)
    requires Inv(s)
    ensures Valid(s.queue)
  {}
}

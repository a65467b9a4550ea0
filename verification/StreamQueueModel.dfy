/**
 The value of a packet queue (common/PacketStreamQueue.cpp) and what each
 operation makes of it. The class `PacketStreamQueue` is proved against these
 functions; their properties over whole runs are in `StreamQueueRuns`.
 */
module StreamQueueModel {
  import opened Packets

  datatype Stats = Stats(
    tooLate: nat,
    dropped: nat,
    outOfOrder: nat,
    duplicate: nat,
    healed: nat,
    pushed: nat,
    popped: nat,
    maxGap: nat,
    maxWrongOrderSpan: nat)

  const NO_STATS := Stats(0, 0, 0, 0, 0, 0, 0, 0, 0)

  /** `heap` lists the packets in the order in which the priority queue yields them. */
  datatype Queue = Queue(
    heap: seq<Packet>,
    inQueue: set<Counter>,
    lastPushed: Counter,
    lastPopped: Counter,
    lastData: Option<Packet>,
    gap: nat,
    stats: Stats)

  const EMPTY_QUEUE := Queue([], {}, 0, 0, None, 0, NO_STATS)

  // ----- the priority queue -----

  predicate Sorted(h: seq<Packet>) {
    forall i, j :: 0 <= i < j < |h| ==> h[i].Counter() < h[j].Counter()
  }

  function Counters(h: seq<Packet>): set<Counter> {
    set p | p in h :: p.Counter()
  }

  function CounterSeq(h: seq<Packet>): seq<Counter> {
    seq(|h|, i requires 0 <= i < |h| => h[i].Counter())
  }

  /** Where a packet with counter `c` belongs: in front of the first larger counter. */
  function Rank(h: seq<Packet>, c: Counter): (k: nat)
    ensures k <= |h|
    ensures forall i :: 0 <= i < k ==> h[i].Counter() <= c
    ensures k < |h| ==> c < h[k].Counter()
  {
    if h == [] || c < h[0].Counter() then 0 else 1 + Rank(h[1..], c)
  }

  function Insert(h: seq<Packet>, p: Packet): seq<Packet> {
    var k := Rank(h, p.Counter());
    h[..k] + [p] + h[k..]
  }

  lemma InsertElements(h: seq<Packet>, p: Packet)
    ensures forall x :: x in Insert(h, p) <==> x == p || x in h
    ensures Counters(Insert(h, p)) == Counters(h) + {p.Counter()}
  {
    var k := Rank(h, p.Counter());
    assert h == h[..k] + h[k..];
    forall x ensures x in Insert(h, p) <==> x == p || x in h {
      assert x in h <==> x in h[..k] || x in h[k..];
    }
    forall c | c in Counters(h) + {p.Counter()} ensures c in Counters(Insert(h, p)) {
      if c == p.Counter() {
        assert p in Insert(h, p);
      } else {
        var x :| x in h && x.Counter() == c;
        assert x in Insert(h, p);
      }
    }
  }

  /** Inserting a new counter keeps the strict order. */
  lemma InsertSorted(h: seq<Packet>, p: Packet)
    requires Sorted(h)
    requires p.Counter() !in Counters(h)
    ensures Sorted(Insert(h, p))
  {
    var k, r := Rank(h, p.Counter()), Insert(h, p);
    BelowRank(h, p);
    hide Insert, Counters, Rank;
    forall i, j | 0 <= i < j < |r| ensures r[i].Counter() < r[j].Counter() {
      InsertAt(h, p, i);
      InsertAt(h, p, j);
    }
  }

  lemma BelowRank(h: seq<Packet>, p: Packet)
    requires p.Counter() !in Counters(h)
    ensures forall i :: 0 <= i < Rank(h, p.Counter()) ==> h[i].Counter() < p.Counter()
  {
    hide Rank;
    forall i | 0 <= i < Rank(h, p.Counter()) ensures h[i].Counter() < p.Counter() {
      assert h[i] in h;
    }
  }

  lemma InsertAt(h: seq<Packet>, p: Packet, i: nat)
    requires i <= |h|
    ensures var k := Rank(h, p.Counter());
      && |Insert(h, p)| == |h| + 1
      && Insert(h, p)[i] == if i < k then h[i] else if i == k then p else h[i - 1]
  {}

  ghost predicate Below(h: seq<Packet>, c: Counter) {
    forall i :: 0 <= i < |h| ==> h[i].Counter() < c
  }

  /** A packet that is larger than all goes to the end. */
  lemma InsertAtEnd(h: seq<Packet>, p: Packet)
    requires Below(h, p.Counter())
    ensures p.Counter() !in Counters(h)
    ensures Insert(h, p) == h + [p]
  {}

  // ----- push -----

  /** At or below the last popped counter: already consumed, or given up on. */
  predicate TooLate(q: Queue, p: Packet) {
    p.Counter() <= q.lastPopped
  }

  predicate Duplicate(q: Queue, p: Packet) {
    !TooLate(q, p) && p.Counter() in q.inQueue
  }

  predicate Accepts(q: Queue, p: Packet) {
    !TooLate(q, p) && !Duplicate(q, p)
  }

  function Pushed(q: Queue, p: Packet): (r: Queue) {
    if TooLate(q, p) then
      q.(stats := q.stats.(tooLate := q.stats.tooLate + 1))
    else if Duplicate(q, p) then
      q.(stats := q.stats.(duplicate := q.stats.duplicate + 1))
    else
      var late := p.Counter() < q.lastPushed;
      q.(heap := Insert(q.heap, p),
         inQueue := q.inQueue + {p.Counter()},
         lastPushed := p.Counter(),
         stats := q.stats.(
           pushed := q.stats.pushed + 1,
           outOfOrder := if late then q.stats.outOfOrder + 1 else q.stats.outOfOrder,
           maxWrongOrderSpan := if late then Max(q.stats.maxWrongOrderSpan, q.lastPushed - p.Counter())
                                else q.stats.maxWrongOrderSpan))
  }

  // ----- try_pop -----

  /** The head is delivered when it is the successor of the last counter, or the first ever. */
  predicate HeadIsNext(q: Queue)
    requires q.heap != []
  {
    Next(q.lastPopped) == q.heap[0].Counter() || q.lastData.None?
  }

  /** The counter that a fill-in takes: the one after the last, or the one before the head. */
  function Missing(q: Queue): Counter
    requires q.heap != []
  {
    if q.gap < 1 then Next(q.lastPopped) else Previous(q.heap[0].Counter())
  }

  /** What a pop gives to its caller. */
  datatype Emission = Emission(packet: Packet, fillIn: bool) {
    function Counter(): Counter {
      packet.Counter()
    }
  }

  datatype Popped = Popped(queue: Queue, packet: Packet, isFillIn: bool)

  function PopHead(q: Queue): Popped
    requires q.heap != []
  {
    var p := q.heap[0];
    Popped(q.(heap := q.heap[1..],
              inQueue := q.inQueue - {p.Counter()},
              lastPopped := p.Counter(),
              lastData := Some(p),
              gap := 0,
              stats := q.stats.(popped := q.stats.popped + 1)),
           p, false)
  }

  function Conceal(q: Queue): Popped
    requires q.heap != []
  {
    var p := q.heap[0];
    var fill := FillIn(p, Missing(q));
    var heals := q.gap < 1 && p.CanHeal(Missing(q));
    Popped(q.(heap := if q.gap < 1 then q.heap else [ClearedThroughFillIn(p, Missing(q))] + q.heap[1..],
              lastPopped := fill.Counter(),
              gap := q.gap + 1,
              stats := q.stats.(
                healed := if heals then q.stats.healed + 1 else q.stats.healed,
                dropped := if heals then q.stats.dropped else q.stats.dropped + 1,
                maxGap := Max(q.stats.maxGap, q.gap + 1))),
           if q.gap < 1 then fill else Cleared(fill), true)
  }

  function Pop(q: Queue): Popped
    requires q.heap != []
  {
    if HeadIsNext(q) then PopHead(q) else Conceal(q)
  }

  // ----- fastForwardToSize -----

  function FastForwarded(q: Queue, retained: nat): (r: Queue) {
    if |q.heap| <= retained then
      q
    else
      var n := |q.heap| - retained;
      var kept := q.heap[n..];
      q.(heap := kept,
         inQueue := q.inQueue - Counters(q.heap[..n]),
         lastData := None,
         gap := 0,
         lastPopped := if kept == [] then q.heap[n - 1].Counter()
                       else if kept[0].Counter() == 0 then 0
                       else kept[0].Counter() - 1,
         stats := q.stats.(dropped := q.stats.dropped + n, popped := q.stats.popped + n))
  }

  // ----- what every operation keeps -----

  ghost predicate Valid(q: Queue) {
    && Sorted(q.heap)
    && q.inQueue == Counters(q.heap)
    && (forall p :: p in q.heap ==> q.lastPopped < p.Counter())
    && q.gap <= 2
    && (q.gap > 0 ==> q.heap != [] && q.lastData.Some?)
    && (q.gap == 2 ==> q.heap[0].Counter() == q.lastPopped + 1)
  }

  lemma {:induction false} PushKeepsValid(q: Queue, p: Packet)
    requires Valid(q)
    ensures Valid(Pushed(q, p))
    ensures q.gap == 2 ==> Pushed(q, p).heap[0] == q.heap[0]
  {
    if Accepts(q, p) {
      InsertSorted(q.heap, p);
      InsertElements(q.heap, p);
      if q.gap == 2 {
        assert q.heap[0] in q.heap;
      }
    }
  }

  /**
   The counter arithmetic of try_pop never wraps around, a concealed counter lies
   strictly between the last counter and the head, and the head stays where it is.
   */
  lemma ConcealSteps(q: Queue)
    requires Valid(q)
    requires q.heap != [] && !HeadIsNext(q)
    ensures q.gap < 2
    ensures q.lastPopped + 1 < q.heap[0].Counter()
    ensures Missing(q) == if q.gap == 0 then q.lastPopped + 1 else q.heap[0].Counter() - 1
    ensures q.lastPopped < Conceal(q).packet.Counter() == Missing(q) < q.heap[0].Counter()
    ensures Conceal(q).queue.lastPopped == Missing(q)
    ensures |Conceal(q).queue.heap| == |q.heap|
    ensures forall i :: 0 <= i < |q.heap| ==> Conceal(q).queue.heap[i].Counter() == q.heap[i].Counter()
  {
    assert q.heap[0] in q.heap;
  }

  lemma SameCounters(h: seq<Packet>, k: seq<Packet>)
    requires |h| == |k|
    requires forall i :: 0 <= i < |h| ==> h[i].Counter() == k[i].Counter()
    ensures Counters(h) == Counters(k)
    ensures Sorted(h) ==> Sorted(k)
  {
    forall c | c in Counters(h) ensures c in Counters(k) {
      var i :| 0 <= i < |h| && h[i].Counter() == c;
      assert k[i] in k;
    }
    forall c | c in Counters(k) ensures c in Counters(h) {
      var i :| 0 <= i < |k| && k[i].Counter() == c;
      assert h[i] in h;
    }
  }

  lemma SplitCounters(h: seq<Packet>, n: nat)
    requires Sorted(h) && n <= |h|
    ensures Sorted(h[n..])
    ensures Counters(h) == Counters(h[..n]) + Counters(h[n..])
    ensures Counters(h[..n]) !! Counters(h[n..])
  {
    assert forall x :: x in h[..n] ==> exists i :: 0 <= i < n && h[i] == x;
    assert forall x :: x in h[n..] ==> exists i :: n <= i < |h| && h[i] == x;
    assert h == h[..n] + h[n..];
    assert forall x :: x in h <==> x in h[..n] || x in h[n..];
  }

  lemma PopKeepsValid(q: Queue)
    requires Valid(q)
    requires q.heap != []
    ensures Valid(Pop(q).queue)
    ensures q.lastPopped < Pop(q).packet.Counter() == Pop(q).queue.lastPopped
  {
    assert q.heap[0] in q.heap;
    if HeadIsNext(q) {
      SplitCounters(q.heap, 1);
      assert q.heap[..1] == [q.heap[0]];
      assert Counters(q.heap[..1]) == {q.heap[0].Counter()};
      assert forall x :: x in q.heap[1..] ==> exists i :: 1 <= i < |q.heap| && q.heap[i] == x;
    } else {
      ConcealSteps(q);
      var r := Conceal(q).queue;
      SameCounters(q.heap, r.heap);
      forall p | p in r.heap ensures r.lastPopped < p.Counter() {
        var i :| 0 <= i < |r.heap| && r.heap[i] == p;
        assert q.heap[0].Counter() <= q.heap[i].Counter();
      }
    }
  }

  lemma FastForwardKeepsValid(q: Queue, retained: nat)
    requires Valid(q)
    ensures Valid(FastForwarded(q, retained))
    ensures q.lastPopped <= FastForwarded(q, retained).lastPopped
  {
    if retained < |q.heap| {
      var n := |q.heap| - retained;
      SplitCounters(q.heap, n);
      assert q.heap[n - 1] in q.heap;
      if retained > 0 {
        AboveKept(q.heap, n);
      }
      hide Sorted, Counters;
    }
  }

  /** Whatever is kept is at or above its first counter. */
  lemma AboveKept(h: seq<Packet>, n: nat)
    requires Sorted(h) && n < |h|
    ensures h[n..][0] == h[n] && h[n] in h
    ensures forall p :: p in h[n..] ==> h[n].Counter() <= p.Counter()
  {
    forall p | p in h[n..] ensures h[n].Counter() <= p.Counter() {
      var i :| 0 <= i < |h| - n && h[n..][i] == p;
      assert p == h[n + i];
    }
  }

  lemma {:induction false} CountersSize(h: seq<Packet>)
    requires Sorted(h)
    ensures |Counters(h)| == |h|
  {
    if h != [] {
      SplitCounters(h, 1);
      assert h[..1] == [h[0]];
      assert Counters(h[..1]) == {h[0].Counter()};
      CountersSize(h[1..]);
    }
  }

  ghost predicate Within(cs: set<Counter>, low: Counter, high: Counter) {
    forall c :: c in cs ==> low < c <= high
  }

  lemma PrefixBounds(h: seq<Packet>, n: nat, low: Counter)
    requires Sorted(h) && 0 < n <= |h|
    requires forall p :: p in h ==> low < p.Counter()
    ensures Within(Counters(h[..n]), low, h[n - 1].Counter())
  {
    forall c | c in Counters(h[..n]) ensures low < c <= h[n - 1].Counter() {
      var p :| p in h[..n] && p.Counter() == c;
      var i :| 0 <= i < n && h[..n][i] == p;
      assert h[i] in h;
    }
  }

  /** A fast-forward discards the smallest counters, as many as it must. */
  lemma FastForwardSplits(q: Queue, retained: nat)
    requires Valid(q)
    requires retained < |q.heap|
    ensures var gone := Counters(q.heap[..|q.heap| - retained]);
      && gone <= Counters(q.heap)
      && Counters(FastForwarded(q, retained).heap) == Counters(q.heap) - gone
  {
    SplitCounters(q.heap, |q.heap| - retained);
    hide Valid, Sorted, Counters;
  }

  lemma FastForwardSize(q: Queue, retained: nat)
    requires Valid(q)
    requires retained < |q.heap|
    ensures |Counters(q.heap[..|q.heap| - retained])| == |q.heap| - retained
  {
    assert Sorted(q.heap[..|q.heap| - retained]);
    CountersSize(q.heap[..|q.heap| - retained]);
  }

  /** What a fast-forward discards lies between the last counters before and after it. */
  lemma FastForwardBounds(q: Queue, retained: nat)
    requires Valid(q)
    requires retained < |q.heap|
    ensures Within(Counters(q.heap[..|q.heap| - retained]), q.lastPopped, FastForwarded(q, retained).lastPopped)
  {
    var h, n := q.heap, |q.heap| - retained;
    PrefixBounds(h, n, q.lastPopped);
    assert retained > 0 ==> h[n - 1].Counter() < h[n].Counter();
    hide Valid, Sorted, Counters;
  }

  /**
   Exactly the packets above the oldest one kept are new after a fast-forward, unless they are queued;
   if none is kept, those above the newest one discarded.
   */
  lemma FastForwardAccepts(q: Queue, retained: nat, p: Packet)
    requires Valid(q) && retained < |q.heap|
    ensures var h, r := q.heap, FastForwarded(q, retained);
      var bound := if retained == 0 then h[|h| - 1].Counter() else h[|h| - retained].Counter();
      Accepts(r, p) <==> p.Counter() > bound && p.Counter() !in Counters(r.heap)
  {
    FastForwardKeepsValid(q, retained);
    hide Sorted, Counters;
    if retained > 0 {
      assert q.heap[|q.heap| - retained..][0] == q.heap[|q.heap| - retained];
      HeadIsElement(q.heap[|q.heap| - retained..]);
      HeadIsCounted(q.heap[|q.heap| - retained..]);
    }
  }

  lemma HeadIsCounted(h: seq<Packet>)
    requires h != []
    ensures h[0].Counter() in Counters(h)
  {}

  // ----- termination of the loops that drain a queue -----

  /** Fill-ins leave the size alone; this still falls with every successful pop. */
  function Potential(q: Queue): int {
    3 * |q.heap| - q.gap
  }

  lemma PopDecreasesPotential(q: Queue)
    requires Valid(q)
    requires q.heap != []
    ensures 0 <= Potential(Pop(q).queue) < Potential(q)
    ensures |Pop(q).queue.heap| == if Pop(q).isFillIn then |q.heap| else |q.heap| - 1
  {
    if !HeadIsNext(q) {
      ConcealSteps(q);
    }
  }

  // ----- arrival order -----

  /** A strictly sorted sequence is determined by its elements. */
  lemma {:induction false} SortedUnique(h: seq<Packet>, k: seq<Packet>)
    requires Sorted(h) && Sorted(k)
    requires forall x :: x in h <==> x in k
    ensures h == k
  {
    HeadIsElement(h);
    HeadIsElement(k);
    if h != [] {
      SmallestFirst(h, k[0]);
      SmallestFirst(k, h[0]);
      forall x ensures x in h[1..] <==> x in k[1..] {
        TailElements(h, x);
        TailElements(k, x);
      }
      SortedUnique(h[1..], k[1..]);
      assert h == [h[0]] + h[1..];
      assert k == [k[0]] + k[1..];
    }
  }

  lemma HeadIsElement(h: seq<Packet>)
    ensures h == [] || h[0] in h
  {}

  lemma SmallestFirst(h: seq<Packet>, x: Packet)
    requires Sorted(h) && x in h
    ensures x == h[0] || h[0].Counter() < x.Counter()
  {
    var i :| 0 <= i < |h| && h[i] == x;
  }

  lemma TailElements(h: seq<Packet>, x: Packet)
    requires Sorted(h) && h != []
    ensures x in h[1..] <==> x in h && x != h[0]
  {
    assert h == [h[0]] + h[1..];
    if x in h[1..] {
      var i :| 0 <= i < |h| - 1 && h[1..][i] == x;
      assert h[i + 1] == x;
    }
  }

  function PushedAll(q: Queue, ps: seq<Packet>): Queue {
    if ps == [] then q else Pushed(PushedAll(q, ps[..|ps| - 1]), ps[|ps| - 1])
  }

  lemma {:induction false} PushedAllValid(q: Queue, ps: seq<Packet>)
    requires Valid(q)
    ensures Valid(PushedAll(q, ps))
  {
    hide Valid;
    if ps != [] {
      PushedAllValid(q, ps[..|ps| - 1]);
      PushKeepsValid(PushedAll(q, ps[..|ps| - 1]), ps[|ps| - 1]);
    }
  }

  lemma EmptyQueueValid()
    ensures Valid(EMPTY_QUEUE)
  {}

  /** Every packet is new to the queue, and no two share a counter. */
  ghost predicate Fresh(q: Queue, ps: seq<Packet>) {
    && (forall i :: 0 <= i < |ps| ==> Accepts(q, ps[i]))
    && (forall i, j :: 0 <= i < j < |ps| ==> ps[i].Counter() != ps[j].Counter())
  }

  lemma {:induction false} PushedAllElements(q: Queue, ps: seq<Packet>)
    requires Valid(q) && Fresh(q, ps)
    ensures Valid(PushedAll(q, ps))
    ensures forall x :: x in PushedAll(q, ps).heap <==> x in q.heap || x in ps
    ensures PushedAll(q, ps).lastPopped == q.lastPopped
  {
    if ps != [] {
      var front, p := ps[..|ps| - 1], ps[|ps| - 1];
      assert ps == front + [p];
      assert Fresh(q, front) by {
        assert forall i :: 0 <= i < |front| ==> front[i] == ps[i];
      }
      PushedAllElements(q, front);
      var r := PushedAll(q, front);
      forall x | x in r.heap ensures x.Counter() != p.Counter() {
        if x in front {
          var i :| 0 <= i < |front| && front[i] == x;
          assert ps[i] == x;
        }
      }
      assert Accepts(r, p) by {
        assert Accepts(q, ps[|ps| - 1]);
      }
      PushKeepsValid(r, p);
      InsertElements(r.heap, p);
    }
  }

  /** The order of arrival does not matter: any two orders of the same packets leave the same queue. */
  lemma ArrivalOrderIsIrrelevant(q: Queue, ps: seq<Packet>, qs: seq<Packet>)
    requires Valid(q) && Fresh(q, ps) && Fresh(q, qs)
    requires forall x :: x in ps <==> x in qs
    ensures PushedAll(q, ps).heap == PushedAll(q, qs).heap
    ensures PushedAll(q, ps).inQueue == PushedAll(q, qs).inQueue
  {
    PushedAllElements(q, ps);
    PushedAllElements(q, qs);
    SortedUnique(PushedAll(q, ps).heap, PushedAll(q, qs).heap);
  }
}

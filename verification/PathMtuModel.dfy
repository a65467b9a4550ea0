/**
 The search for the largest payload that a network path carries
 (Client/Source/PathMtuDiscovery.h, Client/Source/PathMtuDiscovery.cpp): each operation on
 values, and what every run of operations keeps. The class is in `PathMtuDiscovery.dfy`.
 */
module PathMtuModel {
  import opened Packets

  const FALLBACK: int := 1200
  const MAXIMUM_PAYLOAD: int := 16384
  const ALIGNMENT: int := 8
  const MAXIMUM_ATTEMPTS: nat := 3
  /** Milliseconds. */
  const PROBE_TIMEOUT: int := 500

  const GROWTH_TARGETS: seq<int> := [1200, 1472, 2048, 4096, 8192, 16384]

  datatype Status = Unavailable | Searching | Complete | Failed

  datatype Probe = Probe(id: nat, payload: int)

  datatype Search = Search(
    status: Status,
    safe: int,
    candidate: int,
    upper: int,
    nextId: nat,
    active: Probe,
    attempts: nat,
    awaiting: bool,
    deadline: int,
    earliest: int)

  const NEW_SEARCH := Search(Unavailable, 0, FALLBACK, 0, 1, Probe(0, 0), 0, false, 0, 0)

  function Reported(s: Search): int {
    if s.safe > 0 then s.safe else FALLBACK
  }

  // ----- the operations -----

  function SupportSet(s: Search, supported: bool): Search {
    if !supported then s.(status := Unavailable, awaiting := false)
    else if s.status != Unavailable then s
    else s.(status := Searching, safe := 0, candidate := FALLBACK, upper := 0, attempts := 0, awaiting := false)
  }

  function MarkedFailed(s: Search): Search {
    s.(status := Failed, awaiting := false)
  }

  function FirstAbove(targets: seq<int>, size: int): Option<int> {
    if targets == [] then None
    else if targets[0] > size then Some(targets[0])
    else FirstAbove(targets[1..], size)
  }

  function GrowthSelected(s: Search): Search {
    match FirstAbove(GROWTH_TARGETS, s.safe)
    case Some(target) => s.(candidate := target)
    case None => s.(status := Complete)
  }

  function BinarySelected(s: Search): Search {
    if s.upper < s.safe + ALIGNMENT then
      s.(status := Complete)
    else
      var middle := s.safe + (s.upper - s.safe) / 2 / ALIGNMENT * ALIGNMENT;
      s.(candidate := if middle <= s.safe then s.safe + ALIGNMENT else middle)
  }

  function SuccessRecorded(s: Search): Search {
    var t := s.(safe := s.candidate);
    if s.upper > 0 then BinarySelected(t) else GrowthSelected(t)
  }

  function FailureRecorded(s: Search): Search {
    if s.safe == 0 then s.(status := Failed)
    else BinarySelected(s.(upper := s.candidate - ALIGNMENT))
  }

  /** The active probe has timed out for the last time. */
  predicate GivesUp(s: Search, now: int) {
    s.status == Searching && s.awaiting && now >= s.deadline && s.attempts >= MAXIMUM_ATTEMPTS
  }

  function TimedOut(s: Search, now: int): Search {
    if GivesUp(s, now) then FailureRecorded(s.(awaiting := false)) else s
  }

  /** Whether the poll transmits a probe. */
  predicate Transmits(s: Search, now: int) {
    var t := TimedOut(s, now);
    && s.status == Searching && !(s.awaiting && now < s.deadline)
    && t.status == Searching && !(!t.awaiting && now < t.earliest)
  }

  function Issued(s: Search): Search {
    if s.awaiting then s
    else s.(active := Probe(s.nextId, s.candidate), nextId := s.nextId + 1, attempts := 0, awaiting := true)
  }

  function Polled(s: Search, now: int): Search {
    if !Transmits(s, now) then TimedOut(s, now)
    else
      var u := Issued(TimedOut(s, now));
      u.(attempts := u.attempts + 1, deadline := now + PROBE_TIMEOUT)
  }

  predicate Confirms(s: Search, probe: Probe) {
    s.status == Searching && s.awaiting && s.active == probe
  }

  function Acknowledged(s: Search, probe: Probe, now: int): Search {
    if !Confirms(s, probe) then s
    else SuccessRecorded(s.(awaiting := false, attempts := 0, earliest := now + PROBE_TIMEOUT))
  }

  // ----- what every operation keeps -----

  /** Probes that may still be issued in the worst case with `n` sizes left to decide. */
  function Worst(n: nat): (w: nat)
    ensures n > 0 ==> w > 0
  {
    if n == 0 then 0
    else
      var h := Half(n);
      1 + Max(Worst(n - h), Worst(h - 1))
  }

  function Half(n: nat): (h: nat)
    requires n > 0
    ensures 1 <= h <= n && n - h <= (n + 1) / 2 && h - 1 <= (n + 1) / 2
  {
    if n < 4 then 1 else n / 2
  }

  function Power(k: nat): (p: nat)
    ensures p > 0
  {
    if k == 0 then 1 else 2 * Power(k - 1)
  }

  ghost predicate Growing(s: Search) {
    && s.upper == 0
    && (|| (s.safe == 0 && s.candidate == 1200)
        || (s.safe == 1200 && s.candidate == 1472)
        || (s.safe == 1472 && s.candidate == 2048)
        || (s.safe == 2048 && s.candidate == 4096)
        || (s.safe == 4096 && s.candidate == 8192)
        || (s.safe == 8192 && s.candidate == 16384))
  }

  /** `n` aligned sizes above the safe one are undecided; the candidate is in the middle of them. */
  ghost predicate Halves(s: Search, n: nat) {
    && n > 0
    && FALLBACK <= s.safe && s.safe % ALIGNMENT == 0
    && s.candidate == s.safe + ALIGNMENT * Half(n)
    && s.upper == s.safe + ALIGNMENT * n < MAXIMUM_PAYLOAD
  }

  function Undecided(s: Search): int {
    (s.upper - s.safe) / ALIGNMENT
  }

  ghost predicate Halving(s: Search) {
    s.safe < s.upper && Halves(s, Undecided(s))
  }

  ghost predicate Finished(s: Search) {
    && Aligned(s.safe)
    && (s.upper == s.safe < MAXIMUM_PAYLOAD || (s.upper == 0 && s.safe == MAXIMUM_PAYLOAD))
  }

  ghost predicate Aligned(size: int) {
    FALLBACK <= size <= MAXIMUM_PAYLOAD && size % ALIGNMENT == 0
  }

  ghost predicate Consistent(s: Search) {
    && (s.safe == 0 || Aligned(s.safe))
    && (s.status == Searching ==> Growing(s) || Halving(s))
    && (s.status == Complete ==> Finished(s))
    && (s.awaiting ==> s.status == Searching && s.active.id + 1 == s.nextId && s.active.payload == s.candidate)
    && (s.awaiting ==> 1 <= s.attempts <= MAXIMUM_ATTEMPTS)
  }

  lemma GrowthSteps(s: Search)
    ensures s.safe == 1200 ==> GrowthSelected(s) == s.(candidate := 1472)
    ensures s.safe == 1472 ==> GrowthSelected(s) == s.(candidate := 2048)
    ensures s.safe == 2048 ==> GrowthSelected(s) == s.(candidate := 4096)
    ensures s.safe == 4096 ==> GrowthSelected(s) == s.(candidate := 8192)
    ensures s.safe == 8192 ==> GrowthSelected(s) == s.(candidate := 16384)
    ensures s.safe == 16384 ==> GrowthSelected(s) == s.(status := Complete)
  {
    var ts := GROWTH_TARGETS;
    assert FirstAbove(ts, s.safe) == if ts[0] > s.safe then Some(ts[0]) else FirstAbove(ts[1..], s.safe);
    assert FirstAbove(ts[1..], s.safe) == if ts[1] > s.safe then Some(ts[1]) else FirstAbove(ts[2..], s.safe);
    assert FirstAbove(ts[2..], s.safe) == if ts[2] > s.safe then Some(ts[2]) else FirstAbove(ts[3..], s.safe);
    assert FirstAbove(ts[3..], s.safe) == if ts[3] > s.safe then Some(ts[3]) else FirstAbove(ts[4..], s.safe);
    assert FirstAbove(ts[4..], s.safe) == if ts[4] > s.safe then Some(ts[4]) else FirstAbove(ts[5..], s.safe);
    assert FirstAbove(ts[5..], s.safe) == if ts[5] > s.safe then Some(ts[5]) else FirstAbove(ts[6..], s.safe);
  }

  lemma HalvesIsHalving(s: Search, n: nat)
    requires Halves(s, n)
    ensures Halving(s) && Undecided(s) == n
  {}

  /** Once `n` sizes are undecided: complete if there are none, and the middle one is next otherwise. */
  lemma BinarySteps(s: Search, n: nat)
    requires s.status == Searching
    requires FALLBACK <= s.safe && s.safe % ALIGNMENT == 0
    requires s.upper == s.safe + ALIGNMENT * n < MAXIMUM_PAYLOAD
    ensures n == 0 ==> BinarySelected(s) == s.(status := Complete)
    ensures n > 0 ==> BinarySelected(s) == s.(candidate := s.safe + ALIGNMENT * Half(n))
    ensures n > 0 ==> Halves(BinarySelected(s), n)
  {}

  lemma NothingLeft()
    ensures Worst(0) == 0
  {}

  lemma BinaryKeeps(s: Search, n: nat)
    requires s.status == Searching && !s.awaiting
    requires FALLBACK <= s.safe && s.safe % ALIGNMENT == 0
    requires s.upper == s.safe + ALIGNMENT * n < MAXIMUM_PAYLOAD
    ensures Consistent(BinarySelected(s))
    ensures Remaining(BinarySelected(s)) == Worst(n)
  {
    NothingLeft();
    hide Worst, Half, Halves, BinarySelected;
    BinarySteps(s, n);
    if n > 0 {
      HalvesIsHalving(BinarySelected(s), n);
    }
  }

  lemma {:induction false} WorstIsLogarithmic(n: nat, k: nat)
    requires n <= Power(k)
    ensures Worst(n) <= k + 1
  {
    if n > 1 {
      WorstIsLogarithmic(n - Half(n), k - 1);
      WorstIsLogarithmic(Half(n) - 1, k - 1);
    }
  }

  /** Probes that may still be issued, counting the candidate. */
  function Budget(s: Search): nat
    requires s.status == Searching && (Growing(s) || Halving(s))
  {
    if s.upper > 0 then Worst((s.upper - s.safe) / ALIGNMENT)
    else if s.candidate == 1200 then 17
    else if s.candidate == 1472 then 16
    else if s.candidate == 2048 then 15
    else if s.candidate == 4096 then 14
    else if s.candidate == 8192 then 13
    else 12
  }

  /** What is left of the budget for further probes; none once the search is over. */
  function Remaining(s: Search): nat
    requires s.status == Searching ==> Growing(s) || Halving(s)
  {
    if s.status == Searching then Budget(s) else 0
  }

  lemma SuccessKeeps(s: Search)
    requires s.status == Searching && !s.awaiting && (Growing(s) || Halving(s))
    ensures Consistent(SuccessRecorded(s))
    ensures Remaining(SuccessRecorded(s)) < Budget(s)
  {
    var t := s.(safe := s.candidate);
    if s.upper > 0 {
      var n := Undecided(s);
      BinaryKeeps(t, n - Half(n));
    } else {
      GrowthSteps(t);
    }
  }

  lemma FailureKeeps(s: Search)
    requires s.status == Searching && !s.awaiting && (Growing(s) || Halving(s))
    ensures Consistent(FailureRecorded(s))
    ensures Remaining(FailureRecorded(s)) < Budget(s)
  {
    var t := s.(upper := s.candidate - ALIGNMENT);
    if s.upper > 0 {
      BinaryKeeps(t, Half(Undecided(s)) - 1);
    } else if s.safe > 0 {
      var n := (t.upper - t.safe) / ALIGNMENT;
      BinaryKeeps(t, n);
      GrowthGap(s, n);
    }
  }

  /** After the first failure of the growth phase, few enough sizes are undecided. */
  lemma GrowthGap(s: Search, n: nat)
    requires s.status == Searching && Growing(s) && s.safe > 0
    requires s.candidate - ALIGNMENT == s.safe + ALIGNMENT * n
    ensures Worst(n) < Budget(s)
  {
    assert Power(10) == 1024;
    WorstIsLogarithmic(n, 10);
  }

  /** Probes that may still get a new identifier. */
  function Left(s: Search): nat
    requires Consistent(s)
  {
    if s.status != Searching then 0 else if s.awaiting && Budget(s) > 0 then Budget(s) - 1 else Budget(s)
  }

  lemma BudgetIsPositive(s: Search)
    requires s.status == Searching && (Growing(s) || Halving(s))
    ensures Budget(s) > 0
  {}

  lemma TimeOutKeeps(s: Search, now: int)
    requires Consistent(s)
    ensures Consistent(TimedOut(s, now))
    ensures Left(TimedOut(s, now)) <= Left(s)
    ensures GivesUp(s, now) ==> !TimedOut(s, now).awaiting
  {
    hide Growing, Halving, Finished, FailureRecorded, Budget;
    if GivesUp(s, now) {
      SameSizes(s, s.(awaiting := false));
      BudgetIsPositive(s);
      FailureKeeps(s.(awaiting := false));
      FailureStaysIdle(s.(awaiting := false));
    }
  }

  /** Only the sizes matter to the budget. */
  lemma SameSizes(s: Search, t: Search)
    requires s.status == t.status && s.safe == t.safe && s.candidate == t.candidate && s.upper == t.upper
    ensures Growing(s) == Growing(t) && Halving(s) == Halving(t) && Finished(s) == Finished(t)
    ensures s.status == Searching && (Growing(s) || Halving(s)) ==> Budget(s) == Budget(t)
  {}

  lemma FailureStaysIdle(s: Search)
    requires !s.awaiting
    ensures !FailureRecorded(s).awaiting
    ensures FailureRecorded(s).nextId == s.nextId && FailureRecorded(s).safe == s.safe
    ensures FailureRecorded(s).earliest == s.earliest
    ensures s.status == Searching ==> FailureRecorded(s).status != Unavailable
  {}

  lemma PollKeeps(s: Search, now: int)
    requires Consistent(s)
    ensures Consistent(Polled(s, now))
    ensures Polled(s, now).nextId + Left(Polled(s, now)) <= s.nextId + Left(s)
    ensures Polled(s, now).safe == s.safe
  {
    hide Growing, Halving, Finished, FailureRecorded, Budget;
    TimeOutKeeps(s, now);
    FailureStaysIdle(s.(awaiting := false));
    var t := TimedOut(s, now);
    SameSizes(t, Polled(s, now));
    if t.status == Searching {
      BudgetIsPositive(t);
    }
  }

  lemma AcknowledgeKeeps(s: Search, probe: Probe, now: int)
    requires Consistent(s)
    ensures Consistent(Acknowledged(s, probe, now))
    ensures Left(Acknowledged(s, probe, now)) <= Left(s)
  {
    hide Growing, Halving, Finished, SuccessRecorded, Budget;
    if Confirms(s, probe) {
      var t := s.(awaiting := false, attempts := 0, earliest := now + PROBE_TIMEOUT);
      SameSizes(s, t);
      BudgetIsPositive(s);
      SuccessKeeps(t);
      SuccessStaysIdle(t);
    }
  }

  lemma SuccessStaysIdle(s: Search)
    requires !s.awaiting
    ensures !SuccessRecorded(s).awaiting
    ensures SuccessRecorded(s).nextId == s.nextId && SuccessRecorded(s).safe == s.candidate
    ensures SuccessRecorded(s).earliest == s.earliest
    ensures s.status == Searching ==> SuccessRecorded(s).status != Unavailable
  {}

  // ----- runs -----

  /** What may happen while support is not withdrawn. Acknowledgements and times are arbitrary. */
  datatype Action =
    | Poll(now: int)
    | Acknowledge(probe: Probe, now: int)
    | SupportAgain
    | MarkFailed

  /**
   `sent` lists every transmission and `confirmed` every accepted acknowledgement, with their times.
   `pause` is the end of a pause that is left from before, and `latePolls` counts the late polls.
   */
  datatype Trace = Trace(
    search: Search,
    sent: seq<Probe>,
    sentAt: seq<int>,
    confirmed: seq<Probe>,
    confirmedAt: seq<int>,
    pause: int,
    latePolls: nat)

  function Last(times: seq<int>): int
    requires times != []
  {
    times[|times| - 1]
  }

  /** Half a second or more after the last transmission, and after the last accepted acknowledgement. */
  predicate Late(t: Trace, now: int) {
    && (t.sentAt != [] ==> now >= Last(t.sentAt) + 500)
    && now >= if t.confirmedAt == [] then t.pause else Last(t.confirmedAt) + 500
  }

  function Step(t: Trace, a: Action): Trace {
    var s := t.search;
    match a
    case Poll(now) =>
      t.(search := Polled(s, now),
         sent := if Transmits(s, now) then t.sent + [Polled(s, now).active] else t.sent,
         sentAt := if Transmits(s, now) then t.sentAt + [now] else t.sentAt,
         latePolls := if Late(t, now) then t.latePolls + 1 else t.latePolls)
    case Acknowledge(probe, now) =>
      t.(search := Acknowledged(s, probe, now),
         confirmed := if Confirms(s, probe) then t.confirmed + [probe] else t.confirmed,
         confirmedAt := if Confirms(s, probe) then t.confirmedAt + [now] else t.confirmedAt)
    case SupportAgain => t.(search := SupportSet(s, true))
    case MarkFailed => t.(search := MarkedFailed(s))
  }

  /** `before` is the state in which support is announced. */
  function Run(before: Search, actions: seq<Action>): Trace {
    if actions == [] then Trace(SupportSet(before, true), [], [], [], [], before.earliest, 0)
    else Step(Run(before, actions[..|actions| - 1]), actions[|actions| - 1])
  }

  /** Identifiers are fresh, and no probe is transmitted more than three times. */
  ghost predicate Numbered(t: Trace, first: nat) {
    && first <= t.search.nextId
    && (forall p :: p in t.sent ==> first <= p.id < t.search.nextId)
    && (forall p, q :: p in t.sent && q in t.sent && p.id == q.id ==> p == q)
    && (forall p :: multiset(t.sent)[p] <= MAXIMUM_ATTEMPTS)
    && (t.search.awaiting ==>
          && t.sent != [] && t.sent[|t.sent| - 1] == t.search.active
          && multiset(t.sent)[t.search.active] == t.search.attempts)
  }

  /** The deadline is half a second after the last transmission, and no probe is new before the pause ends. */
  ghost predicate Timed(t: Trace) {
    && |t.sentAt| == |t.sent| && |t.confirmedAt| == |t.confirmed|
    && (t.search.awaiting ==> t.sentAt != [] && t.search.deadline == Last(t.sentAt) + 500)
    && t.search.earliest == if t.confirmedAt == [] then t.pause else Last(t.confirmedAt) + 500
  }

  ghost predicate Economical(t: Trace, first: nat)
    requires Consistent(t.search)
  {
    && first <= t.search.nextId
    && t.search.nextId - first + Left(t.search) <= 17
    && |t.sent| <= 3 * (t.search.nextId - first) - (if t.search.awaiting then 3 - t.search.attempts else 0)
    && (t.search.status == Searching ==> t.latePolls <= |t.sent|)
  }

  /** The safe size is the payload of the last accepted probe, and each probe is accepted at most once. */
  ghost predicate Credited(t: Trace) {
    && (forall p :: p in t.confirmed ==> p in t.sent)
    && (forall i, j :: 0 <= i < j < |t.confirmed| ==> t.confirmed[i].id < t.confirmed[j].id)
    && (t.search.awaiting ==> forall p :: p in t.confirmed ==> p.id < t.search.active.id)
    && t.search.safe == if t.confirmed == [] then 0 else t.confirmed[|t.confirmed| - 1].payload
  }

  ghost predicate Inv(t: Trace, first: nat) {
    && Consistent(t.search)
    && t.search.status != Unavailable
    && Numbered(t, first)
    && Timed(t)
    && Economical(t, first)
    && Credited(t)
  }

  lemma PollKeepsNumbered(t: Trace, first: nat, now: int)
    requires Consistent(t.search) && Numbered(t, first)
    ensures Numbered(Step(t, Poll(now)), first)
  {
    hide Growing, Halving, Finished, FailureRecorded;
    TimeOutKeeps(t.search, now);
    FailureStaysIdle(t.search.(awaiting := false));
    var r := Step(t, Poll(now));
    if Transmits(t.search, now) {
      var p := r.search.active;
      assert multiset(r.sent) == multiset(t.sent) + multiset{p};
      if t.search.awaiting && p == t.search.active {
      } else {
        assert p !in t.sent;
      }
    }
  }

  lemma PollKeepsTimed(t: Trace, now: int)
    requires Timed(t)
    ensures Timed(Step(t, Poll(now)))
  {
    hide FailureRecorded;
    FailureStaysIdle(t.search.(awaiting := false));
  }

  lemma PollKeepsEconomical(t: Trace, first: nat, now: int)
    requires Consistent(t.search) && Economical(t, first) && Timed(t)
    ensures Consistent(Polled(t.search, now)) && Economical(Step(t, Poll(now)), first)
  {
    hide Growing, Halving, Finished, FailureRecorded, Left;
    TimeOutKeeps(t.search, now);
    FailureStaysIdle(t.search.(awaiting := false));
    PollKeeps(t.search, now);
  }

  lemma PollKeepsCredited(t: Trace, first: nat, now: int)
    requires Consistent(t.search) && Numbered(t, first) && Credited(t)
    ensures Credited(Step(t, Poll(now)))
  {
    hide Growing, Halving, Finished, FailureRecorded;
    TimeOutKeeps(t.search, now);
    FailureStaysIdle(t.search.(awaiting := false));
  }

  lemma PollStaysSupported(s: Search, now: int)
    requires Consistent(s) && s.status != Unavailable
    ensures Polled(s, now).status != Unavailable
  {
    hide Growing, Halving, Finished, FailureRecorded;
    FailureStaysIdle(s.(awaiting := false));
  }

  lemma AcknowledgeKeepsInv(t: Trace, first: nat, probe: Probe, now: int)
    requires Inv(t, first)
    ensures Inv(Step(t, Acknowledge(probe, now)), first)
  {
    hide Growing, Halving, Finished, SuccessRecorded, Left;
    AcknowledgeKeeps(t.search, probe, now);
    SuccessStaysIdle(t.search.(awaiting := false, attempts := 0, earliest := now + PROBE_TIMEOUT));
  }

  lemma OthersKeepInv(t: Trace, first: nat, a: Action)
    requires (a.SupportAgain? || a.MarkFailed?) && Inv(t, first)
    ensures Inv(Step(t, a), first)
  {
    hide Growing, Halving, Finished;
  }

  lemma StartKeepsInv(before: Search)
    requires before.status == Unavailable
    ensures Inv(Run(before, []), before.nextId)
  {}

  lemma {:induction false} RunsKeepInv(before: Search, actions: seq<Action>)
    requires before.status == Unavailable
    ensures Inv(Run(before, actions), before.nextId)
  {
    if actions == [] {
      StartKeepsInv(before);
    } else {
      hide Numbered, Timed, Economical, Credited, Consistent, Polled;
      var first := before.nextId;
      RunsKeepInv(before, actions[..|actions| - 1]);
      var t := Run(before, actions[..|actions| - 1]);
      match actions[|actions| - 1]
      case Poll(now) =>
        PollKeeps(t.search, now);
        PollKeepsNumbered(t, first, now);
        PollKeepsTimed(t, now);
        PollKeepsEconomical(t, first, now);
        PollKeepsCredited(t, first, now);
        PollStaysSupported(t.search, now);
      case Acknowledge(probe, now) => AcknowledgeKeepsInv(t, first, probe, now);
      case other => OthersKeepInv(t, first, other);
    }
  }

  // ----- results, with arbitrary losses, acknowledgements and times -----

  /** While searching by halves, the sizes are ordered and aligned. */
  ghost predicate Bracketed(s: Search) {
    && FALLBACK <= s.safe < s.candidate <= s.upper < MAXIMUM_PAYLOAD
    && Aligned(s.safe) && Aligned(s.candidate) && Aligned(s.upper)
  }

  lemma HalvesIsBracketed(s: Search, n: nat)
    requires Halves(s, n)
    ensures Bracketed(s)
  {
    hide Half;
    var h := Half(n);
    assert 1 <= h <= n;
  }

  lemma {:induction false} SearchStaysBracketed(before: Search, actions: seq<Action>)
    requires before.status == Unavailable
    ensures var s := Run(before, actions).search;
      (s.status == Searching && s.upper > 0 ==> Bracketed(s)) && Aligned(Reported(s))
  {
    RunsKeepInv(before, actions);
    hide Run, Numbered, Economical, Credited, Bracketed, Halves;
    var s := Run(before, actions).search;
    if s.status == Searching && s.upper > 0 {
      HalvesIsBracketed(s, Undecided(s));
    }
  }

  /** A safe size other than zero was transmitted in a probe and acknowledged while that probe was live. */
  lemma {:induction false} SafeSizeWasAcknowledged(before: Search, actions: seq<Action>)
    requires before.status == Unavailable
    ensures var t := Run(before, actions);
      && (t.search.safe > 0 ==>
            t.confirmed != [] && t.confirmed[|t.confirmed| - 1].payload == t.search.safe)
      && (forall p :: p in t.confirmed ==> p in t.sent)
      && (forall i, j :: 0 <= i < j < |t.confirmed| ==> t.confirmed[i].id < t.confirmed[j].id)
  {
    RunsKeepInv(before, actions);
    hide Run;
  }

  /** An acknowledgement has an effect exactly when it is for the last transmission and that one is still awaited. */
  lemma {:induction false} OnlyLiveProbesCount(before: Search, actions: seq<Action>, probe: Probe, now: int)
    requires before.status == Unavailable
    ensures var t := Run(before, actions);
      && (Step(t, Acknowledge(probe, now)) != t
          <==> t.search.awaiting && t.sent != [] && t.sent[|t.sent| - 1] == probe)
  {
    hide Run, Consistent, Economical, Credited, Step;
    RunsKeepInv(before, actions);
    var t := Run(before, actions);
    ConfirmedProbeCounts(t, probe, now);
    AwaitedProbeIsLast(t, before.nextId, probe);
  }

  lemma ConfirmedProbeCounts(t: Trace, probe: Probe, now: int)
    ensures Step(t, Acknowledge(probe, now)) != t <==> Confirms(t.search, probe)
  {
    hide SuccessRecorded;
    if Confirms(t.search, probe) {
      assert |Step(t, Acknowledge(probe, now)).confirmed| == |t.confirmed| + 1;
    }
  }

  lemma AwaitedProbeIsLast(t: Trace, first: nat, probe: Probe)
    requires Consistent(t.search) && Numbered(t, first)
    ensures Confirms(t.search, probe) <==> t.search.awaiting && t.sent != [] && t.sent[|t.sent| - 1] == probe
  {
    hide Growing, Halving, Finished;
  }

  /** At most 17 probes, and each of them is transmitted at most three times with one size. */
  lemma {:induction false} FewProbes(before: Search, actions: seq<Action>)
    requires before.status == Unavailable
    ensures var t := Run(before, actions);
      && (forall p :: p in t.sent ==> before.nextId <= p.id < before.nextId + 17)
      && (forall p, q :: p in t.sent && q in t.sent && p.id == q.id ==> p == q)
      && (forall p :: multiset(t.sent)[p] <= MAXIMUM_ATTEMPTS)
      && |t.sent| <= 51
  {
    RunsKeepInv(before, actions);
    hide Run, Left, Consistent;
  }

  // ----- the pace of the probes -----

  /** Transmission `i` was followed by another of the same probe, or by one of a new probe. */
  ghost predicate Repeated(t: Trace, i: nat)
    requires i + 1 < |t.sent|
  {
    t.sent[i] == t.sent[i + 1]
  }

  /**
   How transmission `i` and the next one follow each other: half a second apart if the first was not
   acknowledged, which a new probe follows only after three transmissions; and if it was, a new probe
   follows half a second after that.
   */
  ghost predicate PacedAt(t: Trace, i: nat)
    requires i + 1 < |t.sent| == |t.sentAt| && |t.confirmed| == |t.confirmedAt|
  {
    && (Repeated(t, i) || t.sent[i] !in t.confirmed ==> t.sentAt[i] + 500 <= t.sentAt[i + 1])
    && (!Repeated(t, i) && t.sent[i] !in t.confirmed ==> i >= 2 && t.sent[i - 2] == t.sent[i - 1] == t.sent[i])
    && (!Repeated(t, i) ==> forall k :: 0 <= k < |t.confirmed| && t.confirmed[k] == t.sent[i] ==>
                              t.confirmedAt[k] + 500 <= t.sentAt[i + 1])
  }

  ghost predicate Paced(t: Trace) {
    && |t.sent| == |t.sentAt| && |t.confirmed| == |t.confirmedAt|
    && forall i :: 0 <= i < |t.sent| - 1 ==> PacedAt(t, i)
  }

  ghost predicate InOrder(t: Trace) {
    forall i, j :: 0 <= i <= j < |t.sent| ==> t.sent[i].id <= t.sent[j].id
  }

  /** Where the search stands with the probe that it transmitted last. */
  ghost predicate LastProbe(t: Trace)
    requires |t.sent| == |t.sentAt|
  {
    var n := |t.sent|;
    && InOrder(t)
    && (n > 0 ==> t.sent[n - 1].id + 1 == t.search.nextId)
    && (t.search.awaiting ==>
          t.search.attempts <= n
          && forall j :: n - t.search.attempts <= j < n ==> t.sent[j] == t.search.active)
    && (n > 0 && !t.search.awaiting && t.search.status == Searching && t.sent[n - 1] !in t.confirmed ==>
          && n >= 3 && t.sent[n - 3] == t.sent[n - 2] == t.sent[n - 1]
          && t.sentAt[n - 1] + 500 <= t.search.earliest)
  }

  /** `u` has one more transmission than `t`. */
  ghost predicate Grows(t: Trace, u: Trace, p: Probe, now: int) {
    && u.sent == t.sent + [p] && u.sentAt == t.sentAt + [now]
    && u.confirmed == t.confirmed && u.confirmedAt == t.confirmedAt
  }

  lemma PacedGrows(t: Trace, u: Trace, p: Probe, now: int)
    requires Paced(t) && Grows(t, u, p, now)
    requires |t.sent| > 0 ==> PacedAt(u, |t.sent| - 1)
    ensures Paced(u)
  {
    forall i | 0 <= i < |u.sent| - 1 ensures PacedAt(u, i) {
      if i < |t.sent| - 1 {
        assert PacedAt(t, i);
      }
    }
  }

  /** The acknowledgement of the last probe, if there is one, is the last acknowledgement. */
  lemma LastConfirmed(t: Trace, first: nat)
    requires Credited(t) && Numbered(t, first) && Timed(t) && LastProbe(t)
    ensures forall k :: 0 <= k < |t.confirmed| && t.sent != [] && t.confirmed[k] == t.sent[|t.sent| - 1] ==>
              t.confirmedAt[k] + 500 == t.search.earliest
  {
    forall k | 0 <= k < |t.confirmed| && t.sent != [] && t.confirmed[k] == t.sent[|t.sent| - 1]
      ensures k == |t.confirmed| - 1
    {
      assert t.confirmed[|t.confirmed| - 1] in t.sent;
    }
  }

  predicate Retransmits(s: Search, now: int) {
    s.awaiting && !GivesUp(s, now)
  }

  /** What a poll does to the trace. */
  lemma PollEffect(t: Trace, now: int)
    ensures var s, u := t.search, Step(t, Poll(now));
      var r := u.search;
      if !Transmits(s, now) then
        && u.sent == t.sent && u.sentAt == t.sentAt && u.confirmed == t.confirmed && u.confirmedAt == t.confirmedAt
        && r.nextId == s.nextId && r.earliest == s.earliest
        && if GivesUp(s, now) then !r.awaiting && (r.status == Searching ==> now < s.earliest) else r == s
      else if Retransmits(s, now) then
        && Grows(t, u, s.active, now) && now >= s.deadline
        && r == s.(attempts := s.attempts + 1, deadline := r.deadline)
      else
        && Grows(t, u, r.active, now) && now >= s.earliest && s.status == Searching
        && r.active.id == s.nextId && r.nextId == s.nextId + 1
        && r.awaiting && r.attempts == 1 && r.earliest == s.earliest
  {
    hide FailureRecorded;
    FailureStaysIdle(t.search.(awaiting := false));
  }

  /** The facts about a search that its pace depends on. */
  ghost predicate Steady(t: Trace, first: nat) {
    && Consistent(t.search) && Numbered(t, first) && Timed(t) && Credited(t) && Paced(t) && LastProbe(t)
  }

  lemma RetransmissionKeepsPace(t: Trace, u: Trace, first: nat, now: int)
    requires Steady(t, first) && t.search.awaiting && now >= t.search.deadline
    requires Grows(t, u, t.search.active, now)
    requires u.search == t.search.(attempts := t.search.attempts + 1, deadline := u.search.deadline)
    ensures Paced(u) && LastProbe(u)
  {
    hide Growing, Halving, Finished, Paced;
    assert t.sent[|t.sent| - 1] == t.search.active;
    PacedGrows(t, u, t.search.active, now);
  }

  /** The last probe was confirmed, or it is given up. */
  ghost predicate IsSettled(t: Trace, now: int)
    requires |t.sent| == |t.sentAt| > 0
  {
    var n := |t.sent|;
    t.sent[n - 1] !in t.confirmed ==>
      t.sentAt[n - 1] + 500 <= now && n >= 3 && t.sent[n - 3] == t.sent[n - 2] == t.sent[n - 1]
  }

  lemma SettledBefore(t: Trace, first: nat, now: int)
    requires Steady(t, first) && t.sent != [] && t.search.status == Searching
    requires t.search.awaiting ==> GivesUp(t.search, now)
    requires t.search.awaiting || now >= t.search.earliest
    ensures IsSettled(t, now)
  {
    hide Growing, Halving, Finished, Paced;
  }

  lemma NewProbeKeepsPace(t: Trace, u: Trace, first: nat, now: int)
    requires Steady(t, first) && t.search.status == Searching && now >= t.search.earliest
    requires t.sent != [] ==> IsSettled(t, now)
    requires Grows(t, u, u.search.active, now)
    requires u.search.active.id == t.search.nextId && u.search.nextId == t.search.nextId + 1
    requires u.search.awaiting && u.search.attempts == 1
    ensures Paced(u) && LastProbe(u)
  {
    hide Paced, Consistent, Numbered, Credited, LastProbe, IsSettled;
    NewProbeIsLast(t, u, first, now);
    if t.sent != [] {
      LastConfirmed(t, first);
      NewProbePaced(t, u, now);
    }
    PacedGrows(t, u, u.search.active, now);
  }

  lemma NewProbeIsLast(t: Trace, u: Trace, first: nat, now: int)
    requires Numbered(t, first) && |t.sent| == |t.sentAt| && LastProbe(t)
    requires Grows(t, u, u.search.active, now)
    requires u.search.active.id == t.search.nextId && u.search.nextId == t.search.nextId + 1
    requires u.search.awaiting && u.search.attempts == 1
    ensures LastProbe(u)
    ensures t.sent != [] ==> u.search.active != t.sent[|t.sent| - 1]
  {}

  /** The first transmission of a probe, after what came of the one before. */
  lemma NewProbePaced(t: Trace, u: Trace, now: int)
    requires |t.sent| == |t.sentAt| > 0 && |t.confirmed| == |t.confirmedAt|
    requires Grows(t, u, u.search.active, now) && u.search.active != t.sent[|t.sent| - 1]
    requires IsSettled(t, now)
    requires forall k :: 0 <= k < |t.confirmed| && t.confirmed[k] == t.sent[|t.sent| - 1] ==>
               t.confirmedAt[k] + 500 <= now
    ensures PacedAt(u, |t.sent| - 1)
  {}

  lemma GivingUpKeepsPace(t: Trace, u: Trace, first: nat, now: int)
    requires Steady(t, first) && GivesUp(t.search, now)
    requires u.sent == t.sent && u.sentAt == t.sentAt && u.confirmed == t.confirmed && u.confirmedAt == t.confirmedAt
    requires u.search.nextId == t.search.nextId && u.search.earliest == t.search.earliest && !u.search.awaiting
    requires u.search.status == Searching ==> now < t.search.earliest
    ensures Paced(u) && LastProbe(u)
  {
    if t.sent != [] {
      SettledBefore(t, first, now);
    }
    hide Growing, Halving, Finished;
    SamePace(t, u);
  }

  lemma SamePace(t: Trace, u: Trace)
    requires Paced(t)
    requires u.sent == t.sent && u.sentAt == t.sentAt && u.confirmed == t.confirmed && u.confirmedAt == t.confirmedAt
    ensures Paced(u)
  {
    forall i | 0 <= i < |u.sent| - 1 ensures PacedAt(u, i) {
      assert PacedAt(t, i);
    }
  }

  lemma PollKeepsPace(t: Trace, first: nat, now: int)
    requires Steady(t, first)
    ensures Paced(Step(t, Poll(now))) && LastProbe(Step(t, Poll(now)))
  {
    var s, u := t.search, Step(t, Poll(now));
    PollEffect(t, now);
    hide Step, Consistent, Numbered, Credited, Grows;
    if Transmits(s, now) {
      if Retransmits(s, now) {
        RetransmissionKeepsPace(t, u, first, now);
      } else {
        if t.sent != [] {
          SettledBefore(t, first, now);
        }
        NewProbeKeepsPace(t, u, first, now);
      }
    } else if GivesUp(s, now) {
      GivingUpKeepsPace(t, u, first, now);
    } else {
      SamePace(t, u);
    }
  }

  lemma AcknowledgeKeepsPace(t: Trace, first: nat, probe: Probe, now: int)
    requires Steady(t, first)
    ensures Paced(Step(t, Acknowledge(probe, now))) && LastProbe(Step(t, Acknowledge(probe, now)))
  {
    hide Growing, Halving, Finished, SuccessRecorded;
    SuccessStaysIdle(t.search.(awaiting := false, attempts := 0, earliest := now + PROBE_TIMEOUT));
    var u := Step(t, Acknowledge(probe, now));
    forall i | 0 <= i < |u.sent| - 1 ensures PacedAt(u, i) {
      assert PacedAt(t, i);
      assert t.sent[i].id <= t.sent[i + 1].id <= t.sent[|t.sent| - 1].id;
    }
  }

  lemma {:induction false} RunsKeepPace(before: Search, actions: seq<Action>)
    requires before.status == Unavailable
    ensures Paced(Run(before, actions)) && LastProbe(Run(before, actions))
  {
    if actions != [] {
      hide Paced, LastProbe, Numbered, Timed, Economical, Credited, Consistent, Polled, Acknowledged;
      var t := Run(before, actions[..|actions| - 1]);
      RunsKeepInv(before, actions[..|actions| - 1]);
      RunsKeepPace(before, actions[..|actions| - 1]);
      match actions[|actions| - 1]
      case Poll(now) => PollKeepsPace(t, before.nextId, now);
      case Acknowledge(probe, now) => AcknowledgeKeepsPace(t, before.nextId, probe, now);
      case other => OthersKeepPace(t, other);
    }
  }

  lemma OthersKeepPace(t: Trace, a: Action)
    requires (a.SupportAgain? || a.MarkFailed?) && t.search.status != Unavailable && Paced(t) && LastProbe(t)
    ensures Paced(Step(t, a)) && LastProbe(Step(t, a))
  {
    SamePace(t, Step(t, a));
  }

  /**
   Whatever the times of the polls and of the acknowledgements: a probe is transmitted again no earlier
   than half a second after its last transmission; it is given up after three transmissions, no more
   and no fewer, and half a second after the last one; and after an acknowledgement the next probe
   waits for half a second.
   */
  lemma {:induction false} ProbesArePaced(before: Search, actions: seq<Action>, i: nat)
    requires before.status == Unavailable && i + 1 < |Run(before, actions).sent|
    ensures var t := Run(before, actions);
      && |t.sentAt| == |t.sent| && |t.confirmedAt| == |t.confirmed|
      && PacedAt(t, i)
      && multiset(t.sent)[t.sent[i]] <= 3
  {
    FewProbes(before, actions);
    RunsKeepPace(before, actions);
    hide Run, PacedAt;
  }

  // ----- without support -----

  /** Without support, and after a failure, nothing is sent or accepted and the safe size stays. */
  lemma WithdrawnSearchIsSilent(s: Search, probe: Probe, now: int)
    ensures var t := SupportSet(s, false);
      && t.status == Unavailable && Reported(t) == Reported(s)
      && !Transmits(t, now) && Polled(t, now) == t
      && !Confirms(t, probe) && Acknowledged(t, probe, now) == t
    ensures s.status != Unavailable ==> SupportSet(s, true) == s
    ensures var f := MarkedFailed(s);
      && f.status == Failed && Reported(f) == Reported(s)
      && !Transmits(f, now) && Polled(f, now) == f
      && !Confirms(f, probe) && Acknowledged(f, probe, now) == f
  {
    hide FailureRecorded, SuccessRecorded;
  }

  /** 52 polls that are late enough end the search, whatever else happens. */
  lemma {:induction false} SearchEnds(before: Search, actions: seq<Action>)
    requires before.status == Unavailable
    requires Run(before, actions).latePolls >= 52
    ensures Run(before, actions).search.status in {Complete, Failed}
  {
    FewProbes(before, actions);
    RunsKeepInv(before, actions);
    hide Run, Left, Consistent;
  }

  // ----- the exact answer -----

  /**
   The path carries exactly the payloads up to `limit`: nothing larger is acknowledged, and a probe
   that the path carries is acknowledged before half a second has passed since its third transmission.
   */
  ghost predicate Faithful(before: Search, actions: seq<Action>, limit: int)
    decreases |actions|
  {
    actions != [] ==>
      && Faithful(before, actions[..|actions| - 1], limit)
      && var t := Run(before, actions[..|actions| - 1]);
      match actions[|actions| - 1]
      case Poll(now) => TriedInVain(t, now) ==> t.sent[|t.sent| - 1].payload > limit
      case Acknowledge(probe, _) => t.sent != [] && t.sent[|t.sent| - 1] == probe ==> probe.payload <= limit
      case SupportAgain => true
      case MarkFailed => false
  }

  /** The last probe was transmitted three times and not acknowledged, and its time is over. */
  ghost predicate TriedInVain(t: Trace, now: int) {
    && t.sent != [] && t.sentAt != []
    && var p := t.sent[|t.sent| - 1];
    p !in t.confirmed && multiset(t.sent)[p] == 3 && now >= Last(t.sentAt) + 500
  }

  /** The search gives up only what was tried in vain, and accepts only acknowledgements of what it sent last. */
  lemma VainTries(t: Trace, first: nat, probe: Probe, now: int)
    requires Consistent(t.search) && Numbered(t, first) && Timed(t) && Credited(t)
    ensures GivesUp(t.search, now) ==> TriedInVain(t, now) && t.sent[|t.sent| - 1] == t.search.active
    ensures Confirms(t.search, probe) ==> t.sent != [] && t.sent[|t.sent| - 1] == probe
  {
    hide Growing, Halving, Finished;
  }

  /** The limit lies between the safe size and the upper bound. */
  ghost predicate Brackets(s: Search, limit: int) {
    && (s.safe > 0 ==> s.safe <= limit)
    && (s.upper > 0 ==> limit < s.upper + ALIGNMENT)
    && (s.status == Failed ==> s.safe == 0 && limit < FALLBACK)
    && (s.status != Unavailable)
  }

  lemma FailureBrackets(s: Search, limit: int)
    requires Consistent(s) && s.status == Searching && Brackets(s, limit) && s.candidate > limit
    ensures Brackets(FailureRecorded(s), limit)
  {}

  lemma SuccessBrackets(s: Search, limit: int)
    requires Consistent(s) && s.status == Searching && Brackets(s, limit) && s.candidate <= limit
    ensures Brackets(SuccessRecorded(s), limit)
  {}

  lemma StepBrackets(t: Trace, a: Action, limit: int)
    requires Consistent(t.search) && Brackets(t.search, limit) && !a.MarkFailed?
    requires a.Poll? && GivesUp(t.search, a.now) ==> t.search.active.payload > limit
    requires a.Acknowledge? && Confirms(t.search, a.probe) ==> a.probe.payload <= limit
    ensures Brackets(Step(t, a).search, limit)
  {
    hide Growing, Halving, Finished, FailureRecorded, SuccessRecorded;
    var s := t.search;
    match a
    case Poll(now) =>
      if GivesUp(s, now) {
        SameSizes(s, s.(awaiting := false));
        FailureBrackets(s.(awaiting := false), limit);
      }
    case Acknowledge(probe, now) =>
      if Confirms(s, probe) {
        var r := s.(awaiting := false, attempts := 0, earliest := now + PROBE_TIMEOUT);
        SameSizes(s, r);
        SuccessBrackets(r, limit);
      }
    case other =>
  }

  lemma {:induction false} FaithfulRunsBracket(before: Search, actions: seq<Action>, limit: int)
    requires before.status == Unavailable && Faithful(before, actions, limit)
    ensures Brackets(Run(before, actions).search, limit)
  {
    if actions != [] {
      hide Brackets, Consistent, Step;
      var t, a := Run(before, actions[..|actions| - 1]), actions[|actions| - 1];
      FaithfulRunsBracket(before, actions[..|actions| - 1], limit);
      RunsKeepInv(before, actions[..|actions| - 1]);
      VainTries(t, before.nextId, if a.Acknowledge? then a.probe else t.search.active, if a.Poll? then a.now else 0);
      hide Inv, TriedInVain;
      StepBrackets(t, a, limit);
    }
  }

  /**
   The exact answer for every path limit: once the search has ended, it has failed and reports
   1200 if the limit is below that, and otherwise it reports the largest multiple of 8 that is
   neither above the limit nor above 16384. 52 late polls are enough for it to end.
   */
  lemma {:induction false} SearchFindsTheLimit(before: Search, actions: seq<Action>, limit: int)
    requires before.status == Unavailable && Faithful(before, actions, limit)
    ensures var t := Run(before, actions);
      var best := if limit < 16384 then limit else 16384;
      && (t.latePolls >= 52 ==> t.search.status != Searching)
      && (t.search.status != Searching ==>
            if limit < 1200 then t.search.status == Failed && Reported(t.search) == 1200
            else t.search.status == Complete && Reported(t.search) == best - best % 8)
  {
    hide Run, Growing, Halving, Numbered, Timed, Economical, Credited, Faithful;
    FaithfulRunsBracket(before, actions, limit);
    RunsKeepInv(before, actions);
    if Run(before, actions).latePolls >= 52 {
      SearchEnds(before, actions);
    }
  }
}

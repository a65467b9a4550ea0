/**
 The gate between the audio callbacks and `shutdown`
 (Client/Source/JammerNetzAudioEngine.cpp: `ScopedAudioCallbackActivity`, the beginning and
 end of `process`, `start` and `shutdown`). Any number of callback threads and one control
 thread take turns in any order, one sequentially consistent access at a time.
 */
module CallbackGate {

  type ThreadId = nat

  /**
   Where the callback threads are: `checked` have found no shutdown requested, `counted` have
   then incremented the counter, `inside` have found no shutdown again and run the body, and
   `leaving` are about to decrement the counter. All others are outside.
   */
  datatype Callbacks = Callbacks(
    checked: set<ThreadId>,
    counted: set<ThreadId>,
    inside: set<ThreadId>,
    leaving: set<ThreadId>)

  datatype ControlThread =
    | Idle
    /** shutdown: waiting for the counter to become zero. */
    | Waiting
    /** shutdown: past the wait, taking the engine down. */
    | TakingDown
    /** shutdown has returned. */
    | Down

  datatype Gate = Gate(
    shutdownRequested: bool,
    activeCallbacks: nat,
    callbacks: Callbacks,
    control: ControlThread,
    started: bool)

  const INITIAL := Gate(false, 0, Callbacks({}, {}, {}, {}), Idle, false)

  datatype Action =
    /** The next access of one callback thread; from outside, the beginning of a callback. */
    | CallbackMoves(thread: ThreadId)
    | StartCalled
    | ShutdownCalled
    | ControlMoves

  function CallbackMoved(s: Gate, t: ThreadId): Gate {
    var c := s.callbacks;
    if t in c.checked then
      s.(activeCallbacks := s.activeCallbacks + 1,
         callbacks := c.(checked := c.checked - {t}, counted := c.counted + {t}))
    else if t in c.counted then
      if s.shutdownRequested
      then s.(callbacks := c.(counted := c.counted - {t}, leaving := c.leaving + {t}))
      else s.(callbacks := c.(counted := c.counted - {t}, inside := c.inside + {t}))
    else if t in c.inside then
      s.(callbacks := c.(inside := c.inside - {t}, leaving := c.leaving + {t}))
    else if t in c.leaving then
      s.(activeCallbacks := if s.activeCallbacks == 0 then 0 else s.activeCallbacks - 1,
         callbacks := c.(leaving := c.leaving - {t}))
    else if s.shutdownRequested then s
    else s.(callbacks := c.(checked := c.checked + {t}))
  }

  /** `start` and `shutdown` are calls of the control thread, so neither begins during the other. */
  function Step(s: Gate, a: Action): Gate {
    match a
    case CallbackMoves(t) => CallbackMoved(s, t)
    case StartCalled =>
      if s.control.Waiting? || s.control.TakingDown? || s.started then s
      else s.(shutdownRequested := false, started := true, control := Idle)
    case ShutdownCalled =>
      if s.control.Waiting? || s.control.TakingDown? then s
      else s.(shutdownRequested := true, control := Waiting)
    case ControlMoves =>
      match s.control
      case Waiting => if s.activeCallbacks == 0 then s.(control := TakingDown, started := false) else s
      case TakingDown => s.(control := Down)
      case Idle | Down => s
  }

  function Run(actions: seq<Action>): Gate {
    if actions == [] then INITIAL else Step(Run(actions[..|actions| - 1]), actions[|actions| - 1])
  }

  /** A thread is in one place. */
  ghost predicate Apart(c: Callbacks) {
    && c.checked !! c.counted && c.checked !! c.inside && c.checked !! c.leaving
    && c.counted !! c.inside && c.counted !! c.leaving && c.inside !! c.leaving
  }

  function Registered(c: Callbacks): nat {
    |c.counted| + |c.inside| + |c.leaving|
  }

  ghost predicate Closed(s: Gate) {
    && (!s.control.Idle? ==> s.shutdownRequested)
    && (s.control.TakingDown? || s.control.Down? ==> s.callbacks.inside == {} && !s.started)
  }

  ghost predicate Inv(s: Gate) {
    Apart(s.callbacks) && s.activeCallbacks == Registered(s.callbacks) && Closed(s)
  }

  lemma CallbackStaysApart(s: Gate, t: ThreadId)
    requires Apart(s.callbacks)
    ensures Apart(CallbackMoved(s, t).callbacks)
  {}

  lemma CallbackIsCounted(s: Gate, t: ThreadId)
    requires Apart(s.callbacks) && s.activeCallbacks == Registered(s.callbacks)
    ensures CallbackMoved(s, t).activeCallbacks == Registered(CallbackMoved(s, t).callbacks)
  {
    var c := s.callbacks;
    SetSizes(c.counted, t);
    SetSizes(c.inside, t);
    SetSizes(c.leaving, t);
  }

  lemma CallbackKeepsInv(s: Gate, t: ThreadId)
    requires Inv(s)
    ensures Inv(CallbackMoved(s, t))
  {
    hide Apart, Registered;
    CallbackStaysApart(s, t);
    CallbackIsCounted(s, t);
  }

  lemma OthersKeepInv(s: Gate, a: Action)
    requires Inv(s) && !a.CallbackMoves?
    ensures Inv(Step(s, a))
  {}

  lemma {:induction false} RunsKeepInv(actions: seq<Action>)
    ensures Inv(Run(actions))
  {
    if actions != [] {
      RunsKeepInv(actions[..|actions| - 1]);
      hide Inv, CallbackMoved;
      var s, a := Run(actions[..|actions| - 1]), actions[|actions| - 1];
      if a.CallbackMoves? {
        CallbackKeepsInv(s, a.thread);
      } else {
        OthersKeepInv(s, a);
      }
    }
  }

  /**
   For any number of callback threads and of start and shutdown cycles: once shutdown has
   passed its wait, no callback is in its body until the next start.
   */
  lemma {:induction false} ShutdownExcludesCallbacks(actions: seq<Action>)
    ensures var s := Run(actions);
      s.control.TakingDown? || s.control.Down? ==> s.callbacks.inside == {}
  {
    RunsKeepInv(actions);
  }

  /** The counter is exactly the number of threads that registered and have not left, so it never underflows. */
  lemma {:induction false} CounterIsExact(actions: seq<Action>)
    ensures var s, c := Run(actions), Run(actions).callbacks;
      && s.activeCallbacks == |c.counted + c.inside + c.leaving|
      && (forall t :: t in c.leaving ==> s.activeCallbacks > 0)
  {
    RunsKeepInv(actions);
    var c := Run(actions).callbacks;
    assert |c.counted + c.inside| == |c.counted| + |c.inside|;
    assert |c.counted + c.inside + c.leaving| == |c.counted + c.inside| + |c.leaving|;
    forall t | t in c.leaving ensures Run(actions).activeCallbacks > 0 {
      assert c.leaving != {};
    }
  }

  // ----- callbacks run -----

  predicate Outside(s: Gate, t: ThreadId) {
    var c := s.callbacks;
    t !in c.checked + c.counted + c.inside + c.leaving
  }

  /** Nothing but the control thread and other callbacks. */
  ghost predicate Others(actions: seq<Action>, t: ThreadId) {
    forall k :: 0 <= k < |actions| ==> actions[k] != CallbackMoves(t)
  }

  lemma OthersLeaveThread(s: Gate, a: Action, t: ThreadId)
    requires a != CallbackMoves(t)
    ensures var c, d := s.callbacks, Step(s, a).callbacks;
      && (t in d.checked <==> t in c.checked) && (t in d.counted <==> t in c.counted)
      && (t in d.inside <==> t in c.inside) && (t in d.leaving <==> t in c.leaving)
  {}

  lemma {:induction false} ThreadStays(before: seq<Action>, actions: seq<Action>, t: ThreadId)
    requires Others(actions, t)
    ensures var c, d := Run(before).callbacks, Run(before + actions).callbacks;
      && (t in d.checked <==> t in c.checked) && (t in d.counted <==> t in c.counted)
      && (t in d.inside <==> t in c.inside) && (t in d.leaving <==> t in c.leaving)
  {
    if actions == [] {
      assert before + actions == before;
    } else {
      hide Step;
      var front := actions[..|actions| - 1];
      ThreadStays(before, front, t);
      assert (before + actions)[..|before + actions| - 1] == before + front;
      OthersLeaveThread(Run(before + front), actions[|actions| - 1], t);
    }
  }

  lemma RunGrows(actions: seq<Action>, a: Action)
    ensures Run(actions + [a]) == Step(Run(actions), a)
  {
    assert (actions + [a])[..|actions|] == actions;
  }

  /** Up to its second check: the first check, any actions of others, the increment, any actions of others. */
  function UpToSecondCheck(before: seq<Action>, xs: seq<Action>, ys: seq<Action>, t: ThreadId): seq<Action> {
    before + [CallbackMoves(t)] + xs + [CallbackMoves(t)] + ys
  }

  lemma {:induction false} SecondCheckIsReached(before: seq<Action>, xs: seq<Action>, ys: seq<Action>, t: ThreadId)
    requires Outside(Run(before), t) && Others(xs, t) && Others(ys, t)
    requires !Run(before).shutdownRequested
    ensures t in Run(UpToSecondCheck(before, xs, ys, t)).callbacks.counted
  {
    var first := before + [CallbackMoves(t)];
    RunGrows(before, CallbackMoves(t));
    ThreadStays(first, xs, t);
    RunsKeepInv(first + xs);
    RunGrows(first + xs, CallbackMoves(t));
    hide Run, Outside;
    ThreadStays(first + xs + [CallbackMoves(t)], ys, t);
  }

  /**
   In every interleaving, a callback that finds no shutdown requested at its first check runs its body
   if it finds none at the second either, and otherwise leaves; one that finds it at the first is turned
   away at once.
   */
  lemma {:induction false} CallbackRunsUnlessShutDown(before: seq<Action>, xs: seq<Action>, ys: seq<Action>,
                                                      t: ThreadId)
    requires Outside(Run(before), t) && Others(xs, t) && Others(ys, t)
    ensures Run(before).shutdownRequested ==> Run(before + [CallbackMoves(t)]) == Run(before)
    ensures !Run(before).shutdownRequested ==>
              var second := UpToSecondCheck(before, xs, ys, t);
              var c := Run(second + [CallbackMoves(t)]).callbacks;
              if Run(second).shutdownRequested then t in c.leaving && t !in c.inside else t in c.inside
  {
    RunGrows(before, CallbackMoves(t));
    if !Run(before).shutdownRequested {
      var second := UpToSecondCheck(before, xs, ys, t);
      SecondCheckIsReached(before, xs, ys, t);
      RunsKeepInv(second);
      RunGrows(second, CallbackMoves(t));
    }
  }

  /** A thread enters the body only by a second check that finds no shutdown requested. */
  lemma {:induction false} BodyIsEnteredBySecondCheck(actions: seq<Action>, a: Action, t: ThreadId)
    requires t !in Run(actions).callbacks.inside && t in Run(actions + [a]).callbacks.inside
    ensures a == CallbackMoves(t) && t in Run(actions).callbacks.counted && !Run(actions).shutdownRequested
  {
    RunGrows(actions, a);
  }

  /** A shutdown is requested from its call to the next start. */
  lemma {:induction false} RequestedUnlessIdle(actions: seq<Action>)
    ensures Run(actions).shutdownRequested <==> !Run(actions).control.Idle?
  {
    if actions != [] {
      RequestedUnlessIdle(actions[..|actions| - 1]);
    }
  }

  ghost predicate NoShutdown(actions: seq<Action>) {
    forall k :: 0 <= k < |actions| ==> !actions[k].ShutdownCalled?
  }

  lemma {:induction false} IdleUntilShutdown(before: seq<Action>, actions: seq<Action>)
    requires Run(before).control.Idle?
    requires NoShutdown(actions)
    ensures Run(before + actions).control.Idle?
  {
    if actions == [] {
      assert before + actions == before;
    } else {
      var front := actions[..|actions| - 1];
      IdleUntilShutdown(before, front);
      assert (before + actions)[..|before + actions| - 1] == before + front;
    }
  }

  lemma {:induction false} RequestedUntilStart(before: seq<Action>, actions: seq<Action>)
    requires !Run(before).control.Idle?
    requires forall k :: 0 <= k < |actions| ==> !actions[k].StartCalled?
    ensures !Run(before + actions).control.Idle?
  {
    if actions == [] {
      assert before + actions == before;
    } else {
      var front := actions[..|actions| - 1];
      RequestedUntilStart(before, front);
      assert (before + actions)[..|before + actions| - 1] == before + front;
    }
  }

  /**
   From its call, a shutdown is requested in every interleaving until the next start, and it waits: its
   next look ends the wait if and only if no callback is registered.
   */
  lemma {:induction false} ShutdownRequestsAndWaits(before: seq<Action>, actions: seq<Action>)
    requires forall k :: 0 <= k < |actions| ==> !actions[k].StartCalled?
    ensures Run(before + [ShutdownCalled] + actions).shutdownRequested
    ensures var s := Run(before);
      s.control.Idle? || s.control.Down? ==> Run(before + [ShutdownCalled]).control.Waiting?
    ensures Run(before).control.Waiting? ==>
              (Run(before + [ControlMoves]).control.TakingDown? <==> Run(before).activeCallbacks == 0)
  {
    RunGrows(before, ShutdownCalled);
    RunGrows(before, ControlMoves);
    RequestedUnlessIdle(before + [ShutdownCalled] + actions);
    RequestedUntilStart(before + [ShutdownCalled], actions);
  }

  /** Past its wait, a shutdown returns with the control thread's next move, and the engine can be started again. */
  lemma {:induction false} StartReopens(before: seq<Action>)
    requires var s := Run(before); s.control.TakingDown?
    ensures Run(before + [ControlMoves]).control.Down?
    ensures var s := Run(before + [ControlMoves] + [StartCalled]);
      s.control.Idle? && s.started && !s.shutdownRequested
  {
    RunsKeepInv(before);
    RunGrows(before, ControlMoves);
    RunGrows(before + [ControlMoves], StartCalled);
  }

  /**
   After `start`, three accesses of any thread that is outside bring it into the body, whatever other
   callbacks and the control thread do in between, unless shutdown is called.
   */
  lemma {:induction false} StartedCallbacksRun(before: seq<Action>, ws: seq<Action>, xs: seq<Action>, ys: seq<Action>,
                                               t: ThreadId)
    requires Run(before).control.Idle? || Run(before).control.Down?
    requires NoShutdown(ws) && NoShutdown(xs) && NoShutdown(ys)
    requires Others(xs, t) && Others(ys, t)
    requires Outside(Run(before + [StartCalled] + ws), t)
    ensures var second := UpToSecondCheck(before + [StartCalled] + ws, xs, ys, t);
      t in Run(second + [CallbackMoves(t)]).callbacks.inside
  {
    RunsKeepInv(before);
    RunGrows(before, StartCalled);
    assert Run(before + [StartCalled]).control.Idle?;
    hide Inv, Step, Run, Outside;
    var begun, move := before + [StartCalled], [CallbackMoves(t)];
    IdleUntilShutdown(begun, ws);
    IdleUntilShutdown(begun + ws, move);
    IdleUntilShutdown(begun + ws + move, xs);
    IdleUntilShutdown(begun + ws + move + xs, move);
    IdleUntilShutdown(begun + ws + move + xs + move, ys);
    RequestedUnlessIdle(begun + ws);
    RequestedUnlessIdle(UpToSecondCheck(begun + ws, xs, ys, t));
    CallbackRunsUnlessShutDown(begun + ws, xs, ys, t);
  }

  // ----- the wait ends -----

  /** Accesses of the callback threads until the counter is zero for good. */
  function Pending(s: Gate): nat {
    var c := s.callbacks;
    4 * |c.checked| + 3 * |c.counted| + 2 * |c.inside| + |c.leaving|
  }

  lemma SetSizes(a: set<ThreadId>, t: ThreadId)
    ensures t in a ==> |a - {t}| == |a| - 1
    ensures t !in a ==> |a + {t}| == |a| + 1
  {}

  /**
   While shutdown waits, no callback enters the body, every access of a thread that is on its
   way brings the end nearer, and when none is left shutdown goes on. So the wait lasts for at
   most as many accesses as are pending when it begins.
   */
  lemma WaitEnds(s: Gate, a: Action)
    requires Inv(s) && s.control.Waiting?
    ensures var c := s.callbacks;
      && Step(s, a).callbacks.inside <= c.inside
      && Pending(Step(s, a)) <= Pending(s)
      && (a.CallbackMoves? && a.thread in c.checked + c.counted + c.inside + c.leaving ==>
            Pending(Step(s, a)) < Pending(s))
      && (Pending(s) == 0 ==> Step(s, ControlMoves).control.TakingDown?)
  {
    if a.CallbackMoves? {
      var c, t := s.callbacks, a.thread;
      SetSizes(c.checked, t);
      SetSizes(c.counted, t);
      SetSizes(c.inside, t);
      SetSizes(c.leaving, t);
    }
  }

  /** An access of a thread that is on its way, not of one that is turned away at the first check. */
  predicate Effective(s: Gate, a: Action) {
    var c := s.callbacks;
    a.CallbackMoves? && a.thread in c.checked + c.counted + c.inside + c.leaving
  }

  /** The effective accesses among `actions`, which follow `before`. */
  function CountEffective(before: seq<Action>, actions: seq<Action>): nat {
    if actions == [] then 0
    else
      var n := |actions| - 1;
      CountEffective(before, actions[..n]) + if Effective(Run(before + actions[..n]), actions[n]) then 1 else 0
  }

  ghost predicate KeepsWaiting(before: seq<Action>, actions: seq<Action>) {
    forall k :: 0 <= k <= |actions| ==> Run(before + actions[..k]).control.Waiting?
  }

  /**
   Over runs, with any number of threads that begin callbacks meanwhile: while shutdown waits, no
   more accesses of threads on their way take place than were pending when the wait began. When
   all of these are used up, shutdown's next look at the counter ends the wait.
   */
  lemma {:induction false} PendingAccessesBoundWait(before: seq<Action>, actions: seq<Action>)
    requires KeepsWaiting(before, actions)
    ensures var s := Run(before + actions);
      && CountEffective(before, actions) + Pending(s) <= Pending(Run(before))
      && s.callbacks.inside <= Run(before).callbacks.inside
      && (CountEffective(before, actions) == Pending(Run(before)) ==>
            Run(before + actions + [ControlMoves]).control.TakingDown?)
  {
    hide Step, Inv, Pending, Effective;
    var all := before + actions;
    RunsKeepInv(all);
    assert actions[..|actions|] == actions;
    WaitEnds(Run(all), ControlMoves);
    assert (all + [ControlMoves])[..|all|] == all;
    if actions == [] {
      assert all == before;
    } else {
      var n := |actions| - 1;
      var front := actions[..n];
      assert forall k :: 0 <= k <= n ==> front[..k] == actions[..k];
      PendingAccessesBoundWait(before, front);
      assert all[..|all| - 1] == before + front;
      RunsKeepInv(before + front);
      EffectiveAccess(Run(before + front), actions[n]);
      WaitEnds(Run(before + front), actions[n]);
    }
  }

  lemma EffectiveAccess(s: Gate, a: Action)
    requires Inv(s) && s.control.Waiting?
    ensures Pending(Step(s, a)) + (if Effective(s, a) then 1 else 0) <= Pending(s)
  {
    hide Inv, Step, Pending;
    WaitEnds(s, a);
  }
}

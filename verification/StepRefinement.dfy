/**
 The scheduler's step is one of the interleavings: from every reachable state in which the
 mixer is idle, the moves of the mixer alone lead to the clients that `SchedulerModel.Stepped`
 computes, and so to what `ServerMixScheduler.Process` leaves behind.
 */
module StepRefinement {
  import opened Packets
  import opened StreamQueueModel
  import opened ClientModel
  import opened SchedulerModel
  import opened ServerMixSchedulers
  import opened ServerProtocol

  ghost predicate Distinct(names: seq<Name>) {
    forall i, j :: 0 <= i < j < |names| ==> names[i] != names[j]
  }

  /** The clients of the state are `cs`, under these names. */
  ghost predicate Agree(s: State, names: seq<Name>, cs: seq<Client>) {
    && |names| == |cs| && Distinct(names)
    && (forall n :: n in s.clients <==> n in names)
    && (forall i :: 0 <= i < |names| ==> names[i] in s.clients && s.clients[names[i]] == cs[i])
  }

  lemma Updated(s: State, names: seq<Name>, cs: seq<Client>, i: nat, c: Client, l: Ledger)
    requires Agree(s, names, cs) && i < |names|
    ensures Agree(With(s, names[i], c, l), names, cs[i := c])
  {}

  /** The current pass has visited the first `k` names. */
  ghost predicate Visits(s: State, names: seq<Name>, k: nat)
    requires k <= |names|
  {
    forall i :: 0 <= i < |names| ==> (names[i] in s.visited <==> i < k)
  }

  lemma RunExtends(cfg: BufferConfig, actions: seq<Action>, a: Action)
    ensures Run(cfg, actions + [a]) == Step(Run(cfg, actions), cfg, a)
  {
    assert (actions + [a])[..|actions|] == actions;
    hide Step;
  }

  /** A vain pop is looked into before the pass ends. */
  lemma {:induction false} NothingFailedOutsidePopping(cfg: BufferConfig, actions: seq<Action>)
    ensures var s := Run(cfg, actions); !s.phase.Popping? ==> s.failed.None?
  {
    if actions != [] {
      NothingFailedOutsidePopping(cfg, actions[..|actions| - 1]);
    }
  }

  // ----- the pressure pass -----

  /** The pressure pass has visited the first `k` clients and counted them. */
  ghost predicate Counting(s: State, cfg: BufferConfig, names: seq<Name>, checked: seq<Client>, now: int, k: nat)
    requires k <= |names| == |checked|
  {
    && s.phase.Checking? && s.now == now && s.failed.None? && s.observed == map[]
    && Visits(s, names, k)
    && s.active <= s.visited && |s.active| == CountActive(checked[..k])
    && s.ready <= s.visited && |s.ready| == CountReady(checked[..k], cfg)
  }

  lemma BeginPressing(s: State, cfg: BufferConfig, names: seq<Name>, cs: seq<Client>, now: int)
    requires s.phase.Idle? && s.failed.None? && Agree(s, names, cs)
    ensures Counting(Step(s, cfg, BeginStep(now)), cfg, names, CheckedAll(cs, cfg, now), now, 0)
    ensures Agree(Step(s, cfg, BeginStep(now)), names, Midway(CheckedAll(cs, cfg, now), cs, 0))
  {
    assert Midway(CheckedAll(cs, cfg, now), cs, 0) == cs;
  }

  lemma CountsGrow(cs: seq<Client>, cfg: BufferConfig, k: nat)
    requires k < |cs|
    ensures CountActive(cs[..k + 1]) == CountActive(cs[..k]) + if Active(cs[k]) then 1 else 0
    ensures CountReady(cs[..k + 1], cfg) == CountReady(cs[..k], cfg) + if Ready(cs[k], cfg) then 1 else 0
  {
    assert cs[..k + 1][..k] == cs[..k];
  }

  /** One client: its grace is checked, then the pressure is applied. */
  lemma PressOneClient(s: State, cfg: BufferConfig, names: seq<Name>, cs: seq<Client>, now: int, k: nat, c: Client)
    requires k < |names| && Agree(s, names, cs) && s.phase.Checking? && s.now == now && names[k] !in s.visited
    requires c == Checked(cs[k], cfg, now)
    ensures var u := Step(Step(s, cfg, Expire(names[k])), cfg, Press(names[k]));
      && Agree(u, names, cs[k := c])
      && u.phase == s.phase && u.now == s.now && u.failed == s.failed && u.observed == s.observed
      && u.visited == s.visited + {names[k]}
      && u.active == (if Active(c) then s.active + {names[k]} else s.active)
      && u.ready == (if Ready(c, cfg) then s.ready + {names[k]} else s.ready)
  {
    hide Expired, Pressed, Active, Ready, LedgerPress;
    var name, half := names[k], Expired(cs[k], now);
    var t := Step(s, cfg, Expire(name));
    Updated(s, names, cs, k, half, LedgerOf(s, name));
    assert t == With(s, name, half, LedgerOf(s, name));
    Updated(t, names, cs[k := half], k, c,
            LedgerPress(LedgerOf(t, name), ClientOf(t, name), MaximumDepth(cfg), TargetDepth(cfg)));
    assert cs[k := half][k := c] == cs[k := c];
    hide Distinct;
  }

  lemma CountNext(s: State, u: State, cfg: BufferConfig, names: seq<Name>, checked: seq<Client>, now: int, k: nat)
    requires k < |names| == |checked| && Distinct(names) && Counting(s, cfg, names, checked, now, k)
    requires u.phase == s.phase && u.now == s.now && u.failed == s.failed && u.observed == s.observed
    requires u.visited == s.visited + {names[k]}
    requires u.active == (if Active(checked[k]) then s.active + {names[k]} else s.active)
    requires u.ready == (if Ready(checked[k], cfg) then s.ready + {names[k]} else s.ready)
    ensures Counting(u, cfg, names, checked, now, k + 1)
  {
    hide Active, Ready, CountActive, CountReady;
    CountsGrow(checked, cfg, k);
    assert names[k] !in s.visited;
  }

  lemma {:induction false} PressurePassRuns(cfg: BufferConfig, before: seq<Action>, names: seq<Name>, cs: seq<Client>,
                                            now: int, k: nat)
    returns (actions: seq<Action>)
    requires Run(cfg, before).phase.Idle? && Agree(Run(cfg, before), names, cs) && k <= |names|
    ensures Counting(Run(cfg, before + actions), cfg, names, CheckedAll(cs, cfg, now), now, k)
    ensures Agree(Run(cfg, before + actions), names, Midway(CheckedAll(cs, cfg, now), cs, k))
    ensures NoArrivals(actions)
  {
    hide Agree, Counting, Step, Midway, Distinct;
    AgreeIsDistinct(Run(cfg, before), names, cs);
    if k == 0 {
      NothingFailedOutsidePopping(cfg, before);
      BeginPressing(Run(cfg, before), cfg, names, cs, now);
      RunExtends(cfg, before, BeginStep(now));
      actions := [BeginStep(now)];
    } else {
      var front := PressurePassRuns(cfg, before, names, cs, now, k - 1);
      actions := PressClientRuns(cfg, before + front, names, cs, now, k - 1);
      assert before + front + actions == before + (front + actions);
      actions := front + actions;
    }
  }

  ghost predicate NoArrivals(actions: seq<Action>) {
    forall a :: a in actions ==> !a.Arrive?
  }

  lemma PressClientRuns(cfg: BufferConfig, before: seq<Action>, names: seq<Name>, cs: seq<Client>, now: int, k: nat)
    returns (actions: seq<Action>)
    requires |names| == |cs| && k < |names|
    requires Counting(Run(cfg, before), cfg, names, CheckedAll(cs, cfg, now), now, k)
    requires Agree(Run(cfg, before), names, Midway(CheckedAll(cs, cfg, now), cs, k))
    ensures Counting(Run(cfg, before + actions), cfg, names, CheckedAll(cs, cfg, now), now, k + 1)
    ensures Agree(Run(cfg, before + actions), names, Midway(CheckedAll(cs, cfg, now), cs, k + 1))
    ensures NoArrivals(actions)
  {
    hide Step, Midway, Agree, CountActive, CountReady;
    var s, checked := Run(cfg, before), CheckedAll(cs, cfg, now);
    Advance(checked, cs, k);
    AgreeIsDistinct(s, names, Midway(checked, cs, k));
    actions := [Expire(names[k]), Press(names[k])];
    RunExtends(cfg, before, Expire(names[k]));
    RunExtends(cfg, before + [Expire(names[k])], Press(names[k]));
    assert before + actions == before + [Expire(names[k])] + [Press(names[k])];
    PressOneClient(s, cfg, names, Midway(checked, cs, k), now, k, checked[k]);
    CountNext(s, Run(cfg, before + actions), cfg, names, checked, now, k);
  }

  lemma AgreeIsDistinct(s: State, names: seq<Name>, cs: seq<Client>)
    requires Agree(s, names, cs)
    ensures |names| == |cs| && Distinct(names)
  {}

  // ----- the pop pass -----

  /** The pop pass has visited the first `k` clients, and observed those that gave nothing. */
  ghost predicate Popping(s: State, names: seq<Name>, checked: seq<Client>, now: int, k: nat)
    requires k <= |names| == |checked|
  {
    && s.phase.Popping? && s.now == now && s.failed.None?
    && Visits(s, names, k)
    && HasObserved(s, names, checked, k)
  }

  ghost predicate HasObserved(s: State, names: seq<Name>, checked: seq<Client>, k: nat)
    requires k <= |names| == |checked|
  {
    forall i :: 0 <= i < |names| ==>
      && (names[i] in s.observed <==> i < k && Active(checked[i]) && !CanPop(checked[i]))
      && (names[i] in s.observed ==> s.observed[names[i]] == checked[i].generation)
  }

  /** One client: it is popped and, if that was in vain, looked at again. */
  lemma PopOneClient(s: State, cfg: BufferConfig, names: seq<Name>, cs: seq<Client>, k: nat)
    requires k < |names| && Agree(s, names, cs) && s.phase.Popping? && s.failed.None? && names[k] !in s.visited
    ensures var u := Step(Step(s, cfg, PopOne(names[k])), cfg, Look);
      && Agree(u, names, cs[k := ClientPopped(cs[k])])
      && u.phase == s.phase && u.now == s.now && u.failed.None?
      && u.visited == s.visited + {names[k]}
      && u.observed == if Active(cs[k]) && !CanPop(cs[k]) then s.observed[names[k] := cs[k].generation] else s.observed
  {
    hide Pop, LedgerPop;
    Updated(s, names, cs, k, ClientPopped(cs[k]), LedgerPop(LedgerOf(s, names[k]), ClientOf(s, names[k])));
    hide Distinct;
  }

  lemma PopNext(s: State, u: State, names: seq<Name>, checked: seq<Client>, now: int, k: nat)
    requires k < |names| == |checked| && Distinct(names) && Popping(s, names, checked, now, k)
    requires u.phase == s.phase && u.now == s.now && u.failed.None?
    requires u.visited == s.visited + {names[k]}
    requires u.observed == if Active(checked[k]) && !CanPop(checked[k])
                           then s.observed[names[k] := checked[k].generation] else s.observed
    ensures Popping(u, names, checked, now, k + 1)
  {
    hide Active, CanPop;
  }

  lemma PopClientRuns(cfg: BufferConfig, before: seq<Action>, names: seq<Name>, checked: seq<Client>, now: int, k: nat)
    returns (actions: seq<Action>)
    requires |names| == |checked| && k < |names|
    requires Popping(Run(cfg, before), names, checked, now, k)
    requires Agree(Run(cfg, before), names, Midway(PoppedAll(checked), checked, k))
    ensures Popping(Run(cfg, before + actions), names, checked, now, k + 1)
    ensures Agree(Run(cfg, before + actions), names, Midway(PoppedAll(checked), checked, k + 1))
    ensures NoArrivals(actions)
  {
    hide Step, Midway, Agree, HasObserved, ClientPopped, CanPop, Active;
    var s := Run(cfg, before);
    Advance(PoppedAll(checked), checked, k);
    AgreeIsDistinct(s, names, Midway(PoppedAll(checked), checked, k));
    actions := [PopOne(names[k]), Look];
    RunExtends(cfg, before, PopOne(names[k]));
    RunExtends(cfg, before + [PopOne(names[k])], Look);
    assert before + actions == before + [PopOne(names[k])] + [Look];
    PopOneClient(s, cfg, names, Midway(PoppedAll(checked), checked, k), k);
    PopNext(s, Run(cfg, before + actions), names, checked, now, k);
  }

  lemma {:induction false} PopPassRuns(cfg: BufferConfig, before: seq<Action>, names: seq<Name>, checked: seq<Client>,
                                       now: int, k: nat)
    returns (actions: seq<Action>)
    requires |names| == |checked| && k <= |names|
    requires Popping(Run(cfg, before), names, checked, now, 0) && Agree(Run(cfg, before), names, checked)
    ensures Popping(Run(cfg, before + actions), names, checked, now, k)
    ensures Agree(Run(cfg, before + actions), names, Midway(PoppedAll(checked), checked, k))
    ensures NoArrivals(actions)
  {
    hide Agree, Popping, Step;
    if k == 0 {
      actions := [];
      assert before + actions == before;
      assert Midway(PoppedAll(checked), checked, 0) == checked;
    } else {
      hide Midway;
      var front := PopPassRuns(cfg, before, names, checked, now, k - 1);
      actions := PopClientRuns(cfg, before + front, names, checked, now, k - 1);
      assert before + front + actions == before + (front + actions);
      actions := front + actions;
    }
  }

  // ----- the underrun pass -----

  ghost predicate MarkingClients(s: State, names: seq<Name>, checked: seq<Client>, now: int, k: nat)
    requires k <= |names| == |checked|
  {
    && s.phase.Marking? && s.now == now && s.failed.None?
    && (forall i :: k <= i < |names| ==> names[i] !in s.visited)
    && HasObserved(s, names, checked, |names|)
  }

  /** One client: it is marked if it was observed. */
  lemma MarkOneClient(s: State, cfg: BufferConfig, names: seq<Name>, cs: seq<Client>, checked: seq<Client>, now: int,
                      k: nat)
    requires |names| == |checked| && k < |names| && Agree(s, names, cs) && MarkingClients(s, names, checked, now, k)
    requires cs[k] == ClientPopped(checked[k])
    ensures var u := Step(s, cfg, Mark(names[k]));
      Agree(u, names, cs[k := Served(checked[k], now)]) && MarkingClients(u, names, checked, now, k + 1)
  {
    hide Pop;
    var name, c := names[k], Served(checked[k], now);
    if name in s.observed {
      Updated(s, names, cs, k, c, LedgerOf(s, name));
      assert c == Marked(cs[k], s.observed[name], now);
    } else {
      assert c == cs[k];
      assert cs[k := c] == cs;
    }
  }

  lemma MarkClientRuns(cfg: BufferConfig, before: seq<Action>, names: seq<Name>, checked: seq<Client>, now: int, k: nat)
    returns (actions: seq<Action>)
    requires |names| == |checked| && k < |names|
    requires MarkingClients(Run(cfg, before), names, checked, now, k)
    requires Agree(Run(cfg, before), names, Midway(ServedAll(checked, now), PoppedAll(checked), k))
    ensures MarkingClients(Run(cfg, before + actions), names, checked, now, k + 1)
    ensures Agree(Run(cfg, before + actions), names, Midway(ServedAll(checked, now), PoppedAll(checked), k + 1))
    ensures NoArrivals(actions)
  {
    hide Step, Midway, Agree, MarkingClients, ClientPopped, Served;
    var s := Run(cfg, before);
    Advance(ServedAll(checked, now), PoppedAll(checked), k);
    actions := [Mark(names[k])];
    RunExtends(cfg, before, Mark(names[k]));
    MarkOneClient(s, cfg, names, Midway(ServedAll(checked, now), PoppedAll(checked), k), checked, now, k);
  }

  lemma {:induction false} MarkPassRuns(cfg: BufferConfig, before: seq<Action>, names: seq<Name>, checked: seq<Client>,
                                        now: int, k: nat)
    returns (actions: seq<Action>)
    requires |names| == |checked| && k <= |names|
    requires MarkingClients(Run(cfg, before), names, checked, now, 0)
    requires Agree(Run(cfg, before), names, PoppedAll(checked))
    ensures MarkingClients(Run(cfg, before + actions), names, checked, now, k)
    ensures Agree(Run(cfg, before + actions), names, Midway(ServedAll(checked, now), PoppedAll(checked), k))
    ensures NoArrivals(actions)
  {
    hide Agree, MarkingClients, Step;
    if k == 0 {
      actions := [];
      assert before + actions == before;
      assert Midway(ServedAll(checked, now), PoppedAll(checked), 0) == PoppedAll(checked);
    } else {
      hide Midway;
      var front := MarkPassRuns(cfg, before, names, checked, now, k - 1);
      actions := MarkClientRuns(cfg, before + front, names, checked, now, k - 1);
      assert before + front + actions == before + (front + actions);
      actions := front + actions;
    }
  }

  // ----- the step -----

  lemma Decided(s: State, cfg: BufferConfig, names: seq<Name>, checked: seq<Client>, now: int)
    requires |names| == |checked| && Counting(s, cfg, names, checked, now, |names|) && Agree(s, names, checked)
    ensures var t := Step(s, cfg, Decide);
      && Agree(t, names, checked)
      && if Blocked(checked, cfg) then t.phase.Idle? else Popping(t, names, checked, now, 0)
  {
    hide Active, Ready, CountActive, CountReady;
    assert checked[..|names|] == checked;
  }

  lemma BeginMarkingClients(s: State, cfg: BufferConfig, names: seq<Name>, checked: seq<Client>, now: int)
    requires |names| == |checked| && Popping(s, names, checked, now, |names|)
    requires Agree(s, names, PoppedAll(checked))
    ensures MarkingClients(Step(s, cfg, BeginMarking), names, checked, now, 0)
    ensures Agree(Step(s, cfg, BeginMarking), names, PoppedAll(checked))
  {
    hide Active, CanPop;
  }

  lemma Finished(s: State, cfg: BufferConfig, names: seq<Name>, cs: seq<Client>)
    requires s.phase.Marking? && Agree(s, names, cs)
    ensures Step(s, cfg, EndStep).phase.Idle? && Agree(Step(s, cfg, EndStep), names, cs)
  {}

  lemma MidwayEnds(done: seq<Client>, todo: seq<Client>)
    requires |done| == |todo|
    ensures Midway(done, todo, |done|) == done
  {}

  lemma ServeRuns(cfg: BufferConfig, before: seq<Action>, names: seq<Name>, checked: seq<Client>, now: int)
    returns (actions: seq<Action>)
    requires |names| == |checked|
    requires Popping(Run(cfg, before), names, checked, now, 0) && Agree(Run(cfg, before), names, checked)
    ensures Run(cfg, before + actions).phase.Idle?
    ensures Agree(Run(cfg, before + actions), names, ServedAll(checked, now))
    ensures NoArrivals(actions)
  {
    hide Agree, Popping, Step, Midway, HasObserved;
    var pops := PopPassRuns(cfg, before, names, checked, now, |names|);
    MidwayEnds(PoppedAll(checked), checked);
    var popped := before + pops;
    BeginMarkingClients(Run(cfg, popped), cfg, names, checked, now);
    RunExtends(cfg, popped, BeginMarking);
    var marks := MarkPassRuns(cfg, popped + [BeginMarking], names, checked, now, |names|);
    MidwayEnds(ServedAll(checked, now), PoppedAll(checked));
    var marked := popped + [BeginMarking] + marks;
    Finished(Run(cfg, marked), cfg, names, ServedAll(checked, now));
    RunExtends(cfg, marked, EndStep);
    actions := pops + [BeginMarking] + marks + [EndStep];
    assert before + actions == marked + [EndStep];
  }

  /** The pressure pass and the decision after it. */
  lemma DecisionRuns(cfg: BufferConfig, before: seq<Action>, names: seq<Name>, cs: seq<Client>, now: int)
    returns (actions: seq<Action>)
    requires |names| == |cs| && Run(cfg, before).phase.Idle? && Agree(Run(cfg, before), names, cs)
    ensures var checked, s := CheckedAll(cs, cfg, now), Run(cfg, before + actions);
      && Agree(s, names, checked)
      && if Blocked(checked, cfg) then s.phase.Idle? else Popping(s, names, checked, now, 0)
    ensures NoArrivals(actions)
  {
    hide Agree, Counting, Popping, Step, Midway, Blocked, CheckedAll, Run;
    var presses := PressurePassRuns(cfg, before, names, cs, now, |names|);
    MidwayEnds(CheckedAll(cs, cfg, now), cs);
    Decided(Run(cfg, before + presses), cfg, names, CheckedAll(cs, cfg, now), now);
    RunExtends(cfg, before + presses, Decide);
    actions := presses + [Decide];
    assert before + actions == before + presses + [Decide];
  }

  /** The scheduler's step is a run of the mixer without any arrival. */
  lemma StepIsARun(cfg: BufferConfig, before: seq<Action>, names: seq<Name>, cs: seq<Client>, now: int)
    returns (actions: seq<Action>)
    requires Run(cfg, before).phase.Idle? && Agree(Run(cfg, before), names, cs)
    ensures Run(cfg, before + actions).phase.Idle?
    ensures Agree(Run(cfg, before + actions), names, Stepped(cs, cfg, now))
    ensures NoArrivals(actions)
  {
    hide Agree, Popping, Blocked, CheckedAll, Run;
    AgreeIsDistinct(Run(cfg, before), names, cs);
    actions := DecisionRuns(cfg, before, names, cs, now);
    if !Blocked(CheckedAll(cs, cfg, now), cfg) {
      var serves := ServeRuns(cfg, before + actions, names, CheckedAll(cs, cfg, now), now);
      assert before + (actions + serves) == before + actions + serves;
      actions := actions + serves;
    }
  }
}

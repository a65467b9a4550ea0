/**
 The single-slot hazard pointer that keeps a MIDI sender alive while the audio thread uses it
 (Client/Source/JammerNetzAudioEngine.cpp: `restartClock`, `retireMidiSender`, the end of
 `shutdown`, and the beginning and end of `scheduleMidiForPlayout`). One control thread and
 one audio thread take turns in any order, one sequentially consistent access at a time.

 Senders are identified by their addresses. The address of a deleted sender may be given to
 a new one, so that the validation of a pointer can succeed with a different object.
 */
module MidiSenderLifetime {
  import opened Packets

  /** A `MidiSendThread*`; zero is the null pointer. */
  type Pointer = nat

  const NULL: Pointer := 0

  datatype AudioThread =
    | Resting
    /** `realtimeMidiSender_` was read. */
    | Loaded(sender: Pointer)
    /** The hazard pointer was written. */
    | Hazarded(sender: Pointer)
    /** The second read gave the same pointer: the sender's methods are called. */
    | Using(sender: Pointer)

  datatype ControlThread =
    | Idle
    /** restartClock: the sender in charge was read. */
    | Replacing(retired: Pointer)
    /** A new sender was created and started. */
    | Created(retired: Pointer, sender: Pointer)
    /** It was stored in `midiSendThread_`. */
    | Stored(retired: Pointer, sender: Pointer)
    /** shutdown: `realtimeMidiSender_` was cleared. */
    | Clearing
    /** `midiSendThread_` was read. */
    | Cleared(retired: Pointer)
    /** retireMidiSender: waiting for the hazard pointer to differ. */
    | Waiting(retired: Pointer)
    /** It differed: the sender is shut down next. */
    | ShuttingDown(retired: Pointer)
    /** The sender was shut down; the last reference to it is dropped next. */
    | Releasing(retired: Pointer)

  /** `alive` and `running`: the senders not deleted, and those not shut down either. */
  datatype Engine = Engine(
    realtime: Pointer,
    hazard: Pointer,
    owner: Pointer,
    alive: set<Pointer>,
    running: set<Pointer>,
    audio: AudioThread,
    control: ControlThread)

  const START := Engine(NULL, NULL, NULL, {}, {}, Resting, Idle)

  datatype Action =
    | AudioMoves
    /** An idle control thread begins to restart the clock, or to shut down. */
    | Restarts
    | ShutsDown
    /** The control thread goes on. A new sender gets the address `address`. */
    | ControlMoves(address: Pointer)

  function AudioMoved(s: Engine): Engine {
    match s.audio
    case Resting => s.(audio := Loaded(s.realtime))
    case Loaded(p) => s.(hazard := p, audio := Hazarded(p))
    case Hazarded(p) => s.(audio := if p == s.realtime then Using(p) else Resting)
    case Using(_) => s.(hazard := NULL, audio := Resting)
  }

  function ControlMoved(s: Engine, address: Pointer): Engine {
    match s.control
    case Idle => s
    case Replacing(retired) =>
      if address == NULL || address in s.alive then s
      else s.(alive := s.alive + {address}, running := s.running + {address}, control := Created(retired, address))
    case Created(retired, sender) => s.(owner := sender, control := Stored(retired, sender))
    case Stored(retired, sender) => s.(realtime := sender, control := Retire(retired))
    case Clearing => s.(control := Cleared(s.owner))
    case Cleared(retired) => s.(owner := NULL, control := Retire(retired))
    case Waiting(retired) => if s.hazard == retired then s else s.(control := ShuttingDown(retired))
    case ShuttingDown(retired) => s.(running := s.running - {retired}, control := Releasing(retired))
    case Releasing(retired) => s.(alive := s.alive - {retired}, control := Idle)
  }

  /** retireMidiSender returns at once if there is nothing to retire. */
  function Retire(p: Pointer): ControlThread {
    if p == NULL then Idle else Waiting(p)
  }

  function Step(s: Engine, a: Action): Engine {
    match a
    case AudioMoves => AudioMoved(s)
    case Restarts => if s.control.Idle? then s.(control := Replacing(s.owner)) else s
    case ShutsDown => if s.control.Idle? then s.(realtime := NULL, control := Clearing) else s
    case ControlMoves(address) => ControlMoved(s, address)
  }

  function Run(actions: seq<Action>): Engine {
    if actions == [] then START else Step(Run(actions[..|actions| - 1]), actions[|actions| - 1])
  }

  /** The sender that the control thread has in its hands, besides the owner. */
  function Held(c: ControlThread): set<Pointer> {
    match c
    case Created(_, sender) => {sender}
    case Stored(retired, _) => {retired}
    case Waiting(retired) => {retired}
    case ShuttingDown(retired) => {retired}
    case Releasing(retired) => {retired}
    case Idle | Replacing(_) | Clearing | Cleared(_) => {}
  }

  /** Which pointer the audio thread may find, and what the control thread knows. */
  ghost predicate ControlInv(s: Engine) {
    match s.control
    case Idle => s.realtime == s.owner
    case Clearing => s.realtime == NULL
    case Cleared(retired) => s.realtime == NULL && retired == s.owner
    case Replacing(retired) => retired == s.owner == s.realtime
    case Created(retired, sender) => retired == s.owner == s.realtime != sender
    case Stored(retired, sender) => retired == s.realtime != sender && sender == s.owner
    case Waiting(retired) => retired != NULL && s.realtime == s.owner != retired
    case ShuttingDown(retired) => retired != NULL && s.realtime == s.owner != retired && s.audio != Using(retired)
    case Releasing(retired) => retired != NULL && s.realtime == s.owner != retired && s.audio != Using(retired)
  }

  ghost predicate Inv(s: Engine) {
    && ControlInv(s)
    && s.alive == ({s.owner} + Held(s.control)) - {NULL}
    && s.running == s.alive - (if s.control.Releasing? then {s.control.retired} else {})
    && (s.audio.Hazarded? || s.audio.Using? ==> s.hazard == s.audio.sender)
    && (s.audio.Using? ==> s.audio.sender in s.running + {NULL})
  }

  lemma AudioKeepsInv(s: Engine)
    requires Inv(s)
    ensures Inv(AudioMoved(s))
  {}

  lemma ControlKeepsInv(s: Engine, address: Pointer)
    requires Inv(s)
    ensures Inv(ControlMoved(s, address))
  {}

  lemma {:induction false} RunsKeepInv(actions: seq<Action>)
    ensures Inv(Run(actions))
  {
    if actions != [] {
      hide AudioMoved, ControlMoved;
      RunsKeepInv(actions[..|actions| - 1]);
      var s := Run(actions[..|actions| - 1]);
      match actions[|actions| - 1]
      case AudioMoves => AudioKeepsInv(s);
      case ControlMoves(address) => ControlKeepsInv(s, address);
      case other =>
    }
  }

  /**
   Over any number of restarts and shutdowns, in every interleaving: the audio thread only
   ever uses a sender that is neither deleted nor shut down.
   */
  lemma {:induction false} UsedSendersRun(actions: seq<Action>)
    ensures var s := Run(actions);
      s.audio.Using? && s.audio.sender != NULL ==> s.audio.sender in s.running
  {
    RunsKeepInv(actions);
  }

  /** There are never more than two senders, and none but the current one while the control thread is idle. */
  lemma {:induction false} SendersDoNotAccumulate(actions: seq<Action>)
    ensures var s := Run(actions);
      |s.alive| <= 2 && (s.control.Idle? ==> s.alive == s.running == {s.realtime} - {NULL})
  {
    RunsKeepInv(actions);
    var s := Run(actions);
    var two := {s.owner} + Held(s.control);
    assert |two| <= |{s.owner}| + |Held(s.control)|;
    SubsetSize(s.alive, two);
  }

  // ----- senders are used, replaced and released -----

  ghost predicate NoAudio(actions: seq<Action>) {
    forall k :: 0 <= k < |actions| ==> !actions[k].AudioMoves?
  }

  ghost predicate OnlyAudio(actions: seq<Action>) {
    forall k :: 0 <= k < |actions| ==> actions[k].AudioMoves?
  }

  lemma RunGrows(actions: seq<Action>, a: Action)
    ensures Run(actions + [a]) == Step(Run(actions), a)
  {
    assert (actions + [a])[..|actions|] == actions;
  }

  lemma {:induction false} ControlLeavesAudio(before: seq<Action>, actions: seq<Action>)
    requires NoAudio(actions)
    ensures Run(before + actions).audio == Run(before).audio && Run(before + actions).hazard == Run(before).hazard
  {
    if actions == [] {
      assert before + actions == before;
    } else {
      var front := actions[..|actions| - 1];
      ControlLeavesAudio(before, front);
      assert (before + actions)[..|before + actions| - 1] == before + front;
    }
  }

  /** Two moves of the audio thread, each followed by any moves of the control thread. */
  function UpToValidation(before: seq<Action>, xs: seq<Action>, ys: seq<Action>): seq<Action> {
    before + [AudioMoves] + xs + [AudioMoves] + ys
  }

  /**
   In every interleaving, the audio thread's third move decides: it uses the sender that it loaded with
   the first if that is still the one in charge, and otherwise starts over. The move after a use ends it.
   */
  lemma {:induction false} LoadedSenderIsUsed(before: seq<Action>, xs: seq<Action>, ys: seq<Action>)
    requires Run(before).audio.Resting? && NoAudio(xs) && NoAudio(ys)
    ensures var p, third := Run(before).realtime, UpToValidation(before, xs, ys) + [AudioMoves];
      && Run(third).audio == (if Run(UpToValidation(before, xs, ys)).realtime == p then Using(p) else Resting)
      && (Run(third).audio.Using? ==>
            Run(third).hazard == p
            && Run(third + [AudioMoves]).audio.Resting? && Run(third + [AudioMoves]).hazard == NULL)
  {
    var first := before + [AudioMoves];
    var second := first + xs + [AudioMoves];
    var third := UpToValidation(before, xs, ys) + [AudioMoves];
    RunGrows(before, AudioMoves);
    RunGrows(first + xs, AudioMoves);
    RunGrows(second + ys, AudioMoves);
    RunGrows(third, AudioMoves);
    hide Run, ControlMoved;
    ControlLeavesAudio(first, xs);
    ControlLeavesAudio(second, ys);
  }

  /** A sender comes into use only by the validation of the hazard pointer against the sender in charge. */
  lemma {:induction false} UseIsValidated(actions: seq<Action>, a: Action)
    requires Run(actions + [a]).audio.Using? && Run(actions + [a]).audio != Run(actions).audio
    ensures var s, p := Run(actions), Run(actions + [a]).audio.sender;
      a.AudioMoves? && s.audio == Hazarded(p) && s.hazard == s.realtime == p
  {
    RunGrows(actions, a);
    RunsKeepInv(actions);
  }

  /** What belongs to the control thread. */
  ghost predicate SameControl(s: Engine, t: Engine) {
    && s.control == t.control && s.realtime == t.realtime && s.owner == t.owner
    && s.alive == t.alive && s.running == t.running
  }

  lemma {:induction false} AudioLeavesControl(before: seq<Action>, actions: seq<Action>)
    requires OnlyAudio(actions)
    ensures SameControl(Run(before + actions), Run(before))
  {
    if actions == [] {
      assert before + actions == before;
    } else {
      var front := actions[..|actions| - 1];
      AudioLeavesControl(before, front);
      assert (before + actions)[..|before + actions| - 1] == before + front;
    }
  }

  /**
   A restart that gets an unused address for its new sender puts that one in charge, running, with four
   moves of the control thread, and is then left with the former sender to retire, if there was any.
   */
  lemma {:induction false} RestartPutsNewSenderInCharge(before: seq<Action>, ws: seq<Action>, xs: seq<Action>,
                                                        ys: seq<Action>, address: Pointer)
    requires Run(before).control.Idle? && OnlyAudio(ws) && OnlyAudio(xs) && OnlyAudio(ys)
    requires address != NULL && address !in Run(before).alive
    ensures var s, move := Run(before), [ControlMoves(address)];
      var t := Run(before + [Restarts] + ws + move + xs + move + ys + move);
      && t.realtime == t.owner == address && address in t.running
      && t.alive == s.alive + {address} && t.running == s.running + {address}
      && t.control == if s.realtime == NULL then Idle else Waiting(s.realtime)
  {
    RunsKeepInv(before);
    var move := [ControlMoves(address)];
    var a := before + [Restarts];
    var b := a + ws + move;
    var c := b + xs + move;
    RunGrows(before, Restarts);
    RunGrows(a + ws, ControlMoves(address));
    RunGrows(b + xs, ControlMoves(address));
    RunGrows(c + ys, ControlMoves(address));
    hide Run, AudioMoved;
    AudioLeavesControl(a, ws);
    AudioLeavesControl(b, xs);
    AudioLeavesControl(c, ys);
  }

  /** A shutdown leaves no sender in charge after three moves, and has the former one to retire, if there was any. */
  lemma {:induction false} ShutdownLeavesNobodyInCharge(before: seq<Action>, ws: seq<Action>, xs: seq<Action>,
                                                        address: Pointer)
    requires Run(before).control.Idle? && OnlyAudio(ws) && OnlyAudio(xs)
    ensures var s, move := Run(before), [ControlMoves(address)];
      var t := Run(before + [ShutsDown] + ws + move + xs + move);
      && t.realtime == t.owner == NULL && t.alive == s.alive && t.running == s.running
      && t.control == if s.realtime == NULL then Idle else Waiting(s.realtime)
  {
    RunsKeepInv(before);
    var move := [ControlMoves(address)];
    var a := before + [ShutsDown];
    var b := a + ws + move;
    RunGrows(before, ShutsDown);
    RunGrows(a + ws, ControlMoves(address));
    RunGrows(b + xs, ControlMoves(address));
    hide Run, AudioMoved;
    AudioLeavesControl(a, ws);
    AudioLeavesControl(b, xs);
  }

  /** After the wait, the retired sender is shut down and then deleted, and the sender in charge goes on running. */
  lemma {:induction false} RetiredSenderIsDeleted(before: seq<Action>, xs: seq<Action>, retired: Pointer,
                                                  address: Pointer)
    requires Run(before).control == ShuttingDown(retired) && OnlyAudio(xs)
    ensures var move := [ControlMoves(address)];
      var s, t := Run(before + move), Run(before + move + xs + move);
      && retired !in s.running && retired in s.alive
      && retired !in t.alive && t.control.Idle? && t.realtime == Run(before).realtime
      && (t.realtime != NULL ==> t.realtime in t.running)
  {
    RunsKeepInv(before);
    var a := before + [ControlMoves(address)];
    RunGrows(before, ControlMoves(address));
    RunGrows(a + xs, ControlMoves(address));
    hide Run, AudioMoved;
    AudioLeavesControl(a, xs);
  }

  // ----- the wait ends -----

  /** Moves of the audio thread until its hazard pointer can no longer be `retired`. */
  function MovesToRelease(s: Engine, retired: Pointer): nat {
    match s.audio
    case Using(p) => if p == retired then 1 else 0
    case Loaded(p) => if p == retired then 4 else if s.hazard == retired then 1 else 0
    case Hazarded(p) => if p == retired then 3 else 0
    case Resting => if s.hazard == retired then 2 else 0
  }

  /**
   While the control thread waits, every move of the audio thread brings the end nearer, and
   no other action takes it back: four moves of the audio thread are always enough.
   */
  lemma WaitEnds(s: Engine, a: Action)
    requires Inv(s) && s.control.Waiting?
    ensures var p := s.control.retired;
      && MovesToRelease(s, p) <= 4
      && (MovesToRelease(s, p) == 0 ==> s.hazard != p && Step(s, ControlMoves(NULL)).control == ShuttingDown(p))
      && (a.AudioMoves? && MovesToRelease(s, p) > 0 ==> MovesToRelease(Step(s, a), p) < MovesToRelease(s, p))
      && (MovesToRelease(Step(s, a), p) <= MovesToRelease(s, p))
  {}

  function CountAudio(actions: seq<Action>): nat {
    if actions == [] then 0
    else CountAudio(actions[..|actions| - 1]) + if actions[|actions| - 1].AudioMoves? then 1 else 0
  }

  /** The control thread waits for the same sender all the time. */
  ghost predicate KeepsWaiting(before: seq<Action>, actions: seq<Action>, retired: Pointer) {
    forall k :: 0 <= k <= |actions| ==> Run(before + actions[..k]).control == Waiting(retired)
  }

  /**
   Over runs: while the control thread waits, each move of the audio thread uses up one of at most
   four moves, so that from the fourth on the hazard pointer has left the retired sender for good,
   and the control thread's next look at it ends the wait.
   */
  lemma {:induction false} FourMovesRelease(before: seq<Action>, actions: seq<Action>, retired: Pointer)
    requires KeepsWaiting(before, actions, retired)
    ensures var s := Run(before + actions);
      && (MovesToRelease(s, retired) == 0 || MovesToRelease(s, retired) + CountAudio(actions) <= 4)
      && (CountAudio(actions) >= 4 ==>
            s.hazard != retired && Run(before + actions + [ControlMoves(NULL)]).control == ShuttingDown(retired))
  {
    hide AudioMoved, ControlMoved, Inv, MovesToRelease;
    var all := before + actions;
    RunsKeepInv(all);
    assert actions[..|actions|] == actions;
    WaitEnds(Run(all), AudioMoves);
    assert (all + [ControlMoves(NULL)])[..|all|] == all;
    if actions != [] {
      var n := |actions| - 1;
      var front := actions[..n];
      assert forall k :: 0 <= k <= n ==> front[..k] == actions[..k];
      FourMovesRelease(before, front, retired);
      assert all[..|all| - 1] == before + front;
      RunsKeepInv(before + front);
      WaitEnds(Run(before + front), actions[n]);
    }
  }
}

/**
 The client's receive worker on values (Client/Source/AudioReceiveWorker.cpp): the parts of
 one worker step, and their interleaving with the network thread, which enqueues packets,
 and the audio thread, which takes prepared frames.
 */
module ReceiveModel {
  import opened Packets
  import opened StreamQueueModel

  const INPUT_CAPACITY: nat := 512
  const OUTPUT_CAPACITY: nat := 256

  datatype Frame = Frame(
    left: seq<real>,
    right: seq<real>,
    sourceTimestamp: real,
    generation: nat,
    serverSampleEnd: Counter,
    bpm: real,
    midi: MidiSignal)

  datatype Worker = Worker(
    inbound: seq<Packet>,
    queue: Queue,
    output: seq<Frame>,
    rebufferRequested: bool,
    requestedGeneration: nat,
    activeGeneration: nat,
    streamStarted: bool,
    recovering: bool,
    discarded: nat)

  const NEW_WORKER := Worker([], EMPTY_QUEUE, [], false, 0, 0, false, false, 0)

  /** Prepared frames plus ordered packets. */
  function Combined(w: Worker): nat {
    |w.output| + |w.queue.heap|
  }

  // ----- the other threads -----

  function Enqueued(w: Worker, p: Packet): Worker {
    if |w.inbound| < INPUT_CAPACITY then w.(inbound := w.inbound + [p]) else w
  }

  function FrameTaken(w: Worker): Worker {
    if w.output == [] then w else w.(output := w.output[1..])
  }

  // ----- the parts of a worker step -----

  function ResetApplied(w: Worker): Worker {
    if w.requestedGeneration == w.activeGeneration then w
    else w.(inbound := [], queue := EMPTY_QUEUE, streamStarted := false, recovering := false,
            activeGeneration := w.requestedGeneration)
  }

  function Drained(w: Worker): Worker {
    w.(inbound := [], queue := PushedAll(w.queue, w.inbound))
  }

  function Rebuffered(w: Worker): Worker {
    if w.rebufferRequested then w.(rebufferRequested := false, streamStarted := false, recovering := false) else w
  }

  function OverrunTested(w: Worker, maximum: nat): Worker {
    if Combined(w) > maximum then w.(recovering := true) else w
  }

  predicate MustDiscard(w: Worker, minimum: nat) {
    w.recovering && Combined(w) > minimum && w.queue.heap != []
  }

  function DiscardedOne(w: Worker): Worker
    requires w.queue.heap != []
  {
    w.(queue := Pop(w.queue).queue, discarded := w.discarded + 1)
  }

  /** The discard loop: it ends although fill-ins do not shorten the queue. */
  ghost function DiscardedAll(w: Worker, minimum: nat): Worker
    requires Valid(w.queue)
    decreases Potential(w.queue)
  {
    if !MustDiscard(w, minimum) then w
    else
      PopKeepsValid(w.queue);
      PopDecreasesPotential(w.queue);
      DiscardedAll(DiscardedOne(w), minimum)
  }

  function RecoveryTested(w: Worker, minimum: nat): Worker {
    if w.recovering && Combined(w) <= minimum then w.(recovering := false) else w
  }

  function StartTested(w: Worker, minimum: nat): Worker {
    if !w.streamStarted && |w.queue.heap| >= minimum then w.(streamStarted := true) else w
  }

  /** A frame is prepared exactly under these conditions. */
  predicate Prepares(w: Worker, maximum: nat) {
    && w.streamStarted && !w.recovering
    && |w.output| < maximum
    && |w.output| < OUTPUT_CAPACITY
    && w.queue.heap != []
  }

  /** A channel of the frame: the packet's samples, cut off or padded with zeros to the frame's length. */
  function FrameChannel(a: Audio, channel: nat): (s: seq<real>)
    ensures |s| == SAMPLE_BUFFER_SIZE
  {
    seq(SAMPLE_BUFFER_SIZE, i requires 0 <= i < SAMPLE_BUFFER_SIZE =>
      if channel < |a.channels| && i < a.length then a.channels[channel][i] else 0.0)
  }

  function FrameOf(p: Packet, generation: nat): Frame {
    Frame(FrameChannel(p.block.audio, 0), FrameChannel(p.block.audio, 1),
          p.block.timestamp, generation, p.block.serverTime, p.block.bpm, p.block.midi)
  }

  /** The sample that a frame of packet `p` has at position `i` of a channel: silence where there is none. */
  ghost predicate IsChannel(samples: seq<real>, a: Audio, channel: nat) {
    && |samples| == SAMPLE_BUFFER_SIZE
    && forall i :: 0 <= i < SAMPLE_BUFFER_SIZE ==>
         samples[i] == if channel < |a.channels| && i < a.length then a.channels[channel][i] else 0.0
  }

  /** Frame `f` plays packet `p`. */
  ghost predicate Carries(f: Frame, p: Packet, generation: nat) {
    && IsChannel(f.left, p.block.audio, 0) && IsChannel(f.right, p.block.audio, 1)
    && f.sourceTimestamp == p.block.timestamp && f.serverSampleEnd == p.block.serverTime
    && f.bpm == p.block.bpm && f.midi == p.block.midi
    && f.generation == generation
  }

  lemma FrameCarries(p: Packet, generation: nat)
    ensures Carries(FrameOf(p, generation), p, generation)
  {}

  /** A stereo packet of the usual length is prepared unchanged, and a missing channel is silent. */
  lemma FrameKeepsSamples(p: Packet, generation: nat)
    requires p.block.audio.length == SAMPLE_BUFFER_SIZE
    ensures var f, channels := FrameOf(p, generation), p.block.audio.channels;
      && (|channels| > 0 ==> f.left == channels[0])
      && (|channels| > 1 ==> f.right == channels[1])
      && (|channels| == 0 ==> f.left == seq(SAMPLE_BUFFER_SIZE, _ => 0.0))
      && (|channels| <= 1 ==> f.right == seq(SAMPLE_BUFFER_SIZE, _ => 0.0))
      && f.generation == generation && f.serverSampleEnd == p.block.serverTime
  {}

  function Prepared(w: Worker, maximum: nat): Worker {
    if !Prepares(w, maximum) then w
    else w.(queue := Pop(w.queue).queue,
            output := w.output + [FrameOf(Pop(w.queue).packet, w.activeGeneration)])
  }

  /** The state in which the frame of a step is prepared, if any. */
  ghost function BeforePreparing(w: Worker, minimum: nat, maximum: nat): Worker
    requires Valid(w.queue)
  {
    PartsValid(w);
    var o := OverrunTested(Rebuffered(Drained(ResetApplied(w))), maximum);
    StartTested(RecoveryTested(DiscardedAll(o, minimum), minimum), minimum)
  }

  /** A whole step with nobody interfering. */
  ghost function Stepped(w: Worker, minimum: nat, maximum: nat): Worker
    requires Valid(w.queue)
  {
    Prepared(BeforePreparing(w, minimum, maximum), maximum)
  }

  lemma PartsValid(w: Worker)
    requires Valid(w.queue)
    ensures Valid(ResetApplied(w).queue)
    ensures Valid(Drained(ResetApplied(w)).queue)
  {
    hide Valid;
    EmptyQueueValid();
    PushedAllValid(ResetApplied(w).queue, ResetApplied(w).inbound);
  }

  /** The loop leaves nothing to discard and changes nothing but the queue and the count. */
  lemma {:induction false} DiscardingEnds(w: Worker, minimum: nat)
    requires Valid(w.queue)
    ensures var r := DiscardedAll(w, minimum);
      && Valid(r.queue)
      && !MustDiscard(r, minimum)
      && r == w.(queue := r.queue, discarded := r.discarded)
      && (!MustDiscard(w, minimum) ==> r == w)
      && |r.queue.heap| <= |w.queue.heap|
    decreases Potential(w.queue)
  {
    if MustDiscard(w, minimum) {
      PopKeepsValid(w.queue);
      PopDecreasesPotential(w.queue);
      DiscardingEnds(DiscardedOne(w), minimum);
    }
  }

  // ----- what one undisturbed step does -----

  /** The queue after `n` pops, or as many as it takes to empty it. */
  function PopTimes(q: Queue, n: nat): Queue
    decreases n
  {
    if n == 0 || q.heap == [] then q else PopTimes(Pop(q).queue, n - 1)
  }

  /** How many ordered packets are left of `size` when the total has to come down to `minimum`. */
  function Kept(prepared: nat, size: nat, minimum: nat): nat {
    if prepared + size <= minimum then size else if prepared < minimum then minimum - prepared else 0
  }

  /** The loop pops until the total is down to the minimum or the queue empty, and no further. */
  lemma {:induction false} DiscardPops(w: Worker, minimum: nat) returns (n: nat)
    requires Valid(w.queue) && w.recovering
    ensures var r := DiscardedAll(w, minimum);
      && r == w.(queue := PopTimes(w.queue, n), discarded := w.discarded + n)
      && |r.queue.heap| == Kept(|w.output|, |w.queue.heap|, minimum)
      && Valid(r.queue)
    ensures n > 0 ==> |w.output| + |PopTimes(w.queue, n - 1).heap| > minimum
    decreases Potential(w.queue)
  {
    hide Valid, Pop, DiscardedAll;
    DiscardUnfolds(w, minimum);
    if MustDiscard(w, minimum) {
      PopKeepsValid(w.queue);
      PopDecreasesPotential(w.queue);
      var m := DiscardPops(DiscardedOne(w), minimum);
      n := m + 1;
    } else {
      n := 0;
    }
  }

  lemma DiscardUnfolds(w: Worker, minimum: nat)
    requires Valid(w.queue)
    ensures MustDiscard(w, minimum) ==>
              Valid(DiscardedOne(w).queue) && DiscardedAll(w, minimum) == DiscardedAll(DiscardedOne(w), minimum)
    ensures !MustDiscard(w, minimum) ==> DiscardedAll(w, minimum) == w
  {
    hide Valid, Pop;
    if w.queue.heap != [] {
      PopKeepsValid(w.queue);
    }
  }

  /** A reset or rebuffering is waiting to be applied. */
  predicate StartsOver(w: Worker) {
    w.rebufferRequested || w.requestedGeneration != w.activeGeneration
  }

  /** A frame is appended if and only if the stream plays, a packet is queued, and there is room for the frame. */
  lemma {:induction false} FrameIsAppended(w: Worker, maximum: nat)
    ensures var r := Prepared(w, maximum);
      if w.streamStarted && !w.recovering && w.queue.heap != [] && |w.output| < maximum && |w.output| < 256 then
        && |r.output| == |w.output| + 1 && r.output[..|w.output|] == w.output
        && Carries(r.output[|w.output|], Pop(w.queue).packet, w.activeGeneration)
        && r == w.(queue := Pop(w.queue).queue, output := r.output)
      else
        r == w
  {
    hide Pop, FrameOf, Carries;
    if w.queue.heap != [] {
      FrameCarries(Pop(w.queue).packet, w.activeGeneration);
    }
  }

  ghost predicate Calm(w: Worker, maximum: nat) {
    !w.recovering && !StartsOver(w) && w.inbound == [] && |w.output| + |w.queue.heap| <= maximum
  }

  /**
   A step of a calm worker: the stream is started once enough ordered packets have come, and one frame
   is appended if and only if it is started, a packet is queued, and there is room for the frame.
   */
  lemma {:induction false} CalmStepPrepares(w: Worker, minimum: nat, maximum: nat)
    requires Valid(w.queue) && Calm(w, maximum)
    ensures var started := w.streamStarted || |w.queue.heap| >= minimum;
      var prepares := started && w.queue.heap != [] && |w.output| < maximum && |w.output| < 256;
      var r := Stepped(w, minimum, maximum);
      if prepares then
        && |r.output| == |w.output| + 1 && r.output[..|w.output|] == w.output
        && Carries(r.output[|w.output|], Pop(w.queue).packet, w.activeGeneration)
        && r == w.(streamStarted := started, queue := Pop(w.queue).queue, output := r.output)
      else
        r == w.(streamStarted := started)
  {
    hide Valid, Pop, Carries;
    FrameIsAppended(BeforePreparing(w, minimum, maximum), maximum);
    hide Prepared;
  }

  /** The queue after the arrivals were taken up: a reset drops them, and all that was queued. */
  function Filled(w: Worker): Queue {
    if w.requestedGeneration != w.activeGeneration then EMPTY_QUEUE else PushedAll(w.queue, w.inbound)
  }

  /** The worker finds too much buffered, or is still recovering from that. */
  predicate FindsOverrun(w: Worker, maximum: nat) {
    |w.output| + |Filled(w).heap| > maximum || (w.recovering && !StartsOver(w))
  }

  /**
   Any step before it prepares a frame: the requests are applied, the arrivals taken up in order, an
   overrun discards down to the minimum, and the stream is started if enough is left.
   */
  lemma {:induction false} StepUntilPreparing(w: Worker, minimum: nat, maximum: nat) returns (n: nat)
    requires Valid(w.queue)
    ensures var r := BeforePreparing(w, minimum, maximum);
      && r == Worker([], PopTimes(Filled(w), n), w.output, false, w.requestedGeneration, w.requestedGeneration,
                     (w.streamStarted && !StartsOver(w)) || |r.queue.heap| >= minimum,
                     FindsOverrun(w, maximum) && |w.output| > minimum,
                     w.discarded + n)
      && Valid(r.queue)
      && |r.queue.heap| == if FindsOverrun(w, maximum) then Kept(|w.output|, |Filled(w).heap|, minimum)
                           else |Filled(w).heap|
    ensures n > 0 ==> FindsOverrun(w, maximum) && |w.output| + |PopTimes(Filled(w), n - 1).heap| > minimum
  {
    BeforeDiscarding(w, maximum);
    hide Valid, Pop, DiscardedAll, PopTimes, Filled, FindsOverrun, StartsOver, Kept;
    var o := OverrunTested(Rebuffered(Drained(ResetApplied(w))), maximum);
    hide OverrunTested, Rebuffered, Drained, ResetApplied, MustDiscard, BeforePreparing;
    BeforePreparingInParts(w, minimum, maximum);
    TestedInParts(DiscardedAll(o, minimum), minimum);
    hide StartTested, RecoveryTested;
    if o.recovering {
      n := DiscardPops(o, minimum);
      KeptAtMost(|w.output|, |Filled(w).heap|, minimum);
    } else {
      NothingToDiscard(o, minimum);
      n := 0;
    }
  }

  lemma TestedInParts(w: Worker, minimum: nat)
    ensures StartTested(RecoveryTested(w, minimum), minimum)
         == w.(recovering := w.recovering && |w.output| + |w.queue.heap| > minimum,
               streamStarted := w.streamStarted || |w.queue.heap| >= minimum)
  {}

  lemma BeforePreparingInParts(w: Worker, minimum: nat, maximum: nat)
    requires Valid(w.queue)
    ensures var o := OverrunTested(Rebuffered(Drained(ResetApplied(w))), maximum);
      && Valid(o.queue)
      && BeforePreparing(w, minimum, maximum) == StartTested(RecoveryTested(DiscardedAll(o, minimum), minimum), minimum)
  {
    hide DiscardedAll, StartTested, RecoveryTested, Drained, ResetApplied, Valid;
    PartsValid(w);
  }

  lemma KeptAtMost(prepared: nat, size: nat, minimum: nat)
    ensures prepared + Kept(prepared, size, minimum) <= minimum <==> prepared <= minimum
  {}

  lemma BeforeDiscarding(w: Worker, maximum: nat)
    requires Valid(w.queue)
    ensures var o := OverrunTested(Rebuffered(Drained(ResetApplied(w))), maximum);
      && Valid(o.queue)
      && o == Worker([], Filled(w), w.output, false, w.requestedGeneration, w.requestedGeneration,
                     w.streamStarted && !StartsOver(w), FindsOverrun(w, maximum), w.discarded)
  {
    PartsValid(w);
    hide Valid, PushedAll;
    NothingToPush(EMPTY_QUEUE);
  }

  lemma NothingToPush(q: Queue)
    ensures PushedAll(q, []) == q
  {}

  lemma NothingToDiscard(w: Worker, minimum: nat)
    requires Valid(w.queue) && !w.recovering
    ensures DiscardedAll(w, minimum) == w && PopTimes(w.queue, 0) == w.queue
  {}

  // ----- all threads -----

  /** How far the worker is in its step. */
  datatype Stage = AtRest | WasReset | WasFilled | Positioned | Tested | Discarded | Recovered | Starting

  datatype System = System(worker: Worker, stage: Stage)

  const START := System(NEW_WORKER, AtRest)

  datatype Action =
    | Enqueue(packet: Packet)
    | TakeFrame
    | RequestRebuffer
    | RequestReset
    | WorkerMoves

  /** The worker's next atomic move. The discard loop stays in its stage for each packet. */
  function Moved(s: System, minimum: nat, maximum: nat): System {
    var w := s.worker;
    match s.stage
    case AtRest => System(ResetApplied(w), WasReset)
    case WasReset => System(Drained(w), WasFilled)
    case WasFilled => System(Rebuffered(w), Positioned)
    case Positioned => System(OverrunTested(w, maximum), Tested)
    case Tested =>
      if MustDiscard(w, minimum) then s.(worker := DiscardedOne(w)) else s.(stage := Discarded)
    case Discarded => System(RecoveryTested(w, minimum), Recovered)
    case Recovered => System(StartTested(w, minimum), Starting)
    case Starting => System(Prepared(w, maximum), AtRest)
  }

  function Step(s: System, minimum: nat, maximum: nat, a: Action): System {
    match a
    case Enqueue(p) => s.(worker := Enqueued(s.worker, p))
    case TakeFrame => s.(worker := FrameTaken(s.worker))
    case RequestRebuffer => s.(worker := s.worker.(rebufferRequested := true))
    case RequestReset => s.(worker := s.worker.(requestedGeneration := s.worker.requestedGeneration + 1))
    case WorkerMoves => Moved(s, minimum, maximum)
  }

  function Run(minimum: nat, maximum: nat, actions: seq<Action>): System {
    if actions == [] then START
    else Step(Run(minimum, maximum, actions[..|actions| - 1]), minimum, maximum, actions[|actions| - 1])
  }

  /** How much may be buffered at each stage. */
  ghost predicate Bounded(s: System, minimum: nat, maximum: nat) {
    var w := s.worker;
    && |w.output| <= maximum
    && |w.output| <= OUTPUT_CAPACITY
    && |w.inbound| <= INPUT_CAPACITY
    && match s.stage
       case AtRest => Combined(w) <= maximum + 1
       case WasReset | WasFilled | Positioned => true
       case Tested => w.recovering || Combined(w) <= maximum
       case Discarded => !MustDiscard(w, minimum) && (w.recovering || Combined(w) <= maximum)
       case Recovered | Starting => Combined(w) <= maximum
  }

  ghost predicate Inv(s: System, minimum: nat, maximum: nat) {
    Valid(s.worker.queue) && Bounded(s, minimum, maximum)
  }

  lemma FillingKeepsInv(s: System, minimum: nat, maximum: nat)
    requires (s.stage.AtRest? || s.stage.WasReset? || s.stage.WasFilled?) && Inv(s, minimum, maximum)
    ensures Inv(Moved(s, minimum, maximum), minimum, maximum)
  {
    hide Valid, PushedAll;
    EmptyQueueValid();
    PushedAllValid(s.worker.queue, s.worker.inbound);
  }

  lemma TestingKeepsInv(s: System, minimum: nat, maximum: nat)
    requires s.stage.Positioned? && Inv(s, minimum, maximum)
    ensures Inv(Moved(s, minimum, maximum), minimum, maximum)
  {
    hide Valid;
  }

  lemma DiscardingKeepsInv(s: System, minimum: nat, maximum: nat)
    requires s.stage.Tested? && Inv(s, minimum, maximum)
    ensures Inv(Moved(s, minimum, maximum), minimum, maximum)
  {
    hide Valid, Pop;
    if s.worker.queue.heap != [] {
      PopKeepsValid(s.worker.queue);
    }
  }

  lemma RecoveringKeepsInv(s: System, minimum: nat, maximum: nat)
    requires minimum <= maximum
    requires (s.stage.Discarded? || s.stage.Recovered?) && Inv(s, minimum, maximum)
    ensures Inv(Moved(s, minimum, maximum), minimum, maximum)
  {
    hide Valid;
  }

  lemma PreparingKeepsInv(s: System, minimum: nat, maximum: nat)
    requires s.stage.Starting? && Inv(s, minimum, maximum)
    ensures Inv(Moved(s, minimum, maximum), minimum, maximum)
  {
    hide Valid, Pop, FrameOf;
    if s.worker.queue.heap != [] {
      PopKeepsValid(s.worker.queue);
      PopDecreasesPotential(s.worker.queue);
    }
  }

  lemma MoveKeepsInv(s: System, minimum: nat, maximum: nat)
    requires minimum <= maximum && Inv(s, minimum, maximum)
    ensures Inv(Moved(s, minimum, maximum), minimum, maximum)
  {
    hide Inv, Moved;
    match s.stage
    case AtRest | WasReset | WasFilled => FillingKeepsInv(s, minimum, maximum);
    case Positioned => TestingKeepsInv(s, minimum, maximum);
    case Tested => DiscardingKeepsInv(s, minimum, maximum);
    case Discarded | Recovered => RecoveringKeepsInv(s, minimum, maximum);
    case Starting => PreparingKeepsInv(s, minimum, maximum);
  }

  lemma OthersKeepInv(s: System, minimum: nat, maximum: nat, a: Action)
    requires !a.WorkerMoves? && Inv(s, minimum, maximum)
    ensures Inv(Step(s, minimum, maximum, a), minimum, maximum)
  {
    hide Valid, Pop;
  }

  lemma {:induction false} RunsKeepInv(minimum: nat, maximum: nat, actions: seq<Action>)
    requires minimum <= maximum
    ensures Inv(Run(minimum, maximum, actions), minimum, maximum)
  {
    if actions == [] {
      EmptyQueueValid();
    } else {
      hide Inv, Moved;
      RunsKeepInv(minimum, maximum, actions[..|actions| - 1]);
      var s, a := Run(minimum, maximum, actions[..|actions| - 1]), actions[|actions| - 1];
      if a.WorkerMoves? {
        MoveKeepsInv(s, minimum, maximum);
      } else {
        OthersKeepInv(s, minimum, maximum, a);
      }
    }
  }

  /**
   With a fixed range, in every interleaving of the threads: never more than the maximum is
   prepared, and after a step at most one more than the maximum is buffered altogether.
   */
  lemma {:induction false} BufferingIsBounded(minimum: nat, maximum: nat, actions: seq<Action>)
    requires minimum <= maximum
    ensures var s := Run(minimum, maximum, actions);
      && |s.worker.output| <= maximum
      && |s.worker.output| <= OUTPUT_CAPACITY
      && (s.stage.AtRest? ==> Combined(s.worker) <= maximum + 1)
  {
    RunsKeepInv(minimum, maximum, actions);
    hide Valid, Run;
  }

  // ----- a started stream -----

  /** A started stream is stopped only where the worker applies a reset or a rebuffering. */
  lemma {:induction false} StreamStopsOnRequest(s: System, minimum: nat, maximum: nat, a: Action)
    requires s.worker.streamStarted
    ensures var w := s.worker;
      !Step(s, minimum, maximum, a).worker.streamStarted
      <==> a.WorkerMoves?
           && ((s.stage.AtRest? && w.requestedGeneration != w.activeGeneration)
               || (s.stage.WasFilled? && w.rebufferRequested))
  {
    hide Pop, PushedAll, FrameOf;
  }

  /** In every interleaving, a started stream goes on until a reset or a rebuffering is requested. */
  lemma {:induction false} StartedStreamGoesOn(minimum: nat, maximum: nat, before: seq<Action>, actions: seq<Action>)
    requires Run(minimum, maximum, before).worker.streamStarted
    requires !StartsOver(Run(minimum, maximum, before).worker)
    requires forall k :: 0 <= k < |actions| ==> !actions[k].RequestReset? && !actions[k].RequestRebuffer?
    ensures Run(minimum, maximum, before + actions).worker.streamStarted
    ensures !StartsOver(Run(minimum, maximum, before + actions).worker)
  {
    if actions == [] {
      assert before + actions == before;
    } else {
      hide Run, Pop, PushedAll, FrameOf;
      var front, a := actions[..|actions| - 1], actions[|actions| - 1];
      StartedStreamGoesOn(minimum, maximum, before, front);
      assert before + actions == before + front + [a];
      RunGrows(minimum, maximum, before + front, a);
    }
  }

  // ----- arrivals -----

  function Arrivals(actions: seq<Action>): seq<Packet> {
    if actions == [] then []
    else
      Arrivals(actions[..|actions| - 1])
      + if actions[|actions| - 1].Enqueue? then [actions[|actions| - 1].packet] else []
  }

  /** The first packets, as many as the inbound queue can hold. */
  function Fitting(ps: seq<Packet>): seq<Packet> {
    if |ps| <= 512 then ps else ps[..512]
  }

  /** While the worker does not move, packets wait in the order of their arrival, and the last ones are dropped. */
  lemma {:induction false} ArrivalsWaitInOrder(minimum: nat, maximum: nat, before: seq<Action>, actions: seq<Action>)
    requires minimum <= maximum
    requires forall k :: 0 <= k < |actions| ==> !actions[k].WorkerMoves?
    ensures Run(minimum, maximum, before + actions).worker.inbound
         == Fitting(Run(minimum, maximum, before).worker.inbound + Arrivals(actions))
  {
    RunsKeepInv(minimum, maximum, before);
    var waiting := Run(minimum, maximum, before).worker.inbound;
    hide Valid, Combined;
    if actions == [] {
      assert before + actions == before;
      assert waiting + Arrivals(actions) == waiting;
    } else {
      hide Run, Inv;
      var front, a := actions[..|actions| - 1], actions[|actions| - 1];
      ArrivalsWaitInOrder(minimum, maximum, before, front);
      assert before + actions == before + front + [a];
      RunGrows(minimum, maximum, before + front, a);
      if a.Enqueue? {
        assert waiting + Arrivals(actions) == waiting + Arrivals(front) + [a.packet];
      } else {
        assert waiting + Arrivals(actions) == waiting + Arrivals(front);
      }
    }
  }

  // ----- frames -----

  /** The frames that the audio thread has taken. */
  function TakenFrames(minimum: nat, maximum: nat, actions: seq<Action>): seq<Frame> {
    if actions == [] then []
    else
      var front := actions[..|actions| - 1];
      var output := Run(minimum, maximum, front).worker.output;
      TakenFrames(minimum, maximum, front)
      + if actions[|actions| - 1].TakeFrame? && output != [] then [output[0]] else []
  }

  /** The frames that the worker has appended. */
  function PreparedFrames(minimum: nat, maximum: nat, actions: seq<Action>): seq<Frame> {
    if actions == [] then []
    else
      var front := actions[..|actions| - 1];
      var before, after := Run(minimum, maximum, front).worker.output, Run(minimum, maximum, actions).worker.output;
      PreparedFrames(minimum, maximum, front) + if |after| > |before| then [after[|after| - 1]] else []
  }

  lemma FramesAreOnlyAppended(s: System, minimum: nat, maximum: nat, a: Action)
    ensures var before, after := s.worker.output, Step(s, minimum, maximum, a).worker.output;
      after == if a.TakeFrame? then (if before == [] then [] else before[1..])
               else if |after| > |before| then before + [after[|after| - 1]]
               else before
  {
    hide Pop, PushedAll, FrameOf;
  }

  /** In every interleaving, frames are taken as they were prepared, each once and in order, but for those that wait. */
  lemma {:induction false} FramesComeOutInOrder(minimum: nat, maximum: nat, actions: seq<Action>)
    ensures PreparedFrames(minimum, maximum, actions)
         == TakenFrames(minimum, maximum, actions) + Run(minimum, maximum, actions).worker.output
  {
    hide Step;
    if actions != [] {
      var front, a := actions[..|actions| - 1], actions[|actions| - 1];
      FramesComeOutInOrder(minimum, maximum, front);
      FramesAreOnlyAppended(Run(minimum, maximum, front), minimum, maximum, a);
      var before, after := Run(minimum, maximum, front).worker.output, Run(minimum, maximum, actions).worker.output;
      var taken := TakenFrames(minimum, maximum, front);
      hide Run;
      if a.TakeFrame? && before != [] {
        assert taken + before == taken + [before[0]] + after;
      } else if |after| > |before| {
        assert taken + before + [after[|after| - 1]] == taken + after;
      }
    }
  }

  // ----- the hysteresis of the overrun -----

  /** `a` is what is left of `b` when frames were only taken. */
  ghost predicate IsEndOf(a: seq<Frame>, b: seq<Frame>) {
    |a| <= |b| && a == b[|b| - |a|..]
  }

  predicate IsRequest(a: Action) {
    a.RequestReset? || a.RequestRebuffer?
  }

  /** A recovering worker prepares nothing, and goes on recovering while the total is above the minimum. */
  ghost predicate OnlyTakes(v: Worker, w: Worker) {
    v.recovering && !StartsOver(v) && IsEndOf(v.output, w.output)
  }

  lemma RecoveringMoves(s: System, minimum: nat, maximum: nat)
    requires s.worker.recovering && !StartsOver(s.worker) && Combined(s.worker) > minimum
    ensures OnlyTakes(Moved(s, minimum, maximum).worker, s.worker)
  {
    hide Pop, PushedAll, FrameOf, IsEndOf;
    assert IsEndOf(s.worker.output, s.worker.output) by {
      EndOfItself(s.worker.output);
    }
  }

  lemma EndOfItself(a: seq<Frame>)
    ensures IsEndOf(a, a)
  {}

  lemma EndOfEnd(a: seq<Frame>, b: seq<Frame>, c: seq<Frame>)
    requires IsEndOf(a, b) && IsEndOf(b, c)
    ensures IsEndOf(a, c)
  {}

  lemma OthersOnlyTake(s: System, minimum: nat, maximum: nat, a: Action)
    requires s.worker.recovering && !StartsOver(s.worker) && !IsRequest(a) && !a.WorkerMoves?
    ensures OnlyTakes(Step(s, minimum, maximum, a).worker, s.worker)
  {}

  /** After an overrun was found, and as long as the total stays above the minimum. */
  ghost predicate StaysAbove(minimum: nat, maximum: nat, before: seq<Action>, actions: seq<Action>) {
    forall k :: 0 <= k < |actions| ==>
      !IsRequest(actions[k]) && Combined(Run(minimum, maximum, before + actions[..k]).worker) > minimum
  }

  /**
   Once the worker has found more than the maximum buffered, then in every interleaving, until
   the total was down to the minimum or a reset or rebuffering was requested, no frame is
   prepared: the prepared frames are only ever taken.
   */
  lemma {:induction false} OverrunStopsPreparing(minimum: nat, maximum: nat, before: seq<Action>, actions: seq<Action>)
    requires var s := Run(minimum, maximum, before);
      s.stage.Positioned? && Combined(s.worker) > maximum && !StartsOver(s.worker)
    requires StaysAbove(minimum, maximum, before + [WorkerMoves], actions)
    ensures var t := Run(minimum, maximum, before + [WorkerMoves] + actions);
      OnlyTakes(t.worker, Run(minimum, maximum, before).worker)
  {
    hide OnlyTakes, Moved, Combined, StartsOver, IsRequest, Step, Run;
    var test := before + [WorkerMoves];
    if actions == [] {
      assert test + actions == test;
      RunGrows(minimum, maximum, before, WorkerMoves);
      OverrunIsFound(Run(minimum, maximum, before), minimum, maximum);
    } else {
      var n := |actions| - 1;
      var front := actions[..n];
      assert forall k :: 0 <= k < n ==> front[..k] == actions[..k];
      OverrunStopsPreparing(minimum, maximum, before, front);
      assert test + actions == test + front + [actions[n]];
      RunGrows(minimum, maximum, test + front, actions[n]);
      OneMore(Run(minimum, maximum, test + front), minimum, maximum, actions[n],
              Run(minimum, maximum, before).worker);
    }
  }

  lemma OneMore(s: System, minimum: nat, maximum: nat, a: Action, w: Worker)
    requires OnlyTakes(s.worker, w) && !IsRequest(a) && Combined(s.worker) > minimum
    ensures OnlyTakes(Step(s, minimum, maximum, a).worker, w)
  {
    hide IsEndOf, Moved, Combined, StartsOver, IsRequest;
    var t := Step(s, minimum, maximum, a);
    if a.WorkerMoves? {
      RecoveringMoves(s, minimum, maximum);
    } else {
      OthersOnlyTake(s, minimum, maximum, a);
    }
    EndOfEnd(t.worker.output, s.worker.output, w.output);
  }

  lemma RunGrows(minimum: nat, maximum: nat, actions: seq<Action>, a: Action)
    ensures Run(minimum, maximum, actions + [a]) == Step(Run(minimum, maximum, actions), minimum, maximum, a)
    ensures a.WorkerMoves? ==>
              Run(minimum, maximum, actions + [a]) == Moved(Run(minimum, maximum, actions), minimum, maximum)
  {
    hide Moved;
    assert (actions + [a])[..|actions|] == actions;
  }

  lemma OverrunIsFound(s: System, minimum: nat, maximum: nat)
    requires s.stage.Positioned? && Combined(s.worker) > maximum && !StartsOver(s.worker)
    ensures var t := Moved(s, minimum, maximum);
      OnlyTakes(t.worker, s.worker)
  {}

  /** A recovering worker stays so through an undisturbed step if and only if more than the minimum is prepared. */
  lemma RecoveryEndsWhenPlayedBack(w: Worker, minimum: nat, maximum: nat)
    requires Valid(w.queue)
    ensures var o := OverrunTested(Rebuffered(Drained(ResetApplied(w))), maximum);
      Stepped(w, minimum, maximum).recovering <==> o.recovering && |w.output| > minimum
  {
    hide Valid, Pop, PushedAll, DiscardedAll, FrameOf;
    PartsValid(w);
    DiscardingEnds(OverrunTested(Rebuffered(Drained(ResetApplied(w))), maximum), minimum);
  }

  /** The one packet beyond the maximum is a fill-in, which was prepared without shortening the queue. */
  lemma {:induction false} ExcessIsAFillIn(minimum: nat, maximum: nat, actions: seq<Action>)
    requires minimum <= maximum
    requires Run(minimum, maximum, actions).stage.Starting?
    ensures var w := Run(minimum, maximum, actions).worker;
      Combined(Prepared(w, maximum)) > maximum ==> Prepares(w, maximum) && Pop(w.queue).isFillIn
  {
    RunsKeepInv(minimum, maximum, actions);
    hide Run, FrameOf;
    var w := Run(minimum, maximum, actions).worker;
    if w.queue.heap != [] {
      PopDecreasesPotential(w.queue);
    }
  }

  // ----- a step without interference is a run of moves -----

  /** `n` worker moves in a row. */
  function Moves(s: System, minimum: nat, maximum: nat, n: nat): System
    decreases n
  {
    if n == 0 then s else Moves(Moved(s, minimum, maximum), minimum, maximum, n - 1)
  }

  lemma {:induction false} DiscardMoves(s: System, minimum: nat, maximum: nat) returns (n: nat)
    requires s.stage.Tested? && Valid(s.worker.queue)
    ensures Moves(s, minimum, maximum, n) == s.(worker := DiscardedAll(s.worker, minimum), stage := Discarded)
    decreases Potential(s.worker.queue)
  {
    if MustDiscard(s.worker, minimum) {
      PopKeepsValid(s.worker.queue);
      PopDecreasesPotential(s.worker.queue);
      var m := DiscardMoves(Moved(s, minimum, maximum), minimum, maximum);
      n := m + 1;
    } else {
      n := 1;
      assert Moves(Moved(s, minimum, maximum), minimum, maximum, 0) == Moved(s, minimum, maximum);
    }
  }

  lemma {:induction false} MovesAdd(s: System, minimum: nat, maximum: nat, m: nat, n: nat)
    ensures Moves(s, minimum, maximum, m + n) == Moves(Moves(s, minimum, maximum, m), minimum, maximum, n)
    decreases m
  {
    hide Moved;
    if m > 0 {
      MovesAdd(Moved(s, minimum, maximum), minimum, maximum, m - 1, n);
    }
  }

  lemma ThreeMoves(s: System, minimum: nat, maximum: nat)
    ensures Moves(s, minimum, maximum, 3)
         == Moved(Moved(Moved(s, minimum, maximum), minimum, maximum), minimum, maximum)
  {
    hide Moved;
    var t := Moved(s, minimum, maximum);
    var u := Moved(t, minimum, maximum);
    var v := Moved(u, minimum, maximum);
    assert Moves(v, minimum, maximum, 0) == v;
    assert Moves(u, minimum, maximum, 1) == Moves(v, minimum, maximum, 0);
    assert Moves(t, minimum, maximum, 2) == Moves(u, minimum, maximum, 1);
  }

  /** What the worker's moves come to before the discard loop. */
  lemma MovesBefore(s: System, minimum: nat, maximum: nat) returns (t: System)
    requires s.stage.AtRest?
    ensures t == Moves(s, minimum, maximum, 4)
    ensures t.stage.Tested?
    ensures t.worker == OverrunTested(Rebuffered(Drained(ResetApplied(s.worker))), maximum)
  {
    hide Moves, OverrunTested, Rebuffered, Drained, ResetApplied, Combined;
    ThreeMoves(s, minimum, maximum);
    var r := Moves(s, minimum, maximum, 3);
    MovesAdd(s, minimum, maximum, 3, 1);
    OneMove(r, minimum, maximum);
    t := Moves(s, minimum, maximum, 4);
  }

  lemma OneMove(s: System, minimum: nat, maximum: nat)
    ensures Moves(s, minimum, maximum, 1) == Moved(s, minimum, maximum)
  {
    hide Moved;
    assert Moves(Moved(s, minimum, maximum), minimum, maximum, 0) == Moved(s, minimum, maximum);
  }

  /** What they come to after it. */
  lemma MovesAfter(s: System, minimum: nat, maximum: nat)
    requires s.stage.Discarded?
    ensures Moves(s, minimum, maximum, 3).stage.AtRest?
    ensures Moves(s, minimum, maximum, 3).worker
         == Prepared(StartTested(RecoveryTested(s.worker, minimum), minimum), maximum)
  {
    hide Moves, Prepared, StartTested, RecoveryTested, Prepares, Combined;
    ThreeMoves(s, minimum, maximum);
  }

  /** The undisturbed step is one of the interleavings: the moves of the worker alone. */
  lemma StepIsMoves(s: System, minimum: nat, maximum: nat) returns (n: nat)
    requires s.stage.AtRest? && Valid(s.worker.queue)
    ensures Moves(s, minimum, maximum, n).stage.AtRest?
    ensures Moves(s, minimum, maximum, n).worker == Stepped(s.worker, minimum, maximum)
  {
    hide Moved, Moves, DiscardedAll, Prepared, StartTested, RecoveryTested, Drained, ResetApplied, Valid,
      OverrunTested, Rebuffered, Stepped, BeforePreparing;
    var t := MovesBefore(s, minimum, maximum);
    SteppedInParts(s.worker, minimum, maximum);
    var d := DiscardMoves(t, minimum, maximum);
    var u := t.(worker := DiscardedAll(t.worker, minimum), stage := Discarded);
    MovesAdd(s, minimum, maximum, 4, d);
    MovesAfter(u, minimum, maximum);
    MovesAdd(s, minimum, maximum, 4 + d, 3);
    n := 4 + d + 3;
  }

  lemma SteppedInParts(w: Worker, minimum: nat, maximum: nat)
    requires Valid(w.queue)
    ensures var o := OverrunTested(Rebuffered(Drained(ResetApplied(w))), maximum);
      && Valid(o.queue)
      && Stepped(w, minimum, maximum)
         == Prepared(StartTested(RecoveryTested(DiscardedAll(o, minimum), minimum), minimum), maximum)
  {
    hide DiscardedAll, Prepared, StartTested, RecoveryTested, Drained, ResetApplied, Valid;
    PartsValid(w);
  }
}

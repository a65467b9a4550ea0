# JammerNetz: proofs about its real-time core

JammerNetz lets musicians play together over a network. Clients send numbered audio packets to
a server; the server mixes them for each client and sends the mixes back. This project models
the parts of that path in which ordering, timing and concurrency decide whether anybody hears
the right thing, and proves what they guarantee:

- **The jitter-buffer pipeline of the server.** `Packets`, `StreamQueueModel`, `StreamQueueRuns`
  and `PacketStreamQueue` (reordering, duplicates, concealment of gaps, fast-forward),
  `ClientModel` and `ClientState` (connections, grace period, prefill), `MixModel` and
  `ServerMixerCore` (a mix for each receiver), `EchoPath` (what becomes of the wish for no echo),
  `SchedulerModel` and `ServerMixScheduler` (pressure,
  barrier, pop, underrun), `ServerProtocol` (the accept thread and the mixer thread, interleaved)
  and `StepRefinement` (the scheduler's step is one of these interleavings).
- **The client's receive path.** `ReceiveModel` and `AudioReceiveWorker` (the worker that prepares
  frames, interleaved with the network and the audio thread), `PlayoutModel`, `MidiClock` and
  `AudioEnginePlayout` (the ring of timing markers and the MIDI clock).
- **Forward error correction from end to end.** `RingOfAudioBuffers`, `SendThread`, `WireFormat`
  and `FecHealing`.
- **Two lock-free lifetime protocols** of the audio engine: `MidiSenderLifetime` (a hazard pointer)
  and `CallbackGate` (callbacks against shutdown).
- **The search for the path's packet size**, `PathMtuModel` and `PathMtuDiscovery`, and **streaming
  moments**, `MomentModel` and `RunningStats`.

Where the source has an object whose methods update it, there is a class; each of its methods is
proved to do what a function on values says, and the properties are proved of these functions and
of all runs of them. Message counters and server times are unsigned 64-bit integers that wrap
around; samples, gains, tempos and moments are real numbers. Times are integers in milliseconds.

`dafny verify dfyconfig.toml` checks the project.

## What the proofs show about the code

Some properties that one might expect hold only under a condition, which is proved exactly:

- The first packet of a client gets its full silent padding if and only if its counter is larger
  than the number of padding packets (`ClientModel.PrefillIsComplete`).
- After a gap of two or more packets, the packet that ends the gap is played as silence, unless the
  second fill-in came from redundant data: the fill-in and the queued packet share one sample buffer,
  which is cleared (`StreamQueueRuns.DeliveredSamples`).
- A configured maximum that does not exceed the jitter buffer starves every session of two or more
  clients (`SchedulerModel.StarvedExactlyWhenMaximumTooSmall`).
- Pressure leaves a client exactly as many packets as the jitter buffer holds, one too few to be ready:
  a step that has to fast-forward an active client serves nobody in a session of several
  (`SchedulerModel.PressureKeepsTheNewest`, `SchedulerModel.OverfullQueueHoldsSessionBack`).
- A packet that arrives in the grace period makes the client connected again even if the queue
  rejects it as too late, and its queue then is empty if and only if that is so
  (`ServerProtocol.RecoveryMayStayEmpty`).
- A step marks a connected client if and only if the pressure pass leaves its queue empty and either
  no other client is active or the jitter buffer is configured with a negative depth
  (`SchedulerModel.MarkedExactlyWhenAloneAndEmpty`), and disconnects a client if and only if its
  grace period is over, whatever the barrier says (`SchedulerModel.DisconnectedExactlyWhenGraceIsOver`). So a silent client that is alone, among any
  number of disconnected ones, is disconnected in the end
  (`SchedulerModel.LonelySilentClientIsDisconnected`), while together with another connected client
  it keeps the whole session stuck for good (`SchedulerModel.SilentSessionStaysStuck`), whatever the
  others send (`ServerProtocol.SilentClientStaysStuck`).
- The flag by which a client asks for no echo is written to the wire and not read again: a block
  survives the transfer if and only if the flag is not set (`WireFormat.MainBlockSurvives`), and the
  server receives the same packet whatever the flag was (`EchoPath.EchoFlagNeverArrives`). Every
  client gets the echo of all its channels that are neither muted nor send-only, and hears exactly
  the others if and only if that echo is zero (`EchoPath.WireHearsOthersAndEcho`). The mixer would
  honour the flag (`MixModel.EchoOffHearsOnlyOthers`), but no packet that arrives has it set; a
  client can only mute its channels or send them as send-only (`EchoPath.QuietChannelsHaveNoEcho`).
- The loops that read a received block stay inside its buffer if and only if every received vector
  with samples belongs to a declared channel and fits the declared length, repeated; they compare
  neither (`WireFormat.BlockStaysInsideExactlyWhenItFits`, `WireFormat.UndeclaredChannelIsOutside`).
- A recovering receive worker stays so through an undisturbed step if and only if more frames than
  the minimum are prepared (`ReceiveModel.RecoveryEndsWhenPlayedBack`).
- Merging two empty accumulators gives moments that are not numbers. Hence merging agrees with
  concatenation if and only if there is a value, and is associative except where only one of the two
  orders begins with two empty ones (`MomentModel.MergeIsConcatenation`, `MomentModel.MergeAssociates`).

The comments beside the constants call the server's jitter buffer 20 ms deep (common/BuffersConfig.h:19-20);
the constant is computed from 10 ms. The model takes the depth as a parameter.

## Model

| member | source | states |
|---|---|---|
| Packets.RewindIsExact | common/JammerNetzPackage.cpp:180-185 | the overflow guard computes the exact server time of a missing frame, cut off at zero |
| Packets.FillInTimeIsContiguous | common/JammerNetzPackage.cpp:171-187 | a fill-in without redundant data gets the server time that the lost packet had, wherever the stream of server times began, and no transport command |
| StreamQueueModel.InsertSorted | common/PacketStreamQueue.cpp:20-22 | a new counter keeps the priority queue strictly ordered |
| StreamQueueModel.PushKeepsValid | common/PacketStreamQueue.cpp:17-51 | push keeps the queue invariant, and no arrival overtakes the packet due after a second fill-in |
| StreamQueueModel.ConcealSteps | common/PacketStreamQueue.cpp:81-107 | the 64-bit counter arithmetic of a fill-in never wraps, its counter lies strictly inside the gap, and the queued counters stay as they are |
| StreamQueueModel.PopKeepsValid | common/PacketStreamQueue.cpp:53-108 | pop keeps the invariant and emits a counter above the last one |
| StreamQueueModel.FastForwardKeepsValid | common/PacketStreamQueue.cpp:110-147 | fast-forward keeps the invariant and never moves the last counter back |
| StreamQueueModel.FastForwardSplits | common/PacketStreamQueue.cpp:115-121 | exactly the oldest surplus packets are discarded |
| StreamQueueModel.FastForwardBounds | common/PacketStreamQueue.cpp:130-140 | what is discarded lies between the last counters before and after |
| StreamQueueModel.FastForwardAccepts | common/PacketStreamQueue.cpp:127-140 | after a fast-forward exactly the packets above the oldest kept one, or above the newest discarded one if none is kept, are new, unless they are queued |
| StreamQueueModel.PopDecreasesPotential | common/PacketStreamQueue.cpp:62-107 | every pop lowers 3 * size - gap, although a fill-in leaves the size as it is |
| StreamQueueModel.ArrivalOrderIsIrrelevant | common/PacketStreamQueue.cpp:17-29 | any two orders of arrival of the same new packets leave the same queue |
| StreamQueueRuns.RunKeepsInv | common/PacketStreamQueue.cpp:17-170 | every run of pushes, pops, fast-forwards and resets keeps the whole invariant of the queue and of the log since the last reset |
| StreamQueueRuns.AtMostTwoFillIns | common/PacketStreamQueue.cpp:85-103 | no run emits three fill-ins in a row; a pending gap means that a packet is queued, and after the second fill-in it comes next |
| StreamQueueRuns.EmissionsRise | common/PacketStreamQueue.cpp:62-107 | emitted counters strictly increase and stay below everything queued |
| StreamQueueRuns.AcceptedPacketsAreConserved | common/PacketStreamQueue.cpp:17-147 | the accepted packets are at all times the disjoint union of those queued, delivered as real and discarded, and the seen-set is the set of queued counters |
| StreamQueueRuns.EmissionsFollowTheReference | common/PacketStreamQueue.cpp:81-107 | the sequence of real packets and fill-ins is the one that an independent description of gap concealment gives for the delivered counters |
| StreamQueueRuns.QualityCountersBalance | common/PacketStreamQueue.cpp:21-22 | pushed - popped is the size, and dropped + healed is the number of fill-ins and of fast-forwarded packets |
| StreamQueueRuns.DeliveredSamples | common/PacketStreamQueue.cpp:95-101 | exactly when a delivered packet has lost its samples to the clearing of a fill-in |
| StreamQueueRuns.FirstFillInRepeats | common/JammerNetzPackage.cpp:162-192 | over all runs: the first fill-in of a gap is the matching redundant block of the packet that ends the gap, or else repeats that packet's samples, tempo, time stamp and setup |
| StreamQueueRuns.SecondFillInIsSilent | common/PacketStreamQueue.cpp:95-101 | over all runs: the second fill-in directly precedes the packet that ends the gap, and is silent, in a buffer of the shape of its source block |
| StreamQueueRuns.StatisticsAreTrue | common/PacketStreamQueue.cpp:17-107 | over all runs since the last reset: the late, duplicate, healed and out-of-order counters, the widest reversal and the longest stretch of fill-ins are what an independent count of the operations gives |
| StreamQueueRuns.RebaseResumesAtOldestKept | common/PacketStreamQueue.cpp:127-140 | after a fast-forward the next pop is the oldest retained packet and real, whatever is pushed in between |
| StreamQueueRuns.DrainingDeliversEverything | common/PacketStreamQueue.cpp:53-108 | popping until the queue is empty terminates, delivers every queued packet in order and leaves no gap |
| PacketStreamQueues.PacketStreamQueue.HasBeenPushedBefore | common/PacketStreamQueue.cpp:187-202 | which packets are rejected, and which counter records it |
| PacketStreamQueues.PacketStreamQueue.Push | common/PacketStreamQueue.cpp:17-29 | the object does what the model's push says and keeps the invariant |
| PacketStreamQueues.PacketStreamQueue.TryPop | common/PacketStreamQueue.cpp:53-108 | the object does what the model's pop says, with both concealment branches |
| PacketStreamQueues.PacketStreamQueue.FastForwardToSize | common/PacketStreamQueue.cpp:110-147 | the discarding loop leaves the model's fast-forwarded queue and reports the number and the oldest retained counter |
| PacketStreamQueues.FastForwardReportIsTrue | common/PacketStreamQueue.cpp:113-147 | the report has the number of packets that are gone, and the counter of the oldest that is left, if any |
| PacketStreamQueues.PacketStreamQueue.Reset | common/PacketStreamQueue.cpp:149-170 | the object is as new |
| ClientModel.ClientPushValid | Server/Source/ClientState.cpp:15-50 | a packet keeps the client valid, also through padding and reconnection |
| ClientModel.PressureBounds | Server/Source/ClientState.cpp:62-77 | pressure bounds the queue and leaves a queue within the bound alone |
| ClientModel.PrefillIsComplete | Server/Source/ClientState.cpp:36-49 | the padding of the first packet is complete if and only if its counter exceeds the prefill count, and then the queue is exactly the padding and the packet |
| ClientModel.PaddingIsSilent | common/JammerNetzPackage.cpp:194-206 | padding has the first packet's shape, time stamp and setup, zero samples, and no tempo, server time, transport command or redundant block |
| ClientModel.ReturningClientGetsNoPadding | Server/Source/ClientState.cpp:15-50 | a returning client starts over with its packet alone, and a connected one goes on with its queue, whatever the prefill count; both are connected, with the next generation |
| ClientModel.OnlyFirstPacketIsPadded | Server/Source/ClientState.cpp:15-50 | over the whole life of a client: the generation counts its packets, and it counts as having connected exactly from the first one on |
| ClientModel.TransitionTells | Server/Source/ClientState.cpp:19-28 | each reported transition, if and only if it happened |
| ClientStates.ClientState.Push | Server/Source/ClientState.cpp:15-50 | the object does what the model's push says, and reports acceptance and the transition |
| ClientStates.ClientState.Prefill | Server/Source/ClientState.cpp:36-47 | the stack of backward padding is pushed lowest counter first |
| ClientStates.ClientState.TryPop | Server/Source/ClientState.cpp:52-60 | a pop succeeds exactly for a connected client with a packet, and reports the generation observed |
| ClientStates.ClientState.ApplyQueuePressure | Server/Source/ClientState.cpp:62-77 | fast-forward above the maximum only, with the snapshots before and after |
| ClientStates.ClientState.MarkUnderrun | Server/Source/ClientState.cpp:94-102 | only a connected client whose generation is still the observed one is marked |
| ClientStates.ClientState.DisconnectIfGraceExpired | Server/Source/ClientState.cpp:104-112 | disconnection exactly when the grace period is over |
| MixModel.MixPlusWithheldIsTotal | Server/Source/ServerMixerCore.cpp:76-140 | each receiver's mix plus what it is spared of itself is one total for all receivers |
| MixModel.EchoOffHearsOnlyOthers | Server/Source/ServerMixerCore.cpp:92-138 | the mixer gives the sender of a packet with the flag set exactly the total of the others |
| MixModel.OutsiderHearsAllChannels | Server/Source/ServerMixerCore.cpp:101-138 | a receiver that sends nothing hears on each side the sum of sample times volume over all sent and declared channels for that side or for both, of all packets of the mix's length |
| MixModel.SendOnlyIsWithheld | Server/Source/ServerMixerCore.cpp:101-138 | a receiver is spared the same sum over its own send-only channels, or over all if it wants no echo |
| MixModel.OthersPlusEcho | Server/Source/ServerMixerCore.cpp:34-71 | a receiver hears that sum over the others, plus its own channels for the side that are not send-only unless it wants no echo |
| EchoPath.EchoFlagNeverArrives | common/JammerNetzPackage.cpp:351-387 | whatever the flag of a sent packet, the server receives the same packet, without it |
| EchoPath.WireHearsOthersAndEcho | Server/Source/ServerMixerCore.cpp:92-138 | with packets that came over the wire, the echo is that of all own channels neither muted nor send-only, and the receiver hears exactly the others if and only if it is zero |
| EchoPath.QuietChannelsHaveNoEcho | Server/Source/ServerMixerCore.cpp:105-131 | channels that are muted or send-only have no echo |
| EchoPath.UnwantedEcho | common/JammerNetzPackage.cpp:265 | a client that asks for no echo and gets it |
| MixModel.MixIgnoresOrder | Server/Source/ServerMixerCore.cpp:41-55 | the order of the clients does not matter to the samples |
| MixModel.StopWins | Server/Source/ServerMixerCore.cpp:49-54 | a stop wins over any start, a start over silence |
| MixModel.FastestWins | Server/Source/ServerMixerCore.cpp:38-48 | the fastest positive tempo is chosen |
| MixModel.ControlIgnoresOrder | Server/Source/ServerMixerCore.cpp:48-59 | tempo and transport do not depend on the order of the clients |
| ServerMixerCores.MixStepConserves | Server/Source/ServerMixerCore.cpp:20-74 | conservation for every receiver and sample of a whole step, and the same time, tempo and transport for all |
| ServerMixerCores.EveryReceiverHears | Server/Source/ServerMixerCore.cpp:20-138 | for every receiver of a step: two channels of the step's length, with the explicit sums of the others' channels for each side and of its own echo |
| ServerMixerCores.MixIsLabelled | Server/Source/ServerMixerCore.cpp:57-71 | every block of a mix has the mixdown setup, the new server time, the fastest positive tempo or the last one known, and the signal of the session |
| ServerMixerCores.MixAnswersInOrder | Server/Source/ServerMixerCore.cpp:61-71 | one outgoing block for each input, with its address, counter and time stamp |
| ServerMixerCores.ServerTimeCountsSamples | Server/Source/ServerMixerCore.cpp:22-32 | over any number of mixes the server time is the number of samples mixed, modulo 2^64 |
| ServerMixerCores.TempoIsRemembered | Server/Source/ServerMixerCore.cpp:57-59 | over any number of mixes the tempo is the fastest of the latest mix in which anybody sent a positive one, and 120 before |
| ServerMixerCores.ComplaintsAreDeserved | Server/Source/ServerMixerCore.cpp:82-100 | a mix complains exactly of packets without channels, of another length, or with another number of channels than declared, once for each receiver |
| ServerMixerCores.SessionSetupOmitsOnlyReceiver | Server/Source/ServerMixerCore.cpp:37-47 | what a receiver is told of the session, and its own channels, are together all channels |
| ServerMixerCores.EveryReceiverIsToldOfOthers | Server/Source/ServerMixerCore.cpp:37-70 | each receiver of a mix is told of all channels of all the others, in their order |
| ServerMixerCores.BufferMixdown | Server/Source/ServerMixerCore.cpp:76-140 | the loop adds exactly one packet's contribution in place, and gives its diagnostics; `OthersPlusEcho` says what the contributions sum up to |
| ServerMixerCores.ServerMixerCore.Mix | Server/Source/ServerMixerCore.cpp:20-74 | the object's mix, server time and tempo are those of the model, of which `EveryReceiverHears` gives the samples |
| SchedulerModel.PressureIsLocal | Server/Source/ServerMixScheduler.cpp:40-62 | the pressure pass bounds every queue and touches only oversized clients and those past their grace |
| SchedulerModel.PressureKeepsTheNewest | Server/Source/ServerMixScheduler.cpp:35-61 | a queue above the maximum keeps its newest packets, as many as the jitter buffer holds but at most the maximum, and is then not ready; any other client that is not past its grace is left alone |
| SchedulerModel.OverfullQueueHoldsSessionBack | Server/Source/ServerMixScheduler.cpp:35-69 | a step that has to fast-forward an active client serves nobody in a session of several |
| SchedulerModel.AllOrNothing | Server/Source/ServerMixScheduler.cpp:64-107 | with several active clients, either all give one packet, keep the jitter buffer and stay unmarked, or nobody is touched |
| SchedulerModel.StarvedExactlyWhenMaximumTooSmall | Server/Source/ServerMixScheduler.cpp:35-61 | no client can be ready after the pressure pass if and only if the maximum does not exceed the jitter buffer |
| SchedulerModel.StarvedSessionsNeverMix | Server/Source/ServerMixScheduler.cpp:64-69 | with such a configuration a step serves nobody in a session of several clients |
| SchedulerModel.SilentPeerBlocksSession | Server/Source/ServerMixScheduler.cpp:64-69 | a step leaves a session of several clients alone, and the silent one unmarked, if one of them is silent |
| SchedulerModel.MarkedExactlyWhenAloneAndEmpty | Server/Source/ServerMixScheduler.cpp:64-107 | a step marks a connected client if and only if its queue is empty after the pressure pass and no other client is active, or the jitter depth is negative |
| SchedulerModel.DisconnectedExactlyWhenGraceIsOver | Server/Source/ServerMixScheduler.cpp:40-46 | a step leaves a client disconnected if and only if it was or its grace period is over, in a blocked step too |
| SchedulerModel.SilentSessionStaysStuck | Server/Source/ServerMixScheduler.cpp:64-69 | over any number of steps without arrivals, one silent client among several connected ones is neither served nor marked |
| SchedulerModel.LonelySilentClientIsDisconnected | Server/Source/ServerMixScheduler.cpp:40-107 | over a run of steps without arrivals, a client that alone is connected is emptied, marked and disconnected |
| SchedulerModel.WakingAgainTerminates | Server/Source/ServerMixScheduler.cpp:85-90 | without arrivals, every step that pops lowers the total potential |
| SchedulerModel.SelfWakesAreBounded | Server/Source/ServerMixScheduler.cpp:85-90 | without arrivals, the mixer asks for another step at most as many times in a row as the total potential |
| ServerMixSchedulers.PressurePass | Server/Source/ServerMixScheduler.cpp:40-62 | the first loop brings all objects to the model's states and reports disconnections, fast-forwards, both counts and the queues before and after |
| ServerMixSchedulers.PopPass | Server/Source/ServerMixScheduler.cpp:77-95 | the second loop pops every client once and reports packets, fill-ins and observed generations |
| ServerMixSchedulers.UnderrunPass | Server/Source/ServerMixScheduler.cpp:97-107 | the third loop marks exactly the observed clients and observes all queues after it |
| ServerMixSchedulers.IncomingIsWhatWasPopped | Server/Source/ServerMixScheduler.cpp:85-86 | the mixer gets one packet of each client that could be popped, ordered by name, and nothing else |
| ServerMixSchedulers.EmplaceOnce | Server/Source/ServerMixScheduler.cpp:86 | a name that has its input already keeps it |
| ServerMixSchedulers.ObservedClients | Server/Source/ServerMixScheduler.cpp:92-94 | exactly the active clients that gave nothing are observed, with their generation |
| ServerMixSchedulers.WakesExactlyAfterFillIns | Server/Source/ServerMixScheduler.cpp:85-90 | a step asks for another one if and only if it popped a fill-in |
| ServerMixSchedulers.QueuesAfterShowTheStep | Server/Source/ServerMixScheduler.cpp:57-107 | the observations after a step, blocked or not, are exactly those of the clients it leaves behind |
| ServerMixSchedulers.PressureReportIsTrue | Server/Source/ServerMixScheduler.cpp:40-62 | the report names exactly the clients whose grace is over and those that had to be fast-forwarded, and shows each queue as it was before the pressure |
| ServerMixSchedulers.PopReportIsTrue | Server/Source/ServerMixScheduler.cpp:78-104 | the report names exactly the clients whose fill-in was popped, and the connected clients that gave nothing |
| ServerMixSchedulers.TriggerTells | Server/Source/ServerMixScheduler.cpp:64-75 | a step mixes for the only active client, or for several that all hold more than the jitter buffer, and says which |
| ServerMixSchedulers.PoppedClientsGetMixes | Server/Source/ServerMixScheduler.cpp:64-107 | a blocked step sends nothing; any other answers the popped packet of each client that gave one, and nothing else |
| ServerMixSchedulers.ServerMixScheduler.Process | Server/Source/ServerMixScheduler.cpp:28-111 | the whole step over the objects: the clients' new states and the complete result |
| ServerProtocol.DisconnectLosesNothing | Server/Source/ClientState.cpp:52-112 | in every interleaving of arrivals with the mixer's operations, a client in its grace period has an empty queue, and every accepted packet is queued, delivered or fast-forwarded over |
| ServerProtocol.RecoveryMayStayEmpty | Server/Source/ClientState.cpp:26-32 | recovery from the grace period, and exactly when the queue stays empty in spite of it |
| ServerProtocol.RunsKeepBarrier | Server/Source/ServerMixScheduler.cpp:58-95 | in every interleaving, the clients counted as ready stay ready until they are popped |
| ServerProtocol.CountedClientsAreServed | Server/Source/ServerMixScheduler.cpp:64-107 | in every interleaving, once several clients pass the barrier each of them gives a packet, keeps the jitter buffer and is not marked |
| ServerProtocol.StarvedSessionsAreNeverServed | Server/Source/ServerMixScheduler.cpp:35-69 | with a maximum that does not exceed the jitter buffer, in every interleaving, no client is popped or marked in a step that counted several |
| ServerProtocol.SilentClientStaysStuck | Server/Source/ServerMixScheduler.cpp:40-69 | in every interleaving with arrivals for the others, a silent client that every decision counts together with another one is never served, marked or disconnected, and nobody is served |
| StepRefinement.StepIsARun | Server/Source/ServerMixScheduler.cpp:28-111 | the scheduler's step is a run of the interleaved protocol without arrivals, from every reachable idle state |
| ReceiveModel.DiscardingEnds | Client/Source/AudioReceiveWorker.cpp:122-128 | the discard loop ends with nothing left to discard, and changes only the queue and the count |
| ReceiveModel.BufferingIsBounded | Client/Source/AudioReceiveWorker.cpp:101-141 | in every interleaving of the three threads: at most the maximum is prepared, and at most one more is buffered after a step |
| ReceiveModel.OverrunStopsPreparing | Client/Source/AudioReceiveWorker.cpp:116-141 | in every interleaving, from the moment an overrun was found until the total was down to the minimum or a reset or rebuffering was requested, prepared frames are only taken and none is added |
| ReceiveModel.RecoveryEndsWhenPlayedBack | Client/Source/AudioReceiveWorker.cpp:116-131 | a step ends the recovery if and only if no more than the minimum is prepared |
| ReceiveModel.ExcessIsAFillIn | Client/Source/AudioReceiveWorker.cpp:138-141 | the one packet above the maximum comes from preparing a fill-in |
| ReceiveModel.FrameKeepsSamples | Client/Source/AudioReceiveWorker.cpp:176-194 | a stereo packet of 128 samples becomes a frame unchanged, and missing channels are silent |
| ReceiveModel.CalmStepPrepares | Client/Source/AudioReceiveWorker.cpp:101-141 | an undisturbed step without overrun or request starts the stream at the minimum, and appends one frame of the popped packet if and only if it is started, a packet is queued and there is room |
| ReceiveModel.StepUntilPreparing | Client/Source/AudioReceiveWorker.cpp:101-135 | any undisturbed step: requests applied, arrivals taken up, an overrun discarded down to the minimum and no further, the exact count of discarded packets, recovery and start |
| ReceiveModel.FrameIsAppended | Client/Source/AudioReceiveWorker.cpp:137-204 | one frame with the popped packet's samples, tempo, command and times is appended if and only if the stream plays, a packet is queued and there is room; nothing changes otherwise |
| ReceiveModel.StreamStopsOnRequest | Client/Source/AudioReceiveWorker.cpp:101-155 | a started stream is stopped exactly where the worker applies a reset or a rebuffering |
| ReceiveModel.StartedStreamGoesOn | Client/Source/AudioReceiveWorker.cpp:101-155 | in every interleaving a started stream goes on until one is requested |
| ReceiveModel.ArrivalsWaitInOrder | Client/Source/AudioReceiveWorker.cpp:36-41 | packets wait in the order of arrival, up to 512, and later ones are dropped |
| ReceiveModel.FramesComeOutInOrder | Client/Source/AudioReceiveWorker.cpp:43-48 | in every interleaving frames are taken as they were prepared, each once and in order |
| ReceiveModel.StepIsMoves | Client/Source/AudioReceiveWorker.cpp:101-141 | the worker's undisturbed step is one of the interleavings |
| AudioReceiveWorkers.AudioReceiveWorker.Enqueue | Client/Source/AudioReceiveWorker.cpp:36-41 | a packet is queued up to the capacity of 512, or counted as an overrun |
| AudioReceiveWorkers.AudioReceiveWorker.SetPlayoutRange | Client/Source/AudioReceiveWorker.cpp:50-54 | the range is never inverted |
| AudioReceiveWorkers.AudioReceiveWorker.ProcessNextFrame | Client/Source/AudioReceiveWorker.cpp:101-141 | the object does what the model's step says, and reports whether a frame was prepared |
| AudioReceiveWorkers.AudioReceiveWorker.ApplyResetIfRequested | Client/Source/AudioReceiveWorker.cpp:143-155 | a reset empties both queues and adopts the generation; without one nothing changes |
| AudioReceiveWorkers.AudioReceiveWorker.DrainInbound | Client/Source/AudioReceiveWorker.cpp:157-163 | every waiting packet is pushed, in order |
| AudioReceiveWorkers.AudioReceiveWorker.DiscardDownTo | Client/Source/AudioReceiveWorker.cpp:125-127 | the loop, with the potential as its bound |
| AudioReceiveWorkers.AudioReceiveWorker.PrepareOneFrame | Client/Source/AudioReceiveWorker.cpp:165-204 | one frame of the popped packet, tagged with the active generation, unless the output is full |
| PathMtuModel.SearchFindsTheLimit | Client/Source/PathMtuDiscovery.cpp:42-145 | for every path limit: the search ends after 52 late polls with the largest multiple of 8 not above the limit and 16384, or fails reporting 1200 if the limit is smaller |
| PathMtuModel.SearchStaysBracketed | Client/Source/PathMtuDiscovery.cpp:100-145 | with arbitrary acknowledgements: safe < candidate <= upper while halving, all multiples of 8 |
| PathMtuModel.SafeSizeWasAcknowledged | Client/Source/PathMtuDiscovery.cpp:76-88 | a safe size other than zero is the payload of the last accepted probe; each probe was sent and is accepted at most once |
| PathMtuModel.OnlyLiveProbesCount | Client/Source/PathMtuDiscovery.cpp:78-81 | an acknowledgement has an effect exactly when it answers the last transmission and that is still awaited |
| PathMtuModel.FewProbes | Client/Source/PathMtuDiscovery.cpp:42-74 | at most 17 probes, each sent at most three times with one size |
| PathMtuModel.ProbesArePaced | Client/Source/PathMtuDiscovery.cpp:42-88 | whatever the times of polls and acknowledgements: retransmissions are at least half a second apart, a probe is given up half a second after exactly three transmissions, and an acknowledgement is followed by half a second without a probe |
| PathMtuModel.WithdrawnSearchIsSilent | Client/Source/PathMtuDiscovery.cpp:17-40 | without support and after a failure nothing is sent or accepted, and the safe size stays |
| PathMtuModel.SearchEnds | Client/Source/PathMtuDiscovery.cpp:42-74 | 52 polls after deadline and pause end the search, whatever is lost or acknowledged |
| PathMtuModel.WorstIsLogarithmic | Client/Source/PathMtuDiscovery.cpp:132-145 | halving 2^k sizes takes at most k + 1 probes in the worst case |
| PathMtuDiscoveries.PathMtuDiscovery.SetSupported | Client/Source/PathMtuDiscovery.cpp:17-34 | withdrawing support, and starting a new search only when it was withdrawn |
| PathMtuDiscoveries.PathMtuDiscovery.Poll | Client/Source/PathMtuDiscovery.cpp:42-74 | the object does what the model's poll says and returns the probe to send, if any |
| PathMtuDiscoveries.PathMtuDiscovery.Acknowledge | Client/Source/PathMtuDiscovery.cpp:76-88 | the object does what the model says and reports acceptance |
| PathMtuDiscoveries.PathMtuDiscovery.SelectNextGrowthTarget | Client/Source/PathMtuDiscovery.cpp:121-130 | the loop finds the first target above the safe size |
| PathMtuDiscoveries.PathMtuDiscovery.SelectBinarySearchTarget | Client/Source/PathMtuDiscovery.cpp:132-145 | the aligned middle, or completion |
| MomentModel.Shift | common/RunningStats.cpp:16-31 | moving the centre changes the sums of powers by the binomial theorem |
| MomentModel.PushExtends | common/RunningStats.cpp:16-31 | a push turns the mean and the three central sums of a sequence into those of the extended sequence |
| MomentModel.StreamIsBatch | common/RunningStats.cpp:10-31 | one pass gives the moments of all values |
| MomentModel.MergeIsConcatenation | common/RunningStats.cpp:63-92 | merging equals concatenation in all four moments if and only if there is a value |
| MomentModel.MergeContinuesStream | common/RunningStats.cpp:63-92 | a stream may be cut in two, accumulated separately and merged |
| MomentModel.MergeCommutes | common/RunningStats.cpp:63-92 | merging is commutative on all states that streams reach |
| MomentModel.MergeAssociates | common/RunningStats.cpp:63-92 | merging is associative on them, exactly unless only one order begins with two empty states |
| MomentModel.UndefinedStaysSo | common/RunningStats.cpp:16-92 | after a merge of two empty accumulators no push or merge makes the moments numbers again, and the count stays right |
| MomentModel.OrderIsIrrelevant | common/RunningStats.cpp:16-31 | the order of the values does not matter |
| RunningStatistics.RunningStats.Push | common/RunningStats.cpp:16-31 | the object does what the model's push says |
| RunningStatistics.RunningStats.Plus | common/RunningStats.cpp:63-92 | the new object is the model's merge, also of empty ones |
| RunningStatistics.RunningStats.Add | common/RunningStats.cpp:94-99 | the same in place, also for an object and itself |
| Rings.RingOfAudioBuffers.Push | common/RingOfAudioBuffers.h:25-36 | the contents are the newest elements, one less than the capacity |
| Rings.NewestAt | common/RingOfAudioBuffers.h:25-36 | the newest elements are the last of the sequence, in its order |
| Rings.RingOfAudioBuffers.GetLast | common/RingOfAudioBuffers.h:38-47 | the element pushed last, if any |
| Rings.RingOfAudioBuffers.GetNthLast | common/RingOfAudioBuffers.h:49-70 | walking back finds the n-th last element, and nothing beyond the oldest |
| SendThreads.SendThread.SendAudioBlock | Server/Source/SendThread.cpp:33-57 | with FEC, a packet carries exactly the block that went to the same address before |
| SendThreads.AttachedIsLatest | Server/Source/SendThread.cpp:33-47 | with FEC, the attached block is that of the latest package to the same address |
| SendThreads.NothingAttached | Server/Source/SendThread.cpp:33-47 | without FEC, and to a new address, nothing is attached |
| SendThreads.SendThread.Process | Server/Source/SendThread.cpp:133-160 | the thread's loop body: after every hundredth packet to an address, beginning with the first, the statistics are due |
| WireFormat.Decimate | common/JammerNetzPackage.cpp:282-296 | the loop keeps every second sample |
| WireFormat.WritesStayInside | common/JammerNetzPackage.cpp:417-422 | for one vector, no write is beyond the length of its channel if and only if its samples, repeated, fit |
| WireFormat.BlockStaysInsideExactlyWhenItFits | common/JammerNetzPackage.cpp:384-426 | for the whole block, no write is outside the declared channels and length if and only if every received vector with samples belongs to a declared channel and fits, or nothing is written |
| WireFormat.UndeclaredChannelIsOutside | common/JammerNetzPackage.cpp:384-422 | two vectors that fit one declared channel: the second is written outside |
| WireFormat.Hold | common/JammerNetzPackage.cpp:417-422 | wherever they fit, the loops repeat every sample and leave the rest of the buffer |
| WireFormat.DecimatedHeld | common/JammerNetzPackage.cpp:282-422 | decimation undoes holding |
| WireFormat.RedundantBlockLosesResolution | common/JammerNetzPackage.cpp:222-225 | each sample of a transferred redundant block is the sent one at the even index below |
| WireFormat.MainBlockSurvives | common/JammerNetzPackage.cpp:351-369 | a block survives the transfer if and only if its sender does not ask for no echo |
| FecHealing.StreamIsChained | Server/Source/SendThread.cpp:33-57 | whatever is sent to others, each packet to an address carries its predecessor's block |
| FecHealing.PullFillIn | common/JammerNetzPackage.cpp:162-170 | a gap is one packet wide and its fill-in is the lost block's redundant copy |
| FecHealing.EveryGapIsHealed | Server/Source/SendThread.cpp:33-57 | end to end, without two adjacent losses, in every interleaving: nothing is counted as dropped, the output is uninterrupted, and each fill-in is the redundant copy of exactly the lost block |
| FecHealing.EverythingComesOut | Server/Source/SendThread.cpp:33-57 | under the same conditions nothing is left out: once the queue is empty, every block has come out, from the first that was not lost (or rejected for its counter of zero) to the last that arrived |
| MidiSenderLifetime.UsedSendersRun | Client/Source/JammerNetzAudioEngine.cpp:203-229 | in every interleaving, over any number of restarts and with reused addresses, the audio thread uses only senders that are neither deleted nor shut down |
| MidiSenderLifetime.LoadedSenderIsUsed | Client/Source/JammerNetzAudioEngine.cpp:355-381 | in every interleaving the audio thread's third move brings the loaded sender into use if it still is the one in charge, and the move after the use ends it |
| MidiSenderLifetime.UseIsValidated | Client/Source/JammerNetzAudioEngine.cpp:359-363 | a sender comes into use only by the validation of the hazard pointer |
| MidiSenderLifetime.RestartPutsNewSenderInCharge | Client/Source/JammerNetzAudioEngine.cpp:203-213 | in every interleaving a restart puts its new, running sender in charge and then retires the former one |
| MidiSenderLifetime.ShutdownLeavesNobodyInCharge | Client/Source/JammerNetzAudioEngine.cpp:99-130 | a shutdown leaves no sender in charge and then retires the former one |
| MidiSenderLifetime.RetiredSenderIsDeleted | Client/Source/JammerNetzAudioEngine.cpp:215-229 | after the wait the retired sender is shut down and deleted, and the one in charge goes on running |
| MidiSenderLifetime.SendersDoNotAccumulate | Client/Source/JammerNetzAudioEngine.cpp:203-214 | never more than two senders, and only the current one between restarts |
| MidiSenderLifetime.WaitEnds | Client/Source/JammerNetzAudioEngine.cpp:222-226 | in each state of the wait, a measure of at most four falls with each move of the audio thread and never grows |
| MidiSenderLifetime.FourMovesRelease | Client/Source/JammerNetzAudioEngine.cpp:222-226 | over runs: after four moves of the audio thread, the control thread's next look ends its wait |
| CallbackGate.ShutdownExcludesCallbacks | Client/Source/JammerNetzAudioEngine.cpp:99-105 | for any number of callback threads and cycles, no callback is in its body after shutdown's wait until the next start |
| CallbackGate.CallbackRunsUnlessShutDown | Client/Source/JammerNetzAudioEngine.cpp:422-435 | in every interleaving a callback runs its body if it finds no shutdown requested at both checks, leaves if only at the first, and is turned away otherwise |
| CallbackGate.BodyIsEnteredBySecondCheck | Client/Source/JammerNetzAudioEngine.cpp:422-435 | a thread enters the body only by a second check that finds no request |
| CallbackGate.ShutdownRequestsAndWaits | Client/Source/JammerNetzAudioEngine.cpp:99-105 | a shutdown is requested from its call until the next start, and its wait ends exactly at a look that finds no callback registered |
| CallbackGate.StartedCallbacksRun | Client/Source/JammerNetzAudioEngine.cpp:81-87 | after start, three accesses of any thread outside bring it into the body, whatever the others do, unless shutdown is called |
| CallbackGate.StartReopens | Client/Source/JammerNetzAudioEngine.cpp:81-105 | past its wait a shutdown returns, and a start then opens the gate again |
| CallbackGate.CounterIsExact | Client/Source/JammerNetzAudioEngine.cpp:16-31 | the counter is the number of registered threads and never underflows |
| CallbackGate.WaitEnds | Client/Source/JammerNetzAudioEngine.cpp:101-104 | in each state of shutdown's wait nobody enters, and the pending accesses fall with each effective one |
| CallbackGate.PendingAccessesBoundWait | Client/Source/JammerNetzAudioEngine.cpp:101-104 | over runs, whatever callbacks begin meanwhile: no more effective accesses during the wait than were pending at its beginning, and after them the next look ends it |
| MidiClock.PulsesOfFrame | Client/Source/JammerNetzAudioEngine.cpp:403-416 | a frame has exactly the pulses whose sample lies in it |
| MidiClock.FewPulses | Client/Source/JammerNetzAudioEngine.cpp:407-410 | at most two pulses, so the bound of eight cuts nothing off |
| MidiClock.EveryPulseOnce | Client/Source/JammerNetzAudioEngine.cpp:394-417 | contiguous frames of one tempo have every pulse exactly once and in order |
| MidiClock.ScheduleMidiFrame | Client/Source/JammerNetzAudioEngine.cpp:383-417 | the loop schedules the transport command and exactly the frame's pulses at their offsets |
| MidiClock.PulsesPerQuarterNote | Client/Source/JammerNetzAudioEngine.cpp:397-399 | 24 pulses make up a quarter note of 48000 * 60 / bpm samples |
| MidiClock.FrameEventsAreExact | Client/Source/JammerNetzAudioEngine.cpp:383-417 | a frame schedules its command at its first sample and, with a usable tempo and server time, each pulse in it at its distance from the first sample, and nothing else |
| PlayoutModel.MarkersAreExact | Client/Source/JammerNetzAudioEngine.cpp:338-381 | over any run of chunks no marker is dropped, and each frame is scheduled once, in the chunk that plays its first sample, at exactly this sample |
| PlayoutModel.FullRingDropsMarkers | Client/Source/JammerNetzAudioEngine.cpp:338-353 | whatever the ring has room for: every frame moves the position on, those that fit get their marker at their position, and the others are counted |
| PlayoutModel.BegunIsPlayed | Client/Source/JammerNetzAudioEngine.cpp:366-370 | the frames scheduled so far are those whose first sample was played |
| PlayoutModel.FeedingTakesEnough | Client/Source/JammerNetzAudioEngine.cpp:551-563 | frames are taken in order until the chunk has enough samples, not one more; those of the current generation are played, others are not |
| PlayoutModel.ChunkIsPlayedWhenReady | Client/Source/JammerNetzAudioEngine.cpp:551-590 | a chunk is played if and only if the ready samples and all current frames are enough; otherwise a playing player starts over and another one waits |
| PlayoutModel.SentIsLogged | Client/Source/JammerNetzAudioEngine.cpp:355-381 | what a run of chunks sends is, in order, what its frames schedule, shifted by the beginnings of their chunks |
| PlayoutModel.ClockIsEven | Client/Source/JammerNetzAudioEngine.cpp:338-417 | while server time is contiguous, the tempo constant and a sender there, the clock messages of the whole run are exactly one for each pulse, in order, all equally far apart in playout time across chunks and frames |
| PlayoutModel.SignalsAreExact | Client/Source/JammerNetzAudioEngine.cpp:338-391 | every start and stop command is sent exactly once, at the first sample of its frame, in order |
| AudioEnginePlayout.AudioEngine.AppendPlayoutTiming | Client/Source/JammerNetzAudioEngine.cpp:338-353 | the ring gets the frame's marker, or counts it as dropped when full |
| AudioEnginePlayout.AudioEngine.ScheduleMidiForPlayout | Client/Source/JammerNetzAudioEngine.cpp:355-381 | the loop consumes exactly the due markers and schedules them if there is a sender |
| AudioEnginePlayout.AudioEngine.PlayChunk | Client/Source/JammerNetzAudioEngine.cpp:551-590 | feeding, start of playback, underrun and playback of a chunk, with a requested reset |

## Left out

- Sockets, encryption, FlatBuffers framing, JSON control messages, file recording, logging, user interface and device handling: I/O, or libraries whose code is not at hand.
- Floating-point rounding and the conversion of samples to 16 bits: samples, gains, tempos and moments are reals, and the rounding guards of the MIDI clock are zero. Tempos that are not finite do not occur.
- The jitter statistics of the packet queue, which read the wall clock; `RunningStats` is modelled by itself. Its standard deviation, skewness and kurtosis are not modelled: roots, or one division each.
- The `FAKE_DROPS` code of the packet queue.
- Protocol version, legacy session setup, names and meters of channels: they are copied and decide nothing here. Null packets, null audio buffers and null client entries do not occur.
- The priority queue is a sequence sorted by counter, and `AbstractFifo` and the playout ring buffer are bounded queues: their own code is not part of this model.
- Sharing of a sample buffer between a fill-in and the packet it was made from is modelled where the clearing of the second fill-in changes the queued packet. Later writes of a consumer to the first fill-in's buffer are not.
- Lengths above 65535 samples and more than 255 channels, which the wire format truncates.
- Generations, quality counters, probe identifiers, sample positions and the number of callbacks are unbounded numbers; the source's 32-bit and 64-bit integers would wrap around eventually. Message counters and server times do wrap around.
- The generation that playout expects is constant during one chunk; the source reads it for every frame.
- Arrivals during `ServerMixScheduler.Process` are covered by `ServerProtocol`, not by the class. The text of the diagnostics is not part of its result.
- The accept thread's parsing, and the mixer thread's waiting and waking.
- The memory orders weaker than sequential consistency: all accesses of the two lifetime protocols that the proofs rely on are sequentially consistent in the source.
- Reclamation of retired input states by epochs, and the plug-in's own gate.
- Whether the statistics message that is due has a client to report: it depends on the queues at that moment, and the message is not part of this model.
- SilentSessionStaysStuck: steps without arrivals; `SilentClientStaysStuck` covers arrivals for the other clients.
- SilentClientStaysStuck: in the protocol a pass may miss clients, so that each decision counted the silent client and another one is a condition on the run.
- StarvedSessionsNeverMix: one step; every interleaving is covered by `StarvedSessionsAreNeverServed`.
- SilentPeerBlocksSession: one step; see `MarkedExactlyWhenAloneAndEmpty` for the exact condition of being marked.
- BufferingIsBounded: the playout range is fixed during a run; changing it while frames are buffered may leave more than the new maximum.
- EveryGapIsHealed: FEC stays on and the network keeps the order; reordered packets and wider gaps are covered by the queue's own results.
- CalmStepPrepares: no overrun and no request; any other step is `StepUntilPreparing` followed by `FrameIsAppended`.
- RetiredSenderIsDeleted: the moves after the wait; that the wait ends is `FourMovesRelease`.
- OverrunStopsPreparing: requests that are made before the worker's test and not yet applied end the recovery at the next step, and are excluded like those made after it.
- ClockIsEven: the tempo is constant and the server time contiguous over the run, between two playout resets.
- FourMovesRelease: that the audio thread and the control thread go on moving is assumed, not proved; likewise for the threads of `PendingAccessesBoundWait`.

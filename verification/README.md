# What eq-cli does, proved

eq-cli puts a chain of filters (an equalizer, a convolver, a limiter) between a virtual PipeWire sink and a real one, and
lets a daemon switch presets and sinks while audio is playing. This project models the parts of it in which something can go
wrong that no single function shows, and proves what holds over whole runs. `dafny verify dfyconfig.toml` checks all of it.

The model takes the form of the source. The objects that update their fields are classes (`ConvolverHost`, `KernelData`,
`Router`, `Scheduler`, `Backend`, `Controller`) whose methods are proved against functions on values; the loops of the preset
parser, of the renderer and of `normalize_name` are loops; the three-way races between the PipeWire thread, the real-time thread
and the control thread are state machines whose steps are the regions that the source protects by a lock or by one atomic access.

## The pieces and what is proved of them

**Convolver (`BlockSize`, `Residues`, `StereoFir`, `BlockAdapter`, `EngineFailures`, `ConvolverHost`, `ConvolverNode`,
`KernelShaping`).** A stream delivers blocks of S samples, the engine takes blocks of B. The engine is a stereo FIR
filter with its history, so that the whole pipeline can be compared with one convolution of the whole stream; that
convolution is linear, and impulses show which response each of its four paths plays, down to the buffers that a host
hands back. The result is a refinement theorem for every run without failing calls: what is played, apart from inserted
silence, is a prefix of that convolution, whatever S and B are. The silence inserted after n such calls is the maximum
of kS mod B for k up to n; it is at most B - gcd(S, B), reaches this at the latest in call B / gcd(S, B) - 1, and from
then on the output is a pure delay. With S = 441 and B = 256 silence is inserted in calls one and four, so padding is
not a start-up matter only. The filter node mixes this with its input undelayed, so that wet and dry are aligned exactly
if S = B. Until a call fails, the queues stay below the capacity reserved for them, also within a call; exactly which
calls fit afterwards is stated too. In every run, failures included, no sample handed in is lost: the input queue is the
end of what was given, and every failed call adds one stream block of delay. IR width and autogain are proved by what
they do to mid and side energies, in place, for kernels of any length.

**Router (`FilterHandshake`, `TaskQueue`, `LoopGuard`, `StreamPatching`, `SinkChain`).** The initialisation handshake is
proved safe in every interleaving, and live within three cycles from every reachable state unless a creation fails; the
task queue runs every task once, in order, never early; the loop guard equals its specification on the removal history;
the patch bookkeeping agrees with the stream metadata in every reachable state, and a list of streams that is worked
through while the virtual sink is ready redirects every one that still exists; starting and moving the chain leaves a
simple path of links, or the recorded sink is the old one and no stream is patched, and both succeed whenever the ports
match and nothing is refused.

**Daemon (`SessionBackend`, `ConfigMachine`, `DaemonController`, `DaemonProtocol`, `JsonTree`).** The controller's
methods are proved to be steps of a pure machine and to keep controller and backend in agreement, through rollbacks and
worker failures; a refused start returns to the old session, on the old sink with its settings, exactly if the second
attempt succeeds; the remembered configuration is shown to be a function of the accepted commands alone; every status
sent is sound; and it is decided exactly which responses reach a client unchanged.

**Presets (`PresetCodec`, `PresetStart`, `KernelNames`).** Reading, AutoEQ import and rendering, over JSON trees and
classified lines. Plugins are recognised by the beginning of their names, so that files with numbered instances are read
as those with plain names are. AutoEQ's codes are read as a table says. An AutoEQ import survives rendering and reading
exactly, apart from a warning; of a preset file exactly what can survive is stated; what is accepted can be started; and
a chain started from a file is a simple path whose last stage alone applies the volume.

## Where the code does not do what one would expect

Each of these is stated exactly, for all inputs, and shown at an input or a run in which it happens.

- `normalized_zita_block_size` ends for a stream block size if and only if that is at most 2^31; above, the shift wraps to zero
  (`BlockSize.CallEndsIffAtMostHalfWord`).
- The queues of the convolver can outgrow the S + B samples reserved for them, so that they are reallocated on the audio thread,
  once the engine has reported an error. A successful call fits if and only if the failed call before it left no more than one
  engine block and the lag so far, less (n + 1)S mod B, is at most B (`EngineFailures.SuccessfulCallFits`). One failure
  is enough: for S above B, a successful call at the end of a period no longer fits, and after a second failure none does
  (`EngineFailures.FailureOutgrowsReserve`). With S = 441, B = 256 and an error on the very first engine block, the output
  queue reaches 768 samples in the second call, with room for 697 (`EngineFailures.OneFailureOutgrowsReserve`).
- A failed initialisation is never tried again while rate and block size stay the same. From every reachable state, once both
  threads have finished what they are in the middle of, the third cycle with the same parameters and every later one is processed
  if and only if the node is ready for them or the one creation made for them succeeds
  (`FilterHandshake.EveryStateProgresses`; a failure reached for any parameters in `FilterHandshake.FailureIsReachable`).
- `volume` accepts not-a-number (`ConfigMachine.AcceptedVolumes`, `ConfigMachine.NotANumberIsRemembered`). From then on the status
  carries `null`, and the client can decode an answer if and only if the volume accepted last is finite
  (`DaemonController.Serve`, `DaemonProtocol.StatusRoundTrip`), so the daemon stays unreadable until another `volume`
  (`ConfigMachine.VolumeLasts`).
- An ok answer to `enable` means that a router exists; a session is active if and only if it was really started and its worker
  survived, or it was seen enabled before and its worker still runs (`ConfigMachine.EnabledMeansActive`,
  `DaemonController.Controller.Enable`). After `apply` and a failure of the worker, `enable` answers ok without a session
  (`ConfigMachine.EnabledButInactive`), any number of times (`ConfigMachine.EnableNeverRevives`).
- After a refused start and a successful rollback the status looks healthy if and only if the worker runs and a filter that had failed
  when the old session settled works by the time of the answer (`DaemonController.Controller.RollBack`; a run in
  `DaemonController.HealthyAfterRefusal`).
- A rendered preset can be read if and only if it has no limiter, whose settings are not rendered; a convolver is dropped with a
  warning, and bands beyond the number of bands become defaults (`PresetCodec.FileRoundTrip`; files in
  `PresetCodec.LimiterIsNotReadBack` and `PresetCodec.ConvolverAndUnusedBandAreLost`). This concerns the renderer as a public function:
  the program itself renders AutoEQ imports only (src/main.cpp:429-445), and these survive (`PresetCodec.ImportRoundTrip`).

## Model

| member | source | states |
|---|---|---|
| BlockSize.BitTrickIsPowerOfTwo | src/convolver_host.cpp:23-25 | `v != 0 && (v & (v - 1)) == 0` holds exactly for the powers of two |
| BlockSize.NormalizedZitaBlockSize | src/convolver_host.cpp:92-106 | for every size up to 2^31 the loop ends with the one power of two that is at least 64 and, for sizes of 64 and more, satisfies B <= S < 2B |
| BlockSize.NormalizedIsUnique | src/convolver_host.cpp:92-106 | that description leaves no choice of B |
| BlockSize.DifferentBlockDoesNotDivide | src/convolver_host.cpp:92-106 | if S differs from B then B does not divide S, so the queues are really needed |
| BlockSize.LoopBlockValue | src/convolver_host.cpp:99-102 | after k rounds the 32-bit variable is 2^k, and zero for ever once the bit falls out |
| BlockSize.LoopStopsIffBelowHalfWord | src/convolver_host.cpp:100-102 | in 32-bit arithmetic the loop stops if and only if the size is below 2^31 |
| BlockSize.CallEndsIffAtMostHalfWord | src/convolver_host.cpp:92-106 | the whole call ends if and only if the size is at most 2^31 |
| Residues.Bezout | src/convolver_host.cpp:297-331 | the gcd of stream and block size is a combination of both, the reason why the latency reaches its bound |
| Residues.GcdIsGreatest | src/convolver_host.cpp:297-331 | `Gcd` is the greatest common divisor |
| Residues.ResidueBound | src/convolver_host.cpp:297-331 | no residue kS mod B exceeds B - gcd(S, B) |
| Residues.ResidueAttained | src/convolver_host.cpp:297-331 | some call number below B / gcd(S, B) has the residue B - gcd(S, B) |
| Residues.MaxResidueIsMaximum | src/convolver_host.cpp:297-331 | `MaxResidue` is the maximum of the residues so far and is attained |
| Residues.MaxResidueSettles | src/convolver_host.cpp:297-331 | the maximum never exceeds B - gcd(S, B) and equals it from call B / gcd(S, B) - 1 on |
| StereoFir.TapSumLocal | src/convolver_host.cpp:219-232 | a filter output depends on no samples but those the taps reach |
| StereoFir.ConvolveCausal | src/convolver_host.cpp:219-232 | later input does not change earlier output |
| StereoFir.LeftImpulse | src/convolver_host.cpp:219-232 | an impulse on the left comes out on the left as the left response and on the right as the left-to-right response of a four-channel kernel, and not at all on the right of a two-channel one |
| StereoFir.RightImpulse | src/convolver_host.cpp:219-232 | the mirrored law: right response on the right, right-to-left response on the left |
| StereoFir.ConvolveIsLinear | src/convolver_host.cpp:219-232 | the convolution of a mix of two streams is the mix of their convolutions, on both sides |
| StereoFir.RecentAdvances | src/convolver_host.cpp:279-295 | the engine's history after a block is the history of the longer stream |
| StereoFir.BlockIsStreamConvolution | src/convolver_host.cpp:279-295 | a block processed with the engine's history is the next stretch of the convolution of the whole stream; which response each of the four paths plays is fixed by the impulse laws above |
| BlockAdapter.DrainCounts | src/convolver_host.cpp:301-313 | draining keeps the number of queued samples and, unless the engine fails, leaves the remainder modulo B as input |
| BlockAdapter.CallCounts | src/convolver_host.cpp:297-331 | how one call changes queue lengths, silence and success, sample for sample |
| BlockAdapter.CallSucceedsIff | src/convolver_host.cpp:260-331 | a call succeeds exactly if every engine call that is due does, one for each whole block queued or a single one when the sizes agree; a failed call hands its block back as it came |
| BlockAdapter.Conservation | src/convolver_host.cpp:297-331 | with failures anywhere, queued input plus queued output equals silence emitted plus S for every failed call: no sample handed in is lost |
| BlockAdapter.DrainKeepsInput | src/convolver_host.cpp:301-313 | draining only moves whole blocks from the head of the input to the tail of the output |
| BlockAdapter.QueueLengths | src/convolver_host.cpp:297-331 | after n successful calls the input queue holds nS mod B samples and the silence is the maximum of the residues so far |
| BlockAdapter.DrainHolds | src/convolver_host.cpp:301-313 | the loop keeps the relation between queues, history and the convolved stream |
| BlockAdapter.EmitHolds | src/convolver_host.cpp:315-330 | handing out a buffer, padded in front if need be, keeps that relation |
| BlockAdapter.CallHolds | src/convolver_host.cpp:260-331 | so does a whole call, buffered or direct |
| BlockAdapter.StreamRefinement | src/convolver_host.cpp:279-331 | for every run of successful calls the concatenated output without the silence is the first nS - Z samples of the whole-stream convolution, whose paths `LeftImpulse` and `RightImpulse` fix: nothing lost, repeated or reordered, left and right in lockstep |
| BlockAdapter.CallOutput | src/convolver_host.cpp:297-331 | every buffer handed back in a run of successful calls: the new silence in front, then the next convolved samples, delayed by the silence so far |
| BlockAdapter.LatencyBound | src/convolver_host.cpp:297-331 | in runs of successful calls the total silence never exceeds B - gcd(S, B) and equals it after B / gcd(S, B) - 1 calls |
| BlockAdapter.PureDelay | src/convolver_host.cpp:297-331 | in runs of successful calls, from call B / gcd(S, B) on no silence is inserted and the output is the convolved stream delayed by B - gcd(S, B) |
| BlockAdapter.ImpulseThroughRun | src/convolver_host.cpp:219-331 | in runs of successful calls an impulse given on one side is played as the taps of its two responses, on the sides they belong to, behind the silence and wherever the stream was cut |
| BlockAdapter.WithinCapacity | src/convolver_host.cpp:250-254 | after a run of successful calls both queues stay strictly below the reserved S + B throughout the next call, whether it succeeds or not |
| EngineFailures.InputIsTail | src/convolver_host.cpp:297-313 | in every run, failures included, the input queue is exactly the end of everything given |
| EngineFailures.LagOfRun | src/convolver_host.cpp:297-331 | in every run the samples played lag behind those given by the silence plus one stream block for each failed call, and this lag never shrinks |
| EngineFailures.PeakOfCall | src/convolver_host.cpp:297-313 | the greatest sizes the two queues take during any call, successful or not |
| EngineFailures.InputModuloBlock | src/convolver_host.cpp:301-313 | whatever failed before, the input queue holds nS mod B samples up to whole blocks, and exactly after a successful call |
| EngineFailures.SuccessfulCallFits | src/convolver_host.cpp:250-254 | exactly which successful calls, after any run, stay within the reserved S + B |
| EngineFailures.FitsUntilFailure | src/convolver_host.cpp:250-254 | every call fits until one has failed |
| EngineFailures.FailureOutgrowsReserve | src/convolver_host.cpp:305-307 | for S above B a successful call after one failure and at the end of a period does not fit, and none after two failures does |
| EngineFailures.OneFailureOutgrowsReserve | src/convolver_host.cpp:305-307 | a run with one error in which the output queue holds 768 samples while 697 are reserved |
| Residues.ResidueOfPeriod | src/convolver_host.cpp:301-313 | at the end of every period of B / gcd(S, B) calls nothing is left over |
| ConvolverHosts.ConvolverHost.EnsureReady | src/convolver_host.cpp:192-258 | success exactly for a nonzero size that is in use or can be started; asking again for the size in use changes nothing; otherwise the queues start afresh |
| ConvolverHosts.ConvolverHost.Process | src/convolver_host.cpp:260-277 | an accepted call is one step of the adapter on values; a refused one changes neither the object nor the buffers |
| ConvolverHosts.ConvolverHost.ProcessZitaBlock | src/convolver_host.cpp:279-295 | one engine block, overwritten in place unless the engine fails |
| ConvolverHosts.ConvolverHost.ProcessBuffered | src/convolver_host.cpp:297-331 | the loop over the queues equals the adapter on values, including the early return of a failed block |
| ConvolverHosts.ConvolverHost.Stop | src/convolver_host.cpp:333-346 | stopping empties the queues |
| ConvolverHosts.PlayStream | src/convolver_host.cpp:260-331 | a whole run of the object is the run of these theorems |
| ConvolverHosts.PlayImpulse | src/convolver_host.cpp:219-331 | the buffers that a host hands back for an impulse hold these taps, sample for sample |
| ConvolverHosts.DelayVanishesIffSizesAgree | src/convolver_host.cpp:92-106 | with the block size chosen by the host, the latency B - gcd(S, B) is zero if and only if S = B |
| ConvolverHosts.SilenceInsertedMidRun | src/convolver_host.cpp:323-330 | in every run of successful calls with S = 441 the host chooses B = 256, calls one and four pad with 185 and 43 samples, and calls two and three do not pad |
| ConvolverNode.MixWithHost | src/pipewire_router.cpp:891-903 | the host runs on a copy of the input; its answer is mixed with the input, and without an answer the input stays |
| ConvolverNode.ChannelSamples | src/pipewire_router.cpp:867-916 | the samples a node plays: mixed between the gains when the host answers, with both gains and the volume when it gives nothing, with the volume only when it is bypassed |
| ConvolverNode.ProcessReady | src/pipewire_router.cpp:867-916 | one block of a ready node: bypass, gains and mix in their order, and the host makes exactly one call or none |
| ConvolverNode.WetLagsDry | src/pipewire_router.cpp:888-912 | in a settled run every sample mixes the stream with the convolved stream B - gcd(S, B) samples earlier, and this delay is zero if and only if S = B |
| ConvolverNode.PlayThroughNode | src/pipewire_router.cpp:867-916 | a whole stream through a node is a run of the host on the amplified blocks, and without failures every block from call B / gcd(S, B) on is this mix, sample for sample |
| KernelShaping.EnergyScales | src/convolver_host.cpp:108-137 | scaling a path by g scales its energy by the square of g |
| KernelShaping.WeightFactors | src/convolver_host.cpp:163-190 | for the weights of a width w the mid factor is 2/(1+w) and the side factor 2w/(1+w) |
| KernelShaping.WidthsOfPercents | src/convolver_host.cpp:163-190 | a width of 100 leaves mid and side as they are, a width of 0 leaves no side, and the side factor is the mid factor times the percentage |
| KernelShaping.DirectPair | src/convolver_host.cpp:163-190 | one mixed pair: with weight x the mid is scaled by 1 + x and the side by 1 - x; the cross paths are the case -x |
| KernelShaping.GainOfPower | src/convolver_host.cpp:108-137 | the gain g is positive, at most 1, satisfies g*g*P <= 1, and is 1 exactly if the peak energy is at most 1 |
| KernelShaping.PeakScales | src/convolver_host.cpp:108-137 | the peak of the four energies scales with the square of the gain, so no path ends above 1 |
| KernelShaping.KernelData.MeasurePeak | src/convolver_host.cpp:109-123 | the loops compute the greatest energy of the paths that exist |
| KernelShaping.KernelData.ScaleAll | src/convolver_host.cpp:128-136 | every sample of every path is scaled by the same gain |
| KernelShaping.KernelData.NormalizeKernel | src/convolver_host.cpp:108-137 | afterwards no path has an energy above 1, all ratios are kept, a kernel whose paths have energy at most 1 is unchanged, and otherwise the loudest path ends at exactly 1 |
| KernelShaping.KernelData.ApplyIrWidthAndAutogain | src/convolver_host.cpp:163-190 | the in-place loops do exactly this to all pairs, for every length and every width but -100 |
| KernelShaping.MixPair | src/convolver_host.cpp:163-190 | one pair of paths mixed in place |
| FilterHandshake.StepKeepsInv | src/pipewire_router.cpp:246-358 | every atomic step of either thread keeps the invariant of the handshake |
| FilterHandshake.AtMostOneTask | src/pipewire_router.cpp:531-642 | in every interleaving at most one initialisation is queued or running |
| FilterHandshake.WorkerChangesOnlyWhilePending | src/pipewire_router.cpp:822-960 | host and scratch buffers change only in state InitPending and never while the real-time thread processes |
| FilterHandshake.ProcessingIsSafe | src/pipewire_router.cpp:246-358 | the processing branch finds a host created for this very rate and block size, scratch buffers of sufficient length and at least 8192 samples, and an idle worker |
| FilterHandshake.EmptyCycleIsSkipped | src/pipewire_router.cpp:246-252 | a cycle without frames or without a rate changes nothing |
| FilterHandshake.ReachableSettles | src/pipewire_router.cpp:246-358 | from every reachable state the two threads come to rest |
| FilterHandshake.ProcessedFromThirdCycle | src/pipewire_router.cpp:246-358 | from rest and with the same parameters, the third cycle and every later one is processed if and only if the node is ready for them or the one creation made for them succeeds |
| FilterHandshake.EveryStateProgresses | src/pipewire_router.cpp:246-358 | the same from every reachable state, with creations that succeed or fail |
| FilterHandshake.StaysAsItIs | src/pipewire_router.cpp:246-358 | a node that is ready, or has failed, for the parameters of the stream stays so whatever creations would do |
| FilterHandshake.FailureIsReachable | src/pipewire_router.cpp:246-358 | a run that reaches such a failure, for any parameters |
| TaskQueue.InsertKeepsSorted | src/pipewire_router.cpp:1358-1371 | insertion behind equal due times keeps the queue sorted and keeps everything in it |
| TaskQueue.ReplayKeepsInv | src/pipewire_router.cpp:1358-1412 | every run keeps the queue sorted, numbers unique, and the log of what ran consistent |
| TaskQueue.RunsOnceAndNotEarly | src/pipewire_router.cpp:1392-1412 | each task runs at most once and never before it is due |
| TaskQueue.TasksAreAsRequested | src/pipewire_router.cpp:1358-1371 | in every run the tasks are those requested, in order, each due its delay in milliseconds after the request |
| TaskQueue.RunsAfterItsDelay | src/pipewire_router.cpp:1358-1412 | no task runs before its delay is over |
| TaskQueue.NeverOvertaken | src/pipewire_router.cpp:1392-1412 | a task that was scheduled earlier and is due no later runs first |
| TaskQueue.EveryTaskAccountedFor | src/pipewire_router.cpp:1358-1412 | the tasks ever scheduled are exactly those queued and those that ran |
| TaskQueue.PollTakesLeast | src/pipewire_router.cpp:1392-1412 | a poll takes the least due time, the oldest among equals |
| TaskQueue.PollRunsIffDue | src/pipewire_router.cpp:1392-1412 | a poll runs one task exactly if some queued task is due, and none otherwise |
| TaskQueue.Scheduler.ScheduleTask | src/pipewire_router.cpp:1358-1371 | the object's step is the step on values |
| TaskQueue.Scheduler.NextTaskTimeout | src/pipewire_router.cpp:1377-1390 | none exactly for the empty queue; otherwise it never overshoots the earliest due time, with the rounding to milliseconds |
| TaskQueue.Scheduler.RunDueTasks | src/pipewire_router.cpp:1392-1412 | the state is the replay of one turn for each task that ran: its reading of the clock, in order, then whatever was scheduled while it ran; nothing is left that was due at the last reading |
| LoopGuard.CounterIsLongestChain | src/pipewire_router.cpp:2272-2293 | the counter is the length of the longest suffix of rapid removals with gaps of at most 1500 ms |
| LoopGuard.ThresholdMeansLoop | src/pipewire_router.cpp:2272-2293 | the threshold is reached at a removal exactly when it completes a loop in the history |
| LoopGuard.DeadlineNeverDecreases | src/pipewire_router.cpp:2272-2293 | under a monotone clock the suppression deadline only moves forward |
| LoopGuard.SuppressionIffRecentLoop | src/pipewire_router.cpp:2226-2229 | a name is suppressed at time t if and only if a loop was completed less than five seconds before |
| StreamPatching.StepKeepsInv | src/pipewire_router.cpp:1637-1770 | every step of the callbacks and of the control thread keeps bookkeeping, metadata, redirect counts and guards in agreement |
| StreamPatching.PatchBookkeeping | src/pipewire_router.cpp:1664-1753 | the patched set is the key set of the recent attempts and contains only existing streams; every pending stream has a task queued or just taken |
| StreamPatching.OneRedirectPerPatch | src/pipewire_router.cpp:1699-1753 | every entry into the patched set is followed by exactly one metadata redirect, and there are no others; that streams are entered at all is `NextStreamIsRedirected` and what follows it |
| StreamPatching.RedirectedIffPatched | src/pipewire_router.cpp:1699-1770 | when the control thread rests, the existing streams that are redirected are exactly the patched ones; which these must be is `ExistingStreamsAreRedirected` and `TaskIsRedirected` |
| StreamPatching.ClearReleasesEveryStream | src/pipewire_router.cpp:1755-1770 | after clearing no existing stream is redirected, whatever the callbacks did meanwhile |
| StreamPatching.ObservedStreamIsQueued | src/pipewire_router.cpp:2180-2239 | a stream that reports itself is queued once if it is eligible, not patched or pending, and its name completed no loop recently, and otherwise not; nothing else changes |
| StreamPatching.NothingIsQueuedAtShutdown | src/pipewire_router.cpp:2180-2239 | while the router is shutting down, what streams report changes nothing |
| StreamPatching.ClearForgets | src/pipewire_router.cpp:1755-1770 | releasing forgets every patched and pending stream, so that one that is still there is queued again when it reports itself |
| StreamPatching.NextStreamIsRedirected | src/pipewire_router.cpp:1699-1753 | with the virtual sink ready, the next stream of a list that exists and is not patched is entered with the time of day and redirected once |
| StreamPatching.OthersAreSkipped | src/pipewire_router.cpp:1707-1732 | without the sink, and for a stream that is patched or gone, nothing is entered or redirected |
| StreamPatching.ListIsRedirected | src/pipewire_router.cpp:1637-1753 | when a list is worked through with the sink ready, every stream of it that still exists is patched and redirected, whatever the callbacks did meanwhile |
| StreamPatching.ExistingStreamsAreRedirected | src/pipewire_router.cpp:1637-1662 | the same of the streams found when the chain is started or moved |
| StreamPatching.TaskIsRedirected | src/pipewire_router.cpp:1664-1697 | the same of the stream of a patch task, unless the router is shutting down |
| StreamPatching.TaskIsDropped | src/pipewire_router.cpp:1677-1690 | a task for a stream that is gone, or taken during shutdown, only stops being pending |
| StreamPatching.RemovalIsRecorded | src/pipewire_router.cpp:2254-2326 | a stream that is removed is forgotten, and recorded for its name with the time it was patched exactly if it was patched |
| SinkChain.StereoMatches | src/pipewire_router.cpp:2001-2071 | between two stereo nodes, in any port order, the pairs are exactly left with left and right with right |
| SinkChain.AllMatches | src/pipewire_router.cpp:2001-2071 | the pairs are exactly the compatible ones |
| SinkChain.NumberedMatches | src/pipewire_router.cpp:2001-2071 | as soon as one port of either node names no stereo channel, ports are paired exactly by their numbers |
| SinkChain.ChainVisitsPath | src/pipewire_router.cpp:1604-1635 | a chain has a link for every hop of its path |
| SinkChain.ChainHasNoOtherLinks | src/pipewire_router.cpp:1604-1635 | and no link that is not such a hop |
| SinkChain.PathIsSimple | src/pipewire_router.cpp:1604-1635 | with different node ids the path visits no node twice |
| SinkChain.Erase | src/pipewire_router.cpp:1112-1202 | pruning removes one stage and nothing else |
| SinkChain.Router.LinkNodes | src/pipewire_router.cpp:2001-2071 | succeeds exactly if there are matching ports and no link is refused; then the links are extended by one for each matching pair, between two stereo nodes by exactly the two that keep the channels apart |
| SinkChain.Router.ConnectStage | src/pipewire_router.cpp:1607-1629 | one more stage of the path, with the convolver that is skipped and the limiter that must run; it fails only for want of a limiter or of matching ports, or by a refusal |
| SinkChain.Router.ConnectChain | src/pipewire_router.cpp:1604-1635 | on success the links are a chain along virtual sink, running stages in order, selected sink; with matching ports on every hop and a limiter that runs, only a refusal makes it fail |
| SinkChain.Router.ReconnectToSink | src/pipewire_router.cpp:1825-1901 | a sink is ignored exactly during shutdown, if it is not found or has no ports; otherwise the outcome is a full path to the new sink, or to the old one after a rollback, with the streams of that moment patched, or a failed rollback with the old sink recorded and no stream patched; with matching ports everywhere it is the new sink unless something is refused, and a failed rollback takes two refusals |
| SinkChain.Router.MoveTo | src/pipewire_router.cpp:1848-1901 | the same from the moment the old chain is torn down, from any links, also those of a failed rollback |
| SinkChain.Router.RollBack | src/pipewire_router.cpp:1863-1880 | the return to the old sink: it succeeds if every hop has matching ports and nothing is refused, and when it fails no stream is patched |
| SinkChain.Router.StartFilters | src/pipewire_router.cpp:1112-1202 | succeeds exactly if the equalizer and a limiter that is wanted connect; a convolver stays in the order exactly if it is usable and connects |
| SinkChain.Router.AssignVolume | src/pipewire_router.cpp:1189-1202 | the volume goes to the last stage of the order that has a filter |
| SinkChain.Router.Start | src/pipewire_router.cpp:1112-1216 | from a parsed order: every listed stage runs, the links are the full path, exactly the last stage applies the volume, sink and chain were found ready, the streams of that moment are patched; on failure nothing is left; and without refusals, with matching ports, the start succeeds with exactly the stages that can run |
| ConfigMachine.RunKeepsInv | src/daemon_controller.cpp:118-355 | over all runs a live router implies a wanted session |
| ConfigMachine.RefusedRequestsForget | src/daemon_controller.cpp:118-301 | a refused request changes nothing that is remembered, except that a refused `enable` clears `enabled` |
| ConfigMachine.StartsAreAnswered | src/daemon_controller.cpp:118-301 | a request that gets as far as starting a session is answered as that start goes, and an accepted one leaves a session that is active unless its worker fails |
| ConfigMachine.AcceptedStartRuns | src/daemon_controller.cpp:118-301 | what an accepted start runs: which preset, which sink, and the settings kept from before |
| ConfigMachine.RefusedStartReturns | src/daemon_controller.cpp:156-301 | a refused `apply` or `switch-sink` returns to the configuration that was wanted before; it is live exactly if the second start succeeds and active exactly if that worker survives |
| ConfigMachine.RefusedStartLeavesNothing | src/daemon_controller.cpp:174-212 | without a session to return to, and after a refused `enable`, nothing runs and nothing is wanted |
| ConfigMachine.StoppingStops | src/daemon_controller.cpp:227-334 | `disable` and `shutdown` always succeed, stop the session and keep the rest of the configuration |
| ConfigMachine.OthersLeaveTheSession | src/daemon_controller.cpp:37-73 | no other request touches the session |
| ConfigMachine.AskingChangesNothing | src/daemon_controller.cpp:37-73 | requests that ask, unknown requests and requests in a forbidden environment change nothing, and exactly which are answered ok |
| ConfigMachine.WithoutStart | src/daemon_controller.cpp:118-262 | requests that do not get as far as a start are refused, but for `enable` of a session that was seen enabled and a new sink for a session that is not wanted |
| ConfigMachine.SinkOfNoSession | src/daemon_controller.cpp:250-262 | while no session is wanted `switch-sink` only records the sink, for a preset applied before |
| ConfigMachine.AcceptedBypass | src/daemon_controller.cpp:303-319 | exactly six arguments switch bypass, three on and three off, while a session is wanted |
| ConfigMachine.SettingsSurvive | src/daemon_controller.cpp:118-301 | only accepted `bypass` and `volume` requests change these settings |
| ConfigMachine.EnableRetriesAfterDoubleFailure | src/daemon_controller.cpp:156-212 | after a double failure the old configuration is still wanted and `enable` really starts it |
| ConfigMachine.EnabledMeansLive | src/daemon_controller.cpp:195-225 | in every run an ok answer to `enable` means that a router exists |
| ConfigMachine.EnabledMeansActive | src/daemon_controller.cpp:195-225 | and exactly when it means an active session, with and without the fast path |
| ConfigMachine.EnableNeverRevives | src/daemon_controller.cpp:199-201 | once a session that was seen enabled has lost its worker, any number of status and enable requests is answered ok and changes nothing |
| ConfigMachine.EnabledButInactive | src/daemon_controller.cpp:199-201 | a run in which `enable` is answered ok and no session is active |
| ConfigMachine.NotANumberIsRemembered | src/daemon_controller.cpp:357-380 | a run in which not-a-number is accepted as the volume and remembered |
| ConfigMachine.VolumeLasts | src/daemon_controller.cpp:357-380 | the volume accepted last stays until another `volume` request |
| ConfigMachine.AcceptedVolumes | src/daemon_controller.cpp:357-380 | the volumes accepted are those from 0 to 1.5 and not-a-number, and the accepted one is remembered |
| ConfigMachine.RememberedIsLastAccepted | src/daemon_controller.cpp:118-380 | in every run the configuration consists of the last accepted command for each part |
| DaemonController.Controller.StatusIsSound | src/daemon_controller.cpp:80-116 | no transitional state is reported; Enabled exactly if a session is wanted and the snapshot in this status is active, Degraded if it is wanted and not active; an active session shows the remembered settings, the router's report and the error of a filter; without one the effective section is the default; version, process and start time stay |
| DaemonController.Controller.Settle | src/daemon_controller.cpp:336-355 | the remembered settings reach the fresh router, and the status records what the backend shows |
| DaemonController.Controller.Apply | src/daemon_controller.cpp:118-193 | the transaction with its rollback is one step of the machine; the answer reports the start or the error of the first attempt; after a refused start the router is back on the old preset, sink, bypass and volume |
| DaemonController.Controller.RollBack | src/daemon_controller.cpp:157-172 | after the second attempt the old configuration is remembered and runs exactly if this attempt succeeded, and what health and error the status shows |
| DaemonController.Controller.Enable | src/daemon_controller.cpp:195-225 | one step of the machine, fast path included; when an ok answer shows an active session, and what health and error a start reports |
| DaemonController.Controller.Disable | src/daemon_controller.cpp:227-239 | one step of the machine, healthy afterwards |
| DaemonController.Controller.Shutdown | src/daemon_controller.cpp:321-334 | the same step, reported as stopping |
| DaemonController.Controller.SwitchSink | src/daemon_controller.cpp:250-301 | one step of the machine; after a refused start the old configuration is remembered, and the router, if the second start succeeded, runs its preset on the old sink with its bypass and volume |
| DaemonController.Controller.Bypass | src/daemon_controller.cpp:303-319 | one step of the machine, router and configuration agree on bypass, and an accepted request reports the session healthy as an accepted start does |
| DaemonController.Controller.Volume | src/daemon_controller.cpp:357-380 | the same for the volume |
| DaemonController.Controller.HandleRequest | src/daemon_controller.cpp:37-73 | any request is one step of the machine, keeps controller and backend in agreement, and is answered with a sound status that shows a session exactly if one is active, and with the report of a start that was attempted; an accepted start leaves a router with the remembered preset, sink and settings, a refused one the old session or none; sinks are listed only when asked for |
| DaemonController.Controller.VolumesOfStatus | src/daemon_controller.cpp:80-116 | the volumes of a sound status are finite exactly if the volume accepted last is |
| DaemonController.Serve | src/daemon_controller.cpp:37-73 | any sequence of requests is a run of the machine, and each answer is decoded to itself by its client if the volume accepted last is finite, and not at all otherwise |
| DaemonController.HealthyAfterRefusal | src/daemon_controller.cpp:156-172 | a run in which a refused `apply` leaves a status without any trace of the error |
| SessionBackend.Backend.StartSession | src/daemon_backend.cpp:33-55 | any session is torn down first; success leaves a router without bypass at volume 1, failure leaves none |
| SessionBackend.Backend.StopSession | src/daemon_backend.cpp:57-71 | no router is left |
| SessionBackend.Backend.SetBypass | src/daemon_backend.cpp:73-77 | reaches the router if there is one |
| SessionBackend.Backend.SetVolume | src/daemon_backend.cpp:79-83 | reaches the router if there is one |
| JsonTree.StringsRoundTrip | src/daemon_protocol.cpp:145 | a list of strings is read as it was written |
| JsonTree.ConversionsWrap | src/daemon_protocol.cpp:92-153 | a number that fits its field is kept, any other is changed by a multiple of the word |
| JsonTree.FractionsAreDropped | src/daemon_protocol.cpp:92-153 | a fraction is cut towards zero before that |
| JsonTree.TypesAreChecked | src/daemon_protocol.cpp:92-192 | which JSON values each type of field takes |
| DaemonProtocol.StateNamesRoundTrip | src/daemon_protocol.cpp:7-88 | every state is parsed from its own name |
| DaemonProtocol.UnknownNames | src/daemon_protocol.cpp:51-90 | an unknown name means a failed daemon, a disabled session, a failed health |
| DaemonProtocol.MissingFields | src/daemon_protocol.cpp:128-192 | what stands for a missing field of a request, a section or a response |
| DaemonProtocol.MissingSections | src/daemon_protocol.cpp:128-153 | a status without one of its four sections cannot be decoded, and what one with empty sections says |
| DaemonProtocol.RequestIsRead | src/daemon_protocol.cpp:155-159 | the names under which the fields of a request are found |
| DaemonProtocol.StatusIsRead | src/daemon_protocol.cpp:128-153 | the names under which the parts of a status are found |
| DaemonProtocol.WhenStatusIsSent | src/daemon_protocol.cpp:169-183 | the status is left out exactly if it differs from the initial one at most in fields that do not count, and the sinks exactly if there are none |
| DaemonProtocol.StatusRoundTrip | src/daemon_protocol.cpp:92-153 | a status is decoded to itself if its volumes are finite, and not at all otherwise |
| DaemonProtocol.RequestRoundTrip | src/daemon_protocol.cpp:155-167 | a request is decoded to itself |
| DaemonProtocol.ResponseRoundTrip | src/daemon_protocol.cpp:169-192 | a response survives if and only if its status is sent with finite volumes, or is left out and is the default |
| DaemonProtocol.StartedDaemonRoundTrip | src/daemon_protocol.cpp:177-182 | a started daemon always sends its status, so its response is decoded to itself if its volumes are finite, and not at all otherwise |
| PresetCodec.DecimalRoundTrip | src/ee_eq_preset_parser.cpp:466 | a number is recovered from its decimal digits |
| PresetCodec.BandKeysDistinct | src/ee_eq_preset_parser.cpp:466 | different bands have different keys |
| PresetCodec.KindIsPrefix | src/ee_eq_preset_parser.cpp:410-425 | a plugin is of the kind whose name its own begins with, and of none exactly if it begins with none of the three |
| PresetCodec.NumberedNamesAreKinds | src/ee_eq_preset_parser.cpp:410-425 | whatever follows the name, such as the number of an instance, does not change the kind |
| PresetCodec.ListedOrSkipped | src/ee_eq_preset_parser.cpp:408-426 | a stage is listed exactly if some plugin begins with its name, and every other plugin is warned about |
| PresetCodec.ReadPluginOrder | src/ee_eq_preset_parser.cpp:408-426 | the loop accepts a list exactly when no kind occurs twice, and then gives the kinds in order, by the prefixes above, and a warning for each other plugin |
| PresetCodec.LeastExists | src/ee_eq_preset_parser.cpp:164-176 | among several keys there is a first one in the order in which an object is visited |
| PresetCodec.InstanceKey | src/ee_eq_preset_parser.cpp:149-176 | a payload is missing exactly if there is neither the plain name nor a key with `#` |
| PresetCodec.FindInstanceKey | src/ee_eq_preset_parser.cpp:149-176 | visiting the keys in order finds the plain name or else the first numbered one |
| PresetCodec.FirstInstance | src/ee_eq_preset_parser.cpp:164-176 | without the plain name it is the first of the numbered keys in the order of visiting |
| PresetCodec.FillDefaults | src/ee_eq_preset_parser.cpp:96-111 | both channels are filled in place with the defaults for the number of bands |
| PresetCodec.DefaultsOfBand | src/ee_eq_preset_parser.cpp:81-111 | every default of a band, and that bands beyond the number of bands are off |
| PresetCodec.ReadBand | src/ee_eq_preset_parser.cpp:113-147 | a band that is read has valid labels |
| PresetCodec.BandIsRead | src/ee_eq_preset_parser.cpp:113-147 | every setting of a band is read from its own key |
| PresetCodec.HeaderIsRead | src/ee_eq_preset_parser.cpp:439-451 | every setting of the equalizer section is read from its own key |
| PresetCodec.NumberOfBandsIsRead | src/ee_eq_preset_parser.cpp:447 | the number of bands in use is the nearest to the one given that is allowed |
| PresetCodec.LimiterIsRead | src/ee_eq_preset_parser.cpp:191-229 | every limiter setting that a payload gives is read as it stands under its key |
| PresetCodec.ConvolverIsRead | src/ee_eq_preset_parser.cpp:231-250 | the same of the convolver, with its position |
| PresetCodec.EmptyLimiterIsRead | src/ee_eq_preset_parser.cpp:191-229 | what an empty limiter payload stands for |
| PresetCodec.EmptyConvolverIsRead | src/ee_eq_preset_parser.cpp:231-250 | what an empty convolver payload stands for |
| PresetCodec.ReadEqualizer | src/ee_eq_preset_parser.cpp:437-480 | the loop over 32 bands reads each channel as a whole: all listed bands must be readable, unlisted ones have defaults, and unsplit channels are equal |
| PresetCodec.AcceptedEqualizer | src/ee_eq_preset_parser.cpp:437-480 | an accepted equalizer section has both channels; each listed band is read from its own key over its default, an unlisted one is its default, and the right channel must be readable even when it is not used |
| PresetCodec.ReadPreset | src/ee_eq_preset_parser.cpp:387-510 | the parse driver equals its specification, errors included; what that reads of numbered plugins is `NumberedFileIsRead` |
| PresetCodec.AcceptedFile | src/ee_eq_preset_parser.cpp:387-500 | an accepted file has an output section, a plugin that begins with `equalizer`, and payloads for the equalizer and for a limiter that is listed |
| PresetCodec.NumberedFileIsRead | src/ee_eq_preset_parser.cpp:408-500 | a file that lists `equalizer#n`, `convolver#n`, `limiter#n` with the payloads under these keys is read as the file with plain names is, and accepted exactly if the three payloads are |
| PresetCodec.ParsedPresetIsWellFormed | src/ee_eq_preset_parser.cpp:408-430 | every accepted file gives an order without duplicates that contains the equalizer, and a convolver or limiter exactly if its payload was read; the equalizer has 32 valid bands per channel and 1 to 32 in use |
| PresetCodec.ReadLines | src/ee_eq_preset_parser.cpp:545-576 | AutoEQ lines are accepted exactly if all are readable and a preamp is the first of its kind and before every band |
| PresetCodec.AcceptedFilters | src/ee_eq_preset_parser.cpp:329-385 | an AutoEQ filter line is accepted exactly if it carries what its code asks for, by a table of the codes |
| PresetCodec.FilterTable | src/ee_eq_preset_parser.cpp:329-385 | the band of an accepted line by the same table: kind, gain, Q, and what is fixed or ignored |
| PresetCodec.IgnoredLines | src/ee_eq_preset_parser.cpp:545-576 | blank lines and filters that are off make no difference to an import, wherever they stand |
| PresetCodec.ReadAutoEq | src/ee_eq_preset_parser.cpp:532-596 | the import equals its specification: all bands listed, the first 32 of them used, defaults behind |
| PresetCodec.ImportHolds | src/ee_eq_preset_parser.cpp:532-596 | the bands in the order of their lines, as many as there is room for, the preamp as input gain, neutral settings otherwise, and the warning exactly without a preamp |
| PresetCodec.RenderPreset | src/ee_eq_preset_parser.cpp:598-651 | the rendering loop equals its specification |
| PresetCodec.RenderedBandsHold | src/ee_eq_preset_parser.cpp:613-642 | a rendered channel has exactly the keys of the bands in use, each with its own band |
| PresetCodec.RenderedEqualizerIsRead | src/ee_eq_preset_parser.cpp:598-646 | a rendered equalizer is read back with the bands behind the number of bands reset |
| PresetCodec.RenderThenParse | src/ee_eq_preset_parser.cpp:387-651 | reading a rendered preset fails if and only if it asks for a limiter, and otherwise gives its normal form |
| PresetCodec.FileRoundTrip | src/ee_eq_preset_parser.cpp:387-651 | for every accepted file: when rendering can be read again, when it gives the very same preset, and what changes otherwise |
| PresetCodec.SecondRoundTrip | src/ee_eq_preset_parser.cpp:387-651 | a second round trip changes nothing but a warning |
| PresetCodec.LimiterIsNotReadBack | src/ee_eq_preset_parser.cpp:598-651 | an accepted file with a limiter that cannot be read after rendering |
| PresetCodec.ConvolverAndUnusedBandAreLost | src/ee_eq_preset_parser.cpp:598-651 | an accepted file that loses its convolver and a band beyond its number of bands |
| PresetCodec.TrimIsIdempotent | src/ee_eq_preset_parser.cpp:437-480 | resetting unused bands keeps the used ones, changes nothing the second time, and nothing at all exactly if the unused ones were defaults |
| PresetCodec.ImportRoundTrip | src/ee_eq_preset_parser.cpp:532-651 | every successful AutoEQ import is read back exactly, but for the warning about a missing preamp |
| PresetStart.StartFile | src/daemon_backend.cpp:33-55 | a session started from any accepted file has one simple path through the stages that run, in the order of the file, with the volume on the last of them only; and it does start, with every stage that can run, when nothing is refused and every hop has matching ports |
| KernelNames.NormalizeName | src/kernel_resolver.cpp:43-71 | the loop and the two trims give the lower-case words of the name joined by single spaces |
| KernelNames.LettersAreLowered | src/kernel_resolver.cpp:38-41 | capital letters become the small ones, and no other character changes |
| KernelNames.WordsAround | src/kernel_resolver.cpp:43-71 | whatever is not a letter or a digit separates words and adds nothing to them |
| KernelNames.SameNameIffSameWords | src/kernel_resolver.cpp:43-71 | two names are equal after normalisation if and only if they have the same words, letter case aside |
| KernelNames.NormalizeIsIdempotent | src/kernel_resolver.cpp:43-71 | normalising twice is normalising once |

## Left out

- PipeWire, LV2 hosting, the Zita convolution engine, libsndfile and event descriptors: foreign code. The engine is assumed to be
  a stereo FIR filter that consumes a block whether or not it reports an error.
- Sockets, signals, command line, file loading, directory search, environment switches, help texts and the tables that map labels
  and settings to plugin ports: plumbing, or easy members.
- JSON text, AutoEQ regular expressions, and the number syntax of `volume`: the model starts from trees, classified lines and numbers.
- Floating-point rounding: samples, gains and settings are real numbers; square root is a parameter with its defining property.
  A volume distinguishes finite numbers, infinities and not-a-number.
- Numbers outside the range of the integer they are converted to from a JSON fraction, for which C++ defines no result: the model
  wraps them as it does whole numbers.
- The default frequency and Q tables: functions of the number of bands about which nothing is assumed.
- Memory order: atomic accesses are sequentially consistent steps.
- The dummy buffers used before initialisation, which suffice only for blocks of at most 8192 samples, and the error text of a
  filter, which a status request may read while it is written.
- The handshake models one node; the equalizer, limiter and convolver nodes repeat it with the same fields.
- Streams are identified by their serials, assumed unique and not zero; the fallback to node ids and the reuse of ids in the
  metadata are not modelled.
- Callbacks that patch new streams after a failed rollback: `SinkChain` says which streams are patched when a call returns.
- That a convolver or equalizer in pass-through does not apply the volume: the model says which stage is responsible for it.
- The polling loop of the worker thread, except that it may fail at any time.
- The engine object of the convolver is a value inside the host, so sharing it with other owners is not modelled.
- The lock between the host and its owner is a parameter: whether the try-lock succeeded.
- ConvolverNode.ProcessReady: requires the two channels to have separate buffers, and models the ready branch only; before that, and
  while the parameters change, the node copies its input.
- BlockSize.NormalizedZitaBlockSize: requires a size of at most 2^31, because the loop does not end above it.
- ConvolverHosts.ConvolverHost.EnsureReady: requires the same.
- KernelShaping.KernelData.ApplyIrWidthAndAutogain: leaves out the width -100, where the source divides by zero.

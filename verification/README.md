# Verified models of the Nexus 9 (flounder) device HALs

Five components of the device tree keep state across calls and threads, and their
correctness rests on invariants that no single function shows. This project models them in
Dafny and proves those invariants.

| component | source | modules |
|---|---|---|
| primary audio HAL | `audio/hal/audio_hw.c`, `audio_hw.h` | `EchoReference`, `StreamProtocol`, `StreamRuns`, `StreamCalls`, `Offload`, `Routing`, `PcmSelection`, `CapturePipeline` |
| offload visualizer | `audio/visualizer/nv_offload_visualizer.c` | `VisualizerLib`, `VisualizerCapture` |
| sensor event ring and clock | `libsensors/InputEventReader.*`, `CwMcuSensor.*` | `EventRing`, `SensorClock`, `CwMcuSensors` |
| battery level governor | `health/healthd-flounder.cpp` | `Battery` |
| sound trigger | `audio/soundtrigger/sound_trigger_hw.c` | `SoundTrigger` |

Code that one thread runs on its own state is a class whose methods update fields and arrays
as the source does, each proved against a function of the old state. Where threads meet, the
protocol is a state machine whose steps are the code between two lock operations, so a
condition wait is a release followed by a later re-acquire; the theorems then hold of every
run, of any length and any interleaving. `Runs` is what these machines share: runs, invariants,
and the principle that a property lost by certain steps only holds throughout exactly the runs
without one. `EchoReference`, `Offload` and `SoundTrigger` have
both: the steps as functions, and a class with the source's statements whose methods are
proved to be those steps.

What the kernel, the codecs, the effects and the device-choice helpers answer is a parameter
of the step or method that asks them, so the theorems hold for every answer.

## What the proofs found

Each of these is a lemma with the exact condition under which the code does what it is for.

* Echo references are never released twice or used after release, in any run:
  `StreamProtocol.RunsAreSafe`. One can be lost, when the device and the running output compare
  32-bit generations that are a multiple of 2^32 changes apart:
  `StreamRuns.ReferencesAreConserved` says a run loses none if and only if no step of it meets
  that collision, and `StreamRuns.AReferenceCanBeLost` builds a run that does.
* active_input and the capture entries of the use-case list point to open inputs throughout a run,
  and no closed input is touched, if and only if no step frees an input that one of them still
  names: `StreamProtocol.PointsOpenIffNamedNeverFreed`. Two things lead there. An input start whose
  PCM opens but whose resampler cannot be created reports a failure and undoes nothing
  (`StreamRuns.AClosedInputCanBeUsed`); and entries are looked up by use case, so that of two inputs
  of one use case the second to stop keeps its entry (`StreamRuns.AClosedHotwordInputCanBeUsed`).
  Runs without a half start and without a second start of a listed use case are safe:
  `StreamProtocol.TidyIffNeverUntidied`, `StreamProtocol.SafeWhileTidy`.
* A mixer card has one list node for each use case, so listing a use case again takes it from the
  earlier entry, whose mixer list then never comes back to its head. Operations that walk such a
  list hold the device lock for ever; `Routing.AudioDevice.Run` says which runs get that far, and
  what holds of the others. One client suffices: `Routing.AHalfStartedCaptureGetsStuck`. Runs that
  list no use case twice never do: `Routing.ListedOnceNeverStuck`.
* The offload stream is listed exactly while it should be, throughout a run, if and only if no
  write meets plain PAUSED: `Offload.ListedIffNeverWritesPaused`.
* A standby of the offload stream keeps the device lock through its wait, while re-routing
  takes the stream lock first and then wants the device lock, and so does a pause while
  re-routing waits: `Offload.StuckIffCrossed`, `Offload.CrossedIsOneOfTwo`,
  `Offload.StandbyAndReroutingCanDeadlock`, `Offload.PauseAndReroutingCanDeadlock`.
* An effect attached to a capture stream that ran without one finds its process buffer sized
  but not allocated: `CapturePipeline.CaptureStream.Attach` says when later reads have room,
  `ReadAndProcess` which ones do not, `CapturePipeline.AnEffectAttachedLateOverruns` is an
  instance.
* A stalled visualizer capture clears the reply from a pointer already moved: all writes stay
  inside it if and only if the ring index has reached the reply's size:
  `VisualizerCapture.Visualizer.Capture`, `VisualizerCapture.AStalledCaptureWritesPastItsReply`.
* The visualizer's latency compensation is zero if and only if the last update is at most 2^31
  milliseconds old: `VisualizerCapture.NoLatency`.
* A refused stop or unload powers the hotword detector off under an active recognition; it is
  powered throughout exactly the runs without one: `SoundTrigger.PoweredIffNeverRefused`,
  `SoundTrigger.ARefusedStopSilencesTheDetector`.
* A recognition whose thread could not be created is taken for started, and a stop of it joins on
  a handle that was not set: `SoundTrigger.AttendedIffThreadsAreCreated`,
  `SoundTrigger.AStopCanJoinNoThread`.

The termination branch of the sound trigger's poll loop is never taken: the cleared callback
is always seen first (`SoundTrigger.AlwaysOneThread`).

## Model

| member | source | states |
|---|---|---|
| EchoReference.PutIsSafe | audio/hal/audio_hw.c:1128-1153 | putting a reference back never releases one that the output still holds, keeps every ownership invariant, and loses a reference exactly when the generations collide |
| EchoReference.GetIsSafe | audio/hal/audio_hw.c:1155-1182 | getting a reference gives one exactly when the output runs and creation succeeds; the previous one is released, left to the output, or lost exactly in a collision |
| EchoReference.StartIsSafe | audio/hal/audio_hw.c:2448-2453 | a starting output shares the device's reference; no ownership changes hands |
| EchoReference.SyncIsSafe | audio/hal/audio_hw.c:3086-3103 | an output that saw another generation releases only a reference that is its own, and takes over the device's |
| EchoReference.StandbyIsSafe | audio/hal/audio_hw.c:2638-2657 | standby releases the output's reference exactly when it is the output's own, unless the generations collide |
| EchoReference.UseIsSafe | audio/hal/audio_hw.c:3126-3137 | a reference held by the device or the output has not been released |
| EchoReference.MisuseIsNoticed | audio/hal/audio_hw.c:1128-1182 | a released reference that is used or released again is noticed, in a write, a standby and a release, and nothing else is |
| EchoReference.CloseGenerationsDoNotCollide | audio/hal/audio_hw.h:303-309 | generations less than 2^32 changes apart are told apart |
| EchoReference.EchoState.PutEchoReference | audio/hal/audio_hw.c:1128-1153 | the statements on 32-bit counters do what the ownership model says |
| EchoReference.EchoState.GetEchoReference | audio/hal/audio_hw.c:1155-1182 | the same, with the reference returned being the device's |
| EchoReference.EchoState.StartOutputStream | audio/hal/audio_hw.c:2448-2453 | the same for the start of the output |
| EchoReference.EchoState.UpdateOutput | audio/hal/audio_hw.c:3086-3103 | the same for the re-synchronisation before a write |
| EchoReference.EchoState.DoOutStandby | audio/hal/audio_hw.c:2638-2657 | the same for standby |
| StreamProtocol.RunsAreSafe | audio/hal/audio_hw.c:2754-2832 | throughout every run of any number of threads: no double release, no use after release, no failed assertion on active_input; no reference held is a released one; a captured input stays the active one; a running output of the device's generation has the device's reference |
| StreamProtocol.PointsOpenIffNamedNeverFreed | audio/hal/audio_hw.c:1901-2102 | throughout a run active_input and every capture entry of the use-case list point to open inputs, and no closed input is touched through them or its lock, if and only if no step frees an input that one of them names |
| StreamProtocol.TidyIffNeverUntidied | audio/hal/audio_hw.c:1941-1981 | the capture entries are exactly those of the inputs that run or are being started, one of a use case, throughout exactly the runs in which no start stops half way and no use case is started that is listed already |
| StreamProtocol.SafeWhileTidy | audio/hal/audio_hw.c:2003-2016 | in those runs everything pointed to is open and no closed input is touched |
| StreamProtocol.NamesStep | audio/hal/audio_hw.c:4363-4412 | which steps leave a pointer to a freed input, exactly |
| StreamProtocol.TidyStep | audio/hal/audio_hw.c:1901-1981 | which steps leave an entry without its running input, exactly |
| StreamProtocol.StepKeepsInv | audio/hal/audio_hw.h:454-457 | every step of out_write, out_standby, out_set_parameters, in_read, in_standby, effect changes and close keeps the protocol's invariant, whatever fails |
| StreamProtocol.OutputEcho | audio/hal/audio_hw.c:3012-3103 | an output step leaves the device's reference and generation alone, and touches the echo state only with the output's lock held |
| StreamProtocol.StandbyInputOk | audio/hal/audio_hw.c:3501-3540 | putting an input in standby keeps the shared invariants and clears active_input only if the input ran |
| StreamProtocol.StartInputOk | audio/hal/audio_hw.c:1941-2102 | a start leaves its input active exactly if a profile was found and the PCM opened, also where it then reports an error; the echo state stays sound |
| StreamProtocol.TidyFreesNothingNamed | audio/hal/audio_hw.c:4363-4412 | an input about to be freed is neither active nor listed, where every entry is that of a running input |
| StreamProtocol.TouchesOpen | audio/hal/audio_hw.c:797-866 | where everything pointed to is open no step reads a closed input: not select_devices through the first capture entry, not out_write or out_set_parameters through active_input |
| StreamProtocol.EffectMoves | audio/hal/audio_hw.c:3708-3717 | what each step does to active_input, to the capture entries and to which inputs run |
| StreamProtocol.OwnEntryIsFirst | audio/hal/audio_hw.c:1906-1920 | the entry a stop takes off is that of the stopped input, where every entry is that of a running input |
| StreamProtocol.OthersStay | audio/hal/audio_hw.h:447-457 | what holds of one thread's place survives any step of another that holds none of its locks |
| StreamProtocol.GoKeepsInv | audio/hal/audio_hw.c:3237-3247 | a thread inside a call keeps the invariant; where it must, it finds its captured input active |
| StreamProtocol.BeginKeepsInv | audio/hal/audio_hw.c:3694-3707 | so does the beginning of any call the interface allows |
| StreamProtocol.OpenKeepsInv | audio/hal/audio_hw.c:4279-4361 | so does opening an input |
| StreamRuns.ReferencesAreConserved | audio/hal/audio_hw.c:1128-1182 | at the end of a run every reference created is released or still held by the device or the output, if and only if no step of the run met a generation collision |
| StreamRuns.ConservedIffNoLeak | audio/hal/audio_hw.c:2646-2657 | the same from any state, and a reference once lost stays lost |
| StreamRuns.StepOwnership | audio/hal/audio_hw.c:1128-1182 | which steps lose a reference, exactly |
| StreamRuns.KeepingUpDoesNotLeak | audio/hal/audio_hw.h:303-309 | a running output that is never 2^32 generations behind loses none |
| StreamRuns.AReferenceCanBeLost | audio/hal/audio_hw.c:1139-1147 | a run from the start that loses one: an input restarted 2^31 times between two writes |
| StreamRuns.AClosedInputCanBeUsed | audio/hal/audio_hw.c:3035-3038 | a run from the start in which a half started input is closed and the next write reads it |
| StreamRuns.AClosedHotwordInputCanBeUsed | audio/hal/audio_hw.c:851-853 | a run in which no start fails: the second of two hotword inputs stops and is closed, and the next write reads it through its entry |
| StreamRuns.NoDeadlock | audio/hal/audio_hw.h:447-457 | throughout every run of any number of threads: while some thread is inside a call, some thread inside a call has a next step, whatever devices and sources answer |
| StreamCalls.StartCapturesActive | audio/hal/audio_hw.c:3012-3039 | in any interleaving, the step that takes the output out of standby captures the active input if the caller is to silence it, and otherwise none |
| StreamCalls.WriteStartsOutput | audio/hal/audio_hw.c:3012-3033 | a write that finds the output in standby starts it exactly if its device opens |
| StreamCalls.ReroutingCapturesActive | audio/hal/audio_hw.c:2754-2792 | re-routing of a running output captures the active input in the same way, and puts the output in standby exactly if its devices no longer serve |
| StreamCalls.CapturedIsPutInStandby | audio/hal/audio_hw.c:3237-3247 | in any run a thread that has captured an input comes to the end of its call only by putting it in standby, and then no input is active, unless a half start had left it active in standby |
| StreamCalls.AWriteAlone | audio/hal/audio_hw.c:2979-3249 | a write from beginning to end, with no other thread inside a call: the output runs afterwards unless it could not start or the write failed, with the device's reference, and the input it silences is in standby without reference, entry or active_input |
| StreamCalls.AReroutingAlone | audio/hal/audio_hw.c:2731-2832 | the same for re-routing |
| StreamCalls.AStandbyAlone | audio/hal/audio_hw.c:2672-2688 | the output is in standby without a reference, and no input is changed |
| StreamCalls.AReadAlone | audio/hal/audio_hw.c:3681-3760 | a read starts an input in standby exactly if a profile is found, the PCM opens and, without echo canceller, the resampler is created; it is then active and listed, with a new reference for its canceller if the output runs; a failed read ends in standby |
| StreamCalls.AnInputCallAlone | audio/hal/audio_hw.c:3557-3676 | standby, canceller changes, re-selection and close: what each leaves of the input, its reference, its use-case entry and active_input |
| StreamCalls.StepReads | audio/hal/audio_hw.c:797-866 | a step touches a closed input exactly if one of the inputs it reads is closed: by its lock, as the active one, or through the first capture entry and the first that is not hotword capture |
| Offload.HandleStep | audio/hal/audio_hw.c:2144-2200 | while the worker stays in a compress call, no step closes or replaces the handle it uses |
| Offload.CommandsStep | audio/hal/audio_hw.c:2120-2131 | commands are taken in the order sent, each callback answers a taken command, in order and once, a wait for a buffer with WriteReady and a drain with DrainReady |
| Offload.SendingStep | audio/hal/audio_hw.c:2120-2131 | what each step sends: a drain of the kind asked for, the end of the worker, or a wait for a buffer where a running or just started stream takes only part of a write |
| Offload.WorkerStep | audio/hal/audio_hw.c:2144-2214 | every command but EXIT that meets a handle is run with it, every run ends with one callback that answers it, and no other step calls back |
| Offload.HandleAndCommandsSafe | audio/hal/audio_hw.c:2133-2226 | throughout every run: blocked exactly while in a call, and then the stream's handle is the one in use; commands taken and answered in order |
| Offload.ListingStep | audio/hal/audio_hw.c:2408-2431 | the one step that breaks the listing property is a write to a stream in plain PAUSED |
| Offload.ListedIffNeverWritesPaused | audio/hal/audio_hw.c:3356-3430 | throughout a run the stream is listed once while playing and not while paused, idle without handle in standby, with no use case ever missing, if and only if no write meets PAUSED |
| Offload.AWriteWhilePausedHasNoPath | audio/hal/audio_hw.c:3055-3076 | a run that ends playing and unlisted |
| Offload.StuckIffCrossed | audio/hal/audio_hw.c:2133-2142 | some thread inside a call has a next step, if and only if no standby waits with the device lock while a holder of the stream lock wants it |
| Offload.CrossedIsOneOfTwo | audio/hal/audio_hw.c:2754-2760 | that is re-routing against a waiting standby of the client, or a pause against a waiting re-routing |
| Offload.StandbyAndReroutingCanDeadlock | audio/hal/audio_hw.c:2672-2688 | a run that ends in the first |
| Offload.PauseAndReroutingCanDeadlock | audio/hal/audio_hw.c:3356-3373 | a run that ends in the second |
| Offload.OffloadOutput.StopOutputStream | audio/hal/audio_hw.c:2408-2431 | disables the path unless paused, and goes idle |
| Offload.OffloadOutput.StartOutputStream | audio/hal/audio_hw.c:2433-2476 | lists the stream and opens a new handle, or undoes the listing |
| Offload.OffloadOutput.OutWrite | audio/hal/audio_hw.c:3008-3076 | with the stream lock alone: on standby it gives the lock back and wants lock_inputs, otherwise path after a flush, command for the rest of the buffer, and playing |
| Offload.OffloadOutput.OutWriteStarts | audio/hal/audio_hw.c:3010-3052 | with both locks: the start, or back to the running case if another write was faster |
| Offload.OffloadOutput.OutStandby | audio/hal/audio_hw.c:2638-2688 | standby at once, or a wait for the worker first |
| Offload.OffloadOutput.OutSetParameters | audio/hal/audio_hw.c:2770-2792 | the re-routing thread's standby, of a listed stream whose devices do not serve the new ones |
| Offload.OffloadOutput.OutPause | audio/hal/audio_hw.c:3356-3373 | the pause step |
| Offload.OffloadOutput.OutResume | audio/hal/audio_hw.c:3375-3393 | the resume step |
| Offload.OffloadOutput.OutFlush | audio/hal/audio_hw.c:3411-3430 | the flush step, refused exactly while playing |
| Offload.OffloadOutput.OutDrain | audio/hal/audio_hw.c:3395-3409 | the drain step |
| Offload.OffloadOutput.WorkerTakesCommand | audio/hal/audio_hw.c:2157-2182 | takes the oldest command; EXIT ends the worker, a missing handle drops the command |
| Offload.OffloadOutput.WorkerCallReturns | audio/hal/audio_hw.c:2183-2214 | unblocks and calls back, WriteReady exactly after a wait for a buffer |
| Routing.CountPositive | audio/hal/audio_hw.c:722-795 | a device's count is positive exactly when a listed use case uses it |
| Routing.SharedPathIsOneDevice | audio/hal/audio_hw.c:264-303 | devices that share a mixer path name are never in use at once |
| Routing.PathApplied | audio/hal/audio_hw.c:738-757 | enabling a device adds exactly its path |
| Routing.PathReset | audio/hal/audio_hw.c:778-793 | the last disable of a device takes exactly its path away |
| Routing.RetargetCounts | audio/hal/audio_hw.c:872-906 | moving one use case to other devices changes each count by that use case's part in it |
| Routing.SelectedHolds | audio/hal/audio_hw.c:797-914 | after a selection the use case's first entry holds the device chosen and none of the other direction, so does the capture entry that a primary playback re-selects, and every other entry is as before |
| Routing.OpDoes | audio/hal/audio_hw.c:1901-2102 | what a start, stop, re-routing or selection does to the list, entry by entry |
| Routing.StopUndoesStart | audio/hal/audio_hw.c:2371-2406 | stopping what was just started leaves the other use cases as before, but for the capture side a primary start re-selected |
| Routing.StopTakesOwnEntry | audio/hal/audio_hw.c:1908-1920 | a stopped hotword stream is still listed exactly if a hotword stream was listed before it |
| Routing.HotwordIsNeverWalked | audio/hal/audio_hw.c:812-813 | neither selection nor a stop walks the mixer list of a hotword use case |
| Routing.ListedOnceNeverStuck | audio/hal/audio_hw.c:1974-1979 | a run that lists no use case twice walks no mixer list whose node was taken |
| Routing.AHalfStartedCaptureGetsStuck | audio/hal/audio_hw.c:2003-2016 | a start that fails for want of a resampler, one that succeeds and a stop: the stop walks such a list |
| Routing.AudioDevice.DisableSndDevice | audio/hal/audio_hw.c:760-795 | counts go down for each part of the device that is in use, the "already 0" branch is taken exactly if some part is not, and the mixer list is walked exactly for a last use |
| Routing.AudioDevice.EnableSndDevice | audio/hal/audio_hw.c:722-758 | counts go up for each part of the device, paths stay those of devices in use, and the mixer list is walked exactly for a first use |
| Routing.AudioDevice.SelectDevices | audio/hal/audio_hw.c:797-914 | the nested selection walks a taken mixer list exactly if it moves a use case with one; otherwise the use case holds the device chosen, the re-selected capture entry its own, every other entry is as before, and a device is in use, with its path applied, exactly if a listed use case holds it |
| Routing.AudioDevice.EnableOutputPath | audio/hal/audio_hw.c:2390-2406 | a listed and selected use case, unless the selection gets stuck |
| Routing.AudioDevice.StopUseCase | audio/hal/audio_hw.c:1901-1920 | the first use case of the id is off and gone, unless its mixer list was taken and its device has no other user |
| Routing.AudioDevice.StartInput | audio/hal/audio_hw.c:1941-2102 | unless it gets stuck, a start whose PCM opens is listed and selected, also where it fails for want of a resampler, and one whose PCM does not open is stopped again |
| Routing.AudioDevice.StartOutput | audio/hal/audio_hw.c:2433-2476 | unless it gets stuck, a started playback is listed and selected and a failed one is stopped again |
| Routing.AudioDevice.DowngradeCombo | audio/hal/audio_hw.c:2790-2802 | a primary output on speaker and headphones gives up the speaker only |
| Routing.AudioDevice.Reroute | audio/hal/audio_hw.c:2790-2802 | that, for the offload output, and a selection |
| Routing.AudioDevice.Run | audio/hal/audio_hw.c:722-907 | a sequence of starts, stops, re-routings and plain re-selections gets stuck if and only if one of them walks a mixer list whose node was taken; otherwise each has done to the list what it is for, a device is in use exactly if a listed use case holds it, every count equals the uses listed, no count was ever taken below 0, and with mixer cards throughout a path is applied exactly when a device of that path is in use |
| PcmSelection.BitsDecrease | audio/hal/audio_hw.c:2281-2291 | each round of the selection clears a set bit |
| PcmSelection.GetIsFirstChosen | audio/hal/audio_hw.c:418-429 | the profile found is the first of its kind that shares a device with the mask, input bit aside |
| PcmSelection.GetIsFirstThatServes | audio/hal/audio_hw.c:418-429 | the profile found is the first of the table of that kind with a device of the mask, and none is found only if there is none |
| PcmSelection.SelectIsChosen | audio/hal/audio_hw.c:2281-2291 | on disjoint profiles the greedy rounds give one pass over the table, and leave what that does not cover |
| PcmSelection.SelectionServesAll | audio/hal/audio_hw.c:2269-2294 | for any table, a selection leaves exactly the devices that no profile of the kind serves |
| PcmSelection.OpenIffSameChoice | audio/hal/audio_hw.c:2778-2788 | the check of the running devices, against a one-pass choice |
| PcmSelection.ReroutingAgreesWithReselection | audio/hal/audio_hw.c:2778-2788 | a running stream stays open exactly when a fresh selection would give the same profiles and cover the whole mask |
| PcmSelection.PlaybackProfilesDisjoint | audio/hal/audio_hw.c:57-149 | the playback profiles are disjoint |
| PcmSelection.PlaybackOpens | audio/hal/audio_hw.c:57-149 | playback opens the codec exactly for speaker and wired outputs and the voice link exactly for Bluetooth ones |
| PcmSelection.OutputStream.UcSelectPcmDevices | audio/hal/audio_hw.c:2269-2294 | the loop computes the greedy selection |
| PcmSelection.OutputStream.Route | audio/hal/audio_hw.c:2770-2790 | the branch of out_set_parameters keeps the open list equal to a fresh selection, and goes to standby otherwise |
| CapturePipeline.PcmReader.GetNextBuffer | audio/hal/audio_hw.c:1722-1820 | frames from the front of what is ahead, at least one unless the read failed, reading the device only when nothing is ahead |
| CapturePipeline.PcmReader.ReleaseBuffer | audio/hal/audio_hw.c:1822-1834 | released frames count as handed out, the rest stays ahead |
| CapturePipeline.PcmReader.ReadSome | audio/hal/audio_hw.c:1851-1881 | an iteration hands out at least a frame or fails |
| CapturePipeline.PcmReader.ReadFrames | audio/hal/audio_hw.c:1838-1884 | success hands out exactly the next frames of the captured stream, across periods, and touches no other part of the buffer; a failure is that of the last device read |
| CapturePipeline.LongerPartExtends | audio/hal/audio_hw.c:1838-1884 | what was handed out is a growing part of the captured stream |
| CapturePipeline.CaptureStream.Attach | audio/hal/audio_hw.c:3802-3809 | an attached effect finds the process buffer and what waited in it; every later request has room if and only if the buffer is as large as its size says |
| CapturePipeline.CaptureStream.Detach | audio/hal/audio_hw.c:3811-3839 | after removal no request overruns the process buffer |
| CapturePipeline.CaptureStream.Restart | audio/hal/audio_hw.c:2075-2082 | a new start, also after any failed call, has room for every request again and drops what was not delivered |
| CapturePipeline.CaptureStream.InRead | audio/hal/audio_hw.c:3681-3760 | reads with their recovery: on success exactly the frames asked for; whatever fails, the stream is ready for the next read, unless this one wrote outside its buffers |
| CapturePipeline.CaptureStream.ReadPastEnd | audio/hal/audio_hw.c:1602-1624 | a read into a buffer that is too small fails before its end or writes past it |
| CapturePipeline.AnEffectAttachedLateOverruns | audio/hal/audio_hw.c:1682-1693 | a mono client of a stereo device, one read without effect, one with |
| CapturePipeline.CaptureStream.Reload | audio/hal/audio_hw.c:1600-1628 | the process buffer is grown and filled without losing what it held |
| CapturePipeline.CaptureStream.RunEffect | audio/hal/audio_hw.c:1634-1660 | the effect takes what it consumes, and no more than waits, from the front of the process buffer, the rest moves down, and what it produces is written as far as there is room |
| CapturePipeline.CaptureStream.SeenInOrder | audio/hal/audio_hw.c:1656-1663 | the effect has seen what waited when it was attached, and from then on the captured stream, in order |
| CapturePipeline.CaptureStream.ProcessFrames | audio/hal/audio_hw.c:1596-1680 | the loop ends for every effect that keeps producing, with exactly the frames asked for: what its calls produced, no call more than needed; what they consumed has left the process buffer |
| CapturePipeline.CaptureStream.PassFrames | audio/hal/audio_hw.c:1682-1696 | the same without an effect |
| CapturePipeline.CaptureStream.Finish | audio/hal/audio_hw.c:1698-1717 | only the main channels reach the client's buffer |
| CapturePipeline.CaptureStream.ReadAndProcess | audio/hal/audio_hw.c:1559-1720 | success gives exactly the frames asked for, consecutive in what was made; a call writes outside the process buffer only where the buffer is smaller than a request that its size claims to hold, and such a call cannot succeed otherwise; after any call the stream can be restarted |
| CapturePipeline.StrippedSample | audio/hal/audio_hw.c:1698-1717 | where each kept sample stands in interleaved memory |
| VisualizerLib.Library.StartOutput | audio/visualizer/nv_offload_visualizer.c:369-412 | a new output holds exactly the created effects of its handle; the first starts the thread; the result is set only where the call is refused |
| VisualizerLib.Library.StopOutput | audio/visualizer/nv_offload_visualizer.c:415-460 | the output is gone; the last one asks the thread to exit and waits for it; the result is set only where the call is refused |
| VisualizerLib.Library.JoinReturns | audio/visualizer/nv_offload_visualizer.c:448-458 | once the thread has exited no thread is live |
| VisualizerLib.Library.ThreadChecksExit | audio/visualizer/nv_offload_visualizer.c:296-312 | the thread exits exactly when a stop waits for it |
| VisualizerLib.Library.ProcessAll | audio/visualizer/nv_offload_visualizer.c:330-351 | process is called on exactly the created effects attached to a playing output, once on each |
| VisualizerLib.Library.Create | audio/visualizer/nv_offload_visualizer.c:856-919 | a new effect joins the list of its output, if that plays |
| VisualizerLib.Library.Release | audio/visualizer/nv_offload_visualizer.c:921-944 | a released effect is in no list |
| VisualizerLib.Library.Offload | audio/visualizer/nv_offload_visualizer.c:1124-1154 | a moved effect is in the list of its new output only |
| VisualizerLib.Library.Enable | audio/visualizer/nv_offload_visualizer.c:1057-1072 | only an initialised, created effect becomes active |
| VisualizerLib.Library.Disable | audio/visualizer/nv_offload_visualizer.c:1073-1088 | only an active, created effect goes back |
| VisualizerLib.Library.AddEffectToOutput | audio/visualizer/nv_offload_visualizer.c:230-243 | adds an effect once |
| VisualizerLib.Library.RemoveEffectFromOutput | audio/visualizer/nv_offload_visualizer.c:245-259 | takes an effect out and no other |
| VisualizerLib.WithoutRemoves | audio/visualizer/nv_offload_visualizer.c:245-259 | removal from a duplicate-free list |
| VisualizerCapture.ScaledFrameIsExact | audio/visualizer/nv_offload_visualizer.c:676-716 | in both modes and for every buffer the byte stored is 128 and the sum of the frame's two samples divided by the power of two, rounded down; it fits |
| VisualizerCapture.MinClzIsLeast | audio/visualizer/nv_offload_visualizer.c:678-690 | the leading-zero count found is least over the buffer, and at least 17 |
| VisualizerCapture.ShiftFollowsThePeak | audio/visualizer/nv_offload_visualizer.c:676-701 | normalised scaling takes the least shift of at least 4 that brings every sample of the buffer into range; the other mode shifts by 9 |
| VisualizerCapture.FlippedSign | audio/visualizer/nv_offload_visualizer.c:712-712 | flipping the top bit of a byte moves it by 128 |
| VisualizerCapture.NoLatency | audio/visualizer/nv_offload_visualizer.c:750-757 | the latency is 0 if and only if the last update is at most 2^31 ms old |
| VisualizerCapture.RingStep | audio/visualizer/nv_offload_visualizer.c:703-716 | a stored byte becomes the newest of the last 65536, with the index resting at the end |
| VisualizerCapture.CopyOutIsLast | audio/visualizer/nv_offload_visualizer.c:760-776 | the copy in one or two pieces is the last k bytes |
| VisualizerCapture.Visualizer.Reset | audio/visualizer/nv_offload_visualizer.c:514-524 | silence everywhere |
| VisualizerCapture.Visualizer.FindShift | audio/visualizer/nv_offload_visualizer.c:676-701 | the loop finds the shift |
| VisualizerCapture.Visualizer.Process | audio/visualizer/nv_offload_visualizer.c:633-732 | one byte per frame is added to what was produced since the reset |
| VisualizerCapture.Visualizer.Capture | audio/visualizer/nv_offload_visualizer.c:740-792 | up to 2^31 ms after the last update the reply is the last capture_size bytes of 65536 silence bytes followed by everything produced since the reset; a stall clears it from where the pointer stands, and all writes stay inside it if and only if there is no stall or the index has reached capture_size; beyond 2^31 ms, the same of the bytes before the remaining latency while those are in the ring |
| VisualizerCapture.AStalledCaptureWritesPastItsReply | audio/visualizer/nv_offload_visualizer.c:779-787 | ten frames played, a reply of 1024: the stalled read clears 1014 bytes behind it |
| EventRing.WindowUntouched | libsensors/InputEventReader.cpp:51-55 | what read writes at the head overlaps no unread event |
| EventRing.WindowExtends | libsensors/InputEventReader.cpp:58-66 | moving the head and copying back the wrapped part appends the new events |
| EventRing.InputEventCircularReader.Fill | libsensors/InputEventReader.cpp:47-70 | appends the whole events read; a failed or torn read leaves the queue unchanged |
| EventRing.InputEventCircularReader.ReadEvent | libsensors/InputEventReader.cpp:72-77 | tells whether there is an event and gives the oldest |
| EventRing.InputEventCircularReader.Next | libsensors/InputEventReader.cpp:79-86 | drops the oldest event |
| EventRing.InputEventCircularReader.Advance | libsensors/InputEventReader.cpp:58-66 | all writes stay in the store, and the queue grows by the events read |
| SensorClock.SlopeNeverNegative | libsensors/CwMcuSensor.cpp:207-236 | re-basing keeps the slope non-negative and every clock invariant, also where an older clock reading is applied after a newer one |
| SensorClock.TranslationDoesNotStepBack | libsensors/CwMcuSensor.cpp:1096-1112 | a computed time is not before the sensor's last |
| SensorClock.StepKeepsInv | libsensors/CwMcuSensor.cpp:1084-1134 | sync, enable and both halves of the translation keep the invariant, in any order |
| SensorClock.TimestampsNeverRunBackwards | libsensors/CwMcuSensor.cpp:1084-1134 | between hub resets each sensor's delivered times never decrease and none is in the future, in every interleaving |
| SensorClock.SyncMeasures | libsensors/CwMcuSensor.cpp:207-236 | a sync sets the rate to that of the two clocks since the last one, and the offset to their difference |
| SensorClock.ResetForgets | libsensors/CwMcuSensor.cpp:213-231 | a reset of the hub sets the rate to 1 and forgets every sensor's last times |
| SensorClock.TimeAdvances | libsensors/CwMcuSensor.cpp:1094-1113 | a sensor's time advances by the hub's time at the measured rate, rounded down; its first event after a sync is at hub time and offset if that is later |
| SensorClock.SteadyClockIsExact | libsensors/CwMcuSensor.cpp:1084-1134 | against a hub clock that does not drift every delivered time is exactly its event's, over whole runs, and every stored event of an enabled sensor is delivered |
| SensorClock.TimesAreExactFromFirstSync | libsensors/CwMcuSensor.cpp:207-236 | so it is from the first sync after the start |
| CwMcuSensors.ReturnsAtMostCount | libsensors/CwMcuSensor.cpp:1070-1149 | at most count are returned, and fewer only when the queue is empty |
| CwMcuSensors.CallsContinueEachOther | libsensors/CwMcuSensor.cpp:1070-1149 | two calls take what one call with room for both would |
| CwMcuSensors.EachEventOnceInOrder | libsensors/CwMcuSensor.cpp:1070-1149 | what is returned comes from the queued events, each once, in order |
| CwMcuSensors.BatchIsLogged | libsensors/CwMcuSensor.cpp:1115-1143 | the readings returned are the deliveries the clock's theorem speaks of |
| CwMcuSensors.DeliveredIfEnabled | libsensors/CwMcuSensor.cpp:1115-1143 | a sample reaches the caller exactly if its sensor is enabled when its time is stored, with that time; flushes always do |
| CwMcuSensors.CwMcuSensor.SyncTimeThread | libsensors/CwMcuSensor.cpp:207-236 | the loop and assignments re-base the clock |
| CwMcuSensors.CwMcuSensor.ComputeTime | libsensors/CwMcuSensor.cpp:1094-1113 | the first critical section computes the time |
| CwMcuSensors.CwMcuSensor.StoreAndDeliver | libsensors/CwMcuSensor.cpp:1115-1143 | the second clamps, stores and delivers it |
| CwMcuSensors.CwMcuSensor.SetEnabled | libsensors/CwMcuSensor.cpp:761-830 | enabling asks for a re-based time, and the bit is set or cleared if the file could be opened |
| CwMcuSensors.CwMcuSensor.ReadEvents | libsensors/CwMcuSensor.cpp:1050-1150 | one fill, then the events a call may take, translated with whatever other threads do in between; the rest stays queued |
| Battery.NormalDrop | health/healthd-flounder.cpp:195-221 | over any discharging run at 3000 mV and above the level never rises and falls by at most 2 in 56 seconds |
| Battery.ForcedDrop | health/healthd-flounder.cpp:222-235 | over any run in 2800..2999 mV after a forced drop it falls by at most 6 in 56 seconds |
| Battery.CriticalDrop | health/healthd-flounder.cpp:222-235 | the same from any state, with 6 more for the first forced drop |
| Battery.ChargingFollows | health/healthd-flounder.cpp:236-240 | n charging polls bring the level down to a lower gauge at once and up to a higher one by 1 each, where 100 counts as 99 |
| Battery.FullReaches100 | health/healthd-flounder.cpp:182-187 | n polls of a full battery bring it up by 1 each, to 100 |
| Battery.DrainingFollows | health/healthd-flounder.cpp:200-221 | n draining polls at 3000 mV and above, none too soon after another, bring it down to a lower gauge by 2 each, and never up |
| Battery.ForcedDropFollows | health/healthd-flounder.cpp:222-235 | n draining polls in 2800..2999 mV, none too soon after another, bring it down by 6 each |
| Battery.DeadIsEmpty | health/healthd-flounder.cpp:220-221 | a draining poll below 2800 mV reports 0 |
| Battery.FirstPollReportsGauge | health/healthd-flounder.cpp:170-181 | the first poll at 3000 mV and above reports the gauge, but 99 for 100, unless the charger reports full |
| Battery.WatchesNextThreshold | health/healthd-flounder.cpp:134-154 | while a battery that is not empty drains, the monitor watches the next threshold below the cell's voltage, and else none |
| Battery.ReportsHealthAndStatus | health/healthd-flounder.cpp:109-132 | the health follows the level and then the temperature, and full is reported only at 100 |
| Battery.EveryReportInRange | health/healthd-flounder.cpp:156-252 | every report is in 0..100, rises by at most 1, reaches 100 only when full; FULL means 100, no status is unknown, the monitor voltage is 0 or below the cell's |
| Battery.MonitorWritesAlternate | health/healthd-flounder.cpp:134-154 | the monitor is written exactly when its voltage changes |
| Battery.BatteryGovernor.AdjustSoc | health/healthd-flounder.cpp:156-244 | the statements compute the level the model adjusts to |
| Battery.BatteryGovernor.CheckVoltageMonitor | health/healthd-flounder.cpp:134-154 | the voltage to watch, written on change only |
| Battery.BatteryGovernor.Monitor | health/healthd-flounder.cpp:246-252 | the four stages together |
| SoundTrigger.StepKeepsInv | audio/soundtrigger/sound_trigger_hw.c:250-353 | every step of client, thread and reader keeps the life-cycle invariant |
| SoundTrigger.AlwaysOneThread | audio/soundtrigger/sound_trigger_hw.c:250-353 | throughout every run at most one live callback thread, only while a recognition is on or a client waits for it; the wake-up byte is never what ends its loop |
| SoundTrigger.AttendedIffThreadsAreCreated | audio/soundtrigger/sound_trigger_hw.c:475-480 | every active recognition has its thread throughout exactly the runs in which creating one never fails |
| SoundTrigger.NoWakeUpIsLost | audio/soundtrigger/sound_trigger_hw.c:276-293 | while a client joins, the thread has a next step that needs nothing from outside, and each of its steps brings it closer to its end |
| SoundTrigger.JoinEnds | audio/soundtrigger/sound_trigger_hw.c:423-437 | until the join returns the client stays where it is, and it can return after at most two steps of a thread that was created, whatever the others do |
| SoundTrigger.JoinCanReturn | audio/soundtrigger/sound_trigger_hw.c:505-512 | a client that joins a created thread can return after that thread's own steps, with nothing else happening |
| SoundTrigger.AStopCanJoinNoThread | audio/soundtrigger/sound_trigger_hw.c:475-512 | a run in which a stop joins a thread that was never created |
| SoundTrigger.StopLeavesQuiet | audio/soundtrigger/sound_trigger_hw.c:487-520 | every successful stop or unload ends with no callback, no configuration, the DSP off, no streaming and an empty buffer |
| SoundTrigger.PoweredIffNeverRefused | audio/soundtrigger/sound_trigger_hw.c:514-519 | the detector is powered under an active recognition throughout exactly the runs in which no stop or unload is refused under one |
| SoundTrigger.PoweredStep | audio/soundtrigger/sound_trigger_hw.c:97-104 | which steps lose that, exactly |
| SoundTrigger.ARefusedStopSilencesTheDetector | audio/soundtrigger/sound_trigger_hw.c:487-519 | a run that does |
| SoundTrigger.SoundTriggerDevice.LoadModel | audio/soundtrigger/sound_trigger_hw.c:369-404 | one model at a time is loaded |
| SoundTrigger.SoundTriggerDevice.Start | audio/soundtrigger/sound_trigger_hw.c:444-485 | the start step |
| SoundTrigger.SoundTriggerDevice.Stop | audio/soundtrigger/sound_trigger_hw.c:487-520 | the stop step, up to the join |
| SoundTrigger.SoundTriggerDevice.UnloadModel | audio/soundtrigger/sound_trigger_hw.c:406-442 | the unload step, up to the join |
| SoundTrigger.SoundTriggerDevice.SetUpThread | audio/soundtrigger/sound_trigger_hw.c:250-286 | the thread's set-up |
| SoundTrigger.SoundTriggerDevice.HandleWakeUp | audio/soundtrigger/sound_trigger_hw.c:288-340 | after poll: a hotword starts streaming and the callback while the recognition is on, other messages are ignored, and an error or a cleared recognition ends the thread |
| SoundTrigger.SoundTriggerDevice.AfterCallback | audio/soundtrigger/sound_trigger_hw.c:317-353 | what it does after the client's callback |
| SoundTrigger.SoundTriggerDevice.FetchStreamingBuffer | audio/soundtrigger/sound_trigger_hw.c:220-248 | the first answer of the codec that is not empty decides; its samples are two bytes each |
| SoundTrigger.FirstAnswerIsFirst | audio/soundtrigger/sound_trigger_hw.c:226-244 | the answer that decides is the first that is not 0 |
| SoundTrigger.SoundTriggerDevice.ReadStreaming | audio/soundtrigger/sound_trigger_hw.c:549-590 | as many bytes as are wanted and there, from the read position, fetching exactly when all were read |

## Left out

- VisualizerCapture.Visualizer.Capture: says nothing of the bytes when a latency of more than 2^31 ms reaches back beyond the ring, where the code copies newer bytes or memory outside it.
- EchoReference.CloseGenerationsDoNotCollide: one way only; the exact condition for whole runs is StreamRuns.ReferencesAreConserved.
- SensorClock.TimestampsNeverRunBackwards: the slope is a real number, so float rounding is not modelled; a conversion out of the range of a signed 64-bit value saturates, as it does on the device's processor.
- SensorClock.StepKeepsInv: the hub times of one sensor and the reader's clock are taken not to decrease and to be below 2^63.
- CapturePipeline.CaptureStream.ReadAndProcess: one effect at a time, and as many channels in the PCM as in the stream's configuration.
- CapturePipeline.StrippedSample: buffers are arrays of frames; this lemma relates them to interleaved samples.
- Routing.AudioDevice.SelectDevices: the device-choice helpers are arbitrary results of the right direction; use cases are values in the list, replaced where the code updates them in place; a mixer list counts only as empty or not, since all profiles are on one card.
- PcmSelection.ReroutingAgreesWithReselection: masks are sets of bit positions.
- VisualizerCapture.ScaledFrameIsExact: bytes and shifts are integers; FlippedSign relates the one bitwise operation on bytes.
- Offload.HandleAndCommandsSafe: compress_open is taken to return a handle, the effect library to be loaded, and one client thread to make the calls; wake-ups of condition waits may come at any time, so a lost signal is not modelled.
- SoundTrigger.JoinEnds: client calls are taken to be serialised and made outside the callback thread, and callbacks not to be null.
- SoundTrigger.JoinCanReturn: says nothing of a join on a handle that creation did not set, whose effect is undefined; such a join may return, or not, in the model.
- StreamProtocol.PointsOpenIffNamedNeverFreed: after a closed input was touched the model goes on as if its memory were intact. A half start also leaves its PCM open.
- StreamProtocol.RunsAreSafe: one primary output that is never closed, and one input at a time that an echo canceller is ever attached to; the pre_lock pairs only order waiting threads and are not modelled.
- StreamRuns.NoDeadlock: the device lock is held only within a step, so the offload standby of Offload.StuckIffCrossed, which keeps it through a wait, and the mixer walks of Routing.AudioDevice.Run that never end are not part of this result.
- Voice calls, the tfa9895 amplifier paths of out_write and the dummy-buffer thread.
- A second non-offload output, which the echo protocol does not consult.
- Resamplers, effect internals, and the echo reference read from hardware loopback.
- Peak and RMS measurement, and parameter commands of the visualizer.
- stdev_close, which frees the streaming buffer without stopping the callback thread, and the bytes a fetch after the callback may overwrite.
- Sensor identifiers at or above the pending-event slots, unit conversion and calibration.
- Concurrent memory effects below the level of locks.
- Name tables, lights, power, thermal, key maps and configuration.

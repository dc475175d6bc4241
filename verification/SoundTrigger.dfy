/** The life of a hotword recognition: client calls against the callback thread, which sleeps
    in poll.  Each step is one critical section of the device lock, or what a thread does
    between two of them. */
module SoundTrigger {
  import opened Wrappers
  import opened Runs

  const ENOSYS: int := 38
  const EINVAL: int := 22
  const ENOMEM: int := 12

  /** Missing: creating the thread failed, which start_recognition does not notice.
      Woken: poll has returned, the lock is not taken yet. */
  datatype ThreadPc = NoThread | Missing | Created | Polling | Woken(err: bool, uevent: bool, term: bool) | InCallback | Finished

  /** `recognition`: the recognition callback is set.  `config`: whether capture was requested.
      `sock`: the termination sockets are open; `pending`: a byte waits in them.
      `strays` counts threads that were still live when another one was created. */
  datatype State = State(
    model: int, recognition: bool, config: Option<bool>,
    dspOn: bool, streaming: bool, bufRead: nat, bufLen: nat,
    sock: bool, pending: bool,
    thread: ThreadPc, joining: bool, strays: nat, status: int)

  const START := State(0, false, None, false, false, 0, 0, false, false, NoThread, false, 0, 0)

  datatype Message = NoData | NoHotword | OutOfMemory | Hotword

  datatype Step =
    | Load(ok: bool)
    | Unload(handle: int)
    | StartRecognition(handle: int, config: Option<bool>, memory: bool, creates: bool)
    | StopRecognition(handle: int)
    | ThreadStarts(socketpair: bool, uevent: bool)
    | PollReturns(err: bool, uevent: bool, other: bool)
    | ThreadHandles(message: Message)
    | CallbackReturns(fetched: Option<nat>)
    | JoinReturns
    | ReadSamples(want: nat, fetched: Option<nat>)

  predicate Live(t: ThreadPc) {
    !t.NoThread? && !t.Missing? && !t.Finished?
  }

  predicate ThreadStep(step: Step) {
    step.ThreadStarts? || step.PollReturns? || step.ThreadHandles? || step.CallbackReturns?
  }

  predicate ClientStep(step: Step) {
    step.Load? || step.Unload? || step.StartRecognition? || step.StopRecognition?
  }

  /** The client's calls are serialised; poll returns for a message, an error or a byte.  A join
      after a failed creation is on a handle that was not set: it may return, at once if the
      handle is still that of an earlier thread, which has finished, or it may not. */
  predicate Enabled(s: State, step: Step) {
    match step
    case ThreadStarts(_, _) => s.thread.Created?
    case PollReturns(err, uevent, other) => s.thread.Polling? && (err || uevent || other || s.pending)
    case ThreadHandles(_) => s.thread.Woken?
    case CallbackReturns(_) => s.thread.InCallback?
    case JoinReturns => s.joining && (s.thread.Finished? || s.thread.Missing?)
    case ReadSamples(_, _) => true
    case _ => !s.joining
  }

  /** stdev_dsp_set_power. */
  function SetPower(s: State, on: bool): State {
    s.(dspOn := on, streaming := false, bufRead := 0, bufLen := 0)
  }

  /** fetch_streaming_buffer: the samples the codec gave, if it gave any before the retries ran
      out; false when the ioctl failed. */
  function Fetch(s: State, fetched: Option<nat>): State {
    match fetched
    case None => s
    case Some(samples) => if samples == 0 then s else s.(bufRead := 0, bufLen := 2 * samples)
  }

  /** The end of callback_thread_loop. */
  function ThreadExits(s: State): State {
    var e := s.(recognition := false, sock := false, pending := false, thread := Finished);
    if s.config == Some(false) then SetPower(e, false) else e
  }

  /** Recognition is cleared, a byte is sent, and the client starts to join the thread. */
  function SignalThread(s: State): State {
    s.(recognition := false, config := None, pending := s.pending || s.sock, joining := true, status := 0)
  }

  function Fail(s: State, error: int): State {
    s.(status := -error)
  }

  function Take(s: State, step: Step): State
    requires Enabled(s, step)
  {
    match step
    case Load(ok) =>
      if s.model == 1 then Fail(s, ENOSYS) else if ok then s.(model := 1, status := 0) else s.(status := -1)
    case Unload(handle) =>
      if handle != 1 then SetPower(Fail(s, EINVAL), false)
      else if s.model == 0 then SetPower(Fail(s, ENOSYS), false)
      else
        var u := s.(model := 0, config := None, status := 0);
        if s.recognition then SignalThread(u) else SetPower(u, false)
    case StartRecognition(handle, config, memory, creates) =>
      if s.model != handle || s.recognition then Fail(s, ENOSYS)
      else if config.Some? && !memory then Fail(s.(config := None), ENOMEM)
      else
        SetPower(s.(config := config), false).(recognition := true, thread := if creates then Created else Missing, status := 0,
          strays := s.strays + if Live(s.thread) then 1 else 0)
    case StopRecognition(handle) =>
      if s.model != handle || !s.recognition then SetPower(Fail(s, ENOSYS), false) else SignalThread(s)
    case ThreadStarts(socketpair, uevent) =>
      if !s.recognition || !socketpair || !uevent then ThreadExits(s)
      else SetPower(s.(sock := true, pending := false, thread := Polling), true)
    case PollReturns(err, uevent, _) => s.(thread := Woken(err, uevent, s.pending))
    case ThreadHandles(message) =>
      if s.thread.err || !s.recognition then ThreadExits(s)
      else if s.thread.uevent then
        match message {
          case NoData => s.(thread := Polling)
          case NoHotword => s.(thread := Polling)
          case OutOfMemory => ThreadExits(s)
          case Hotword => s.(streaming := true, thread := InCallback)
        }
      else if s.thread.term then ThreadExits(s.(pending := false))
      else s.(thread := Polling)
    case CallbackReturns(fetched) => ThreadExits(if s.config == Some(true) then Fetch(s, fetched) else s)
    case JoinReturns => SetPower(s.(joining := false, thread := NoThread), false)
    case ReadSamples(want, fetched) =>
      if !s.streaming then s
      else
        var f := if s.bufRead == s.bufLen then Fetch(s, fetched) else s;
        if s.bufRead == s.bufLen && fetched.None? then s
        else
          var left := if f.bufLen >= f.bufRead then f.bufLen - f.bufRead else 0;
          f.(bufRead := f.bufRead + if left > want then want else left)
  }

  function Next(s: State, step: Step): Option<State> {
    if Enabled(s, step) then Some(Take(s, step)) else None
  }

  // ---- the invariant

  ghost predicate Inv(s: State) {
    && s.strays == 0
    && (s.recognition ==> (Live(s.thread) || s.thread.Missing?) && !s.joining)
    && (Live(s.thread) || s.thread.Missing? ==> s.recognition || s.joining)
    && (s.joining ==> !s.thread.NoThread? && s.config.None?)
    && (s.thread.Polling? || s.thread.Woken? || s.thread.InCallback? ==> s.sock)
    && (s.sock ==> Live(s.thread))
    && (s.pending ==> s.joining && s.sock)
    && (s.joining && s.thread.Polling? ==> s.pending)
    && (s.thread.Woken? && s.thread.term ==> s.joining)
    && s.bufRead <= s.bufLen
  }

  lemma ThreadStepKeepsInv(s: State, step: Step)
    requires Inv(s) && Enabled(s, step) && ThreadStep(step)
    ensures Inv(Take(s, step))
  {
  }

  lemma ClientStepKeepsInv(s: State, step: Step)
    requires Inv(s) && Enabled(s, step) && ClientStep(step)
    ensures Inv(Take(s, step))
  {
  }

  lemma StepKeepsInv(s: State, step: Step)
    requires Inv(s) && Enabled(s, step)
    ensures Inv(Take(s, step))
  {
    if ThreadStep(step) {
      ThreadStepKeepsInv(s, step);
    } else if ClientStep(step) {
      ClientStepKeepsInv(s, step);
    }
  }

  lemma InvIsKept()
    ensures Kept(Next, Inv)
  {
    forall s, step | Inv(s) && Next(s, step).Some? ensures Inv(Next(s, step).value) { StepKeepsInv(s, step); }
  }

  /** At most one callback thread is ever live, and only while a recognition is on or a client
      waits for it; the byte sent to wake it is never read by its loop, because the cleared
      callback is seen first. */
  ghost predicate OneThread(s: State) {
    && s.strays == 0
    && (Live(s.thread) ==> s.recognition || s.joining)
    && (s.thread.Woken? && s.thread.term ==> !s.recognition)
  }

  lemma AlwaysOneThread(steps: seq<Step>)
    ensures Always(Next, OneThread, START, steps)
  {
    InvIsKept();
    Weaken(Next, Inv, OneThread, START, steps);
  }

  /** An active recognition has its thread. */
  ghost predicate Attended(s: State) {
    s.recognition ==> Live(s.thread)
  }

  /** A start that is accepted and gets no thread. */
  predicate StartsWithoutThread(s: State, step: Step) {
    && step.StartRecognition? && s.model == step.handle && !s.recognition
    && (step.config.Some? ==> step.memory) && !step.creates
  }

  /** Every recognition has its thread throughout exactly the runs in which creating one never
      fails. */
  lemma AttendedIffThreadsAreCreated(steps: seq<Step>)
    ensures Always(Next, Attended, START, steps) <==> !Ever(Next, StartsWithoutThread, START, steps)
  {
    InvIsKept();
    forall s, step | Inv(s) && Attended(s) && Next(s, step).Some?
      ensures Attended(Next(s, step).value) <==> !StartsWithoutThread(s, step)
    {
      AttendedStep(s, step);
    }
    AlwaysIffNever(Next, Inv, Attended, StartsWithoutThread, START, steps);
  }

  lemma AttendedStep(s: State, step: Step)
    requires Inv(s) && Attended(s) && Enabled(s, step)
    ensures Attended(Take(s, step)) <==> !StartsWithoutThread(s, step)
  {
  }

  // ---- a stop always returns

  /** How many steps the thread has left once it is to stop. */
  function Rank(t: ThreadPc): nat {
    if t.Polling? then 2 else if t.Created? || t.Woken? || t.InCallback? then 1 else 0
  }

  /** A client that waits for a thread that was created waits for a bounded number of its steps,
      and the next one of them needs nothing from the outside: no message, no error, no other
      thread. */
  lemma NoWakeUpIsLost(s: State, step: Step)
    requires Inv(s) && s.joining && !s.thread.Missing?
    ensures Rank(s.thread) == 0 ==> Enabled(s, JoinReturns)
    ensures Rank(s.thread) > 0 ==> ThreadStep(OwnStep(s.thread)) && Enabled(s, OwnStep(s.thread))
    ensures Enabled(s, step) && ThreadStep(step) ==>
              Take(s, step).joining && Rank(Take(s, step).thread) < Rank(s.thread)
    ensures Enabled(s, step) && !ThreadStep(step) && !step.JoinReturns? ==>
              Take(s, step).joining && Take(s, step).thread == s.thread
  {
  }

  /** The step the thread takes when nothing happens but the byte that wakes it. */
  function OwnStep(t: ThreadPc): Step {
    match t
    case Created => ThreadStarts(true, true)
    case Woken(_, _, _) => ThreadHandles(NoData)
    case InCallback => CallbackReturns(None)
    case _ => PollReturns(false, false, false)
  }

  lemma JoiningStays(s: State, step: Step)
    requires Inv(s) && s.joining && Enabled(s, step) && !step.JoinReturns?
    ensures var r := Take(s, step); r.joining && r.status == s.status && (r.thread.Missing? <==> s.thread.Missing?)
  {
  }

  function ThreadSteps(steps: seq<Step>): nat {
    if steps == [] then 0 else (if ThreadStep(steps[0]) then 1 else 0) + ThreadSteps(steps[1..])
  }

  predicate NoJoin(steps: seq<Step>) {
    steps != [] ==> !steps[0].JoinReturns? && NoJoin(steps[1..])
  }

  /** However the other threads run meanwhile, until the join returns the client stays where it
      is; and if its thread was created, the join can return after at most two steps of it. */
  lemma {:induction false} JoinEnds(s: State, steps: seq<Step>)
    requires Inv(s) && s.joining && Exec(Next, s, steps).Some? && NoJoin(steps)
    ensures var r := Exec(Next, s, steps).value;
            && Inv(r) && r.joining && r.status == s.status && (r.thread.Missing? <==> s.thread.Missing?)
            && (!s.thread.Missing? ==>
                  && ThreadSteps(steps) + Rank(r.thread) <= Rank(s.thread) <= 2
                  && (ThreadSteps(steps) == Rank(s.thread) ==> Enabled(r, JoinReturns)))
    decreases |steps|
  {
    if steps != [] {
      StepKeepsInv(s, steps[0]);
      JoiningStays(s, steps[0]);
      if !s.thread.Missing? { NoWakeUpIsLost(s, steps[0]); }
      JoinEnds(Take(s, steps[0]), steps[1..]);
    } else if !s.thread.Missing? {
      NoWakeUpIsLost(s, JoinReturns);
    }
  }

  /** The thread's own steps to its end. */
  function OwnSteps(s: State): seq<Step> {
    if s.thread.Polling? then [OwnStep(Polling), OwnStep(Woken(false, false, true))]
    else if Rank(s.thread) == 1 then [OwnStep(s.thread)]
    else []
  }

  /** A client that waits for a thread that was created can return after the thread's own steps:
      nothing else has to happen. */
  lemma JoinCanReturn(s: State)
    requires Inv(s) && s.joining && !s.thread.Missing?
    ensures var steps := OwnSteps(s);
            && Exec(Next, s, steps).Some? && NoJoin(steps) && |steps| == ThreadSteps(steps) == Rank(s.thread)
            && Enabled(Exec(Next, s, steps).value, JoinReturns)
  {
    OwnStepsRun(s);
    JoinEnds(s, OwnSteps(s));
  }

  lemma OwnStepsRun(s: State)
    requires Inv(s) && s.joining && !s.thread.Missing?
    ensures Exec(Next, s, OwnSteps(s)).Some? && NoJoin(OwnSteps(s)) && ThreadSteps(OwnSteps(s)) == Rank(s.thread)
  {
    var steps := OwnSteps(s);
    NoWakeUpIsLost(s, JoinReturns);
    if s.thread.Polling? {
      var r := Take(s, steps[0]);
      assert steps[1..] == [steps[1]] && steps[1..][1..] == [];
      assert Exec(Next, Take(r, steps[1]), []).Some?;
      assert Exec(Next, r, [steps[1]]).Some?;
      assert ThreadSteps(steps[1..]) == 1 && NoJoin(steps[1..]);
    } else if steps != [] {
      assert steps[1..] == [];
    }
  }

  /** A recognition is started without a thread and stopped again. */
  lemma AStopCanJoinNoThread()
    ensures exists s :: Reachable(Next, START, s) && s.joining && s.thread.Missing?
  {
    StartReachable(Next, START);
    var s := Reaches(Next, START, START, Load(true));
    s := Reaches(Next, START, s, StartRecognition(1, None, true, false));
    s := Reaches(Next, START, s, StopRecognition(1));
  }

  /** What a stopped recognition leaves behind. */
  predicate Quiet(s: State) {
    !s.recognition && s.config.None? && !s.dspOn && !s.streaming && s.bufRead == 0 && s.bufLen == 0 && !Live(s.thread)
  }

  predicate Successful(s: State, step: Step) {
    || (step.StopRecognition? && s.model == step.handle && s.recognition)
    || (step.Unload? && step.handle == 1 && s.model != 0)
  }

  /** Every successful stop, and every successful unload, ends with the device quiet: at once,
      or when the join returns, whatever ran in between. */
  lemma StopLeavesQuiet(s: State, step: Step, steps: seq<Step>)
    requires Inv(s) && Enabled(s, step) && Successful(s, step)
    ensures Take(s, step).status == 0
    ensures !s.recognition ==> Quiet(Take(s, step))
    ensures s.recognition ==>
              var r := Take(s, step);
              && r.joining && (r.thread.Missing? <==> !Attended(s))
              && (Exec(Next, r, steps).Some? && NoJoin(steps) && Enabled(Exec(Next, r, steps).value, JoinReturns) ==>
                    var q := Take(Exec(Next, r, steps).value, JoinReturns);
                    Quiet(q) && !q.joining && q.status == 0)
  {
    var r := Take(s, step);
    StepKeepsInv(s, step);
    if s.recognition && Exec(Next, r, steps).Some? && NoJoin(steps) {
      JoinEnds(r, steps);
    }
  }

  // ---- the detector

  /** The thread is set up for an active recognition. */
  predicate Detecting(s: State) {
    s.recognition && (s.thread.Polling? || s.thread.Woken? || s.thread.InCallback?)
  }

  /** A stop or unload that is turned down. */
  predicate Refused(s: State, step: Step) {
    || (step.StopRecognition? && (s.model != step.handle || !s.recognition))
    || (step.Unload? && (step.handle != 1 || s.model == 0))
  }

  ghost predicate Powered(s: State) {
    Detecting(s) ==> s.dspOn
  }

  /** A refusal under an active recognition. */
  predicate RefusesDetecting(s: State, step: Step) {
    Detecting(s) && Refused(s, step)
  }

  lemma PoweredStep(s: State, step: Step)
    requires Inv(s) && Enabled(s, step) && Powered(s)
    ensures Powered(Take(s, step)) <==> !RefusesDetecting(s, step)
  {
  }

  /** The detector is powered under an active recognition throughout exactly the runs in which no
      stop or unload is refused under one. */
  lemma PoweredIffNeverRefused(steps: seq<Step>)
    ensures Always(Next, Powered, START, steps) <==> !Ever(Next, RefusesDetecting, START, steps)
  {
    InvIsKept();
    forall s, step | Inv(s) && Powered(s) && Next(s, step).Some?
      ensures Powered(Next(s, step).value) <==> !RefusesDetecting(s, step)
    {
      PoweredStep(s, step);
    }
    AlwaysIffNever(Next, Inv, Powered, RefusesDetecting, START, steps);
  }

  /** A model is loaded and its recognition set up; a stop for another model is refused. */
  lemma ARefusedStopSilencesTheDetector()
    ensures exists s :: Reachable(Next, START, s) && Detecting(s) && !s.dspOn && s.status == -ENOSYS
  {
    StartReachable(Next, START);
    var s := Reaches(Next, START, START, Load(true));
    s := Reaches(Next, START, s, StartRecognition(1, None, true, true));
    s := Reaches(Next, START, s, ThreadStarts(true, true));
    s := Reaches(Next, START, s, StopRecognition(2));
  }

  /** The device's fields.  Each method is one step, with the device lock held. */
  class SoundTriggerDevice {
    var model: int
    var recognition: bool
    var config: Option<bool>
    var dspOn: bool
    var streaming: bool
    var bufRead: nat
    var bufLen: nat
    var sock: bool
    var pending: bool
    var thread: ThreadPc
    var joining: bool
    var status: int
    ghost var strays: nat

    ghost function Abs(): State reads this {
      State(model, recognition, config, dspOn, streaming, bufRead, bufLen, sock, pending, thread, joining, strays, status)
    }

    constructor ()
      ensures Abs() == START
    {
      model, recognition, config, dspOn, streaming, bufRead, bufLen := 0, false, None, false, false, 0, 0;
      sock, pending, thread, joining, status, strays := false, false, NoThread, false, 0, 0;
    }

    method DspSetPower(on: bool)
      modifies this`dspOn, this`streaming, this`bufRead, this`bufLen
      ensures Abs() == SetPower(old(Abs()), on)
      ensures dspOn == on && !streaming && bufRead == bufLen == 0
    {
      streaming, bufRead, bufLen := false, 0, 0;
      dspOn := on;
    }

    method WakeThread()
      modifies this
      ensures Abs() == SignalThread(old(Abs()))
      ensures !recognition && config == None && joining && status == 0 && (sock ==> pending)
    {
      config, recognition, status := None, false, 0;
      if sock { pending := true; }
      joining := true;
    }

    method LoadModel(ok: bool)
      requires !joining
      modifies this`model, this`status
      ensures Abs() == Take(old(Abs()), Load(ok))
      ensures if old(model) == 1 then model == 1 && status == -38
              else if ok then model == 1 && status == 0
              else model == old(model) && status != 0
    {
      if model == 1 {
        status := -ENOSYS;
        return;
      }
      if !ok {
        status := -1;
        return;
      }
      model, status := 1, 0;
    }

    method Start(handle: int, newConfig: Option<bool>, memory: bool, creates: bool)
      requires !joining
      modifies this
      ensures Abs() == Take(old(Abs()), StartRecognition(handle, newConfig, memory, creates))
      ensures var refused := old(model) != handle || old(recognition);
              var starts := !refused && (newConfig == None || memory);
              && (refused ==> status == -38 && config == old(config))
              && (!refused && !starts ==> status == -12 && config == None)
              && (!starts ==> recognition == old(recognition) && thread == old(thread) && dspOn == old(dspOn))
              && (starts ==>
                    && status == 0 && recognition && config == newConfig && !dspOn && !streaming && bufLen == 0
                    && thread == if creates then Created else Missing)
    {
      if model != handle || recognition {
        status := -ENOSYS;
        return;
      }
      config := None;
      if newConfig.Some? {
        if !memory {
          status := -ENOMEM;
          return;
        }
        config := newConfig;
      }
      DspSetPower(false);
      CreateThread(creates);
    }

    /** The result of the creation is not looked at. */
    method CreateThread(creates: bool)
      modifies this`recognition, this`status, this`thread, this`strays
      ensures Abs() == old(Abs()).(recognition := true, thread := if creates then Created else Missing, status := 0,
                                   strays := old(strays) + if Live(old(thread)) then 1 else 0)
    {
      if Live(thread) { strays := strays + 1; }
      recognition, status := true, 0;
      if creates { thread := Created; } else { thread := Missing; }
    }

    method Stop(handle: int)
      requires !joining
      modifies this
      ensures Abs() == Take(old(Abs()), StopRecognition(handle))
      ensures var refused := old(model) != handle || !old(recognition);
              && (refused ==> status == -38 && !joining && recognition == old(recognition) && config == old(config) && !dspOn)
              && (!refused ==> status == 0 && joining && !recognition && config == None && dspOn == old(dspOn) && (sock ==> pending))
              && model == old(model) && thread == old(thread)
    {
      if model != handle || !recognition {
        status := -ENOSYS;
        DspSetPower(false);
        return;
      }
      WakeThread();
    }

    method UnloadModel(handle: int)
      requires !joining
      modifies this
      ensures Abs() == Take(old(Abs()), Unload(handle))
      ensures var unloads := handle == 1 && old(model) != 0;
              && (!unloads ==>
                    && status == (if handle != 1 then -22 else -38)
                    && model == old(model) && recognition == old(recognition) && config == old(config))
              && (unloads ==> status == 0 && model == 0 && !recognition && config == None)
              && joining == (unloads && old(recognition)) && (!joining ==> !dspOn) && (joining && sock ==> pending)
              && thread == old(thread)
    {
      if handle != 1 {
        status := -EINVAL;
      } else if model == 0 {
        status := -ENOSYS;
      } else {
        model, config, status := 0, None, 0;
        if recognition {
          WakeThread();
          return;
        }
      }
      DspSetPower(false);
    }

    method JoinReturned()
      requires Enabled(Abs(), JoinReturns)
      modifies this
      ensures Abs() == Take(old(Abs()), JoinReturns)
      ensures !joining && thread == NoThread && !dspOn && !streaming && status == old(status)
    {
      joining, thread := false, NoThread;
      DspSetPower(false);
    }

    method ExitThread()
      modifies this
      ensures Abs() == ThreadExits(old(Abs()))
      ensures !recognition && !sock && thread == Finished && config == old(config)
      ensures if config == Some(false) then !dspOn && !streaming && bufLen == 0
              else dspOn == old(dspOn) && streaming == old(streaming) && bufRead == old(bufRead) && bufLen == old(bufLen)
    {
      recognition, sock, pending := false, false, false;
      if config == Some(false) { DspSetPower(false); }
      thread := Finished;
    }

    method SetUpThread(socketpair: bool, uevent: bool)
      requires thread.Created?
      modifies this
      ensures Abs() == Take(old(Abs()), ThreadStarts(socketpair, uevent))
      ensures if old(recognition) && socketpair && uevent
              then thread == Polling && recognition && sock && dspOn && !streaming
              else thread == Finished && !recognition && !sock && (dspOn ==> old(dspOn))
    {
      if !recognition || !socketpair {
        ExitThread();
        return;
      }
      sock, pending := true, false;
      if !uevent {
        ExitThread();
        return;
      }
      DspSetPower(true);
      thread := Polling;
    }

    method PollReturned(err: bool, uevent: bool, other: bool)
      requires Enabled(Abs(), PollReturns(err, uevent, other))
      modifies this`thread
      ensures Abs() == Take(old(Abs()), PollReturns(err, uevent, other))
      ensures thread == Woken(err, uevent, pending)
    {
      thread := Woken(err, uevent, pending);
    }

    /** After poll; `callBack`: the client's callback is to be called, without the lock. */
    method HandleWakeUp(message: Message) returns (callBack: bool)
      requires thread.Woken?
      modifies this
      ensures Abs() == Take(old(Abs()), ThreadHandles(message))
      ensures var w := old(thread);
              var seen, acts := !w.err && old(recognition), w.uevent && (message.Hotword? || message.OutOfMemory?);
              && callBack == (thread == InCallback) == (seen && w.uevent && message.Hotword?)
              && (callBack ==> streaming && recognition && dspOn == old(dspOn) && bufRead == old(bufRead) && bufLen == old(bufLen))
              && (thread == Polling <==> seen && !acts && (w.uevent || !w.term))
              && (thread == Polling ==> recognition && streaming == old(streaming) && dspOn == old(dspOn))
              && (thread == Finished <==> !callBack && thread != Polling)
    {
      callBack := false;
      if thread.err || !recognition {
        ExitThread();
      } else if thread.uevent {
        if message.Hotword? {
          streaming, thread, callBack := true, InCallback, true;
        } else if message.OutOfMemory? {
          ExitThread();
        } else {
          thread := Polling;
        }
      } else if thread.term {
        pending := false;
        ExitThread();
      } else {
        thread := Polling;
      }
    }

    /** The codec's answers to the reads tried; the first that is not empty ends the fetch. */
    method FetchStreamingBuffer(answers: seq<int>) returns (ok: bool)
      modifies this`bufRead, this`bufLen
      ensures ok <==> FirstAnswer(answers) >= 0
      ensures Abs() == Fetch(old(Abs()), if ok then Some(FirstAnswer(answers)) else None)
      ensures if FirstAnswer(answers) > 0 then bufRead == 0 && bufLen == 2 * FirstAnswer(answers)
              else bufRead == old(bufRead) && bufLen == old(bufLen)
    {
      var i := 0;
      while i < |answers|
        invariant i <= |answers| && FirstAnswer(answers) == FirstAnswer(answers[i..])
        invariant Abs() == old(Abs())
      {
        var r := answers[i];
        if r < 0 { return false; }
        if r > 0 {
          bufRead, bufLen := 0, 2 * r;
          return true;
        }
        assert answers[i..][1..] == answers[i + 1..];
        i := i + 1;
      }
      ok := true;
    }

    /** `n` samples' bytes from `bufRead` on go to the caller. */
    method ReadStreaming(want: nat, answers: seq<int>) returns (start: nat, n: nat)
      requires Inv(Abs())
      modifies this`bufRead, this`bufLen
      ensures var fetched := if FirstAnswer(answers) < 0 then None else Some(FirstAnswer(answers));
              Abs() == Take(old(Abs()), ReadSamples(want, fetched))
      ensures n <= want && (n > 0 ==> streaming && start + n == bufRead <= bufLen)
      ensures n > 0 && old(bufRead) < old(bufLen) ==> start == old(bufRead)
      ensures var first := FirstAnswer(answers);
              var length := if old(bufRead) < old(bufLen) then old(bufLen) - old(bufRead) else if first > 0 then 2 * first else 0;
              n == if !streaming then 0 else if length > want then want else length
      ensures n > 0 && old(bufRead) == old(bufLen) ==> start == 0
    {
      start, n := 0, 0;
      if !streaming { return; }
      if bufRead == bufLen {
        var ok := FetchStreamingBuffer(answers);
        if !ok { return; }
      }
      start := bufRead;
      n := if bufLen - bufRead > want then want else bufLen - bufRead;
      bufRead := bufRead + n;
    }

    method AfterCallback(answers: seq<int>)
      requires thread.InCallback?
      modifies this
      ensures Abs() == Take(old(Abs()), CallbackReturns(if FirstAnswer(answers) < 0 then None else Some(FirstAnswer(answers))))
      ensures thread == Finished && !recognition
      ensures config == Some(true) && FirstAnswer(answers) > 0 ==> bufRead == 0 && bufLen == 2 * FirstAnswer(answers)
      ensures config != Some(false) ==> streaming == old(streaming) && dspOn == old(dspOn)
      ensures config == Some(false) ==> !streaming && !dspOn
    {
      if config == Some(true) { var _ := FetchStreamingBuffer(answers); }
      ExitThread();
    }
  }

  function FirstAnswer(answers: seq<int>): int {
    if answers == [] then 0 else if answers[0] != 0 then answers[0] else FirstAnswer(answers[1..])
  }

  /** Its result is the first answer that is not 0, or 0 if there is none. */
  lemma {:induction false} FirstAnswerIsFirst(answers: seq<int>)
    ensures var r := FirstAnswer(answers);
            if forall i :: 0 <= i < |answers| ==> answers[i] == 0 then r == 0
            else r != 0 && exists i :: 0 <= i < |answers| && answers[i] == r && forall j :: 0 <= j < i ==> answers[j] == 0
    decreases |answers|
  {
    if answers != [] && answers[0] == 0 {
      var rest := answers[1..];
      FirstAnswerIsFirst(rest);
      if k :| 0 <= k < |answers| && answers[k] != 0 {
        assert rest[k - 1] != 0;
        var i :| 0 <= i < |rest| && rest[i] == FirstAnswer(rest) && forall j :: 0 <= j < i ==> rest[j] == 0;
        assert answers[i + 1] == FirstAnswer(answers) && forall j :: 0 < j < i + 1 ==> answers[j] == rest[j - 1];
      } else {
        assert forall j :: 0 <= j < |rest| ==> rest[j] == answers[j + 1];
      }
    }
  }
}

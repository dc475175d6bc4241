/** The compress-offload output: its client, the thread that re-routes it, and its worker
    thread.  A step is what a thread does between two lock operations; a condition wait is a
    release of the stream lock followed by a later re-acquire.  lock_inputs and the device lock
    matter too: re-routing keeps the first through its call, a standby the second through its wait. */
module Offload {
  import opened Wrappers
  import opened Runs

  datatype Cmd = WaitForBuffer | PartialDrain | Drain | Exit
  datatype Event = WriteReady | DrainReady
  datatype PlayState = Idle | Playing | Paused | PausedFlushed

  /** `opens`: the compress device opens.  `partial`: it takes less than the whole buffer. */
  datatype Call = Write(opens: bool, partial: bool) | Standby | Pause | Resume | Flush | DrainOut(early: bool) | CloseStream

  /** Have: the stream lock is held.  A write that finds the stream in standby gives that lock
      back and takes lock_inputs first: WantStream holds lock_inputs, HaveBoth both.
      StandbyWait: the device lock is held, the stream lock is not. */
  datatype Client =
    | Free
    | Have(call: Call)
    | WantInputs(opens: bool, partial: bool)
    | WantStream(opens: bool, partial: bool)
    | HaveBoth(opens: bool, partial: bool)
    | StandbyWait
    | FlushWait
    | Gone

  /** out_set_parameters, which holds lock_inputs from its beginning to its end. */
  datatype Setter = SFree | SWantStream | SHave | SStandbyWait
  datatype Worker = Listening | InCall(handle: nat, cmd: Cmd) | Exited

  /** The queue, and its history: the commands sent, those taken off the queue, and for each
      callback its event and which taken command it answers. */
  datatype Commands = Commands(queue: seq<Cmd>, sent: seq<Cmd>, taken: seq<Cmd>, answered: seq<nat>, callbacks: seq<Event>)

  /** `listed` counts the stream's entries in the use-case list, `misses` the times a path was
      to be disabled and no entry was found. */
  datatype State = State(
    standby: bool, play: PlayState, compr: Option<nat>, handles: nat, listed: nat, misses: nat,
    blocked: bool, cmds: Commands, client: Client, setter: Setter, worker: Worker)

  const START := State(true, Idle, None, 0, 0, 0, false, Commands([], [], [], [], []), Free, SFree, Listening)

  datatype Step =
    | ClientCalls(call: Call)
    | ClientGoes
    | ClientWakes
    | SetterCalls
    | SetterLocks
    | SetterGoes(toStandby: bool)
    | SetterWakes
    | WorkerTakes
    | WorkerReturns

  predicate InputsLocked(s: State) {
    s.client.WantStream? || s.client.HaveBoth? || !s.setter.SFree?
  }

  predicate StreamLocked(s: State) {
    s.client.Have? || s.client.HaveBoth? || s.setter.SHave?
  }

  predicate DeviceLocked(s: State) {
    s.client.StandbyWait? || s.setter.SStandbyWait?
  }

  /** The client's next step takes the device lock. */
  predicate NeedsDevice(s: State) {
    if s.client.HaveBoth? then s.standby
    else
      s.client.Have? &&
      match s.client.call
      case Write(_, _) => !s.standby && s.play.PausedFlushed?
      case Standby => !s.standby
      case Pause => s.compr.Some? && s.play.Playing?
      case Resume => s.compr.Some? && s.play.Paused?
      case _ => false
  }

  /** The client inside a call can go on. */
  predicate ClientCanGo(s: State) {
    match s.client
    case Have(_) => NeedsDevice(s) ==> !DeviceLocked(s)
    case WantInputs(_, _) => !InputsLocked(s)
    case WantStream(_, _) => !StreamLocked(s)
    case HaveBoth(_, _) => NeedsDevice(s) ==> !DeviceLocked(s)
    case _ => false
  }

  predicate Enabled(s: State, step: Step) {
    match step
    case ClientCalls(call) => s.client.Free? && !StreamLocked(s)
    case ClientGoes => ClientCanGo(s)
    case ClientWakes => (s.client.StandbyWait? || s.client.FlushWait?) && !StreamLocked(s) && !s.blocked
    case SetterCalls => s.setter.SFree? && !InputsLocked(s)
    case SetterLocks => s.setter.SWantStream? && !StreamLocked(s)
    case SetterGoes(_) => s.setter.SHave? && !DeviceLocked(s)
    case SetterWakes => s.setter.SStandbyWait? && !StreamLocked(s) && !s.blocked
    case WorkerTakes => s.worker.Listening? && !StreamLocked(s) && s.cmds.queue != []
    case WorkerReturns => s.worker.InCall? && !StreamLocked(s)
  }

  /** send_offload_cmd_l. */
  function Send(s: State, cmd: Cmd): State {
    s.(cmds := s.cmds.(queue := s.cmds.queue + [cmd], sent := s.cmds.sent + [cmd]))
  }

  /** disable_output_path_l. */
  function DisablePath(s: State): State {
    if s.listed == 0 then s.(misses := s.misses + 1) else s.(listed := s.listed - 1)
  }

  /** stop_output_stream. */
  function StopOutput(s: State): State {
    (if s.play.Paused? || s.play.PausedFlushed? then s else DisablePath(s)).(play := Idle)
  }

  /** The part of do_out_standby_l after the wait. */
  function FinishStandby(s: State): State {
    StopOutput(s.(compr := None))
  }

  /** A stop has to wait for the worker to leave its compress call. */
  predicate MustWait(s: State) {
    s.compr.Some? && s.blocked
  }

  function StartWriting(s: State, opens: bool): State {
    var l := s.(listed := s.listed + 1);
    if opens then l.(compr := Some(s.handles), handles := s.handles + 1, standby := false) else StopOutput(l)
  }

  function WriteRunning(s: State, partial: bool): State {
    var l := if s.play.PausedFlushed? then s.(listed := s.listed + 1) else s;
    (if partial then Send(l, WaitForBuffer) else l).(play := Playing)
  }

  /** A write with lock_inputs and the stream lock: it starts the stream, unless that was done
      in between. */
  function WriteLocked(s: State, opens: bool, partial: bool): State {
    if !s.standby then s.(client := Have(Write(opens, partial)))
    else
      var w := StartWriting(s.(client := Free), opens);
      if w.standby then w else WriteRunning(w, partial)
  }

  /** What the client does with the stream lock held. */
  function CallBody(s: State, call: Call): State {
    var f := s.(client := Free);
    match call
    case Write(opens, partial) =>
      if s.standby then s.(client := WantInputs(opens, partial)) else WriteRunning(f, partial)
    case Standby =>
      if s.standby then f
      else
        var b := f.(standby := true);
        if MustWait(b) then b.(client := StandbyWait) else FinishStandby(b)
    case Pause => if s.compr.Some? && s.play.Playing? then DisablePath(f.(play := Paused)) else f
    case Resume => if s.compr.Some? && s.play.Paused? then f.(listed := s.listed + 1, play := Playing) else f
    case Flush =>
      if !s.play.Paused? then f
      else if MustWait(f) then f.(client := FlushWait)
      else f.(play := PausedFlushed)
    case DrainOut(early) => Send(f, if early then PartialDrain else Drain)
    case CloseStream => Send(f, Exit).(client := Gone)
  }

  function ClientStep(s: State): State {
    match s.client
    case Have(call) => CallBody(s, call)
    case WantInputs(opens, partial) => s.(client := WantStream(opens, partial))
    case WantStream(opens, partial) => s.(client := HaveBoth(opens, partial))
    case HaveBoth(opens, partial) => WriteLocked(s, opens, partial)
    case _ => s
  }

  /** Re-routing puts a running stream in standby if it is listed and its devices do not serve
      the new ones. */
  function SetterBody(s: State, toStandby: bool): State {
    var f := s.(setter := SFree);
    if !toStandby || s.standby || s.listed == 0 then f
    else
      var b := f.(standby := true);
      if MustWait(b) then b.(setter := SStandbyWait) else FinishStandby(b)
  }

  function EventOf(cmd: Cmd): Event {
    if cmd.WaitForBuffer? then WriteReady else DrainReady
  }

  /** offload_thread_loop takes the oldest command. */
  function TakeCommand(s: State): State
    requires s.cmds.queue != []
  {
    var cmd := s.cmds.queue[0];
    var left := s.cmds.(queue := if cmd.Exit? then [] else s.cmds.queue[1..], taken := s.cmds.taken + [cmd]);
    var t := s.(cmds := left);
    if cmd.Exit? then t.(worker := Exited)
    else if s.compr.None? then t
    else t.(blocked := true, worker := InCall(s.compr.value, cmd))
  }

  /** The callback for the command taken last. */
  function Answer(c: Commands, cmd: Cmd): Commands {
    c.(answered := c.answered + [if c.taken == [] then 0 else |c.taken| - 1], callbacks := c.callbacks + [EventOf(cmd)])
  }

  function Take(s: State, step: Step): State
    requires Enabled(s, step)
  {
    match step
    case ClientCalls(call) => s.(client := Have(call))
    case ClientGoes => ClientStep(s)
    case ClientWakes =>
      if s.client.StandbyWait? then FinishStandby(s.(client := Free))
      else s.(client := Free, play := PausedFlushed)
    case SetterCalls => s.(setter := SWantStream)
    case SetterLocks => s.(setter := SHave)
    case SetterGoes(toStandby) => SetterBody(s, toStandby)
    case SetterWakes => FinishStandby(s.(setter := SFree))
    case WorkerTakes => TakeCommand(s)
    case WorkerReturns =>
      s.(blocked := false, worker := Listening, cmds := Answer(s.cmds, s.worker.cmd))
  }

  function Next(s: State, step: Step): Option<State> {
    if Enabled(s, step) then Some(Take(s, step)) else None
  }

  // ---- the handle

  ghost predicate HandleOk(s: State) {
    && !((s.client.WantStream? || s.client.HaveBoth?) && !s.setter.SFree?)
    && !(s.client.Have? && s.setter.SHave?)
    && !(s.client.StandbyWait? && s.setter.SStandbyWait?)
    && (s.blocked <==> s.worker.InCall?)
    && (s.worker.InCall? ==> s.compr == Some(s.worker.handle))
    && (s.compr.Some? ==> s.compr.value < s.handles)
    && (if DeviceLocked(s) then s.standby && s.compr.Some? else s.standby <==> s.compr.None?)
  }

  /** A call in progress goes on with its handle, or has returned. */
  ghost predicate HandleKept(s: State, r: State) {
    HandleOk(r) && (s.worker.InCall? && r.worker.InCall? ==> r.worker == s.worker && r.compr == s.compr)
  }

  lemma ClientKeepsHandle(s: State)
    requires HandleOk(s) && ClientCanGo(s)
    ensures HandleKept(s, ClientStep(s))
  {
  }

  lemma WaiterKeepsHandle(s: State, step: Step)
    requires HandleOk(s) && Enabled(s, step) && (step.ClientWakes? || step.SetterWakes? || step.SetterGoes?)
    ensures HandleKept(s, Take(s, step))
  {
  }

  lemma HandleStep(s: State, step: Step)
    requires HandleOk(s) && Enabled(s, step)
    ensures HandleKept(s, Take(s, step))
  {
    if step.ClientGoes? {
      ClientKeepsHandle(s);
    } else if step.ClientWakes? || step.SetterWakes? || step.SetterGoes? {
      WaiterKeepsHandle(s, step);
    }
  }

  // ---- the commands

  /** The client waits for WriteReady after a wait for a buffer, for DrainReady after a drain. */
  predicate Answers(event: Event, cmd: Cmd) {
    (event == WriteReady <==> cmd == WaitForBuffer) && (event == DrainReady <==> cmd == Drain || cmd == PartialDrain)
  }

  /** Commands are taken in the order they were sent; each callback is of a taken command that
      ran, with the event that answers it, and no command has two. */
  ghost predicate CommandsOk(c: Commands, w: Worker) {
    && (if w.Exited? then c.taken <= c.sent else c.sent == c.taken + c.queue)
    && (w.InCall? ==> c.taken != [] && c.taken[|c.taken| - 1] == w.cmd && !w.cmd.Exit?)
    && |c.answered| == |c.callbacks|
    && (forall i :: 0 <= i < |c.answered| ==>
          && c.answered[i] < |c.taken| - (if w.InCall? then 1 else 0)
          && Answers(c.callbacks[i], c.taken[c.answered[i]]))
    && (forall i, j :: 0 <= i < j < |c.answered| ==> c.answered[i] < c.answered[j])
  }

  lemma AnswerKeepsOrder(c: Commands, w: Worker)
    requires CommandsOk(c, w) && w.InCall?
    ensures CommandsOk(Answer(c, w.cmd), Listening)
  {
  }

  lemma TakingKeepsOrder(s: State)
    requires CommandsOk(s.cmds, s.worker) && s.worker.Listening? && s.cmds.queue != []
    ensures var r := TakeCommand(s); CommandsOk(r.cmds, r.worker)
  {
  }

  lemma StartSendsNothing(s: State, opens: bool)
    ensures var r := StartWriting(s, opens); r.worker == s.worker && r.cmds == s.cmds
    ensures var r := StopOutput(s); r.worker == s.worker && r.cmds == s.cmds
    ensures var r := FinishStandby(s.(standby := true)); r.worker == s.worker && r.cmds == s.cmds
  {
  }

  /** What a step of the client sends: a drain of the kind asked for, the end of the worker, or,
      where a running or just started stream takes only part of a write, a wait for a buffer. */
  function Sends(s: State): seq<Cmd> {
    match s.client
    case Have(DrainOut(early)) => [if early then PartialDrain else Drain]
    case Have(CloseStream) => [Exit]
    case Have(Write(_, partial)) => if partial && !s.standby then [WaitForBuffer] else []
    case HaveBoth(opens, partial) => if partial && opens && s.standby then [WaitForBuffer] else []
    case _ => []
  }

  lemma ClientSends(s: State)
    ensures var r := ClientStep(s);
            && r.worker == s.worker
            && r.cmds == s.cmds.(queue := s.cmds.queue + Sends(s), sent := s.cmds.sent + Sends(s))
  {
    StartSendsNothing(s.(client := Free), if s.client.HaveBoth? then s.client.opens else false);
    hide StartWriting, StopOutput, FinishStandby;
    var c := s.cmds;
    assert c.queue + [] == c.queue && c.sent + [] == c.sent;
  }

  /** Each step adds to the commands sent what the client asked for with it, and nothing else. */
  lemma SendingStep(s: State, step: Step)
    requires Enabled(s, step)
    ensures Take(s, step).cmds.sent == s.cmds.sent + if step.ClientGoes? then Sends(s) else []
  {
    if step.ClientGoes? {
      ClientSends(s);
    } else {
      hide ClientStep;
      assert s.cmds.sent + [] == s.cmds.sent;
    }
  }

  lemma SendingKeepsOrder(s: State, cmd: Cmd)
    requires CommandsOk(s.cmds, s.worker)
    ensures CommandsOk(Send(s, cmd).cmds, s.worker)
  {
  }

  lemma CommandsStep(s: State, step: Step)
    requires CommandsOk(s.cmds, s.worker) && Enabled(s, step)
    ensures CommandsOk(Take(s, step).cmds, Take(s, step).worker)
  {
    if step.WorkerReturns? {
      AnswerKeepsOrder(s.cmds, s.worker);
    } else if step.WorkerTakes? {
      TakingKeepsOrder(s);
    } else if step.ClientGoes? {
      ClientSends(s);
      var c := s.cmds;
      if Sends(s) == [] {
        assert c.queue + [] == c.queue && c.sent + [] == c.sent;
      } else {
        SendingKeepsOrder(s, Sends(s)[0]);
      }
    } else {
      hide CommandsOk;
    }
  }

  /** Every command but EXIT that meets a handle is run with it, and every run ends with one
      callback that answers it; no other step of any thread calls back. */
  lemma WorkerStep(s: State, step: Step)
    requires CommandsOk(s.cmds, s.worker) && HandleOk(s) && Enabled(s, step)
    ensures var r := Take(s, step);
            && (step.WorkerTakes? ==>
                  var cmd := s.cmds.queue[0];
                  && r.cmds.taken == s.cmds.taken + [cmd] && (cmd != Exit ==> r.cmds.queue == s.cmds.queue[1..])
                  && r.worker == (if cmd == Exit then Exited else if s.compr.Some? then InCall(s.compr.value, cmd) else Listening)
                  && r.cmds.callbacks == s.cmds.callbacks)
            && (step.WorkerReturns? ==>
                  && r.worker == Listening && |r.cmds.callbacks| == |s.cmds.callbacks| + 1
                  && r.cmds.callbacks[..|s.cmds.callbacks|] == s.cmds.callbacks
                  && Answers(r.cmds.callbacks[|s.cmds.callbacks|], s.worker.cmd)
                  && r.cmds.answered == s.cmds.answered + [|s.cmds.taken| - 1])
            && (!step.WorkerTakes? && !step.WorkerReturns? ==> r.worker == s.worker && r.cmds.callbacks == s.cmds.callbacks)
  {
    assert step.WorkerReturns? ==> s.cmds.taken != [] && s.worker.cmd != Exit;
    hide CommandsOk, ClientStep;
    if step.ClientGoes? { ClientSends(s); }
  }

  ghost predicate InOrder(s: State) {
    CommandsOk(s.cmds, s.worker)
  }

  // ---- the use-case list

  /** What callers rely on between calls: listed once while playing, not at all while paused;
      in standby idle and without a handle; and no path to disable was ever missing. */
  ghost predicate ListingOk(s: State) {
    && s.misses == 0
    && (s.standby && !DeviceLocked(s) ==> s.play.Idle? && s.listed == 0)
    && (!s.standby || DeviceLocked(s) ==> !s.play.Idle? && s.listed == (if s.play.Playing? then 1 else 0))
    && (s.client.FlushWait? ==> s.play.Paused? && !s.standby)
    && (s.setter.SStandbyWait? ==> s.play.Playing?)
  }

  /** A write to a running stream in plain PAUSED, which makes it play without a path. */
  predicate WritesPaused(s: State, step: Step) {
    step.ClientGoes? && s.client.Have? && s.client.call.Write? && !s.standby && s.play.Paused?
  }

  lemma ListingStep(s: State, step: Step)
    requires HandleOk(s) && ListingOk(s) && Enabled(s, step)
    ensures ListingOk(Take(s, step)) <==> !WritesPaused(s, step)
  {
  }

  /** The listing property holds throughout exactly the runs without such a write. */
  lemma ListedIffNeverWritesPaused(steps: seq<Step>)
    ensures Always(Next, ListingOk, START, steps) <==> !Ever(Next, WritesPaused, START, steps)
  {
    forall s, step | HandleOk(s) && Next(s, step).Some? ensures HandleOk(Next(s, step).value) { HandleStep(s, step); }
    forall s, step | HandleOk(s) && ListingOk(s) && Next(s, step).Some?
      ensures ListingOk(Next(s, step).value) <==> !WritesPaused(s, step)
    {
      ListingStep(s, step);
    }
    AlwaysIffNever(Next, HandleOk, ListingOk, WritesPaused, START, steps);
  }

  /** In every run: while the worker is inside a compress call the handle is the one the worker
      uses, and it is open; commands are taken and answered in order. */
  lemma HandleAndCommandsSafe(steps: seq<Step>)
    ensures Always(Next, HandleOk, START, steps) && Always(Next, InOrder, START, steps)
  {
    forall s, step | HandleOk(s) && Next(s, step).Some? ensures HandleOk(Next(s, step).value) { HandleStep(s, step); }
    Invariant(Next, HandleOk, START, steps);
    forall s, step | InOrder(s) && Next(s, step).Some? ensures InOrder(Next(s, step).value) { CommandsStep(s, step); }
    Invariant(Next, InOrder, START, steps);
  }

  // ---- progress

  predicate Busy(s: State) {
    !(s.client.Free? || s.client.Gone?) || !s.setter.SFree? || s.worker.InCall?
  }

  /** The steps of threads inside a call. */
  predicate Continues(step: Step) {
    step.ClientGoes? || step.ClientWakes? || step.SetterLocks? || step.SetterGoes? || step.SetterWakes? || step.WorkerReturns?
  }

  /** One thread waits in a standby with the device lock, another holds the stream lock and
      wants the device lock. */
  predicate Crossed(s: State) {
    DeviceLocked(s) && (s.setter.SHave? || (s.client.Have? && NeedsDevice(s)))
  }

  /** Some thread inside a call can go on, unless the two locks are crossed. */
  lemma StuckIffCrossed(s: State)
    requires HandleOk(s) && Busy(s)
    ensures (exists step :: Continues(step) && Enabled(s, step)) <==> !Crossed(s)
  {
    if !Crossed(s) {
      var step :=
        if s.client.Have? || s.client.HaveBoth? then ClientGoes
        else if s.setter.SHave? then SetterGoes(false)
        else if s.worker.InCall? then WorkerReturns
        else if s.setter.SStandbyWait? then SetterWakes
        else if s.setter.SWantStream? then SetterLocks
        else if s.client.WantInputs? || s.client.WantStream? then ClientGoes
        else ClientWakes;
      assert Continues(step) && Enabled(s, step);
    }
  }

  /** While the listing property holds there are two ways to cross: re-routing meets a waiting
      standby of the client, or a pause meets a waiting re-routing. */
  lemma CrossedIsOneOfTwo(s: State)
    requires HandleOk(s) && ListingOk(s)
    ensures Crossed(s) <==>
              || (s.client.StandbyWait? && s.setter.SHave?)
              || (s.setter.SStandbyWait? && s.client == Have(Pause))
  {
  }

  // ---- runs that cross the locks

  ghost predicate Reached(s: State) {
    Reachable(Next, START, s)
  }

  lemma Reach(s: State, step: Step) returns (r: State)
    requires Reached(s) && Enabled(s, step)
    ensures r == Take(s, step) && Reached(r)
  {
    r := Reaches(Next, START, s, step);
  }

  /** Playing, with the worker inside the wait for a buffer. */
  lemma WorkerInCall() returns (s: State)
    ensures Reached(s) && HandleOk(s)
    ensures !s.standby && s.play.Playing? && s.client.Free? && s.setter.SFree? && s.worker.InCall? && s.listed == 1
  {
    StartReachable(Next, START);
    assert Reached(START);
    hide Reached;
    s := Reach(START, ClientCalls(Write(true, true)));
    s := Reach(s, ClientGoes);
    s := Reach(s, ClientGoes);
    s := Reach(s, ClientGoes);
    s := Reach(s, ClientGoes);
    s := Reach(s, WorkerTakes);
  }

  /** A standby waits for the worker while the stream is re-routed: both threads and the worker
      are stuck. */
  lemma StandbyAndReroutingCanDeadlock()
    ensures exists s :: Reached(s) && s.client.StandbyWait? && s.worker.InCall? && Busy(s) && Crossed(s)
  {
    var s := WorkerInCall();
    hide Reached;
    s := Reach(s, ClientCalls(Standby));
    s := Reach(s, ClientGoes);
    s := Reach(s, SetterCalls);
    s := Reach(s, SetterLocks);
  }

  /** So they are when re-routing waits for the worker and the client pauses. */
  lemma PauseAndReroutingCanDeadlock()
    ensures exists s :: Reached(s) && s.setter.SStandbyWait? && s.client == Have(Pause) && s.worker.InCall? && Busy(s) && Crossed(s)
  {
    var s := WorkerInCall();
    hide Reached;
    s := Reach(s, SetterCalls);
    s := Reach(s, SetterLocks);
    s := Reach(s, SetterGoes(true));
    s := Reach(s, ClientCalls(Pause));
  }

  /** A write to a paused stream: it plays and is not listed. */
  lemma AWriteWhilePausedHasNoPath()
    ensures exists s :: Reached(s) && s.client.Free? && !s.standby && s.play.Playing? && s.listed == 0
  {
    var s := WorkerInCall();
    hide Reached;
    s := Reach(s, ClientCalls(Pause));
    s := Reach(s, ClientGoes);
    s := Reach(s, ClientCalls(Write(true, false)));
    s := Reach(s, ClientGoes);
  }

  /** The stream's fields, with its entry count in the use-case list, as the code updates them.
      Each method is one step, under the locks its caller holds. */
  class OffloadOutput {
    var standby: bool
    var play: PlayState
    var compr: Option<nat>
    var handles: nat
    var listed: nat
    var misses: nat
    var blocked: bool
    var queue: seq<Cmd>
    var client: Client
    var setter: Setter
    var worker: Worker
    ghost var sent: seq<Cmd>
    ghost var taken: seq<Cmd>
    ghost var answered: seq<nat>
    ghost var callbacks: seq<Event>

    ghost function Abs(): State reads this {
      State(standby, play, compr, handles, listed, misses, blocked,
            Commands(queue, sent, taken, answered, callbacks), client, setter, worker)
    }

    constructor ()
      ensures Abs() == START
    {
      standby, play, compr, handles, listed, misses, blocked := true, Idle, None, 0, 0, 0, false;
      queue, client, setter, worker := [], Free, SFree, Listening;
      sent, taken, answered, callbacks := [], [], [], [];
    }

    method SendOffloadCmd(cmd: Cmd)
      modifies this`queue, this`sent
      ensures Abs() == Send(old(Abs()), cmd)
    {
      queue, sent := queue + [cmd], sent + [cmd];
    }

    method DisableOutputPath()
      modifies this`listed, this`misses
      ensures Abs() == DisablePath(old(Abs()))
    {
      if listed == 0 { misses := misses + 1; } else { listed := listed - 1; }
    }

    method StopOutputStream()
      modifies this`listed, this`misses, this`play
      ensures Abs() == StopOutput(old(Abs()))
      ensures play == Idle
      ensures listed == if old(play) == Paused || old(play) == PausedFlushed || old(listed) == 0 then old(listed) else old(listed) - 1
    {
      var doDisable := !(play.Paused? || play.PausedFlushed?);
      play := Idle;
      if doDisable { DisableOutputPath(); }
    }

    method StartOutputStream(opens: bool)
      requires standby
      modifies this`standby, this`compr, this`handles, this`listed, this`misses, this`play
      ensures Abs() == StartWriting(old(Abs()), opens)
      ensures opens ==> !standby && compr == Some(old(handles)) && handles > old(handles) && listed == old(listed) + 1
      ensures !opens ==> standby && compr == old(compr) && play == Idle && (old(play) == Idle ==> listed == old(listed))
    {
      listed := listed + 1;
      if !opens {
        StopOutputStream();
        return;
      }
      compr, handles := Some(handles), handles + 1;
      standby := false;
    }

    /** out_write as far as the stream lock alone takes it. */
    method OutWrite(opens: bool, partial: bool)
      requires client == Have(Write(opens, partial))
      modifies this
      ensures Abs() == CallBody(old(Abs()), Write(opens, partial))
      ensures old(standby) ==> client == WantInputs(opens, partial) && standby && play == old(play) && sent == old(sent)
      ensures !old(standby) ==>
                && client == Free && !standby && play == Playing && compr == old(compr)
                && listed == old(listed) + (if old(play) == PausedFlushed then 1 else 0)
                && sent == old(sent) + if partial then [WaitForBuffer] else []
    {
      if standby {
        client := WantInputs(opens, partial);
        return;
      }
      client := Free;
      WriteBuffer(partial);
    }

    /** out_write with lock_inputs and the stream lock, after it had found standby. */
    method OutWriteStarts(opens: bool, partial: bool)
      requires client == HaveBoth(opens, partial)
      modifies this
      ensures Abs() == WriteLocked(old(Abs()), opens, partial)
      ensures !old(standby) ==> client == Have(Write(opens, partial)) && play == old(play) && sent == old(sent)
      ensures old(standby) ==>
                && client == Free && standby == !opens && play == (if opens then Playing else Idle)
                && (opens ==> compr == Some(old(handles)) && (old(play) != PausedFlushed ==> listed == old(listed) + 1))
                && sent == old(sent) + if opens && partial then [WaitForBuffer] else []
    {
      if !standby {
        client := Have(Write(opens, partial));
        return;
      }
      client := Free;
      StartOutputStream(opens);
      if !standby { WriteBuffer(partial); }
    }

    method WriteBuffer(partial: bool)
      modifies this
      ensures Abs() == WriteRunning(old(Abs()), partial)
    {
      if play.PausedFlushed? { listed := listed + 1; }
      if partial { SendOffloadCmd(WaitForBuffer); }
      if !play.Playing? { play := Playing; }
    }

    method OutDrain(early: bool)
      requires client == Have(DrainOut(early))
      modifies this
      ensures Abs() == CallBody(old(Abs()), DrainOut(early))
      ensures sent == old(sent) + [if early then PartialDrain else Drain]
      ensures client == Free && play == old(play)
    {
      client := Free;
      if early { SendOffloadCmd(PartialDrain); } else { SendOffloadCmd(Drain); }
    }

    /** The end of out_set_parameters, and of its standby after a wait. */
    method OutSetParameters(toStandby: bool)
      requires Enabled(Abs(), SetterGoes(toStandby))
      modifies this
      ensures Abs() == Take(old(Abs()), SetterGoes(toStandby))
      ensures standby == (old(standby) || (toStandby && old(listed) > 0))
      ensures standby == old(standby) ==> play == old(play) && compr == old(compr) && setter == SFree
      ensures standby != old(standby) && (old(compr) == None || !blocked) ==> play == Idle && compr == None && setter == SFree
      ensures standby != old(standby) && old(compr).Some? && blocked ==> play == old(play) && compr == old(compr) && setter == SStandbyWait
    {
      setter := SFree;
      if !standby {
        var doStandby := false;
        if listed > 0 { doStandby := toStandby; }
        if doStandby {
          standby := true;
          var waits := StopCompressedOutput();
          if waits { setter := SStandbyWait; } else { CloseAndStop(); }
        }
      }
    }

    method SetterWaitEnds()
      requires Enabled(Abs(), SetterWakes)
      modifies this
      ensures Abs() == Take(old(Abs()), SetterWakes)
      ensures play == Idle && compr == None && setter == SFree
    {
      setter := SFree;
      CloseAndStop();
    }

    /** `waits`: the worker is in a compress call; the rest follows when it has left. */
    method StopCompressedOutput() returns (waits: bool)
      ensures waits == MustWait(Abs())
    {
      waits := compr.Some? && blocked;
    }

    method OutStandby()
      requires client == Have(Standby)
      modifies this
      ensures Abs() == CallBody(old(Abs()), Standby)
      ensures standby
      ensures old(standby) ==> client == Free && play == old(play) && compr == old(compr)
      ensures !old(standby) && (old(compr) == None || !blocked) ==> client == Free && play == Idle && compr == None
      ensures !old(standby) && old(compr).Some? && blocked ==> client == StandbyWait && play == old(play) && compr == old(compr)
    {
      client := Free;
      if !standby {
        standby := true;
        var waits := StopCompressedOutput();
        if waits { client := StandbyWait; } else { CloseAndStop(); }
      }
    }

    method CloseAndStop()
      modifies this`compr, this`listed, this`misses, this`play
      ensures Abs() == FinishStandby(old(Abs()))
      ensures play == Idle && compr == None
      ensures listed == if old(play) == Paused || old(play) == PausedFlushed || old(listed) == 0 then old(listed) else old(listed) - 1
    {
      if compr.Some? { compr := None; }
      StopOutputStream();
    }

    method OutPause()
      requires client == Have(Pause)
      modifies this
      ensures Abs() == CallBody(old(Abs()), Pause)
      ensures client == Free && compr == old(compr) && standby == old(standby)
      ensures if old(compr).Some? && old(play) == Playing then play == Paused && (old(listed) > 0 ==> listed == old(listed) - 1)
              else play == old(play) && listed == old(listed)
    {
      client := Free;
      if compr.Some? && play.Playing? {
        play := Paused;
        DisableOutputPath();
      }
    }

    method OutResume()
      requires client == Have(Resume)
      modifies this
      ensures Abs() == CallBody(old(Abs()), Resume)
      ensures client == Free && compr == old(compr) && standby == old(standby)
      ensures if old(compr).Some? && old(play) == Paused then play == Playing && listed == old(listed) + 1
              else play == old(play) && listed == old(listed)
    {
      client := Free;
      if compr.Some? && play.Paused? {
        listed := listed + 1;
        play := Playing;
      }
    }

    method OutFlush() returns (ok: bool)
      requires client == Have(Flush)
      modifies this
      ensures Abs() == CallBody(old(Abs()), Flush)
      ensures ok == (old(play) != Playing) && compr == old(compr) && listed == old(listed)
      ensures if old(play) == Paused && (compr == None || !blocked) then play == PausedFlushed && client == Free
              else play == old(play) && client == if old(play) == Paused then FlushWait else Free
    {
      client := Free;
      if play.Playing? { return false; }
      if play.Paused? {
        var waits := StopCompressedOutput();
        if waits { client := FlushWait; } else { play := PausedFlushed; }
      }
      ok := true;
    }

    method WaitEnds()
      requires client.StandbyWait? || client.FlushWait?
      requires Enabled(Abs(), ClientWakes)
      modifies this
      ensures Abs() == Take(old(Abs()), ClientWakes)
      ensures client == Free
      ensures if old(client) == FlushWait then play == PausedFlushed && compr == old(compr) else play == Idle && compr == None
    {
      var flushing := client.FlushWait?;
      client := Free;
      if flushing { play := PausedFlushed; } else { CloseAndStop(); }
    }

    method WorkerTakesCommand()
      requires Enabled(Abs(), WorkerTakes)
      modifies this
      ensures Abs() == Take(old(Abs()), WorkerTakes)
      ensures worker == (if old(queue)[0] == Exit then Exited else if compr.Some? then InCall(compr.value, old(queue)[0]) else Listening)
      ensures blocked == (old(blocked) || worker.InCall?) && taken == old(taken) + [old(queue)[0]]
    {
      var cmd := queue[0];
      queue, taken := queue[1..], taken + [cmd];
      if cmd.Exit? {
        worker, queue := Exited, [];
      } else if compr.Some? {
        blocked, worker := true, InCall(compr.value, cmd);
      }
    }

    method WorkerCallReturns() returns (event: Event)
      requires Enabled(Abs(), WorkerReturns)
      modifies this
      ensures Abs() == Take(old(Abs()), WorkerReturns)
      ensures event == WriteReady <==> old(worker).cmd == WaitForBuffer
      ensures event == DrainReady <==> old(worker).cmd != WaitForBuffer
      ensures callbacks == old(callbacks) + [event] && !blocked && worker == Listening
    {
      event := if worker.cmd.WaitForBuffer? then WriteReady else DrainReady;
      answered := answered + [if taken == [] then 0 else |taken| - 1];
      callbacks := callbacks + [event];
      blocked, worker := false, Listening;
    }
  }
}

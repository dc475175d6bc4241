/** The primary output, any number of inputs and any number of threads, under the lock_inputs,
    stream and device locks.  One step is the code between two lock operations; everything a
    thread does under the device lock is one step.  A thread's place says which of the other
    locks it holds. */
module StreamProtocol {
  import opened Wrappers
  import opened EchoReference
  import opened Runs

  /** What a client does to an input under lock_inputs and the input's lock. */
  datatype InputOp = ToStandby | Reselect | SetAec(enable: bool) | Close

  /** Where a thread is.  `cap` is the input captured for a forced standby. */
  datatype Pc =
    | Idle
    // out_write
    | WFirst
    | WWantInputs
    | WWantOut
    | WRecheck
    | WCheck(cap: Option<nat>)
    | WSync(cap: Option<nat>)
    | WUse(cap: Option<nat>)
    | WErrWant(cap: Option<nat>)
    | WErrStandby(cap: Option<nat>)
    // the end of out_write and of out_set_parameters
    | Force(i: nat)
    | Forced(i: nat)
    // out_standby, out_set_parameters, and another output's start with lock_inputs held
    | OStandby
    | PWantOut
    | PSection
    | OtherHolder
    // adev_set_parameters, with the device lock alone
    | Rotating
    // in_read
    | RFirst(i: nat)
    | RWantInputs(i: nat)
    | RWantIn(i: nat)
    | RRecheck(i: nat)
    | RStarted(i: nat)
    | RUse(i: nat)
    // the other calls on an input
    | IWantInputs(i: nat, op: InputOp)
    | IWantIn(i: nat, op: InputOp)
    | ISection(i: nat, op: InputOp)
    | CFree(i: nat)

  /** `mayAec`: the echo canceller is only ever attached to this input.  `hotword`: its use case
      is hotword capture. */
  datatype Input = Input(standby: bool, aec: bool, mayAec: bool, ref: Option<nat>, hotword: bool, open: bool)

  /** A capture entry of the use-case list: the input it points to, and which use case it is. */
  datatype Entry = Entry(stream: nat, hotword: bool)

  /** `listed`: the capture entries of the use-case list, in its order.  `fatal`: an assertion on
      active_input failed.  `usedClosed`: a closed input was touched. */
  datatype Data = Data(echo: Echo, inputs: seq<Input>, active: Option<nat>, listed: seq<Entry>, fatal: bool, usedClosed: bool)

  datatype State = State(data: Data, threads: seq<Pc>)

  datatype Move = Move(data: Data, next: Pc)

  /** What devices, sources and parameters decide for one step. */
  datatype Env = Env(opens: bool, creates: bool, profile: bool, resamples: bool,
                     looks: bool, matches: bool, selects: bool, fails: bool, toStandby: bool)

  datatype Call = Write | StandbyOut | SetParameters | HoldInputs | Rotate | Read(i: nat) | OnInput(i: nat, op: InputOp)

  datatype Step = Begin(t: nat, call: Call) | Go(t: nat, env: Env) | OpenInput(mayAec: bool, hotword: bool)

  // ---- what a thread holds at its place

  predicate HoldsInputs(pc: Pc) {
    match pc
    case WWantOut | WRecheck | Force(_) | Forced(_) | PWantOut | PSection | OtherHolder
       | RWantIn(_) | RRecheck(_) | IWantIn(_, _) | ISection(_, _) | CFree(_) => true
    case _ => (pc.WCheck? || pc.WSync? || pc.WUse? || pc.WErrWant? || pc.WErrStandby?) && pc.cap.Some?
  }

  predicate HoldsOut(pc: Pc) {
    pc.WFirst? || pc.WRecheck? || pc.WCheck? || pc.WSync? || pc.WUse? || pc.WErrStandby? || pc.OStandby? || pc.PSection?
  }

  /** The input whose lock is held. */
  function HoldsIn(pc: Pc): Option<nat> {
    if pc.Forced? || pc.RFirst? || pc.RRecheck? || pc.RStarted? || pc.RUse? || pc.ISection? then Some(pc.i) else None
  }

  /** The input captured for a forced standby. */
  function Captured(pc: Pc): Option<nat> {
    if pc.WCheck? || pc.WSync? || pc.WUse? || pc.WErrWant? || pc.WErrStandby? then pc.cap
    else if pc.Force? || pc.Forced? then Some(pc.i)
    else None
  }

  predicate Reading(pc: Pc) {
    pc.RFirst? || pc.RWantInputs? || pc.RWantIn? || pc.RRecheck? || pc.RStarted? || pc.RUse?
  }

  predicate Operating(pc: Pc) {
    pc.IWantInputs? || pc.IWantIn? || pc.ISection? || pc.CFree?
  }

  /** The input a client call is on. */
  function CallOn(pc: Pc): Option<nat> {
    if Reading(pc) || Operating(pc) then Some(pc.i) else None
  }

  predicate Closing(pc: Pc) {
    pc.CFree? || ((pc.IWantInputs? || pc.IWantIn? || pc.ISection?) && pc.op.Close?)
  }

  // ---- the steps

  /** Taking an input's lock touches the input. */
  function Touch(d: Data, i: nat): Data {
    d.(usedClosed := d.usedClosed || i >= |d.inputs| || !d.inputs[i].open)
  }

  /** get_usecase_from_id. */
  function FirstOf(es: seq<Entry>, hotword: bool): (k: nat)
    ensures k <= |es|
    ensures k < |es| ==> es[k].hotword == hotword
    ensures forall j :: 0 <= j < k ==> es[j].hotword != hotword
  {
    if es == [] || es[0].hotword == hotword then 0 else 1 + FirstOf(es[1..], hotword)
  }

  /** stop_input_stream takes off the first entry of the use case. */
  function Unlist(es: seq<Entry>, hotword: bool): seq<Entry> {
    var k := FirstOf(es, hotword);
    if k == |es| then es else es[..k] + es[k + 1..]
  }

  /** select_devices for the primary output reads the source of the first capture entry's input. */
  function TouchListed(d: Data): Data {
    if d.listed != [] then Touch(d, d.listed[0].stream) else d
  }

  /** select_devices for an input: nothing for hotword capture; otherwise that source, and the
      devices of the input that the first entry of the use case points to. */
  function TouchSelected(d: Data, hotword: bool): Data {
    var k := FirstOf(d.listed, false);
    if hotword || k == |d.listed| then d else Touch(TouchListed(d), d.listed[k].stream)
  }

  /** do_in_standby_l. */
  function StandbyInput(d: Data, i: nat): Data
    requires i < |d.inputs|
  {
    var n := d.inputs[i];
    if n.standby then d
    else
      d.(echo := if n.ref.Some? then Put(UseRef(d.echo, n.ref), n.ref) else d.echo,
         active := None, listed := Unlist(d.listed, n.hotword),
         inputs := d.inputs[i := n.(standby := true, ref := None)])
  }

  /** The PCM opens, and the result of create_resampler, which is not looked at before, is
      returned; with an echo canceller a later result overwrites it. */
  predicate StartsHalf(d: Data, i: nat, env: Env)
    requires i < |d.inputs|
  {
    env.profile && env.opens && !d.inputs[i].aec && !env.resamples
  }

  /** The capture entries after a start; one whose PCM does not open is stopped again. */
  function ListedAfterStart(d: Data, i: nat, env: Env): seq<Entry>
    requires i < |d.inputs|
  {
    var listed := d.listed + [Entry(i, d.inputs[i].hotword)];
    if !env.profile then d.listed else if env.opens then listed else Unlist(listed, d.inputs[i].hotword)
  }

  /** start_input_stream; `standby` is cleared in a later step, if it returned no error. */
  function StartInput(d: Data, i: nat, env: Env): Data
    requires i < |d.inputs|
  {
    if !env.profile then d.(active := None)
    else
      var n := d.inputs[i];
      var s := TouchSelected(d.(listed := d.listed + [Entry(i, n.hotword)]), n.hotword);
      var e := if n.aec && n.ref.None? then Get(d.echo, env.creates) else d.echo;
      s.(echo := e, active := if env.opens then Some(i) else None, listed := ListedAfterStart(d, i, env),
         inputs := d.inputs[i := n.(ref := if n.aec && n.ref.None? then e.devRef else n.ref)])
  }

  /** Reading the source of the active input. */
  function LookAtActive(d: Data): Data {
    if d.active.Some? then Touch(d, d.active.value) else d
  }

  function StandbyIfRunning(e: Echo): Echo {
    if e.outStandby then e else StandbyOutput(e)
  }

  /** out_write, out_standby and out_set_parameters, up to the forced standby of an input. */
  function OutputStep(d: Data, pc: Pc, env: Env): Move {
    match pc
    case WFirst => Move(d, if d.echo.outStandby then WWantInputs else WCheck(None))
    case WWantInputs => Move(d, WWantOut)
    case WWantOut => Move(d, WRecheck)
    case WRecheck =>
      if !d.echo.outStandby then Move(d, WCheck(None))
      else if !env.opens then Move(TouchListed(d), WErrWant(None))
      else Move(LookAtActive(TouchListed(d)).(echo := StartOutput(d.echo)), WCheck(if env.matches then d.active else None))
    case WCheck(cap) => Move(d, if SameGeneration(d.echo) then WUse(cap) else WSync(cap))
    case WSync(cap) => Move(d.(echo := Sync(d.echo)), WUse(cap))
    case WUse(cap) => Move(d.(echo := UseOutRef(d.echo)), if env.fails then WErrWant(cap) else ForceOrIdle(cap))
    case WErrWant(cap) => Move(d, WErrStandby(cap))
    case WErrStandby(cap) => Move(d.(echo := StandbyIfRunning(d.echo)), ForceOrIdle(cap))
    case OStandby => Move(d.(echo := StandbyIfRunning(d.echo)), Idle)
    case PWantOut => Move(d, PSection)
    case PSection =>
      var looks := env.looks && !d.echo.outStandby;
      var l := if looks then LookAtActive(d) else d;
      var t := if env.selects && !env.toStandby && !d.echo.outStandby then TouchListed(l) else l;
      Move(t.(echo := if env.toStandby then StandbyIfRunning(d.echo) else d.echo),
           ForceOrIdle(if looks && env.matches then d.active else None))
    case Rotating => Move(if env.selects then TouchListed(d) else d, Idle)
    case OtherHolder => Move(if env.looks then LookAtActive(d) else d, Idle)
    case _ => Move(d, Idle)
  }

  function ForceOrIdle(cap: Option<nat>): Pc {
    if cap.Some? then Force(cap.value) else Idle
  }

  /** The captured input is put in standby; it must still be the active one. */
  function ForceStep(d: Data, pc: Pc): Move
    requires pc.Force? || (pc.Forced? && pc.i < |d.inputs|)
  {
    if pc.Force? then Move(Touch(d, pc.i), Forced(pc.i))
    else Move(StandbyInput(d.(fatal := d.fatal || d.active != Some(pc.i)), pc.i), Idle)
  }

  /** in_read. */
  function ReadStep(d: Data, pc: Pc, env: Env): Move
    requires Reading(pc) && pc.i < |d.inputs|
  {
    var i := pc.i;
    match pc
    case RFirst(_) => Move(d, if d.inputs[i].standby then RWantInputs(i) else RUse(i))
    case RWantInputs(_) => Move(d, RWantIn(i))
    case RWantIn(_) => Move(Touch(d, i), RRecheck(i))
    case RRecheck(_) =>
      if !d.inputs[i].standby then Move(d, RUse(i))
      else Move(StartInput(d, i, env),
                if env.profile && env.opens && !StartsHalf(d, i, env) then RStarted(i) else IWantInputs(i, ToStandby))
    case RStarted(_) => Move(d.(inputs := d.inputs[i := d.inputs[i].(standby := false)]), RUse(i))
    case RUse(_) =>
      Move(Touch(d, i).(echo := UseRef(d.echo, d.inputs[i].ref)), if env.fails then IWantInputs(i, ToStandby) else Idle)
  }

  /** in_standby, in_set_parameters, add_remove_audio_effect and adev_close_input_stream. */
  function OpStep(d: Data, pc: Pc): Move
    requires Operating(pc) && pc.i < |d.inputs|
  {
    var i := pc.i;
    match pc
    case IWantInputs(_, op) => Move(d, IWantIn(i, op))
    case IWantIn(_, op) => Move(Touch(d, i), ISection(i, op))
    case ISection(_, op) =>
      var s := BeforeStandby(d, i, op);
      Move(if op.Reselect? then s else StandbyInput(s, i), if op.Close? then CFree(i) else Idle)
    case CFree(_) =>
      Move(Touch(d, i).(inputs := d.inputs[i := d.inputs[i].(open := false, aec := false, ref := None)]), Idle)
  }

  function SelectIfRunning(d: Data, i: nat): Data
    requires i < |d.inputs|
  {
    if d.inputs[i].standby then d else TouchSelected(d, d.inputs[i].hotword)
  }

  /** What a section does before it puts the input in standby. */
  function BeforeStandby(d: Data, i: nat, op: InputOp): Data
    requires i < |d.inputs|
  {
    if op.SetAec? || op.Reselect? then SelectIfRunning(Noted(d, i, op), i) else d
  }

  /** An added or removed canceller is noted first. */
  function Noted(d: Data, i: nat, op: InputOp): Data
    requires i < |d.inputs|
  {
    if op.SetAec? then d.(inputs := d.inputs[i := d.inputs[i].(aec := op.enable)]) else d
  }

  /** The input a place names exists. */
  predicate InRange(d: Data, pc: Pc) {
    (CallOn(pc).Some? ==> CallOn(pc).value < |d.inputs|) && (Captured(pc).Some? ==> Captured(pc).value < |d.inputs|)
  }

  function Advance(d: Data, pc: Pc, env: Env): Move
    requires InRange(d, pc)
  {
    if Reading(pc) then ReadStep(d, pc, env)
    else if Operating(pc) then OpStep(d, pc)
    else if pc.Force? || pc.Forced? then ForceStep(d, pc)
    else OutputStep(d, pc, env)
  }

  // ---- locks and runs

  /** Two threads may be at these places at once. */
  predicate Together(p: Pc, q: Pc) {
    && !(HoldsInputs(p) && HoldsInputs(q))
    && !(HoldsOut(p) && HoldsOut(q))
    && (HoldsIn(p).Some? ==> HoldsIn(p) != HoldsIn(q))
    && (CallOn(p).Some? && CallOn(p) == CallOn(q) ==> !Closing(p) && !Closing(q))
  }

  /** No other thread holds a lock that this place holds and the one before did not. */
  predicate MayEnter(s: State, t: nat, pc: Pc)
    requires t < |s.threads|
  {
    forall u :: 0 <= u < |s.threads| && u != t ==>
      var was := s.threads[t];
      && (HoldsInputs(pc) && !HoldsInputs(was) ==> !HoldsInputs(s.threads[u]))
      && (HoldsOut(pc) && !HoldsOut(was) ==> !HoldsOut(s.threads[u]))
      && (HoldsIn(pc).Some? && HoldsIn(pc) != HoldsIn(was) ==> HoldsIn(s.threads[u]) != HoldsIn(pc))
  }

  function FirstPlace(call: Call): Pc {
    match call
    case Write => WFirst
    case StandbyOut => OStandby
    case SetParameters => PWantOut
    case HoldInputs => OtherHolder
    case Rotate => Rotating
    case Read(i) => RFirst(i)
    case OnInput(i, op) => IWantInputs(i, op)
  }

  /** The client keeps to the interface's contract: it calls open inputs, nothing else happens
      on an input that is being closed, and the echo canceller stays on one input. */
  predicate MayCall(s: State, call: Call) {
    (call.Read? || call.OnInput?) ==>
      && call.i < |s.data.inputs| && s.data.inputs[call.i].open
      && (call.OnInput? && call.op.SetAec? ==> s.data.inputs[call.i].mayAec)
      && forall u :: 0 <= u < |s.threads| && CallOn(s.threads[u]) == Some(call.i) ==>
           !Closing(s.threads[u]) && !Closing(FirstPlace(call))
  }

  predicate Enabled(s: State, step: Step) {
    match step
    case Begin(t, call) =>
      t < |s.threads| && s.threads[t].Idle? && MayCall(s, call) && MayEnter(s, t, FirstPlace(call))
    case Go(t, env) =>
      && t < |s.threads| && !s.threads[t].Idle? && InRange(s.data, s.threads[t])
      && MayEnter(s, t, Advance(s.data, s.threads[t], env).next)
    case OpenInput(mayAec, _) =>
      mayAec ==> forall i :: 0 <= i < |s.data.inputs| ==> !(s.data.inputs[i].open && s.data.inputs[i].mayAec)
  }

  function Take(s: State, step: Step): State
    requires Enabled(s, step)
  {
    match step
    case Begin(t, call) => s.(threads := s.threads[t := FirstPlace(call)])
    case Go(t, env) =>
      var m := Advance(s.data, s.threads[t], env);
      State(m.data, s.threads[t := m.next])
    case OpenInput(mayAec, hotword) =>
      s.(data := s.data.(inputs := s.data.inputs + [Input(true, false, mayAec, None, hotword, true)]))
  }

  function Start(threads: nat): State {
    State(Data(START, [], None, [], false, false), seq(threads, _ => Idle))
  }

  // ---- the invariant

  /** What holds of a thread's place. */
  ghost predicate PlaceOk(d: Data, pc: Pc) {
    && (Captured(pc).Some? ==> d.active == Captured(pc))
    && (pc.WCheck? || pc.WSync? || pc.WUse? ==> !d.echo.outStandby)
    && (pc.WSync? ==> d.echo.outGen < d.echo.devGen)
    && (CallOn(pc).Some? ==> CallOk(d, pc, CallOn(pc).value))
  }

  ghost predicate CallOk(d: Data, pc: Pc, i: nat) {
    && i < |d.inputs| && d.inputs[i].open
    && (pc.RStarted? || pc.CFree? ==> d.inputs[i].standby)
    && ((pc.IWantInputs? || pc.IWantIn? || pc.ISection?) && pc.op.SetAec? ==> d.inputs[i].mayAec)
  }

  ghost predicate InputOk(d: Data, i: nat)
    requires i < |d.inputs|
  {
    var n := d.inputs[i];
    && (n.ref.Some? ==> n.ref == d.echo.devRef && n.mayAec && n.open)
    && (n.aec ==> n.mayAec && n.open)
    && (!n.open ==> n.standby)
  }

  ghost predicate OneAec(d: Data) {
    forall i, j :: 0 <= i < j < |d.inputs| ==>
      !(d.inputs[i].open && d.inputs[i].mayAec && d.inputs[j].open && d.inputs[j].mayAec)
  }

  ghost predicate DataOk(d: Data) {
    && Inv(d.echo)
    && (forall i :: 0 <= i < |d.inputs| ==> InputOk(d, i))
    && OneAec(d)
    && (d.active.Some? ==> d.active.value < |d.inputs|)
    && (forall k :: 0 <= k < |d.listed| ==> d.listed[k].stream < |d.inputs|)
    && !d.fatal
  }

  /** What every run keeps, whatever fails. */
  ghost predicate ProtocolInv(s: State) {
    && DataOk(s.data)
    && (forall t, u :: 0 <= t < |s.threads| && 0 <= u < |s.threads| && t != u ==> Together(s.threads[t], s.threads[u]))
    && (forall t :: 0 <= t < |s.threads| ==> PlaceOk(s.data, s.threads[t]))
  }

  // ---- one step of one thread: what it ensures of its own place, and what others may rely on

  /** A thread at place p changes only what its locks allow it to. */
  ghost predicate Guarantee(d: Data, after: Data, p: Pc) {
    && |after.inputs| == |d.inputs|
    && (!HoldsInputs(p) ==> after.active == d.active)
    && (!HoldsOut(p) ==> after.echo.outStandby == d.echo.outStandby && after.echo.outGen == d.echo.outGen)
    && d.echo.devGen <= after.echo.devGen
    && forall i :: 0 <= i < |d.inputs| ==> InputGuarantee(d.inputs[i], after.inputs[i], p, i)
  }

  ghost predicate InputGuarantee(n: Input, after: Input, p: Pc, i: nat) {
    && after.mayAec == n.mayAec && after.hotword == n.hotword
    && (HoldsIn(p) != Some(i) ==> after.standby == n.standby)
    && (after.open != n.open ==> p == CFree(i))
  }

  lemma OthersStay(d: Data, after: Data, p: Pc, other: Pc)
    requires PlaceOk(d, other) && Guarantee(d, after, p) && Together(p, other)
    ensures PlaceOk(after, other)
  {
    if CallOn(other).Some? {
      var i := CallOn(other).value;
      assert InputGuarantee(d.inputs[i], after.inputs[i], p, i);
      hide InputGuarantee;
      assert after.inputs[i].open;
    }
  }

  /** What a step keeps of the shared data and establishes of the thread's next place. */
  ghost predicate StepOk(d: Data, pc: Pc, m: Move) {
    DataOk(m.data) && PlaceOk(m.data, m.next) && Guarantee(d, m.data, pc)
  }

  lemma StandbyIfRunningIsSafe(e: Echo)
    requires Inv(e)
    ensures Safe(e, StandbyIfRunning(e)) && StandbyIfRunning(e).devGen == e.devGen
    ensures StandbyIfRunning(e).devRef == e.devRef
  {
  }

  lemma EchoReplaced(d: Data, e: Echo, used: bool)
    requires DataOk(d) && Inv(e) && e.devRef == d.echo.devRef
    ensures DataOk(d.(echo := e, usedClosed := used))
  {
    hide Inv;
    var r := d.(echo := e, usedClosed := used);
    assert OneAec(r);
    forall i | 0 <= i < |r.inputs| ensures InputOk(r, i) { assert InputOk(d, i); }
  }

  /** An output step changes only the echo state, and of it only what the output's lock covers. */
  ghost predicate EchoMoved(d: Data, pc: Pc, after: Data) {
    var e, r := d.echo, after.echo;
    && after == d.(echo := r, usedClosed := after.usedClosed)
    && Safe(e, r)
    && r.devRef == e.devRef && r.devGen == e.devGen
    && (!HoldsOut(pc) ==> r == e)
  }

  lemma OutputEcho(d: Data, pc: Pc, env: Env)
    requires Inv(d.echo) && PlaceOk(d, pc)
    ensures EchoMoved(d, pc, OutputStep(d, pc, env).data)
  {
    var e := d.echo;
    assert Safe(e, e);
    if pc.WSync? {
      SyncIsSafe(e);
    } else if pc.WRecheck? {
      if e.outStandby { StartIsSafe(e); }
      hide Inv, Safe;
    } else {
      StandbyIfRunningIsSafe(e);
      UseIsSafe(e, e.outRef);
      hide Inv, Safe, StandbyIfRunning, UseRef, SameGeneration, PlaceOk;
    }
  }

  lemma StartingPlace(d: Data, pc: Pc, env: Env)
    requires Inv(d.echo) && (pc.WFirst? || pc.WRecheck?)
    ensures var m := OutputStep(d, pc, env); PlaceOk(m.data, m.next)
  {
  }

  lemma CheckingPlace(d: Data, pc: Pc, env: Env)
    requires Inv(d.echo) && PlaceOk(d, pc) && (pc.WCheck? || pc.WSync?)
    ensures var m := OutputStep(d, pc, env); PlaceOk(m.data, m.next)
  {
  }

  lemma OutputPlace(d: Data, pc: Pc, env: Env)
    requires Inv(d.echo) && PlaceOk(d, pc)
    requires CallOn(pc).None? && !pc.Force? && !pc.Forced?
    ensures var m := OutputStep(d, pc, env); PlaceOk(m.data, m.next)
  {
    if pc.WFirst? || pc.WRecheck? {
      StartingPlace(d, pc, env);
    } else if pc.WCheck? || pc.WSync? {
      CheckingPlace(d, pc, env);
    } else {
      hide Inv, StandbyIfRunning, UseOutRef, SameGeneration, CallOk;
    }
  }

  lemma OutputStepOk(d: Data, pc: Pc, env: Env)
    requires DataOk(d) && PlaceOk(d, pc)
    requires CallOn(pc).None? && !pc.Force? && !pc.Forced?
    ensures StepOk(d, pc, OutputStep(d, pc, env))
  {
    OutputEcho(d, pc, env);
    OutputPlace(d, pc, env);
    hide OutputStep;
    var r := OutputStep(d, pc, env).data;
    EchoReplaced(d, r.echo, r.usedClosed);
  }

  /** What do_in_standby_l does to the data, whoever calls it. */
  lemma StandbyInputOk(d: Data, i: nat, pc: Pc)
    requires DataOk(d) && i < |d.inputs| && HoldsIn(pc) == Some(i) && HoldsInputs(pc)
    ensures var r := StandbyInput(d, i);
            && DataOk(r) && Guarantee(d, r, pc)
            && r.inputs[i].standby && r.inputs[i].open == d.inputs[i].open
            && r.active == if d.inputs[i].standby then d.active else None
  {
    var r := StandbyInput(d, i);
    StandbyData(d, i);
    StandbyEffect(d, i);
    PutKeepsOutput(d.echo, d.inputs[i].ref);
    assert r.echo == d.echo || r.echo == Put(UseRef(d.echo, d.inputs[i].ref), d.inputs[i].ref);
    hide StandbyInput, DataOk, Put, UseRef;
    OneGuaranteed(d, r, i, pc);
  }

  lemma OneGuaranteed(d: Data, r: Data, i: nat, pc: Pc)
    requires i < |d.inputs| == |r.inputs| && r.inputs == d.inputs[i := r.inputs[i]]
    requires InputGuarantee(d.inputs[i], r.inputs[i], pc, i) && (!HoldsInputs(pc) ==> r.active == d.active)
    requires r.echo.outStandby == d.echo.outStandby && r.echo.outGen == d.echo.outGen && d.echo.devGen <= r.echo.devGen
    ensures Guarantee(d, r, pc)
  {
  }

  lemma PutKeepsOutput(e: Echo, ref: Option<nat>)
    ensures var p := Put(UseRef(e, ref), ref);
            p.outStandby == e.outStandby && p.outGen == e.outGen && e.devGen <= p.devGen
  {
  }

  lemma StandbyData(d: Data, i: nat)
    requires DataOk(d) && i < |d.inputs|
    ensures DataOk(StandbyInput(d, i))
  {
    var r := StandbyInput(d, i);
    if !d.inputs[i].standby {
      var ref := d.inputs[i].ref;
      assert InputOk(d, i);
      UseIsSafe(d.echo, ref);
      PutIsSafe(d.echo, ref);
      hide Inv, Put, UseRef;
      assert ref.Some? ==> d.inputs[i].mayAec && d.inputs[i].open;
      forall j | 0 <= j < |r.inputs| ensures InputOk(r, j) { assert InputOk(d, j); }
      hide InputOk;
      assert OneAec(r);
    }
  }

  lemma StandbyEffect(d: Data, i: nat)
    requires i < |d.inputs|
    ensures var r := StandbyInput(d, i);
            && r.usedClosed == d.usedClosed
            && if d.inputs[i].standby then r == d
               else && r.inputs == d.inputs[i := d.inputs[i].(standby := true, ref := None)]
                    && r.active == None && r.listed == Unlist(d.listed, d.inputs[i].hotword)
  {
  }

  /** What is said of the data does not depend on the touches recorded. */
  lemma TouchOk(d: Data, i: nat)
    requires DataOk(d)
    ensures DataOk(Touch(d, i))
  {
    EchoReplaced(d, d.echo, Touch(d, i).usedClosed);
  }

  lemma ForceStepOk(d: Data, pc: Pc)
    requires DataOk(d) && PlaceOk(d, pc) && (pc.Force? || pc.Forced?)
    ensures StepOk(d, pc, ForceStep(d, pc))
  {
    if pc.Forced? {
      StandbyInputOk(d, pc.i, pc);
    } else {
      TouchOk(d, pc.i);
    }
  }

  /** A start leaves its input active if the PCM opened, also where it then reports an error. */
  lemma StartInputOk(d: Data, i: nat, env: Env)
    requires DataOk(d) && i < |d.inputs| && d.inputs[i].open
    ensures var r := StartInput(d, i, env);
            && DataOk(r) && Guarantee(d, r, RRecheck(i))
            && r.inputs[i].standby == d.inputs[i].standby && r.inputs[i].open
            && r.active == (if env.profile && env.opens then Some(i) else None)
  {
    hide DataOk, Inv, StartInput, Get;
    StartInputData(d, i, env);
    StartInputFrame(d, i, env);
    assert Inv(d.echo) by { EchoOf(d); }
    GetKeepsOutput(d.echo, env.creates);
  }

  lemma EchoOf(d: Data)
    requires DataOk(d)
    ensures Inv(d.echo)
  {
  }

  lemma GetKeepsOutput(e: Echo, creates: bool)
    requires Inv(e)
    ensures var g := Get(e, creates);
            g.devGen >= e.devGen && g.outGen == e.outGen && g.outStandby == e.outStandby
  {
  }

  lemma StartInputFrame(d: Data, i: nat, env: Env)
    requires i < |d.inputs|
    ensures var r := StartInput(d, i, env);
            && |r.inputs| == |d.inputs|
            && r.inputs == d.inputs[i := d.inputs[i].(ref := r.inputs[i].ref)]
            && (r.echo == d.echo || r.echo == Get(d.echo, env.creates))
            && r.active == (if env.profile && env.opens then Some(i) else None)
            && r.listed == ListedAfterStart(d, i, env)
            && r.fatal == d.fatal
  {
  }

  lemma StartInputData(d: Data, i: nat, env: Env)
    requires DataOk(d) && i < |d.inputs| && d.inputs[i].open
    ensures DataOk(StartInput(d, i, env))
  {
    GetIsSafe(d.echo, env.creates);
    var r := StartInput(d, i, env);
    StartInputFrame(d, i, env);
    assert forall k :: 0 <= k < |r.listed| ==> r.listed[k].stream < |r.inputs|;
    hide TouchSelected, ListedAfterStart, Get, Inv, Safe;
    assert OneAec(r);
    assert InputOk(d, i);
    forall j | 0 <= j < |r.inputs| ensures InputOk(r, j) { assert InputOk(d, j); }
    hide InputOk, OneAec;
  }

  /** A started input runs once its standby is cleared. */
  lemma StartedOk(d: Data, pc: Pc, env: Env)
    requires DataOk(d) && PlaceOk(d, pc) && pc.RStarted?
    ensures StepOk(d, pc, ReadStep(d, pc, env))
  {
    hide Inv;
    var r := ReadStep(d, pc, env).data;
    forall j | 0 <= j < |r.inputs| ensures InputOk(r, j) { assert InputOk(d, j); }
  }

  lemma RecheckOk(d: Data, pc: Pc, env: Env)
    requires DataOk(d) && PlaceOk(d, pc) && pc.RRecheck?
    ensures StepOk(d, pc, ReadStep(d, pc, env))
  {
    StartInputOk(d, pc.i, env);
    hide DataOk, StartInput, InputOk, StartsHalf;
  }

  lemma ReadStepOk(d: Data, pc: Pc, env: Env)
    requires DataOk(d) && PlaceOk(d, pc) && Reading(pc)
    ensures StepOk(d, pc, ReadStep(d, pc, env))
  {
    var i := pc.i;
    if pc.RStarted? {
      StartedOk(d, pc, env);
    } else if pc.RRecheck? {
      RecheckOk(d, pc, env);
    } else {
      assert InputOk(d, i);
      UseIsSafe(d.echo, d.inputs[i].ref);
      assert Touch(d, i) == d;
      hide DataOk, UseRef, Touch, InputOk;
    }
  }

  lemma BeforeStandbyFrame(d: Data, i: nat, op: InputOp)
    requires i < |d.inputs|
    ensures var s := BeforeStandby(d, i, op);
            && |s.inputs| == |d.inputs|
            && s.inputs == d.inputs[i := d.inputs[i].(aec := s.inputs[i].aec)]
            && (op.SetAec? || s.inputs[i].aec == d.inputs[i].aec)
            && s == d.(inputs := s.inputs, usedClosed := s.usedClosed)
  {
    var s := BeforeStandby(d, i, op);
    assert s == Noted(d, i, op).(usedClosed := s.usedClosed);
    assert d.inputs == d.inputs[i := d.inputs[i]];
  }

  lemma BeforeStandbyOk(d: Data, i: nat, op: InputOp)
    requires DataOk(d) && i < |d.inputs| && d.inputs[i].open && (op.SetAec? ==> d.inputs[i].mayAec)
    ensures DataOk(BeforeStandby(d, i, op))
  {
    BeforeStandbyFrame(d, i, op);
    var s := BeforeStandby(d, i, op);
    hide BeforeStandby, Inv;
    assert OneAec(s);
    forall j | 0 <= j < |s.inputs| ensures InputOk(s, j) { assert InputOk(d, j) && InputOk(d, i); }
  }

  lemma SectionIs(d: Data, pc: Pc)
    requires pc.ISection? && pc.i < |d.inputs|
    ensures var n := BeforeStandby(d, pc.i, pc.op);
            OpStep(d, pc) == Move(if pc.op.Reselect? then n else StandbyInput(n, pc.i), if pc.op.Close? then CFree(pc.i) else Idle)
  {
  }

  lemma BeforeStandbyGuarantee(d: Data, pc: Pc)
    requires pc.ISection? && pc.i < |d.inputs|
    ensures Guarantee(d, BeforeStandby(d, pc.i, pc.op), pc)
  {
    BeforeStandbyFrame(d, pc.i, pc.op);
    hide BeforeStandby;
    OneGuaranteed(d, BeforeStandby(d, pc.i, pc.op), pc.i, pc);
  }

  lemma SectionOk(d: Data, pc: Pc)
    requires DataOk(d) && PlaceOk(d, pc) && pc.ISection?
    ensures StepOk(d, pc, OpStep(d, pc))
  {
    hide OpStep, StandbyInput, BeforeStandby, DataOk, Guarantee;
    var i := pc.i;
    SectionIs(d, pc);
    BeforeStandbyFrame(d, i, pc.op);
    BeforeStandbyOk(d, i, pc.op);
    BeforeStandbyGuarantee(d, pc);
    var n := BeforeStandby(d, i, pc.op);
    StandbyInputOk(n, i, pc);
    GuaranteesAdd(d, n, OpStep(d, pc).data, pc);
  }

  lemma GuaranteesAdd(d: Data, n: Data, r: Data, p: Pc)
    requires Guarantee(d, n, p) && (r == n || Guarantee(n, r, p))
    ensures Guarantee(d, r, p)
  {
    forall i | 0 <= i < |d.inputs| ensures InputGuarantee(d.inputs[i], r.inputs[i], p, i) {
      assert InputGuarantee(d.inputs[i], n.inputs[i], p, i);
      assert r != n ==> InputGuarantee(n.inputs[i], r.inputs[i], p, i);
    }
  }

  lemma OpStepOk(d: Data, pc: Pc)
    requires DataOk(d) && PlaceOk(d, pc) && Operating(pc)
    ensures StepOk(d, pc, OpStep(d, pc))
  {
    var i := pc.i;
    if pc.ISection? {
      SectionOk(d, pc);
    } else if pc.CFree? {
      var r := OpStep(d, pc).data;
      forall j | 0 <= j < |r.inputs| ensures InputOk(r, j) { assert InputOk(d, j); }
    } else {
      assert Touch(d, i) == d;
    }
  }

  // ---- the invariant holds over every run

  lemma AdvanceOk(d: Data, pc: Pc, env: Env)
    requires DataOk(d) && PlaceOk(d, pc)
    ensures InRange(d, pc) && StepOk(d, pc, Advance(d, pc, env))
  {
    if Reading(pc) {
      ReadStepOk(d, pc, env);
    } else if Operating(pc) {
      OpStepOk(d, pc);
    } else if pc.Force? || pc.Forced? {
      ForceStepOk(d, pc);
    } else {
      OutputStepOk(d, pc, env);
    }
  }

  /** Entering a place keeps every pair of threads apart. */
  lemma TogetherKept(s: State, t: nat, next: Pc, u: nat)
    requires ProtocolInv(s) && t < |s.threads| && u < |s.threads| && u != t
    requires MayEnter(s, t, next) && CallsStay(s, t, next, u)
    ensures Together(next, s.threads[u]) && Together(s.threads[u], next)
  {
  }

  /** A client call stays on its input and stays a close or not; or the client may begin it. */
  predicate CallsStay(s: State, t: nat, next: Pc, u: nat)
    requires t < |s.threads| && u < |s.threads|
  {
    CallOn(next).Some? && CallOn(next) == CallOn(s.threads[u]) ==>
      || (CallOn(next) == CallOn(s.threads[t]) && (Closing(next) ==> Closing(s.threads[t])))
      || (!Closing(next) && !Closing(s.threads[u]))
  }

  lemma GoKeepsInv(s: State, t: nat, env: Env)
    requires ProtocolInv(s) && Enabled(s, Go(t, env))
    ensures ProtocolInv(Take(s, Go(t, env)))
    ensures StepOk(s.data, s.threads[t], Advance(s.data, s.threads[t], env))
  {
    var pc := s.threads[t];
    assert PlaceOk(s.data, pc);
    AdvanceOk(s.data, pc, env);
    CallContinues(s.data, pc, env);
    var m := Advance(s.data, pc, env);
    var r := Take(s, Go(t, env));
    hide Advance, Inv, OneAec, InputOk, PlaceOk, HoldsInputs, HoldsOut, HoldsIn, CallOn, Closing, DataOk, Guarantee;
    forall u | 0 <= u < |s.threads| && u != t ensures Together(m.next, s.threads[u]) && Together(s.threads[u], m.next) {
      TogetherKept(s, t, m.next, u);
    }
    forall u | 0 <= u < |s.threads| ensures PlaceOk(r.data, r.threads[u]) {
      if u != t { OthersStay(s.data, m.data, pc, s.threads[u]); }
    }
  }

  /** The next place is on the same call, or on none. */
  lemma CallContinues(d: Data, pc: Pc, env: Env)
    requires InRange(d, pc)
    ensures var next := Advance(d, pc, env).next;
            CallOn(next).Some? ==> CallOn(next) == CallOn(pc) && (Closing(next) ==> Closing(pc))
  {
    hide Put, Get, Sync, StandbyOutput, StartOutput, UseRef, UseOutRef, SameGeneration, StandbyInput, StartInput;
  }

  lemma BeginKeepsInv(s: State, t: nat, call: Call)
    requires ProtocolInv(s) && Enabled(s, Begin(t, call))
    ensures ProtocolInv(Take(s, Begin(t, call)))
  {
    var next := FirstPlace(call);
    var r := Take(s, Begin(t, call));
    assert PlaceOk(r.data, next);
    assert forall u :: 0 <= u < |s.threads| ==> CallsStay(s, t, next, u);
    hide Inv, OneAec, InputOk, PlaceOk, DataOk, HoldsInputs, HoldsOut, HoldsIn, CallOn, Closing, FirstPlace, CallsStay;
    forall u | 0 <= u < |s.threads| && u != t ensures Together(next, s.threads[u]) && Together(s.threads[u], next) {
      TogetherKept(s, t, next, u);
    }
  }

  lemma OpenKeepsInv(s: State, mayAec: bool, hotword: bool)
    requires ProtocolInv(s) && Enabled(s, OpenInput(mayAec, hotword))
    ensures ProtocolInv(Take(s, OpenInput(mayAec, hotword)))
  {
    var r := Take(s, OpenInput(mayAec, hotword));
    hide Inv, Together;
    forall i | 0 <= i < |r.data.inputs| ensures InputOk(r.data, i) {
      if i < |s.data.inputs| { assert InputOk(s.data, i); }
    }
    forall t | 0 <= t < |s.threads| ensures PlaceOk(r.data, r.threads[t]) {
      assert PlaceOk(s.data, s.threads[t]);
    }
  }

  lemma StepKeepsInv(s: State, step: Step)
    requires ProtocolInv(s) && Enabled(s, step)
    ensures ProtocolInv(Take(s, step))
  {
    match step
    case Begin(t, call) => BeginKeepsInv(s, t, call);
    case Go(t, env) => GoKeepsInv(s, t, env);
    case OpenInput(mayAec, hotword) => OpenKeepsInv(s, mayAec, hotword);
  }

  function Next(s: State, step: Step): Option<State> {
    if Enabled(s, step) then Some(Take(s, step)) else None
  }

  lemma InvIsKept()
    ensures Kept(Next, ProtocolInv)
  {
    forall s, step | ProtocolInv(s) && Next(s, step).Some? ensures ProtocolInv(Next(s, step).value) {
      StepKeepsInv(s, step);
    }
  }

  lemma StartOk(threads: nat)
    ensures ProtocolInv(Start(threads)) && NamesOpen(Start(threads)) && Tidy(Start(threads))
  {
  }

  /** No reference was released twice or used after release, and none that is held has been
      released; no assertion on active_input failed, and an input captured for a forced standby
      is the active one; a running output of the device's generation has the device's reference. */
  ghost predicate Sound(s: State) {
    var d := s.data;
    && !d.echo.misused && Alive(d.echo, d.echo.devRef) && Alive(d.echo, d.echo.outRef)
    && (forall i :: 0 <= i < |d.inputs| ==> Alive(d.echo, d.inputs[i].ref))
    && !d.fatal
    && (forall t :: 0 <= t < |s.threads| && Captured(s.threads[t]).Some? ==> d.active == Captured(s.threads[t]))
    && (!d.echo.outStandby && d.echo.outGen == d.echo.devGen ==> d.echo.outRef == d.echo.devRef)
  }

  lemma InvIsSound(s: State)
    requires ProtocolInv(s)
    ensures Sound(s)
  {
    forall i | 0 <= i < |s.data.inputs| ensures Alive(s.data.echo, s.data.inputs[i].ref) {
      assert InputOk(s.data, i);
    }
    forall t | 0 <= t < |s.threads| && Captured(s.threads[t]).Some?
      ensures s.data.active == Captured(s.threads[t])
    {
      assert PlaceOk(s.data, s.threads[t]);
    }
  }

  /** Throughout every run of any number of threads, whatever fails. */
  lemma RunsAreSafe(threads: nat, steps: seq<Step>)
    ensures Always(Next, Sound, Start(threads), steps)
  {
    StartOk(threads);
    InvIsKept();
    forall s | ProtocolInv(s) ensures Sound(s) { InvIsSound(s); }
    Weaken(Next, ProtocolInv, Sound, Start(threads), steps);
  }

  // ---- what active_input and the use-case list point to

  /** They point to open inputs, and no closed input was touched. */
  ghost predicate PointsOpen(d: Data) {
    && !d.usedClosed
    && (d.active.Some? ==> d.active.value < |d.inputs| && d.inputs[d.active.value].open)
    && (forall k :: 0 <= k < |d.listed| ==> d.listed[k].stream < |d.inputs| && d.inputs[d.listed[k].stream].open)
  }

  ghost predicate NamesOpen(s: State) {
    PointsOpen(s.data)
  }

  predicate Named(d: Data, i: nat) {
    d.active == Some(i) || exists k :: 0 <= k < |d.listed| && d.listed[k].stream == i
  }

  /** An input is freed that active_input or a use-case entry still points to. */
  predicate FreesNamed(s: State, step: Step) {
    step.Go? && step.t < |s.threads| && s.threads[step.t].CFree? && Named(s.data, s.threads[step.t].i)
  }

  /** A step changes what is pointed to, and what is open, in one of these ways. */
  datatype Effect = Nothing | Starts(i: nat) | Clears(i: nat) | StandsBy(i: nat) | Frees(i: nat)

  function EffectOf(d: Data, pc: Pc): Effect
    requires InRange(d, pc)
  {
    match pc
    case RRecheck(i) => if d.inputs[i].standby then Starts(i) else Nothing
    case RStarted(i) => Clears(i)
    case Forced(i) => if d.inputs[i].standby then Nothing else StandsBy(i)
    case ISection(i, op) => if d.inputs[i].standby || op.Reselect? then Nothing else StandsBy(i)
    case CFree(i) => Frees(i)
    case _ => Nothing
  }

  ghost predicate SameShape(n: Input, m: Input) {
    n.standby == m.standby && n.hotword == m.hotword && n.open == m.open
  }

  /** All inputs but i look as before. */
  ghost predicate OthersSame(d: Data, r: Data, i: nat) {
    i < |d.inputs| && |r.inputs| == |d.inputs| && forall k :: 0 <= k < |d.inputs| && k != i ==> SameShape(d.inputs[k], r.inputs[k])
  }

  ghost predicate Effected(d: Data, r: Data, next: Pc, env: Env, e: Effect) {
    match e
    case Nothing =>
      && |r.inputs| == |d.inputs| && (forall k :: 0 <= k < |d.inputs| ==> SameShape(d.inputs[k], r.inputs[k]))
      && r.active == d.active && r.listed == d.listed && !next.RStarted?
    case Starts(i) =>
      && OthersSame(d, r, i) && SameShape(d.inputs[i], r.inputs[i])
      && r.active == (if env.profile && env.opens then Some(i) else None)
      && r.listed == ListedAfterStart(d, i, env)
      && (if env.profile && env.opens && !StartsHalf(d, i, env) then next == RStarted(i) else !next.RStarted?)
    case Clears(i) =>
      && OthersSame(d, r, i) && SameShape(d.inputs[i].(standby := false), r.inputs[i])
      && r.active == d.active && r.listed == d.listed && !next.RStarted?
    case StandsBy(i) =>
      && OthersSame(d, r, i) && SameShape(d.inputs[i].(standby := true), r.inputs[i])
      && r.active == None && r.listed == Unlist(d.listed, d.inputs[i].hotword) && !next.RStarted?
    case Frees(i) =>
      && OthersSame(d, r, i) && SameShape(d.inputs[i].(open := false), r.inputs[i])
      && r.active == d.active && r.listed == d.listed && !next.RStarted?
  }

  lemma StartEffect(d: Data, pc: Pc, env: Env)
    requires pc.RRecheck? && InRange(d, pc) && d.inputs[pc.i].standby
    ensures var m := ReadStep(d, pc, env); Effected(d, m.data, m.next, env, Starts(pc.i))
  {
    StartInputFrame(d, pc.i, env);
    hide StartInput, ListedAfterStart, StartsHalf;
    OneChanged(d, ReadStep(d, pc, env).data, pc.i);
  }

  lemma ReadEffect(d: Data, pc: Pc, env: Env)
    requires Reading(pc) && InRange(d, pc)
    ensures var m := ReadStep(d, pc, env); Effected(d, m.data, m.next, env, EffectOf(d, pc))
  {
    if pc.RRecheck? && d.inputs[pc.i].standby {
      StartEffect(d, pc, env);
    } else {
      hide StartInput, UseRef;
    }
  }

  lemma OneChanged(d: Data, r: Data, i: nat)
    requires i < |d.inputs| == |r.inputs| && r.inputs == d.inputs[i := r.inputs[i]]
    ensures OthersSame(d, r, i)
  {
  }

  lemma SectionEffect(d: Data, pc: Pc, env: Env)
    requires pc.ISection? && InRange(d, pc)
    ensures var m := OpStep(d, pc); Effected(d, m.data, m.next, env, EffectOf(d, pc))
  {
    var i, n := pc.i, BeforeStandby(d, pc.i, pc.op);
    BeforeStandbyFrame(d, i, pc.op);
    StandbyEffect(n, i);
    SectionIs(d, pc);
    var m := OpStep(d, pc);
    assert EffectOf(d, pc) == if d.inputs[i].standby || pc.op.Reselect? then Nothing else StandsBy(i);
    hide StandbyInput, BeforeStandby, Unlist, EffectOf, OpStep;
    assert m.data.inputs == d.inputs[i := m.data.inputs[i]];
    OneChanged(d, m.data, i);
  }

  lemma OpEffect(d: Data, pc: Pc, env: Env)
    requires Operating(pc) && InRange(d, pc)
    ensures var m := OpStep(d, pc); Effected(d, m.data, m.next, env, EffectOf(d, pc))
  {
    if pc.ISection? {
      SectionEffect(d, pc, env);
    } else {
      hide BeforeStandby, StandbyInput;
    }
  }

  lemma EffectMoves(d: Data, pc: Pc, env: Env)
    requires InRange(d, pc) && Inv(d.echo) && PlaceOk(d, pc)
    ensures var m := Advance(d, pc, env); Effected(d, m.data, m.next, env, EffectOf(d, pc))
  {
    if Reading(pc) {
      ReadEffect(d, pc, env);
    } else if Operating(pc) {
      OpEffect(d, pc, env);
    } else if pc.Force? || pc.Forced? {
      if pc.Forced? { StandbyEffect(d.(fatal := d.fatal || d.active != Some(pc.i)), pc.i); }
      hide StandbyInput, Unlist;
    } else {
      OutputEcho(d, pc, env);
      assert !OutputStep(d, pc, env).next.RStarted?;
      hide OutputStep;
    }
  }

  /** Where everything pointed to is open, a step touches no closed input. */
  lemma TouchesOpen(d: Data, pc: Pc, env: Env)
    requires InRange(d, pc) && PlaceOk(d, pc) && PointsOpen(d)
    ensures Advance(d, pc, env).data.usedClosed == d.usedClosed
  {
    if Reading(pc) {
      ReadTouchesOpen(d, pc, env);
    } else if pc.ISection? {
      StandbyEffect(BeforeStandby(d, pc.i, pc.op), pc.i);
      hide StandbyInput;
    } else if pc.Forced? {
      StandbyEffect(d.(fatal := d.fatal || d.active != Some(pc.i)), pc.i);
      hide StandbyInput;
    } else if !Operating(pc) && !pc.Force? {
      OutputTouchesOpen(d, pc, env);
    }
  }

  lemma OutputTouchesOpen(d: Data, pc: Pc, env: Env)
    requires PointsOpen(d)
    ensures OutputStep(d, pc, env).data.usedClosed == d.usedClosed
  {
    assert TouchListed(d) == d && LookAtActive(d) == d;
    hide TouchListed, LookAtActive, PointsOpen, StandbyIfRunning, StartOutput, Sync, UseOutRef, SameGeneration;
  }

  lemma ReadTouchesOpen(d: Data, pc: Pc, env: Env)
    requires Reading(pc) && PlaceOk(d, pc) && PointsOpen(d)
    ensures ReadStep(d, pc, env).data.usedClosed == d.usedClosed
  {
    if pc.RRecheck? {
      var l := d.(listed := d.listed + [Entry(pc.i, d.inputs[pc.i].hotword)]);
      assert PointsOpen(l);
      assert TouchSelected(l, d.inputs[pc.i].hotword) == l;
      hide TouchSelected, PointsOpen, Get, ListedAfterStart;
    }
  }

  lemma UnlistKeeps(es: seq<Entry>, hotword: bool, k: nat)
    requires k < |Unlist(es, hotword)|
    ensures Unlist(es, hotword)[k] in es
  {
    hide FirstOf, Unlist;
    UnlistAt(es, hotword);
    var f := FirstOf(es, hotword);
    if f < |es| { WithoutAt(es, f); }
  }

  lemma WithoutAt<T>(es: seq<T>, f: nat)
    requires f < |es|
    ensures var r := es[..f] + es[f + 1..];
            && |r| == |es| - 1
            && (forall k :: 0 <= k < |r| ==> r[k] == es[if k < f then k else k + 1])
            && (forall k :: 0 <= k < |es| && k != f ==> es[k] in r)
  {
    var r := es[..f] + es[f + 1..];
    forall k | 0 <= k < |es| && k != f ensures es[k] in r { assert r[if k < f then k else k - 1] == es[k]; }
  }

  lemma NamesStep(s: State, step: Step)
    requires ProtocolInv(s) && NamesOpen(s) && Enabled(s, step)
    ensures NamesOpen(Take(s, step)) <==> !FreesNamed(s, step)
  {
    if step.Go? {
      var d, pc, env := s.data, s.threads[step.t], step.env;
      assert PlaceOk(d, pc);
      TouchesOpen(d, pc, env);
      EffectMoves(d, pc, env);
      var m := Advance(d, pc, env);
      hide Advance, ProtocolInv, PlaceOk;
      EffectPointsOpen(d, m.data, m.next, env, EffectOf(d, pc));
    }
  }

  lemma EffectPointsOpen(d: Data, r: Data, next: Pc, env: Env, e: Effect)
    requires PointsOpen(d) && Effected(d, r, next, env, e) && !r.usedClosed
    requires e.Starts? ==> d.inputs[e.i].open
    ensures PointsOpen(r) <==> !(e.Frees? && Named(d, e.i))
  {
    hide StartsHalf, ListedAfterStart, Unlist;
    if e.Starts? {
      StartListsOpen(d, e.i, env);
    } else if e.StandsBy? {
      forall k | 0 <= k < |r.listed| ensures OpenAt(d, r.listed[k].stream) {
        UnlistKeeps(d.listed, d.inputs[e.i].hotword, k);
      }
    }
  }

  predicate OpenAt(d: Data, i: nat) {
    i < |d.inputs| && d.inputs[i].open
  }

  lemma StartListsOpen(d: Data, i: nat, env: Env)
    requires PointsOpen(d) && i < |d.inputs| && d.inputs[i].open
    ensures forall k :: 0 <= k < |ListedAfterStart(d, i, env)| ==> OpenAt(d, ListedAfterStart(d, i, env)[k].stream)
  {
    hide Unlist;
    var h := d.inputs[i].hotword;
    var longer := d.listed + [Entry(i, h)];
    forall k | 0 <= k < |Unlist(longer, h)| ensures OpenAt(d, Unlist(longer, h)[k].stream) {
      UnlistKeeps(longer, h, k);
    }
  }

  // ---- runs in which every entry is that of a running input

  ghost predicate Running(s: State, i: nat) {
    && i < |s.data.inputs| && s.data.inputs[i].open
    && (!s.data.inputs[i].standby || exists t :: 0 <= t < |s.threads| && s.threads[t] == RStarted(i))
  }

  ghost predicate Listed(d: Data, i: nat) {
    exists k :: 0 <= k < |d.listed| && d.listed[k].stream == i
  }

  /** The entries are those of the inputs that run or are being started, one of a use case; and
      the active input is one of these. */
  ghost predicate Tidy(s: State) {
    var d := s.data;
    && (forall k :: 0 <= k < |d.listed| ==>
          Running(s, d.listed[k].stream) && d.inputs[d.listed[k].stream].hotword == d.listed[k].hotword)
    && (forall j, k :: 0 <= j < k < |d.listed| ==> d.listed[j].hotword != d.listed[k].hotword)
    && (forall i: nat :: Running(s, i) ==> Listed(d, i))
    && (d.active.Some? ==> Running(s, d.active.value))
  }

  /** A start that stops half way, or the start of an input whose use case is listed already. */
  predicate Untidies(s: State, step: Step) {
    && step.Go? && step.t < |s.threads| && s.threads[step.t].RRecheck?
    && var i := s.threads[step.t].i;
       && i < |s.data.inputs| && s.data.inputs[i].standby && step.env.profile
       && (StartsHalf(s.data, i, step.env) || FirstOf(s.data.listed, s.data.inputs[i].hotword) < |s.data.listed|)
  }

  /** How a step of thread t changes whether input j runs. */
  ghost predicate RunsAfter(s: State, r: State, e: Effect, next: Pc, j: nat) {
    match e
    case Nothing => Running(r, j) <==> Running(s, j)
    case Starts(i) => if j == i then !Running(s, i) && (Running(r, i) <==> next == RStarted(i)) else Running(r, j) <==> Running(s, j)
    case Clears(i) => Running(r, j) <==> Running(s, j)
    case StandsBy(i) => if j == i then Running(s, i) && !Running(r, i) else Running(r, j) <==> Running(s, j)
    case Frees(i) => if j == i then !Running(s, i) && !Running(r, i) else Running(r, j) <==> Running(s, j)
  }

  /** A thread at RRecheck, Forced, ISection or CFree on i excludes another at RStarted(i). */
  lemma OnlyStarter(s: State, t: nat, i: nat)
    requires ProtocolInv(s) && t < |s.threads|
    requires var pc := s.threads[t]; HoldsIn(pc) == Some(i) || pc == CFree(i)
    ensures forall u :: 0 <= u < |s.threads| && u != t ==> s.threads[u] != RStarted(i)
  {
    forall u | 0 <= u < |s.threads| && u != t ensures s.threads[u] != RStarted(i) {
      assert Together(s.threads[t], s.threads[u]);
    }
  }

  lemma StartersAfter(s: State, r: State, t: nat, j: nat)
    requires t < |s.threads| == |r.threads| && r.threads == s.threads[t := r.threads[t]]
    ensures (exists u :: 0 <= u < |r.threads| && r.threads[u] == RStarted(j)) <==>
            r.threads[t] == RStarted(j) || exists u :: 0 <= u < |s.threads| && u != t && s.threads[u] == RStarted(j)
  {
    if u :| 0 <= u < |s.threads| && u != t && s.threads[u] == RStarted(j) { assert r.threads[u] == RStarted(j); }
  }

  /** What an effect does to one input. */
  lemma EffectAt(d: Data, r: Data, next: Pc, env: Env, e: Effect, j: nat)
    requires Effected(d, r, next, env, e)
    ensures |r.inputs| == |d.inputs| && (e.Nothing? || e.i < |d.inputs|)
    ensures j < |d.inputs| ==>
              && r.inputs[j].open == (d.inputs[j].open && e != Frees(j))
              && r.inputs[j].standby == ((d.inputs[j].standby && e != Clears(j)) || e == StandsBy(j))
    ensures next.RStarted? ==> e == Starts(next.i)
  {
    hide StartsHalf, ListedAfterStart, Unlist;
  }

  lemma RunsByEffect(s: State, r: State, t: nat, e: Effect, j: nat)
    requires t < |s.threads| == |r.threads| && r.threads == s.threads[t := r.threads[t]]
    requires |r.data.inputs| == |s.data.inputs|
    requires j < |s.data.inputs| ==>
               && r.data.inputs[j].open == (s.data.inputs[j].open && e != Frees(j))
               && r.data.inputs[j].standby == ((s.data.inputs[j].standby && e != Clears(j)) || e == StandsBy(j))
    requires (r.threads[t].RStarted? ==> e == Starts(r.threads[t].i)) && (s.threads[t] == RStarted(j) ==> e == Clears(j))
    requires !e.Nothing? ==>
               && e.i < |s.data.inputs| && (e.Clears? ==> s.threads[t] == RStarted(e.i))
               && (!e.Frees? ==> s.data.inputs[e.i].open)
               && s.data.inputs[e.i].standby == !e.StandsBy?
               && forall u :: 0 <= u < |s.threads| && u != t ==> s.threads[u] != RStarted(e.i)
    ensures RunsAfter(s, r, e, r.threads[t], j)
  {
    StartersAfter(s, r, t, j);
  }

  lemma RunsMove(s: State, t: nat, env: Env, j: nat)
    requires ProtocolInv(s) && Tidy(s) && Enabled(s, Go(t, env))
    ensures var m := Advance(s.data, s.threads[t], env);
            RunsAfter(s, Take(s, Go(t, env)), EffectOf(s.data, s.threads[t]), m.next, j)
  {
    var d, pc := s.data, s.threads[t];
    var e := EffectOf(d, pc);
    var r := Take(s, Go(t, env));
    assert PlaceOk(d, pc);
    EffectMoves(d, pc, env);
    EffectAt(d, r.data, r.threads[t], env, e, j);
    if !e.Nothing? { OnlyStarter(s, t, e.i); }
    assert e.StandsBy? ==> d.inputs[e.i].open by { if pc.Forced? { assert Running(s, pc.i); } }
    assert !e.Nothing? ==> d.inputs[e.i].standby == !e.StandsBy?;
    assert !e.Nothing? && !e.StandsBy? ==> d.inputs[e.i].open;
    assert pc == RStarted(j) ==> e == Clears(j);
    assert e.Clears? ==> pc == RStarted(e.i);
    hide Advance, EffectOf, ProtocolInv, Tidy, PlaceOk, Running, RunsAfter, Effected;
    RunsByEffect(s, r, t, e, j);
  }

  ghost predicate RunsSameBut(s: State, r: State, i: nat) {
    forall j: nat :: j != i ==> (Running(r, j) <==> Running(s, j))
  }

  lemma TidyStart(s: State, r: State, i: nat, env: Env, next: Pc)
    requires Tidy(s) && i < |s.data.inputs| && Effected(s.data, r.data, next, env, Starts(i))
    requires RunsSameBut(s, r, i) && !Running(s, i) && (Running(r, i) <==> next == RStarted(i))
    ensures Tidy(r) <==>
            !(env.profile && (StartsHalf(s.data, i, env) || FirstOf(s.data.listed, s.data.inputs[i].hotword) < |s.data.listed|))
  {
    hide Running;
    var d, h := s.data, s.data.inputs[i].hotword;
    var k := FirstOf(d.listed, h);
    StartAppends(d.listed, Entry(i, h));
    var last := |r.data.listed| - 1;
    if env.profile && (StartsHalf(d, i, env) || (k < |d.listed| && !env.opens)) {
      assert r.data.listed[last] == Entry(i, h);
    } else if env.profile && k < |d.listed| {
      assert r.data.listed == d.listed + [Entry(i, h)];
      assert r.data.listed[k].hotword == h && r.data.listed[|d.listed|].hotword == h;
    } else if env.profile && env.opens {
      TidyStartAlone(s, r, i);
    } else {
      assert r.data.listed == d.listed;
      TidySame(s, r);
    }
  }

  lemma StartAppends(es: seq<Entry>, e: Entry)
    ensures var k := FirstOf(es, e.hotword);
            Unlist(es + [e], e.hotword) == if k < |es| then es[..k] + es[k + 1..] + [e] else es
  {
    hide FirstOf, Unlist;
    FirstOfLonger(es, e);
    UnlistAt(es + [e], e.hotword);
    LastStays(es, e, FirstOf(es, e.hotword));
  }

  lemma UnlistAt(es: seq<Entry>, hotword: bool)
    ensures var k := FirstOf(es, hotword);
            Unlist(es, hotword) == if k < |es| then es[..k] + es[k + 1..] else es
  {
  }

  lemma LastStays<T>(es: seq<T>, e: T, k: nat)
    requires k <= |es|
    ensures (es + [e])[..k] + (es + [e])[k + 1..] == if k < |es| then es[..k] + es[k + 1..] + [e] else es
  {
  }

  lemma {:induction false} FirstOfLonger(es: seq<Entry>, e: Entry)
    ensures FirstOf(es + [e], e.hotword) == FirstOf(es, e.hotword)
    decreases |es|
  {
    if es != [] {
      assert (es + [e])[1..] == es[1..] + [e];
      FirstOfLonger(es[1..], e);
    }
  }

  /** The inputs keep their use cases. */
  ghost predicate KindsSame(d: Data, r: Data) {
    |r.inputs| >= |d.inputs| && forall k :: 0 <= k < |d.inputs| ==> r.inputs[k].hotword == d.inputs[k].hotword
  }

  lemma RunningInRange(s: State)
    ensures forall i: nat :: Running(s, i) ==> i < |s.data.inputs|
  {
  }

  lemma TidySame(s: State, r: State)
    requires Tidy(s) && r.data.listed == s.data.listed && KindsSame(s.data, r.data)
    requires forall j: nat :: Running(r, j) <==> Running(s, j)
    requires r.data.active.Some? ==> r.data.active == s.data.active
    ensures Tidy(r)
  {
    RunningInRange(s);
    hide Running;
    forall k | 0 <= k < |r.data.listed|
      ensures Running(r, r.data.listed[k].stream) && r.data.inputs[r.data.listed[k].stream].hotword == r.data.listed[k].hotword
    {
      assert Running(s, s.data.listed[k].stream);
    }
    forall i: nat | Running(r, i) ensures Listed(r.data, i) { assert Listed(s.data, i); }
  }

  lemma TidyStartAlone(s: State, r: State, i: nat)
    requires Tidy(s) && i < |s.data.inputs| && KindsSame(s.data, r.data)
    requires RunsSameBut(s, r, i) && !Running(s, i) && Running(r, i)
    requires r.data.active == Some(i) && r.data.listed == s.data.listed + [Entry(i, s.data.inputs[i].hotword)]
    requires FirstOf(s.data.listed, s.data.inputs[i].hotword) == |s.data.listed|
    ensures Tidy(r)
  {
    RunningInRange(s);
    hide Running;
    var d, listed := s.data, r.data.listed;
    forall k | 0 <= k < |listed|
      ensures Running(r, listed[k].stream) && r.data.inputs[listed[k].stream].hotword == listed[k].hotword
    {
      if k < |d.listed| { assert listed[k] == d.listed[k] && Running(s, d.listed[k].stream); }
    }
    forall j: nat | Running(r, j) ensures Listed(r.data, j) {
      if j == i {
        assert listed[|d.listed|].stream == i;
      } else {
        assert Listed(d, j);
        var k :| 0 <= k < |d.listed| && d.listed[k].stream == j;
        assert listed[k].stream == j;
      }
    }
  }

  /** A running input's entry is the first of its use case. */
  lemma OwnEntryIsFirst(s: State, i: nat)
    requires Tidy(s) && i < |s.data.inputs| && Running(s, i)
    ensures var h, listed := s.data.inputs[i].hotword, s.data.listed;
            var f := FirstOf(listed, h);
            && f < |listed| && listed[f].stream == i
            && forall k :: 0 <= k < |listed| && k != f ==> listed[k].hotword != h
  {
    hide Running;
    assert Listed(s.data, i);
    var own :| 0 <= own < |s.data.listed| && s.data.listed[own].stream == i;
    assert own == FirstOf(s.data.listed, s.data.inputs[i].hotword);
  }

  /** The other entries are those of other inputs, and stay. */
  lemma EntriesStay(s: State, r: State, i: nat, f: nat)
    requires Tidy(s) && i < |s.data.inputs| && KindsSame(s.data, r.data) && RunsSameBut(s, r, i)
    requires f < |s.data.listed|
    requires forall k :: 0 <= k < |s.data.listed| && k != f ==> s.data.listed[k].hotword != s.data.inputs[i].hotword
    requires |r.data.listed| == |s.data.listed| - 1
    requires forall k :: 0 <= k < |r.data.listed| ==> r.data.listed[k] == s.data.listed[if k < f then k else k + 1]
    ensures forall k :: 0 <= k < |r.data.listed| ==>
              Running(r, r.data.listed[k].stream) && r.data.inputs[r.data.listed[k].stream].hotword == r.data.listed[k].hotword
    ensures forall j, k :: 0 <= j < k < |r.data.listed| ==> r.data.listed[j].hotword != r.data.listed[k].hotword
  {
    RunningInRange(s);
    hide Running;
    forall k | 0 <= k < |r.data.listed|
      ensures Running(r, r.data.listed[k].stream) && r.data.inputs[r.data.listed[k].stream].hotword == r.data.listed[k].hotword
    {
      assert Running(s, s.data.listed[if k < f then k else k + 1].stream);
    }
  }

  lemma RunningStayListed(s: State, r: State, i: nat, f: nat)
    requires Tidy(s) && RunsSameBut(s, r, i) && !Running(r, i)
    requires f < |s.data.listed| && s.data.listed[f].stream == i
    requires forall k :: 0 <= k < |s.data.listed| && k != f ==> s.data.listed[k] in r.data.listed
    ensures forall j: nat :: Running(r, j) ==> Listed(r.data, j)
  {
    hide Running;
    forall j: nat | Running(r, j) ensures Listed(r.data, j) {
      assert Running(s, j) && Listed(s.data, j);
      var k :| 0 <= k < |s.data.listed| && s.data.listed[k].stream == j;
      assert s.data.listed[k] in r.data.listed;
    }
  }

  lemma TidyStandsBy(s: State, r: State, i: nat)
    requires Tidy(s) && i < |s.data.inputs| && KindsSame(s.data, r.data)
    requires RunsSameBut(s, r, i) && Running(s, i) && !Running(r, i)
    requires r.data.active == None && r.data.listed == Unlist(s.data.listed, s.data.inputs[i].hotword)
    ensures Tidy(r)
  {
    RunningInRange(s);
    OwnEntryIsFirst(s, i);
    var d, h, listed := s.data, s.data.inputs[i].hotword, r.data.listed;
    UnlistAt(d.listed, h);
    hide Running, FirstOf, Unlist;
    var f := FirstOf(d.listed, h);
    WithoutAt(d.listed, f);
    EntriesStay(s, r, i, f);
    RunningStayListed(s, r, i, f);
    hide KindsSame;
  }

  lemma TidyStep(s: State, step: Step)
    requires ProtocolInv(s) && Tidy(s) && Enabled(s, step)
    ensures Tidy(Take(s, step)) <==> !Untidies(s, step)
  {
    var r := Take(s, step);
    match step
    case Go(t, env) => TidyGo(s, t, env);
    case Begin(t, call) =>
      assert r.threads == s.threads[t := r.threads[t]];
      forall j: nat ensures Running(r, j) <==> Running(s, j) { StartersAfter(s, r, t, j); }
      TidySame(s, r);
    case OpenInput(_, _) =>
      forall j: nat ensures Running(r, j) <==> Running(s, j) { NotStarted(s, j); }
      TidySame(s, r);
  }

  /** No thread starts an input that does not exist. */
  lemma NotStarted(s: State, j: nat)
    requires ProtocolInv(s)
    ensures j >= |s.data.inputs| ==> forall u :: 0 <= u < |s.threads| ==> s.threads[u] != RStarted(j)
  {
    forall u | 0 <= u < |s.threads| && s.threads[u].RStarted? ensures s.threads[u].i < |s.data.inputs| {
      assert PlaceOk(s.data, s.threads[u]);
    }
  }

  lemma UntidiesAt(s: State, t: nat, env: Env)
    requires ProtocolInv(s) && t < |s.threads| && InRange(s.data, s.threads[t])
    ensures var e := EffectOf(s.data, s.threads[t]);
            Untidies(s, Go(t, env)) <==>
              e.Starts? && env.profile
              && (StartsHalf(s.data, e.i, env) || FirstOf(s.data.listed, s.data.inputs[e.i].hotword) < |s.data.listed|)
  {
    hide FirstOf, StartsHalf, ProtocolInv;
  }

  lemma TidyGo(s: State, t: nat, env: Env)
    requires ProtocolInv(s) && Tidy(s) && Enabled(s, Go(t, env))
    ensures Tidy(Take(s, Go(t, env))) <==> !Untidies(s, Go(t, env))
  {
    var d, pc := s.data, s.threads[t];
    assert PlaceOk(d, pc) && Inv(d.echo);
    UntidiesAt(s, t, env);
    hide Untidies, EffectOf, Advance, ProtocolInv, PlaceOk, Tidy, Running, Effected, RunsAfter, Inv;
    EffectMoves(d, pc, env);
    var m := Advance(d, pc, env);
    var r := Take(s, Go(t, env));
    var e := EffectOf(d, pc);
    forall j: nat ensures RunsAfter(s, r, e, m.next, j) { RunsMove(s, t, env, j); }
    TidyEffect(s, r, e, env, m.next);
  }

  /** What an effect does to tidiness. */
  lemma TidyEffect(s: State, r: State, e: Effect, env: Env, next: Pc)
    requires Tidy(s) && Effected(s.data, r.data, next, env, e)
    requires forall j: nat :: RunsAfter(s, r, e, next, j)
    ensures Tidy(r) <==>
            !(e.Starts? && env.profile
              && (StartsHalf(s.data, e.i, env) || FirstOf(s.data.listed, s.data.inputs[e.i].hotword) < |s.data.listed|))
  {
    hide Running, Tidy, ListedAfterStart, Unlist, StartsHalf, FirstOf;
    assert KindsSame(s.data, r.data);
    if e.Starts? || e.StandsBy? {
      assert RunsAfter(s, r, e, next, e.i);
      forall j: nat | j != e.i ensures Running(r, j) <==> Running(s, j) { assert RunsAfter(s, r, e, next, j); }
      if e.Starts? {
        TidyStart(s, r, e.i, env, next);
      } else {
        TidyStandsBy(s, r, e.i);
      }
    } else {
      if e.Frees? { assert RunsAfter(s, r, e, next, e.i); }
      forall j: nat ensures Running(r, j) <==> Running(s, j) { assert RunsAfter(s, r, e, next, j); }
      TidySame(s, r);
    }
  }

  /** Throughout a run active_input and every use-case entry point to open inputs and no closed
      input is touched: exactly if no step of the run frees an input that one of them names. */
  lemma PointsOpenIffNamedNeverFreed(threads: nat, steps: seq<Step>)
    ensures Always(Next, NamesOpen, Start(threads), steps) <==> !Ever(Next, FreesNamed, Start(threads), steps)
  {
    StartOk(threads);
    InvIsKept();
    forall s, step | ProtocolInv(s) && NamesOpen(s) && Next(s, step).Some?
      ensures NamesOpen(Next(s, step).value) <==> !FreesNamed(s, step)
    {
      NamesStep(s, step);
    }
    AlwaysIffNever(Next, ProtocolInv, NamesOpen, FreesNamed, Start(threads), steps);
  }

  /** Every entry is that of a running input throughout exactly the runs in which no start stops
      half way and no use case is started that is listed already. */
  lemma TidyIffNeverUntidied(threads: nat, steps: seq<Step>)
    ensures Always(Next, Tidy, Start(threads), steps) <==> !Ever(Next, Untidies, Start(threads), steps)
  {
    StartOk(threads);
    InvIsKept();
    forall s, step | ProtocolInv(s) && Tidy(s) && Next(s, step).Some?
      ensures Tidy(Next(s, step).value) <==> !Untidies(s, step)
    {
      TidyStep(s, step);
    }
    AlwaysIffNever(Next, ProtocolInv, Tidy, Untidies, Start(threads), steps);
  }

  /** An input that is freed neither runs nor is being started. */
  lemma TidyFreesNothingNamed(s: State, step: Step)
    requires ProtocolInv(s) && Tidy(s)
    ensures !FreesNamed(s, step)
  {
    if step.Go? && step.t < |s.threads| && s.threads[step.t].CFree? {
      OnlyStarter(s, step.t, s.threads[step.t].i);
      assert PlaceOk(s.data, s.threads[step.t]) && !Running(s, s.threads[step.t].i);
    }
  }

  /** In those runs everything named is open, and no closed input is touched. */
  lemma SafeWhileTidy(threads: nat, steps: seq<Step>)
    requires !Ever(Next, Untidies, Start(threads), steps)
    ensures Always(Next, NamesOpen, Start(threads), steps)
  {
    StartOk(threads);
    forall s, step | InvAndTidy(s) && !Untidies(s, step) && Next(s, step).Some?
      ensures InvAndTidy(Next(s, step).value) && !FreesNamed(s, step)
    {
      StepKeepsInv(s, step);
      TidyStep(s, step);
      TidyFreesNothingNamed(s, step);
    }
    NeverUnless(Next, InvAndTidy, Untidies, FreesNamed, Start(threads), steps);
    PointsOpenIffNamedNeverFreed(threads, steps);
  }

  ghost predicate InvAndTidy(s: State) {
    ProtocolInv(s) && Tidy(s)
  }
}

/** Whole runs of the stream protocol: progress, when no echo reference is lost, and runs in
    which one is lost or a closed input is used. */
module StreamRuns {
  import opened Wrappers
  import opened EchoReference
  import opened StreamProtocol
  import opened Runs

  const ALL_WELL := Env(true, true, true, true, false, false, false, false, false)

  // ---- no deadlock

  predicate CanGo(s: State, t: nat, env: Env) {
    Enabled(s, Go(t, env))
  }

  lemma HoldersOfStreamLocksCanGo(s: State, t: nat, env: Env)
    requires ProtocolInv(s) && t < |s.threads| && (HoldsOut(s.threads[t]) || HoldsIn(s.threads[t]).Some?)
    ensures CanGo(s, t, env) && !s.threads[t].Idle?
  {
    assert PlaceOk(s.data, s.threads[t]);
    NothingNewNeeded(s.data, s.threads[t], env);
  }

  predicate NothingNew(pc: Pc, next: Pc) {
    && (HoldsInputs(next) ==> HoldsInputs(pc))
    && (HoldsOut(next) ==> HoldsOut(pc))
    && (HoldsIn(next).Some? ==> HoldsIn(next) == HoldsIn(pc))
  }

  lemma NothingNewNeeded(d: Data, pc: Pc, env: Env)
    requires PlaceOk(d, pc) && (HoldsOut(pc) || HoldsIn(pc).Some?)
    requires d.active.Some? ==> d.active.value < |d.inputs|
    ensures InRange(d, pc)
    ensures NothingNew(pc, Advance(d, pc, env).next)
  {
    if HoldsOut(pc) {
      OutputNeedsNothingNew(d, pc, env);
    } else {
      hide OutputStep;
      InputNeedsNothingNew(d, pc, env);
    }
  }

  lemma OutputNeedsNothingNew(d: Data, pc: Pc, env: Env)
    requires HoldsOut(pc)
    ensures NothingNew(pc, OutputStep(d, pc, env).next)
  {
    hide Sync, StandbyOutput, StartOutput, UseOutRef, SameGeneration, StandbyIfRunning, LookAtActive, TouchListed;
  }

  lemma InputNeedsNothingNew(d: Data, pc: Pc, env: Env)
    requires PlaceOk(d, pc) && HoldsIn(pc).Some? && InRange(d, pc)
    ensures NothingNew(pc, Advance(d, pc, env).next)
  {
    hide OutputStep, Get, UseRef, StandbyInput, StartInput, Touch, StartsHalf, BeforeStandby;
  }

  /** Thread u holds a lock that t's next place adds. */
  predicate Blocks(s: State, u: nat, t: nat, next: Pc)
    requires u < |s.threads| && t < |s.threads|
  {
    var p, q := s.threads[t], s.threads[u];
    || (HoldsInputs(next) && !HoldsInputs(p) && HoldsInputs(q))
    || (HoldsOut(next) && HoldsOut(q))
    || (HoldsIn(next).Some? && HoldsIn(q) == HoldsIn(next))
  }

  lemma UnblockedMayEnter(s: State, t: nat, next: Pc)
    requires t < |s.threads|
    ensures (forall u :: 0 <= u < |s.threads| && u != t ==> !Blocks(s, u, t, next)) ==> MayEnter(s, t, next)
  {
    if !MayEnter(s, t, next) {
      var u :| 0 <= u < |s.threads| && u != t &&
        var was := s.threads[t];
        !(&& (HoldsInputs(next) && !HoldsInputs(was) ==> !HoldsInputs(s.threads[u]))
          && (HoldsOut(next) && !HoldsOut(was) ==> !HoldsOut(s.threads[u]))
          && (HoldsIn(next).Some? && HoldsIn(next) != HoldsIn(was) ==> HoldsIn(s.threads[u]) != HoldsIn(next)));
      assert Blocks(s, u, t, next);
    }
  }

  /** A thread that cannot go on waits for a lock of another thread. */
  lemma Blocker(s: State, t: nat, env: Env) returns (u: nat)
    requires ProtocolInv(s) && t < |s.threads| && !s.threads[t].Idle? && !CanGo(s, t, env)
    ensures InRange(s.data, s.threads[t])
    ensures u < |s.threads| && u != t && Blocks(s, u, t, Advance(s.data, s.threads[t], env).next)
  {
    assert PlaceOk(s.data, s.threads[t]);
    hide Advance;
    assert InRange(s.data, s.threads[t]);
    UnblockedMayEnter(s, t, Advance(s.data, s.threads[t], env).next);
    u :| 0 <= u < |s.threads| && u != t && Blocks(s, u, t, Advance(s.data, s.threads[t], env).next);
  }

  predicate Inside(s: State, t: nat) {
    t < |s.threads| && !s.threads[t].Idle?
  }

  ghost predicate SomeoneGoes(s: State, env: Env) {
    exists u: nat :: Inside(s, u) && CanGo(s, u, env)
  }

  /** As long as some thread is inside a call, some thread inside a call has a next step,
      whatever devices and sources answer. */
  ghost predicate Progress(s: State) {
    (exists t: nat :: Inside(s, t)) ==> forall env :: SomeoneGoes(s, env)
  }

  lemma NoDeadlock(threads: nat, steps: seq<Step>)
    ensures Always(Next, Progress, Start(threads), steps)
  {
    StartOk(threads);
    InvIsKept();
    forall s | ProtocolInv(s) ensures Progress(s) {
      forall t: nat, env | Inside(s, t) ensures SomeoneGoes(s, env) { var u := Goer(s, t, env); }
    }
    Weaken(Next, ProtocolInv, Progress, Start(threads), steps);
  }

  /** A thread inside a call can go on, or the one that blocks it, or the one that blocks that. */
  lemma Goer(s: State, t: nat, env: Env) returns (goer: nat)
    requires ProtocolInv(s) && Inside(s, t)
    ensures Inside(s, goer) && CanGo(s, goer, env)
  {
    goer := t;
    hide ProtocolInv, Advance, Enabled, HoldsIn, HoldsOut;
    assert HoldsInputs(Idle) == false;
    if !CanGo(s, t, env) {
      var u := Blocker(s, t, env);
      goer := u;
      if HoldsOut(s.threads[u]) || HoldsIn(s.threads[u]).Some? {
        HoldersOfStreamLocksCanGo(s, u, env);
      } else if !CanGo(s, u, env) {
        goer := Blocker(s, u, env);
        HoldersOfStreamLocksCanGo(s, goer, env);
      }
    }
  }

  // ---- no reference is lost, and exactly when one is

  /** The steps that drop the last hold on a reference without releasing it: the device or the
      output compares generations that differ by a multiple of 2^32 and takes them for equal. */
  predicate Leaks(d: Data, pc: Pc, env: Env)
    requires InRange(d, pc)
  {
    Collides(d.echo) &&
    match pc
    case Forced(i) => !d.inputs[i].standby && d.inputs[i].ref.Some?
    case ISection(i, op) => !op.Reselect? && !d.inputs[i].standby && d.inputs[i].ref.Some?
    case RRecheck(i) =>
      var n := d.inputs[i];
      n.standby && env.profile && n.aec && n.ref.None? && d.echo.devRef.Some?
    case OStandby => d.echo.outRef.Some?
    case WErrStandby(_) => d.echo.outRef.Some?
    case PSection => env.toStandby && d.echo.outRef.Some?
    case _ => false
  }

  /** What a step does to ownership. */
  ghost predicate Ownership(e: Echo, after: Echo, leaks: bool) {
    && (forall r :: Leaked(e, r) ==> Leaked(after, r))
    && e.next <= after.next
    && (Conserved(e) ==> (Conserved(after) <==> !leaks))
  }

  lemma StandbyInputOwnership(d: Data, i: nat)
    requires DataOk(d) && i < |d.inputs|
    ensures Ownership(d.echo, StandbyInput(d, i).echo,
                      Collides(d.echo) && !d.inputs[i].standby && d.inputs[i].ref.Some?)
  {
    assert InputOk(d, i);
    if !d.inputs[i].standby && d.inputs[i].ref.Some? {
      UseIsSafe(d.echo, d.inputs[i].ref);
      PutIsSafe(d.echo, d.inputs[i].ref);
    }
  }

  lemma OutputOwnership(d: Data, pc: Pc, env: Env)
    requires Inv(d.echo) && PlaceOk(d, pc) && InRange(d, pc) && CallOn(pc).None? && !pc.Force? && !pc.Forced?
    ensures Ownership(d.echo, OutputStep(d, pc, env).data.echo, Leaks(d, pc, env))
  {
    var e := d.echo;
    if !e.outStandby { StandbyIsSafe(e); }
    if pc.WSync? { SyncIsSafe(e); }
    if e.outStandby { StartIsSafe(e); }
    UseIsSafe(e, e.outRef);
    assert StandbyIfRunning(e) == if e.outStandby then e else StandbyOutput(e);
    assert Collides(e) ==> !e.outStandby;
    hide Inv, Conserved, Leaked, Sync, StandbyOutput, StandbyIfRunning, StartOutput, UseRef, SameGeneration, Collides, PlaceOk;
  }

  lemma ReadOwnership(d: Data, pc: Pc, env: Env)
    requires DataOk(d) && PlaceOk(d, pc) && Reading(pc) && InRange(d, pc)
    ensures Ownership(d.echo, ReadStep(d, pc, env).data.echo, Leaks(d, pc, env))
  {
    assert InputOk(d, pc.i);
    GetIsSafe(d.echo, env.creates);
    UseIsSafe(d.echo, d.inputs[pc.i].ref);
    hide Inv, Conserved, Leaked, Get, UseRef, Collides, PlaceOk, DataOk;
  }

  lemma SectionOwnership(d: Data, pc: Pc)
    requires DataOk(d) && PlaceOk(d, pc) && pc.ISection? && InRange(d, pc)
    ensures Ownership(d.echo, OpStep(d, pc).data.echo, Leaks(d, pc, ALL_WELL))
  {
    var i := pc.i;
    BeforeStandbyFrame(d, i, pc.op);
    BeforeStandbyOk(d, i, pc.op);
    SectionIs(d, pc);
    var n := BeforeStandby(d, i, pc.op);
    StandbyInputOwnership(n, i);
    hide StandbyInput, BeforeStandby, OpStep, Inv, DataOk, Ownership;
    NothingOwned(d.echo);
  }

  lemma NothingOwned(e: Echo)
    ensures Ownership(e, e, false)
  {
  }

  lemma StepOwnership(d: Data, pc: Pc, env: Env)
    requires DataOk(d) && PlaceOk(d, pc) && InRange(d, pc)
    ensures Ownership(d.echo, Advance(d, pc, env).data.echo, Leaks(d, pc, env))
  {
    if Reading(pc) {
      ReadOwnership(d, pc, env);
    } else if pc.ISection? {
      SectionOwnership(d, pc);
    } else if pc.Forced? {
      StandbyInputOwnership(d, pc.i);
    } else if !Operating(pc) && !pc.Force? {
      OutputOwnership(d, pc, env);
    }
  }

  predicate StepLeaks(s: State, step: Step) {
    step.Go? && Enabled(s, step) && Leaks(s.data, s.threads[step.t], step.env)
  }

  lemma StepKeepsOwnership(s: State, step: Step)
    requires ProtocolInv(s) && Enabled(s, step)
    ensures Ownership(s.data.echo, Take(s, step).data.echo, StepLeaks(s, step))
  {
    if step.Go? {
      assert PlaceOk(s.data, s.threads[step.t]);
      StepOwnership(s.data, s.threads[step.t], step.env);
    }
  }

  lemma {:induction false} ConservedIffNoLeak(s: State, steps: seq<Step>)
    requires ProtocolInv(s) && Exec(Next, s, steps).Some?
    ensures var r := Exec(Next, s, steps).value;
            Ownership(s.data.echo, r.data.echo, Ever(Next, StepLeaks, s, steps))
    decreases |steps|
  {
    if steps != [] {
      StepKeepsInv(s, steps[0]);
      StepKeepsOwnership(s, steps[0]);
      var r := Take(s, steps[0]);
      ConservedIffNoLeak(r, steps[1..]);
      OnceLost(s.data.echo, r.data.echo);
      OnceLost(r.data.echo, Exec(Next, r, steps[1..]).value.data.echo);
    }
  }

  /** A lost reference is never found again. */
  lemma OnceLost(e: Echo, after: Echo)
    requires forall r :: Leaked(e, r) ==> Leaked(after, r)
    requires e.next <= after.next
    ensures Conserved(after) ==> Conserved(e)
  {
    forall r | 0 <= r < e.next && Leaked(e, r) ensures Leaked(after, r) {}
  }

  /** At the end of any run every reference created is released or held by the device or the
      output, if and only if no step of the run was a leaking one. */
  lemma ReferencesAreConserved(threads: nat, steps: seq<Step>)
    requires Exec(Next, Start(threads), steps).Some?
    ensures Conserved(Exec(Next, Start(threads), steps).value.data.echo) <==>
            !Ever(Next, StepLeaks, Start(threads), steps)
  {
    StartOk(threads);
    ConservedIffNoLeak(Start(threads), steps);
  }

  /** The running output is not 2^32 generations behind. */
  predicate KeepsUp(s: State) {
    s.data.echo.outStandby || s.data.echo.devGen < s.data.echo.outGen + GENERATIONS
  }

  lemma KeepingUpDoesNotLeak(s: State, steps: seq<Step>)
    requires Always(Next, KeepsUp, s, steps)
    ensures !Ever(Next, StepLeaks, s, steps)
  {
    forall s, step | KeepsUp(s) ensures !StepLeaks(s, step) {
      if s.data.echo.outGen <= s.data.echo.devGen && !s.data.echo.outStandby {
        CloseGenerationsDoNotCollide(s.data.echo);
      }
    }
    NeverWhile(Next, KeepsUp, StepLeaks, s, steps);
  }

  // ---- a run that loses a reference

  ghost predicate Reached(s: State) {
    Reachable(Next, Start(2), s)
  }

  lemma Reach(s: State, step: Step, r: State)
    requires Reached(s) && Enabled(s, step) && Take(s, step) == r
    ensures Reached(r)
  {
    var _ := Reaches(Next, Start(2), s, step);
  }

  const RUNNING := Input(false, true, true, None, false, true)
  const LISTED := [Entry(0, false)]
  const STOPPED := Input(true, true, true, None, false, true)

  /** One input, which is listed while it is active; thread 0 plays, thread 1 records. */
  function Pair(e: Echo, input: Input, active: Option<nat>, player: Pc, recorder: Pc): State {
    State(Data(e, [input], active, if active.Some? then LISTED else [], false, false), [player, recorder])
  }

  lemma RecorderGoes(d: Data, pc: Pc, m: Move, env: Env := ALL_WELL)
    requires !pc.Idle? && InRange(d, pc) && Advance(d, pc, env) == m
    requires Reached(State(d, [Idle, pc]))
    ensures Reached(State(m.data, [Idle, m.next]))
  {
    hide Advance, Reached;
    assert MayEnter(State(d, [Idle, pc]), 1, m.next);
    Reach(State(d, [Idle, pc]), Go(1, env), State(m.data, [Idle, m.next]));
  }

  lemma PlayerGoes(d: Data, pc: Pc, m: Move)
    requires !pc.Idle? && InRange(d, pc) && Advance(d, pc, ALL_WELL) == m
    requires Reached(State(d, [pc, Idle]))
    ensures Reached(State(m.data, [m.next, Idle]))
  {
    hide Advance, Reached;
    assert MayEnter(State(d, [pc, Idle]), 0, m.next);
    Reach(State(d, [pc, Idle]), Go(0, ALL_WELL), State(m.data, [m.next, Idle]));
  }

  lemma RecorderBegins(d: Data, call: Call)
    requires Reached(State(d, [Idle, Idle])) && (call.Read? || call.OnInput?)
    requires call.i < |d.inputs| && d.inputs[call.i].open && (call.OnInput? && call.op.SetAec? ==> d.inputs[call.i].mayAec)
    ensures Reached(State(d, [Idle, FirstPlace(call)]))
  {
    hide Reached;
    Reach(State(d, [Idle, Idle]), Begin(1, call), State(d, [Idle, FirstPlace(call)]));
  }

  lemma PlayerBegins(d: Data)
    requires Reached(State(d, [Idle, Idle]))
    ensures Reached(State(d, [WFirst, Idle]))
  {
    hide Reached;
    Reach(State(d, [Idle, Idle]), Begin(0, Write), State(d, [WFirst, Idle]));
  }

  lemma InputGoesToStandby(e: Echo, r: nat)
    requires e.devRef == Some(r) && r !in e.released
    requires Reached(Pair(e, RUNNING.(ref := Some(r)), Some(0), Idle, Idle))
    ensures Reached(Pair(Put(e, Some(r)), STOPPED, None, Idle, Idle))
  {
    hide Put, Reached;
    var n := RUNNING.(ref := Some(r));
    RecorderBegins(Data(e, [n], Some(0), LISTED, false, false), OnInput(0, ToStandby));
    RecorderGoes(Data(e, [n], Some(0), LISTED, false, false), IWantInputs(0, ToStandby), Move(Data(e, [n], Some(0), LISTED, false, false), IWantIn(0, ToStandby)));
    RecorderGoes(Data(e, [n], Some(0), LISTED, false, false), IWantIn(0, ToStandby), Move(Data(e, [n], Some(0), LISTED, false, false), ISection(0, ToStandby)));
    RecorderGoes(Data(e, [n], Some(0), LISTED, false, false), ISection(0, ToStandby), Move(Data(Put(e, Some(r)), [STOPPED], None, [], false, false), Idle));
  }

  lemma InputStarts(e: Echo)
    requires !e.outStandby && e.devRef.None? && !e.misused && e.next !in e.released
    requires Reached(Pair(e, STOPPED, None, Idle, Idle))
    ensures Reached(Pair(Get(e, true), RUNNING.(ref := Some(e.next)), Some(0), Idle, Idle))
  {
    hide Reached;
    var g := Get(e, true);
    assert g.devRef == Some(e.next) && UseRef(g, g.devRef) == g;
    hide Get, UseRef;
    var n := STOPPED.(ref := Some(e.next));
    var m := RUNNING.(ref := Some(e.next));
    ReadAsksForStart(Data(e, [STOPPED], None, [], false, false), 0);
    RecorderGoes(Data(e, [STOPPED], None, [], false, false), RRecheck(0), Move(Data(g, [n], Some(0), LISTED, false, false), RStarted(0)));
    RecorderGoes(Data(g, [n], Some(0), LISTED, false, false), RStarted(0), Move(Data(g, [m], Some(0), LISTED, false, false), RUse(0)));
    RecorderGoes(Data(g, [m], Some(0), LISTED, false, false), RUse(0), Move(Data(g, [m], Some(0), LISTED, false, false), Idle));
  }

  /** References 1 to k - 1. */
  function Released(k: nat): (r: set<nat>)
    ensures forall n :: n in r ==> n < k
  {
    if k <= 1 then {} else Released(k - 1) + {k - 1}
  }

  /** The output took reference 0 over; since then the input went to standby and started again
      k times. */
  function Restarted(k: nat): Echo {
    Echo(Some(k), 2 * k + 1, Some(0), 1, false, k + 1, Released(k), false)
  }

  lemma RestartStep(k: nat)
    requires 2 * k < GENERATIONS
    requires Reached(Pair(Restarted(k), RUNNING.(ref := Some(k)), Some(0), Idle, Idle))
    ensures Reached(Pair(Restarted(k + 1), RUNNING.(ref := Some(k + 1)), Some(0), Idle, Idle))
  {
    hide Reached;
    InputGoesToStandby(Restarted(k), k);
    var p := Put(Restarted(k), Some(k));
    assert p.released == Released(k + 1);
    InputStarts(p);
    assert Get(p, true) == Restarted(k + 1);
  }

  lemma {:induction false} Restarts(k: nat)
    requires 2 * k <= GENERATIONS
    requires Reached(Pair(Restarted(0), RUNNING.(ref := Some(0)), Some(0), Idle, Idle))
    ensures Reached(Pair(Restarted(k), RUNNING.(ref := Some(k)), Some(0), Idle, Idle))
  {
    hide Reached, Restarted;
    if k > 0 {
      Restarts(k - 1);
      RestartStep(k - 1);
    }
  }

  lemma InputOpens()
    ensures Reached(Pair(START, STOPPED.(aec := false), None, Idle, Idle))
  {
    StartReachable(Next, Start(2));
    assert Reached(Start(2));
    hide Reached;
    Reach(Start(2), OpenInput(true, false), Pair(START, STOPPED.(aec := false), None, Idle, Idle));
  }

  /** The output starts writing at echo state e, with the recorder idle. */
  lemma OutputStarts(d: Data, e: Echo)
    requires d.echo.outStandby && e == StartOutput(d.echo)
    requires Reached(State(d, [Idle, Idle]))
    ensures Reached(State(LookAtActive(TouchListed(d)).(echo := e), [WCheck(None), Idle]))
  {
    hide Reached, StartOutput;
    PlayerBegins(d);
    PlayerGoes(d, WFirst, Move(d, WWantInputs));
    PlayerGoes(d, WWantInputs, Move(d, WWantOut));
    PlayerGoes(d, WWantOut, Move(d, WRecheck));
    PlayerGoes(d, WRecheck, Move(LookAtActive(TouchListed(d)).(echo := e), WCheck(None)));
  }

  lemma OutputEnds(d: Data)
    requires UseOutRef(d.echo) == d.echo && Reached(State(d, [WUse(None), Idle]))
    ensures Reached(State(d, [Idle, Idle]))
  {
    hide Reached, UseOutRef;
    PlayerGoes(d, WUse(None), Move(d, Idle));
  }

  /** The output's first write, before any echo reference exists, then the canceller. */
  lemma OutputRuns()
    ensures Reached(Pair(START.(outStandby := false), STOPPED, None, Idle, Idle))
  {
    InputOpens();
    hide Reached;
    var e := START.(outStandby := false);
    var d := Data(e, [STOPPED.(aec := false)], None, [], false, false);
    assert SameGeneration(e) && StartOutput(START) == e && UseOutRef(e) == e;
    OutputStarts(d.(echo := START), e);
    PlayerGoes(d, WCheck(None), Move(d, WUse(None)));
    OutputEnds(d);
    CancellerAdded(e);
  }

  lemma CancellerAdded(e: Echo)
    requires Reached(Pair(e, STOPPED.(aec := false), None, Idle, Idle))
    ensures Reached(Pair(e, STOPPED, None, Idle, Idle))
  {
    hide Reached;
    var n, op := STOPPED.(aec := false), SetAec(true);
    RecorderBegins(Data(e, [n], None, [], false, false), OnInput(0, op));
    RecorderGoes(Data(e, [n], None, [], false, false), IWantInputs(0, op), Move(Data(e, [n], None, [], false, false), IWantIn(0, op)));
    RecorderGoes(Data(e, [n], None, [], false, false), IWantIn(0, op), Move(Data(e, [n], None, [], false, false), ISection(0, op)));
    RecorderGoes(Data(e, [n], None, [], false, false), ISection(0, op), Move(Data(e, [STOPPED], None, [], false, false), Idle));
  }

  /** A running output takes over the device's reference. */
  lemma OutputSyncs(d: Data, e: Echo)
    requires !d.echo.outStandby && !SameGeneration(d.echo) && e == Sync(d.echo) && UseOutRef(e) == e
    requires Reached(State(d, [Idle, Idle]))
    ensures Reached(State(d.(echo := e), [Idle, Idle]))
  {
    hide Reached, Sync, SameGeneration, UseOutRef;
    PlayerBegins(d);
    PlayerGoes(d, WFirst, Move(d, WCheck(None)));
    PlayerGoes(d, WCheck(None), Move(d, WSync(None)));
    PlayerGoes(d, WSync(None), Move(d.(echo := e), WUse(None)));
    OutputEnds(d.(echo := e));
  }

  /** The second write takes the first echo reference over. */
  lemma OutputTakesOver()
    ensures Reached(Pair(Restarted(0), RUNNING.(ref := Some(0)), Some(0), Idle, Idle))
  {
    OutputRuns();
    InputStarts(START.(outStandby := false));
    hide Reached;
    var g := Get(START.(outStandby := false), true);
    assert g == Echo(Some(0), 1, None, 0, false, 1, {}, false);
    OutputSyncs(Data(g, [RUNNING.(ref := Some(0))], Some(0), LISTED, false, false), Restarted(0));
  }

  /** A run of the real protocol that loses an echo reference: one output and one input that is
      restarted 2^31 times between two writes. */
  lemma AReferenceCanBeLost()
    ensures exists s :: Reached(s) && !Conserved(s.data.echo)
  {
    var k := GENERATIONS / 2;
    OutputTakesOver();
    Restarts(k);
    InputGoesToStandby(Restarted(k), k);
    var e := Put(Restarted(k), Some(k));
    assert SameGeneration(Restarted(k));
    assert Leaked(e, k);
    assert !Conserved(Pair(e, STOPPED, None, Idle, Idle).data.echo);
  }

  // ---- runs that use a closed input

  const NO_RESAMPLER := ALL_WELL.(resamples := false)

  /** A stopped input is closed, whatever still points to it. */
  lemma InputCloses(d: Data, i: nat)
    requires i < |d.inputs| && d.inputs[i].open && d.inputs[i].standby && Reached(State(d, [Idle, Idle]))
    ensures var n := d.inputs[i].(open := false, aec := false, ref := None);
            Reached(State(d.(inputs := d.inputs[i := n]), [Idle, Idle]))
  {
    hide Reached;
    var n := d.inputs[i].(open := false, aec := false, ref := None);
    RecorderBegins(d, OnInput(i, Close));
    RecorderGoes(d, IWantInputs(i, Close), Move(d, IWantIn(i, Close)));
    RecorderGoes(d, IWantIn(i, Close), Move(d, ISection(i, Close)));
    RecorderGoes(d, ISection(i, Close), Move(d, CFree(i)));
    RecorderGoes(d, CFree(i), Move(d.(inputs := d.inputs[i := n]), Idle));
  }

  /** A read as far as the start of the stopped input i. */
  lemma ReadAsksForStart(d: Data, i: nat)
    requires i < |d.inputs| && d.inputs[i].open && d.inputs[i].standby && Reached(State(d, [Idle, Idle]))
    ensures Reached(State(d, [Idle, RRecheck(i)]))
  {
    hide Reached;
    RecorderBegins(d, Read(i));
    RecorderGoes(d, RFirst(i), Move(d, RWantInputs(i)));
    RecorderGoes(d, RWantInputs(i), Move(d, RWantIn(i)));
    RecorderGoes(d, RWantIn(i), Move(d, RRecheck(i)));
  }

  /** The recorder's input after a start that stopped half way. */
  lemma InputStartsHalf(n: Input)
    requires n == STOPPED.(aec := false)
    ensures Reached(Pair(START, n, Some(0), Idle, Idle))
  {
    InputOpens();
    hide Reached;
    var d, h := Data(START, [n], None, [], false, false), Data(START, [n], Some(0), LISTED, false, false);
    ReadAsksForStart(d, 0);
    RecorderGoes(d, RRecheck(0), Move(h, IWantInputs(0, ToStandby)), NO_RESAMPLER);
    RecorderGoes(h, IWantInputs(0, ToStandby), Move(h, IWantIn(0, ToStandby)));
    RecorderGoes(h, IWantIn(0, ToStandby), Move(h, ISection(0, ToStandby)));
    RecorderGoes(h, ISection(0, ToStandby), Move(h, Idle));
  }

  /** A half started input is closed, and the next write reads the source of the input that is
      gone. */
  lemma AClosedInputCanBeUsed()
    ensures exists s :: Reached(s) && s.data.usedClosed
  {
    var n := STOPPED.(aec := false);
    InputStartsHalf(n);
    var h := Data(START, [n], Some(0), LISTED, false, false);
    InputCloses(h, 0);
    hide Reached;
    OutputStarts(h.(inputs := h.inputs[0 := n.(open := false)]), StartOutput(START));
  }

  const HOTWORD := Input(true, false, false, None, true, true)

  /** A stopped hotword input runs after one read. */
  lemma HotwordRuns(d: Data, i: nat)
    requires i < |d.inputs| && d.inputs[i] == HOTWORD && Reached(State(d, [Idle, Idle]))
    ensures Reached(State(d.(active := Some(i), listed := d.listed + [Entry(i, true)],
                             inputs := d.inputs[i := HOTWORD.(standby := false)]), [Idle, Idle]))
  {
    hide Reached;
    var g := d.(active := Some(i), listed := d.listed + [Entry(i, true)]);
    var r := g.(inputs := d.inputs[i := HOTWORD.(standby := false)]);
    assert d.inputs[i := HOTWORD] == d.inputs && HOTWORD.(ref := HOTWORD.ref) == HOTWORD;
    assert StartInput(d, i, ALL_WELL) == g && !StartsHalf(d, i, ALL_WELL);
    ReadAsksForStart(d, i);
    hide StartInput, StartsHalf;
    RecorderGoes(d, RRecheck(i), Move(g, RStarted(i)));
    RecorderGoes(g, RStarted(i), Move(r, RUse(i)));
    RecorderGoes(r, RUse(i), Move(r, Idle));
  }

  lemma TwoHotwordInputsRun()
    ensures var on := HOTWORD.(standby := false);
            Reached(State(Data(START, [on, on], Some(1), [Entry(0, true), Entry(1, true)], false, false), [Idle, Idle]))
  {
    StartReachable(Next, Start(2));
    assert Reached(Start(2));
    hide Reached;
    var one, two := Data(START, [HOTWORD], None, [], false, false), Data(START, [HOTWORD, HOTWORD], None, [], false, false);
    Reach(Start(2), OpenInput(false, true), State(one, [Idle, Idle]));
    assert [HOTWORD] + [HOTWORD] == [HOTWORD, HOTWORD];
    Reach(State(one, [Idle, Idle]), OpenInput(false, true), State(two, [Idle, Idle]));
    HotwordRuns(two, 0);
    var on := HOTWORD.(standby := false);
    var first := Data(START, [on, HOTWORD], Some(0), [Entry(0, true)], false, false);
    assert two.inputs[0 := on] == first.inputs && two.listed + [Entry(0, true)] == first.listed;
    HotwordRuns(first, 1);
    assert first.inputs[1 := on] == [on, on] && first.listed + [Entry(1, true)] == [Entry(0, true), Entry(1, true)];
  }

  /** The second of two hotword inputs stops, which takes the first one's entry off the list. */
  lemma SecondHotwordInputStops()
    ensures var on := HOTWORD.(standby := false);
            Reached(State(Data(START, [on, HOTWORD], None, [Entry(1, true)], false, false), [Idle, Idle]))
  {
    TwoHotwordInputsRun();
    hide Reached;
    var on := HOTWORD.(standby := false);
    var d := Data(START, [on, on], Some(1), [Entry(0, true), Entry(1, true)], false, false);
    var r := Data(START, [on, HOTWORD], None, [Entry(1, true)], false, false);
    assert StandbyInput(d, 1) == r;
    RecorderBegins(d, OnInput(1, ToStandby));
    hide StandbyInput;
    RecorderGoes(d, IWantInputs(1, ToStandby), Move(d, IWantIn(1, ToStandby)));
    RecorderGoes(d, IWantIn(1, ToStandby), Move(d, ISection(1, ToStandby)));
    RecorderGoes(d, ISection(1, ToStandby), Move(r, Idle));
  }

  /** No start fails: the second of two hotword inputs stops and is closed.  Its own entry stays,
      and the next write reads through it. */
  lemma AClosedHotwordInputCanBeUsed()
    ensures exists s :: Reached(s) && s.data.usedClosed
  {
    SecondHotwordInputStops();
    hide Reached;
    var r := Data(START, [HOTWORD.(standby := false), HOTWORD], None, [Entry(1, true)], false, false);
    InputCloses(r, 1);
    OutputStarts(r.(inputs := r.inputs[1 := HOTWORD.(open := false)]), StartOutput(START));
  }
}

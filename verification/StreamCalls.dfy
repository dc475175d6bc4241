/** What a call of the stream protocol does when no other thread is inside one, from its beginning
    to its end, and what a thread that captured an input does to it in any run. */
module StreamCalls {
  import opened Wrappers
  import opened EchoReference
  import opened StreamProtocol
  import opened Runs

  // ---- an input is captured for a forced standby, and put there

  /** In any run, the step that takes the output out of standby captures the active input, if the
      caller is to silence it, and nothing else. */
  lemma StartCapturesActive(s: State, step: Step)
    requires ProtocolInv(s) && Next(s, step).Some?
    requires s.data.echo.outStandby && !Next(s, step).value.data.echo.outStandby
    ensures step.Go? && s.threads[step.t] == WRecheck && step.env.opens
    ensures Captured(Next(s, step).value.threads[step.t]) == if step.env.matches then s.data.active else None
  {
    if step.Go? {
      var pc := s.threads[step.t];
      assert PlaceOk(s.data, pc);
      OutputStays(s, step.t, step.env);
      hide ProtocolInv, MayEnter, LookAtActive, TouchListed;
    }
  }

  /** Only the thread that holds the output's lock changes its standby. */
  lemma OutputStays(s: State, t: nat, env: Env)
    requires ProtocolInv(s) && Enabled(s, Go(t, env))
    ensures !HoldsOut(s.threads[t]) ==> Take(s, Go(t, env)).data.echo.outStandby == s.data.echo.outStandby
    ensures HoldsOut(s.threads[t]) ==> Advance(s.data, s.threads[t], env) == OutputStep(s.data, s.threads[t], env)
  {
    GoKeepsInv(s, t, env);
    hide ProtocolInv, OutputStep;
  }

  /** A write that finds the output in standby and whose device opens always starts it. */
  lemma WriteStartsOutput(s: State, t: nat, env: Env)
    requires ProtocolInv(s) && Enabled(s, Go(t, env)) && s.threads[t] == WRecheck
    ensures Take(s, Go(t, env)).data.echo.outStandby <==> s.data.echo.outStandby && !env.opens
  {
    hide ProtocolInv;
  }

  /** Re-routing of a running output captures the active input in the same way. */
  lemma ReroutingCapturesActive(s: State, t: nat, env: Env)
    requires ProtocolInv(s) && Enabled(s, Go(t, env)) && s.threads[t] == PSection
    ensures Captured(Take(s, Go(t, env)).threads[t]) ==
              if env.looks && env.matches && !s.data.echo.outStandby then s.data.active else None
    ensures env.toStandby ==> Take(s, Go(t, env)).data.echo.outStandby
    ensures !env.toStandby ==> Take(s, Go(t, env)).data.echo == s.data.echo
  {
    hide ProtocolInv;
  }

  /** Thread t ends its call with input i in standby, and no longer active unless a failed start
      had left it active in standby. */
  ghost predicate PutsInStandby(t: nat, i: nat, s: State, step: Step) {
    && step.Go? && step.t == t && Next(s, step).Some? && i < |s.data.inputs|
    && var r := Next(s, step).value;
       && s.data.active == Some(i) && t < |r.threads| && r.threads[t] == Idle
       && |r.data.inputs| == |s.data.inputs| && r.data.inputs[i].standby && !r.data.fatal
       && r.data.active == if s.data.inputs[i].standby then Some(i) else None
  }

  lemma CapturedStep(s: State, step: Step, t: nat, i: nat)
    requires ProtocolInv(s) && Next(s, step).Some? && t < |s.threads| && Captured(s.threads[t]) == Some(i)
    ensures var r := Next(s, step).value;
            && |r.threads| == |s.threads|
            && (Captured(r.threads[t]) != Some(i) ==> PutsInStandby(t, i, s, step))
  {
    assert PlaceOk(s.data, s.threads[t]);
    if step.Go? && step.t == t {
      GoKeepsInv(s, t, step.env);
      if s.threads[t].Forced? {
        ForcedEnds(s.data, i);
      } else {
        CaptureGoesOn(s.data, s.threads[t], step.env);
      }
    }
  }

  lemma ForcedEnds(d: Data, i: nat)
    requires DataOk(d) && i < |d.inputs| && d.active == Some(i)
    ensures var m := ForceStep(d, Forced(i));
            && m.next == Idle && |m.data.inputs| == |d.inputs| && m.data.inputs[i].standby && !m.data.fatal
            && m.data.active == if d.inputs[i].standby then Some(i) else None
  {
    hide Put, UseRef, Unlist;
  }

  lemma CaptureGoesOn(d: Data, pc: Pc, env: Env)
    requires InRange(d, pc) && Captured(pc).Some? && !pc.Forced?
    ensures Captured(Advance(d, pc, env).next) == Captured(pc)
  {
    hide StandbyIfRunning, UseOutRef, Sync, SameGeneration;
  }

  /** In every run a thread that has captured an input comes to the end of its call only by putting
      it in standby. */
  lemma {:induction false} CapturedIsPutInStandby(s: State, steps: seq<Step>, t: nat, i: nat)
    requires ProtocolInv(s) && t < |s.threads| && Captured(s.threads[t]) == Some(i) && Exec(Next, s, steps).Some?
    ensures var r := Exec(Next, s, steps).value;
            && |r.threads| == |s.threads|
            && (Captured(r.threads[t]) != Some(i) ==> Ever(Next, (q, step) => PutsInStandby(t, i, q, step), s, steps))
    decreases |steps|
  {
    if steps != [] {
      var r := Next(s, steps[0]).value;
      StepKeepsInv(s, steps[0]);
      CapturedStep(s, steps[0], t, i);
      hide PutsInStandby;
      if Captured(r.threads[t]) == Some(i) {
        CapturedIsPutInStandby(r, steps[1..], t, i);
      } else {
        ThreadsStay(r, steps[1..]);
      }
    }
  }

  lemma {:induction false} ThreadsStay(s: State, steps: seq<Step>)
    requires Exec(Next, s, steps).Some?
    ensures |Exec(Next, s, steps).value.threads| == |s.threads|
    decreases |steps|
  {
    if steps != [] { ThreadsStay(Next(s, steps[0]).value, steps[1..]); }
  }

  // ---- which inputs a step reads

  /** The entry is the first of the capture entries, or the first that is not hotword capture. */
  predicate FirstListed(es: seq<Entry>, i: nat) {
    es != [] && es[0].stream == i
  }

  predicate FirstRecorder(es: seq<Entry>, i: nat) {
    exists k :: 0 <= k < |es| && !es[k].hotword && es[k].stream == i && forall j :: 0 <= j < k ==> es[j].hotword
  }

  /** Selecting the devices of an input that is not for hotword capture reads both. */
  predicate SelectionReads(es: seq<Entry>, hotword: bool, i: nat) {
    !hotword && (exists k :: 0 <= k < |es| && !es[k].hotword) && (FirstListed(es, i) || FirstRecorder(es, i))
  }

  /** The step at this place reads input i: it takes the input's lock or is about to free it, reads
      the source of the active input, or selects devices. */
  predicate ReadsInput(d: Data, pc: Pc, env: Env, i: nat)
    requires InRange(d, pc)
  {
    match pc
    case Force(j) => i == j
    case RWantIn(j) => i == j
    case RUse(j) => i == j
    case IWantIn(j, _) => i == j
    case CFree(j) => i == j
    case WRecheck => d.echo.outStandby && (FirstListed(d.listed, i) || (env.opens && d.active == Some(i)))
    case PSection =>
      !d.echo.outStandby && ((env.looks && d.active == Some(i)) || (env.selects && !env.toStandby && FirstListed(d.listed, i)))
    case Rotating => env.selects && FirstListed(d.listed, i)
    case OtherHolder => env.looks && d.active == Some(i)
    case RRecheck(j) =>
      var n := d.inputs[j];
      n.standby && env.profile && SelectionReads(d.listed + [Entry(j, n.hotword)], n.hotword, i)
    case ISection(j, op) =>
      !d.inputs[j].standby && (op.Reselect? || op.SetAec?) && SelectionReads(d.listed, d.inputs[j].hotword, i)
    case _ => false
  }

  predicate IsClosed(d: Data, i: nat) {
    i >= |d.inputs| || !d.inputs[i].open
  }

  lemma SelectionTouches(d: Data, hotword: bool)
    ensures TouchSelected(d, hotword).usedClosed <==> d.usedClosed || exists i :: SelectionReads(d.listed, hotword, i) && IsClosed(d, i)
  {
    var k := FirstOf(d.listed, false);
    if !hotword && k < |d.listed| {
      var first, recorder := d.listed[0].stream, d.listed[k].stream;
      assert FirstListed(d.listed, first) && FirstRecorder(d.listed, recorder);
      assert SelectionReads(d.listed, hotword, first) && SelectionReads(d.listed, hotword, recorder);
      forall i | SelectionReads(d.listed, hotword, i) ensures i == first || i == recorder {
        if FirstRecorder(d.listed, i) {
          var j :| 0 <= j < |d.listed| && !d.listed[j].hotword && d.listed[j].stream == i && forall l :: 0 <= l < j ==> d.listed[l].hotword;
          assert j == k;
        }
      }
    }
  }

  /** A step of any thread touches a closed input exactly if it reads one. */
  lemma StepReads(d: Data, pc: Pc, env: Env)
    requires InRange(d, pc)
    ensures Advance(d, pc, env).data.usedClosed <==> d.usedClosed || exists i :: ReadsInput(d, pc, env, i) && IsClosed(d, i)
  {
    if Reading(pc) {
      ReadReads(d, pc, env);
    } else if Operating(pc) {
      OpReads(d, pc, env);
    } else if pc.Force? || pc.Forced? {
      if pc.Force? { assert ReadsInput(d, pc, env, pc.i); } else { StandbyEffectOf(d, pc); }
    } else {
      OutputReads(d, pc, env);
    }
  }

  lemma StandbyEffectOf(d: Data, pc: Pc)
    requires InRange(d, pc) && pc.Forced?
    ensures ForceStep(d, pc).data.usedClosed == d.usedClosed
  {
    StandbyEffect(d.(fatal := d.fatal || d.active != Some(pc.i)), pc.i);
  }

  lemma OutputReads(d: Data, pc: Pc, env: Env)
    requires InRange(d, pc) && CallOn(pc).None? && !pc.Force? && !pc.Forced?
    ensures OutputStep(d, pc, env).data.usedClosed <==> d.usedClosed || exists i :: ReadsInput(d, pc, env, i) && IsClosed(d, i)
  {
    if d.listed != [] { assert FirstListed(d.listed, d.listed[0].stream); }
    hide StandbyIfRunning, StartOutput, Sync, UseOutRef, SameGeneration;
    if pc.WRecheck? || pc.PSection? || pc.Rotating? || pc.OtherHolder? {
      if d.listed != [] && IsClosed(d, d.listed[0].stream) && ReadsInput(d, pc, env, d.listed[0].stream) {}
      if d.active.Some? && IsClosed(d, d.active.value) && ReadsInput(d, pc, env, d.active.value) {}
    }
  }

  lemma ReadReads(d: Data, pc: Pc, env: Env)
    requires InRange(d, pc) && Reading(pc)
    ensures ReadStep(d, pc, env).data.usedClosed <==> d.usedClosed || exists i :: ReadsInput(d, pc, env, i) && IsClosed(d, i)
  {
    hide UseRef, Get, ListedAfterStart, TouchSelected, SelectionReads;
    var i := pc.i;
    if pc.RRecheck? {
      var n := d.inputs[i];
      var s := d.(listed := d.listed + [Entry(i, n.hotword)]);
      SelectionTouches(s, n.hotword);
      assert forall j :: IsClosed(s, j) <==> IsClosed(d, j);
    } else if pc.RWantIn? || pc.RUse? {
      assert ReadsInput(d, pc, env, i);
    }
  }

  lemma OpReads(d: Data, pc: Pc, env: Env)
    requires InRange(d, pc) && Operating(pc)
    ensures OpStep(d, pc).data.usedClosed <==> d.usedClosed || exists i :: ReadsInput(d, pc, env, i) && IsClosed(d, i)
  {
    if pc.ISection? {
      var i, op := pc.i, pc.op;
      SectionIs(d, pc);
      StandbyEffect(BeforeStandby(d, i, op), i);
      SelectionReadsOf(d, i, op);
      hide OpStep, BeforeStandby, StandbyInput, SelectionReads;
    } else if pc.IWantIn? || pc.CFree? {
      assert ReadsInput(d, pc, env, pc.i);
    }
  }

  lemma SelectionReadsOf(d: Data, i: nat, op: InputOp)
    requires i < |d.inputs|
    ensures var selects := !d.inputs[i].standby && (op.Reselect? || op.SetAec?);
            BeforeStandby(d, i, op).usedClosed <==>
              d.usedClosed || exists j :: selects && SelectionReads(d.listed, d.inputs[i].hotword, j) && IsClosed(d, j)
  {
    var noted := Noted(d, i, op);
    SelectionTouches(noted, d.inputs[i].hotword);
    assert forall j :: IsClosed(noted, j) <==> IsClosed(d, j);
    hide TouchSelected, SelectionReads, IsClosed;
  }

  // ---- a call that runs alone

  /** From place pc on data d a thread comes to the end of its call, on data r, in n steps. */
  ghost predicate EndsIn(d: Data, pc: Pc, env: Env, r: Data, n: nat)
    decreases n
  {
    if n == 0 then pc.Idle? && r == d
    else
      && !pc.Idle? && InRange(d, pc)
      && EndsIn(Advance(d, pc, env).data, Advance(d, pc, env).next, env, r, n - 1)
  }

  ghost predicate Ends(d: Data, pc: Pc, env: Env, r: Data) {
    exists n: nat :: EndsIn(d, pc, env, r, n)
  }

  lemma Ended(d: Data, env: Env)
    ensures Ends(d, Idle, env, d)
  {
    assert EndsIn(d, Idle, env, d, 0);
  }

  lemma Before(d: Data, pc: Pc, env: Env, r: Data)
    requires !pc.Idle? && InRange(d, pc) && Ends(Advance(d, pc, env).data, Advance(d, pc, env).next, env, r)
    ensures Ends(d, pc, env, r)
  {
    var n: nat :| EndsIn(Advance(d, pc, env).data, Advance(d, pc, env).next, env, r, n);
    assert EndsIn(d, pc, env, r, n + 1);
  }

  ghost predicate Alone(s: State, t: nat) {
    t < |s.threads| && forall u :: 0 <= u < |s.threads| && u != t ==> s.threads[u] == Idle
  }

  predicate AllGo(steps: seq<Step>, t: nat, env: Env) {
    forall k :: 0 <= k < |steps| ==> steps[k] == Go(t, env)
  }

  lemma AloneGoes(s: State, t: nat, env: Env) returns (r: State)
    requires Alone(s, t) && s.threads[t] != Idle && InRange(s.data, s.threads[t])
    ensures Next(s, Go(t, env)) == Some(r) && Alone(r, t)
    ensures var m := Advance(s.data, s.threads[t], env); r == State(m.data, s.threads[t := m.next])
  {
    hide Advance;
    assert MayEnter(s, t, Advance(s.data, s.threads[t], env).next);
    r := Take(s, Go(t, env));
  }

  /** With the other threads outside any call, each of these steps is enabled. */
  lemma {:induction false} EndsRun(s: State, t: nat, env: Env, r: Data, n: nat) returns (steps: seq<Step>)
    requires Alone(s, t) && EndsIn(s.data, s.threads[t], env, r, n)
    ensures AllGo(steps, t, env) && Exec(Next, s, steps) == Some(State(r, s.threads[t := Idle]))
    decreases n
  {
    if n == 0 {
      assert s.threads[t := Idle] == s.threads;
      steps := [];
    } else {
      var after := AloneGoes(s, t, env);
      var rest := EndsRun(after, t, env, r, n - 1);
      steps := [Go(t, env)] + rest;
      hide Enabled, Take, Advance;
      assert steps[1..] == rest && after.threads[t := Idle] == s.threads[t := Idle];
    }
  }

  /** The call made by thread t alone leaves the data r. */
  ghost predicate CallGives(s: State, t: nat, call: Call, env: Env, r: Data) {
    exists steps :: AllGo(steps, t, env) && Exec(Next, s, [Begin(t, call)] + steps) == Some(s.(data := r))
  }

  lemma CallRuns(s: State, t: nat, call: Call, env: Env, r: Data)
    requires Alone(s, t) && s.threads[t] == Idle && MayCall(s, call) && Ends(s.data, FirstPlace(call), env, r)
    ensures CallGives(s, t, call, env, r)
  {
    var n: nat :| EndsIn(s.data, FirstPlace(call), env, r, n);
    assert MayEnter(s, t, FirstPlace(call));
    var after := Take(s, Begin(t, call));
    var steps := EndsRun(after, t, env, r, n);
    assert after.threads[t := Idle] == s.threads;
    assert ([Begin(t, call)] + steps)[1..] == steps;
  }

  // ---- writing

  /** Input i is put in standby: it gives up its echo reference and its use-case entry, and no input
      is active; one that is in standby stays as it is. */
  ghost predicate InputOff(d: Data, r: Data, i: nat) {
    i < |d.inputs| &&
    if d.inputs[i].standby then r.inputs == d.inputs && r.active == d.active && r.listed == d.listed
    else
      && |r.inputs| == |d.inputs| && r.inputs[i] == d.inputs[i].(standby := true, ref := None)
      && (forall k :: 0 <= k < |d.inputs| && k != i ==> r.inputs[k] == d.inputs[k])
      && r.active == None && Removed(d.listed, r.listed, d.inputs[i].hotword)
  }

  /** The first entry of the use case is gone, if there was one. */
  predicate Removed(es: seq<Entry>, r: seq<Entry>, hotword: bool) {
    if exists k :: 0 <= k < |es| && es[k].hotword == hotword
    then exists k :: 0 <= k < |es| && es[k].hotword == hotword && (forall j :: 0 <= j < k ==> es[j].hotword != hotword)
                     && r == es[..k] + es[k + 1..]
    else r == es
  }

  predicate InputsSame(d: Data, r: Data) {
    r.inputs == d.inputs && r.active == d.active && r.listed == d.listed
  }

  /** A write, and what it captured. */
  ghost predicate Wrote(d: Data, r: Data, env: Env) {
    var starts := d.echo.outStandby && env.opens;
    && (r.echo.outStandby <==> env.fails || (d.echo.outStandby && !env.opens))
    && (starts && !env.fails ==> r.echo.outRef == d.echo.devRef)
    && (if starts && env.matches && d.active.Some? then InputOff(d, r, d.active.value) else InputsSame(d, r))
  }

  lemma UnlistRemoves(es: seq<Entry>, hotword: bool)
    ensures Removed(es, Unlist(es, hotword), hotword)
  {
  }

  lemma StandbyTurnsOff(d: Data, i: nat)
    requires i < |d.inputs|
    ensures InputOff(d, StandbyInput(d, i), i)
    ensures var e, r := d.echo, StandbyInput(d, i).echo; r.outStandby == e.outStandby && r.outRef == e.outRef
  {
    UnlistRemoves(d.listed, d.inputs[i].hotword);
    hide Unlist, Removed;
  }

  /** The end of a write: the forced standby, if an input was captured. */
  lemma ForceEnds(d: Data, cap: Option<nat>, env: Env) returns (r: Data)
    requires cap.Some? ==> cap.value < |d.inputs|
    ensures Ends(d, ForceOrIdle(cap), env, r)
    ensures if cap.Some? then InputOff(d, r, cap.value) else InputsSame(d, r)
    ensures r.echo.outStandby == d.echo.outStandby && r.echo.outRef == d.echo.outRef
  {
    if cap.None? {
      r := d;
      Ended(d, env);
    } else {
      var i := cap.value;
      var touched := Touch(d, i);
      var noted := touched.(fatal := touched.fatal || touched.active != Some(i));
      r := StandbyInput(noted, i);
      StandbyTurnsOff(noted, i);
      hide StandbyInput;
      Ended(r, env);
      Before(touched, Forced(i), env, r);
      Before(d, Force(i), env, r);
    }
  }

  lemma ErrorEnds(d: Data, cap: Option<nat>, env: Env) returns (r: Data)
    requires cap.Some? ==> cap.value < |d.inputs|
    ensures Ends(d, WErrWant(cap), env, r) && r.echo.outStandby
    ensures if cap.Some? then InputOff(d, r, cap.value) else InputsSame(d, r)
  {
    var off := d.(echo := StandbyIfRunning(d.echo));
    assert off.echo.outStandby;
    hide StandbyIfRunning;
    r := ForceEnds(off, cap, env);
    hide InputOff;
    assert cap.Some? ==> InputOff(d, r, cap.value) by { SameInputsOff(off, d, r, cap); }
    Before(d, WErrStandby(cap), env, r);
    Before(d, WErrWant(cap), env, r);
  }

  lemma SameInputsOff(d: Data, e: Data, r: Data, cap: Option<nat>)
    requires InputsSame(d, e)
    ensures cap.Some? ==> (InputOff(d, r, cap.value) <==> InputOff(e, r, cap.value))
  {
  }

  /** The write itself, of a running output. */
  lemma UseEnds(d: Data, cap: Option<nat>, env: Env) returns (r: Data)
    requires (cap.Some? ==> cap.value < |d.inputs|) && !d.echo.outStandby
    ensures Ends(d, WUse(cap), env, r) && (r.echo.outStandby <==> env.fails)
    ensures !env.fails ==> r.echo.outRef == d.echo.outRef
    ensures if cap.Some? then InputOff(d, r, cap.value) else InputsSame(d, r)
  {
    var used := d.(echo := UseOutRef(d.echo));
    if env.fails { r := ErrorEnds(used, cap, env); } else { r := ForceEnds(used, cap, env); }
    hide InputOff, ForceOrIdle;
    SameInputsOff(used, d, r, cap);
    Before(d, WUse(cap), env, r);
  }

  lemma CheckEnds(d: Data, cap: Option<nat>, env: Env) returns (r: Data)
    requires (cap.Some? ==> cap.value < |d.inputs|) && !d.echo.outStandby
    ensures Ends(d, WCheck(cap), env, r) && (r.echo.outStandby <==> env.fails)
    ensures !env.fails ==> r.echo.outRef == if SameGeneration(d.echo) then d.echo.outRef else d.echo.devRef
    ensures if cap.Some? then InputOff(d, r, cap.value) else InputsSame(d, r)
  {
    hide InputOff, SameGeneration, UseOutRef;
    if SameGeneration(d.echo) {
      r := UseEnds(d, cap, env);
    } else {
      var synced := d.(echo := Sync(d.echo));
      r := UseEnds(synced, cap, env);
      SameInputsOff(synced, d, r, cap);
      Before(d, WSync(cap), env, r);
    }
    Before(d, WCheck(cap), env, r);
  }

  lemma RecheckEnds(d: Data, env: Env) returns (r: Data)
    requires (d.active.Some? ==> d.active.value < |d.inputs|) && d.echo.outStandby
    ensures Ends(d, WRecheck, env, r) && Wrote(d, r, env)
  {
    if env.opens {
      var cap := if env.matches then d.active else None;
      var started := LookAtActive(TouchListed(d)).(echo := StartOutput(d.echo));
      assert InputsSame(d, started) && SameGeneration(started.echo) && started.echo.outRef == d.echo.devRef;
      hide InputOff, SameGeneration, StartOutput, LookAtActive, TouchListed;
      r := CheckEnds(started, cap, env);
      SameInputsOff(started, d, r, cap);
    } else {
      hide InputOff;
      r := ErrorEnds(TouchListed(d), None, env);
    }
    Before(d, WRecheck, env, r);
  }

  lemma WriteEnds(d: Data, env: Env) returns (r: Data)
    requires d.active.Some? ==> d.active.value < |d.inputs|
    ensures Ends(d, WFirst, env, r) && Wrote(d, r, env)
    ensures !d.echo.outStandby && !env.fails ==> r.echo.outRef == if SameGeneration(d.echo) then d.echo.outRef else d.echo.devRef
  {
    if d.echo.outStandby {
      r := RecheckEnds(d, env);
      hide Wrote;
      Before(d, WWantOut, env, r);
      Before(d, WWantInputs, env, r);
    } else {
      r := CheckEnds(d, None, env);
    }
    hide InputOff, Wrote;
    Before(d, WFirst, env, r);
  }

  /** What a write does to a lone output, whether it runs or is in standby, and to the input it
      silences. */
  lemma AWriteAlone(s: State, t: nat, env: Env) returns (r: Data)
    requires ProtocolInv(s) && Alone(s, t) && s.threads[t] == Idle
    ensures CallGives(s, t, Write, env, r) && Wrote(s.data, r, env)
    ensures !s.data.echo.outStandby && s.data.echo.devGen < s.data.echo.outGen + GENERATIONS && !env.fails ==>
              r.echo.outRef == s.data.echo.devRef
  {
    assert Inv(s.data.echo) && (s.data.active.Some? ==> s.data.active.value < |s.data.inputs|);
    hide ProtocolInv, Wrote;
    r := WriteEnds(s.data, env);
    CallRuns(s, t, Write, env, r);
  }

  /** out_standby. */
  lemma AStandbyAlone(s: State, t: nat, env: Env) returns (r: Data)
    requires ProtocolInv(s) && Alone(s, t) && s.threads[t] == Idle
    ensures CallGives(s, t, StandbyOut, env, r) && r.echo.outStandby && r.echo.outRef == None && InputsSame(s.data, r)
  {
    assert Inv(s.data.echo);
    hide ProtocolInv;
    r := s.data.(echo := StandbyIfRunning(s.data.echo));
    Ended(r, env);
    Before(s.data, OStandby, env, r);
    CallRuns(s, t, StandbyOut, env, r);
  }

  /** What re-routing does to a lone output: standby if the devices no longer serve; and it forces
      the input that a running output finds active into standby. */
  ghost predicate Rerouted(d: Data, r: Data, env: Env) {
    && (r.echo.outStandby <==> d.echo.outStandby || env.toStandby)
    && if env.looks && env.matches && !d.echo.outStandby && d.active.Some? then InputOff(d, r, d.active.value) else InputsSame(d, r)
  }

  lemma ReroutingEnds(d: Data, env: Env) returns (r: Data)
    requires d.active.Some? ==> d.active.value < |d.inputs|
    ensures Ends(d, PWantOut, env, r) && Rerouted(d, r, env)
  {
    var m := OutputStep(d, PSection, env);
    var cap := if env.looks && env.matches && !d.echo.outStandby then d.active else None;
    SectionCaptures(d, env);
    hide InputOff, OutputStep;
    r := ForceEnds(m.data, cap, env);
    SameInputsOff(m.data, d, r, cap);
    hide ForceOrIdle;
    Before(d, PSection, env, r);
    WantsOut(d, env);
    Before(d, PWantOut, env, r);
  }

  lemma WantsOut(d: Data, env: Env)
    ensures OutputStep(d, PWantOut, env) == Move(d, PSection)
  {
  }

  lemma SectionCaptures(d: Data, env: Env)
    ensures var m := OutputStep(d, PSection, env);
            && InputsSame(d, m.data)
            && m.next == ForceOrIdle(if env.looks && env.matches && !d.echo.outStandby then d.active else None)
            && (m.data.echo.outStandby <==> d.echo.outStandby || env.toStandby)
  {
  }

  /** out_set_parameters. */
  lemma AReroutingAlone(s: State, t: nat, env: Env) returns (r: Data)
    requires ProtocolInv(s) && Alone(s, t) && s.threads[t] == Idle
    ensures CallGives(s, t, SetParameters, env, r) && Rerouted(s.data, r, env)
  {
    assert s.data.active.Some? ==> s.data.active.value < |s.data.inputs|;
    hide ProtocolInv, Rerouted;
    r := ReroutingEnds(s.data, env);
    CallRuns(s, t, SetParameters, env, r);
  }

  // ---- the calls on an input

  /** What a client's call leaves of its input, of active_input and of the use-case list. */
  ghost predicate Operated(d: Data, r: Data, i: nat, op: InputOp) {
    i < |d.inputs| == |r.inputs| &&
    var n, off := d.inputs[i], !d.inputs[i].standby && !op.Reselect?;
    && (match op
        case Reselect => r.inputs[i] == n
        case ToStandby => r.inputs[i] == (if off then n.(standby := true, ref := None) else n)
        case SetAec(enable) => r.inputs[i] == (if off then n.(aec := enable, standby := true, ref := None) else n.(aec := enable))
        case Close => r.inputs[i] == n.(standby := true, ref := None, aec := false, open := false))
    && (forall k :: 0 <= k < |d.inputs| && k != i ==> r.inputs[k] == d.inputs[k])
    && r.active == (if off then None else d.active)
    && (if off then Removed(d.listed, r.listed, n.hotword) else r.listed == d.listed)
    && (if off then EchoGivenUp(d.echo, r.echo, n.ref) else r.echo == d.echo)
  }

  ghost predicate EchoGivenUp(e: Echo, r: Echo, ref: Option<nat>) {
    && r.outStandby == e.outStandby && r.outRef == e.outRef
    && (ref.Some? && ref == e.devRef ==> r.devRef == None)
    && (ref.None? ==> r == e)
    && (ref.Some? && ref.value in e.released ==> r.misused)
  }

  lemma PutGivesUp(e: Echo, ref: Option<nat>)
    ensures EchoGivenUp(e, if ref.Some? then Put(UseRef(e, ref), ref) else e, ref)
  {
  }

  lemma StandbyGives(d: Data, i: nat)
    requires i < |d.inputs|
    ensures var r, n := StandbyInput(d, i), d.inputs[i];
            if n.standby then r == d
            else
              && r.inputs == d.inputs[i := n.(standby := true, ref := None)] && r.active == None
              && Removed(d.listed, r.listed, n.hotword) && EchoGivenUp(d.echo, r.echo, n.ref)
  {
    PutGivesUp(d.echo, d.inputs[i].ref);
    UnlistRemoves(d.listed, d.inputs[i].hotword);
    hide Put, UseRef, Unlist, Removed, EchoGivenUp;
  }

  lemma BeforeStandbyGives(d: Data, i: nat, op: InputOp)
    requires i < |d.inputs|
    ensures var s, n := BeforeStandby(d, i, op), d.inputs[i];
            && s.inputs == d.inputs[i := if op.SetAec? then n.(aec := op.enable) else n]
            && s.active == d.active && s.listed == d.listed && s.echo == d.echo
  {
    assert d.inputs == d.inputs[i := d.inputs[i]];
  }

  lemma SectionEnds(d: Data, i: nat, op: InputOp)
    requires i < |d.inputs| && !op.Close?
    ensures Operated(d, OpStep(d, ISection(i, op)).data, i, op)
  {
    BeforeStandbyGives(d, i, op);
    StandbyGives(BeforeStandby(d, i, op), i);
    hide BeforeStandby, StandbyInput, Removed;
  }

  lemma CloseEnds(d: Data, i: nat)
    requires i < |d.inputs|
    ensures var m := OpStep(d, ISection(i, Close)).data;
            |m.inputs| == |d.inputs| && Operated(d, OpStep(m, CFree(i)).data, i, Close)
  {
    StandbyGives(d, i);
    hide BeforeStandby, StandbyInput, Removed;
    assert OpStep(d, ISection(i, Close)).data == StandbyInput(d, i) by { BeforeClose(d, i); }
  }

  lemma BeforeClose(d: Data, i: nat)
    requires i < |d.inputs|
    ensures BeforeStandby(d, i, Close) == d
  {
  }

  lemma SectionRuns(d: Data, i: nat, op: InputOp, env: Env) returns (r: Data)
    requires i < |d.inputs|
    ensures Ends(d, ISection(i, op), env, r) && Operated(d, r, i, op)
  {
    var m := OpStep(d, ISection(i, op));
    if op.Close? {
      CloseEnds(d, i);
      r := OpStep(m.data, CFree(i)).data;
      hide Operated, BeforeStandby, StandbyInput;
      Ended(r, env);
      Before(m.data, CFree(i), env, r);
    } else {
      SectionEnds(d, i, op);
      r := m.data;
      hide Operated, BeforeStandby, StandbyInput;
      Ended(r, env);
    }
    Before(d, ISection(i, op), env, r);
  }

  lemma OpEnds(d: Data, i: nat, op: InputOp, env: Env) returns (r: Data)
    requires i < |d.inputs|
    ensures Ends(d, IWantInputs(i, op), env, r) && Operated(d, r, i, op)
  {
    var touched := Touch(d, i);
    r := SectionRuns(touched, i, op, env);
    hide Operated;
    Before(d, IWantIn(i, op), env, r);
    Before(d, IWantInputs(i, op), env, r);
    SameOperated(touched, d, r, i, op);
  }

  lemma SameOperated(d: Data, e: Data, r: Data, i: nat, op: InputOp)
    requires InputsSame(d, e) && d.echo == e.echo
    ensures Operated(d, r, i, op) <==> Operated(e, r, i, op)
  {
  }

  lemma AnInputCallAlone(s: State, t: nat, i: nat, op: InputOp, env: Env) returns (r: Data)
    requires ProtocolInv(s) && Alone(s, t) && s.threads[t] == Idle && MayCall(s, OnInput(i, op))
    ensures CallGives(s, t, OnInput(i, op), env, r) && Operated(s.data, r, i, op)
  {
    r := OpEnds(s.data, i, op, env);
    hide Operated, ProtocolInv;
    CallRuns(s, t, OnInput(i, op), env, r);
  }

  // ---- reading

  /** A read: an input in standby is started, unless no profile is found, the PCM does not open, or,
      without echo canceller, the resampler cannot be created. */
  ghost predicate ReadDone(d: Data, r: Data, i: nat, env: Env) {
    i < |d.inputs| == |r.inputs| &&
    var n, m := d.inputs[i], r.inputs[i];
    var opens := env.profile && env.opens;
    var starts := n.standby && opens && (n.aec || env.resamples);
    var runs := !n.standby || starts;
    && (m.standby <==> !runs || env.fails)
    && (forall k :: 0 <= k < |d.inputs| && k != i ==> r.inputs[k] == d.inputs[k])
    && m.open == n.open && m.aec == n.aec && r.echo.outStandby == d.echo.outStandby
    && (runs && !env.fails ==>
          && r.active == (if starts then Some(i) else d.active)
          && r.listed == (if starts then d.listed + [Entry(i, n.hotword)] else d.listed)
          && (if starts && n.aec && n.ref.None?
              then m.ref == r.echo.devRef && (m.ref.Some? <==> env.creates && !d.echo.outStandby)
              else m.ref == n.ref && r.echo.devRef == d.echo.devRef))
    && (runs && env.fails ==>
          && r.active == None && m.ref == None
          && Removed(if starts then d.listed + [Entry(i, n.hotword)] else d.listed, r.listed, n.hotword))
    && (n.standby && !starts ==>
          && r.active == (if opens then Some(i) else None)
          && (if opens then r.listed == d.listed + [Entry(i, n.hotword)]
              else if env.profile then Removed(d.listed + [Entry(i, n.hotword)], r.listed, n.hotword)
              else r.listed == d.listed))
  }

  lemma UsingEnds(d: Data, i: nat, env: Env) returns (r: Data)
    requires i < |d.inputs| && !d.inputs[i].standby
    ensures Ends(d, RUse(i), env, r)
    ensures if env.fails then Operated(d.(echo := UseRef(d.echo, d.inputs[i].ref)), r, i, ToStandby)
            else InputsSame(d, r) && r.echo == UseRef(d.echo, d.inputs[i].ref)
  {
    var used := Touch(d, i).(echo := UseRef(d.echo, d.inputs[i].ref));
    hide UseRef;
    if env.fails {
      r := OpEnds(used, i, ToStandby, env);
    } else {
      r := used;
      Ended(r, env);
    }
    hide Operated;
    Before(d, RUse(i), env, r);
    SameOperated(used, d.(echo := used.echo), r, i, ToStandby);
  }

  /** From the start to the end of a read that found standby. */
  lemma StartingEnds(d: Data, i: nat, env: Env) returns (r: Data)
    requires DataOk(d) && i < |d.inputs| && d.inputs[i].standby
    ensures Ends(d, RRecheck(i), env, r) && ReadDone(d, r, i, env)
  {
    var m := ReadStep(d, RRecheck(i), env);
    var started := m.data;
    StartGives(d, i, env);
    hide DataOk, StartInput, ReadDone;
    if m.next.RStarted? {
      var running := ReadStep(started, RStarted(i), env).data;
      r := UsingEnds(running, i, env);
      ReadGives(d, started, running, r, i, env);
      hide Operated, StartGiven;
      Before(started, RStarted(i), env, r);
    } else {
      r := OpEnds(started, i, ToStandby, env);
      FailedStartGives(d, started, r, i, env);
      hide Operated, StartGiven;
    }
    Before(d, RRecheck(i), env, r);
  }

  lemma FailedStartGives(d: Data, started: Data, r: Data, i: nat, env: Env)
    requires StartGiven(d, started, i, env) && d.inputs[i].standby
    requires !(env.profile && env.opens && (d.inputs[i].aec || env.resamples)) && Operated(started, r, i, ToStandby)
    ensures ReadDone(d, r, i, env)
  {
    hide Removed;
  }

  /** What start_input_stream does, literally. */
  ghost predicate StartGiven(d: Data, r: Data, i: nat, env: Env) {
    i < |d.inputs| &&
    var n := d.inputs[i];
    var asks := env.profile && n.aec && n.ref.None?;
    && r.inputs == d.inputs[i := n.(ref := if asks then r.echo.devRef else n.ref)]
    && r.echo.outStandby == d.echo.outStandby
    && (if asks then r.echo.devRef.Some? <==> env.creates && !d.echo.outStandby else r.echo == d.echo)
    && r.active == (if env.profile && env.opens then Some(i) else None)
    && (if !env.profile then r.listed == d.listed
        else if env.opens then r.listed == d.listed + [Entry(i, n.hotword)]
        else Removed(d.listed + [Entry(i, n.hotword)], r.listed, n.hotword))
  }

  lemma StartGives(d: Data, i: nat, env: Env)
    requires DataOk(d) && i < |d.inputs|
    ensures StartGiven(d, StartInput(d, i, env), i, env)
  {
    EchoOf(d);
    hide DataOk, Get, Inv, TouchSelected;
    GetGives(d.echo, env.creates);
    ListedGives(d, i, env);
    SameSeq(d.inputs, i);
    hide ListedAfterStart, Removed;
  }

  lemma SameSeq<T>(s: seq<T>, i: nat)
    requires i < |s|
    ensures s[i := s[i]] == s
  {
  }

  lemma GetGives(e: Echo, creates: bool)
    requires Inv(e)
    ensures var g := Get(e, creates); g.outStandby == e.outStandby && (g.devRef.Some? <==> creates && !e.outStandby)
  {
    GetIsSafe(e, creates);
  }

  lemma ListedGives(d: Data, i: nat, env: Env)
    requires i < |d.inputs|
    ensures var r, n := ListedAfterStart(d, i, env), d.inputs[i];
            if !env.profile then r == d.listed
            else if env.opens then r == d.listed + [Entry(i, n.hotword)]
            else Removed(d.listed + [Entry(i, n.hotword)], r, n.hotword)
  {
    UnlistRemoves(d.listed + [Entry(i, d.inputs[i].hotword)], d.inputs[i].hotword);
  }

  lemma ReadGives(d: Data, started: Data, running: Data, r: Data, i: nat, env: Env)
    requires StartGiven(d, started, i, env) && d.inputs[i].standby && env.profile && env.opens && (d.inputs[i].aec || env.resamples)
    requires running == started.(inputs := started.inputs[i := started.inputs[i].(standby := false)])
    requires var used := UseRef(running.echo, running.inputs[i].ref);
             if env.fails then Operated(running.(echo := used), r, i, ToStandby)
             else InputsSame(running, r) && r.echo == used
    ensures ReadDone(d, r, i, env)
  {
    hide Removed;
  }

  lemma ReadEnds(d: Data, i: nat, env: Env) returns (r: Data)
    requires DataOk(d) && i < |d.inputs|
    ensures Ends(d, RFirst(i), env, r) && ReadDone(d, r, i, env)
  {
    if d.inputs[i].standby {
      var touched := Touch(d, i);
      TouchOk(d, i);
      r := StartingEnds(touched, i, env);
      hide ReadDone, DataOk;
      assert ReadDone(d, r, i, env) by { SameReadDone(touched, d, r, i, env); }
      Before(d, RWantIn(i), env, r);
      Before(d, RWantInputs(i), env, r);
    } else {
      r := UsingEnds(d, i, env);
      hide Removed, DataOk;
      assert ReadDone(d, r, i, env);
      hide ReadDone, Operated;
    }
    Before(d, RFirst(i), env, r);
  }

  lemma SameReadDone(d: Data, e: Data, r: Data, i: nat, env: Env)
    requires InputsSame(d, e) && d.echo == e.echo
    ensures ReadDone(d, r, i, env) <==> ReadDone(e, r, i, env)
  {
  }

  lemma AReadAlone(s: State, t: nat, i: nat, env: Env) returns (r: Data)
    requires ProtocolInv(s) && Alone(s, t) && s.threads[t] == Idle && MayCall(s, Read(i))
    ensures CallGives(s, t, Read(i), env, r) && ReadDone(s.data, r, i, env)
  {
    r := ReadEnds(s.data, i, env);
    hide ReadDone, ProtocolInv;
    CallRuns(s, t, Read(i), env, r);
  }
}

/** The offload visualizer's two cross-linked lists, of the effects created and of the
    outputs playing, and the capture thread that lives while an output plays.  Each method
    is one critical section of the library's lock. */
module VisualizerLib {
  const EINVAL: int := 22
  const ENOSYS: int := 38

  type Handle = int

  datatype EffectState = Initialized | Active

  class EffectContext {
    var outHandle: Handle
    var state: EffectState
    var offloadEnabled: bool

    constructor (ioId: Handle)
      ensures outHandle == ioId && state == Initialized && !offloadEnabled
    {
      outHandle, state, offloadEnabled := ioId, Initialized, false;
    }
  }

  class OutputContext {
    const handle: Handle
    var effects: seq<EffectContext>

    constructor (output: Handle)
      ensures handle == output && effects == []
    {
      handle, effects := output, [];
    }
  }

  ghost predicate Distinct<T>(s: seq<T>) {
    forall i, j :: 0 <= i < j < |s| ==> s[i] != s[j]
  }

  function Without<T(==)>(s: seq<T>, x: T): seq<T> {
    if s == [] then [] else if s[0] == x then s[1..] else [s[0]] + Without(s[1..], x)
  }

  lemma {:induction false} WithoutRemoves<T>(s: seq<T>, x: T)
    requires Distinct(s)
    ensures Distinct(Without(s, x))
    ensures forall y :: y in Without(s, x) <==> y in s && y != x
    ensures x !in s ==> Without(s, x) == s
    decreases |s|
  {
    if s != [] {
      var rest := s[1..];
      assert forall i :: 0 <= i < |rest| ==> rest[i] == s[i + 1];
      assert s[0] !in rest;
      assert s == [s[0]] + rest;
      if s[0] != x {
        WithoutRemoves(rest, x);
      }
    }
  }

  lemma DistinctTogether<T>(a: seq<T>, b: seq<T>)
    requires Distinct(a) && Distinct(b) && forall x :: x in a ==> x !in b
    ensures Distinct(a + b)
  {
    forall i, j | 0 <= i < j < |a + b| ensures (a + b)[i] != (a + b)[j] {
      assert i < |a| <= j ==> a[i] in a && b[j - |a|] in b;
    }
  }

  class Library {
    var created: seq<EffectContext>
    var outputs: seq<OutputContext>
    var exitThread: bool
    var threadStatus: int
    ghost var live: nat      // capture threads that have not returned
    ghost var joining: bool  // visualizer_hal_stop_output is waiting, with thread_lock held

    /** An output's list holds exactly the created effects attached to its handle. */
    ghost predicate Linked(o: OutputContext)
      reads this, o, created
    {
      && Distinct(o.effects)
      && (forall e :: e in o.effects ==> e in created && e.outHandle == o.handle)
      && (forall e :: e in created && e.outHandle == o.handle ==> e in o.effects)
    }

    /** The same for every effect but e, which is not in the list. */
    ghost predicate LinkedBut(o: OutputContext, e: EffectContext)
      reads this, o, created
    {
      && Distinct(o.effects)
      && (forall x :: x in o.effects ==> x != e && x in created && x.outHandle == o.handle)
      && (forall x :: x in created && x != e && x.outHandle == o.handle ==> x in o.effects)
    }

    ghost predicate DistinctHandles()
      reads this
    {
      forall i, j :: 0 <= i < j < |outputs| ==> outputs[i].handle != outputs[j].handle
    }

    ghost predicate ListsAgree()
      reads this, created, outputs
    {
      && Distinct(created)
      && DistinctHandles()
      && (forall o :: o in outputs ==> Linked(o))
    }

    /** At most one capture thread; one for as long as an output plays, if it could be created. */
    ghost predicate ThreadAgrees()
      reads this
    {
      && live <= 1
      && (joining ==> outputs == [] && threadStatus == 0 && exitThread)
      && (!joining ==> (live == 1 <==> threadStatus == 0) && (live == 1 ==> outputs != [] && !exitThread))
    }

    ghost predicate Valid()
      reads this, created, outputs
    {
      ListsAgree() && ThreadAgrees()
    }

    constructor ()
      ensures Valid() && created == [] && outputs == [] && live == 0 && !joining
    {
      created, outputs, exitThread, threadStatus := [], [], false, -1;
      live, joining := 0, false;
    }

    method GetOutput(handle: Handle) returns (found: bool, i: nat)
      ensures found ==> i < |outputs| && outputs[i].handle == handle
      ensures !found ==> forall o :: o in outputs ==> o.handle != handle
    {
      i := 0;
      while i < |outputs|
        invariant i <= |outputs|
        invariant forall k :: 0 <= k < i ==> outputs[k].handle != handle
      {
        if outputs[i].handle == handle {
          return true, i;
        }
        i := i + 1;
      }
      found := false;
    }

    method AddEffectToOutput(o: OutputContext, e: EffectContext)
      requires Distinct(o.effects)
      modifies o
      ensures Distinct(o.effects)
      ensures forall x :: x in o.effects <==> x in old(o.effects) || x == e
    {
      if e !in o.effects {
        o.effects := o.effects + [e];
      }
    }

    method RemoveEffectFromOutput(o: OutputContext, e: EffectContext)
      requires Distinct(o.effects)
      modifies o
      ensures Distinct(o.effects)
      ensures forall x :: x in o.effects <==> x in old(o.effects) && x != e
    {
      WithoutRemoves(o.effects, e);
      o.effects := Without(o.effects, e);
    }

    /** Takes an effect off the output it is attached to, if that plays. */
    method Detach(e: EffectContext)
      requires ListsAgree()
      modifies outputs
      ensures forall o :: o in outputs ==> LinkedBut(o, e)
    {
      var found, i := GetOutput(e.outHandle);
      if found {
        assert outputs[i] in outputs;
        RemoveEffectFromOutput(outputs[i], e);
        forall o | o in outputs ensures LinkedBut(o, e) {
          if o != outputs[i] {
            var k :| 0 <= k < |outputs| && outputs[k] == o;
            assert o.handle != e.outHandle && Linked(o);
          }
        }
      }
    }

    /** Puts a created effect on the output it is attached to, if that plays. */
    method Reattach(e: EffectContext)
      requires DistinctHandles() && e in created && forall o :: o in outputs ==> LinkedBut(o, e)
      modifies outputs
      ensures forall o :: o in outputs ==> Linked(o)
    {
      var found, i := GetOutput(e.outHandle);
      if found {
        assert outputs[i] in outputs;
        AddEffectToOutput(outputs[i], e);
        forall o | o in outputs ensures Linked(o) {
          if o != outputs[i] {
            var k :| 0 <= k < |outputs| && outputs[k] == o;
            assert o.handle != e.outHandle && LinkedBut(o, e);
          }
        }
      }
    }

    /** A new output takes over the created effects that wait for it. */
    method Attach(o: OutputContext)
      requires Distinct(created) && o.effects == []
      modifies o
      ensures Linked(o)
    {
      var i := 0;
      while i < |created|
        invariant i <= |created|
        invariant Distinct(o.effects)
        invariant forall e :: e in o.effects ==> e in created[..i] && e.outHandle == o.handle
        invariant forall e :: e in created[..i] && e.outHandle == o.handle ==> e in o.effects
      {
        assert created[i] !in created[..i];
        if created[i].outHandle == o.handle {
          o.effects := o.effects + [created[i]];
        }
        i := i + 1;
      }
    }

    method Publish(o: OutputContext)
      requires ListsAgree() && Linked(o) && forall x :: x in outputs ==> x.handle != o.handle
      modifies this`outputs
      ensures ListsAgree() && outputs == old(outputs) + [o]
    {
      outputs := outputs + [o];
      assert forall x :: x in outputs ==> x in old(outputs) || x == o;
    }

    /** Some active output has the handle. */
    ghost predicate Started(output: Handle)
      reads this
    {
      exists o :: o in outputs && o.handle == output
    }

    /** The result is set only where the call is refused; `unset` is what it holds otherwise. */
    method StartOutput(output: Handle, createStatus: int, unset: int) returns (ret: int)
      requires Valid() && !joining
      modifies this
      ensures Valid() && !joining && created == old(created)
      ensures ret == if old(Started(output)) then -ENOSYS else unset
      ensures old(Started(output)) ==> outputs == old(outputs) && live == old(live)
      ensures !old(Started(output)) ==>
                && |outputs| == |old(outputs)| + 1 && outputs[..|old(outputs)|] == old(outputs)
                && outputs[|outputs| - 1].handle == output
                && if old(outputs) == [] then live == 1 <==> createStatus == 0 else live == old(live)
    {
      var found, i := GetOutput(output);
      if found {
        assert outputs[i] in outputs;
        return -ENOSYS;
      }
      var o := new OutputContext(output);
      Attach(o);
      if outputs == [] {
        exitThread := false;
        threadStatus := createStatus;
        live := if createStatus == 0 then live + 1 else live;
      }
      Publish(o);
      ret := unset;
    }

    /** Up to the join, or to the end when there is no thread to join; the result as above. */
    method StopOutput(output: Handle, unset: int) returns (ret: int)
      requires Valid() && !joining
      modifies this
      ensures Valid() && created == old(created)
      ensures ret == if old(Started(output)) then unset else -ENOSYS
      ensures forall o :: o in outputs <==> o in old(outputs) && o.handle != output
      ensures joining <==> old(Started(output)) && outputs == [] && old(threadStatus) == 0
      ensures live == old(live)
    {
      var found, i := GetOutput(output);
      if !found {
        return -ENOSYS;
      }
      assert outputs[i] in outputs;
      outputs := outputs[..i] + outputs[i + 1..];
      assert forall o :: o in outputs ==> o in old(outputs);
      if outputs == [] && threadStatus == 0 {
        exitThread := true;
        joining := true;
      }
      ret := unset;
    }

    /** pthread_join has returned: the thread is gone. */
    method JoinReturns()
      requires Valid() && joining && live == 0
      modifies this
      ensures Valid() && !joining && created == old(created) && outputs == [] && live == 0
    {
      threadStatus := -1;
      joining := false;
    }

    /** The capture thread at the top of its loop. */
    method ThreadChecksExit() returns (exits: bool)
      requires Valid() && live == 1
      modifies this`live
      ensures Valid() && exits == exitThread == joining
      ensures live == if exits then 0 else 1
    {
      exits := exitThread;
      if exits {
        live := 0;
      }
    }

    /** The capture thread with a buffer in hand: the effects it calls process on, each once. */
    method ProcessAll() returns (called: seq<EffectContext>)
      requires Valid() && live == 1
      ensures Distinct(called)
      ensures forall e :: e in called <==> e in created && exists o :: o in outputs && o.handle == e.outHandle
    {
      called := [];
      for i := 0 to |outputs|
        invariant Distinct(called)
        invariant forall e :: e in called <==> exists k :: 0 <= k < i && e in outputs[k].effects
      {
        var effects := outputs[i].effects;
        ghost var before := called;
        assert outputs[i] in outputs && Linked(outputs[i]);
        forall e | e in called ensures e !in effects {
          var k :| 0 <= k < i && e in outputs[k].effects;
          assert outputs[k] in outputs && Linked(outputs[k]);
        }
        DistinctTogether(before, effects);
        for j := 0 to |effects|
          invariant called == before + effects[..j]
        {
          called := called + [effects[j]];
        }
        assert called == before + effects;
      }
      forall e
        ensures e in called <==> e in created && exists o :: o in outputs && o.handle == e.outHandle
      {
        if e in called {
          var k :| 0 <= k < |outputs| && e in outputs[k].effects;
          assert outputs[k] in outputs && Linked(outputs[k]);
        }
        if e in created && exists o :: o in outputs && o.handle == e.outHandle {
          var o :| o in outputs && o.handle == e.outHandle;
          assert Linked(o);
          var k :| 0 <= k < |outputs| && outputs[k] == o;
        }
      }
    }

    method Create(ioId: Handle) returns (e: EffectContext)
      requires Valid()
      modifies this`created, outputs
      ensures Valid() && fresh(e)
      ensures created == old(created) + [e] && e.outHandle == ioId && e.state == Initialized
    {
      e := new EffectContext(ioId);
      created := created + [e];
      Reattach(e);
    }

    method Release(e: EffectContext) returns (status: int)
      requires Valid()
      modifies this`created, outputs
      ensures Valid()
      ensures status == if e in old(created) then 0 else -EINVAL
      ensures forall x :: x in created <==> x in old(created) && x != e
    {
      if e !in created {
        return -EINVAL;
      }
      Detach(e);
      WithoutRemoves(created, e);
      created := Without(created, e);
      status := 0;
    }

    /** EFFECT_CMD_OFFLOAD: the effect moves to another output. */
    method Offload(e: EffectContext, isOffload: bool, ioHandle: Handle) returns (status: int)
      requires Valid()
      modifies e, outputs
      ensures Valid()
      ensures status == if e in created then 0 else -EINVAL
      ensures e in created ==> e.outHandle == ioHandle && e.offloadEnabled == isOffload
      ensures e !in created ==> unchanged(e)
      ensures e.state == old(e.state)
    {
      if e !in created {
        return -EINVAL;
      }
      status := 0;
      e.offloadEnabled := isOffload;
      if e.outHandle == ioHandle {
        return;
      }
      Detach(e);
      e.outHandle := ioHandle;
      Reattach(e);
    }

    method Enable(e: EffectContext) returns (status: int)
      requires Valid()
      modifies e`state
      ensures Valid()
      ensures status == if e !in created then -EINVAL else if old(e.state) == Initialized then 0 else -ENOSYS
      ensures e.state == if status == 0 then Active else old(e.state)
    {
      if e !in created {
        return -EINVAL;
      }
      if e.state != Initialized {
        return -ENOSYS;
      }
      e.state := Active;
      status := 0;
    }

    method Disable(e: EffectContext) returns (status: int)
      requires Valid()
      modifies e`state
      ensures Valid()
      ensures status == if e !in created then -EINVAL else if old(e.state) == Active then 0 else -ENOSYS
      ensures e.state == if status == 0 then Initialized else old(e.state)
    {
      if e !in created {
        return -EINVAL;
      }
      if e.state != Active {
        return -ENOSYS;
      }
      e.state := Initialized;
      status := 0;
    }
  }
}

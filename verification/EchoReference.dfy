/** Who owns an echo reference: the device, the running primary output, or both.
    A reference is a number; `next` references were created so far. */
module EchoReference {
  import opened Wrappers

  /** The generation counters are 32 bits wide. */
  const GENERATIONS: nat := 0x1_0000_0000

  /** `devGen` counts the device's increments, `outGen` its value when the output last took
      it over.  `misused`: some reference was released twice or used after its release. */
  datatype Echo = Echo(
    devRef: Option<nat>, devGen: nat,
    outRef: Option<nat>, outGen: nat, outStandby: bool,
    next: nat, released: set<nat>, misused: bool)

  const START := Echo(None, 0, None, 0, true, 0, {}, false)

  /** The comparison the code makes, on 32-bit values. */
  predicate SameGeneration(e: Echo) {
    e.devGen % GENERATIONS == e.outGen % GENERATIONS
  }

  function Release(e: Echo, r: nat): Echo {
    e.(released := e.released + {r}, misused := e.misused || r in e.released)
  }

  function UseRef(e: Echo, ref: Option<nat>): Echo {
    e.(misused := e.misused || (ref.Some? && ref.value in e.released))
  }

  function UseOutRef(e: Echo): Echo {
    UseRef(e, e.outRef)
  }

  /** put_echo_reference. */
  function Put(e: Echo, ref: Option<nat>): Echo {
    if e.devRef.None? || ref != e.devRef then e
    else
      var gone := e.(devRef := None, devGen := e.devGen + 1);
      if !SameGeneration(e) || e.outStandby then Release(gone, ref.value) else gone
  }

  /** get_echo_reference; `creates`: creating the reference succeeds. */
  function Get(e: Echo, creates: bool): Echo {
    var p := Put(e, e.devRef);
    if p.outStandby || !creates then p
    else p.(devRef := Some(p.next), devGen := p.devGen + 1, next := p.next + 1)
  }

  /** The echo part of a successful start_output_stream. */
  function StartOutput(e: Echo): Echo {
    e.(outRef := e.devRef, outGen := e.devGen, outStandby := false)
  }

  /** out_write under the device lock, once it saw another generation. */
  function Sync(e: Echo): Echo {
    var r := if e.outRef.Some? then Release(e, e.outRef.value) else e;
    r.(outRef := e.devRef, outGen := e.devGen)
  }

  /** The echo part of do_out_standby_l. */
  function StandbyOutput(e: Echo): Echo {
    if e.outRef.None? then e.(outStandby := true)
    else
      var u := UseOutRef(e);
      var r := if SameGeneration(u) then u else Release(u, e.outRef.value).(outGen := e.devGen);
      r.(outRef := None, outStandby := true)
  }

  ghost predicate Alive(e: Echo, ref: Option<nat>) {
    ref.Some? ==> ref.value < e.next && ref.value !in e.released
  }

  ghost predicate Inv(e: Echo) {
    && !e.misused
    && Alive(e, e.devRef) && Alive(e, e.outRef)
    && (forall r :: r in e.released ==> r < e.next)
    && e.outGen <= e.devGen
    && (e.outStandby ==> e.outRef.None?)
    && (!e.outStandby && e.outGen == e.devGen ==> e.outRef == e.devRef)
    && (!e.outStandby && e.outGen < e.devGen && e.outRef.Some? ==> e.outRef != e.devRef)
  }

  /** Nobody holds `r` any more and it was not released. */
  ghost predicate Leaked(e: Echo, r: nat) {
    r < e.next && r !in e.released && e.devRef != Some(r) && e.outRef != Some(r)
  }

  ghost predicate Conserved(e: Echo) {
    forall r :: 0 <= r < e.next ==> !Leaked(e, r)
  }

  /** A running output took over a generation exactly a multiple of 2^32 changes ago. */
  predicate Collides(e: Echo) {
    !e.outStandby && e.outGen < e.devGen && SameGeneration(e)
  }

  lemma CloseGenerationsDoNotCollide(e: Echo)
    requires e.outGen <= e.devGen < e.outGen + GENERATIONS
    ensures !Collides(e)
  {
  }

  /** What each operation does to the invariant and to a reference's ownership. */
  ghost predicate Safe(e: Echo, after: Echo) {
    && Inv(after)
    && e.next <= after.next
    && e.released <= after.released
    && forall r :: Leaked(e, r) ==> Leaked(after, r)
  }

  lemma PutIsSafe(e: Echo, ref: Option<nat>)
    requires Inv(e)
    ensures Safe(e, Put(e, ref))
    ensures Conserved(e) ==> (Conserved(Put(e, ref)) <==> !(e.devRef.Some? && ref == e.devRef && Collides(e)))
    ensures Put(e, ref).devRef == if ref == e.devRef then None else e.devRef
    ensures Put(e, ref).outRef == e.outRef && Put(e, ref).outStandby == e.outStandby
  {
    if e.devRef.Some? && ref == e.devRef {
      var after, d := Put(e, ref), ref.value;
      assert Leaked(after, d) <==> Collides(e);
      assert forall r :: r != d ==> (Leaked(after, r) <==> Leaked(e, r));
    }
  }

  lemma GetIsSafe(e: Echo, creates: bool)
    requires Inv(e)
    ensures Safe(e, Get(e, creates))
    ensures Conserved(e) ==> (Conserved(Get(e, creates)) <==> !(e.devRef.Some? && Collides(e)))
    ensures Get(e, creates).devRef.Some? <==> creates && !e.outStandby
    ensures Get(e, creates).outStandby == e.outStandby && Get(e, creates).outRef == e.outRef
    ensures Get(e, creates).devRef.Some? ==> Get(e, creates).devRef.value >= e.next
  {
    PutIsSafe(e, e.devRef);
    var p, after := Put(e, e.devRef), Get(e, creates);
    if !p.outStandby && creates {
      assert !Leaked(after, p.next);
      assert forall r :: r != p.next ==> (Leaked(after, r) <==> Leaked(p, r));
    }
  }

  lemma StartIsSafe(e: Echo)
    requires Inv(e) && e.outStandby
    ensures Safe(e, StartOutput(e))
    ensures Conserved(e) <==> Conserved(StartOutput(e))
    ensures var r := StartOutput(e); !r.outStandby && r.outRef == r.devRef == e.devRef && r.outGen == r.devGen
  {
    assert forall r :: Leaked(e, r) <==> Leaked(StartOutput(e), r);
  }

  lemma SyncIsSafe(e: Echo)
    requires Inv(e) && !e.outStandby && e.outGen < e.devGen
    ensures Safe(e, Sync(e))
    ensures Conserved(e) <==> Conserved(Sync(e))
    ensures var r := Sync(e); !r.outStandby && r.outRef == r.devRef == e.devRef && r.outGen == r.devGen
    ensures e.outRef.Some? ==> e.outRef.value in Sync(e).released
  {
    assert forall r :: Leaked(e, r) <==> Leaked(Sync(e), r);
  }

  lemma StandbyIsSafe(e: Echo)
    requires Inv(e) && !e.outStandby
    ensures Safe(e, StandbyOutput(e))
    ensures Conserved(e) ==> (Conserved(StandbyOutput(e)) <==> !(e.outRef.Some? && Collides(e)))
    ensures var r := StandbyOutput(e); r.outStandby && r.outRef.None? && r.devRef == e.devRef
  {
    var after := StandbyOutput(e);
    if e.outRef.Some? {
      var o := e.outRef.value;
      assert Leaked(after, o) <==> Collides(e);
      assert forall r :: r != o ==> (Leaked(after, r) <==> Leaked(e, r));
    } else {
      assert forall r :: Leaked(after, r) <==> Leaked(e, r);
    }
  }

  /** Neither stream can see a released reference. */
  lemma UseIsSafe(e: Echo, ref: Option<nat>)
    requires Inv(e) && (ref.Some? ==> ref == e.devRef || ref == e.outRef)
    ensures UseRef(e, ref) == e
  {
  }

  /** A released reference would be noticed wherever one is used: in a write, in the standby of the
      output, and when it is released again. */
  lemma MisuseIsNoticed(e: Echo, r: nat)
    requires r in e.released
    ensures UseRef(e, Some(r)).misused && Release(e, r).misused
    ensures e.outRef == Some(r) ==> UseOutRef(e).misused && StandbyOutput(e).misused && Sync(e).misused
    ensures !e.misused ==> forall q :: q !in e.released ==> !UseRef(e, Some(q)).misused && !Release(e, q).misused
  {
  }

  /** The device's and the primary output's fields, as the code keeps them: the counters wrap. */
  class EchoState {
    var devRef: Option<nat>
    var devGeneration: nat
    var outRef: Option<nat>
    var outGeneration: nat
    var outStandby: bool
    var created: nat
    ghost var devCount: nat
    ghost var outCount: nat
    ghost var released: set<nat>
    ghost var misused: bool

    ghost predicate Valid() reads this {
      devGeneration == devCount % GENERATIONS && outGeneration == outCount % GENERATIONS
    }

    ghost function Abs(): Echo reads this {
      Echo(devRef, devCount, outRef, outCount, outStandby, created, released, misused)
    }

    constructor ()
      ensures Valid() && Abs() == START
    {
      devRef, devGeneration, outRef, outGeneration, outStandby, created := None, 0, None, 0, true, 0;
      devCount, outCount, released, misused := 0, 0, {}, false;
    }

    method ReleaseEchoReference(r: nat)
      modifies this`released, this`misused
      ensures Abs() == Release(old(Abs()), r)
      ensures released == old(released) + {r} && misused == (old(misused) || r in old(released))
    {
      misused := misused || r in released;
      released := released + {r};
    }

    method UseEchoReference(ref: Option<nat>)
      modifies this`misused
      ensures Abs() == UseRef(old(Abs()), ref)
      ensures misused == (old(misused) || exists r :: ref == Some(r) && r in released)
    {
      misused := misused || (ref.Some? && ref.value in released);
    }

    method IncrementGeneration()
      requires Valid()
      modifies this`devGeneration, this`devCount
      ensures Valid() && devCount == old(devCount) + 1
    {
      devGeneration := if devGeneration + 1 == GENERATIONS then 0 else devGeneration + 1;
      devCount := devCount + 1;
    }

    method PutEchoReference(reference: Option<nat>)
      requires Valid()
      modifies this
      ensures Valid() && Abs() == Put(old(Abs()), reference)
    {
      var prevGeneration := devGeneration;
      if devRef.Some? && reference == devRef {
        devRef := None;
        IncrementGeneration();
        if outGeneration != prevGeneration || outStandby {
          ReleaseEchoReference(reference.value);
        }
      }
    }

    method GetEchoReference(creates: bool) returns (ref: Option<nat>)
      requires Valid()
      modifies this
      ensures Valid() && Abs() == Get(old(Abs()), creates) && ref == devRef
    {
      PutEchoReference(devRef);
      if !outStandby && creates {
        devRef, created := Some(created), created + 1;
        IncrementGeneration();
      }
      ref := devRef;
    }

    method StartOutputStream()
      requires Valid()
      modifies this
      ensures Valid() && Abs() == StartOutput(old(Abs()))
    {
      outRef := None;
      outGeneration, outCount := devGeneration, devCount;
      if devRef.Some? { outRef := devRef; }
      outStandby := false;
    }

    /** The part of out_write under the device lock. */
    method UpdateOutput()
      requires Valid()
      modifies this
      ensures Valid() && Abs() == Sync(old(Abs()))
    {
      if outRef.Some? { ReleaseEchoReference(outRef.value); }
      outGeneration, outCount := devGeneration, devCount;
      outRef := devRef;
    }

    method DoOutStandby()
      requires Valid()
      modifies this
      ensures Valid() && Abs() == StandbyOutput(old(Abs()))
    {
      outStandby := true;
      if outRef.Some? {
        UseEchoReference(outRef);
        if outGeneration != devGeneration {
          ReleaseEchoReference(outRef.value);
          outGeneration, outCount := devGeneration, devCount;
        }
        outRef := None;
      }
    }
  }
}

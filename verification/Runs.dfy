/** Runs of a state machine, given by its step function: None where a step is not enabled. */
module Runs {
  import opened Wrappers

  /** The state after a run, if every step of it was enabled in turn. */
  function Exec<S(!new), A(!new)>(next: (S, A) -> Option<S>, s: S, steps: seq<A>): Option<S>
    decreases |steps|
  {
    if steps == [] then Some(s)
    else
      match next(s, steps[0])
      case None => None
      case Some(r) => Exec(next, r, steps[1..])
  }

  /** `good` holds at every state of the run. */
  ghost predicate Always<S(!new), A(!new)>(next: (S, A) -> Option<S>, good: S -> bool, s: S, steps: seq<A>)
    decreases |steps|
  {
    && good(s)
    && (steps != [] && next(s, steps[0]).Some? ==> Always(next, good, next(s, steps[0]).value, steps[1..]))
  }

  /** Some step of the run is `bad`. */
  ghost predicate Ever<S(!new), A(!new)>(next: (S, A) -> Option<S>, bad: (S, A) -> bool, s: S, steps: seq<A>)
    decreases |steps|
  {
    && steps != [] && next(s, steps[0]).Some?
    && (bad(s, steps[0]) || Ever(next, bad, next(s, steps[0]).value, steps[1..]))
  }

  ghost predicate Kept<S(!new), A(!new)>(next: (S, A) -> Option<S>, inv: S -> bool) {
    forall s: S, a: A :: inv(s) && next(s, a).Some? ==> inv(next(s, a).value)
  }

  /** From a good state a step leads to a good one exactly if it is not bad. */
  ghost predicate LostExactlyBy<S(!new), A(!new)>(
    next: (S, A) -> Option<S>, inv: S -> bool, good: S -> bool, bad: (S, A) -> bool)
  {
    forall s: S, a: A :: inv(s) && good(s) && next(s, a).Some? ==> (good(next(s, a).value) <==> !bad(s, a))
  }

  lemma {:induction false} Invariant<S(!new), A(!new)>(next: (S, A) -> Option<S>, inv: S -> bool, s: S, steps: seq<A>)
    requires Kept(next, inv) && inv(s)
    ensures Always(next, inv, s, steps)
    ensures Exec(next, s, steps).Some? ==> inv(Exec(next, s, steps).value)
    decreases |steps|
  {
    if steps != [] && next(s, steps[0]).Some? {
      Invariant(next, inv, next(s, steps[0]).value, steps[1..]);
    }
  }

  /** What only bad steps break holds throughout exactly the runs without one. */
  lemma {:induction false} AlwaysIffNever<S(!new), A(!new)>(
    next: (S, A) -> Option<S>, inv: S -> bool, good: S -> bool, bad: (S, A) -> bool, s: S, steps: seq<A>)
    requires Kept(next, inv) && LostExactlyBy(next, inv, good, bad) && inv(s) && good(s)
    ensures Always(next, good, s, steps) <==> !Ever(next, bad, s, steps)
    decreases |steps|
  {
    if steps != [] && next(s, steps[0]).Some? {
      var r := next(s, steps[0]).value;
      if good(r) { AlwaysIffNever(next, inv, good, bad, r, steps[1..]); }
    }
  }

  lemma {:induction false} Weaken<S(!new), A(!new)>(
    next: (S, A) -> Option<S>, inv: S -> bool, good: S -> bool, s: S, steps: seq<A>)
    requires Kept(next, inv) && inv(s) && forall r: S :: inv(r) ==> good(r)
    ensures Always(next, good, s, steps)
    decreases |steps|
  {
    if steps != [] && next(s, steps[0]).Some? {
      Weaken(next, inv, good, next(s, steps[0]).value, steps[1..]);
    }
  }

  /** No step is bad where a good state precludes it. */
  lemma {:induction false} NeverWhile<S(!new), A(!new)>(
    next: (S, A) -> Option<S>, good: S -> bool, bad: (S, A) -> bool, s: S, steps: seq<A>)
    requires Always(next, good, s, steps) && forall r: S, a: A :: good(r) ==> !bad(r, a)
    ensures !Ever(next, bad, s, steps)
    decreases |steps|
  {
    if steps != [] && next(s, steps[0]).Some? {
      NeverWhile(next, good, bad, next(s, steps[0]).value, steps[1..]);
    }
  }

  /** What keeps a property also rules a step out, until a step of the first kind. */
  lemma {:induction false} NeverUnless<S(!new), A(!new)>(
    next: (S, A) -> Option<S>, good: S -> bool, first: (S, A) -> bool, bad: (S, A) -> bool, s: S, steps: seq<A>)
    requires good(s) && !Ever(next, first, s, steps)
    requires forall r: S, a: A :: good(r) && !first(r, a) && next(r, a).Some? ==> good(next(r, a).value) && !bad(r, a)
    ensures Always(next, good, s, steps) && !Ever(next, bad, s, steps)
    decreases |steps|
  {
    if steps != [] && next(s, steps[0]).Some? {
      NeverUnless(next, good, first, bad, next(s, steps[0]).value, steps[1..]);
    }
  }

  ghost predicate Reachable<S(!new), A(!new)>(next: (S, A) -> Option<S>, start: S, s: S) {
    exists steps: seq<A> :: Exec(next, start, steps) == Some(s)
  }

  lemma StartReachable<S(!new), A(!new)>(next: (S, A) -> Option<S>, start: S)
    ensures Reachable(next, start, start)
  {
    assert Exec(next, start, []) == Some(start);
  }

  lemma {:induction false} ExecAppend<S(!new), A(!new)>(next: (S, A) -> Option<S>, s: S, steps: seq<A>, a: A)
    requires Exec(next, s, steps).Some?
    ensures Exec(next, s, steps + [a]) == next(Exec(next, s, steps).value, a)
    decreases |steps|
  {
    if steps == [] {
      assert [a][1..] == [] && steps + [a] == [a];
    } else {
      assert (steps + [a])[1..] == steps[1..] + [a];
      ExecAppend(next, next(s, steps[0]).value, steps[1..], a);
    }
  }

  lemma Reaches<S(!new), A(!new)>(next: (S, A) -> Option<S>, start: S, s: S, a: A) returns (r: S)
    requires Reachable(next, start, s) && next(s, a).Some?
    ensures next(s, a) == Some(r) && Reachable(next, start, r)
  {
    var steps :| Exec(next, start, steps) == Some(s);
    ExecAppend(next, start, steps, a);
    r := next(s, a).value;
  }
}

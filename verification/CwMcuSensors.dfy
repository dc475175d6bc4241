/** The sensor HAL object: it drains the event ring, translates each event's time and
    hands the events of enabled sensors to the caller. */
module CwMcuSensors {
  import opened EventRing
  import opened SensorClock

  datatype CwEvent = Sample(id: nat, mcuTime: nat) | MetaData(sensor: int) | TimeMarker
  datatype OutEvent = Reading(id: nat, time: nat) | FlushComplete(sensor: int)

  /** What happens around one event: steps of other threads before it, a clock sync the
      reader itself asks for when the hub time went back, steps between its two mutexes,
      the clock it then reads, and whether a sysfs file could be opened. */
  datatype Turn = Turn(before: seq<Action>, resync: seq<Action>, between: seq<Action>, now: nat, fdOk: bool)

  ghost predicate Outside(run: seq<Action>) {
    forall i :: 0 <= i < |run| ==> run[i].ByOthers()
  }

  /** The hub is not reset during the turn. */
  ghost predicate Quiet(t: Turn) {
    NoReset(t.before) && NoReset(t.resync) && NoReset(t.between)
  }

  ghost predicate WellFormed(t: Turn) {
    Outside(t.before) && Outside(t.resync) && Outside(t.between)
  }

  /** The steps that lead up to storing the time of a sample. */
  ghost function Lead(s: Clock, id: nat, mcu: nat, t: Turn): seq<Action>
    requires Shaped(s) && Possible(s, t.before) && id < NUM_SENSORS
  {
    var resync := if mcu < Run(s, t.before).lastMcu[id] then t.resync else [];
    t.before + resync + [Compute(id, mcu)] + t.between
  }

  ghost predicate Feasible1(s: Clock, e: CwEvent, t: Turn)
    requires Shaped(s)
  {
    && WellFormed(t)
    && Possible(s, t.before)
    && (e.Sample? ==>
          && e.id < NUM_SENSORS
          && Possible(s, Lead(s, e.id, e.mcuTime, t) + [Store(t.now, t.fdOk)]))
  }

  ghost function TurnRun(s: Clock, e: CwEvent, t: Turn): (run: seq<Action>)
    requires Shaped(s) && Feasible1(s, e, t)
    ensures Possible(s, run)
  {
    if e.Sample? then Lead(s, e.id, e.mcuTime, t) + [Store(t.now, t.fdOk)] else t.before
  }

  ghost function After(s: Clock, e: CwEvent, t: Turn): (s': Clock)
    requires Shaped(s) && Feasible1(s, e, t)
    ensures Shaped(s')
  {
    Run(s, TurnRun(s, e, t))
  }

  /** What the caller receives for one event. */
  ghost function Output(s: Clock, e: CwEvent, t: Turn): seq<OutEvent>
    requires Shaped(s) && Feasible1(s, e, t)
  {
    match e
    case MetaData(sensor) => [FlushComplete(sensor)]
    case TimeMarker => []
    case Sample(id, mcu) =>
      RunSplit(s, Lead(s, id, mcu, t), [Store(t.now, t.fdOk)]);
      var s1 := Run(s, Lead(s, id, mcu, t));
      if id in s1.enabled then [Reading(id, StoreTime(s1, t.now, t.fdOk).lastCpu[id])] else []
  }

  ghost predicate Feasible(s: Clock, q: seq<CwEvent>, turns: seq<Turn>)
    requires Shaped(s)
    decreases |q|
  {
    |q| <= |turns| &&
    (q == [] || (Feasible1(s, q[0], turns[0]) && Feasible(After(s, q[0], turns[0]), q[1..], turns[1..])))
  }

  /** One event taken: the clock after it and what it gives the caller. */
  datatype Taken = Taken(clock: Clock, out: seq<OutEvent>)

  ghost function Track(s: Clock, q: seq<CwEvent>, turns: seq<Turn>): (track: seq<Taken>)
    requires Shaped(s) && Feasible(s, q, turns)
    ensures |track| == |q|
    ensures forall k :: 0 <= k < |q| ==> |track[k].out| <= 1
    decreases |q|
  {
    if q == [] then []
    else
      var s1 := After(s, q[0], turns[0]);
      [Taken(s1, Output(s, q[0], turns[0]))] + Track(s1, q[1..], turns[1..])
  }

  function Flat(track: seq<Taken>): seq<OutEvent> {
    if track == [] then [] else track[0].out + Flat(track[1..])
  }

  /** How many events a call takes: until none is left or `count` outputs are ready. */
  function Used(track: seq<Taken>, count: int): (k: nat)
    ensures k <= |track|
  {
    if count <= 0 || track == [] then 0 else 1 + Used(track[1..], count - |track[0].out|)
  }

  lemma {:induction false} FlatAppend(a: seq<Taken>, b: seq<Taken>)
    ensures Flat(a + b) == Flat(a) + Flat(b)
    decreases |a|
  {
    if a == [] {
      assert a + b == b;
    } else {
      assert (a + b)[1..] == a[1..] + b;
      FlatAppend(a[1..], b);
    }
  }

  lemma {:induction false} ReturnsAtMostCount(track: seq<Taken>, count: nat)
    requires forall i :: 0 <= i < |track| ==> |track[i].out| <= 1
    ensures var n := |Flat(track[..Used(track, count)])|;
            n <= count && (n == count || Used(track, count) == |track|)
    decreases |track|
  {
    if count != 0 && track != [] {
      var rest := count - |track[0].out|;
      ReturnsAtMostCount(track[1..], rest);
      assert track[..Used(track, count)][1..] == track[1..][..Used(track[1..], rest)];
    }
  }

  /** Two calls hand out what one call with room for both would have. */
  lemma {:induction false} CallsContinueEachOther(track: seq<Taken>, first: nat, second: nat)
    requires forall i :: 0 <= i < |track| ==> |track[i].out| <= 1
    requires |Flat(track[..Used(track, first)])| == first
    ensures Used(track, first + second) ==
            Used(track, first) + Used(track[Used(track, first)..], second)
    decreases |track|
  {
    if first == 0 {
      assert track[0..] == track;
    } else if track != [] {
      var rest := first - |track[0].out|;
      var u := Used(track[1..], rest);
      assert track[..1 + u][1..] == track[1..][..u];
      assert track[1 + u..] == track[1..][u..];
      CallsContinueEachOther(track[1..], rest, second);
    }
  }

  ghost predicate ComesFrom(e: CwEvent, o: OutEvent) {
    (e.Sample? && o.Reading? && e.id == o.id) || (e.MetaData? && o.FlushComplete? && e.sensor == o.sensor)
  }

  /** `out` holds one entry, in order, for each event of `q` except some samples and the
      time markers. */
  ghost predicate Converts(q: seq<CwEvent>, out: seq<OutEvent>)
    decreases |q|
  {
    if q == [] then out == []
    else
      || (!q[0].MetaData? && Converts(q[1..], out))
      || (out != [] && ComesFrom(q[0], out[0]) && Converts(q[1..], out[1..]))
  }

  lemma {:induction false} OutputComesFrom(s: Clock, e: CwEvent, t: Turn)
    requires Shaped(s) && Feasible1(s, e, t)
    ensures var out := Output(s, e, t);
            |out| <= 1 && (out == [] ==> !e.MetaData?) && (out != [] ==> ComesFrom(e, out[0]))
  {
  }

  lemma {:induction false} EachEventOnceInOrder(s: Clock, q: seq<CwEvent>, turns: seq<Turn>, used: nat)
    requires Shaped(s) && Feasible(s, q, turns) && used <= |q|
    ensures Converts(q[..used], Flat(Track(s, q, turns)[..used]))
    decreases |q|
  {
    if used != 0 {
      var s1 := After(s, q[0], turns[0]);
      var out := Output(s, q[0], turns[0]);
      OutputComesFrom(s, q[0], turns[0]);
      var rest := Track(s1, q[1..], turns[1..]);
      EachEventOnceInOrder(s1, q[1..], turns[1..], used - 1);
      assert q[..used][1..] == q[1..][..used - 1];
      assert Track(s, q, turns)[..used] == [Taken(s1, out)] + rest[..used - 1];
      FlatAppend([Taken(s1, out)], rest[..used - 1]);
      assert Flat([Taken(s1, out)]) == out;
      Converting(q[..used], out, Flat(rest[..used - 1]));
    }
  }

  lemma {:induction false} Converting(q: seq<CwEvent>, out: seq<OutEvent>, rest: seq<OutEvent>)
    requires q != [] && |out| <= 1
    requires out == [] ==> !q[0].MetaData?
    requires out != [] ==> ComesFrom(q[0], out[0])
    requires Converts(q[1..], rest)
    ensures Converts(q, out + rest)
  {
    if out == [] {
      assert out + rest == rest;
    } else {
      assert (out + rest)[1..] == rest;
    }
  }

  /** The identities and times of a list of deliveries or of readings. */
  ghost function Stamps(log: seq<Delivery>): seq<(nat, nat)> {
    seq(|log|, i requires 0 <= i < |log| => (log[i].id, log[i].time))
  }

  ghost function Readings(out: seq<OutEvent>): seq<(nat, nat)>
    decreases |out|
  {
    if out == [] then []
    else (if out[0].Reading? then [(out[0].id, out[0].time)] else []) + Readings(out[1..])
  }

  lemma {:induction false} ReadingsAppend(a: seq<OutEvent>, b: seq<OutEvent>)
    ensures Readings(a + b) == Readings(a) + Readings(b)
    decreases |a|
  {
    if a == [] {
      assert a + b == b;
    } else {
      var first := if a[0].Reading? then [(a[0].id, a[0].time)] else [];
      assert (a + b)[0] == a[0] && (a + b)[1..] == a[1..] + b;
      ReadingsAppend(a[1..], b);
      Chained(first, Readings(a[1..]), Readings(b));
    }
  }

  lemma {:induction false} LeadComputes(s: Clock, id: nat, mcu: nat, t: Turn)
    requires Shaped(s) && Feasible1(s, Sample(id, mcu), t)
    ensures var lead := Lead(s, id, mcu, t);
            && Possible(s, lead)
            && |lead| == |t.before| + (if mcu < Run(s, t.before).lastMcu[id] then |t.resync| else 0) + 1 + |t.between|
            && Run(s, lead).reader.Computed? && Run(s, lead).reader.id == id && Run(s, lead).reader.mcu == mcu
            && Allowed(Run(s, lead), Store(t.now, t.fdOk))
            && Run(s, lead + [Store(t.now, t.fdOk)]) == StoreTime(Run(s, lead), t.now, t.fdOk)
  {
    var lead := Lead(s, id, mcu, t);
    var store := Store(t.now, t.fdOk);
    RunSplit(s, lead, [store]);
    assert Run(Run(s, lead), [store]) == Run(Step(Run(s, lead), store), [store][1..]);
    var prefix := lead[..|lead| - |t.between| - 1];
    assert lead == (prefix + [Compute(id, mcu)]) + t.between;
    RunSplit(s, prefix + [Compute(id, mcu)], t.between);
    RunSplit(s, prefix, [Compute(id, mcu)]);
    var s1 := Run(s, prefix);
    assert Run(s1, [Compute(id, mcu)]) == Run(Step(s1, Compute(id, mcu)), [Compute(id, mcu)][1..]);
    OthersLeaveTheReader(Run(s, prefix + [Compute(id, mcu)]), t.between);
  }

  /** A sample reaches the caller exactly if its sensor is enabled when its time is stored, with
      that time; a flush always does, a time marker never. */
  lemma {:induction false} DeliveredIfEnabled(s: Clock, e: CwEvent, t: Turn)
    requires Shaped(s) && Feasible1(s, e, t)
    ensures e.MetaData? ==> Output(s, e, t) == [FlushComplete(e.sensor)]
    ensures e.TimeMarker? ==> Output(s, e, t) == []
    ensures e.Sample? ==>
              Output(s, e, t) ==
                if Possible(s, Lead(s, e.id, e.mcuTime, t)) && e.id in Run(s, Lead(s, e.id, e.mcuTime, t)).enabled
                then [Reading(e.id, After(s, e, t).lastCpu[e.id])] else []
    ensures e.Sample? ==> After(s, e, t).lastMcu[e.id] == e.mcuTime && After(s, e, t).lastCpu[e.id] <= t.now
  {
    if e.Sample? { LeadComputes(s, e.id, e.mcuTime, t); }
  }

  lemma {:induction false} LogGrowsByOutput(s: Clock, e: CwEvent, t: Turn)
    requires Shaped(s) && Feasible1(s, e, t)
    requires Quiet(t)
    ensures Stamps(After(s, e, t).log) == Stamps(s.log) + Readings(Output(s, e, t))
  {
    if e.Sample? {
      var lead := Lead(s, e.id, e.mcuTime, t);
      LeadComputes(s, e.id, e.mcuTime, t);
      OthersLeaveTheLog(s, lead);
      StoreStamps(Run(s, lead), t.now, t.fdOk);
    } else {
      OthersLeaveTheLog(s, t.before);
    }
  }

  lemma {:induction false} StoreStamps(s: Clock, now: nat, fdOk: bool)
    requires Shaped(s) && s.reader.Computed?
    ensures var s' := StoreTime(s, now, fdOk);
            Stamps(s'.log) == Stamps(s.log) +
              (if s.reader.id in s.enabled then [(s.reader.id, s'.lastCpu[s.reader.id])] else [])
  {
  }

  ghost function ClockAfter(s: Clock, track: seq<Taken>): Clock {
    if track == [] then s else track[|track| - 1].clock
  }

  lemma {:induction false} Prepend(first: Taken, rest: seq<Taken>)
    ensures Readings(Flat([first] + rest)) == Readings(first.out) + Readings(Flat(rest))
    ensures forall s :: ClockAfter(s, [first] + rest) == ClockAfter(first.clock, rest)
  {
    assert ([first] + rest)[1..] == rest;
    ReadingsAppend(first.out, Flat(rest));
  }

  lemma {:induction false} TakenStep(s: Clock, track: seq<Taken>, k: nat, left: nat)
    requires k < |track| && left > 0
    ensures Flat(track[..k + 1]) == Flat(track[..k]) + track[k].out
    ensures ClockAfter(s, track[..k + 1]) == track[k].clock
    ensures Used(track[k..], left) == 1 + Used(track[k + 1..], left - |track[k].out|)
  {
    FlatAppend(track[..k], [track[k]]);
    assert track[..k] + [track[k]] == track[..k + 1];
    assert Flat([track[k]]) == track[k].out;
    assert track[k..][1..] == track[k + 1..];
  }

  /** With `left` slots left of `count`, `data` is what the first k events gave. */
  ghost predicate Taking(track: seq<Taken>, count: nat, k: nat, left: nat, data: seq<OutEvent>) {
    k <= |track| && data == Flat(track[..k]) && Used(track, count) == k + Used(track[k..], left)
  }

  lemma TakingStarts(track: seq<Taken>, count: nat)
    ensures Taking(track, count, 0, count, [])
  {
  }

  lemma TakingGoesOn(s: Clock, track: seq<Taken>, count: nat, k: nat, left: nat, data: seq<OutEvent>)
    requires Taking(track, count, k, left, data) && k < |track| && left > 0 && |track[k].out| <= left
    ensures Taking(track, count, k + 1, left - |track[k].out|, data + track[k].out)
  {
    TakenStep(s, track, k, left);
    hide Flat, Used;
  }

  lemma TakingEnds(track: seq<Taken>, count: nat, k: nat, left: nat, data: seq<OutEvent>)
    requires Taking(track, count, k, left, data) && (left == 0 || k == |track|)
    ensures k == Used(track, count) && data == Flat(track[..k])
  {
  }

  /** The k-th event is taken from the clock its predecessors left. */
  lemma {:induction false} TrackAt(s: Clock, q: seq<CwEvent>, turns: seq<Turn>, k: nat)
    requires Shaped(s) && Feasible(s, q, turns) && k < |q|
    ensures var s1 := ClockAfter(s, Track(s, q, turns)[..k]);
            && Shaped(s1) && Feasible1(s1, q[k], turns[k])
            && Track(s, q, turns)[k] == Taken(After(s1, q[k], turns[k]), Output(s1, q[k], turns[k]))
    decreases k
  {
    if k > 0 {
      var s1 := After(s, q[0], turns[0]);
      TrackAt(s1, q[1..], turns[1..], k - 1);
      var rest := Track(s1, q[1..], turns[1..])[..k - 1];
      Prepend(Taken(s1, Output(s, q[0], turns[0])), rest);
      assert Track(s, q, turns)[..k] == [Taken(s1, Output(s, q[0], turns[0]))] + rest;
    }
  }

  lemma {:induction false} LeadSplits(s: Clock, before: seq<Action>, resync: seq<Action>, id: nat, mcu: nat,
                                      between: seq<Action>)
    requires Shaped(s) && Possible(s, before + (resync + ([Compute(id, mcu)] + between)))
    ensures Possible(s, before)
    ensures Possible(Run(s, before), resync)
    ensures var s2 := Run(Run(s, before), resync);
            && Allowed(s2, Compute(id, mcu))
            && Possible(Step(s2, Compute(id, mcu)), between)
            && Run(s, before + (resync + ([Compute(id, mcu)] + between))) ==
               Run(Step(s2, Compute(id, mcu)), between)
  {
    var tail := [Compute(id, mcu)] + between;
    RunSplit(s, before, resync + tail);
    RunSplit(Run(s, before), resync, tail);
    assert tail[1..] == between;
  }

  lemma {:induction false} TurnIsLogged(s: Clock, e: CwEvent, t: Turn)
    requires Inv(s) && Feasible1(s, e, t)
    requires Quiet(t)
    ensures Inv(After(s, e, t))
    ensures Stamps(After(s, e, t).log) == Stamps(s.log) + Readings(Output(s, e, t))
  {
    RunKeepsInv(s, TurnRun(s, e, t));
    LogGrowsByOutput(s, e, t);
  }

  /** Without a reset, the times handed to the caller are the log the clock keeps, which
      TimestampsNeverRunBackwards orders. */
  lemma {:induction false} BatchIsLogged(s: Clock, q: seq<CwEvent>, turns: seq<Turn>, used: nat)
    requires Inv(s) && Feasible(s, q, turns) && used <= |q|
    requires forall i :: 0 <= i < |turns| ==> Quiet(turns[i])
    ensures var track := Track(s, q, turns)[..used];
            var s' := ClockAfter(s, track);
            Inv(s') && Stamps(s'.log) == Stamps(s.log) + Readings(Flat(track))
  {
    assert Shaped(s);
    hide Inv, Stamps, Readings, Flat, After, Output, Track, Quiet;
    var track := Track(s, q, turns);
    if used == 0 {
      assert Readings(Flat(track[..0])) == [] by { NothingTaken(track); }
    } else {
      var k := used - 1;
      BatchIsLogged(s, q, turns, k);
      var s1 := ClockAfter(s, track[..k]);
      TrackAt(s, q, turns, k);
      TurnIsLogged(s1, q[k], turns[k]);
      TakenStep(s, track, k, 1);
      ReadingsAppend(Flat(track[..k]), track[k].out);
      Chained(Stamps(s.log), Readings(Flat(track[..k])), Readings(track[k].out));
    }
  }

  lemma NothingTaken(track: seq<Taken>)
    ensures Readings(Flat(track[..0])) == []
  {
  }

  lemma Chained<T>(a: seq<T>, b: seq<T>, c: seq<T>)
    ensures (a + b) + c == a + (b + c)
  {
  }

  class CwMcuSensor {
    var slope: real
    var offset: int
    var lastMcuSync: nat
    var lastCpuSync: nat
    const offsetReset: array<bool>
    const lastMcu: array<nat>
    const lastCpu: array<nat>
    var enabled: set<nat>
    var now: nat
    var reader: Reader
    ghost var log: seq<Delivery>
    const ring: InputEventCircularReader<CwEvent>

    ghost predicate Sized()
      reads this
    {
      && offsetReset.Length == lastMcu.Length == lastCpu.Length == NUM_SENSORS
      && lastMcu != lastCpu
      && (reader.Computed? ==> reader.id < NUM_SENSORS)
    }

    ghost predicate Valid()
      reads this, ring
    {
      Sized() && ring.Valid()
    }

    ghost function State(): (s: Clock)
      requires Sized()
      reads this, offsetReset, lastMcu, lastCpu
      ensures Shaped(s)
    {
      Clock(slope, offset, lastMcuSync, lastCpuSync, offsetReset[..], lastMcu[..], lastCpu[..],
            enabled, now, reader, log)
    }

    constructor (bufferSize: nat)
      ensures Valid() && State() == INITIAL
      ensures ring.Contents() == [] && ring.capacity == bufferSize
      ensures fresh(offsetReset) && fresh(lastMcu) && fresh(lastCpu) && fresh(ring) && fresh(ring.buffer)
    {
      ring := new InputEventCircularReader<CwEvent>(bufferSize);
      slope, offset, lastMcuSync, lastCpuSync := 1.0, 0, 0, 0;
      offsetReset := new bool[NUM_SENSORS](_ => true);
      lastMcu := new nat[NUM_SENSORS](_ => 0);
      lastCpu := new nat[NUM_SENSORS](_ => 0);
      enabled, now, reader, log := {}, 0, Idle, [];
    }

    method SyncTimeThread(mcuNow: nat, cpuNow: nat)
      requires Sized()
      modifies this, offsetReset, lastMcu, lastCpu
      ensures Sized() && State() == SyncTime(old(State()), mcuNow, cpuNow)
    {
      if mcuNow == 0 {
        slope := 1.0;
        log := [];
        forall i | 0 <= i < NUM_SENSORS { lastMcu[i] := 0; }
        forall i | 0 <= i < NUM_SENSORS { lastCpu[i] := 0; }
      } else if mcuNow <= lastMcuSync || lastMcuSync == 0 {
        slope := 1.0;
        offset := cpuNow - mcuNow;
      } else {
        slope := Unsigned(cpuNow - lastCpuSync) as real / (mcuNow - lastMcuSync) as real;
        offset := cpuNow - mcuNow;
      }
      forall i | 0 <= i < NUM_SENSORS { offsetReset[i] := true; }
      lastMcuSync := mcuNow;
      lastCpuSync := cpuNow;
    }

    method ComputeTime(id: nat, mcu: nat)
      requires Sized() && Allowed(State(), Compute(id, mcu))
      modifies this, offsetReset
      ensures Sized() && State() == Step(old(State()), Compute(id, mcu))
    {
      ghost var s := State();
      var cpu: nat;
      if offsetReset[id] {
        offsetReset[id] := false;
        cpu := Unsigned(mcu + offset);
        if cpu <= lastCpu[id] {
          cpu := Unsigned(lastCpu[id] + CpuDiff(mcu - lastMcu[id], slope));
        }
      } else {
        cpu := Unsigned(lastCpu[id] + CpuDiff(mcu - lastMcu[id], slope));
      }
      reader := Computed(id, mcu, cpu);
      assert offsetReset[..] == s.offsetReset[id := false];
    }

    method StoreAndDeliver(clock: nat, fdOk: bool) returns (delivered: bool, time: nat)
      requires Sized() && Allowed(State(), Store(clock, fdOk))
      modifies this, lastMcu, lastCpu
      ensures Sized() && State() == Step(old(State()), Store(clock, fdOk))
      ensures delivered == (old(reader).id in old(enabled))
      ensures time == lastCpu[old(reader).id] == (if clock > old(reader).cpu then old(reader).cpu else clock)
      ensures lastMcu[old(reader).id] == old(reader).mcu && reader == Idle
      ensures enabled == if delivered && old(reader).id == 20 && fdOk then old(enabled) - {20} else old(enabled)
      ensures delivered ==> log == old(log) + [Delivery(old(reader).id, time, clock)]
      ensures !delivered ==> log == old(log)
    {
      var id := reader.id;
      time := if clock > reader.cpu then reader.cpu else clock;
      lastMcu[id] := reader.mcu;
      lastCpu[id] := time;
      now := clock;
      reader := Idle;
      delivered := id in enabled;
      if delivered {
        log := log + [Delivery(id, time, clock)];
        if id == CW_SIGNIFICANT_MOTION && fdOk {
          enabled := enabled - {id};
        }
      }
    }

    method SetEnabled(what: nat, en: bool, fdOk: bool) returns (r: int)
      requires Sized()
      modifies this, offsetReset
      ensures Sized() && State() == Enable(old(State()), what, en, fdOk)
      ensures r == if what < NUM_SENSORS then 0 else -EINVAL
      ensures r == 0 ==>
                && enabled == (if !fdOk then old(enabled) else if en then old(enabled) + {what} else old(enabled) - {what})
                && (en ==> offsetReset[what])
    {
      if what >= NUM_SENSORS {
        return -EINVAL;
      }
      if en {
        offsetReset[what] := true;
      }
      if fdOk {
        if en {
          enabled := enabled + {what};
        } else {
          enabled := enabled - {what};
        }
      }
      r := 0;
    }

    /** Steps other threads take at this point of the reader's code. */
    method LetOthersRun(run: seq<Action>)
      requires Sized() && Outside(run) && Possible(State(), run)
      modifies this, offsetReset, lastMcu, lastCpu
      ensures Sized() && State() == Run(old(State()), run)
      decreases |run|
    {
      if run == [] {
        return;
      }
      ghost var s1 := Step(State(), run[0]);
      match run[0] {
        case Sync(mcu, cpu) => SyncTimeThread(mcu, cpu);
        case SetEnable(what, en, ok) => var _ := SetEnabled(what, en, ok);
      }
      assert State() == s1;
      LetOthersRun(run[1..]);
    }

    /** From the ring to the computed but not yet stored time. */
    method Approach(id: nat, mcu: nat, t: Turn)
      requires Sized() && Feasible1(State(), Sample(id, mcu), t)
      requires Possible(State(), Lead(State(), id, mcu, t))
      modifies this, offsetReset, lastMcu, lastCpu
      ensures Sized() && State() == Run(old(State()), Lead(old(State()), id, mcu, t))
    {
      ghost var s := State();
      ghost var resync := if mcu < Run(s, t.before).lastMcu[id] then t.resync else [];
      assert Lead(s, id, mcu, t) == t.before + (resync + ([Compute(id, mcu)] + t.between));
      LeadSplits(s, t.before, resync, id, mcu, t.between);
      LetOthersRun(t.before);
      if mcu < lastMcu[id] {
        LetOthersRun(t.resync);
      }
      assert State() == Run(Run(s, t.before), resync);
      ComputeTime(id, mcu);
      LetOthersRun(t.between);
    }

    /** The translation of one sample, between leaving the ring and reaching the caller. */
    method Translate(id: nat, mcu: nat, t: Turn) returns (out: seq<OutEvent>)
      requires Sized() && Feasible1(State(), Sample(id, mcu), t)
      modifies this, offsetReset, lastMcu, lastCpu
      ensures Sized()
      ensures State() == After(old(State()), Sample(id, mcu), t)
      ensures out == Output(old(State()), Sample(id, mcu), t)
    {
      LeadComputes(State(), id, mcu, t);
      Approach(id, mcu, t);
      var delivered, time := StoreAndDeliver(t.now, t.fdOk);
      out := if delivered then [Reading(id, time)] else [];
    }

    /** The queue after the fill, when the fill does not fail. */
    ghost function Incoming(input: ReadResult<CwEvent>): seq<CwEvent>
      requires Valid()
      reads this, ring, ring.buffer
    {
      ring.Contents() + if input.Bytes? then input.whole else []
    }

    /** One pass of the loop: the oldest event leaves the ring. */
    method TakeOne(slot: nat, t: Turn) returns (out: seq<OutEvent>)
      requires Valid() && ring.Contents() != []
      requires slot < ring.buffer.Length && ring.buffer[slot] == ring.Contents()[0]
      requires Feasible1(State(), ring.Contents()[0], t)
      modifies this, offsetReset, lastMcu, lastCpu, ring
      ensures Valid() && ring.Contents() == old(ring.Contents()[1..])
      ensures State() == After(old(State()), old(ring.Contents()[0]), t)
      ensures out == Output(old(State()), old(ring.Contents()[0]), t)
    {
      match ring.buffer[slot] {
        case MetaData(sensor) =>
          LetOthersRun(t.before);
          out := [FlushComplete(sensor)];
        case TimeMarker =>
          LetOthersRun(t.before);
          out := [];
        case Sample(id, mcu) =>
          out := Translate(id, mcu, t);
      }
      ring.Next();
    }

    /** k events of `q` have been taken since the clock was `s`. */
    ghost predicate Reached(s: Clock, q: seq<CwEvent>, track: seq<Taken>, k: nat)
      requires k <= |q| == |track|
      reads this, offsetReset, lastMcu, lastCpu, ring, ring.buffer
    {
      Valid() && ring.Contents() == q[k..] && State() == ClockAfter(s, track[..k])
    }

    method Pass(ghost s: Clock, ghost q: seq<CwEvent>, ghost track: seq<Taken>, turns: seq<Turn>,
                k: nat, left: nat)
      returns (more: bool, out: seq<OutEvent>)
      requires Shaped(s) && Feasible(s, q, turns) && track == Track(s, q, turns)
      requires k <= |q| && Reached(s, q, track, k)
      modifies this, offsetReset, lastMcu, lastCpu, ring
      ensures more == (left > 0 && k < |q|)
      ensures !more ==> Reached(s, q, track, k)
      ensures more ==> Reached(s, q, track, k + 1) && out == track[k].out
    {
      assert |q| <= |turns|;
      hide Track, After, Output, Feasible, Feasible1, Flat, Used;
      var available, slot := ring.ReadEvent();
      more := left != 0 && available != 0;
      out := [];
      if more {
        TrackAt(s, q, turns, k);
        TakenStep(s, track, k, 1);
        out := TakeOne(slot, turns[k]);
      }
    }

    /** The loop of readEvents, from clock `s` and queue `q`. */
    method Drain(ghost s: Clock, ghost q: seq<CwEvent>, ghost track: seq<Taken>, count: nat, turns: seq<Turn>)
      returns (data: seq<OutEvent>, ghost used: nat)
      requires Shaped(s) && Feasible(s, q, turns) && track == Track(s, q, turns)
      requires Reached(s, q, track, 0)
      modifies this, offsetReset, lastMcu, lastCpu, ring
      ensures used == Used(track, count)
      ensures data == Flat(track[..used])
      ensures Reached(s, q, track, used)
    {
      var left, k := count, 0;
      data := [];
      TakingStarts(track, count);
      assert |track| == |q|;
      hide *;
      var more := true;
      while more
        invariant 0 <= k <= |q| && 0 <= left && Reached(s, q, track, k)
        invariant Taking(track, count, k, left, data)
        invariant !more ==> left == 0 || k == |q|
        decreases |q| - k, more
      {
        var out;
        more, out := Pass(s, q, track, turns, k, left);
        if more {
          TakingGoesOn(s, track, count, k, left, data);
          data := data + out;
          left := left - |out|;
          k := k + 1;
        }
      }
      TakingEnds(track, count, k, left, data);
      used := k;
    }

    /** Fills the ring once, then takes events from it. */
    method ReadEvents(count: int, input: ReadResult<CwEvent>, turns: seq<Turn>)
      returns (r: int, data: seq<OutEvent>, ghost used: nat)
      requires Valid() && input.Within(ring.freeSpace)
      requires Feasible(State(), Incoming(input), turns)
      modifies this, offsetReset, lastMcu, lastCpu, ring, ring.buffer
      ensures Valid()
      ensures count < 1 ==> r == -EINVAL
      ensures r < 0 ==> data == [] && State() == old(State()) && ring.Contents() == old(ring.Contents())
      ensures r >= 0 ==>
                var track := Track(old(State()), old(Incoming(input)), turns);
                && r == |data| <= count
                && used == Used(track, count)
                && data == Flat(track[..used])
                && Reached(old(State()), old(Incoming(input)), track, used)
    {
      data, used := [], 0;
      if count < 1 {
        return -EINVAL, [], 0;
      }
      var n := ring.Fill(input);
      if n < 0 {
        return n, [], 0;
      }
      hide Track, Feasible, Flat, Used;
      ghost var s, q := State(), old(Incoming(input));
      ghost var track := Track(s, q, turns);
      assert q[0..] == q;
      data, used := Drain(s, q, track, count, turns);
      r := |data|;
      ReturnsAtMostCount(track, count);
    }
  }
}

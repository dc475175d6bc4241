/** Translation of sensor-hub time to CPU time.  The reader of events, the thread that
    re-bases the clock and the callers that enable sensors interleave; an action below
    is the code one of them runs between taking and releasing a mutex. */
module SensorClock {
  const NUM_SENSORS: nat := 55
  const CW_SIGNIFICANT_MOTION: nat := 20
  const TWO_63: nat := 0x8000_0000_0000_0000
  const TWO_64: nat := 0x1_0000_0000_0000_0000

  /** The reader between its two mutexes: it has computed a time it has not stored. */
  datatype Reader = Idle | Computed(id: nat, mcu: nat, cpu: nat)

  datatype Delivery = Delivery(id: nat, time: nat, now: nat)

  /** The fields of CwMcuSensor, the last clock reading `now`, and the log of the
      timestamps delivered since the last reset of the hub. */
  datatype Clock = Clock(
    slope: real, offset: int, lastMcuSync: nat, lastCpuSync: nat,
    offsetReset: seq<bool>, lastMcu: seq<nat>, lastCpu: seq<nat>,
    enabled: set<nat>, now: nat, reader: Reader, log: seq<Delivery>)

  datatype Action =
    | Sync(mcuNow: nat, cpuNow: nat)
    | Compute(id: nat, mcu: nat)
    | Store(now: nat, fdOk: bool)
    | SetEnable(what: nat, en: bool, ok: bool)
  {
    /** What the threads other than the reader may do. */
    predicate ByOthers() {
      Sync? || SetEnable?
    }
  }

  ghost predicate Shaped(s: Clock) {
    && |s.offsetReset| == |s.lastMcu| == |s.lastCpu| == NUM_SENSORS
    && (s.reader.Computed? ==> s.reader.id < NUM_SENSORS)
  }

  const INITIAL := Clock(1.0, 0, 0, 0,
                         seq(NUM_SENSORS, _ => true), seq(NUM_SENSORS, _ => 0), seq(NUM_SENSORS, _ => 0),
                         {}, 0, Idle, [])

  /** C's conversion of a floating-point value to a signed integer. */
  function Trunc(x: real): (r: int) {
    if x >= 0.0 then x.Floor else -(-x).Floor
  }

  /** The CPU time that passes during `mcuDiff` of hub time, as a signed 64-bit value; the
      conversion saturates. */
  function CpuDiff(mcuDiff: int, slope: real): int {
    var d := Trunc(mcuDiff as real * slope);
    if d >= TWO_63 then TWO_63 - 1 else d
  }

  /** A signed result kept in an unsigned 64-bit variable. */
  function Unsigned(x: int): nat {
    x % TWO_64
  }

  function SyncTime(s: Clock, mcu: nat, cpu: nat): Clock {
    var s1 :=
      if mcu == 0 then
        s.(slope := 1.0, lastMcu := seq(NUM_SENSORS, _ => 0), lastCpu := seq(NUM_SENSORS, _ => 0), log := [])
      else if mcu <= s.lastMcuSync || s.lastMcuSync == 0 then
        s.(slope := 1.0, offset := cpu - mcu)
      else
        s.(slope := Unsigned(cpu - s.lastCpuSync) as real / (mcu - s.lastMcuSync) as real, offset := cpu - mcu);
    s1.(offsetReset := seq(NUM_SENSORS, _ => true), lastMcuSync := mcu, lastCpuSync := cpu)
  }

  function Extrapolate(s: Clock, id: nat, mcu: nat): nat
    requires Shaped(s) && id < NUM_SENSORS
  {
    Unsigned(s.lastCpu[id] + CpuDiff(mcu - s.lastMcu[id], s.slope))
  }

  function CpuTime(s: Clock, id: nat, mcu: nat): nat
    requires Shaped(s) && id < NUM_SENSORS
  {
    var rebased := Unsigned(mcu + s.offset);
    if s.offsetReset[id] && rebased > s.lastCpu[id] then rebased else Extrapolate(s, id, mcu)
  }

  function StoreTime(s: Clock, now: nat, fdOk: bool): Clock
    requires Shaped(s) && s.reader.Computed?
  {
    var id := s.reader.id;
    var cpu := if now > s.reader.cpu then s.reader.cpu else now;
    s.(lastMcu := s.lastMcu[id := s.reader.mcu], lastCpu := s.lastCpu[id := cpu], now := now, reader := Idle,
       log := if id in s.enabled then s.log + [Delivery(id, cpu, now)] else s.log,
       enabled := if id == CW_SIGNIFICANT_MOTION && fdOk then s.enabled - {id} else s.enabled)
  }

  function Enable(s: Clock, what: nat, en: bool, ok: bool): Clock
    requires Shaped(s)
  {
    if what >= NUM_SENSORS then s
    else s.(offsetReset := if en then s.offsetReset[what := true] else s.offsetReset,
            enabled := if !ok then s.enabled else if en then s.enabled + {what} else s.enabled - {what})
  }

  /** What the kernel, the hub and the reader's own order guarantee: the reader's clock readings
      and the hub times of one sensor do not run backwards, and fit a signed 64-bit value.  A sync
      reads hub and clock before it takes the mutex, so two of them may be applied in the other
      order, the clock going back while the hub's time goes on. */
  ghost predicate Allowed(s: Clock, a: Action)
    requires Shaped(s)
  {
    match a
    case Sync(_, _) => true
    case Compute(id, mcu) =>
      s.reader.Idle? && id < NUM_SENSORS && s.lastMcu[id] <= mcu < TWO_63
    case Store(now, _) => s.reader.Computed? && s.now <= now < TWO_63
    case SetEnable(_, _, _) => true
  }

  ghost function Step(s: Clock, a: Action): (s': Clock)
    requires Shaped(s) && Allowed(s, a)
    ensures Shaped(s')
  {
    match a
    case Sync(mcu, cpu) => SyncTime(s, mcu, cpu)
    case Compute(id, mcu) =>
      s.(reader := Computed(id, mcu, CpuTime(s, id, mcu)), offsetReset := s.offsetReset[id := false])
    case Store(now, fdOk) => StoreTime(s, now, fdOk)
    case SetEnable(what, en, ok) => Enable(s, what, en, ok)
  }

  ghost predicate Possible(s: Clock, run: seq<Action>)
    requires Shaped(s)
    decreases |run|
  {
    run == [] || (Allowed(s, run[0]) && Possible(Step(s, run[0]), run[1..]))
  }

  ghost function Run(s: Clock, run: seq<Action>): (s': Clock)
    requires Shaped(s) && Possible(s, run)
    ensures Shaped(s')
    decreases |run|
  {
    if run == [] then s else Run(Step(s, run[0]), run[1..])
  }

  /** Each sensor's timestamps never decrease, and none lies in the future. */
  ghost predicate Monotone(log: seq<Delivery>) {
    && (forall i, j :: 0 <= i < j < |log| && log[i].id == log[j].id ==> log[i].time <= log[j].time)
    && (forall i :: 0 <= i < |log| ==> log[i].time <= log[i].now)
  }

  ghost predicate Inv(s: Clock) {
    && Shaped(s)
    && s.slope >= 0.0 && s.now < TWO_63
    && (forall i :: 0 <= i < NUM_SENSORS ==> s.lastCpu[i] <= s.now)
    && (s.reader.Computed? ==> s.lastCpu[s.reader.id] <= s.reader.cpu)
    && (forall i :: 0 <= i < |s.log| ==> s.log[i].id < NUM_SENSORS && s.log[i].time <= s.lastCpu[s.log[i].id])
    && Monotone(s.log)
  }

  /** Whatever hub time and clock a sync brings, also an older clock with a newer hub time: the
      difference is unsigned. */
  lemma {:induction false} SlopeNeverNegative(s: Clock, mcu: nat, cpu: nat)
    requires Inv(s)
    ensures Inv(SyncTime(s, mcu, cpu))
  {
  }

  lemma {:induction false} TranslationDoesNotStepBack(s: Clock, id: nat, mcu: nat)
    requires Inv(s) && Allowed(s, Compute(id, mcu))
    ensures s.lastCpu[id] <= CpuTime(s, id, mcu)
  {
  }

  lemma {:induction false} StepKeepsInv(s: Clock, a: Action)
    requires Inv(s) && Allowed(s, a)
    ensures Inv(Step(s, a))
  {
    match a
    case Sync(mcu, cpu) => SlopeNeverNegative(s, mcu, cpu);
    case Compute(id, mcu) => TranslationDoesNotStepBack(s, id, mcu);
    case Store(now, fdOk) =>
    case SetEnable(_, _, _) =>
  }

  lemma {:induction false} RunKeepsInv(s: Clock, run: seq<Action>)
    requires Inv(s) && Possible(s, run)
    ensures Inv(Run(s, run))
    decreases |run|
  {
    if run != [] {
      StepKeepsInv(s, run[0]);
      RunKeepsInv(Step(s, run[0]), run[1..]);
    }
  }

  lemma {:induction false} TimestampsNeverRunBackwards(run: seq<Action>)
    requires Possible(INITIAL, run)
    ensures Monotone(Run(INITIAL, run).log)
    ensures Run(INITIAL, run).slope >= 0.0
  {
    RunKeepsInv(INITIAL, run);
  }

  // ---- the translation is right

  /** A sync measures how fast the CPU's clock runs against the hub's since the last one, and how
      far it is ahead. */
  lemma SyncMeasures(s: Clock, mcu: nat, cpu: nat)
    requires Shaped(s) && mcu != 0
    ensures var r := SyncTime(s, mcu, cpu);
            && r.offset == cpu - mcu
            && (0 < s.lastMcuSync < mcu && s.lastCpuSync <= cpu < TWO_64 ==>
                  r.slope * (mcu - s.lastMcuSync) as real == (cpu - s.lastCpuSync) as real)
            && (mcu <= s.lastMcuSync || s.lastMcuSync == 0 ==> r.slope == 1.0)
            && (forall i :: 0 <= i < NUM_SENSORS ==> r.offsetReset[i])
            && r.lastMcuSync == mcu && r.lastCpuSync == cpu && r.lastMcu == s.lastMcu && r.lastCpu == s.lastCpu
  {
  }

  /** A reset of the hub starts every sensor again. */
  lemma ResetForgets(s: Clock, cpu: nat)
    requires Shaped(s)
    ensures var r := SyncTime(s, 0, cpu);
            && r.slope == 1.0 && r.offset == s.offset && r.log == [] && r.lastMcuSync == 0 && r.lastCpuSync == cpu
            && forall i :: 0 <= i < NUM_SENSORS ==> r.offsetReset[i] && r.lastMcu[i] == 0 && r.lastCpu[i] == 0
  {
  }

  lemma UnsignedIs(x: int)
    requires 0 <= x < TWO_64
    ensures Unsigned(x) == x
  {
  }

  /** A difference that fits is the product rounded down. */
  lemma CpuDiffFloors(mcuDiff: nat, slope: real)
    requires slope >= 0.0 && mcuDiff as real * slope < TWO_63 as real
    ensures var d := CpuDiff(mcuDiff, slope);
            0 <= d < TWO_63 && d as real <= mcuDiff as real * slope < d as real + 1.0
  {
  }

  /** The first event of a sensor after a sync is at its hub time and the offset, if that is later
      than the event before.  Otherwise the CPU's time goes on from there by the hub's time at the
      measured rate, rounded down. */
  lemma TimeAdvances(s: Clock, id: nat, mcu: nat)
    requires Inv(s) && Allowed(s, Compute(id, mcu))
    requires (mcu - s.lastMcu[id]) as real * s.slope < TWO_63 as real && 0 <= mcu + s.offset < TWO_64
    ensures var time, passed := CpuTime(s, id, mcu), (mcu - s.lastMcu[id]) as real * s.slope;
            if s.offsetReset[id] && s.lastCpu[id] < mcu + s.offset then time == mcu + s.offset
            else (time - s.lastCpu[id]) as real <= passed < (time - s.lastCpu[id]) as real + 1.0
  {
    CpuDiffFloors(mcu - s.lastMcu[id], s.slope);
    UnsignedIs(mcu + s.offset);
    var diff := CpuDiff(mcu - s.lastMcu[id], s.slope);
    UnsignedIs(s.lastCpu[id] + diff);
    hide Unsigned, CpuDiff, Inv;
    assert CpuTime(s, id, mcu) == (if s.offsetReset[id] && s.lastCpu[id] < mcu + s.offset then mcu + s.offset else s.lastCpu[id] + diff);
    hide CpuTime;
  }

  /** The sensor and hub time of what a step delivers. */
  ghost function DeliveredBy(s: Clock, a: Action): seq<(nat, nat)> {
    if a.Store? && s.reader.Computed? && s.reader.id in s.enabled then [(s.reader.id, s.reader.mcu)] else []
  }

  ghost function Delivered(s: Clock, run: seq<Action>): seq<(nat, nat)>
    requires Shaped(s) && Possible(s, run)
    decreases |run|
  {
    if run == [] then [] else DeliveredBy(s, run[0]) + Delivered(Step(s, run[0]), run[1..])
  }

  /** The hub's clock runs as fast as the CPU's and is `ahead` behind it: every sync sees that, no
      event is older than the CPU's clock, and none is read before it happens. */
  ghost predicate SteadyStep(s: Clock, a: Action, ahead: int) {
    match a
    case Sync(mcu, cpu) => mcu > 0 && cpu == mcu + ahead < TWO_63
    case Compute(_, mcu) => 0 < mcu + ahead < TWO_63
    case Store(now, _) => s.reader.Computed? ==> s.reader.mcu + ahead <= now
    case SetEnable(_, _, _) => true
  }

  ghost predicate Steady(s: Clock, run: seq<Action>, ahead: int)
    requires Shaped(s) && Possible(s, run)
    decreases |run|
  {
    run != [] ==> SteadyStep(s, run[0], ahead) && Steady(Step(s, run[0]), run[1..], ahead)
  }

  /** `later` goes on with the events `d`, each at its hub time and `ahead`. */
  ghost predicate Extends(log: seq<Delivery>, later: seq<Delivery>, d: seq<(nat, nat)>, ahead: int) {
    && |later| == |log| + |d| && later[..|log|] == log
    && forall k :: 0 <= k < |d| ==> later[|log| + k].id == d[k].0 && later[|log| + k].time == d[k].1 + ahead
  }

  lemma ExtendsTwice(a: seq<Delivery>, b: seq<Delivery>, c: seq<Delivery>, d: seq<(nat, nat)>, e: seq<(nat, nat)>, ahead: int)
    requires Extends(a, b, d, ahead) && Extends(b, c, e, ahead)
    ensures Extends(a, c, d + e, ahead)
  {
    assert c[..|a|] == c[..|b|][..|a|];
    forall k | 0 <= k < |d| ensures c[|a| + k].id == d[k].0 && c[|a| + k].time == d[k].1 + ahead {
      assert c[..|b|][|a| + k] == b[|a| + k];
    }
  }

  /** Every time known is exact. */
  ghost predicate Exact(s: Clock, ahead: int) {
    && Inv(s) && s.slope == 1.0 && s.offset == ahead
    && s.lastMcuSync > 0 && s.lastCpuSync == s.lastMcuSync + ahead
    && (s.reader.Computed? ==> s.reader.cpu == s.reader.mcu + ahead)
    && forall i :: 0 <= i < NUM_SENSORS ==>
         || s.lastCpu[i] == s.lastMcu[i] + ahead
         || (s.lastCpu[i] == s.lastMcu[i] == 0 && (s.offsetReset[i] || (s.reader.Computed? && s.reader.id == i)))
  }

  lemma SyncIsExact(s: Clock, mcu: nat, cpu: nat, ahead: int)
    requires Exact(s, ahead) && mcu > 0 && cpu == mcu + ahead < TWO_63
    ensures Exact(SyncTime(s, mcu, cpu), ahead)
  {
    SlopeNeverNegative(s, mcu, cpu);
    SyncKeepsRate(s, mcu, cpu, ahead);
    assert Shaped(s);
    hide Inv, Unsigned;
  }

  lemma SelfRatio(d: real)
    requires d != 0.0
    ensures d / d == 1.0
  {
  }

  lemma SyncKeepsRate(s: Clock, mcu: nat, cpu: nat, ahead: int)
    requires s.lastMcuSync > 0 && s.lastCpuSync == s.lastMcuSync + ahead && mcu > 0 && cpu == mcu + ahead < TWO_63
    ensures SyncTime(s, mcu, cpu).slope == 1.0
  {
    if mcu > s.lastMcuSync {
      UnsignedIs(cpu - s.lastCpuSync);
      hide Unsigned;
      var d := (mcu - s.lastMcuSync) as real;
      assert SyncTime(s, mcu, cpu).slope == d / d;
      SelfRatio(d);
    }
  }

  lemma CpuDiffAtRateOne(d: nat)
    requires d < TWO_63
    ensures CpuDiff(d, 1.0) == d
  {
    assert d as real * 1.0 == d as real;
  }

  lemma ExactTime(s: Clock, id: nat, mcu: nat, ahead: int)
    requires Exact(s, ahead) && Allowed(s, Compute(id, mcu)) && 0 < mcu + ahead < TWO_63
    ensures CpuTime(s, id, mcu) == mcu + ahead
  {
    CpuDiffAtRateOne(mcu - s.lastMcu[id]);
    UnsignedIs(mcu + ahead);
    UnsignedIs(s.lastCpu[id] + (mcu - s.lastMcu[id]));
    hide CpuDiff, Unsigned;
  }

  lemma ComputeIsExact(s: Clock, id: nat, mcu: nat, ahead: int)
    requires Exact(s, ahead) && Allowed(s, Compute(id, mcu)) && 0 < mcu + ahead < TWO_63
    ensures Exact(Step(s, Compute(id, mcu)), ahead)
  {
    StepKeepsInv(s, Compute(id, mcu));
    ExactTime(s, id, mcu, ahead);
    assert Shaped(s);
    hide Inv, CpuTime;
  }

  lemma StoreIsExact(s: Clock, now: nat, fdOk: bool, ahead: int)
    requires Exact(s, ahead) && Allowed(s, Store(now, fdOk)) && s.reader.mcu + ahead <= now
    ensures Exact(Step(s, Store(now, fdOk)), ahead)
  {
    StepKeepsInv(s, Store(now, fdOk));
    assert Shaped(s);
    hide Inv;
  }

  lemma EnableIsExact(s: Clock, a: Action, ahead: int)
    requires Exact(s, ahead) && a.SetEnable?
    ensures Exact(Step(s, a), ahead)
  {
    StepKeepsInv(s, a);
    assert Shaped(s);
    hide Inv;
  }

  lemma StepDelivers(s: Clock, a: Action, ahead: int)
    requires Exact(s, ahead) && Allowed(s, a) && SteadyStep(s, a, ahead)
    ensures Extends(s.log, Step(s, a).log, DeliveredBy(s, a), ahead)
  {
    assert Shaped(s);
    hide Inv, CpuTime;
  }

  lemma StepIsExact(s: Clock, a: Action, ahead: int)
    requires Exact(s, ahead) && Allowed(s, a) && SteadyStep(s, a, ahead)
    ensures Exact(Step(s, a), ahead)
  {
    match a {
      case Sync(mcu, cpu) => SyncIsExact(s, mcu, cpu, ahead);
      case Compute(id, mcu) => ComputeIsExact(s, id, mcu, ahead);
      case Store(now, fdOk) => StoreIsExact(s, now, fdOk, ahead);
      case SetEnable(_, _, _) => EnableIsExact(s, a, ahead);
    }
  }

  /** Against a hub clock that does not drift, from the first sync on every delivered time is its
      event's hub time on the CPU's clock, exactly; every stored event of an enabled sensor is
      delivered, and nothing else. */
  lemma {:induction false} SteadyClockIsExact(s: Clock, run: seq<Action>, ahead: int)
    requires Exact(s, ahead) && Possible(s, run) && Steady(s, run, ahead)
    ensures Extends(s.log, Run(s, run).log, Delivered(s, run), ahead)
    decreases |run|
  {
    assert Shaped(s);
    hide Exact, Extends, Step, Allowed, SteadyStep, DeliveredBy;
    if run == [] {
      assert Extends(s.log, s.log, [], ahead) by { NothingAdded(s.log, ahead); }
    } else {
      StepIsExact(s, run[0], ahead);
      StepDelivers(s, run[0], ahead);
      SteadyClockIsExact(Step(s, run[0]), run[1..], ahead);
      ExtendsTwice(s.log, Step(s, run[0]).log, Run(s, run).log, DeliveredBy(s, run[0]), Delivered(Step(s, run[0]), run[1..]), ahead);
    }
  }

  lemma NothingAdded(log: seq<Delivery>, ahead: int)
    ensures Extends(log, log, [], ahead)
  {
  }

  /** So it is from the start, once the first sync has been made. */
  lemma TimesAreExactFromFirstSync(mcu: nat, cpu: nat, run: seq<Action>)
    requires 0 < mcu && cpu < TWO_63
    requires var s := SyncTime(INITIAL, mcu, cpu); Possible(s, run) && Steady(s, run, cpu - mcu)
    ensures var s := SyncTime(INITIAL, mcu, cpu); Extends([], Run(s, run).log, Delivered(s, run), cpu - mcu)
  {
    var s := SyncTime(INITIAL, mcu, cpu);
    SlopeNeverNegative(INITIAL, mcu, cpu);
    SteadyClockIsExact(s, run, cpu - mcu);
  }

  lemma {:induction false} RunSplit(s: Clock, first: seq<Action>, second: seq<Action>)
    requires Shaped(s) && Possible(s, first + second)
    ensures Possible(s, first) && Possible(Run(s, first), second)
    ensures Run(s, first + second) == Run(Run(s, first), second)
    decreases |first|
  {
    if first == [] {
      assert first + second == second;
    } else {
      assert (first + second)[0] == first[0] && (first + second)[1..] == first[1..] + second;
      RunSplit(Step(s, first[0]), first[1..], second);
    }
  }

  ghost predicate NoReset(run: seq<Action>) {
    forall i :: 0 <= i < |run| && run[i].Sync? ==> run[i].mcuNow != 0
  }

  /** Only the reader delivers, and only a reset of the hub ends the log. */
  lemma {:induction false} OthersLeaveTheLog(s: Clock, run: seq<Action>)
    requires Shaped(s) && Possible(s, run) && NoReset(run)
    requires forall i :: 0 <= i < |run| ==> !run[i].Store?
    ensures Run(s, run).log == s.log
    decreases |run|
  {
    if run != [] {
      assert forall i :: 0 <= i < |run[1..]| ==> run[1..][i] == run[i + 1];
      OthersLeaveTheLog(Step(s, run[0]), run[1..]);
    }
  }

  lemma {:induction false} OthersLeaveTheReader(s: Clock, run: seq<Action>)
    requires Shaped(s) && Possible(s, run)
    requires forall i :: 0 <= i < |run| ==> run[i].ByOthers()
    ensures Run(s, run).reader == s.reader
    decreases |run|
  {
    if run != [] {
      assert forall i :: 0 <= i < |run[1..]| ==> run[1..][i] == run[i + 1];
      OthersLeaveTheReader(Step(s, run[0]), run[1..]);
    }
  }
}

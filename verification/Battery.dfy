/** The battery level governor: what healthd reports is the gauge's level, rate-limited,
    held against the direction of the charge and forced down at a critical voltage. */
module Battery {
  import opened Wrappers

  const BATTERY_FULL := 100
  const BATTERY_LOW := 15
  const BATTERY_CRITICAL_LOW_MV := 3000
  const BATTERY_DEAD_MV := 2800
  const NORMAL_MAX_SOC_DEC := 2
  const CRITICAL_LOW_FORCE_SOC_DROP := 6
  const UPDATE_PERIOD_MINIMUM_S := 55
  const BATTERY_OVERTEMP_THRESHOLD := 550
  const BATTERY_UNDERTEMP_THRESHOLD := 0

  datatype Status = Unknown | Charging | Discharging | NotCharging | Full {
    predicate Draining() {
      Discharging? || NotCharging? || Unknown?
    }
  }

  datatype Health = Good | Dead | Overheat | Cold

  datatype Properties = Properties(level: int, status: Status, health: Health, temperature: int, voltage: int)

  /** One poll: the gauge's properties and the uptime, unless sysinfo failed. */
  datatype Reading = Reading(props: Properties, uptime: Option<int>)

  /** The static variables, with every value written to the voltage monitor. */
  datatype Governor = Governor(
    firstUpdateDone: bool, lastSoc: int, lastUpdate: int, forceDecrease: bool,
    monitorVoltage: int, monitorWrites: seq<int>)

  const POWER_ON := Governor(false, 0, 0, false, 0, [])

  function Min(a: int, b: int): int {
    if a < b then a else b
  }

  function Uptime(g: Governor, r: Reading): int {
    if r.uptime.Some? then r.uptime.value else g.lastUpdate
  }

  /** The first poll takes the gauge's level, short of full, as the level last reported. */
  function FirstUpdate(g: Governor, r: Reading): Governor {
    if g.firstUpdateDone then g
    else g.(firstUpdateDone := true, lastSoc := Min(r.props.level, BATTERY_FULL - 1), lastUpdate := Uptime(g, r))
  }

  /** Less than a period has passed since the level last moved. */
  predicate TooSoon(g: Governor, uptime: int) {
    0 < uptime - g.lastUpdate <= UPDATE_PERIOD_MINIMUM_S
  }

  function Target(g: Governor, level: int, status: Status): int {
    if status.Full? then BATTERY_FULL
    else if level >= BATTERY_FULL && g.lastSoc < BATTERY_FULL then BATTERY_FULL - 1
    else level
  }

  function Move(g: Governor, soc: int, uptime: int, force: bool): Governor {
    g.(lastSoc := soc, lastUpdate := uptime, forceDecrease := force)
  }

  /** The level reported is the new `lastSoc`. */
  function SocAdjust(g0: Governor, r: Reading): Governor {
    var g := FirstUpdate(g0, r);
    var uptime := Uptime(g, r);
    var level := if g0.firstUpdateDone then r.props.level else Min(r.props.level, BATTERY_FULL - 1);
    var soc := Target(g, level, r.props.status);
    if !r.props.status.Draining() then
      Move(g, Min(soc, g.lastSoc + 1), uptime, false)
    else if r.props.voltage >= BATTERY_CRITICAL_LOW_MV then
      if soc > g.lastSoc || TooSoon(g, uptime) then g.(forceDecrease := false)
      else Move(g, g.lastSoc - Min(g.lastSoc - soc, NORMAL_MAX_SOC_DEC), uptime, false)
    else if r.props.voltage < BATTERY_DEAD_MV then
      Move(g, 0, uptime, g.forceDecrease)
    else if g.forceDecrease && TooSoon(g, uptime) then g
    else
      Move(g, if g.lastSoc <= CRITICAL_LOW_FORCE_SOC_DROP then 0 else g.lastSoc - CRITICAL_LOW_FORCE_SOC_DROP,
           uptime, true)
  }

  function HealthOf(level: int, temperature: int): Health {
    if level < BATTERY_LOW then Dead
    else if temperature > BATTERY_OVERTEMP_THRESHOLD then Overheat
    else if temperature < BATTERY_UNDERTEMP_THRESHOLD then Cold
    else Good
  }

  function StatusOf(level: int, status: Status): Status {
    if status.Unknown? then Discharging
    else if status.Full? && level < BATTERY_FULL then Charging
    else status
  }

  /** The next voltage below the cell's at which the monitor should wake the system. */
  function MonitorVoltage(level: int, status: Status, voltage: int): int {
    if status.Charging? || status.Full? || level <= 0 then 0
    else if voltage > BATTERY_CRITICAL_LOW_MV then BATTERY_CRITICAL_LOW_MV
    else if voltage > BATTERY_DEAD_MV then BATTERY_DEAD_MV
    else 0
  }

  function Report(g: Governor, r: Reading): Properties {
    var level := SocAdjust(g, r).lastSoc;
    r.props.(level := level, status := StatusOf(level, r.props.status),
             health := HealthOf(level, r.props.temperature))
  }

  function Update(g: Governor, r: Reading): Governor {
    var g1 := SocAdjust(g, r);
    var p := Report(g, r);
    var v := MonitorVoltage(p.level, p.status, p.voltage);
    if v == g1.monitorVoltage then g1
    else g1.(monitorVoltage := v, monitorWrites := g1.monitorWrites + [v])
  }

  class BatteryGovernor {
    var firstUpdateDone: bool
    var lastSoc: int
    var lastUpdate: int
    var forceDecrease: bool
    var monitorVoltage: int
    var monitorWrites: seq<int>

    ghost function State(): Governor
      reads this
    {
      Governor(firstUpdateDone, lastSoc, lastUpdate, forceDecrease, monitorVoltage, monitorWrites)
    }

    constructor ()
      ensures State() == POWER_ON
    {
      firstUpdateDone, lastSoc, lastUpdate, forceDecrease := false, 0, 0, false;
      monitorVoltage, monitorWrites := 0, [];
    }

    method AdjustSoc(props: Properties, uptimeReading: Option<int>) returns (level: int)
      modifies this
      ensures State() == SocAdjust(old(State()), Reading(props, uptimeReading))
      ensures level == lastSoc
    {
      level := props.level;
      var uptime := if uptimeReading.Some? then uptimeReading.value else lastUpdate;
      if !firstUpdateDone {
        if level >= BATTERY_FULL {
          level := BATTERY_FULL - 1;
          lastSoc := BATTERY_FULL - 1;
        } else {
          lastSoc := level;
        }
        lastUpdate := uptime;
        firstUpdateDone := true;
      }

      var soc;
      if props.status.Full? {
        soc := BATTERY_FULL;
      } else if level >= BATTERY_FULL && lastSoc < BATTERY_FULL {
        soc := BATTERY_FULL - 1;
      } else {
        soc := level;
      }

      var hold := false;
      if props.status.Draining() {
        if props.voltage >= BATTERY_CRITICAL_LOW_MV {
          forceDecrease := false;
          var decrease := lastSoc - soc;
          if decrease < 0 {
            hold := true;
          } else if uptime > lastUpdate && uptime - lastUpdate <= UPDATE_PERIOD_MINIMUM_S {
            hold := true;
          } else {
            if decrease > NORMAL_MAX_SOC_DEC {
              decrease := NORMAL_MAX_SOC_DEC;
            }
            soc := lastSoc - decrease;
          }
        } else if props.voltage < BATTERY_DEAD_MV {
          soc := 0;
        } else if forceDecrease && uptime > lastUpdate && uptime - lastUpdate <= UPDATE_PERIOD_MINIMUM_S {
          hold := true;
        } else {
          if lastSoc <= CRITICAL_LOW_FORCE_SOC_DROP {
            soc := 0;
          } else {
            soc := lastSoc - CRITICAL_LOW_FORCE_SOC_DROP;
          }
          forceDecrease := true;
        }
      } else {
        forceDecrease := false;
        if soc > lastSoc {
          soc := lastSoc + 1;
        }
      }

      if hold {
        soc := lastSoc;
      } else {
        lastUpdate := uptime;
      }
      lastSoc := soc;
      level := soc;
    }

    method CheckVoltageMonitor(props: Properties)
      modifies this`monitorVoltage, this`monitorWrites
      ensures monitorVoltage == MonitorVoltage(props.level, props.status, props.voltage)
      ensures monitorWrites ==
              if monitorVoltage == old(monitorVoltage) then old(monitorWrites)
              else old(monitorWrites) + [monitorVoltage]
    {
      var voltage := 0;
      if !props.status.Charging? && !props.status.Full? && props.level > 0 {
        if props.voltage > BATTERY_CRITICAL_LOW_MV {
          voltage := BATTERY_CRITICAL_LOW_MV;
        } else if props.voltage > BATTERY_DEAD_MV {
          voltage := BATTERY_DEAD_MV;
        }
      }
      if voltage != monitorVoltage {
        monitorWrites := monitorWrites + [voltage];
        monitorVoltage := voltage;
      }
    }

    method Monitor(props: Properties, uptime: Option<int>) returns (out: Properties)
      modifies this
      ensures State() == Update(old(State()), Reading(props, uptime))
      ensures out == Report(old(State()), Reading(props, uptime))
    {
      var level := AdjustSoc(props, uptime);
      out := props.(level := level);

      if out.level >= BATTERY_FULL {
        out := out.(health := Good);
      } else if out.level < BATTERY_LOW {
        out := out.(health := Dead);
      } else {
        out := out.(health := Good);
      }
      if out.health == Good {
        if out.temperature > BATTERY_OVERTEMP_THRESHOLD {
          out := out.(health := Overheat);
        } else if out.temperature < BATTERY_UNDERTEMP_THRESHOLD {
          out := out.(health := Cold);
        }
      }

      if out.status.Unknown? {
        out := out.(status := Discharging);
      } else if out.status.Full? && out.level < BATTERY_FULL {
        out := out.(status := Charging);
      }
      CheckVoltageMonitor(out);
    }
  }

  function Run(g: Governor, readings: seq<Reading>): Governor
    decreases |readings|
  {
    if readings == [] then g else Run(Update(g, readings[0]), readings[1..])
  }

  /** Every poll of the run drains the battery at a voltage from `low` up to below `high`,
      and the clock moves on between polls. */
  ghost predicate Draining(g: Governor, readings: seq<Reading>, low: int, high: Option<int>) {
    && g.firstUpdateDone
    && (forall i :: 0 <= i < |readings| ==>
          && readings[i].props.status.Draining()
          && low <= readings[i].props.voltage
          && (high.Some? ==> readings[i].props.voltage < high.value)
          && readings[i].uptime.Some? && g.lastUpdate < readings[i].uptime.value)
    && (forall i, j :: 0 <= i < j < |readings| ==> readings[i].uptime.value < readings[j].uptime.value)
  }

  /** A draining poll either holds the level or moves it a full period after the last move. */
  lemma {:induction false} DrainingStep(g: Governor, readings: seq<Reading>, low: int, high: Option<int>)
    requires readings != [] && Draining(g, readings, low, high) && low >= BATTERY_DEAD_MV
    ensures Draining(Update(g, readings[0]), readings[1..], low, high)
  {
  }

  /** At 3000 mV and above: never up, and down by at most 2 in 56 seconds. */
  lemma {:induction false} NormalDrop(g: Governor, readings: seq<Reading>)
    requires Draining(g, readings, BATTERY_CRITICAL_LOW_MV, None)
    ensures var g' := Run(g, readings);
            && g'.lastUpdate >= g.lastUpdate
            && g.lastSoc - 2 * ((g'.lastUpdate - g.lastUpdate) / 56) <= g'.lastSoc <= g.lastSoc
    decreases |readings|
  {
    if readings != [] {
      var g1 := Update(g, readings[0]);
      DrainingStep(g, readings, BATTERY_CRITICAL_LOW_MV, None);
      NormalDrop(g1, readings[1..]);
    }
  }

  /** From 2800 mV to below 3000 mV, once a drop was forced: down by 6 in 56 seconds. */
  lemma {:induction false} ForcedDrop(g: Governor, readings: seq<Reading>)
    requires Draining(g, readings, BATTERY_DEAD_MV, Some(BATTERY_CRITICAL_LOW_MV))
    requires g.lastSoc >= 0 && g.forceDecrease
    ensures var g' := Run(g, readings);
            && g'.lastUpdate >= g.lastUpdate
            && g.lastSoc - 6 * ((g'.lastUpdate - g.lastUpdate) / 56) <= g'.lastSoc <= g.lastSoc
    decreases |readings|
  {
    if readings != [] {
      var g1 := Update(g, readings[0]);
      DrainingStep(g, readings, BATTERY_DEAD_MV, Some(BATTERY_CRITICAL_LOW_MV));
      ForcedDrop(g1, readings[1..]);
    }
  }

  /** The polls before the first that moves the level. */
  function HeldPolls(g: Governor, readings: seq<Reading>): (n: nat)
    ensures n <= |readings|
    decreases |readings|
  {
    if readings == [] || !(g.forceDecrease && TooSoon(g, Uptime(g, readings[0]))) then 0
    else 1 + HeldPolls(Update(g, readings[0]), readings[1..])
  }

  /** From 2800 mV to below 3000 mV the level falls by at most 6 at the first forced drop
      and by 6 more for each 56 seconds that pass from it. */
  lemma {:induction false} CriticalDrop(g: Governor, readings: seq<Reading>)
    requires Draining(g, readings, BATTERY_DEAD_MV, Some(BATTERY_CRITICAL_LOW_MV)) && g.lastSoc >= 0
    ensures var g', n := Run(g, readings), HeldPolls(g, readings);
            && g'.lastSoc <= g.lastSoc
            && (n == |readings| ==> g'.lastSoc == g.lastSoc)
            && (n < |readings| ==>
                  && g'.lastUpdate >= readings[n].uptime.value
                  && g'.lastSoc >= g.lastSoc - 6 * (1 + (g'.lastUpdate - readings[n].uptime.value) / 56))
    decreases |readings|
  {
    if readings != [] {
      var g1 := Update(g, readings[0]);
      DrainingStep(g, readings, BATTERY_DEAD_MV, Some(BATTERY_CRITICAL_LOW_MV));
      if HeldPolls(g, readings) == 0 {
        ForcedDrop(g1, readings[1..]);
      } else {
        CriticalDrop(g1, readings[1..]);
      }
    }
  }

  // ---- the level follows the gauge

  /** Every poll finds the gauge at `level`. */
  ghost predicate GaugeAt(readings: seq<Reading>, level: int) {
    forall i :: 0 <= i < |readings| ==> readings[i].props.level == level
  }

  /** No poll comes 1 to 55 seconds after the one before; a poll without a clock reading counts as
      made at the same time. */
  ghost predicate Spaced(since: int, readings: seq<Reading>)
    decreases |readings|
  {
    readings != [] ==>
      var uptime := if readings[0].uptime.Some? then readings[0].uptime.value else since;
      (uptime <= since || uptime > since + 55) && Spaced(uptime, readings[1..])
  }

  /** n polls while charging: at once down to a lower gauge, up to a higher one by 1 each; a gauge
      at 100 counts as 99 until the charger reports full. */
  lemma {:induction false} ChargingFollows(g: Governor, readings: seq<Reading>, level: int)
    requires g.firstUpdateDone && g.lastSoc <= 100 && level <= 100 && GaugeAt(readings, level)
    requires forall i :: 0 <= i < |readings| ==> readings[i].props.status.Charging?
    ensures var n, soc := |readings|, if level == 100 && g.lastSoc < 100 then 99 else level;
            Run(g, readings).lastSoc ==
              if n == 0 then g.lastSoc
              else if soc <= g.lastSoc then soc
              else if g.lastSoc + n < soc then g.lastSoc + n else soc
    decreases |readings|
  {
    if readings != [] { ChargingFollows(Update(g, readings[0]), readings[1..], level); }
  }

  /** n polls of a full battery, whatever the gauge says: up by 1 each, to 100. */
  lemma {:induction false} FullReaches100(g: Governor, readings: seq<Reading>)
    requires g.firstUpdateDone && g.lastSoc <= 100
    requires forall i :: 0 <= i < |readings| ==> readings[i].props.status.Full?
    ensures Run(g, readings).lastSoc == if g.lastSoc + |readings| < 100 then g.lastSoc + |readings| else 100
    decreases |readings|
  {
    if readings != [] { FullReaches100(Update(g, readings[0]), readings[1..]); }
  }

  /** n polls at 3000 mV and above, none too soon after another: down to a lower gauge by
      2 each, and never up. */
  lemma {:induction false} DrainingFollows(g: Governor, readings: seq<Reading>, level: int)
    requires g.firstUpdateDone && g.lastSoc <= 100 && level <= 100 && GaugeAt(readings, level) && Spaced(g.lastUpdate, readings)
    requires forall i :: 0 <= i < |readings| ==> readings[i].props.status.Draining() && readings[i].props.voltage >= 3000
    ensures Run(g, readings).lastSoc ==
              if g.lastSoc <= level then g.lastSoc
              else if g.lastSoc - 2 * |readings| > level then g.lastSoc - 2 * |readings| else level
    decreases |readings|
  {
    if readings != [] {
      var g1 := Update(g, readings[0]);
      if level <= g.lastSoc {
        DrainingFollows(g1, readings[1..], level);
      } else {
        HeldBelowGauge(g, readings, level);
      }
    }
  }

  /** Draining never raises the level. */
  lemma {:induction false} HeldBelowGauge(g: Governor, readings: seq<Reading>, level: int)
    requires g.firstUpdateDone && g.lastSoc < level <= 100 && GaugeAt(readings, level)
    requires forall i :: 0 <= i < |readings| ==> readings[i].props.status.Draining() && readings[i].props.voltage >= 3000
    ensures Run(g, readings).lastSoc == g.lastSoc
    decreases |readings|
  {
    if readings != [] { HeldBelowGauge(Update(g, readings[0]), readings[1..], level); }
  }

  /** n polls in 2800..2999 mV, none too soon after another: down by 6 each, whatever the gauge says. */
  lemma {:induction false} ForcedDropFollows(g: Governor, readings: seq<Reading>)
    requires g.firstUpdateDone && g.lastSoc >= 0 && Spaced(g.lastUpdate, readings)
    requires forall i :: 0 <= i < |readings| ==> readings[i].props.status.Draining() && 2800 <= readings[i].props.voltage < 3000
    ensures Run(g, readings).lastSoc == if g.lastSoc > 6 * |readings| then g.lastSoc - 6 * |readings| else 0
    decreases |readings|
  {
    if readings != [] { ForcedDropFollows(Update(g, readings[0]), readings[1..]); }
  }

  /** A draining poll below 2800 mV is reported as 0, whenever it comes. */
  lemma DeadIsEmpty(g: Governor, r: Reading)
    requires r.props.status.Draining() && r.props.voltage < 2800
    ensures Report(g, r).level == 0 && Update(g, r).lastSoc == 0
  {
  }

  /** The first poll reports the gauge, but 99 for 100, unless it drains at a critical voltage. */
  lemma FirstPollReportsGauge(g: Governor, r: Reading)
    requires !g.firstUpdateDone && !r.props.status.Full? && r.props.voltage >= 3000
    ensures Report(g, r).level == (if r.props.level >= 100 then 99 else r.props.level)
    ensures Update(g, r).firstUpdateDone && Update(g, r).lastSoc == Report(g, r).level
  {
  }

  /** The monitor watches the next of 3000 and 2800 mV below the cell's voltage while the battery
      drains and is not empty. */
  lemma WatchesNextThreshold(g: Governor, r: Reading)
    ensures var v := Update(g, r).monitorVoltage;
            if r.props.status.Draining() && Report(g, r).level > 0
            then v == (if r.props.voltage > 3000 then 3000 else if r.props.voltage > 2800 then 2800 else 0)
            else v == 0
  {
  }

  /** What else is reported: the health follows the level and then the temperature, and a battery
      is full only at 100. */
  lemma ReportsHealthAndStatus(g: Governor, r: Reading)
    ensures var p := Report(g, r);
            && p.temperature == r.props.temperature && p.voltage == r.props.voltage
            && (p.health == Dead <==> p.level < 15)
            && (p.health == Overheat <==> p.level >= 15 && p.temperature > 550)
            && (p.health == Cold <==> p.level >= 15 && p.temperature < 0)
            && (p.status == Full <==> r.props.status == Full && p.level >= 100)
            && (p.status == Charging <==> r.props.status == Charging || (r.props.status == Full && p.level < 100))
            && (p.status == NotCharging <==> r.props.status == NotCharging)
  {
  }

  ghost predicate InRange(level: int) {
    0 <= level <= 100
  }

  /** One poll of a gauge that reads 0..100, in any status, once the governor has started. */
  lemma {:induction false} LevelStep(g: Governor, r: Reading)
    requires InRange(r.props.level) && (g.firstUpdateDone ==> InRange(g.lastSoc))
    ensures var before := FirstUpdate(g, r).lastSoc;
            var p := Report(g, r);
            && Update(g, r).firstUpdateDone && Update(g, r).lastSoc == p.level
            && InRange(p.level)
            && p.level <= before + 1
            && (before < 100 && p.level == 100 ==> r.props.status.Full?)
            && !p.status.Unknown?
            && (p.status.Full? ==> p.level == 100)
  {
  }

  /** What holds after every poll, whatever the gauge, the clock and the status did. */
  ghost predicate Settled(g: Governor) {
    g.firstUpdateDone ==> InRange(g.lastSoc)
  }

  lemma {:induction false} EveryReportInRange(g: Governor, readings: seq<Reading>)
    requires Settled(g) && forall i :: 0 <= i < |readings| ==> InRange(readings[i].props.level)
    ensures Settled(Run(g, readings))
    ensures readings != [] ==>
              var before := Run(g, readings[..|readings| - 1]);
              var last := readings[|readings| - 1];
              var p := Report(before, last);
              && InRange(p.level)
              && (before.firstUpdateDone && before.lastSoc < 100 && p.level == 100 ==> last.props.status.Full?)
              && (before.firstUpdateDone ==> p.level <= before.lastSoc + 1)
              && (p.status.Full? ==> p.level == 100) && !p.status.Unknown?
              && (Update(before, last).monitorVoltage == 0 ||
                  Update(before, last).monitorVoltage < last.props.voltage)
    decreases |readings|
  {
    if readings != [] {
      LevelStep(g, readings[0]);
      var rest := readings[1..];
      if rest == [] {
        assert readings[..|readings| - 1] == [];
      } else {
        assert readings[..|readings| - 1][1..] == rest[..|rest| - 1];
        assert readings[|readings| - 1] == rest[|rest| - 1];
      }
      EveryReportInRange(Update(g, readings[0]), rest);
    }
  }

  /** The monitor is written exactly when the voltage to watch for changes. */
  lemma {:induction false} MonitorWritesAlternate(g: Governor, readings: seq<Reading>)
    requires g.monitorWrites == [] && g.monitorVoltage == 0
    ensures var g' := Run(g, readings);
            && g'.monitorVoltage == (if g'.monitorWrites == [] then 0 else g'.monitorWrites[|g'.monitorWrites| - 1])
            && (g'.monitorWrites != [] ==> g'.monitorWrites[0] != 0)
            && forall i :: 0 < i < |g'.monitorWrites| ==> g'.monitorWrites[i] != g'.monitorWrites[i - 1]
  {
    WritesAlternateFrom(g, readings);
  }

  ghost predicate Alternating(g: Governor) {
    && g.monitorVoltage == (if g.monitorWrites == [] then 0 else g.monitorWrites[|g.monitorWrites| - 1])
    && (g.monitorWrites != [] ==> g.monitorWrites[0] != 0)
    && forall i :: 0 < i < |g.monitorWrites| ==> g.monitorWrites[i] != g.monitorWrites[i - 1]
  }

  lemma LevelLeavesMonitor(g: Governor, m: Reading)
    ensures SocAdjust(g, m).monitorVoltage == g.monitorVoltage && SocAdjust(g, m).monitorWrites == g.monitorWrites
  {
  }

  lemma UpdateAlternates(g: Governor, m: Reading)
    requires Alternating(g)
    ensures Alternating(Update(g, m))
  {
    LevelLeavesMonitor(g, m);
    hide SocAdjust, Report, MonitorVoltage;
  }

  lemma {:induction false} WritesAlternateFrom(g: Governor, readings: seq<Reading>)
    requires Alternating(g)
    ensures Alternating(Run(g, readings))
    decreases |readings|
  {
    if readings != [] {
      UpdateAlternates(g, readings[0]);
      hide Alternating, Update;
      WritesAlternateFrom(Update(g, readings[0]), readings[1..]);
    }
  }
}

/**
 * The automated thermal experiment: a sequence of power levels applied to a
 * resistive heater through the power supply, with the thermocouples sampled
 * and the thermal resistance of the rig computed while each level lasts.
 *
 * What the run cannot see from here is an `Environment`: `math.sqrt`, how
 * many sampling iterations start before a level's duration elapses, whether
 * opening the CSV file raises, and whether the operator interrupts (or an
 * exception is raised) during a given sample. Timestamps, elapsed times and
 * the sleeps between samples are not modelled.
 */
module Experiment {
  import opened Options
  import Stats
  import T = Thermocouples
  import P = PowerSupply
  import R = Relays

  /** The limits the settings of a level must respect. */
  const VoltageLimit: real := 300.0
  const CurrentLimit: real := 5.2

  /** The current limit is set this much above the computed current. */
  const CurrentMargin: real := 1.1

  /** The relay that drives the coolant pump. */
  const PumpRelay: string := "RELAY_1"

  // ---------------------------------------------------------------------
  // Settings and thermal resistance
  // ---------------------------------------------------------------------

  /**
   * `calculate_power_settings`: the voltage `sqrt(P * R)` and current `V / R`
   * that dissipate `power` in `resistance`; `None` when `math.sqrt` raises
   * (a negative product), when the division raises (zero resistance), or when
   * the voltage or current exceeds the limits.
   */
  function PowerSettings(sqrt: real -> real, power: real, resistance: real): (r: Option<(real, real)>)
    ensures r.Some? <==> resistance != 0.0 && power * resistance >= 0.0
                         && sqrt(power * resistance) <= VoltageLimit
                         && sqrt(power * resistance) / resistance <= CurrentLimit
    ensures r.Some? ==> r.value.0 == sqrt(power * resistance)
    ensures r.Some? ==> r.value.1 * resistance == r.value.0
    ensures r.Some? ==> r.value.0 <= VoltageLimit && r.value.1 <= CurrentLimit
  {
    if power * resistance < 0.0 || resistance == 0.0 then None
    else
      var voltage := sqrt(power * resistance);
      var current := voltage / resistance;
      if voltage > VoltageLimit || current > CurrentLimit then None
      else Some((voltage, current))
  }

  /**
   * When the square root is exact, the settings obey Ohm's law and deliver
   * exactly the requested power.
   */
  lemma PowerDelivered(sqrt: real -> real, power: real, resistance: real)
    requires sqrt(power * resistance) >= 0.0
    requires sqrt(power * resistance) * sqrt(power * resistance) == power * resistance
    requires PowerSettings(sqrt, power, resistance).Some?
    ensures var s := PowerSettings(sqrt, power, resistance).value;
      s.0 == s.1 * resistance && s.0 * s.1 == power
  {
    var s := PowerSettings(sqrt, power, resistance).value;
    var v, i := s.0, s.1;
    assert v * i * resistance == v * v;
    assert (v * i) * resistance == power * resistance;
  }

  /**
   * A level whose current lies above `CurrentLimit / CurrentMargin` passes the
   * settings check, yet the current limit asked of the supply exceeds what
   * the supply accepts, so `set_current` refuses it without contacting it.
   */
  lemma MarginExceedsSupply(link: P.Link, s: P.Session, current: real)
    requires current <= CurrentLimit && current * CurrentMargin > P.CurrentMax
    ensures P.ApplyCurrent(link, s, current * CurrentMargin) == (s, false)
  {
  }

  /** `calculate_thermal_resistance`: the temperature difference per watt; `None` for a power that is not positive. */
  function ThermalResistance(evap: real, cond: real, power: real): (r: Option<real>)
    ensures r.None? <==> power <= 0.0
    ensures r.Some? ==> r.value * power == evap - cond
  {
    if power <= 0.0 then None else Some((evap - cond) / power)
  }

  /**
   * The pause after a sample, `max(0, sample_rate - elapsed)`: never negative,
   * never longer than the sampling interval once some time has elapsed, and
   * exactly what remains of the interval when anything does.
   */
  function SleepTime(sampleRate: real, elapsed: real): (r: real)
    ensures r >= 0.0 && r >= sampleRate - elapsed
    ensures elapsed >= 0.0 && sampleRate >= 0.0 ==> r <= sampleRate
    ensures sampleRate - elapsed > 0.0 ==> r == sampleRate - elapsed
    ensures sampleRate - elapsed <= 0.0 ==> r == 0.0
  {
    if sampleRate - elapsed > 0.0 then sampleRate - elapsed else 0.0
  }

  // ---------------------------------------------------------------------
  // Samples
  // ---------------------------------------------------------------------

  /** Python truthiness of an optional number: present and not zero. */
  predicate Truthy(x: Option<real>) {
    x.Some? && x.value != 0.0
  }

  /** A CSV cell: the value when it is truthy, `N/A` (`None`) otherwise. */
  function Shown(x: Option<real>): (r: Option<real>)
    ensures r.Some? <==> Truthy(x)
    ensures r.Some? ==> r == x
  {
    if Truthy(x) then x else None
  }

  /** `temps.get(ch)`. */
  function Get(temps: map<int, Option<real>>, ch: int): Option<real> {
    if ch in temps then temps[ch] else None
  }

  /** The readings of a group of channels, one per listed channel (a repeated channel appears again). */
  function Lookups(temps: map<int, Option<real>>, channels: seq<int>): seq<Option<real>> {
    seq(|channels|, i requires 0 <= i < |channels| => Get(temps, channels[i]))
  }

  /**
   * The average of the readings of a group: the mean of the list of its
   * readings that are not `None`, taken with repetitions; `None` when the
   * list is empty.
   */
  function GroupAverage(temps: map<int, Option<real>>, channels: seq<int>): (r: Option<real>)
    ensures r.Some? ==> r.value * |T.Present(Lookups(temps, channels))| as real
                        == Stats.Sum(T.Present(Lookups(temps, channels)))
  {
    Stats.Mean(T.Present(Lookups(temps, channels)))
  }

  /** A group has no average exactly when none of its channels has a reading. */
  lemma GroupAverageNone(temps: map<int, Option<real>>, channels: seq<int>)
    ensures GroupAverage(temps, channels).None? <==> forall ch :: ch in channels ==> Get(temps, ch).None?
  {
    var xs := Lookups(temps, channels);
    T.PresentExact(xs);
    if GroupAverage(temps, channels).None? {
      forall ch | ch in channels ensures Get(temps, ch).None? {
        var i :| 0 <= i < |channels| && channels[i] == ch;
        assert xs[i].None?;
      }
    } else {
      var i :| 0 <= i < |xs| && xs[i].Some?;
      assert channels[i] in channels;
    }
  }

  /** The average of a group of plausible readings is a plausible temperature. */
  lemma GroupAverageValid(temps: map<int, Option<real>>, channels: seq<int>)
    requires forall ch :: ch in temps && temps[ch].Some? ==> T.ValidTemperature(temps[ch].value)
    ensures GroupAverage(temps, channels).Some? ==> T.ValidTemperature(GroupAverage(temps, channels).value)
  {
    var xs := Lookups(temps, channels);
    forall i | 0 <= i < |xs| && xs[i].Some? ensures T.TempMin <= xs[i].value <= T.TempMax {
      assert channels[i] in temps;
    }
    T.PresentWithin(xs, T.TempMin, T.TempMax);
    if T.Present(xs) != [] {
      Stats.MeanWithin(T.Present(xs), T.TempMin, T.TempMax);
    }
  }

  /**
   * The thermal resistance of a sample: computed only when both averages are
   * truthy (an average of exactly 0.0 counts as missing) and the power is
   * positive.
   */
  function SampleResistance(evapAvg: Option<real>, condAvg: Option<real>, power: real): (r: Option<real>)
    ensures r.Some? ==> Truthy(evapAvg) && Truthy(condAvg) && power > 0.0
    ensures r.Some? ==> r.value * power == evapAvg.value - condAvg.value
    ensures Truthy(evapAvg) && Truthy(condAvg) && power > 0.0 ==> r.Some?
  {
    if Truthy(evapAvg) && Truthy(condAvg) && power > 0.0
    then ThermalResistance(evapAvg.value, condAvg.value, power)
    else None
  }

  /** The CSV columns of a sample; every optional cell is `N/A` when its value is not truthy. */
  datatype Row = Row(
    power: real,
    voltage: Option<real>,
    current: Option<real>,
    temps: seq<Option<real>>,
    evapAvg: Option<real>,
    condAvg: Option<real>,
    rThermal: Option<real>)

  /** The number of thermocouple columns: channels 0 to 3 for the evaporator, 4 to 7 for the condenser. */
  const TempColumns: nat := 8

  /** The row of one sample. */
  function SampleRow(power: real, voltage: Option<real>, current: Option<real>, temps: map<int, Option<real>>,
                     evap: seq<int>, cond: seq<int>): (row: Row)
    ensures Consistent(row) && row.power == power
  {
    var evapAvg := GroupAverage(temps, evap);
    var condAvg := GroupAverage(temps, cond);
    Row(power, Shown(voltage), Shown(current),
        seq(TempColumns, ch requires 0 <= ch < TempColumns => Shown(Get(temps, ch))),
        Shown(evapAvg), Shown(condAvg), Shown(SampleResistance(evapAvg, condAvg, power)))
  }

  /**
   * What every row states: a thermal resistance is shown only next to both
   * averages, at a positive power, and it is their difference per watt; no
   * cell shows a zero.
   */
  predicate Consistent(row: Row) {
    |row.temps| == TempColumns
    && (row.rThermal.Some? ==>
          row.evapAvg.Some? && row.condAvg.Some? && row.power > 0.0
          && row.rThermal.value * row.power == row.evapAvg.value - row.condAvg.value)
    && Cell(row.voltage) && Cell(row.current) && Cell(row.evapAvg) && Cell(row.condAvg) && Cell(row.rThermal)
    && forall i :: 0 <= i < |row.temps| ==> Cell(row.temps[i])
  }

  /** A cell shows either `N/A` or a number other than zero. */
  predicate Cell(x: Option<real>) {
    x.None? || x.value != 0.0
  }

  /** Every temperature a row shows, and each of its averages, is a plausible thermocouple reading. */
  predicate Plausible(row: Row) {
    (forall i :: 0 <= i < |row.temps| && row.temps[i].Some? ==> T.ValidTemperature(row.temps[i].value))
    && (row.evapAvg.Some? ==> T.ValidTemperature(row.evapAvg.value))
    && (row.condAvg.Some? ==> T.ValidTemperature(row.condAvg.value))
  }

  /** A row built from plausible readings shows only plausible temperatures. */
  lemma SampleRowPlausible(power: real, voltage: Option<real>, current: Option<real>, temps: map<int, Option<real>>,
                           evap: seq<int>, cond: seq<int>)
    requires forall ch :: ch in temps && temps[ch].Some? ==> T.ValidTemperature(temps[ch].value)
    ensures Plausible(SampleRow(power, voltage, current, temps, evap, cond))
  {
    GroupAverageValid(temps, evap);
    GroupAverageValid(temps, cond);
  }

  // ---------------------------------------------------------------------
  // The run, as a function of the instruments
  // ---------------------------------------------------------------------

  datatype Status = InProgress | Completed | Interrupted | Failed

  /** The messages appended to the run's error list. */
  datatype Error =
    | NoSettings(power: real)
    | VoltageRejected(voltage: real)
    | CurrentRejected(current: real)
    | OutputRejected
    | ProtectionTripped(status: P.ProtectionStatus)
    | Raised(message: string)

  /** The results dictionary, with the rows written to the run's CSV file. */
  datatype Results = Results(status: Status, powerLevels: seq<real>, samples: nat, errors: seq<Error>, rows: seq<Row>)

  /** What `run_experiment` returns: the refusal while a run is in progress, or the run's results. */
  datatype Outcome = AlreadyRunning | Finished(results: Results)

  /** `get_experiment_status`. */
  datatype Report = Running(experiment: Option<Results>) | Idle(lastExperiment: Option<Results>)

  /** What cuts a run short: the operator's interrupt, or an exception with its message. */
  datatype Abort = Interrupt | Raise(message: string)

  datatype Environment = Environment(
    sqrt: real -> real,
    samplesFitting: nat -> nat,
    openError: Option<string>,
    abort: (nat, nat) -> Option<Abort>)

  /** The calls the run makes to the drivers, in order, with the answers its decisions depend on. */
  datatype Call =
    | PumpOn | PumpOff
    | SetVoltage(volts: real, ok: bool) | SetCurrent(amps: real, ok: bool) | OutputOn(ok: bool) | OutputOff
    | MeasureVoltage | MeasureCurrent | ReadAllChannels | CheckProtections(status: P.ProtectionStatus)

  /**
   * The instruments as the run sees them: each operation of the supply's
   * driver on the driver's session, and the readings of the board at its
   * `n`-th scan, `scan(n)`.
   */
  datatype Bench = Bench(
    setVoltage: (P.Session, real) -> (P.Session, bool),
    setCurrent: (P.Session, real) -> (P.Session, bool),
    switchOutput: (P.Session, bool) -> (P.Session, bool),
    query: (P.Session, string) -> (P.Session, Option<real>),
    poll: P.Session -> (P.Session, P.Protections),
    scan: nat -> map<int, Option<real>>)

  /**
   * The instruments of the experiment: the supply driven over `link`, and the
   * board `daq` whose thermocouple tool answers as `tool(n)` during its
   * `n`-th scan.
   */
  function Drivers(link: P.Link, daq: T.Daq, tool: nat -> (string -> Option<string>)): Bench {
    Bench(
      (s, v) => P.ApplyVoltage(link, s, v),
      (s, i) => P.ApplyCurrent(link, s, i),
      (s, on) => P.SwitchOutput(link, s, on),
      (s, command) => P.Query(link, s, command),
      s => P.PollProtections(link, s),
      (n: nat) => T.AllReadings(daq, tool(n)))
  }

  /** The arguments of a run. */
  datatype Plan = Plan(env: Environment, powerLevels: seq<real>, resistance: real, evap: seq<int>, cond: seq<int>)

  /** Every reading of every scan of the board is a plausible temperature. */
  ghost predicate ReadsPlausibly(b: Bench) {
    forall n: nat, ch :: ch in b.scan(n) && b.scan(n)[ch].Some? ==> T.ValidTemperature(b.scan(n)[ch].value)
  }

  /** The board reads only plausible temperatures, whatever its tool answers. */
  lemma DriversReadPlausibly(link: P.Link, daq: T.Daq, tool: nat -> (string -> Option<string>))
    ensures ReadsPlausibly(Drivers(link, daq, tool))
  {
    var b := Drivers(link, daq, tool);
    forall n: nat, ch | ch in b.scan(n) && b.scan(n)[ch].Some? ensures T.ValidTemperature(b.scan(n)[ch].value) {
      assert b.scan(n)[ch] == T.ReadChannel(daq, tool(n), ch);
    }
  }

  /** What a run changes: the supply's session, the number of scans of the board so far, and the calls made. */
  datatype Rig = Rig(session: P.Session, scans: nat, calls: seq<Call>)

  // Each driver call, on the rig.

  function SetVoltageStep(b: Bench, r: Rig, v: real): (Rig, bool) {
    var t := b.setVoltage(r.session, v);
    (r.(session := t.0, calls := r.calls + [SetVoltage(v, t.1)]), t.1)
  }

  function SetCurrentStep(b: Bench, r: Rig, i: real): (Rig, bool) {
    var t := b.setCurrent(r.session, i);
    (r.(session := t.0, calls := r.calls + [SetCurrent(i, t.1)]), t.1)
  }

  function OutputOnStep(b: Bench, r: Rig): (Rig, bool) {
    var t := b.switchOutput(r.session, true);
    (r.(session := t.0, calls := r.calls + [OutputOn(t.1)]), t.1)
  }

  function OutputOffStep(b: Bench, r: Rig): Rig {
    r.(session := b.switchOutput(r.session, false).0, calls := r.calls + [OutputOff])
  }

  function MeasureStep(b: Bench, r: Rig, query: string, call: Call): (Rig, Option<real>) {
    var t := b.query(r.session, query);
    (r.(session := t.0, calls := r.calls + [call]), t.1)
  }

  function ScanStep(b: Bench, r: Rig): (Rig, map<int, Option<real>>) {
    (r.(scans := r.scans + 1, calls := r.calls + [ReadAllChannels]), b.scan(r.scans))
  }

  function PollStep(b: Bench, r: Rig): (Rig, P.ProtectionStatus) {
    var t := b.poll(r.session);
    (r.(session := t.0, calls := r.calls + [CheckProtections(t.1.status)]), t.1.status)
  }

  // ---------------------------------------------------------------------
  // Preparing a level
  // ---------------------------------------------------------------------

  /** How the preparation of a level ended, with the settings it tried. */
  datatype Setup =
    | Unsettable
    | VoltageFailed(volts: real)
    | CurrentFailed(volts: real, amps: real)
    | OutputFailed(volts: real, amps: real)
    | Ready(volts: real, amps: real)

  /** The error a failed preparation appends; the current is reported without its margin. */
  function SetupError(setup: Setup, power: real): Error
    requires !setup.Ready?
  {
    match setup
    case Unsettable => NoSettings(power)
    case VoltageFailed(v) => VoltageRejected(v)
    case CurrentFailed(_, i) => CurrentRejected(i)
    case OutputFailed(_, _) => OutputRejected
  }

  /**
   * The calls a preparation makes before it ends as `setup`, with the
   * supply's answers: each step is tried only after the previous one was
   * confirmed, and the last one tried is the first refused.
   */
  function SetupCalls(setup: Setup): seq<Call> {
    match setup
    case Unsettable => []
    case VoltageFailed(v) => [SetVoltage(v, false)]
    case CurrentFailed(v, i) => [SetVoltage(v, true), SetCurrent(i * CurrentMargin, false)]
    case OutputFailed(v, i) => [SetVoltage(v, true), SetCurrent(i * CurrentMargin, true), OutputOn(false)]
    case Ready(v, i) => [SetVoltage(v, true), SetCurrent(i * CurrentMargin, true), OutputOn(true)]
  }

  /** Whether `setup` tried `settings`: nothing for a level without settings. */
  predicate Tried(setup: Setup, settings: Option<(real, real)>) {
    match setup
    case Unsettable => settings.None?
    case VoltageFailed(v) => settings.Some? && settings.value.0 == v
    case CurrentFailed(v, i) => settings == Some((v, i))
    case OutputFailed(v, i) => settings == Some((v, i))
    case Ready(v, i) => settings == Some((v, i))
  }

  /**
   * The preparation of a level: set the voltage, then the current limit with
   * its margin, then switch the output on, stopping at the first step the
   * supply does not confirm.
   */
  function PrepareSpec(b: Bench, r: Rig, settings: Option<(real, real)>): (out: (Rig, Setup))
    ensures Tried(out.1, settings)
    ensures out.0.calls == r.calls + SetupCalls(out.1) && out.0.scans == r.scans
  {
    if settings.None? then (r, Unsettable)
    else
      var v := settings.value.0;
      var sv := SetVoltageStep(b, r, v);
      if !sv.1 then (sv.0, VoltageFailed(v))
      else EnergizeSpec(b, sv.0, v, settings.value.1)
  }

  /**
   * The preparation once the voltage `v` was confirmed: set the current limit
   * `i` with its margin, then switch the output on.
   */
  function EnergizeSpec(b: Bench, r: Rig, v: real, i: real): (out: (Rig, Setup))
    ensures out.1 == CurrentFailed(v, i) || out.1 == OutputFailed(v, i) || out.1 == Ready(v, i)
    ensures |r.calls| <= |out.0.calls| && out.0.calls[..|r.calls|] == r.calls && out.0.scans == r.scans
    ensures r.calls + [SetVoltage(v, true)] + out.0.calls[|r.calls|..] == r.calls + SetupCalls(out.1)
  {
    var si := SetCurrentStep(b, r, i * CurrentMargin);
    if !si.1 then (si.0, CurrentFailed(v, i))
    else
      var so := OutputOnStep(b, si.0);
      (so.0, if so.1 then Ready(v, i) else OutputFailed(v, i))
  }

  /**
   * What the supply's driver guarantees of what it confirms: a voltage or a
   * current limit is confirmed only when it is in range and was written then
   * read back, and the output only when `OUTP ON` was written on a connection
   * that is still held.
   */
  ghost predicate Confirms(b: Bench) {
    (forall s, v :: b.setVoltage(s, v).1 ==>
       P.ValidVoltage(v) && b.setVoltage(s, v).0.wire == s.wire + [P.Frame(P.VoltageCommand(v)), P.Frame("VOLT?")])
    && (forall s, i :: b.setCurrent(s, i).1 ==>
       P.ValidCurrent(i) && b.setCurrent(s, i).0.wire == s.wire + [P.Frame(P.CurrentCommand(i)), P.Frame("CURR?")])
    && (forall s :: b.switchOutput(s, true).1 ==>
       b.switchOutput(s, true).0.connected && b.switchOutput(s, true).0.wire == s.wire + [P.Frame("OUTP ON")])
  }

  /** The drivers of the supply confirm only what they wrote and read back. */
  lemma DriversConfirm(link: P.Link, daq: T.Daq, tool: nat -> (string -> Option<string>))
    ensures Confirms(Drivers(link, daq, tool))
  {
    var b := Drivers(link, daq, tool);
    forall s, v ensures b.setVoltage(s, v).1 ==>
      P.ValidVoltage(v) && b.setVoltage(s, v).0.wire == s.wire + [P.Frame(P.VoltageCommand(v)), P.Frame("VOLT?")]
    {
      P.VoltageSound(link, s, v);
    }
    forall s, i ensures b.setCurrent(s, i).1 ==>
      P.ValidCurrent(i) && b.setCurrent(s, i).0.wire == s.wire + [P.Frame(P.CurrentCommand(i)), P.Frame("CURR?")]
    {
      P.CurrentSound(link, s, i);
    }
  }

  /**
   * A level with settings `(v, i)` is ready only when the supply confirmed
   * each of them: both are in its range, each was written and read back, the
   * output command followed, and the connection is held.
   */
  lemma PrepareReady(b: Bench, r: Rig, v: real, i: real)
    requires Confirms(b)
    ensures var out := PrepareSpec(b, r, Some((v, i)));
      out.1.Ready? ==>
        out.1 == Ready(v, i) && P.ValidVoltage(v) && P.ValidCurrent(i * CurrentMargin) && out.0.session.connected
        && out.0.session.wire == r.session.wire
             + [P.Frame(P.VoltageCommand(v)), P.Frame("VOLT?")]
             + [P.Frame(P.CurrentCommand(i * CurrentMargin)), P.Frame("CURR?")]
             + [P.Frame("OUTP ON")]
  {
    var sv := SetVoltageStep(b, r, v);
    if sv.1 {
      EnergizeReady(b, sv.0, v, i);
    }
  }

  /** The second half of `PrepareReady`: the current limit, then the output. */
  lemma EnergizeReady(b: Bench, r: Rig, v: real, i: real)
    requires Confirms(b)
    ensures var out := EnergizeSpec(b, r, v, i);
      out.1.Ready? ==>
        P.ValidCurrent(i * CurrentMargin) && out.0.session.connected
        && out.0.session.wire
           == r.session.wire + [P.Frame(P.CurrentCommand(i * CurrentMargin)), P.Frame("CURR?")] + [P.Frame("OUTP ON")]
  {
  }

  /**
   * A level whose current lies above `CurrentLimit / CurrentMargin` has
   * settings, yet it never gets ready: its current limit is refused without a
   * word sent for it, so the supply only sees the voltage.
   */
  lemma PrepareMargin(link: P.Link, daq: T.Daq, tool: nat -> (string -> Option<string>), r: Rig,
                      sqrt: real -> real, power: real, resistance: real)
    requires PowerSettings(sqrt, power, resistance).Some?
    requires PowerSettings(sqrt, power, resistance).value.1 * CurrentMargin > P.CurrentMax
    ensures var s := PowerSettings(sqrt, power, resistance).value;
      var out := PrepareSpec(Drivers(link, daq, tool), r, PowerSettings(sqrt, power, resistance));
      (out.1 == VoltageFailed(s.0) || out.1 == CurrentFailed(s.0, s.1))
      && out.0.session == P.ApplyVoltage(link, r.session, s.0).0
  {
    var s := PowerSettings(sqrt, power, resistance).value;
    var sv := SetVoltageStep(Drivers(link, daq, tool), r, s.0);
    MarginExceedsSupply(link, sv.0.session, s.1);
  }

  // ---------------------------------------------------------------------
  // Sampling a level
  // ---------------------------------------------------------------------

  /** The calls of one sample whose protection poll answered `status`. */
  function SampleCalls(status: P.ProtectionStatus): seq<Call> {
    [MeasureVoltage, MeasureCurrent, ReadAllChannels, CheckProtections(status)]
  }

  /**
   * One iteration of the sampling loop at `power`: measure the voltage and the
   * current, scan the board, build the row from what they answered, then
   * poll the protections.
   */
  function SampleSpec(b: Bench, r: Rig, power: real, evap: seq<int>, cond: seq<int>)
    : (out: (Rig, Row, P.ProtectionStatus))
    ensures out.0.calls == r.calls + SampleCalls(out.2) && out.0.scans == r.scans + 1
    ensures out.1.power == power && Consistent(out.1)
  {
    var v := MeasureStep(b, r, "MEAS:VOLT?", MeasureVoltage);
    var i := MeasureStep(b, v.0, "MEAS:CURR?", MeasureCurrent);
    var t := ScanStep(b, i.0);
    var p := PollStep(b, t.0);
    (p.0, SampleRow(power, v.1, i.1, t.1, evap, cond), p.1)
  }

  /** Every row the sampling loop writes shows only plausible temperatures. */
  lemma SamplePlausible(b: Bench, r: Rig, power: real, evap: seq<int>, cond: seq<int>)
    requires ReadsPlausibly(b)
    ensures Plausible(SampleSpec(b, r, power, evap, cond).1)
  {
    var v := MeasureStep(b, r, "MEAS:VOLT?", MeasureVoltage);
    var i := MeasureStep(b, v.0, "MEAS:CURR?", MeasureCurrent);
    var t := ScanStep(b, i.0);
    SampleRowPlausible(power, v.1, i.1, t.1, evap, cond);
  }

  /** One sample of a level, from a rig: the rig after it, the row written and the status polled. */
  type Sampler = Rig -> (Rig, Row, P.ProtectionStatus)

  /** The sampling loop's iteration at `power`, on the instruments `b`. */
  function SamplerOf(b: Bench, power: real, evap: seq<int>, cond: seq<int>): Sampler {
    r => SampleSpec(b, r, power, evap, cond)
  }

  /** A sampler makes one sample's calls, with the status it polled, and scans the board once. */
  ghost predicate Records(sample: Sampler) {
    forall r :: sample(r).0.calls == r.calls + SampleCalls(sample(r).2) && sample(r).0.scans == r.scans + 1
  }

  /** A sampler writes a consistent, plausible row at `power`. */
  ghost predicate WritesAt(sample: Sampler, power: real) {
    forall r :: sample(r).1.power == power && Consistent(sample(r).1) && Plausible(sample(r).1)
  }

  lemma SamplerRecords(b: Bench, power: real, evap: seq<int>, cond: seq<int>)
    ensures Records(SamplerOf(b, power, evap, cond))
  {
  }

  lemma SamplerWrites(b: Bench, power: real, evap: seq<int>, cond: seq<int>)
    requires ReadsPlausibly(b)
    ensures WritesAt(SamplerOf(b, power, evap, cond), power)
  {
    forall r ensures Plausible(SampleSpec(b, r, power, evap, cond).1) {
      SamplePlausible(b, r, power, evap, cond);
    }
  }

  /** The calls of the samples whose protection polls answered `polled`, in order. */
  function Sampling(polled: seq<P.ProtectionStatus>): (r: seq<Call>)
    ensures |r| == 4 * |polled|
  {
    if polled == [] then [] else SampleCalls(polled[0]) + Sampling(polled[1..])
  }

  /** The last poll found a protection active: the loop breaks after that sample. */
  predicate Tripped(polled: seq<P.ProtectionStatus>) {
    |polled| > 0 && polled[|polled| - 1] != P.Ok
  }

  /**
   * The sampling loop of level `l`, from rig `r` and results `acc`, after
   * samples whose polls answered `polled`: samples are taken while the level's
   * duration lasts, until a protection trips (its status is appended) or the
   * run is cut short before a sample. The final rig and results, every status
   * polled, and what cut the run short.
   */
  function SamplingFrom(sample: Sampler, env: Environment, l: nat, r: Rig, acc: Results,
                        polled: seq<P.ProtectionStatus>)
    : (Rig, Results, seq<P.ProtectionStatus>, Option<Abort>)
    decreases env.samplesFitting(l) - |polled|
  {
    if |polled| >= env.samplesFitting(l) || Tripped(polled) then (r, acc, polled, None)
    else if env.abort(l, |polled|).Some? then (r, acc, polled, env.abort(l, |polled|))
    else
      var s := sample(r);
      var next := acc.(samples := acc.samples + 1, rows := acc.rows + [s.1],
                       errors := if s.2 != P.Ok then acc.errors + [ProtectionTripped(s.2)] else acc.errors);
      SamplingFrom(sample, env, l, s.0, next, polled + [s.2])
  }

  /** The loop only adds polls. */
  lemma {:induction false} SamplingGrows(sample: Sampler, env: Environment, l: nat, r: Rig, acc: Results,
                                         polled: seq<P.ProtectionStatus>)
    ensures var out := SamplingFrom(sample, env, l, r, acc, polled);
      |polled| <= |out.2| && out.2[..|polled|] == polled
    decreases env.samplesFitting(l) - |polled|
  {
    if !(|polled| >= env.samplesFitting(l) || Tripped(polled)) && env.abort(l, |polled|).None? {
      var s := sample(r);
      var next := acc.(samples := acc.samples + 1, rows := acc.rows + [s.1],
                       errors := if s.2 != P.Ok then acc.errors + [ProtectionTripped(s.2)] else acc.errors);
      SamplingGrows(sample, env, l, s.0, next, polled + [s.2]);
      var out := SamplingFrom(sample, env, l, s.0, next, polled + [s.2]);
      assert out.2[..|polled|] == out.2[..|polled| + 1][..|polled|];
    }
  }

  /**
   * The loop writes one consistent, plausible row at the level's power per
   * poll, after the rows already written.
   */
  lemma {:induction false} SamplingRows(sample: Sampler, env: Environment, l: nat, r: Rig, acc: Results,
                                        polled: seq<P.ProtectionStatus>, power: real)
    requires WritesAt(sample, power) && Tallied(acc)
    ensures var out := SamplingFrom(sample, env, l, r, acc, polled);
      Tallied(out.1) && out.1.status == acc.status && out.1.powerLevels == acc.powerLevels
      && |acc.rows| <= |out.1.rows| && |out.1.rows| - |acc.rows| == |out.2| - |polled|
      && out.1.rows[..|acc.rows|] == acc.rows
      && forall i :: |acc.rows| <= i < |out.1.rows| ==> out.1.rows[i].power == power
    decreases env.samplesFitting(l) - |polled|
  {
    if !(|polled| >= env.samplesFitting(l) || Tripped(polled)) && env.abort(l, |polled|).None? {
      var s := sample(r);
      var next := acc.(samples := acc.samples + 1, rows := acc.rows + [s.1],
                       errors := if s.2 != P.Ok then acc.errors + [ProtectionTripped(s.2)] else acc.errors);
      assert Tallied(next);
      SamplingRows(sample, env, l, s.0, next, polled + [s.2], power);
      var out := SamplingFrom(sample, env, l, s.0, next, polled + [s.2]);
      assert out.1.rows[..|acc.rows|] == out.1.rows[..|next.rows|][..|acc.rows|];
    }
  }

  /**
   * How the loop ends: every status it polled but the last is ok; a trip
   * appends exactly its status to the errors and nothing else is appended;
   * the run is cut short only where the environment says so, before a
   * sample; and otherwise the loop takes every sample the level's duration
   * allows.
   */
  lemma {:induction false} SamplingPolls(sample: Sampler, env: Environment, l: nat, r: Rig, acc: Results,
                                         polled: seq<P.ProtectionStatus>)
    requires !Tripped(polled) && |polled| <= env.samplesFitting(l)
    ensures var out := SamplingFrom(sample, env, l, r, acc, polled);
      |polled| <= |out.2| <= env.samplesFitting(l)
      && (forall k :: |polled| <= k < |out.2| - 1 ==> out.2[k] == P.Ok)
      && (forall k :: |polled| <= k < |out.2| ==> env.abort(l, k).None?)
      && out.1.errors == acc.errors + (if Tripped(out.2) then [ProtectionTripped(out.2[|out.2| - 1])] else [])
      && (out.3.Some? ==> out.3 == env.abort(l, |out.2|) && !Tripped(out.2))
      && (out.3.None? && !Tripped(out.2) ==> |out.2| == env.samplesFitting(l))
    decreases env.samplesFitting(l) - |polled|
  {
    if !(|polled| >= env.samplesFitting(l)) && env.abort(l, |polled|).None? {
      var s := sample(r);
      var next := acc.(samples := acc.samples + 1, rows := acc.rows + [s.1],
                       errors := if s.2 != P.Ok then acc.errors + [ProtectionTripped(s.2)] else acc.errors);
      if s.2 == P.Ok {
        SamplingPolls(sample, env, l, s.0, next, polled + [s.2]);
        SamplingGrows(sample, env, l, s.0, next, polled + [s.2]);
        var out := SamplingFrom(sample, env, l, s.0, next, polled + [s.2]);
        assert out.2[|polled|] == out.2[..|polled| + 1][|polled|];
      }
    }
  }

  /** The loop's calls are those of its samples, in order, each with the status it polled; each sample scans the board once. */
  lemma {:induction false} SamplingCalls(sample: Sampler, env: Environment, l: nat, r: Rig, acc: Results,
                                         polled: seq<P.ProtectionStatus>)
    requires Records(sample)
    ensures var out := SamplingFrom(sample, env, l, r, acc, polled);
      |polled| <= |out.2|
      && out.0.calls == r.calls + Sampling(out.2[|polled|..]) && out.0.scans == r.scans + (|out.2| - |polled|)
    decreases env.samplesFitting(l) - |polled|
  {
    SamplingGrows(sample, env, l, r, acc, polled);
    if !(|polled| >= env.samplesFitting(l) || Tripped(polled)) && env.abort(l, |polled|).None? {
      var s := sample(r);
      var next := acc.(samples := acc.samples + 1, rows := acc.rows + [s.1],
                       errors := if s.2 != P.Ok then acc.errors + [ProtectionTripped(s.2)] else acc.errors);
      SamplingCalls(sample, env, l, s.0, next, polled + [s.2]);
      SamplingGrows(sample, env, l, s.0, next, polled + [s.2]);
      var out := SamplingFrom(sample, env, l, s.0, next, polled + [s.2]);
      assert out.2[|polled|] == out.2[..|polled| + 1][|polled|];
      assert out.2[|polled|..][1..] == out.2[|polled| + 1..];
    }
  }

  // ---------------------------------------------------------------------
  // A level, and the loop over the levels
  // ---------------------------------------------------------------------

  /**
   * What one level did: its power, how its preparation ended, the status
   * polled after each of its samples, and what cut the run short during it.
   */
  datatype Level = Level(power: real, setup: Setup, polled: seq<P.ProtectionStatus>, abort: Option<Abort>)

  /**
   * Level `l` of the run, at `power`, sampled by `sample`: a preparation that
   * fails appends its error and moves on without switching the output off;
   * otherwise the level is sampled and, unless the run was cut short, the
   * output is switched off.
   */
  function LevelSpec(b: Bench, sample: Sampler, p: Plan, l: nat, power: real, r: Rig, acc: Results)
    : (Rig, Results, Level)
  {
    var prep := PrepareSpec(b, r, PowerSettings(p.env.sqrt, power, p.resistance));
    if !prep.1.Ready? then
      (prep.0, acc.(errors := acc.errors + [SetupError(prep.1, power)]), Level(power, prep.1, [], None))
    else
      var run := SamplingFrom(sample, p.env, l, prep.0, acc, []);
      (if run.3.None? then OutputOffStep(b, run.0) else run.0, run.1, Level(power, prep.1, run.2, run.3))
  }

  /** The errors a level appends. */
  function LevelErrors(lv: Level): seq<Error> {
    if !lv.setup.Ready? then [SetupError(lv.setup, lv.power)]
    else if Tripped(lv.polled) then [ProtectionTripped(lv.polled[|lv.polled| - 1])]
    else []
  }

  /** The calls a level makes. */
  function LevelCalls(lv: Level): seq<Call> {
    SetupCalls(lv.setup)
    + if lv.setup.Ready? then Sampling(lv.polled) + (if lv.abort.None? then [OutputOff] else []) else []
  }

  /**
   * What holds of the `l`-th level of a run with plan `p`: it ran at the
   * `l`-th power with that power's settings; a level that was not ready took
   * no sample; every poll but the last was ok; the run was cut short only
   * where the environment says so, before a sample; and a level that was
   * neither tripped nor cut short took every sample its duration allows.
   */
  ghost predicate LevelFits(p: Plan, l: nat, lv: Level) {
    l < |p.powerLevels| && lv.power == p.powerLevels[l]
    && Tried(lv.setup, PowerSettings(p.env.sqrt, lv.power, p.resistance))
    && (!lv.setup.Ready? ==> lv.polled == [] && lv.abort.None?)
    && |lv.polled| <= p.env.samplesFitting(l)
    && (forall k :: 0 <= k < |lv.polled| - 1 ==> lv.polled[k] == P.Ok)
    && (forall k :: 0 <= k < |lv.polled| ==> p.env.abort(l, k).None?)
    && (lv.abort.Some? ==> lv.abort == p.env.abort(l, |lv.polled|) && !Tripped(lv.polled))
    && (lv.setup.Ready? && lv.abort.None? && !Tripped(lv.polled) ==> |lv.polled| == p.env.samplesFitting(l))
  }

  /** Every level fits its plan, whatever its sampler. */
  lemma LevelShape(b: Bench, sample: Sampler, p: Plan, l: nat, r: Rig, acc: Results)
    requires l < |p.powerLevels|
    ensures LevelFits(p, l, LevelSpec(b, sample, p, l, p.powerLevels[l], r, acc).2)
  {
    var prep := PrepareSpec(b, r, PowerSettings(p.env.sqrt, p.powerLevels[l], p.resistance));
    if prep.1.Ready? {
      SamplingPolls(sample, p.env, l, prep.0, acc, []);
    }
  }

  /**
   * A level whose sampler writes plausible rows at its power writes one such
   * row per poll after the rows already written, and appends exactly its
   * errors.
   */
  lemma LevelRows(b: Bench, sample: Sampler, p: Plan, l: nat, power: real, r: Rig, acc: Results)
    requires WritesAt(sample, power) && Tallied(acc)
    ensures var out := LevelSpec(b, sample, p, l, power, r, acc);
      LevelTally(acc, power, out.1, out.2)
  {
    var prep := PrepareSpec(b, r, PowerSettings(p.env.sqrt, power, p.resistance));
    if prep.1.Ready? {
      SamplingRows(sample, p.env, l, prep.0, acc, [], power);
      SamplingPolls(sample, p.env, l, prep.0, acc, []);
    }
  }

  /** A level whose sampler makes one sample's calls makes exactly its calls, and scans the board once per sample. */
  lemma LevelLog(b: Bench, sample: Sampler, p: Plan, l: nat, power: real, r: Rig, acc: Results)
    requires Records(sample)
    ensures Logged(r, LevelSpec(b, sample, p, l, power, r, acc))
  {
    var prep := PrepareSpec(b, r, PowerSettings(p.env.sqrt, power, p.resistance));
    if prep.1.Ready? {
      SamplingCalls(sample, p.env, l, prep.0, acc, []);
      var run := SamplingFrom(sample, p.env, l, prep.0, acc, []);
      assert run.2[0..] == run.2;
    }
  }

  /**
   * The results `out` after level `lv` at `power`, from `acc`: still tallied,
   * with the rows before kept, one row at `power` per poll after them, and
   * the level's errors appended.
   */
  ghost predicate LevelTally(acc: Results, power: real, out: Results, lv: Level) {
    Tallied(out) && out.status == acc.status && out.powerLevels == acc.powerLevels
    && |out.rows| == |acc.rows| + |lv.polled| && out.rows[..|acc.rows|] == acc.rows
    && (forall i :: |acc.rows| <= i < |out.rows| ==> out.rows[i].power == power)
    && out.errors == acc.errors + LevelErrors(lv)
  }

  /** One level of a run, at an index and a power, from a rig and the results so far. */
  type Leveller = (nat, real, Rig, Results) -> (Rig, Results, Level)

  /** The levels of plan `p` on the instruments `b`, each sampled at its own power. */
  function LevelsOf(b: Bench, p: Plan): Leveller {
    (l: nat, power: real, r: Rig, acc: Results) => LevelSpec(b, SamplerOf(b, power, p.evap, p.cond), p, l, power, r, acc)
  }

  /** Every level `level` runs for plan `p` fits the plan. */
  ghost predicate Fits(level: Leveller, p: Plan) {
    forall l: nat, r, acc :: l < |p.powerLevels| ==> LevelFits(p, l, level(l, p.powerLevels[l], r, acc).2)
  }

  /** Every level `level` runs keeps the tally. */
  ghost predicate Tallies(level: Leveller) {
    forall l: nat, power, r, acc :: Tallied(acc) ==>
      LevelTally(acc, power, level(l, power, r, acc).1, level(l, power, r, acc).2)
  }

  /** The level `out` ran from rig `r` made exactly its calls, and scanned the board once per sample. */
  ghost predicate Logged(r: Rig, out: (Rig, Results, Level)) {
    out.0.calls == r.calls + LevelCalls(out.2) && out.0.scans == r.scans + |out.2.polled|
  }

  /** Every level `level` runs makes exactly its calls, and scans the board once per sample. */
  ghost predicate Logs(level: Leveller) {
    forall l: nat, power, r, acc :: Logged(r, level(l, power, r, acc))
  }

  /** `Logs` at one level. */
  lemma LoggedAt(level: Leveller, l: nat, power: real, r: Rig, acc: Results)
    requires Logs(level)
    ensures Logged(r, level(l, power, r, acc))
  {
  }

  lemma LevelsOfFit(b: Bench, p: Plan)
    ensures Fits(LevelsOf(b, p), p)
  {
    forall l: nat, r, acc | l < |p.powerLevels|
      ensures LevelFits(p, l, LevelsOf(b, p)(l, p.powerLevels[l], r, acc).2)
    {
      LevelShape(b, SamplerOf(b, p.powerLevels[l], p.evap, p.cond), p, l, r, acc);
    }
  }

  lemma LevelsOfTally(b: Bench, p: Plan)
    requires ReadsPlausibly(b)
    ensures Tallies(LevelsOf(b, p))
  {
    forall l: nat, power, r, acc | Tallied(acc)
      ensures LevelTally(acc, power, LevelsOf(b, p)(l, power, r, acc).1, LevelsOf(b, p)(l, power, r, acc).2)
    {
      SamplerWrites(b, power, p.evap, p.cond);
      LevelRows(b, SamplerOf(b, power, p.evap, p.cond), p, l, power, r, acc);
    }
  }

  lemma LevelsOfLog(b: Bench, p: Plan)
    ensures Logs(LevelsOf(b, p))
  {
    forall l: nat, power, r, acc ensures Logged(r, LevelsOf(b, p)(l, power, r, acc)) {
      SamplerRecords(b, power, p.evap, p.cond);
      LevelLog(b, SamplerOf(b, power, p.evap, p.cond), p, l, power, r, acc);
    }
  }

  /**
   * The loop over the power levels, from rig `r` and results `acc`, after
   * the levels in `log`: the next level runs, and the loop goes on to the
   * following one unless the run was cut short during it. The final rig and
   * results, every level that ran, and what cut the run short.
   */
  function LevelsFrom(level: Leveller, p: Plan, r: Rig, acc: Results, log: seq<Level>)
    : (Rig, Results, seq<Level>, Option<Abort>)
    decreases |p.powerLevels| - |log|
  {
    if |log| >= |p.powerLevels| then (r, acc, log, None)
    else
      var lv := level(|log|, p.powerLevels[|log|], r, acc);
      if lv.2.abort.Some? then (lv.0, lv.1, log + [lv.2], lv.2.abort)
      else LevelsFrom(level, p, lv.0, lv.1, log + [lv.2])
  }

  /** The errors of the levels in `log`, in order. */
  function ErrorsOf(log: seq<Level>): seq<Error> {
    if log == [] then [] else ErrorsOf(log[..|log| - 1]) + LevelErrors(log[|log| - 1])
  }

  /** The calls of the levels in `log`, in order. */
  function CallsOf(log: seq<Level>): seq<Call> {
    if log == [] then [] else CallsOf(log[..|log| - 1]) + LevelCalls(log[|log| - 1])
  }

  /** The number of samples the levels in `log` took. */
  function SamplesOf(log: seq<Level>): nat {
    if log == [] then 0 else SamplesOf(log[..|log| - 1]) + |log[|log| - 1].polled|
  }

  /**
   * The power levels run in order; a level that fails to get ready does not
   * stop the loop: only a level that was cut short does, and then it is the
   * last one; otherwise every level runs.
   */
  lemma {:induction false} LevelsInOrder(level: Leveller, p: Plan, r: Rig, acc: Results, log: seq<Level>)
    requires |log| <= |p.powerLevels|
    ensures var out := LevelsFrom(level, p, r, acc, log);
      |log| <= |out.2| <= |p.powerLevels| && out.2[..|log|] == log
      && (out.3.None? ==> |out.2| == |p.powerLevels| && forall i :: |log| <= i < |out.2| ==> out.2[i].abort.None?)
      && (out.3.Some? ==>
            |out.2| > |log| && out.2[|out.2| - 1].abort == out.3
            && forall i :: |log| <= i < |out.2| - 1 ==> out.2[i].abort.None?)
    decreases |p.powerLevels| - |log|
  {
    if |log| < |p.powerLevels| {
      var lv := level(|log|, p.powerLevels[|log|], r, acc);
      if lv.2.abort.None? {
        var log' := log + [lv.2];
        LevelsInOrder(level, p, lv.0, lv.1, log');
        var out := LevelsFrom(level, p, lv.0, lv.1, log');
        assert out.2[..|log|] == out.2[..|log'|][..|log|];
        assert out.2[|log|] == out.2[..|log'|][|log|] == lv.2;
      }
    }
  }

  /** Each of `levels` from index `from` on fits plan `p` as the level of that index. */
  ghost predicate PlanFollowed(p: Plan, from: nat, levels: seq<Level>) {
    forall i :: from <= i < |levels| ==> LevelFits(p, i, levels[i])
  }

  /** Every level that runs fits its plan, when each level `level` runs does. */
  lemma {:induction false} LevelsFit(level: Leveller, p: Plan, r: Rig, acc: Results, log: seq<Level>)
    requires Fits(level, p) && |log| <= |p.powerLevels|
    ensures PlanFollowed(p, |log|, LevelsFrom(level, p, r, acc, log).2)
    decreases |p.powerLevels| - |log|
  {
    if |log| < |p.powerLevels| {
      var lv := level(|log|, p.powerLevels[|log|], r, acc);
      FitsAt(level, p, |log|, r, acc);
      if lv.2.abort.None? {
        var log' := log + [lv.2];
        LevelsFit(level, p, lv.0, lv.1, log');
        LevelsInOrder(level, p, lv.0, lv.1, log');
        var out := LevelsFrom(level, p, lv.0, lv.1, log');
        assert out.2[|log|] == out.2[..|log'|][|log|] == lv.2;
      }
    }
  }

  /** `Fits` at one level. */
  lemma FitsAt(level: Leveller, p: Plan, l: nat, r: Rig, acc: Results)
    requires Fits(level, p) && l < |p.powerLevels|
    ensures LevelFits(p, l, level(l, p.powerLevels[l], r, acc).2)
  {
  }

  /**
   * Across the loop, the results hold every row written, at one of the
   * planned powers, and exactly the errors of the levels that ran.
   */
  lemma {:induction false} LevelsTally(level: Leveller, p: Plan, r: Rig, acc: Results, log: seq<Level>)
    requires Tallies(level)
    requires Tallied(acc) && acc.powerLevels == p.powerLevels
    requires acc.errors == ErrorsOf(log) && |acc.rows| == SamplesOf(log)
    ensures var out := LevelsFrom(level, p, r, acc, log);
      Tallied(out.1) && out.1.status == acc.status && out.1.powerLevels == acc.powerLevels
      && out.1.errors == ErrorsOf(out.2) && |out.1.rows| == SamplesOf(out.2)
      && |acc.rows| <= |out.1.rows| && out.1.rows[..|acc.rows|] == acc.rows
      && forall i :: |acc.rows| <= i < |out.1.rows| ==> out.1.rows[i].power in p.powerLevels
    decreases |p.powerLevels| - |log|
  {
    if |log| < |p.powerLevels| {
      var lv := level(|log|, p.powerLevels[|log|], r, acc);
      assert LevelTally(acc, p.powerLevels[|log|], lv.1, lv.2);
      var log' := log + [lv.2];
      assert log'[..|log|] == log;
      assert lv.1.errors == ErrorsOf(log');
      assert |lv.1.rows| == SamplesOf(log');
      if lv.2.abort.None? {
        LevelsTally(level, p, lv.0, lv.1, log');
        var out := LevelsFrom(level, p, lv.0, lv.1, log');
        assert out.1.rows[..|acc.rows|] == out.1.rows[..|lv.1.rows|][..|acc.rows|];
        forall i | |acc.rows| <= i < |out.1.rows| ensures out.1.rows[i].power in p.powerLevels {
          if i < |lv.1.rows| {
            assert out.1.rows[i] == out.1.rows[..|lv.1.rows|][i];
          }
        }
      }
    }
  }

  /** Across the loop, the calls are exactly those of the levels that ran. */
  lemma {:induction false} LevelsLog(level: Leveller, p: Plan, r: Rig, acc: Results, log: seq<Level>,
                                     before: seq<Call>)
    requires Logs(level)
    requires r.calls == before + CallsOf(log)
    ensures var out := LevelsFrom(level, p, r, acc, log);
      out.0.calls == before + CallsOf(out.2)
    decreases |p.powerLevels| - |log|
  {
    if |log| < |p.powerLevels| {
      var lv := level(|log|, p.powerLevels[|log|], r, acc);
      LoggedAt(level, |log|, p.powerLevels[|log|], r, acc);
      var log' := log + [lv.2];
      assert log'[..|log|] == log;
      assert CallsOf(log') == CallsOf(log) + LevelCalls(lv.2);
      assert before + CallsOf(log') == before + CallsOf(log) + LevelCalls(lv.2);
      if lv.2.abort.None? {
        LevelsLog(level, p, lv.0, lv.1, log', before);
      }
    }
  }

  // ---------------------------------------------------------------------
  // The whole run
  // ---------------------------------------------------------------------

  /**
   * The results once the run ends: completed when nothing cut it short,
   * otherwise interrupted, or failed with the exception's message appended.
   */
  function Ending(abort: Option<Abort>, results: Results): (r: Results)
    ensures r.status != InProgress && (r.status == Completed <==> abort.None?)
    ensures r.status == Interrupted <==> abort == Some(Interrupt)
    ensures r.status == Failed <==> abort.Some? && abort.value.Raise?
    ensures r.errors == results.errors + (if r.status == Failed then [Raised(abort.value.message)] else [])
    ensures r.(status := results.status, errors := results.errors) == results
  {
    match abort
    case None => results.(status := Completed)
    case Some(Interrupt) => results.(status := Interrupted)
    case Some(Raise(message)) => results.(status := Failed, errors := results.errors + [Raised(message)])
  }

  /**
   * The calls a run makes once it ends as `status`: on completion only the
   * pump is switched off; an interrupted or failed run also switches the
   * output off first.
   */
  function Shutdown(status: Status, enablePump: bool): seq<Call> {
    (if status == Completed then [] else [OutputOff]) + (if enablePump then [PumpOff] else [])
  }

  /** The rig after the calls of `Shutdown`. */
  function ShutdownSpec(b: Bench, r: Rig, status: Status, enablePump: bool): (out: Rig)
    ensures out.calls == r.calls + Shutdown(status, enablePump) && out.scans == r.scans
  {
    var off := if status == Completed then r else OutputOffStep(b, r);
    if enablePump then off.(calls := off.calls + [PumpOff]) else off
  }

  /** A run: the rig and results it ends with, the levels that ran, and what cut it short. */
  datatype Run = Run(rig: Rig, results: Results, levels: seq<Level>, abort: Option<Abort>)

  /**
   * `run_experiment` once it is not refused, with its levels run by `level`:
   * switch the pump on when asked, open the CSV file (an error there fails
   * the run before any level), run the levels, and end the run.
   */
  function RunSpec(b: Bench, level: Leveller, p: Plan, enablePump: bool, r: Rig): Run {
    var started := if enablePump then r.(calls := r.calls + [PumpOn]) else r;
    var empty := Results(InProgress, p.powerLevels, 0, [], []);
    var run := if p.env.openError.Some? then (started, empty, [], Some(Raise(p.env.openError.value)))
               else LevelsFrom(level, p, started, empty, []);
    var final := Ending(run.3, run.1);
    Run(ShutdownSpec(b, run.0, final.status, enablePump), final, run.2, run.3)
  }

  /** The results every row of which is consistent and counted. */
  predicate Tallied(r: Results) {
    r.samples == |r.rows| && forall i :: 0 <= i < |r.rows| ==> Consistent(r.rows[i]) && Plausible(r.rows[i])
  }

  /**
   * A run ends completed exactly when nothing cut it short; interrupted or
   * failed exactly as what cut it short says. An error opening the file fails
   * the run before any level, with its message as the only error.
   */
  lemma RunEnding(b: Bench, level: Leveller, p: Plan, enablePump: bool, r: Rig)
    ensures var run := RunSpec(b, level, p, enablePump, r);
      run.results.status != InProgress
      && (run.results.status == Completed <==> run.abort.None?)
      && (run.results.status == Interrupted <==> run.abort == Some(Interrupt))
      && (run.results.status == Failed <==> run.abort.Some? && run.abort.value.Raise?)
      && (p.env.openError.Some? ==>
            run.levels == [] && run.abort == Some(Raise(p.env.openError.value))
            && run.results == Results(Failed, p.powerLevels, 0, [Raised(p.env.openError.value)], []))
  {
  }

  /**
   * The levels of a run: when nothing cut it short every level ran, none cut
   * short; otherwise the level that was cut short is the last that ran.
   */
  lemma RunLevelsRan(b: Bench, level: Leveller, p: Plan, enablePump: bool, r: Rig)
    ensures var run := RunSpec(b, level, p, enablePump, r);
      |run.levels| <= |p.powerLevels|
      && (run.abort.None? ==> |run.levels| == |p.powerLevels| && forall i :: 0 <= i < |run.levels| ==> run.levels[i].abort.None?)
      && (p.env.openError.None? && run.abort.Some? ==> |run.levels| > 0 && run.levels[|run.levels| - 1].abort == run.abort)
  {
    if p.env.openError.None? {
      var started := if enablePump then r.(calls := r.calls + [PumpOn]) else r;
      LevelsInOrder(level, p, started, Results(InProgress, p.powerLevels, 0, [], []), []);
    }
  }

  /** Each level of a run fits the plan, when each level `level` runs does. */
  lemma RunLevelsFit(b: Bench, level: Leveller, p: Plan, enablePump: bool, r: Rig)
    requires Fits(level, p)
    ensures PlanFollowed(p, 0, RunSpec(b, level, p, enablePump, r).levels)
  {
    if p.env.openError.None? {
      var started := if enablePump then r.(calls := r.calls + [PumpOn]) else r;
      var empty := Results(InProgress, p.powerLevels, 0, [], []);
      LevelsFit(level, p, started, empty, []);
      assert RunSpec(b, level, p, enablePump, r).levels == LevelsFrom(level, p, started, empty, []).2;
    }
  }

  /**
   * What a run records: every row is consistent, plausible and at a planned
   * power, and counted; the errors are those of its levels, then the
   * exception's message if one was raised; and the calls are the pump's, the
   * levels', then those of the shutdown.
   */
  lemma RunAccount(b: Bench, level: Leveller, p: Plan, enablePump: bool, r: Rig)
    requires Tallies(level) && Logs(level)
    ensures var run := RunSpec(b, level, p, enablePump, r);
      Tallied(run.results) && run.results.powerLevels == p.powerLevels
      && (forall i :: 0 <= i < |run.results.rows| ==> run.results.rows[i].power in p.powerLevels)
      && |run.results.rows| == SamplesOf(run.levels)
      && run.results.errors
           == ErrorsOf(run.levels) + (if run.results.status == Failed then [Raised(run.abort.value.message)] else [])
      && run.rig.calls
           == r.calls + (if enablePump then [PumpOn] else []) + CallsOf(run.levels)
              + Shutdown(run.results.status, enablePump)
  {
    var started := if enablePump then r.(calls := r.calls + [PumpOn]) else r;
    var empty := Results(InProgress, p.powerLevels, 0, [], []);
    var run := if p.env.openError.Some? then (started, empty, [], Some(Raise(p.env.openError.value)))
               else LevelsFrom(level, p, started, empty, []);
    if p.env.openError.None? {
      LevelsTally(level, p, started, empty, []);
      LevelsLog(level, p, started, empty, [], started.calls);
    }
    assert run.0.calls == started.calls + CallsOf(run.2);
    var final := Ending(run.3, run.1);
    assert final.rows == run.1.rows && final.powerLevels == p.powerLevels;
    assert forall i :: 0 <= i < |final.rows| ==> final.rows[i].power in p.powerLevels;
    var rig := ShutdownSpec(b, run.0, final.status, enablePump);
    assert rig.calls == started.calls + CallsOf(run.2) + Shutdown(final.status, enablePump);
  }

  // ---------------------------------------------------------------------
  // The experiment object
  // ---------------------------------------------------------------------

  class ThermalExperiment {
    const fuente: P.FuenteXLN
    const daq: T.Daq
    const scan: nat -> (string -> Option<string>)
    const relay: R.RelayController
    var isRunning: bool
    var currentExperiment: Option<Results>
    var scans: nat
    var calls: seq<Call>

    constructor(fuente: P.FuenteXLN, daq: T.Daq, scan: nat -> (string -> Option<string>), relay: R.RelayController)
      ensures this.fuente == fuente && this.daq == daq && this.scan == scan && this.relay == relay
      ensures !isRunning && currentExperiment == None && scans == 0 && calls == []
    {
      this.fuente := fuente;
      this.daq := daq;
      this.scan := scan;
      this.relay := relay;
      isRunning := false;
      currentExperiment := None;
      scans := 0;
      calls := [];
    }

    function Instruments(): Bench {
      Drivers(fuente.link, daq, scan)
    }

    /** What a run changes: the supply's session, the scans of the board, and the calls made. */
    function State(): Rig
      reads this, fuente
    {
      Rig(fuente.State(), scans, calls)
    }

    /**
     * `get_experiment_status`: whether a run is in progress, with the results
     * of the last run that finished (or none), even while a new run is in
     * progress.
     */
    function GetExperimentStatus(): (r: Report)
      reads this
      ensures r.Running? <==> isRunning
      ensures (if r.Running? then r.experiment else r.lastExperiment) == currentExperiment
    {
      if isRunning then Running(currentExperiment) else Idle(currentExperiment)
    }

    // Each driver call the run makes, proved against its step on the rig.

    method CallSetVoltage(v: real) returns (ok: bool)
      modifies this, fuente
      ensures (State(), ok) == SetVoltageStep(Instruments(), old(State()), v)
      ensures isRunning == old(isRunning) && currentExperiment == old(currentExperiment)
    {
      ok := fuente.SetVoltage(v);
      calls := calls + [SetVoltage(v, ok)];
    }

    method CallSetCurrent(i: real) returns (ok: bool)
      modifies this, fuente
      ensures (State(), ok) == SetCurrentStep(Instruments(), old(State()), i)
      ensures isRunning == old(isRunning) && currentExperiment == old(currentExperiment)
    {
      ok := fuente.SetCurrent(i);
      calls := calls + [SetCurrent(i, ok)];
    }

    method CallOutputOn() returns (ok: bool)
      modifies this, fuente
      ensures (State(), ok) == OutputOnStep(Instruments(), old(State()))
      ensures isRunning == old(isRunning) && currentExperiment == old(currentExperiment)
    {
      ok := fuente.OutputOn();
      calls := calls + [OutputOn(ok)];
    }

    method CallOutputOff()
      modifies this, fuente
      ensures State() == OutputOffStep(Instruments(), old(State()))
      ensures isRunning == old(isRunning) && currentExperiment == old(currentExperiment)
    {
      var ok := fuente.OutputOff();
      calls := calls + [OutputOff];
    }

    method CallMeasureVoltage() returns (v: Option<real>)
      modifies this, fuente
      ensures (State(), v) == MeasureStep(Instruments(), old(State()), "MEAS:VOLT?", MeasureVoltage)
      ensures isRunning == old(isRunning) && currentExperiment == old(currentExperiment)
    {
      v := fuente.MeasureVoltage();
      calls := calls + [MeasureVoltage];
    }

    method CallMeasureCurrent() returns (i: Option<real>)
      modifies this, fuente
      ensures (State(), i) == MeasureStep(Instruments(), old(State()), "MEAS:CURR?", MeasureCurrent)
      ensures isRunning == old(isRunning) && currentExperiment == old(currentExperiment)
    {
      i := fuente.MeasureCurrent();
      calls := calls + [MeasureCurrent];
    }

    /** `read_all_channels`, answered by the tool as it stands at this scan of the board. */
    method CallReadAllChannels() returns (temps: map<int, Option<real>>)
      modifies this
      ensures (State(), temps) == ScanStep(Instruments(), old(State()))
      ensures isRunning == old(isRunning) && currentExperiment == old(currentExperiment)
    {
      temps := T.ReadAllChannels(daq, scan(scans));
      scans := scans + 1;
      calls := calls + [ReadAllChannels];
    }

    method CallCheckProtections() returns (status: P.ProtectionStatus)
      modifies this, fuente
      ensures (State(), status) == PollStep(Instruments(), old(State()))
      ensures isRunning == old(isRunning) && currentExperiment == old(currentExperiment)
    {
      var protections := fuente.CheckProtections();
      status := protections.status;
      calls := calls + [CheckProtections(status)];
    }

    method CallPumpOn()
      requires relay.Valid()
      modifies this, relay
      ensures relay.Valid()
      ensures State() == old(State()).(calls := old(calls) + [PumpOn])
      ensures isRunning == old(isRunning) && currentExperiment == old(currentExperiment)
    {
      var ok := relay.Activate(PumpRelay);
      calls := calls + [PumpOn];
    }

    /** Switching the pump off leaves its relay inactive whenever the write goes through. */
    method CallPumpOff()
      requires relay.Valid()
      modifies this, relay
      ensures relay.Valid()
      ensures relay.Writable(PumpRelay) ==> !relay.GetRelayState(PumpRelay)
      ensures State() == old(State()).(calls := old(calls) + [PumpOff])
      ensures isRunning == old(isRunning) && currentExperiment == old(currentExperiment)
    {
      var ok := relay.Deactivate(PumpRelay);
      calls := calls + [PumpOff];
    }

    /** The preparation of a level with settings `settings`. */
    method Prepare(settings: Option<(real, real)>) returns (setup: Setup)
      modifies this, fuente
      ensures (State(), setup) == PrepareSpec(Instruments(), old(State()), settings)
      ensures isRunning == old(isRunning) && currentExperiment == old(currentExperiment)
    {
      if settings.None? {
        return Unsettable;
      }
      var v := settings.value.0;
      var ok := CallSetVoltage(v);
      if !ok {
        return VoltageFailed(v);
      }
      setup := Energize(v, settings.value.1);
    }

    /** The preparation once the voltage `v` was confirmed. */
    method Energize(v: real, i: real) returns (setup: Setup)
      modifies this, fuente
      ensures (State(), setup) == EnergizeSpec(Instruments(), old(State()), v, i)
      ensures isRunning == old(isRunning) && currentExperiment == old(currentExperiment)
    {
      var ok := CallSetCurrent(i * CurrentMargin);
      if !ok {
        return CurrentFailed(v, i);
      }
      ok := CallOutputOn();
      if !ok {
        return OutputFailed(v, i);
      }
      setup := Ready(v, i);
    }

    /** One iteration of the sampling loop. */
    method TakeSample(power: real, evap: seq<int>, cond: seq<int>) returns (row: Row, status: P.ProtectionStatus)
      modifies this, fuente
      ensures (State(), row, status) == SampleSpec(Instruments(), old(State()), power, evap, cond)
      ensures isRunning == old(isRunning) && currentExperiment == old(currentExperiment)
    {
      var voltage := CallMeasureVoltage();
      var current := CallMeasureCurrent();
      var temps := CallReadAllChannels();
      row := SampleRow(power, voltage, current, temps, evap, cond);
      status := CallCheckProtections();
    }

    /** The sampling loop of level `l`, appending to `results`. */
    method SampleLevel(p: Plan, l: nat, results: Results)
      returns (next: Results, polled: seq<P.ProtectionStatus>, abort: Option<Abort>)
      requires l < |p.powerLevels|
      modifies this, fuente
      ensures (State(), next, polled, abort)
           == SamplingFrom(SamplerOf(Instruments(), p.powerLevels[l], p.evap, p.cond), p.env, l, old(State()), results, [])
      ensures isRunning == old(isRunning) && currentExperiment == old(currentExperiment)
    {
      next, polled, abort := results, [], None;
      while |polled| < p.env.samplesFitting(l) && !Tripped(polled)
        invariant SamplingFrom(SamplerOf(Instruments(), p.powerLevels[l], p.evap, p.cond), p.env, l, old(State()), results, [])
               == SamplingFrom(SamplerOf(Instruments(), p.powerLevels[l], p.evap, p.cond), p.env, l, State(), next, polled)
        invariant abort.None?
        invariant isRunning == old(isRunning) && currentExperiment == old(currentExperiment)
        decreases p.env.samplesFitting(l) - |polled|
      {
        abort := p.env.abort(l, |polled|);
        if abort.Some? {
          return;
        }
        var row, status := TakeSample(p.powerLevels[l], p.evap, p.cond);
        next := next.(samples := next.samples + 1, rows := next.rows + [row]);
        if status != P.Ok {
          next := next.(errors := next.errors + [ProtectionTripped(status)]);
        }
        polled := polled + [status];
      }
    }

    /** Level `l` of the run (the body of the loop over `power_levels`), appended to `results`. */
    method RunLevel(p: Plan, l: nat, results: Results) returns (next: Results, level: Level)
      requires l < |p.powerLevels|
      modifies this, fuente
      ensures (State(), next, level)
           == LevelSpec(Instruments(), SamplerOf(Instruments(), p.powerLevels[l], p.evap, p.cond), p, l,
                        p.powerLevels[l], old(State()), results)
      ensures isRunning == old(isRunning) && currentExperiment == old(currentExperiment)
    {
      var power := p.powerLevels[l];
      var setup := Prepare(PowerSettings(p.env.sqrt, power, p.resistance));
      if !setup.Ready? {
        return results.(errors := results.errors + [SetupError(setup, power)]), Level(power, setup, [], None);
      }
      var polled, abort;
      next, polled, abort := SampleLevel(p, l, results);
      if abort.None? {
        CallOutputOff();
      }
      level := Level(power, setup, polled, abort);
    }

    /** The loop over the power levels, from empty results. */
    method RunLevels(p: Plan) returns (results: Results, levels: seq<Level>, abort: Option<Abort>)
      modifies this, fuente
      ensures (State(), results, levels, abort)
           == LevelsFrom(LevelsOf(Instruments(), p), p, old(State()), Results(InProgress, p.powerLevels, 0, [], []), [])
      ensures isRunning == old(isRunning) && currentExperiment == old(currentExperiment)
    {
      results, levels, abort := Results(InProgress, p.powerLevels, 0, [], []), [], None;
      while |levels| < |p.powerLevels|
        invariant LevelsFrom(LevelsOf(Instruments(), p), p, old(State()), Results(InProgress, p.powerLevels, 0, [], []), [])
               == LevelsFrom(LevelsOf(Instruments(), p), p, State(), results, levels)
        invariant isRunning == old(isRunning) && currentExperiment == old(currentExperiment)
        decreases |p.powerLevels| - |levels|
      {
        var level;
        results, level := RunLevel(p, |levels|, results);
        levels := levels + [level];
        if level.abort.Some? {
          return results, levels, level.abort;
        }
      }
    }

    /** The end of a run: its status, then the output (when cut short) and the pump switched off. */
    method Finish(abort: Option<Abort>, results: Results, enablePump: bool) returns (final: Results)
      requires relay.Valid()
      modifies this, fuente, relay
      ensures relay.Valid()
      ensures final == Ending(abort, results)
      ensures State() == ShutdownSpec(Instruments(), old(State()), final.status, enablePump)
      ensures enablePump && relay.Writable(PumpRelay) ==> !relay.GetRelayState(PumpRelay)
      ensures isRunning == old(isRunning) && currentExperiment == old(currentExperiment)
    {
      match abort {
        case None =>
          final := results.(status := Completed);
        case Some(Interrupt) =>
          final := results.(status := Interrupted);
          CallOutputOff();
        case Some(Raise(message)) =>
          final := results.(status := Failed, errors := results.errors + [Raised(message)]);
          CallOutputOff();
      }
      if enablePump {
        CallPumpOff();
      }
    }

    /**
     * `run_experiment`: refused while a run is in progress; otherwise the run
     * `RunSpec` describes, after which `is_running` is cleared and the results
     * are kept, with the pump left off.
     */
    method RunExperiment(env: Environment, powerLevels: seq<real>, resistance: real, evap: seq<int>, cond: seq<int>,
                         enablePump: bool)
      returns (outcome: Outcome)
      requires relay.Valid()
      modifies this, fuente, relay
      ensures relay.Valid()
      ensures old(isRunning) ==> outcome == AlreadyRunning && isRunning && State() == old(State())
      ensures old(isRunning) ==> currentExperiment == old(currentExperiment) && unchanged(fuente, relay)
      ensures !old(isRunning) ==>
        var p := Plan(env, powerLevels, resistance, evap, cond);
        var run := RunSpec(Instruments(), LevelsOf(Instruments(), p), p, enablePump, old(State()));
        outcome == Finished(run.results) && State() == run.rig
        && !isRunning && currentExperiment == Some(run.results)
      ensures outcome.Finished? && enablePump && relay.Writable(PumpRelay) ==> !relay.GetRelayState(PumpRelay)
    {
      if isRunning {
        return AlreadyRunning;
      }
      isRunning := true;
      var p := Plan(env, powerLevels, resistance, evap, cond);
      if enablePump {
        CallPumpOn();
      }
      var results := Results(InProgress, powerLevels, 0, [], []);
      var levels: seq<Level> := [];
      var abort: Option<Abort> := None;
      if env.openError.Some? {
        abort := Some(Raise(env.openError.value));
      } else {
        results, levels, abort := RunLevels(p);
      }
      results := Finish(abort, results, enablePump);
      isRunning := false;
      currentExperiment := Some(results);
      outcome := Finished(results);
    }
  }
}

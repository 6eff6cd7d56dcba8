# LabPiPanel thermal rig, modelled in Dafny

This project models the four components of the LabPiPanel thermal-rig controller that do the work:

- the BK Precision XLN30052 power-supply driver (`FuenteXLN`);
- the USB-5203 thermocouple acquisition (`DAQUSB5203`);
- the four-relay board (`RelayController`);
- the automated thermal experiment (`ThermalExperiment`), which drives the other three.

The hardware is replaced by oracles:

- The supply's Telnet end is a per-step script (`PowerSupply.Link`). For each connection attempt it says whether the connection opens. For each exchange it gives the line read back, or `None` when the write or read raises.
- The MCC command-line tool is a function from the command line to its output, or `None` when it fails. During a run the tool is indexed by the number of scans of the board so far, so each scan may read different temperatures.
- The GPIO library is a `Backend`: `Simulated` when it cannot be imported, or `Hardware(failing)`, where writes to the pins in `failing` raise.
- What the experiment cannot see (`math.sqrt`, the clock, the CSV file, the operator's interrupts) is an `Experiment.Environment`.

Files and modules:

| file | module | models |
|---|---|---|
| `options.dfy` | `Options` | the optional value used throughout |
| `text.dfy` | `Text` | `str.strip()`, `int()` and `float()` on replies, the setpoint text `f"{x:.Nf}"`, the number pattern `[-+]?\d*\.?\d+` |
| `stats.dfy` | `Stats` | `sum` and the arithmetic mean |
| `power_supply.dfy` | `PowerSupply` | `fuente_xln.py` |
| `thermocouples.dfy` | `Thermocouples` | `daq_usb5203.py` |
| `relays.dfy` | `Relays` | `relay_controller.py` |
| `experiment.dfy` | `Experiment` | `thermal_experiment.py` |

Each object the source updates in place is a class:

- `FuenteXLN` holds its connection flag, a step counter and the frames it wrote.
- `RelayController` holds its state map and the GPIO calls it made.
- `ThermalExperiment` holds `is_running`, `current_experiment` and the driver calls it made.

Their methods are written step by step, as the source is. Each method is proved against a pure function of the old state: `Transact`, `ApplyVoltage`, `Switch`, `OpenAll`, and for the experiment `PrepareSpec`, `SampleSpec`, `SamplingFrom`, `LevelSpec`, `LevelsFrom` and `RunSpec`. The experiment's functions take the supply's driver operations and the board's scans as a `Bench`, and `Drivers` builds that bench from the drivers' own functions. Lemmas then prove what the source promises about those functions.

Two behaviours of the protection check, modelled as the code has them:

- `check_protections` tests the bits in the order OVP (bit 0), OCP (bit 1), OPP (bit 2), and each set bit overwrites the status. So when several are set, the highest set bit names the status (`DecodeRegister`).
- A missing or empty protection reply leaves the status `ok` (`ProtectionsOf`). So a supply that cannot be reached never trips a level.

The run asks the supply for a current limit 1.1 times the computed current. The settings check only bounds the computed current by 5.2 A, while `set_current` refuses anything above 5.2 A. So every level whose current lies in (5.2/1.1, 5.2] A passes the check and is then rejected by the supply driver (`MarginExceedsSupply`). The model keeps this behaviour as written.

## Model

| member | source | states |
|---|---|---|
| Text.StripShape | fuente_xln.py:87 | `strip()` keeps a contiguous slice that neither starts nor ends with whitespace, and drops only whitespace around it |
| Text.StripPadding | daq_usb5203.py:74 | stripping text padded with whitespace on both sides gives back the unpadded core |
| Text.ParseInt | fuente_xln.py:284 | `int()` accepts a string exactly when it is a non-empty digit string, optionally after one sign; the value is the digits' decimal value, negated after a minus |
| Text.IntTextRoundTrip | fuente_xln.py:284 | every integer written in decimal is read back exactly by `int()` |
| Text.UnsignedAccepts | fuente_xln.py:148 | an unsigned numeral is accepted exactly when it matches the decimal grammar `\d+(\.\d*)?\|\.\d+` |
| Text.ParseDecimal | fuente_xln.py:148 | `float()` of a reply succeeds exactly when the reply is a signed decimal, and a negative value comes from a leading minus |
| Text.RoundHalfEven | fuente_xln.py:129 | the rounded integer is within one half of its argument |
| Text.FormatUnsigned | fuente_xln.py:129 | the setpoint text has at least one whole digit, a dot, exactly the requested number of decimals, and nothing but digits and the dot |
| Text.FormatUnsignedRoundTrip | fuente_xln.py:129-131 | `float()` reads back exactly the value the formatted text rounds to |
| Text.RoundedNear | fuente_xln.py:129 | that rounded value is within half a unit in the last place of the setpoint |
| Text.TokenIsDecimal | daq_usb5203.py:106-108 | every substring the number pattern matches is accepted by `float()` |
| Text.MatchEndIsToken | daq_usb5203.py:106 | the greedy match at a position is a match of the pattern |
| Text.MatchIsLongest | daq_usb5203.py:106 | no longer match starts at the same position |
| Text.NoTokenAt | daq_usb5203.py:106 | when the greedy match fails, no substring starting there matches |
| Text.FindToken | daq_usb5203.py:106 | the span found is a match of the pattern, and the greedy one at its start |
| Text.FindTokenLongest | daq_usb5203.py:106 | the span found is the longest match at its position |
| Text.FindTokenLeftmost | daq_usb5203.py:106 | no match starts before the span found, and nothing matches anywhere when none is found |
| Text.FirstNumberNone | daq_usb5203.py:106-118 | the scan yields no number exactly when no substring of the output matches the pattern |
| Stats.Mean | daq_usb5203.py:190-195 | there is no mean of an empty list; otherwise the mean times the count is the sum |
| Stats.SumWithin | daq_usb5203.py:195 | the sum of values in [lo, hi] lies between count times lo and count times hi |
| Stats.MeanWithin | daq_usb5203.py:195 | the mean of values in [lo, hi] lies in [lo, hi] |
| PowerSupply.Frame | fuente_xln.py:82 | every frame written ends with CR LF |
| PowerSupply.FrameStrip | fuente_xln.py:82 | the frame carries the stripped command: stripping the frame gives it back |
| PowerSupply.Reply | fuente_xln.py:84-93 | a reply exists only when the exchange went through; a command that is not a query always answers `OK` when it does |
| PowerSupply.Open | fuente_xln.py:36-54 | after `connect` a connection is held exactly when one was held or the attempt succeeded; nothing is written |
| PowerSupply.Transact | fuente_xln.py:67-97 | `_send_command` writes the framed command exactly when a connection is held or opens; it answers `None` exactly when it leaves no connection; otherwise it answers as `Reply` says |
| PowerSupply.CommandAcknowledged | fuente_xln.py:90-93 | a command that is not a query answers `OK` exactly when it is written and the write goes through |
| PowerSupply.QueryAnswered | fuente_xln.py:84-89 | a query answers the stripped line the supply sent, or `None` when the line is not ASCII |
| PowerSupply.ReadReal | fuente_xln.py:147-154 | a number is read only from a reply that exists and is not empty |
| PowerSupply.ReadRealAccepts | fuente_xln.py:147-154 | a reply is read as a number exactly when it is a decimal numeral |
| PowerSupply.Query | fuente_xln.py:140-226 | each getter and measurement reads the reply of its query as a number, and leaves the session as `_send_command` does |
| PowerSupply.SetpointSound | fuente_xln.py:128-138 | a confirmed setpoint was written and then read back, on a connection held throughout, and the reading is within the tolerance |
| PowerSupply.SetpointComplete | fuente_xln.py:128-138 | conversely, the setpoint is confirmed whenever both exchanges go through and the reading is within the tolerance |
| PowerSupply.ApplyVoltage | fuente_xln.py:113-124 | a voltage outside [0, 300] is refused without touching the session or the link |
| PowerSupply.ApplyCurrent | fuente_xln.py:156-167 | a current outside [0, 5.2] is refused without touching the session or the link |
| PowerSupply.VoltageSound | fuente_xln.py:113-138 | a confirmed voltage is in range, was written as `VOLT` then `VOLT?`, and was read back within 0.5 V |
| PowerSupply.CurrentSound | fuente_xln.py:156-178 | a confirmed current is in range, was written as `CURR` then `CURR?`, and was read back within 0.01 A |
| PowerSupply.EchoReading | fuente_xln.py:129-131 | a supply that echoes the setpoint text is read as the setpoint rounded to the written decimals |
| PowerSupply.EchoWithin | fuente_xln.py:129-131 | that echo is within any tolerance larger than half a unit in the last place |
| PowerSupply.HalfUnitWithin | fuente_xln.py:129-131 | half a unit in the last written decimal is inside the 0.5 V and 0.01 A tolerances |
| PowerSupply.SetpointEcho | fuente_xln.py:128-138 | a setpoint is confirmed by a supply that acknowledges the write and echoes the value |
| PowerSupply.VoltageEchoConfirms | fuente_xln.py:113-138 | `set_voltage` of a valid voltage succeeds against a supply that acknowledges and echoes it |
| PowerSupply.CurrentEchoConfirms | fuente_xln.py:156-178 | `set_current` of a valid current succeeds against a supply that acknowledges and echoes it |
| PowerSupply.Command | fuente_xln.py:228-252 | `output_on`, `output_off` and `reset_protections` succeed exactly when the command is written and the write goes through, which is exactly when the connection is kept |
| PowerSupply.OutputStateOf | fuente_xln.py:261-267 | the output is on exactly for a reply `1` or `ON`, and off exactly for `0` or `OFF` |
| PowerSupply.OutputStateReported | fuente_xln.py:254-267 | a supply answering one of the four state words, padded with whitespace, is read as being in that state |
| PowerSupply.Identify | fuente_xln.py:321-332 | an identification exists only as the non-empty stripped reply to `*IDN?` on a connection still held |
| PowerSupply.DecodeRegister | fuente_xln.py:288-301 | the flags are bits 0, 1 and 2 of the register; the status is `ok` exactly when none is set, otherwise it names the highest set bit; it is never `error` |
| PowerSupply.DecodeRegisterLowBits | fuente_xln.py:288-301 | bits above bit 2 are ignored |
| PowerSupply.ProtectionsOf | fuente_xln.py:276-306 | no reply or an empty one leaves everything clear; a reply `int()` rejects gives `error` with no flag; an integer reply is decoded; the status is `ok` exactly when no flag is set and the reply was not rejected |
| PowerSupply.ProtectionsOfRegisterLine | fuente_xln.py:284-286 | a register value the supply writes in decimal on a line of its own is decoded as that value |
| PowerSupply.PollReadsRegister | fuente_xln.py:269-301 | the poll `STAT:QUES:COND?` of a reachable supply that answers its register in decimal on a line of its own keeps the connection and reports the flags and status of that register |
| PowerSupply.FuenteXLN.constructor | fuente_xln.py:18-34 | a new driver holds no connection and has written nothing |
| PowerSupply.FuenteXLN.Connect | fuente_xln.py:36-54 | the new state and the result are those of `Open` |
| PowerSupply.FuenteXLN.Disconnect | fuente_xln.py:56-65 | the connection is dropped and nothing else changes |
| PowerSupply.FuenteXLN.SendCommand | fuente_xln.py:67-97 | the new state and the reply are those of `Transact` |
| PowerSupply.FuenteXLN.QueryReal | fuente_xln.py:140-154 | the new state and the value are those of `Query` |
| PowerSupply.FuenteXLN.GetVoltage | fuente_xln.py:140-154 | `Query` of `VOLT?` |
| PowerSupply.FuenteXLN.GetCurrent | fuente_xln.py:180-194 | `Query` of `CURR?` |
| PowerSupply.FuenteXLN.MeasureVoltage | fuente_xln.py:196-210 | `Query` of `MEAS:VOLT?` |
| PowerSupply.FuenteXLN.MeasureCurrent | fuente_xln.py:212-226 | `Query` of `MEAS:CURR?` |
| PowerSupply.FuenteXLN.SetVoltage | fuente_xln.py:113-138 | the new state and the result are those of `ApplyVoltage` |
| PowerSupply.FuenteXLN.SetCurrent | fuente_xln.py:156-178 | the new state and the result are those of `ApplyCurrent` |
| PowerSupply.FuenteXLN.OutputOn | fuente_xln.py:228-239 | `Command` of `OUTP ON` |
| PowerSupply.FuenteXLN.OutputOff | fuente_xln.py:241-252 | `Command` of `OUTP OFF` |
| PowerSupply.FuenteXLN.GetOutputState | fuente_xln.py:254-267 | the reply to `OUTP?` read by `OutputStateOf` |
| PowerSupply.FuenteXLN.CheckProtections | fuente_xln.py:269-306 | the reply to `STAT:QUES:COND?` read by `ProtectionsOf` |
| PowerSupply.FuenteXLN.ResetProtections | fuente_xln.py:308-319 | `Command` of `*CLS` |
| PowerSupply.FuenteXLN.GetIdentification | fuente_xln.py:321-332 | the new state and the result are those of `Identify` |
| Thermocouples.Upper | daq_usb5203.py:29 | `upper()` maps each character on its own and keeps the length |
| Thermocouples.NewDaq | daq_usb5203.py:18-38 | construction succeeds exactly when the upper-cased type is one of J, K, R, S, T, N, E, B, and then stores the upper-cased type |
| Thermocouples.NewDaqAccepts | daq_usb5203.py:28-36 | exactly the one-letter type names are accepted, in either case |
| Thermocouples.Interpret | daq_usb5203.py:102-118 | a reading taken from the tool's output lies in [-270, 2000] |
| Thermocouples.ReadChannel | daq_usb5203.py:85-122 | a reading exists only for a channel in range |
| Thermocouples.InvalidChannelRunsNothing | daq_usb5203.py:95-96 | a channel out of range gives `None` whatever the tool would answer, so the tool is not consulted |
| Thermocouples.ReadChannelSome | daq_usb5203.py:85-122 | a reading exists exactly when the channel is in range, the tool succeeds, its stripped output contains a number, and the first number is in [-270, 2000] |
| Thermocouples.ReadAllChannels | daq_usb5203.py:124-139 | the keys are exactly the channels 0 to n-1, and each entry is that channel's own reading |
| Thermocouples.ReadChannelsList | daq_usb5203.py:141-156 | the keys are exactly the requested channels, and each entry is that channel's own reading |
| Thermocouples.MissingKeys | daq_usb5203.py:165-173 | the list is strictly ascending and holds exactly the keys whose reading is `None` |
| Thermocouples.CheckOpenThermocouples | daq_usb5203.py:158-175 | the open channels are listed in ascending order, and they are exactly the channels in range without a reading |
| Thermocouples.Distinct | daq_usb5203.py:151-154 | the dictionary's keys are the requested channels, each once |
| Thermocouples.PresentExact | daq_usb5203.py:188 | a value is kept exactly when it is present, and nothing is kept exactly when every entry is `None` |
| Thermocouples.PresentWithin | daq_usb5203.py:188 | bounds on the present values hold for the list that keeps them |
| Thermocouples.PresentCount | daq_usb5203.py:188 | one value is kept per present entry |
| Thermocouples.ImageCount | daq_usb5203.py:187-188 | with distinct keys there are as many keys with a reading as entries with one |
| Thermocouples.PresentMean | daq_usb5203.py:187-197 | the mean of the valid readings: there is none exactly when no reading is kept, and otherwise it times their number is their sum |
| Thermocouples.AverageNone | daq_usb5203.py:177-197 | there is no average exactly when no requested channel has a reading |
| Thermocouples.AverageValid | daq_usb5203.py:177-197 | the average lies in [-270, 2000] |
| Thermocouples.AverageCountsEachChannelOnce | daq_usb5203.py:177-197 | the mean is over exactly one reading per distinct requested channel that has one |
| Relays.Toggled | relay_controller.py:114-119 | toggling flips the named relay's recorded state and keeps every other relay and the key set |
| Relays.ToggleTwice | relay_controller.py:100-119 | toggling twice restores every state |
| Relays.SetupEvents | relay_controller.py:33-36 | each configured pin is set up as an output at HIGH, in configuration order |
| Relays.RelayController.Switch | relay_controller.py:46-98 | switching succeeds exactly when the name is configured and its pin write does not raise; a failure changes nothing; a success sets only the named relay and adds no key; on hardware it makes one write of LOW (on) or HIGH (off), in simulation none |
| Relays.RelayController.OpenAllSucceeds | relay_controller.py:149-160 | opening relays in turn succeeds exactly when every write goes through |
| Relays.RelayController.OpenAllStates | relay_controller.py:149-156 | opening relays in turn opens exactly the writable relays named and keeps every other state |
| Relays.RelayController.AllOpened | relay_controller.py:142-160 | when every write goes through, no relay is left active and the key set is unchanged |
| Relays.RelayController.constructor | relay_controller.py:23-44 | every configured relay is recorded inactive and the keys are those of the pin table; on hardware every pin is set up HIGH, in simulation nothing is written |
| Relays.RelayController.Activate | relay_controller.py:46-71 | the result is true exactly for a writable relay, and the new states and writes are those of `Switch` to active |
| Relays.RelayController.Deactivate | relay_controller.py:73-98 | the result is true exactly for a writable relay, and the new states and writes are those of `Switch` to inactive |
| Relays.RelayController.Toggle | relay_controller.py:100-119 | the relay is switched to the opposite of its recorded state, without reading the hardware |
| Relays.RelayController.GetRelayState | relay_controller.py:121-131 | the state last recorded, and false for an unknown name |
| Relays.RelayController.GetAllStates | relay_controller.py:133-140 | the same keys as the state map, each with that relay's recorded state |
| Relays.RelayController.DeactivateAll | relay_controller.py:142-160 | the result, the states and the writes are those of `OpenAll` over the relays in configuration order |
| Relays.RelayController.Cleanup | relay_controller.py:162-167 | on hardware every relay is opened and the pins are released; in simulation nothing changes |
| Experiment.PowerSettings | thermal_experiment.py:50-73 | settings exist exactly when the resistance is not zero, the product P·R is not negative, and the voltage `sqrt(P·R)` and the current `sqrt(P·R)/R` are within 300 V and 5.2 A; they are then that voltage and that current, whose product with R is the voltage |
| Experiment.PowerDelivered | thermal_experiment.py:61-70 | with an exact square root the settings obey Ohm's law and deliver exactly the requested power |
| Experiment.MarginExceedsSupply | thermal_experiment.py:186 | a current in (5.2/1.1, 5.2] passes the settings check, but its 1.1 margin is refused by `set_current` without contacting the supply |
| Experiment.ThermalResistance | thermal_experiment.py:75-101 | none exactly for a power that is not positive; otherwise the result times the power is the temperature difference |
| Experiment.SleepTime | thermal_experiment.py:253-257 | the pause is never negative, never longer than the interval, and is what remains of the interval when anything does |
| Experiment.Shown | thermal_experiment.py:225-237 | a cell shows a value exactly when it is truthy, and then shows that value |
| Experiment.GroupAverage | thermal_experiment.py:209-213 | the group average times the number of readings kept is their sum |
| Experiment.GroupAverageNone | thermal_experiment.py:209-213 | a group has no average exactly when none of its channels has a reading |
| Experiment.GroupAverageValid | thermal_experiment.py:209-213 | the average of plausible readings is a plausible temperature |
| Experiment.SampleResistance | thermal_experiment.py:215-217 | the thermal resistance is computed exactly when both averages are truthy and the power is positive, and it is their difference per watt |
| Experiment.SampleRow | thermal_experiment.py:219-238 | a row carries the level's power and is consistent: eight temperature columns, a thermal resistance only beside both averages, and no cell showing zero |
| Experiment.SampleRowPlausible | thermal_experiment.py:207-238 | a row built from plausible readings shows only plausible temperatures and averages |
| Experiment.DriversReadPlausibly | thermal_experiment.py:207 | every reading of every scan of the board during a run, whatever the tool answers at that scan, is in [-270, 2000] |
| Experiment.DriversConfirm | thermal_experiment.py:180-196 | the supply's driver confirms a voltage or a current limit only when it is in range and was written then read back, and the output only when `OUTP ON` was written on a connection still held |
| Experiment.PrepareSpec | thermal_experiment.py:172-196 | a level without settings makes no call; otherwise the supply is sent the level's voltage, then its current times 1.1, then `OUTP ON`, each only after the previous one was confirmed; the calls carry the supply's answers and the last one tried is the first refused |
| Experiment.EnergizeSpec | thermal_experiment.py:186-196 | once the voltage is confirmed, the current limit with its margin and then the output are tried, stopping at the first refusal, which names how the preparation ended |
| Experiment.PrepareReady | thermal_experiment.py:172-196 | a level is ready only with its own settings, both in the supply's range (the current with its margin), after `VOLT`/`VOLT?`, `CURR`/`CURR?` and `OUTP ON` were written in that order, on a connection still held |
| Experiment.PrepareMargin | thermal_experiment.py:172-190 | a level whose current times 1.1 exceeds 5.2 A has settings but never gets ready: it fails at the voltage or at the current limit, and the supply sees only the voltage exchange |
| Experiment.SampleSpec | thermal_experiment.py:201-251 | one sample measures the voltage and the current, scans the board once, builds a consistent row at the level's power from what they answered, then polls the protections, recording the status polled |
| Experiment.SamplePlausible | thermal_experiment.py:207-238 | when the board reads only plausible temperatures, every row a sample writes shows only plausible temperatures and averages |
| Experiment.SamplingGrows | thermal_experiment.py:201-257 | the sampling loop only appends polls to those already taken |
| Experiment.SamplingRows | thermal_experiment.py:221-244 | the loop writes one consistent, plausible row at the level's power per sample, after the rows already written, and counts each; the status and power levels of the results are kept |
| Experiment.SamplingPolls | thermal_experiment.py:201-257 | every status polled but the last is `ok`; a poll that is not `ok` appends exactly its status as an error and ends the level, and no other error is appended; the run is cut short only where the environment says, before a sample; otherwise the level takes every sample its duration allows |
| Experiment.SamplingCalls | thermal_experiment.py:201-251 | the loop's calls are those of its samples, in order, each with the status it polled, and each sample scans the board once |
| Experiment.LevelShape | thermal_experiment.py:169-262 | each level runs at its planned power with that power's settings; a level that is not ready takes no sample; all polls but the last are `ok`; the run is cut short only where the environment says; a level neither tripped nor cut short takes every sample its duration allows |
| Experiment.LevelRows | thermal_experiment.py:169-262 | a level keeps the rows before it, adds one row at its power per sample, and appends exactly its own error: the failed preparation step's, or the tripped status |
| Experiment.LevelLog | thermal_experiment.py:169-262 | a level makes exactly the preparation's calls, then, when ready, its samples' calls and `OUTP OFF` unless the run was cut short |
| Experiment.LevelsOfFit | thermal_experiment.py:169-262 | every level the drivers run fits its plan |
| Experiment.LevelsOfTally | thermal_experiment.py:169-262 | every level the drivers run keeps the rows consistent, plausible and counted, and appends exactly its errors |
| Experiment.LevelsOfLog | thermal_experiment.py:169-262 | every level the drivers run makes exactly its calls |
| Experiment.LevelsInOrder | thermal_experiment.py:169-196 | the levels run in order; a level that fails to get ready does not stop the loop; only a level that is cut short does, and then it is the last to run; otherwise every level runs |
| Experiment.LevelsFit | thermal_experiment.py:169-262 | each level that ran is the level of its index in the plan, and fits it |
| Experiment.LevelsTally | thermal_experiment.py:169-262 | across the loop the results keep every row written, each at a planned power, all counted, and hold exactly the errors of the levels that ran, in order |
| Experiment.LevelsLog | thermal_experiment.py:169-262 | across the loop the calls are exactly those of the levels that ran, in order |
| Experiment.Ending | thermal_experiment.py:268-288 | the status is completed exactly when nothing cut the run short, interrupted exactly after an interrupt, and error exactly after an exception, whose message alone is appended; nothing else in the results changes |
| Experiment.ShutdownSpec | thermal_experiment.py:264-288 | after the levels the output is switched off when the run was interrupted or failed, then the pump when it was enabled |
| Experiment.RunEnding | thermal_experiment.py:151-292 | the run never ends in progress, and its status follows what cut it short; an error opening the CSV file fails the run before any level, with that message as its only error |
| Experiment.RunLevelsRan | thermal_experiment.py:169-262 | when nothing cuts the run short every planned level runs, none cut short; otherwise the level cut short is the last that ran |
| Experiment.RunLevelsFit | thermal_experiment.py:169-262 | each level of a run fits the plan at its index |
| Experiment.RunAccount | thermal_experiment.py:142-292 | every row of the results is consistent, plausible, at a planned power and counted; the errors are the levels' in order, then the exception's message; the calls are the pump's, the levels', then the shutdown's |
| Experiment.ThermalExperiment.constructor | thermal_experiment.py:25-48 | a new experiment is not running, has no results and has made no call |
| Experiment.ThermalExperiment.GetExperimentStatus | thermal_experiment.py:296-312 | the report says running exactly when a run is in progress, and carries the results of the last run that finished (or none), even while a new run is in progress |
| Experiment.ThermalExperiment.CallSetVoltage | thermal_experiment.py:180 | the answer and the supply's new session are those of the driver's `set_voltage`, and the call is recorded with its answer |
| Experiment.ThermalExperiment.CallSetCurrent | thermal_experiment.py:186 | the answer and the supply's new session are those of the driver's `set_current`, and the call is recorded with its answer |
| Experiment.ThermalExperiment.CallOutputOn | thermal_experiment.py:192 | the answer and the supply's new session are those of the driver's `output_on`, and the call is recorded with its answer |
| Experiment.ThermalExperiment.CallOutputOff | thermal_experiment.py:261 | the supply's new session is that of the driver's `output_off` |
| Experiment.ThermalExperiment.CallMeasureVoltage | thermal_experiment.py:204 | the value and the new session are those of the driver's `measure_voltage` |
| Experiment.ThermalExperiment.CallMeasureCurrent | thermal_experiment.py:205 | the value and the new session are those of the driver's `measure_current` |
| Experiment.ThermalExperiment.CallReadAllChannels | thermal_experiment.py:207 | the readings are those of `read_all_channels` with the tool as it answers at this scan, and one more scan is counted |
| Experiment.ThermalExperiment.CallCheckProtections | thermal_experiment.py:246-247 | the status is that of the driver's `check_protections`, and the call is recorded with it |
| Experiment.ThermalExperiment.CallPumpOn | thermal_experiment.py:152-153 | the pump relay is switched on and the call is recorded; the supply, the board and the run's flags are untouched |
| Experiment.ThermalExperiment.CallPumpOff | thermal_experiment.py:264-265 | the pump relay is recorded inactive whenever its write goes through |
| Experiment.ThermalExperiment.Prepare | thermal_experiment.py:172-196 | the new state and the outcome are those of `PrepareSpec` on the drivers |
| Experiment.ThermalExperiment.Energize | thermal_experiment.py:186-196 | the new state and the outcome are those of `EnergizeSpec` on the drivers |
| Experiment.ThermalExperiment.TakeSample | thermal_experiment.py:201-251 | the new state, the row and the status are those of `SampleSpec` on the drivers |
| Experiment.ThermalExperiment.SampleLevel | thermal_experiment.py:201-257 | the loop's new state, results, polls and interruption are those of `SamplingFrom` with the drivers' sampler at the level's power |
| Experiment.ThermalExperiment.RunLevel | thermal_experiment.py:169-262 | the new state, results and level record are those of `LevelSpec` on the drivers |
| Experiment.ThermalExperiment.RunLevels | thermal_experiment.py:169-262 | the new state, results, levels run and interruption are those of `LevelsFrom` with the drivers' levels |
| Experiment.ThermalExperiment.Finish | thermal_experiment.py:264-292 | the results are `Ending`'s and the calls `ShutdownSpec`'s; the pump relay is left inactive whenever its write goes through |
| Experiment.ThermalExperiment.RunExperiment | thermal_experiment.py:103-294 | a run already in progress is refused with no change; otherwise the new state and the results are those of `RunSpec` on the drivers, `is_running` is cleared and the results are kept as the last experiment |

## Left out

- I/O is replaced by oracles: Telnet sockets, the MCC tool run through `subprocess`, the GPIO library and the CSV file. Only the calls made, the frames written and the rows produced are recorded.
- Time is not modelled: timestamps, elapsed times, `time.sleep`, and the 0.5 s, 0.1 s, 5 s and 2 s pauses. How many sampling iterations start before a level's duration elapses is given by `Environment.samplesFitting`.
- `math.sqrt` is a parameter; `PowerDelivered` states what follows when it is exact.
- Floating point is not modelled: quantities are real numbers. `float()` is modelled as the decimal grammar with an optional sign; exponents, `inf`, `nan` and underscores are not modelled. `int()` is an optionally signed digit string, with surrounding whitespace already stripped by the driver; the underscores it accepts between digits are not modelled. Digits are the ASCII digits only: the other Unicode decimal digits that `int()`, `float()` and the pattern's `\d` accept are not modelled.
- CSV formatting is modelled only as the choice between a value and `N/A`. The `.2f`, `.3f` and `.4f` cell texts, the header and the file name are not modelled. The `.2f`/`.3f` setpoint texts written to the supply are modelled for non-negative values, which are the only ones validation lets through.
- Logging is not modelled.
- `str.upper()` is modelled for the characters that can turn into a supported type letter: ASCII letters and the long s. Other characters are kept as they are.
- Experiment.ThermalExperiment.RunExperiment: an interrupt or an exception is modelled only before a sample (`Environment.abort`) and when the CSV file is opened (`Environment.openError`). An interrupt in the middle of a sample, during preparation or during the pauses is not modelled, and the drivers are taken not to raise past their own handlers.
- Experiment.ThermalExperiment.RunExperiment: the check-then-set of `is_running` is modelled sequentially; the race between two threads is a concurrency matter and is left out.
- Experiment.ThermalExperiment.CallPumpOn, CallPumpOff: the run records only that the pump relay was switched. The relay controller's own contract states the effect on the board, and the run's decisions do not depend on it.
- Relays.RelayController.constructor: setting up a pin is taken never to raise; only later writes to a pin may.
- `total_time`, the experiment name and the CSV path in the results are not modelled.

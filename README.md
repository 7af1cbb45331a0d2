# h100 fuel-cell controller — a Dafny model

This project models the control software of the FuelCellUAV h100 system. The software runs on a
Raspberry Pi and drives a Horizon H-100 PEM fuel-cell stack on an unmanned aircraft. The model
covers these parts:

- **Sensors on the I2C bus.** The MCP3424 ADC drivers, in their two generations (`adcpi.py`
  together with its tab-indented copy `adc/adcpi2.py`, and `adc/adcpi.py`). The quick2wire ADC
  and its test scripts, the `/proc/cpuinfo` bus-number probe, and both TMP102 temperature
  sensors.
- **Switching.** The GPIO switch used for the supply, purge and H2 valves. The state routines that set
  the stack's outputs. The hybrid-board driver (its I/O expander, its charge controller and its
  outputs). The purge controller.
- **Stack supervision.** The H100 state machine (off, startup, on, shutdown, error) and the
  stand-alone controller script with its calibration arithmetic.
- **Flight profiles and the loop around them.** The scheduler and profiler that replay timed
  throttle or load profiles. The ESC throttle setter. The loop timer. The LCD field layout and
  its animation. The main loop's command parsing, automatic voltage hold and profile stepping.
  The validation script.

Each file `x.dfy` holds one module named after the component it models:

| module | component |
|---|---|
| `Mcp3424` | `adc/adcpi.py` |
| `AdcPiV1` | `adcpi.py` and `adc/adcpi2.py` |
| `AdcQ2w` | `adc/adcQ2w.py` |
| `AdcTest` | `adcTest.py` |
| `CpuInfo` | `i2cGet/I2c.py` and the bus probe in `adcTest.py` |
| `Tmp102` | the two TMP102 drivers |
| `Switching` | `switch.py`, `switch/switch.py` |
| `FuelCell` | the five state routines shared by `h100Controller.py` and `controller.py` |
| `H100Controller` | `h100Controller.py` |
| `ScriptController` | `controller.py` |
| `Calibration` | the current and voltage conversions of `h100Controller.py` and `controller.py` |
| `HybridBoard` | `hybrid/hybrid.py` |
| `PurgeControl` | `purge/purge.py` |
| `Profiles` | `scheduler/scheduler.py`, `profiler/profiler.py` |
| `SpeedController` | `esc/esc.py` |
| `LoopTimer` | `timer/timer.py` |
| `LcdDisplay` | `display/h100Display.py` |
| `MainLoop` | `main.py` |
| `Validation` | `validation.py` |

The other modules are shared. `Py` holds Python's list indexing and whitespace stripping. `Bits`
holds Python's arbitrary-precision `&`, `|`, `<<`, `~` and floor division on integers, written
out over `int`. `Bus` holds the I2C replies and the blocking "wait until ready" poll. `Findings`
holds the corrected decoders that go with the Findings below.

Objects whose fields the Python code updates are classes, for example `H100`, `Switch`, `Purge`,
`Scheduler`, `Profiler`, `Hybrid`, `Esc`, `Timer`, `FuelCellDisplay` and `Session`. Their methods
state their whole new state. Pure decoding, formatting and arithmetic are functions, with lemmas
about them. Where the Python code lets an exception escape, the model returns a value that names the
exception.

## Model

| member | source | states |
|---|---|---|
| AdcPiV1.Log2Floor | adcpi.py:27 | `int(math.log(gain, 2))` for a positive gain is the floor of its base-2 logarithm: 2^r <= gain < 2^(r+1) |
| AdcPiV1.New | adcpi.py:21-30 | constructing a channel raises ValueError exactly when the gain is below 1 (the logarithm fails); otherwise gain, resolution and calibration are stored and the address is 0x68 for channels 1-4, 0x69 for 5-8 and unset for any other channel |
| AdcPiV1.ChannelField | adcpi.py:27 | OR-ing `(channel-1) << 5` into the default 0x90 gives 0x90 + 0x20 * (c mod 4), leaving the low nibble clear |
| AdcPiV1.OrFour | adcpi.py:27 | bit 4 of the default configuration absorbs the top bit of the channel field: 4 OR c == 4 + c mod 4 |
| AdcPiV1.ChannelSum | adcpi.py:27 | the shifted channel field plus bit 4 is 0x90 + 0x20 * q, a multiple of 16 |
| AdcPiV1.ConfigClosedForm | adcpi.py:27 | for channels 1-8, resolutions 12/14/16/18 and gains 1/2/4/8 the configuration byte is 0x90 + 0x20*((channel-1) mod 4) + 4*(resolution/2 - 6) + log2(gain): the three fields do not overlap |
| AdcPiV1.GainLog | adcpi.py:27 | the gain field of a supported gain fits its two bits |
| AdcPiV1.ResolutionField | adcpi.py:27 | OR-ing the resolution field into a byte whose low nibble is clear adds it |
| AdcPiV1.GainField | adcpi.py:27 | OR-ing the gain field into a byte whose low two bits are clear adds it |
| AdcPiV1.ConfigShared | adcpi.py:23-27 | channel c and channel c+4 get the same configuration byte but different chips (0x68 and 0x69) |
| AdcPiV1.EighteenBitConfigs | adcpi.py:27 | at 18 bits and gain 1 the configuration byte of channel c is 0x9C + 0x20*(c-1) |
| AdcPiV1.EighteenBitSum | adcpi.py:27 | the closed form at 18 bits and gain 1 evaluates to 0x9C + 0x20*(c-1) |
| AdcPiV1.ReadyFrame | adcpi.py:37-58 | a reply the poll accepts as ready carries at least three data bytes |
| AdcPiV1.GetReading | adcpi.py:32-88 | the imperative poll loop returns the reading of the reference decoder `Get` and never lets an exception escape (every failure is the -1 error code) |
| AdcPiV1.MagnitudeClosedForm | adcpi.py:60-84 | the masked magnitude is (h mod 2)*0x10000 + m*0x100 + l at 18 bits and (h mod 2^(bits-8))*0x100 + m otherwise, and lies in [0, 2^bits) |
| AdcPiV1.SignStepValue | adcpi.py:64-83 | the source's sign step `~(2^bits - t)` applies only when h > 128 and then gives t - 2^bits - 1; an in-range magnitude then lands in [-2^bits - 1, 0) |
| AdcPiV1.FirstReadyDecides | adcpi.py:37-58 | after any number of busy replies, the first non-busy reply decides the result: a ready frame is decoded, a short frame gives the error code |
| AdcPiV1.NoAddressReadsMinusOne | adcpi.py:23-88 | a channel outside 1-8 is constructed without an address, and every later `get` fails inside the try and returns -1 |
| Mcp3424.FrameLength | adc/adcpi.py:75 | the number of bytes read is 4 at 18 bits and 3 at 12, 14 and 16 bits |
| Mcp3424.Multiplier | adc/adcpi.py:47-48 | the volts-per-count multiplier is 2.495 / 2^(res-12) / 1000 for each supported resolution |
| Mcp3424.OrResolution | adc/adcpi.py:43-44 | OR-ing `int((res-12)/2) << 2` into the channel's default byte gives the table entry `ConfigByte` |
| Mcp3424.ConfigTables | adc/adcpi.py:37-44 | the four configuration bytes are 0x90, 0xB0, 0xD0, 0xF0 at 12 bits and 0x9C, 0xBC, 0xDC, 0xFC at 18 bits |
| Mcp3424.ByteLemma | adc/adcpi.py:92 | masking a byte with 0b1 keeps its parity bit |
| Mcp3424.AssembleFour | adc/adcpi.py:91-92 | the 18-bit assembly is (b0 mod 2)*0x10000 + b1*0x100 + b2 and lies in [0, 0x20000) |
| Mcp3424.AssembleThree | adc/adcpi.py:93-94 | the 12/14/16-bit assembly is b0*0x100 + b1, using the whole first byte |
| Mcp3424.SignStep | adc/adcpi.py:96-98 | the sign step applies when the first byte exceeds 128 and then gives t - 0x20000 - 1 at every resolution; a magnitude in range never leaves [-0x20001, 0x20000) and stepped values are negative |
| Mcp3424.OnlyFirstReadyDecoded | adc/adcpi.py:78-86 | after any number of busy frames, the reading is the one of the first ready frame alone |
| Mcp3424.SingleReadyFrame | adc/adcpi.py:83-101 | a frame whose last byte has bit 7 clear is decoded at once, without another transaction |
| Mcp3424.EighteenBitCount | adc/adcpi.py:91-98 | a 4-byte frame's count is the sign step applied to the assembled 17-bit magnitude |
| Mcp3424.EighteenBitPositive | adc/adcpi.py:91-98 | the frame 01 23 45 reads as count 0x012345 |
| Mcp3424.EighteenBitNegative | adc/adcpi.py:91-98 | the frame 81 00 00 reads as count -0x010001 |
| Mcp3424.IoErrorIsMinusOne | adc/adcpi.py:104-105 | an I/O error on any transaction of the poll makes the reading the error code, which Python sees as -1 |
| Mcp3424.GetAdcReading | adc/adcpi.py:70-105 | the imperative poll loop returns exactly the reference reading `AdcReading` of the reply sequence |
| Mcp3424.Mcp3424.Init | adc/adcpi.py:29-48 | a new chip keeps its address and resolution and holds the four configuration bytes of that resolution |
| Mcp3424.Mcp3424.ConfigTable | adc/adcpi.py:37-44 | the loop over the four rows produces a fresh table whose entry k is `ConfigByte(k, res)` |
| Mcp3424.Mcp3424.Create | adc/adcpi.py:29-48 | construction fails (ValueError) exactly when the resolution is not 12, 14, 16 or 18; otherwise the chip is built as in `Init` |
| Mcp3424.Mcp3424.Get | adc/adcpi.py:108-118 | a channel outside Python's list indexing of 4 rows raises IndexError and changes nothing; otherwise gain 8 ORs 0b11 into the stored row (the row is shared, so the change persists) and the result is the reading of the poll |
| Mcp3424.GainEightBits | adc/adcpi.py:111-112 | OR-ing 0b11 sets the two gain bits and is idempotent, so repeated gain-8 reads do not drift |
| Mcp3424.AdcPi2.Init | adc/adcpi.py:122-125 | the board holds the two chips at 0x68 and 0x69 with the same resolution |
| Mcp3424.AdcPi2.Create | adc/adcpi.py:122-125 | building the board fails exactly when the resolution is unsupported |
| Mcp3424.AdcPi2.Get | adc/adcpi.py:127-133 | channels 0-3 read the first chip; channels 4-7 pass the unshifted channel to the second chip, whose 4-row table raises IndexError; any other channel returns -1; no configuration changes |
| Mcp3424.AdcPi2.GetCorrected | adc/adcpi.py:127-133 | corrected routing: channels 4-7 read row channel-4 of the second chip, so every channel 0-7 gives a reading and others give -1 |
| AdcQ2w.GetAdcReading | adc/adcQ2w.py:34-49 | the imperative poll loop returns the reference reading `ReadValue`: the first 4-byte frame with bit 7 of the status byte clear, sign-stepped and divided by 64 |
| AdcQ2w.ReadyFrameRange | adc/adcQ2w.py:43-49 | a ready 4-byte frame always gives a value in [-0x20001/64, 0x20000/64) |
| AdcQ2w.WrongLengthRaises | adc/adcQ2w.py:39-41 | a reply of any length other than four fails the tuple unpacking with ValueError, which escapes because the script catches nothing |
| AdcTest.SelectBus | adcTest.py:34-47 | the bus number is the one of the first Revision line and is 0 or 1; without a Revision line the unbound `i2c_bus` raises NameError |
| AdcTest.GetAdcReading | adcTest.py:52-71 | the imperative poll loop returns the reference reading `ReadValue` (status byte polled, 18-bit assembly, sign step, times the multiplier 2.4705882/64/1000) |
| AdcTest.AgreesWithDriver | adcTest.py:52-71 | on well-formed 4-byte replies the script computes the same reading as the MCP3424 driver at 18 bits with the script's multiplier |
| AdcTest.IoErrorEscapes | adcTest.py:52-64 | an I/O error during the poll escapes as IOError instead of becoming -1 |
| Mcp3424.BoardScanMatchesDriver | adcTest.py:73-89 | the eight channel reads of the scan scripts (also `adc/adcQ2w.py`) use chip 0x68 for channels 1-4 and 0x69 for 5-8 with the driver's 18-bit, gain-1 configuration bytes |
| CpuInfo.FirstColon | i2cGet/I2c.py:12 | the index found holds a colon |
| CpuInfo.FirstColonIsFirst | i2cGet/I2c.py:12 | no colon comes before the one found, and none is found exactly when the line has no colon |
| CpuInfo.MatchLine | i2cGet/I2c.py:12-14 | the pattern `(.*?)\s*:\s*(.*)` matches exactly the lines that contain a colon |
| CpuInfo.NoMatchWithoutColon | i2cGet/I2c.py:12-13 | a line fails to match if and only if it has no colon |
| CpuInfo.NameShape | i2cGet/I2c.py:12-14 | the name group is a colon-free prefix of the line that does not end in a blank, separated from the first colon only by blanks |
| CpuInfo.ValueShape | i2cGet/I2c.py:12-14 | the value group is a suffix of the line that does not start with a blank, separated from the first colon only by blanks |
| CpuInfo.LastFour | i2cGet/I2c.py:16 | `value[-4:]` is the last four characters (all of a shorter string) and ends the value |
| CpuInfo.BusFor | i2cGet/I2c.py:16-19 | the bus is 0 exactly when the revision ends in 0002 or 0003, and 1 otherwise |
| CpuInfo.Matches | i2cGet/I2c.py:11-12 | the line-by-line matches line up with the lines one for one |
| CpuInfo.FirstRevision | i2cGet/I2c.py:11-20 | the index found is the first Revision line; none is found exactly when no line is a Revision line |
| CpuInfo.FirstRevisionAt | i2cGet/I2c.py:15-20 | a Revision line with no Revision line before it is the one that decides |
| CpuInfo.MatchesAppend | i2cGet/I2c.py:11-12 | matching is line by line: the matches of a concatenation are the concatenated matches |
| CpuInfo.LaterLinesIgnored | i2cGet/I2c.py:20 | once a Revision line is found, the lines after it do not change the bus (the `break`) |
| CpuInfo.FirstRevisionAppend | i2cGet/I2c.py:20 | appending matches after a Revision line keeps the first Revision line |
| CpuInfo.ScanRevision | i2cGet/I2c.py:11-20 | the imperative loop with its `break` returns the bus of the reference `RevisionBus` |
| CpuInfo.GetI2cBus | i2cGet/I2c.py:9-21 | the method raises UnboundLocalError exactly when no line is a Revision line; otherwise the bus is 0 or 1, chosen by the first Revision line, and 0 exactly when its value ends in 0002 or 0003 |
| Tmp102.SwapInvolution | temperature/tmp102.py:15-17 | swapping the two bytes of a word twice gives the word back |
| Tmp102.LowByteMask | temperature/tmp102.py:15 | `tmp & 0x00ff` is the low byte |
| Tmp102.HighByteMask | temperature/tmp102.py:16 | `(tmp & 0xff00) >> 8` is the high byte |
| Tmp102.DecodeIsSwapShift | temperature/tmp102.py:15-17 | the decode is the byte-swapped word shifted right by 4, times 0.0625 degC |
| Tmp102.DecodeRange | temperature/tmp102.py:17 | every decoded word lies between 0 and 4095 * 0.0625 degC |
| Tmp102.DecodeRegister | temperature/tmp102.py:14-17 | a register holding count c in its top 12 bits, delivered low byte first, decodes to c * 0.0625 degC whatever its low nibble |
| Tmp102.Get | temperature/tmp102.py:12-21 | a failed word read gives -1; a successful one a temperature in [0, 4095 * 0.0625] |
| Tmp102.MinusOneMeansFailure | tmp102/tmp102.py:14-23 | the reading is -1 if and only if the word read failed, so -1 never hides a temperature |
| Tmp102.ReadsOnlyRegisterZero | tmp102/tmp102.py:16 | only register 0 at the stored address is read: buses that agree there give the same reading |
| Tmp102.Call | tmp102/tmp102.py:25-26 | `__call__` returns -1 exactly on a failed read and the decoded word otherwise |
| Switching.TimedStep | switch.py:15-26 | a timed call toggles exactly when an on switch has been on for `duration` or an off switch has been off for `freq`; a toggle stamps `now` and returns the new level, otherwise nothing changes and None is returned |
| Switching.RunTimed | switch.py:15-26 | a run of timed calls gives one answer per call |
| Switching.FreqZeroTurnsOn | switch.py:23-26 | with frequency 0 an off switch turns on at the first call |
| Switching.RunKeepsClockOrder | switch.py:18-24 | over increasing call times the last toggle time never moves backwards and never passes the last call |
| Switching.TogglesAreSpaced | switch.py:15-26 | two toggles are at least `duration` apart after switching on and at least `freq` apart after switching off |
| Switching.Switch.constructor | switch.py:7-13 | a new switch is off, last toggled at 0, on the given pin, with nothing written |
| Switching.Switch.Write | switch.py:32-38 | the current level is written to the pin and returned; a failed write leaves the state as it is |
| Switching.Switch.SwitchTo | switch.py:28-30 | the level is set, written and returned, and the toggle time is kept |
| Switching.Switch.Timed | switch/switch.py:33-44 | the new state and result are those of `TimedStep` on the old state; the pin is written exactly when the switch toggles |
| FuelCell.SetTo | h100Controller.py:148-151 | `switch(level)` sets the level and keeps the toggle time |
| FuelCell.Routine | h100Controller.py:148-178 | after the off routine every output is off; after the on routine fan and hydrogen are on; after shutdown hydrogen is off; after the error routine hydrogen and purge are off and the fan is on exactly when the stack is too hot |
| FuelCell.RunRoutinesSnoc | h100Controller.py:118-131 | running one more routine at the end of a pass applies it to the outputs the earlier routines left |
| FuelCell.StartupSwitchesOn | h100Controller.py:154-157 | from all outputs off, the startup routine (`timed(0, startTime)`) switches all three on at once, stamped now |
| FuelCell.Apply | h100Controller.py:148-178 | on three distinct `Switch` objects, one imperative routine leaves them in the state `Routine` gives |
| H100Controller.MaxOf | h100Controller.py:99 | `max(temp)` is at least every reading and equal to one of them |
| H100Controller.Buttons | h100Controller.py:85-97 | the off button raises AttributeError unless the state is startup (`self.state.value` on a string), from startup it leads to shutdown; the on button moves off to startup; reset moves error to off; no button keeps the state |
| H100Controller.Dispatch | h100Controller.py:117-131 | the routine of the current state always runs; a startup that has lasted longer than startTime becomes on and the on routine runs in the same pass; a shutdown longer than stopTime becomes off without the off routine |
| H100Controller.NeverPastStartup | h100Controller.py:81-131 | because `run` first resets the state to off and restarts its clock, a pass that does not fail only ever ends in off, startup or error and never runs the on or shutdown routine |
| H100Controller.ButtonOutcomes | h100Controller.py:81-100 | pressing off always raises AttributeError; otherwise the pass starts in error when hot, else startup when on is pressed, else off |
| H100Controller.H100.constructor | h100Controller.py:45-76 | the controller starts off with fan, hydrogen and purge on pins 0, 1 and 2, all off, zeroed sensor lists of 8, 8, 4 and 4 entries, the default purge frequency and the given purge controller |
| H100Controller.H100.StateOff | h100Controller.py:148-151 | the outputs end as the off routine gives |
| H100Controller.H100.StateStartup | h100Controller.py:154-157 | the outputs end as the startup routine gives |
| H100Controller.H100.StateOn | h100Controller.py:160-163 | the outputs end as the on routine gives, the purge valve timed by the current purge frequency |
| H100Controller.H100.StateShutdown | h100Controller.py:166-169 | the outputs end as the shutdown routine gives |
| H100Controller.H100.StateError | h100Controller.py:172-178 | the outputs end as the error routine gives, with the fan following the over-temperature verdict |
| H100Controller.H100.Sense | h100Controller.py:105-220 | only entry 0 of amps, volts and power changes, to the calibrated current, voltage and their product, and the temperatures become the four new readings |
| H100Controller.H100.PurgeStep | h100Controller.py:111-115 | with a purge controller the purge frequency becomes its PID response to the voltage error `volts - (21 - 1.2 amps)`, the controller's integral takes its next clamped value and its last error becomes that error; a zero time step raises ZeroDivisionError and keeps the frequency, the integral and the last error; without a controller nothing changes |
| H100Controller.H100.Machine | h100Controller.py:117-131 | the new state and outputs are those of `Dispatch` and the routines it names |
| H100Controller.H100.ButtonStep | h100Controller.py:82-100 | the state after the reset and the buttons is the one `TickStart` gives, and an AttributeError leaves it off |
| H100Controller.H100.Run | h100Controller.py:81-131 | one pass: the off button raises with nothing but the state reset; otherwise the sensors are stored, the purge frequency, integral and last error follow the controller, a zero time step raises before the state machine with the controller unchanged, and else state and outputs follow `Dispatch` from the post-button state |
| H100Controller.H100.ShutdownOnExit | h100Controller.py:133-142 | unless already off, the shutdown routine repeats until stopTime has passed, then every output is off; the state ends off, an off controller is left untouched, and the temperature, purge frequency and purge controller never change |
| Calibration.RAbs | h100Controller.py:216 | `abs` is never negative and is the value or its negation |
| Calibration.Current | h100Controller.py:215-216 | the calibrated stack current is never below offset/slope, 0.6009/1.6046 A |
| Calibration.Voltage | h100Controller.py:219-220 | the calibrated stack voltage is never negative |
| Calibration.CurrentInverse | controller.py:184 | the current ignores the sign of the ADC reading, and the reading's magnitude is recovered from the current by inverting the line |
| Calibration.CurrentMonotone | controller.py:184 | a larger ADC magnitude never gives a smaller current |
| Calibration.VoltageInverse | controller.py:185 | the voltage ignores the sign of the ADC reading, and the reading's magnitude is recovered from the voltage |
| PurgeControl.Clamp | purge/purge.py:25 | with ordered bounds the result lies between them and a value inside is kept; the result is always one of the bounds or the value; with reversed bounds the lower bound wins (the outer `max`) |
| PurgeControl.IntegralBand | purge/purge.py:21-26 | after an update the integral lies in [0.9e, 1.1e] for a non-negative error e, and is exactly 0.9e for a negative error |
| PurgeControl.NoWindUp | purge/purge.py:21-26 | once the accumulated term reaches the upper bound, the past integral no longer matters: both histories clamp to 1.1e |
| PurgeControl.Purge.constructor | purge/purge.py:7-16 | the gains and zero are stored, and error, integral and timeLast keep their class default 0 (the constructor's `timeLast` is a local) |
| PurgeControl.Purge.Call | purge/purge.py:18-31 | a zero time step raises ZeroDivisionError after nothing is stored; otherwise the integral is updated and clamped, the error is remembered and the result is zero + Kp e + Ki integral + Kd derivative |
| PurgeControl.Purge.DoReset | purge/purge.py:33-37 | the remembered error and the integral return to 0 |
| ScriptController.Interlocks | controller.py:189-217 | the start time is kept; a hot stack always ends in error, and so does an electric fault once 10 s have passed since start; otherwise the only change is that off without on moves startup or on to shutdown |
| ScriptController.Blocks | controller.py:223-277 | one pass of the state machine runs between one and three state blocks |
| ScriptController.HotForcesError | controller.py:215-275 | with any sensor at or over the cut-off only the error block runs, and the pass ends off exactly when reset is pressed and the re-read sensors are below the cut-off |
| ScriptController.ElectricGrace | controller.py:203-204 | during the first 10 s since start the ADC readings do not affect the interlocks |
| ScriptController.StartInSamePass | controller.py:224-244 | from off with only the on button, the off block runs, the state becomes startup with both time stamps set to now, and the startup block runs in the same pass |
| ScriptController.StopRunsShutdown | controller.py:189-264 | from startup or on with only the off button, the state becomes shutdown stamped now and only the shutdown block runs |
| ScriptController.Controller.constructor | controller.py:99-127 | the script starts off, with the start time now, and three fresh, off switches on the configured pins |
| ScriptController.Controller.CheckInterlocks | controller.py:189-217 | the globals after the stop button and the electric and temperature checks are those `Interlocks` gives |
| ScriptController.Controller.DoOff | controller.py:224-233 | the off block's effect on state, time stamps and outputs is the one of the reference pass `OffBlock` |
| ScriptController.Controller.DoStartup | controller.py:234-244 | the startup block's effect is the one of `StartupBlock` |
| ScriptController.Controller.DoOn | controller.py:245-253 | the on block's effect is the one of `OnBlock` |
| ScriptController.Controller.DoShutdown | controller.py:254-264 | the shutdown block's effect is the one of `ShutdownBlock` |
| ScriptController.Controller.DoError | controller.py:265-275 | the error block's effect is the one of `ErrorBlock`, with the fan following the re-read sensors |
| ScriptController.Controller.Iterate | controller.py:161-277 | one loop pass leaves the globals of the reference `Step` and the outputs of the routines it ran, in order |
| HybridBoard.AsInt | hybrid/hybrid.py:136-142 | an int is used as itself in an index or a shift, a bool as 0 or 1, and nothing else is an int |
| HybridBoard.GetBit | hybrid/hybrid.py:60-62 | `bool((register >> bit) & 1)` is exactly whether the bit is set |
| HybridBoard.ReadPort | hybrid/hybrid.py:130-132 | indexing the register raises TypeError once it is a bare integer, and otherwise gives the port byte |
| HybridBoard.Location | hybrid/hybrid.py:64-128 | every named line sits on port 0 or 1 at a bit from 0 to 7 |
| HybridBoard.LocationsDistinct | hybrid/hybrid.py:64-128 | no two named lines share a bit |
| HybridBoard.ReadLine | hybrid/hybrid.py:64-128 | a line's getter raises TypeError on a bare-integer register and otherwise reports the line's own bit |
| HybridBoard.SetBits | hybrid/hybrid.py:133-153 | a command that does not unpack into three raises ValueError, and the register only changes when the state is the int 1 or 0 |
| HybridBoard.SetHigh | hybrid/hybrid.py:140-153 | setting a line with state 1 sets exactly its bit, keeps the other port, and writes the register |
| HybridBoard.ClearLeavesScalar | hybrid/hybrid.py:143-146 | as written: clearing a set bit replaces the whole register by one integer; once the bus opens the write raises TypeError (a bus that does not open gives -1 and no error), and every getter and every later setter raise TypeError |
| HybridBoard.ClearOfClearIsNoop | hybrid/hybrid.py:147-149 | clearing a bit that is already clear returns without changing or writing anything |
| HybridBoard.BoolStateChangesNothing | hybrid/hybrid.py:150-153 | a True or False state is neither `is 1` nor `is 0`: the register is kept and written out unchanged |
| HybridBoard.DriveBits | hybrid/hybrid.py:140-146 | driving bit b of a byte to a level sets that bit to the level and keeps every other bit |
| HybridBoard.SetBitsFixed | hybrid/hybrid.py:133-153 | corrected setter: state 0 or 1 (or False/True) drives the line's bit in its port byte and keeps the register a two-port list; a write follows unless a clear bit was cleared |
| HybridBoard.FixedReadsBack | hybrid/hybrid.py:64-153 | with the corrected setter, a line reads back the level it was set to |
| HybridBoard.DriveKeeps | hybrid/hybrid.py:140-146 | driving one bit of one port leaves every other bit of both ports |
| HybridBoard.FixedKeepsOthers | hybrid/hybrid.py:133-153 | with the corrected setter, setting one line leaves every other line's reading unchanged |
| HybridBoard.FixedWrite | hybrid/hybrid.py:133-153 | the corrected setter on a two-port register always succeeds and drives exactly the line's bit |
| HybridBoard.HybridIo.constructor | hybrid/hybrid.py:10-24 | the register starts as [0x44, 0x00]; `change_output` writes it once unless the direction write failed |
| HybridBoard.HybridIo.Result | hybrid/hybrid.py:44-57 | `update` and `change_output` return the register exactly when the transaction succeeded, and -1 otherwise |
| HybridBoard.HybridIo.ChangeOutput | hybrid/hybrid.py:49-57 | a bus that does not open gives -1 and writes nothing, whatever the register; once it opens, building the write fails with the error of `reg[0]` (TypeError on a bare integer), which the IOError handler does not catch; otherwise the register is written and returned, or -1 on IOError |
| HybridBoard.HybridIo.Update | hybrid/hybrid.py:37-47 | a successful read replaces the register by the two bytes read and returns them; an I/O error keeps it and returns -1 |
| HybridBoard.HybridIo.SetBitRegister | hybrid/hybrid.py:133-153 | the register after the setter is the one `SetBits` gives; a raise changes neither the register nor the writes; otherwise the outcome is that of the following write, and the register is recorded as written exactly when the setter reaches the write, the bus opens and the register is indexable |
| HybridBoard.HybridIo.SetLine | hybrid/hybrid.py:67-122 | a property setter sends (port, bit, state) of its line to the register setter, with the same register, outcome and writes, and nothing written when it raises |
| HybridBoard.Sent | hybrid/hybrid.py:49-57 | a write attempt records at most one register, the register itself, and exactly when the attempt is made, the bus opens and the write does not raise |
| HybridBoard.WriteOutcome | hybrid/hybrid.py:49-153 | a write attempt raises exactly when it is made, the bus opens and the register is no longer indexable, with the error of that index; never on a two-port register |
| HybridBoard.ChargeController.constructor | hybrid/hybrid.py:156-159 | the charger starts at current 0 after one command 0 |
| HybridBoard.ChargeController.SetCurrent | hybrid/hybrid.py:164-186 | a current above 4 A or below 0 raises ValueError and changes nothing; otherwise the command int(cur) is sent and the stored current becomes cur only when the write succeeded |
| HybridBoard.Scaled | hybrid/hybrid.py:219-222 | a negative reading (the error code) is kept; a valid one is multiplied by 10/43, so it is the divided-down voltage |
| HybridBoard.AdcUpdate | hybrid/hybrid.py:206-224 | each of the eight fields is the reading of its own channel: charge, fuel-cell current, temperature 1 and the output current raw; battery, fuel-cell and output voltages and temperature 2 scaled |
| HybridBoard.FcCurrentTotal | hybrid/hybrid.py:316-321 | the total is non-negative exactly when both currents are, and otherwise -1 |
| HybridBoard.BatteryCurrent | hybrid/hybrid.py:322-327 | a failed reading gives -1; otherwise fuel-cell total plus battery current equals the output current |
| HybridBoard.BatterySentinelAmbiguous | hybrid/hybrid.py:322-327 | a genuine battery current of -1 A (output 0, fuel cell 1 A) is indistinguishable from the error code |
| HybridBoard.RampRequest | hybrid/hybrid.py:264-268 | the charger steps up by 0.2 A exactly when it is on, the total is valid and at most 4.5 A (overhead of at least 4 A) and the current is below 4 A |
| HybridBoard.RampStaysOnGrid | hybrid/hybrid.py:264-268 | ramping from a multiple of 0.2 A lands on the next multiple and never above 4 A |
| HybridBoard.RampCanOvershoot | hybrid/hybrid.py:166-268 | from a current of 3.9 A the ramp asks for 4.1 A, which the current setter refuses |
| HybridBoard.Hybrid.constructor | hybrid/hybrid.py:252-256 | the board starts with the initial register, the first ADC update, the charger at 0 and the charger off |
| HybridBoard.Hybrid.Update | hybrid/hybrid.py:258-272 | the register and ADC values are refreshed and nothing is written; the charger state stays; with the charger on and a valid total the ramp is applied, its command sent once, and 1 returned; an over-range ramp raises ValueError, and otherwise -1 is returned with the current and the commands kept |
| HybridBoard.Hybrid.SetChargerState | hybrid/hybrid.py:285-288 | the charger is on exactly when the value given is True itself |
| HybridBoard.Hybrid.GetCells | hybrid/hybrid.py:335-340 | the cell count is 4 when CELLS is set and 3 otherwise, and fails when the register cannot be read |
| HybridBoard.Hybrid.GetChargedVoltage | hybrid/hybrid.py:350-355 | the charged voltage is 4.2 when CHEM is set and 4.1 otherwise |
| HybridBoard.Hybrid.GetShutdown | hybrid/hybrid.py:365-370 | `shutdown` reports the inverse of the SHDN line |
| HybridBoard.Hybrid.ChargerInfo | hybrid/hybrid.py:290-296 | the five charger inputs LOBAT, ICL, ACP, FAULT and CHG in that order, or TypeError on a bare-integer register |
| HybridBoard.Hybrid.SetCells | hybrid/hybrid.py:341-348 | as written, 3 or 4 pass False or True to CELLS, which the register setter ignores: the register never changes, and it is written out only for 3 or 4, with an open bus and an indexable register |
| HybridBoard.Hybrid.SetChargedVoltage | hybrid/hybrid.py:356-363 | the setter reads the undefined name `cells` and always raises NameError |
| HybridBoard.Hybrid.SetShutdown | hybrid/hybrid.py:371-376 | as written, the bool state passed to SHDN never changes the register; a bool argument makes a write attempt, recorded when the bus opens |
| HybridBoard.Hybrid.SetRail | hybrid/hybrid.py:274-279 | h2/fan/purge on and off send (1, rail bit, 1 or 0) to the register setter with its effect on the register, the outcome and the writes |
| HybridBoard.H2OnOffBreaksRegister | hybrid/hybrid.py:140-275 | from the initial register `h2_on` then `h2_off` leaves the register as the integer 0, so reading power1 then raises TypeError |
| Profiles.Stopped | scheduler/scheduler.py:70-83 | the line that stops the scan yields -1 exactly when it is empty, unparsable or carries setpoint -1, and raises IndexError (never caught) exactly when it holds a time but no setpoint |
| Profiles.Scan | scheduler/scheduler.py:70-83 | the forward scan never moves the cursor backwards or past the end, and stops on a line that has not expired, yielding what that line yields |
| Profiles.ScanStopsAtFirst | scheduler/scheduler.py:74-76 | the scan stops exactly at the first unexpired line after the cursor, leaving the cursor just after it, or ends with -1 at the end of the file |
| Profiles.FirstUnexpired | scheduler/scheduler.py:74-76 | from any cursor there is a first line that has not expired, or none before the end of the file |
| Profiles.Find | scheduler/scheduler.py:55-83 | a current record that has not expired answers with its own setpoint and moves nothing; an unparsable current line raises ValueError (only IndexError is caught around the first test); otherwise the answer is the forward scan's |
| Profiles.FoundOnCurrentLine | scheduler/scheduler.py:59-83 | a non-negative setpoint found always comes from the second column of the line left current, whose time is not before the elapsed time |
| Profiles.RunResult | scheduler/scheduler.py:136-172 | a non-negative setpoint is stored and returned; a negative answer returns -1 and keeps the stored setpoint; an exception passes through |
| Profiles.StoredStaysNonNegative | scheduler/scheduler.py:141-153 | the stored setpoint never becomes negative, and the answer is a non-negative setpoint or -1 |
| Profiles.Scheduler.constructor | scheduler/scheduler.py:29-36 | a new schedule has not started: no line read, cursor at the start, not running, setpoint 0, start time now |
| Profiles.Scheduler.GetLine | scheduler/scheduler.py:39-52 | reading gives the line at the cursor and advances it, or the empty line at the end of the file; the line read becomes current |
| Profiles.Scheduler.FindNow | scheduler/scheduler.py:55-83 | the imperative lookup leaves result, cursor and current line as the reference `Find` gives for the time since start |
| Profiles.Scheduler.Start | scheduler/scheduler.py:102-119 | starting rewinds the file, stamps now, zeroes the setpoint and sets running |
| Profiles.Scheduler.Stop | scheduler/scheduler.py:122-133 | stopping clears running and nothing else |
| Profiles.Scheduler.SetRunning | scheduler/scheduler.py:91-99 | `int(state)` non-zero starts a stopped schedule (cursor 0, clock now, setpoint 0), zero stops a running one, a state equal to the present one changes nothing, and the current line always stays |
| Profiles.Scheduler.RunOnce | scheduler/scheduler.py:136-172 | a stopped schedule answers -1 and changes nothing; a running one takes the lookup and applies `RunResult` to the stored setpoint |
| Profiles.Scheduler.Run | scheduler/scheduler.py:175-184 | as `RunOnce`, the answer being `Output` of the state before, and a running schedule whose answer is -1 stops itself; a stopped one keeps its cursor, current line and setpoint |
| Profiles.Profiler.constructor | profiler/profiler.py:24-31 | a new profile has not started: cursor at the start, not running, setpoint 0 |
| Profiles.Profiler.GetLine | profiler/profiler.py:33-38 | asked to go back (argument -1) the cursor first moves back over the current line, so it is read again; the line read becomes current |
| Profiles.Profiler.FindNow | profiler/profiler.py:41-55 | the lookup that re-reads the stopping line via `_get_line(-1)` ends exactly as the scheduler's `Find`: same answer, cursor and current line |
| Profiles.Profiler.Start | profiler/profiler.py:68-75 | starting rewinds the file, stamps now, zeroes the setpoint and sets running |
| Profiles.Profiler.Stop | profiler/profiler.py:77-82 | stopping clears running and nothing else |
| Profiles.Profiler.SetRunning | profiler/profiler.py:61-66 | a true state starts a stopped profile, a false one stops a running one, otherwise nothing changes |
| Profiles.Profiler.RunOnce | profiler/profiler.py:84-99 | a stopped profile answers -1 and changes nothing; a running one applies `RunResult` to the lookup |
| Profiles.Profiler.Run | profiler/profiler.py:101-106 | as `RunOnce`, and a running profile whose answer is -1 stops itself |
| SpeedController.Setpoint | esc/esc.py:32-39 | a request is accepted exactly when `int()` succeeded and it lies in -1..100; -1 means 0 and any other accepted request is itself, so a setpoint is always in 0..100 |
| SpeedController.SettleInRange | esc/esc.py:30-47 | whatever is assigned, the throttle stays in 0..100 |
| SpeedController.SettleIsLastAcknowledged | esc/esc.py:41-44 | after a run of assignments the throttle is the setpoint of the last accepted request whose write was acknowledged |
| SpeedController.SettleUnchanged | esc/esc.py:38-47 | assignments that are all refused or unacknowledged leave the throttle as it was |
| SpeedController.Esc.constructor | esc/esc.py:13-15 | a new controller keeps its address, starts at throttle 0 and has written nothing |
| SpeedController.Esc.SetThrottle | esc/esc.py:19-47 | the throttle becomes the setpoint when its write is acknowledged and is kept otherwise; the setpoint is written to the address exactly when the request is accepted, and nothing else is written |
| SpeedController.Esc.Throttle | esc/esc.py:26-28 | the throttle read back is always in 0..100 |
| LoopTimer.SumAppend | timer/timer.py:12-14 | adding one interval to the history adds it to the total |
| LoopTimer.SumNonNegative | timer/timer.py:12-14 | intervals of a clock that does not run backwards sum to a non-negative total |
| LoopTimer.Timer.constructor | timer/timer.py:6-10 | a new timer starts and last ran now, with interval 0 from its own first `run` |
| LoopTimer.Timer.Run | timer/timer.py:12-14 | the interval becomes the time since the last run, the last run becomes now and the interval joins the history |
| LoopTimer.Timer.Last | timer/timer.py:20-22 | the last run time is the start time plus every interval measured |
| LoopTimer.Timer.Delta | timer/timer.py:24-26 | `delta` is the most recent interval of the history |
| Validation.Current | validation.py:38-39 | the validation current is the controller's calibrated current less 0.01 A |
| Validation.Voltage | validation.py:41-42 | the validation voltage is the controller's calibrated voltage plus 0.025 V |
| Validation.TrimmedReadings | validation.py:37-42 | the trimmed readings ignore the sign of the ADC value, the raw magnitude is recovered from the current, and the readings are bounded below by the trimmed offsets |
| Validation.SentWellFormed | validation.py:45-49 | every current sent to the loadbank is non-negative and no two in a row are equal |
| Validation.LastAnswerSent | validation.py:46-49 | a non-negative answer from the profile is always the last setpoint sent, so no change is missed |
| Validation.Commands | validation.py:49 | each setpoint sent becomes one constant-current command, in order |
| Validation.Run | validation.py:31-68 | the load is switched on first; the loop reads answers until a negative one, sends exactly the changed non-negative setpoints, and a finished test ends with current 0 and the load off |
| MainLoop.NonNegative | main.py:232 | the clamp gives a non-negative current and keeps one that already is |
| MainLoop.HoldCurrentAsWritten | main.py:221-233 | as written: below the band the current drops by 0.001 A, above it rises by 0.001 A (never below 0), and inside the band it becomes 0 |
| MainLoop.InBandDropsLoad | main.py:221-233 | a stack exactly at the voltage to hold, drawing 1 A, is switched to 0 A |
| MainLoop.HoldCurrent | main.py:221-233 | corrected hold: the current written is never negative |
| MainLoop.HoldCurrentSteps | main.py:224-233 | with the corrected hold the current moves by at most one step per pass: down below the band, up above it, and unchanged inside it |
| MainLoop.Split | main.py:302 | `split(' ')` always gives at least one piece |
| MainLoop.SplitCons | main.py:302 | a leading non-separator character belongs to the first piece |
| MainLoop.JoinSplit | main.py:302 | joining the pieces with the separator gives the request back |
| MainLoop.SplitPiecesClean | main.py:302 | no piece contains the separator |
| MainLoop.SplitCount | main.py:302-305 | the number of pieces is the number of spaces plus one |
| MainLoop.StripTokens | main.py:308-309 | the in-place loop replaces every token by its stripped form and nothing else |
| MainLoop.Tokens | main.py:302-309 | the tokens of a request are its stripped pieces, one per piece |
| MainLoop.FirstMatch | main.py:313-365 | the `elif startswith` chain picks the first prefix the token starts with, and none when it starts with none |
| MainLoop.ApartExclusive | main.py:313-365 | a token cannot start with two prefixes that differ in their first two characters |
| MainLoop.FirstMatchExact | main.py:313-365 | with pairwise distinct prefixes, the chain picks prefix i exactly when the token starts with it, so the order of the tests does not matter |
| MainLoop.PrefixesApart | main.py:313-365 | the query prefixes and the command prefixes differ pairwise within their first two characters |
| MainLoop.Parse | main.py:299-365 | a query has one token, a command two with the second as its argument, and any other number of tokens does nothing |
| MainLoop.NamesDistinct | main.py:313-365 | each query and each command appears once in its chain |
| MainLoop.AskByPrefix | main.py:312-335 | one token asks query k exactly when it starts with that query's prefix |
| MainLoop.CommandByPrefix | main.py:338-365 | two tokens give command k exactly when the first starts with that command's prefix |
| MainLoop.ShowNat | esc/esc.py:33 | decimal digits only, the form `int()` parses |
| MainLoop.DigitsOfShowNat | esc/esc.py:33 | reading the decimal digits of n gives n back |
| MainLoop.ParseShowInt | esc/esc.py:33 | `int()` of the decimal form of any integer is that integer |
| MainLoop.Trunc | esc/esc.py:33 | `int()` of a float truncates toward zero |
| MainLoop.Session.constructor | main.py:176-197 | the loop starts with no flag, the load off, no current written, no state given, and the ESC throttle zeroed with one write |
| MainLoop.Session.AutoStep | main.py:203-233 | without voltage hold nothing happens; the first pass turns the fuel cell on, sets 0.01 A and the load on; later passes with the load on write the corrected hold current; without a loadbank the access raises AttributeError |
| MainLoop.Session.ProfileStep | main.py:249-282 | with a profile, the scheduler steps as `run` does; a raise leaves the session; a loadbank output takes a non-negative answer as the voltage to hold with the load on and turns the load off on -1, also when the profile is stopped; a motor output gets `int(answer)` as a throttle request; every other part of the session stays |
| MainLoop.Session.Handle | main.py:296-365 | an empty request, a one-token query and an unknown request change nothing and answer as listed; a two-token command has the effect and answer `Applied` gives |
| MainLoop.Session.Apply | main.py:338-365 | each two-token command changes only its own parts (`Applied`): `fc` sets the state, `off` zeroes the current and turns the load and the fuel cell off, `i` writes the text, `v` changes the voltage to hold only while holding, `load` follows `on`, `throttle` calibrates or assigns the throttle, `fly` starts or stops the profile as its setter does; errors without a loadbank or a profile change nothing |
| MainLoop.StrippedTokens | main.py:302-309 | one stripped token per piece of the request |
| LcdDisplay.Repeat | display/h100Display.py:89 | `"x" * n` is n copies of the character |
| LcdDisplay.LeftMargin | display/h100Display.py:79 | `center` splits the margin evenly, the odd space going to one side |
| LcdDisplay.Center | display/h100Display.py:79 | a text shorter than the field is padded to the field's width with blanks on both sides and appears unchanged inside; a longer one is kept |
| LcdDisplay.RJust | display/h100Display.py:92 | `rjust` pads on the left to the width and keeps the text as the suffix |
| LcdDisplay.Take | display/h100Display.py:79-92 | `s[:n]` is the prefix of the string of length min(n, len s) |
| LcdDisplay.BeforeDot | display/h100Display.py:87 | `split('.')[0]` is the longest dot-free prefix, ending at the first dot if there is one |
| LcdDisplay.SetText | display/h100Display.py:77-81 | the text field always fills exactly its width and shows the truncated text centred |
| LcdDisplay.SetFloat | display/h100Display.py:83-94 | a number whose whole part is wider than the field shows as a row of x; otherwise the truncated digits are right-justified in the field |
| LcdDisplay.PrefixOfSuffix | display/h100Display.py:92 | a prefix of the right-justified text sits at the justification offset |
| LcdDisplay.TakeKeepsPrefix | display/h100Display.py:92 | truncating to n keeps every prefix no longer than n |
| LcdDisplay.WholePartShown | display/h100Display.py:86-92 | whenever a number fits, its whole part (before the dot) is shown in full in the field |
| LcdDisplay.FieldsDisjoint | display/h100Display.py:56-69 | no two of the name, state, temperature, volts and amps fields share a cell, units included |
| LcdDisplay.WriteAt | display/h100Display.py:100-106 | a write puts the text on consecutive cells of its row from the cursor and leaves every other cell |
| LcdDisplay.BitmapSlots | display/h100Display.py:34-35 | the temperature symbol and the seven progress bars use eight distinct bitmap slots of the LCD |
| LcdDisplay.NextCounter | display/h100Display.py:164-168 | the animation counter counts 0..6 and then wraps to 0 |
| LcdDisplay.FuelCellDisplay.constructor | display/h100Display.py:32-54 | after `clear()` the display is blank |
| LcdDisplay.FuelCellDisplay.Update | display/h100Display.py:100-106 | writing text at a cursor shows it there, keeps the rest of the screen and returns the text |
| LcdDisplay.FuelCellDisplay.UpdateBitmap | display/h100Display.py:100-106 | with an index the one cell at the cursor shows that bitmap |
| LcdDisplay.FuelCellDisplay.SetName | display/h100Display.py:56-57 | the name becomes the centred 3-column text at (0,0) and the other fields are untouched |
| LcdDisplay.FuelCellDisplay.SetState | display/h100Display.py:58-59 | the state becomes the centred 3-column text at (4,0) and the other fields are untouched |
| LcdDisplay.FuelCellDisplay.SetTemp | display/h100Display.py:60-63 | the temperature symbol is drawn at (12,0) and the 4-column number at (8,0); other fields are untouched |
| LcdDisplay.FuelCellDisplay.SetVolts | display/h100Display.py:64-66 | `V` is drawn at (4,1) and the 4-column number at (0,1); other fields are untouched |
| LcdDisplay.FuelCellDisplay.SetAmps | display/h100Display.py:67-69 | `A` is drawn at (10,1) and the 4-column number at (6,1); other fields are untouched |
| LcdDisplay.Animate | display/h100Display.py:150-168 | over n frames the bars shown cycle through the seven progress bitmaps in order and the counter ends at n mod 7 |
| Findings.ChipBytes | adc/adcpi.py:75-94 | the chip sends three data bytes at 18 bits and two at the other resolutions, in two's complement |
| Findings.ChipBytesSign | adc/adcpi.py:96-98 | a code is negative exactly when its first data byte has bit 7 set |
| Findings.CorrectedCount | adc/adcpi.py:91-98 | corrected decode: fails exactly when the frame is too short, and otherwise lies in the signed range of the resolution |
| Findings.ThreeBytes | adc/adcpi.py:92 | a 24-bit value is its three bytes |
| Findings.TwoBytes | adc/adcpi.py:94 | a 16-bit value is its two bytes |
| Findings.EighteenBitDigits | adc/adcpi.py:92 | an 18-bit code's bytes spell its 24-bit two's complement, whose top byte is 0 or 1 for a non-negative code and 0xFE or 0xFF for a negative one |
| Findings.TwoByteDigits | adc/adcpi.py:94 | a 12-16 bit code's bytes spell its 16-bit two's complement, and the top byte is below the sign boundary exactly for non-negative codes |
| Findings.EighteenBitRoundTrip | adc/adcpi.py:91-98 | the corrected decode reads back every 18-bit code |
| Findings.SeventeenBits | adc/adcpi.py:92 | the 17 bits kept by the mask, less 2^17 when the sign bit is set, are the code |
| Findings.TwoByteRoundTrip | adc/adcpi.py:93-98 | the corrected decode reads back every 12, 14 and 16-bit code |
| Findings.CorrectedCountRoundTrip | adc/adcpi.py:91-98 | decode after encode is the identity for every code at every resolution |
| Findings.SampleCodes | adc/adcpi.py:91-98 | the bytes of the codes -1 at 18 and 16 bits and -32768 at 16 bits |
| Findings.Mcp3424MinusOneMisread | adc/adcpi.py:96-98 | as written, code -1 at 18 bits reads as -2 |
| Findings.Mcp3424SixteenBitMisread | adc/adcpi.py:93-98 | as written, code -1 at 16 bits reads as -65538 |
| Findings.Mcp3424MostNegativeMisread | adc/adcpi.py:93-98 | as written, code -32768 at 16 bits (first byte exactly 128) reads as +32768 |
| Findings.V1Frame | adcpi.py:35-58 | the block the chip returns for a code always holds the h, m and l bytes the driver reads |
| Findings.CorrectedSignStep | adcpi.py:64-83 | corrected sign step: a first byte with bit 7 set subtracts 2^bits, any other leaves the magnitude |
| Findings.Pow2Magnitudes | adcpi.py:60-84 | the powers of two the four resolutions use |
| Findings.CorrectedV1RoundTrip | adcpi.py:60-84 | with the corrected sign step every code at every resolution reads back as itself |
| Findings.V1EighteenBitRoundTrip | adcpi.py:61-66 | with the corrected sign step every 18-bit code reads back |
| Findings.V1TwoByteRoundTrip | adc/adcpi2.py:82-99 | with the corrected sign step every 12, 14 and 16-bit code reads back |
| Findings.V1TopByte | adcpi.py:67-84 | the masked top byte of a two-byte code plus the corrected sign step gives the code |
| Findings.V1Misread | adc/adcpi2.py:82-87 | as written, code -1 at 16 bits reads as -2 and code -32768 reads as 0 |
| Bus.FirstDecisive | adc/adcpi.py:82-86 | the outcome of polling a sequence of replies: the first ready reply ends it, a raising reply ends it with that exception, busy replies before it are skipped |
| Bus.FirstDecisiveAt | adc/adcpi.py:82-86 | if every reply before k is busy and reply k is not, the poll ends at k with k's outcome |
| Bus.FirstDecisiveAllBusy | adc/adcpi.py:82-86 | a chip that never becomes ready leaves the poll unfinished |
| Bus.FirstDecisiveAgree | adc/adcpi.py:82-86 | the poll depends only on how each reply is classified |
| Bus.PollReady | adc/adcpi.py:82-86 | the blocking `while` loop returns exactly the first decisive reply |
| Py.ListIndex | adc/adcpi.py:109 | Python indexing of an n-element list: defined exactly for -n <= i < n, with negative indices counted from the end |
| Py.RStripSpace | i2cGet/I2c.py:12 | removing trailing blanks never lengthens the text |
| Py.RStripShape | i2cGet/I2c.py:12 | what is removed is a run of blanks at the end and what is kept does not end in one |
| Py.LStripSpace | i2cGet/I2c.py:12 | removing leading blanks never lengthens the text |
| Py.LStripShape | i2cGet/I2c.py:12 | what is removed is a run of blanks at the start and what is kept does not start with one |
| Py.Strip | main.py:309 | `strip()` never lengthens the text |
| Py.StripShape | main.py:309 | `strip()` keeps one contiguous run of the text, cutting only blanks on either side, and the result neither starts nor ends in a blank |

## Left out

- I2C, SMBus, PiFace, GPIO and LCD hardware access. Each bus transaction is a given reply (data bytes or an `IOError`), and each pin or LCD write is recorded in the object's state.
- The daemon threads, the multiprocessing workers and the command reader's `select` on stdin: the model is one thread of control, and each command line is an input string.
- IEEE floating point and `str(float)`. Readings and setpoints are `real`. The display takes the number already formatted as its text.
- The wall clock. `time()` is a `now` parameter. A method that calls `time()` several times sees one reading (`Switch.timed`, `Timer.run`), so in `H100.run` the time since a state change is 0 in the pass that made it.
- The load bank, the fuel-cell load controller and `pragma4Controller`: these are imported from code that is not part of this model. Whether a load bank is present is a flag of the session. With one, its voltage and current setting are inputs; without one, `load` is not an object and the first use of it raises AttributeError.
- `main.py` as written never reaches its loop. `_start_loadbank` (main.py:73-95) has no `return`, so `load` is None whether or not the bank connects. `timer.My_Time()` (main.py:185) names a class that `timer/timer.py` does not define (it defines `Timer`), so AttributeError is raised before the first pass. The loadbank flag and `Session` model the evidently meant program: a bank that connects is used, and the loop runs.
- The `_print_*` report functions of `main.py`, which it never defines, and the start-up output. `sys` and `select` are used there without being imported too; the model starts from the parsed arguments and lower-cased command lines.
- The interactive ESC calibration (`input()` and `sleep`).
- `int()` of strings with underscores or non-ASCII digits: only ASCII digits with an optional sign are parsed.
- The unused `__last_line` and `__setpoint_last` fields of the profilers.
- The profile file position. `tell()` and `seek()` become an index into the list of the file's lines.
- The run loops of the TMP102 daemon and the display daemon. Only the readings, the field layout and the animation counter are modelled.
- `FuelCellDisplayDaemon.__init__` never calls `FuelCellDisplay.__init__` and reads the undefined `self.temp_symbol_index` (display/h100Display.py:130), so as written the daemon raises AttributeError when it is built and its `run` loop is never reached. `LcdDisplay.Animate` models that loop's animation as evidently meant.
- The display's `off`, `__setSymbol` and the IP-address helpers, and the getters of `h100Controller.py` that only return a field.
- The output and LCD calls of `controller.py`. Its `except` branches around the switch writes cannot be reached, because the switch catches its own write errors.
- Defects in indentation or syntax, read as evidently meant: the over-indented `if` at `adcpi.py:70` and the mixed tabs at `adc/adcpi2.py:83-87`, the mixed tabs and spaces at `switch/switch.py:54`, the import `import ../piface.pfio as pfio` at `switch/switch.py:21`, which is not valid Python and is read as the PiFace module, and the tabs in `tmp102/tmp102.py`, whose class names a module as its base class.
- The nested list that `hybrid/hybrid.py` passes to the write in `change_output`, and the `bytes` that quick2wire returns: a register is read as a two-port list that can be written.
- The logging of `validation.py` and the read-back queries it only logs.
- The three `print` calls of `Purge.__call__` (purge/purge.py:28-30), which show the proportional, integral and derivative terms and change nothing.
- LoopTimer.Timer.Start: its result is the stored start time, so its contract is the class invariant alone.
- MainLoop.Session.AutoStep: it uses the corrected voltage hold `HoldCurrent` rather than the in-band zeroing of the source (see Findings).
- The context files of the repository (other displays, radio, flow meter, flight-profile interface, servo and test scripts), which are not part of this model.

## Findings

| source | as written | input that shows it | evidently intended | confidence | as-written member | corrected member |
|---|---|---|---|---|---|---|
| adc/adcpi.py:91-98 | the sign test is `adcreading[0] > 128` on the whole first byte, and a negative count is made with `~(0x020000 - t)` at every resolution | code -1 at 18 bits (bytes FF FF FF) reads as -2; at 16 bits, -1 (FF FF) reads as -65538 and -32768 (80 00) reads as +32768 | the chip's two's-complement code: subtract 2^18 or 2^16 when the sign bit is set | not executed | Findings.Mcp3424MinusOneMisread | Findings.CorrectedCountRoundTrip |
| adcpi.py:64-83 | the sign test is `h > 128`, and a negative count is `~(2^N - t)` | at 16 bits code -1 reads as -2, and code -32768 (h = 128) reads as 0 | subtract 2^N when bit 7 of h is set | not executed | Findings.V1Misread | Findings.CorrectedV1RoundTrip |
| adc/adcpi.py:127-131 | channels 4-7 are passed unchanged to the second chip, whose configuration table has four rows | `AdcPi2().get(4)` raises IndexError | read row `channel - 4` of the second chip | not executed | Mcp3424.AdcPi2.Get | Mcp3424.AdcPi2.GetCorrected |
| hybrid/hybrid.py:143-146 | clearing a set bit assigns one integer to the whole register list | `h2_on` then `h2_off` leaves the register as 0, so the next read of `power1` raises TypeError | clear the bit in that port's byte | not executed | HybridBoard.H2OnOffBreaksRegister | HybridBoard.FixedReadsBack |
| main.py:221-233 | within the dead band of the voltage hold the load current is set to 0 | a stack at exactly the voltage to hold, drawing 1 A, is switched to 0 A | keep the current, as the older commented-out code did | not executed | MainLoop.InBandDropsLoad | MainLoop.HoldCurrentSteps |

# Hardware drivers of a network storage box, modelled and proved

This project models four programs that keep a storage appliance running, and
proves what they promise:

- the hardware-monitor driver `it87ts`, which keeps a cached picture of a banked
  register file, converts user units to register codes, and runs PWM channels
  through three modes over registers that each chip family overloads its own way;
- the serial protocol library `libmicon.py`, with checksummed, length-prefixed
  frames, nested retries and LED commands;
- the GPIO driver `gpio-ich`, whose pins share 32-bit words and, on one chip, an
  output-level cache;
- the pin controller driver `pinctrl-dnv`, with table-driven register placement,
  interrupt bookkeeping and suspend/resume.

`dafny verify dfyconfig.toml` checks everything.

## How it is laid out

**Hardware monitor.** `It87Chip` has the feature sets and register tables; a
register is known by its *role*, and roles are proved to have distinct addresses.
`It87Probe` says what probing makes of a board. `It87Ports` is the device behind
its address and data ports, banks included, and `It87View` the register file by
role. `It87Convert` has the unit conversions in C arithmetic. `It87Spec` gives
every operation as a function from cache and registers to an `Effect`: verdict,
new cache, and register writes in order. `It87Driver` is the driver object; each
of its methods follows the source, loops included, and is proved equal to the
function of `It87Spec`; `It87Calls` takes sequences of calls on the object to the runs
that the laws speak of. `It87Footprint` says what each setter may write. `It87Age` is
the age test of the cache. `It87Show`, `It87ShowPwm`, `It87ShowModes` and
`It87ShowSensor` say, in the user's units and bit by bit, what an attribute shows
after it was set, and `It87Snapshot` which register every refreshed field comes from:
these laws do not mention the functions that compute the codes. `It87Coherence`,
`It87WriteThrough`, `It87Attributes` and `It87Reachable` lead to write-through and
non-interference; `It87Exactly` says when nothing is missed; `It87Runs` and
`It87FanModes` lead to fan safety and the mode bits at every single write of every
run; `It87Modes`, `It87Duty`, `It87Divider` and `It87Sensor` to the laws of modes and
duties, dividers and sensor types.

**Micon.** `MiconFrame` has check bytes and framing, `MiconLine` the serial line with
bytes arriving in batches, `MiconPort` the shared command buffer and the retry loops,
`MiconReply` altered replies, `MiconDevice` the receiving side, `MiconLeds` and
`MiconLedRuns` the LED calls over all of these.

**GPIO.** `Words32` has masked changes of words, and their bits. `GpioIch`,
`GpioIchRuns` and `GpioIchReads` model the driver object, its runs and what it reads;
`DnvRegs`, `DnvSuspend`, `DnvIrq`, `DnvTrigger` and `PinctrlDnv` do so for the pin
controller.

## What is assumed

- Registers are plain storage, except those that `It87Runs.Measured` lists (they
  may change at any time), the level words of `gpio-ich` (they show the pins) and
  the interrupt status words of `pinctrl-dnv` (bits are cleared by writing ones,
  as its acknowledge function relies on). In particular the duty register is
  taken to be plain storage in automatic mode too, though a comment at
  `Tools/modules/it87ts/it87ts.c:1683` calls it read-only there.
- Each operation is atomic; single register writes are told apart where a
  property speaks of them.
- The device has register banks exactly if the feature table says so.
- The serial line may lose, alter, invent or delay any bytes. For the LED calls the
  Micon takes a checking write frame of two bytes as a write to the register at its
  address and nothing else as a write, and a reply that passes carries the register
  asked for. `MiconLedRuns.HonestIsTruthful` derives the latter from a Micon that
  answers reads with the register, on a line with nothing waiting when one is sent;
  `MiconReply.StaleReplyTaken` shows what a waiting reply does.

## Where the code is not what one might expect

- `It87Convert.FanRoundTrip` gives the exact condition under which a fan limit
  survives being shown and stored; `It87Convert.DividerCanLoseLimit` is an input
  for which it does not.
- `DnvIrq.ClearTriggeringPending`: freeing a pin writes the whole status word back
  and so drops the pending interrupts of the other pads in that word, as
  `DnvIrq.FreeingDropsPending` shows for pads 4 and 5.
- `It87Exactly.WriteThroughExactly` says exactly after which calls a refresh returns
  the cached state, and `It87WriteThrough.Settled` what it returns otherwise; for
  instance newer chips lose a temperature map stored in manual mode
  (`It87Exactly.TempMapLost`).
- On the last three PWM channels a temperature map is never shown as it was set: 4, 5
  and 7 are shown as 8, 16 and 32 (`It87ShowModes.MapShown`).
- `send_read_cmd` never compares the address of a reply with the one asked for:
  `MiconReply.StaleReplyTaken`.
- A corrupted header byte of a reply changes how many bytes are read, and may go
  unnoticed: `MiconReply.HeaderChanged` has the exact condition,
  `MiconReply.HeaderChangeCanPass` an example.
- `dnv_gpio_resume` tests its register pointer before assigning it
  (`Tools/modules/gpio_dnv/pinctrl-dnv.c:930`). The pins at which the unassigned
  pointer happens to be null are an arbitrary set in the model, and stay as found.
- The comment at `Tools/modules/gpio_dnv/pinctrl-dnv.c:714` speaks of skipping
  pins in another mode; the test it introduces compares an unsigned number with
  zero, so every pad is cleared, as the model does.

## Model

| member | source | states |
|---|---|---|
| `It87Chip.RoleAtAddr` | Tools/modules/it87ts/it87ts.c:290-345 | on every register layout that probing selects, each register role is found again at its own address, for all tables at once |
| `It87Chip.AddrInjective` | Tools/modules/it87ts/it87ts.c:290-345 | on every chip type, no two register roles share an address |
| `It87Chip.SharedRegisters` | Tools/modules/it87ts/it87ts.c:312-345 | the double uses of an address: at the one of the duty table there is the fourth automatic-mode register, at those of in10 to in12 temp4 to temp6, and no other role |
| `Bytes.BitPlaces` | Tools/modules/it87ts/it87ts.c:1396-1408 | bit n of a byte weighs 2 to the n, as in every channel mask |
| `It87Probe.ProbedValid` | Tools/modules/it87ts/it87ts.c:3506-3650 | for every chip type, revision, board strapping and register content, the probed device has what all operations rely on (older chips: on/off control, three PWMs, three tachometers; one older-style PECI channel) |
| `It87Probe.SharedPinsApart` | Tools/modules/it87ts/it87ts.c:3599-3617 | temp4 to temp6 and in10 to in12 share their registers, and probing never enables both of a pair |
| `It87Probe.ProbedFans` | Tools/modules/it87ts/it87ts.c:3379-3426 | channel by channel: a fan is there exactly if its pin serves as one and its enable bit, named by register and position, is set on a chip with that many |
| `It87Probe.ProbedPwms` | Tools/modules/it87ts/it87ts.c:3430-3441 | a PWM channel is there exactly if the chip has that many, its pin serves as one, the polarity check allows any, and the sixth of two types is switched on |
| `It87Probe.ProbedPins` | Tools/modules/it87ts/it87ts.c:3599-3617 | each of the three shared pins measures a temperature exactly if the upper bit of its field is set, a voltage if only the lower one is |
| `It87Probe.ProbedInputs` | Tools/modules/it87ts/it87ts.c:3569-3597 | input by input: the voltages and temperatures with pins of their own, and which voltages are scaled |
| `It87Ports.ReadRefinesFlat` | Tools/modules/it87ts/it87ts.c:853-887 | a banked read returns the flat register's value and changes no register, whatever bank was selected |
| `It87Ports.WriteRefinesFlat` | Tools/modules/it87ts/it87ts.c:859-897 | a banked write changes the flat register and no other; the low five bits of register 0x06 stay |
| `It87Ports.PortsRefineFlat` | Tools/modules/it87ts/it87ts.c:853-897 | every sequence of accesses off register 0x06 reads and writes as on a flat file of (bank, offset) bytes; afterwards the cached bank is the hardware bank |
| `It87Ports.FlatIsNumber` | Tools/modules/it87ts/it87ts.c:859-897 | a register number is its own place in that flat file, or its low byte on chips without banks |
| `It87View.ReadView` | Tools/modules/it87ts/it87ts.c:882-887 | a read at the address of a register role returns that role's value in the register file of the chip |
| `It87View.WriteView` | Tools/modules/it87ts/it87ts.c:893-897 | a write at the address of a register role replaces that role's value only |
| `It87Convert.InRoundTrip` | Tools/modules/it87ts/it87ts.c:769-778 | a voltage code shown in millivolts and stored again is the same code, for 0 to 255 and every ADC step |
| `It87Convert.InError` | Tools/modules/it87ts/it87ts.c:769-778 | in range, the stored code is within lsb/20 + 1/2 mV of what was asked |
| `It87Convert.TicksError` | Tools/modules/it87ts/it87ts.c:780-786 | for unclamped rpm the code is off by at most half a tick: abs(1350000 - code * rpm * div) <= rpm * div / 2 |
| `It87Convert.FanCodeAntitone` | Tools/modules/it87ts/it87ts.c:780-786 | a higher speed limit never gets a higher code |
| `It87Convert.FanRoundTrip` | Tools/modules/it87ts/it87ts.c:780-796 | an 8-bit limit code from 0 to 255 is restored by show and store if and only if it is the disabled one, or positive and the clock's remainder by v * d is under half of rpm * d (or v is 254) |
| `It87Convert.ZeroCode` | Tools/modules/it87ts/it87ts.c:780-796 | the code 0 shows as -1 and is stored back as 254 |
| `It87Convert.SmallCodesStable` | Tools/modules/it87ts/it87ts.c:780-796 | 2 * v * v * d <= 1350000 suffices for that |
| `It87Convert.FanRoundTripSmallDivider` | Tools/modules/it87ts/it87ts.c:780-796 | all codes 1 to 254 are restored for the dividers up to 8 |
| `It87Convert.Fan16RoundTrip` | Tools/modules/it87ts/it87ts.c:788-799 | in 16-bit mode a code from 0 to 65535 is restored by show and store if and only if it is the disabled one, or the clock's remainder by 2 * v is under its quotient (or v is 65534) |
| `It87Convert.SmallCodesStable16` | Tools/modules/it87ts/it87ts.c:788-799 | that is so for the codes 1 to 580 |
| `It87Convert.DividerChange` | Tools/modules/it87ts/it87ts.c:1521-1564 | re-encoding a limit for a new divider gives the whole code of the same clock count if and only if that code is stable there |
| `It87Convert.DividerKeepsLimit` | Tools/modules/it87ts/it87ts.c:1521-1564 | for a new divider of at most 8 the limit is kept exactly, and going back restores the old code, whatever the old divider |
| `It87Convert.DividerCanLoseLimit` | Tools/modules/it87ts/it87ts.c:795-796 | a concrete input for which a coarse divider does not restore the code: 200 at divider 128 |
| `It87Convert.ComputeDivToReg` | Tools/modules/it87ts/it87ts.c:821-828 | the shifting loop computes the divider code |
| `It87Convert.DivToRegIsLog` | Tools/modules/it87ts/it87ts.c:821-830 | the divider code is the binary logarithm rounded down, at most 7 |
| `It87Convert.TempRoundTrip` | Tools/modules/it87ts/it87ts.c:801-803 | temperatures -128 to 127 are stored and shown exactly |
| `It87Convert.TempMonotone` | Tools/modules/it87ts/it87ts.c:801-803 | temperature rounding is monotone through zero and off by at most half a degree in range |
| `It87Convert.ComputeFreqToReg` | Tools/modules/it87ts/it87ts.c:1721-1728 | the search loop computes the frequency select |
| `It87Convert.FreqNearest` | Tools/modules/it87ts/it87ts.c:1721-1728 | no table entry is nearer to the requested frequency than the selected one |
| `It87Convert.FreqRoundTrip` | Tools/modules/it87ts/it87ts.c:1457-1474 | storing the frequency that is shown for an entry selects that entry, for both scalings |
| `It87Driver.It87Data.constructor` | Tools/modules/it87ts/it87ts.c:3341-3345 | a new driver: nothing cached and the cache invalid, full-speed duties, one-to-one temperature maps |
| `It87Driver.It87Data.SetBank` | Tools/modules/it87ts/it87ts.c:865-875 | on chips with the bank feature the bank register is rewritten in its top bits when the bank differs from the cached one |
| `It87Driver.It87Data.ReadValue` | Tools/modules/it87ts/it87ts.c:882-887 | bank switch, then a read through the two ports |
| `It87Driver.It87Data.WriteValue` | Tools/modules/it87ts/it87ts.c:893-897 | bank switch, then a write through the two ports |
| `It87Driver.It87Data.Read` | Tools/modules/it87ts/it87ts.c:882-887 | by role: the register's value, no register changed |
| `It87Driver.It87Data.Write` | Tools/modules/it87ts/it87ts.c:893-897 | by role: that register replaced, the write logged |
| `It87Driver.It87Data.UpdateVins` | Tools/modules/it87ts/it87ts.c:966-981 | the loop over the voltages fills the table with the decoding of the enabled channels |
| `It87Driver.It87Data.UpdateFans` | Tools/modules/it87ts/it87ts.c:983-999 | the loop over the fans, with the high bytes in 16-bit mode |
| `It87Driver.It87Data.UpdateTemps` | Tools/modules/it87ts/it87ts.c:1000-1018 | the loop over the temperatures fills the table with their decoding, which It87Snapshot.RefreshedTemp gives register by register |
| `It87Driver.It87Data.UpdateDividers` | Tools/modules/it87ts/it87ts.c:1020-1026 | the packed dividers of chips that have them |
| `It87Driver.It87Data.UpdatePwmCtrl` | Tools/modules/it87ts/it87ts.c:899-947 | one PWM channel is decoded from its overloaded registers, with the three loops over trip points |
| `It87Driver.It87Data.UpdatePwms` | Tools/modules/it87ts/it87ts.c:1037-1041 | every enabled PWM channel, and no other |
| `It87Driver.It87Data.UpdateAll` | Tools/modules/it87ts/it87ts.c:966-1057 | the cache becomes the snapshot Refresh of the registers |
| `It87Driver.It87Data.UpdateDevice` | Tools/modules/it87ts/it87ts.c:949-1065 | from any state: a cache that is invalid, or old by the counter, is filled, otherwise nothing happens; on return it is valid, and at most 3*HZ/2 ticks old if it was invalid before or no more than that and half the counter's range had passed |
| `It87Age.OldExactly` | Tools/modules/it87ts/it87ts.c:956-957 | across counter wraps, within one range: time_after says old exactly for ages above 3*HZ/2 and up to half the range beyond that |
| `It87Driver.It87Data.StoreIn` | Tools/modules/it87ts/it87ts.c:1078-1098 | cache, register and writes after set_in |
| `It87Driver.It87Data.StoreTemp` | Tools/modules/it87ts/it87ts.c:1166-1204 | cache, registers, writes and validity after set_temp, with the enable bit of the offsets |
| `It87Driver.It87Data.StoreFan` | Tools/modules/it87ts/it87ts.c:1476-1519 | after set_fan, with the divider read from the register first |
| `It87Driver.It87Data.StoreFanDiv` | Tools/modules/it87ts/it87ts.c:1521-1564 | after set_fan_div, the limit re-encoded |
| `It87Driver.It87Data.CheckTripPoints` | Tools/modules/it87ts/it87ts.c:1567-1594 | the loops accept exactly the ordered trip points |
| `It87Driver.It87Data.StorePwmEnable` | Tools/modules/it87ts/it87ts.c:1596-1666 | after set_pwm_enable, the writes in their order |
| `It87Driver.It87Data.StorePwm` | Tools/modules/it87ts/it87ts.c:1668-1707 | after set_pwm: refused in automatic mode on newer chips, stored for later on older ones |
| `It87Driver.It87Data.StorePwmFreq` | Tools/modules/it87ts/it87ts.c:1709-1743 | after set_pwm_freq, the select in the register of the channel |
| `It87Driver.It87Data.StorePwmTempMap` | Tools/modules/it87ts/it87ts.c:1762-1806 | after set_pwm_temp_map, written at once only in automatic mode |
| `It87Driver.It87Data.StoreAutoPwm` | Tools/modules/it87ts/it87ts.c:1821-1844 | after set_auto_pwm |
| `It87Driver.It87Data.StoreAutoPwmSlope` | Tools/modules/it87ts/it87ts.c:1856-1874 | after set_auto_pwm_slope, the top bit kept |
| `It87Driver.It87Data.StoreAutoTemp` | Tools/modules/it87ts/it87ts.c:1894-1923 | after set_auto_temp, the code stored in cache and register, which It87ShowPwm.AutoTempShown and HysteresisShown give in degrees |
| `It87Driver.It87Data.StoreBeep` | Tools/modules/it87ts/it87ts.c:2177-2196 | after set_beep |
| `It87Driver.It87Data.StoreTempType` | Tools/modules/it87ts/it87ts.c:1332-1379 | after set_temp_type: nothing on an error, both registers otherwise |
| `It87Driver.It87Data.FixVinLimits` | Tools/modules/it87ts/it87ts.c:3354-3358 | the loop over the low voltage limits at initialisation |
| `It87Driver.VinLimitsFixedExactly` | Tools/modules/it87ts/it87ts.c:3354-3358 | exactly the limits that were 0xff are now 0, every other register is as before |
| `It87Driver.It87Data.FixTempLimits` | Tools/modules/it87ts/it87ts.c:3359-3363 | the loop over the high temperature limits |
| `It87Driver.TempLimitsFixedExactly` | Tools/modules/it87ts/it87ts.c:3359-3363 | exactly the limits that were 0xff are now 127, every other register is as before |
| `It87Driver.It87Data.EnableTachometers` | Tools/modules/it87ts/it87ts.c:3379-3387 | the cached mode register is the register, from initialisation on |
| `It87Driver.RestartBit` | Tools/modules/it87ts/it87ts.c:958-965 | the only register bit that a refresh itself can set is bit 6 of CONFIG, with update_vbat; no other bit of any register changes |
| `It87Snapshot.SnapshotNumbers` | Tools/modules/it87ts/it87ts.c:983-999 | refreshed 16-bit fans are low byte + 256 * high byte, refreshed alarms are the three alarm bytes |
| `It87Snapshot.RefreshedVin` | Tools/modules/it87ts/it87ts.c:966-981 | for every cache and register file: an enabled voltage is what the registers of its own channel hold, in10 to in12 those of temp4 to temp6; in8 to in12 keep their limits |
| `It87Snapshot.RefreshedTemp` | Tools/modules/it87ts/it87ts.c:1000-1018 | an enabled temperature is what the registers of its own channel hold: limits below the limit count, the offset where there are offsets, otherwise kept |
| `It87Snapshot.RefreshedNewer` | Tools/modules/it87ts/it87ts.c:899-933 | an enabled PWM channel of a newer chip: control byte, its low bits as the map, duty and every trip point from the registers of the channel |
| `It87Snapshot.RefreshedOlder` | Tools/modules/it87ts/it87ts.c:899-947 | an enabled PWM channel of an older chip: bit 7 of the control byte says whether its rest is the map or the duty, the other is kept; five temperatures and three duties on the chips with automatic mode |
| `It87Snapshot.RefreshedDividers` | Tools/modules/it87ts/it87ts.c:1020-1026 | the dividers bit by bit: bits 0 to 2, bits 3 to 5, and 8 or 2 by bit 6 of their register |
| `It87Snapshot.RefreshedControls` | Tools/modules/it87ts/it87ts.c:1028-1050 | the control registers are copied, and six VID bits on the chips that have them |
| `It87Snapshot.DisabledKept` | Tools/modules/it87ts/it87ts.c:966-1041 | a refresh leaves every channel alone that the chip does not have, and dividers and VID likewise |
| `It87Snapshot.LastRefreshWins` | Tools/modules/it87ts/it87ts.c:899-1065 | on newer chips the last refresh alone decides the cache; on the others refreshing the same registers again changes nothing |
| `It87WriteThrough.WriteThrough` | Tools/modules/it87ts/it87ts.c:1078-1923 | from a fresh cache, on every chip, after every setter: what a forced refresh finds is the cache as the setter left it, up to the registers that two fields share, whose refreshed values are given |
| `It87Exactly.WriteThroughExactly` | Tools/modules/it87ts/it87ts.c:1078-1923 | that is the cache exactly as the setter left it if and only if a condition on the call and the cache before it holds, for instance in manual mode on newer chips that the map is the one stored already |
| `It87Exactly.TempMapLost` | Tools/modules/it87ts/it87ts.c:1776-1811 | a concrete case where it does not: on every newer chip with control register 0, a map stored in manual mode is forgotten |
| `It87Attributes.NonInterference` | Tools/modules/it87ts/it87ts.c:1078-1923 | then every attribute, CPU voltage and alarms included, reads as before, except those listed for that setter: its own and those sharing its register bits |
| `It87Reachable.InitialClear` | Tools/modules/it87ts/it87ts.c:3341-3345 | the initial PWM defaults keep clear of the mode bit |
| `It87Reachable.ReachableFresh` | Tools/modules/it87ts/it87ts.c:949-1065 | after any run and a refresh the cache is fresh and the duty shadow has seven bits |
| `It87Reachable.SetterSeenThrough` | Tools/modules/it87ts/it87ts.c:949-1923 | write-through with its exact condition, and non-interference, at every state that any run can reach |
| `It87Runs.FanSafety` | Tools/modules/it87ts/it87ts.c:1615-1661 | between any two register writes of any run: a fan switched on stays on, a fan that entered on/off mode is on, the bits of the mode register above the channels' own stay, the tachometer enables among them |
| `It87FanModes.ModeBitChanges` | Tools/modules/it87ts/it87ts.c:1615-1661 | at every single register write of every run: a channel's mode bit changes only within an accepted mode request for that channel, and is cleared exactly for full speed |
| `It87FanModes.ModeBitKept` | Tools/modules/it87ts/it87ts.c:1615-1661 | a run without mode requests for a channel keeps its mode bit at every write |
| `It87Runs.SetterSafe` | Tools/modules/it87ts/it87ts.c:1078-1923 | every single write of every setter keeps the fans safe, and the cached mode register stays right |
| `It87Runs.FullSpeedStaysOn` | Tools/modules/it87ts/it87ts.c:1617-1625 | after a request for full speed the fan is on, and stays on through everything that follows |
| `It87Modes.ModeReadBack` | Tools/modules/it87ts/it87ts.c:1396-1408 | mode requests are accepted exactly when valid and, for automatic mode, with ordered cached trip points; an accepted mode reads back, at once and after a refresh, except manual full duty without on/off control, shown as 0 |
| `It87Modes.RunClear` | Tools/modules/it87ts/it87ts.c:1642-1654 | the driver never lets the mode bit into a stored duty or map, in any run; ModeReadBack needs no more |
| `It87Modes.DutySurvives` | Tools/modules/it87ts/it87ts.c:1642-1704 | on chips without newer automatic mode, after set_pwm and any run, switching to manual writes half of the last accepted set_pwm |
| `It87Modes.HeldThroughRun` | Tools/modules/it87ts/it87ts.c:899-911 | its invariant: the duty shadow is below 0x80 and equals the register whenever the mode bit is clear |
| `It87Footprint.Footprint` | Tools/modules/it87ts/it87ts.c:1078-1923 | each setter writes at most two registers, and only those of its own attribute; only a mode request changes the cached mode register, only calls about a channel its duty and map |
| `It87Calls.Perform` | Tools/modules/it87ts/it87ts.c:1078-1923 | one write to any attribute, on the driver object, does what the setter's function says |
| `It87Calls.PerformAll` | Tools/modules/it87ts/it87ts.c:949-1923 | any sequence of calls on the object is a run, and the object's log holds its register writes in order |
| `It87Calls.LogIsHistory` | Tools/modules/it87ts/it87ts.c:949-1923 | the register files that a run sees are those its logged writes lead through, one by one |
| `It87Calls.LogIsSafe` | Tools/modules/it87ts/it87ts.c:1615-1661 | so the fans are safe at every write that the object logs |
| `It87Divider.FanDivKeepsLimit` | Tools/modules/it87ts/it87ts.c:1521-1564 | for every divider: set_fan_div stores the whole code of the same clock count if and only if that code is stable at the new divider, as it is for dividers up to 8; that code reads as the limit before |
| `It87Divider.FanDivAndBack` | Tools/modules/it87ts/it87ts.c:1521-1564 | changing the divider and back: a code kept on the way is restored if and only if it is stable at the old divider, and always after a divider up to 8 |
| `It87Divider.FanDivKeepsDisabled` | Tools/modules/it87ts/it87ts.c:1521-1564 | a disabled limit stays disabled under every divider |
| `It87Divider.FanDivEndsZeroLimit` | Tools/modules/it87ts/it87ts.c:1521-1564 | a limit code of 0 becomes 254 under every divider |
| `It87Divider.DividerAskedFor` | Tools/modules/it87ts/it87ts.c:1535-1546 | asking for a divider the channel can have selects exactly it |
| `It87Show.InShown` | Tools/modules/it87ts/it87ts.c:1067-1098 | a voltage limit is stored as the nearest of all 256 codes (the end ones out of range), shown as its voltage in whole millivolts, at once and after a forced refresh from any cache, and the other limit is kept |
| `It87Show.StepOfChannel` | Tools/modules/it87ts/it87ts.c:752-767 | the ADC step by feature, doubled exactly on the scaled channels |
| `It87Show.TempShown` | Tools/modules/it87ts/it87ts.c:1155-1204 | a temperature limit or offset is shown, at once and after a forced refresh, as the nearest whole degree from -128 to 127; the others are kept; only an offset sets bit 7 of BEEP_ENABLE |
| `It87Show.FanMinShown` | Tools/modules/it87ts/it87ts.c:1410-1519 | a minimum speed on chips with dividers, the divider taken bit by bit from its register: 0 is shown as 0, anything else stored as the best code of 1 to 254 and shown as the speed of that code, at once and after a forced refresh |
| `It87Show.Fan16MinShown` | Tools/modules/it87ts/it87ts.c:1410-1492 | the same in 16-bit mode, with the best code of 1 to 65534 |
| `It87Show.FanDivShown` | Tools/modules/it87ts/it87ts.c:1426-1564 | set_fan_div shows the greatest power of two not above the divider asked for, up to 128 (2 or 8 on the third fan), keeps the other dividers and the top bit, and stores the best code for the speed that the limit showed before |
| `It87ShowPwm.AutoTempShown` | Tools/modules/it87ts/it87ts.c:1876-1923 | set_auto_temp accepts -128 to 127 degrees; a trip point is shown as the nearest whole degree, at once and after a forced refresh |
| `It87ShowPwm.HysteresisShown` | Tools/modules/it87ts/it87ts.c:1876-1923 | on newer chips point 0 is shown as that degree moved to at most 31 below, and not above, point 1; the upper three bits of its code are kept |
| `It87ShowPwm.AutomaticAccepted` | Tools/modules/it87ts/it87ts.c:1567-1613 | automatic mode is accepted exactly when the shown trip points ascend: four temperatures and three duties on older chips with it, three temperatures on newer ones |
| `It87ShowPwm.AutoPwmShown` | Tools/modules/it87ts/it87ts.c:1808-1844 | set_auto_pwm accepts 0 to 255 and is shown as asked, on older chips less the last bit, at once and after a forced refresh; the other points are kept |
| `It87ShowPwm.SlopeShown` | Tools/modules/it87ts/it87ts.c:1846-1874 | set_auto_pwm_slope accepts 0 to 127, which is then shown; the top bit and the start value are kept |
| `It87ShowPwm.FreqShown` | Tools/modules/it87ts/it87ts.c:1457-1743 | set_pwm_freq selects the base frequency nearest to the scaled request, on both channels and both scalings, shows it scaled down, and keeps the other five bits of the register |
| `It87ShowPwm.BeepShown` | Tools/modules/it87ts/it87ts.c:2168-2196 | set_beep accepts 0 and 1; the beep is on exactly for 1, at once and after a forced refresh, and the other bits are those of the register |
| `It87ShowModes.MapShown` | Tools/modules/it87ts/it87ts.c:1745-1806 | which maps are accepted and what each is shown as, at once and after a forced refresh; in automatic mode only the two low bits of the control byte change, in manual mode no register does; on the last three channels no map is shown as it was set |
| `It87ShowModes.CtrlBits` | Tools/modules/it87ts/it87ts.c:1596-1666 | the control byte after a mode request, bit by bit: on newer chips bit 7 is automatic mode, bits 2 to 6 are as cached and the map is in the low bits; on older chips it is the duty, or 0x80 |
| `It87ShowSensor.TypeRead` | Tools/modules/it87ts/it87ts.c:1305-1320 | the type read, by the bits of both registers: diode, thermistor, PECI by source number or extra bit, off |
| `It87ShowSensor.TypeWrittenBits` | Tools/modules/it87ts/it87ts.c:1332-1379 | an accepted type, bit by bit: the diode bit exactly for 3, the thermistor bit exactly for 2 and 4, the source select, the PECI bit; every other bit is kept |
| `It87Duty.DutyReadBack` | Tools/modules/it87ts/it87ts.c:1668-1707 | whatever the cache: a duty is accepted exactly when in range and not refused in automatic mode; then what is shown, at once and after a refresh, is that duty, on older chips less its last bit |
| `It87Duty.DutyRoundTrip` | Tools/modules/it87ts/it87ts.c:805-819 | a shown duty, set again, gives the same code |
| `It87Sensor.SensorTypeLaw` | Tools/modules/it87ts/it87ts.c:1305-1377 | for every register content: a type is accepted exactly when the channel can have it, then reads back (2 as 4), and another channel loses its type exactly when the PECI source is moved away from it |
| `It87Sensor.ExtraFieldsApart` | Tools/modules/it87ts/it87ts.c:1345-1377 | in every run the frequency bits of TEMP_EXTRA follow set_pwm_freq alone, the PECI bit set_temp_type alone, the other bits never change |
| `MiconFrame.CalcCheckByte` | micon_scripts/libmicon.py:183-194 | the loop that reduces at every byte computes the check byte |
| `MiconFrame.CalcChecksum` | micon_scripts/libmicon.py:196-204 | the loop that reduces at the end computes the checksum |
| `MiconFrame.RunningSumIsSum` | micon_scripts/libmicon.py:183-204 | reducing at every step and reducing at the end agree |
| `MiconFrame.FrameSumsToZero` | micon_scripts/libmicon.py:183-204 | the check byte makes every frame sum to zero, for every payload |
| `MiconFrame.SingleByteChange` | micon_scripts/libmicon.py:196-204 | changing any single byte of a frame makes its checksum nonzero |
| `MiconFrame.FramingUndoesEncoding` | micon_scripts/libmicon.py:288-295 | any sequence of frames with true lengths is read back as exactly those frames, consuming nothing beyond |
| `MiconFrame.FrameContents` | micon_scripts/libmicon.py:276-286 | a frame has checksum zero, its stated length, and its payload in place |
| `MiconLine.Line.GetResponse` | micon_scripts/libmicon.py:288-295 | one byte of what is there, then as many as it announces, or up to 32, of what is there by the second read; no byte is lost or read twice |
| `MiconLine.FrameReceived` | micon_scripts/libmicon.py:288-295 | a frame is received exactly when its bytes come in time for the two reads |
| `MiconLine.FramesReceived` | micon_scripts/libmicon.py:288-295 | when frames arrive in any batches, repeated calls return exactly those frames if and only if each comes in time, and then leave exactly what follows |
| `MiconLine.ReceiveIsCut` | micon_scripts/libmicon.py:288-295 | with all bytes there at the first read this is the cutting rule of FramingUndoesEncoding |
| `MiconPort.MiconApi.SendCmd` | micon_scripts/libmicon.py:215-249 | the responses are what arrives on the line and determine the transmissions: the buffer with its check byte once for each, the preamble after each that does not check; at most three, all but the last rejected; the outcome is determined by the last |
| `MiconPort.MiconApi.SendReadCmd` | micon_scripts/libmicon.py:252-274 | outer attempt k sends the frame followed by k zeros, as send_cmd does; all but the last brought nothing, there are three if the last brought nothing either, and the result is what the last brought |
| `MiconPort.NineFrames` | micon_scripts/libmicon.py:215-274 | a read sends at most nine command frames, one for each response, each the frame with at most two zeros, and with sum zero |
| `MiconPort.ReadData` | micon_scripts/libmicon.py:252-274 | returned data are the payload of the last response, which checks, has the read bit and its stated length; no other response did; and such a response is never passed over |
| `MiconPort.TransmissionsCounted` | micon_scripts/libmicon.py:209-246 | a command sends its frame once for each response, and the preamble after exactly those that came but do not sum to zero |
| `MiconPort.PreambleBytes` | micon_scripts/libmicon.py:209-213 | the preamble is 32 bytes of ones |
| `MiconPort.CommandOutcome` | micon_scripts/libmicon.py:221-249 | the outcome by the bytes of the responses: no answer after three bad ones, an index error for a checking last one without read bit and third byte, otherwise that one |
| `MiconPort.ReadOutcome` | micon_scripts/libmicon.py:252-274 | likewise for a read: it gives up only after three attempts, and fails exactly on such a response |
| `MiconPort.PaddedSumsToZero` | micon_scripts/libmicon.py:215-257 | the buffer of every outer attempt sums to zero |
| `MiconReply.HonestReply` | micon_scripts/libmicon.py:252-274 | an unaltered answer is accepted with its payload |
| `MiconReply.StaleReplyTaken` | micon_scripts/libmicon.py:252-274 | a late reply to another read that is still waiting is taken as the answer: the addresses are never compared |
| `MiconReply.CorruptedReply` | micon_scripts/libmicon.py:228-246 | an answer with any one byte but its header changed is taken off the line as it is and rejected |
| `MiconReply.HeaderChanged` | micon_scripts/libmicon.py:228-295 | with a changed header another number of bytes is taken, and accepted if and only if it has the read bit, enough bytes are there, and those left out or taken in make up for the change |
| `MiconReply.HeaderChangeRejected` | micon_scripts/libmicon.py:228-295 | never with the same stated length, nor with a greater one when nothing follows |
| `MiconReply.HeaderChangeCanPass` | micon_scripts/libmicon.py:228-295 | a concrete answer whose changed header is not noticed |
| `MiconPort.MiconApi.SendWriteCmd` | micon_scripts/libmicon.py:276-286 | a write sends the frame of its length, address and data, as send_cmd does |
| `MiconPort.MiconApi.SetLcdBuffer` | micon_scripts/libmicon.py:384-392 | a display message is one frame of two padded rows |
| `MiconPort.LcdMessageValid` | micon_scripts/libmicon.py:384-392 | whatever the texts, the message has the length it states, and each half shows its text as far as it fits, then blanks |
| `MiconDevice.WriteHeard` | micon_scripts/libmicon.py:220-249 | of a write's transmissions any may be lost or altered: if at least one of its command frames is heard, the register has the payload, however many are; if none is, no register changes |
| `MiconDevice.ReadHeard` | micon_scripts/libmicon.py:252-274 | whatever is heard of a read changes no register |
| `MiconLedRuns.ExchangeHeard` | micon_scripts/libmicon.py:300-349 | one read-modify-write over the line, where replies that pass carry the register asked for, changes the register as planned if its write is heard, once or more often, and nothing if not |
| `MiconLedRuns.HonestIsTruthful` | micon_scripts/libmicon.py:215-274 | when the Micon answers reads with the register, its answers come in time or not at all, altered or not, and nothing is waiting at the start, then every reply that passes carries the register asked for |
| `MiconLedRuns.CallModes` | micon_scripts/libmicon.py:300-349 | under the same condition, a call that succeeds and is heard sets exactly the LEDs of its mask; any other, wherever it was cut short, leaves the LEDs outside its mask as they are |
| `MiconLedRuns.SwitchedLast` | micon_scripts/libmicon.py:300-349 | LEDs are switched last: a call cut short before its last exchange, or whose last write is not heard, has switched none on or off |
| `MiconLedRuns.LedsRefineMap` | micon_scripts/libmicon.py:300-349 | under the same condition, after any run of calls for both kinds of LEDs, each LED is in the mode last set by a mask that contains it, if the calls that meant it succeeded and were heard; all others may have failed anywhere |
| `MiconLedRuns.LedsOnHonestLine` | micon_scripts/libmicon.py:215-349 | the same with nothing assumed of replies but an honest Micon on a line with nothing waiting when a read is sent |
| `MiconLeds.SetLedModes` | micon_scripts/libmicon.py:300-349 | all changes of a call, SATA or not, change exactly the LEDs of its mask, to the mode asked: 0 off, 2 blinking, anything else on |
| `MiconLeds.ChangedBytes` | micon_scripts/libmicon.py:306-312 | only the bits of the mask change in the first two bytes read, and any more are written back as read |
| `MiconLeds.WrittenExactly` | micon_scripts/libmicon.py:306-312 | the status is written back exactly when the read brought at least two bytes, as many as it brought |
| `MiconLeds.LedApi.UpdateStatus` | micon_scripts/libmicon.py:306-312 | one read-modify-write: the status read, its first two bytes masked, written back; a read without two bytes, or an error in the write, ends it |
| `MiconLeds.LedApi.CmdSetLed` | micon_scripts/libmicon.py:322-349 | the three read-modify-writes in their order, up to the first that is cut short |
| `MiconLeds.LedApi.CmdSetSataled` | micon_scripts/libmicon.py:300-320 | likewise the two for the SATA LEDs |
| `GpioIch.OffsetsDistinct` | Tools/modules/gpio_ich/gpio-ich.c:49-69 | the register words of a chip are at different offsets, in both tables |
| `GpioIch.ShippedValid` | Tools/modules/gpio_ich/gpio-ich.c:306-389 | all shipped chip descriptions meet what the model asks of one |
| `GpioIch.Ichx.WriteBit` | Tools/modules/gpio_ich/gpio-ich.c:118-151 | read or cached word, one bit changed, written, cached and verified |
| `GpioIch.Ichx.ReadBit` | Tools/modules/gpio_ich/gpio-ich.c:153-171 | returns BitRead, which GpioIchReads.UncachedRead, GpioIchReads.DirectionRead and GpioIchRuns.OutputCacheRefinesMap give by the levels and directions of the pins |
| `GpioIch.Ichx.DirectionInput` | Tools/modules/gpio_ich/gpio-ich.c:183-193 | direction bit set and verified |
| `GpioIch.Ichx.DirectionOutput` | Tools/modules/gpio_ich/gpio-ich.c:195-213 | blink off, level, direction, in this order, the last verified |
| `GpioIch.Ichx.Set` | Tools/modules/gpio_ich/gpio-ich.c:278-281 | the level bit written |
| `GpioIch.Ichx.Get` | Tools/modules/gpio_ich/gpio-ich.c:215-218 | returns the same for the level word: the pin's own level on chips without the cache |
| `GpioIchRuns.OutputCacheRefinesMap` | Tools/modules/gpio_ich/gpio-ich.c:118-171 | after any run the level word last written equals the per-pin last values (0 if never), and a pin reads as that value or its hardware level |
| `GpioIchRuns.LevelBeforeDirection` | Tools/modules/gpio_ich/gpio-ich.c:195-213 | on every chip, from any state, at every write: a pin that turns from input to output already has its requested level written |
| `GpioIchRuns.OutputStepByStep` | Tools/modules/gpio_ich/gpio-ich.c:195-213 | direction_output on every chip, write by write: blinking off, level, direction; no other pin's direction changes, and another pin's level is written as cached or as read |
| `GpioIchRuns.DirectionVerified` | Tools/modules/gpio_ich/gpio-ich.c:143-146 | a direction change is reported as failed exactly when the pin does not have that direction |
| `GpioIchReads.UncachedRead` | Tools/modules/gpio_ich/gpio-ich.c:153-171 | on chips without the output cache, in every state, a pin reads as bit nr % 32 of the level word of its group |
| `GpioIchReads.DirectionRead` | Tools/modules/gpio_ich/gpio-ich.c:178-181 | a direction read is the direction of the pin: the bit last written, or the wired one where it is fixed |
| `GpioIchReads.PinsReadAsDriven` | Tools/modules/gpio_ich/gpio-ich.c:118-171 | without the cache, after any run, a pin reads as the level it was last given from outside, whatever was asked of it |
| `GpioIchReads.DirectionsRefineMap` | Tools/modules/gpio_ich/gpio-ich.c:183-213 | on every chip, after any run, a pin whose direction is not wired has the one last asked for, and reads so |
| `GpioIchReads.PinPlace` | Tools/modules/gpio_ich/gpio-ich.c:118-171 | pin nr is bit nr % 32 of word nr / 32 |
| `DnvRegs.PadsApart` | Tools/modules/gpio_dnv/pinctrl-dnv.c:128-189 | no two of the 153 pins share a configuration register |
| `DnvRegs.TypesApart` | Tools/modules/gpio_dnv/pinctrl-dnv.c:73-189 | words of different register types are apart, for all pins |
| `DnvRegs.MasksApart` | Tools/modules/gpio_dnv/pinctrl-dnv.c:191-214 | no two pads share a bit of a word |
| `DnvRegs.MaskBits` | Tools/modules/gpio_dnv/pinctrl-dnv.c:191-214 | which bits of a word are a pad's, by number: two for its owner, one in each other shared word, none of the configuration |
| `DnvSuspend.SuspendResume` | Tools/modules/gpio_dnv/pinctrl-dnv.c:884-959 | whatever was written in between: every pad not locked then and now gets its saved bits of both words back, their other bits, locked pads and all other words stay as found; SuspendResumeBits names the bits |
| `DnvSuspend.SuspendResumeBits` | Tools/modules/gpio_dnv/pinctrl-dnv.c:66-70 | bit by bit: bits 0, 8 to 11, 19, 23, 25, 26 and 28 to 31 of the first word and 10 to 13 of the second are as at suspend, all others as found |
| `PinctrlDnv.OutputSurvives` | Tools/modules/gpio_dnv/pinctrl-dnv.c:884-959 | a pad made an output with a value before suspend drives and reads that value after resume |
| `PinctrlDnv.DnvGpio.Suspend` | Tools/modules/gpio_dnv/pinctrl-dnv.c:884-916 | the loop saves the masked words of the unlocked pads |
| `PinctrlDnv.DnvGpio.Resume` | Tools/modules/gpio_dnv/pinctrl-dnv.c:918-959 | the loop restores them, writing only what differs, but for the pins at which the pointer tested before its assignment is null |
| `DnvIrq.SetTypeKeepsOthers` | Tools/modules/gpio_dnv/pinctrl-dnv.c:467-534 | set_type on one pad changes no other pad's ownership, enable, status, lock or configuration bits |
| `DnvIrq.RecordedThroughRun` | Tools/modules/gpio_dnv/pinctrl-dnv.c:365-534 | in every run of set_type, free, acknowledge and other changes, an enabled pad has a recorded type |
| `DnvIrq.ResumeKeepsEnables` | Tools/modules/gpio_dnv/pinctrl-dnv.c:918-959 | a resume changes no enable bit, so it may happen anywhere in such a run |
| `PinctrlDnv.UpdateKeepsEnables` | Tools/modules/gpio_dnv/pinctrl-dnv.c:536-615 | nor does setting a direction or level |
| `DnvIrq.EveryInterruptHandledOnce` | Tools/modules/gpio_dnv/pinctrl-dnv.c:650-725 | after initialisation and any run, one handler pass dispatches every enabled pending pad exactly once, in ascending order, if the handlers run before it spare it; and only pads pending and recorded at their turn |
| `DnvIrq.SparedReady` | Tools/modules/gpio_dnv/pinctrl-dnv.c:650-696 | anything about other pads spares a pad's interrupt, but for freeing a pad with the same status word |
| `DnvIrq.ClearTriggeringPending` | Tools/modules/gpio_dnv/pinctrl-dnv.c:387-390 | freeing a pin clears the pending bit of every pad in its status word; another pad's stays exactly when it is in another word |
| `DnvIrq.FreeingDropsPending` | Tools/modules/gpio_dnv/pinctrl-dnv.c:387-390 | for instance, freeing pad 4 drops the pending interrupt of pad 5, in every state |
| `DnvIrq.AckPending` | Tools/modules/gpio_dnv/pinctrl-dnv.c:673-696 | acknowledging clears the pad's own pending bit and no other |
| `DnvTrigger.TypeTriggers` | Tools/modules/gpio_dnv/pinctrl-dnv.c:467-534 | set_type accepts no sense and five others; the pad then interrupts on exactly the edge or level that the type names, on nothing without a sense, on the edge opposite to the inversion before for both edges; all other bits are kept |
| `DnvTrigger.OwnershipTaken` | Tools/modules/gpio_dnv/pinctrl-dnv.c:487-490 | both ownership fields of the pad are clear afterwards, also when the type was refused |
| `DnvTrigger.FreedConfig` | Tools/modules/gpio_dnv/pinctrl-dnv.c:365-395 | freeing a pad clears bit 19 of its configuration and no other, so that nothing reaches the interrupt |
| `DnvTrigger.AckConfig` | Tools/modules/gpio_dnv/pinctrl-dnv.c:673-696 | acknowledging a pending pad with both edges turns bit 23 and no other; no other acknowledge changes the pad's configuration |
| `DnvTrigger.EdgesAlternate` | Tools/modules/gpio_dnv/pinctrl-dnv.c:467-696 | over any run that leaves a both-edges pad alone but for acknowledging it, the edge it waits for alternates with each served interrupt |
| `PinctrlDnv.DnvGpio.ClearTriggering` | Tools/modules/gpio_dnv/pinctrl-dnv.c:365-395 | routing, enable and status bits cleared, nothing for pins above the pads |
| `PinctrlDnv.DnvGpio.IrqSetType` | Tools/modules/gpio_dnv/pinctrl-dnv.c:467-534 | ownership first; an unknown sense is refused after that; otherwise configuration, enable bit and recorded type, where DnvTrigger.TypeTriggers says what the configuration interrupts on |
| `PinctrlDnv.DnvGpio.IrqAck` | Tools/modules/gpio_dnv/pinctrl-dnv.c:673-696 | the inversion toggled for both edges, the own status bit cleared |
| `PinctrlDnv.DnvGpio.IrqInitHw` | Tools/modules/gpio_dnv/pinctrl-dnv.c:710-725 | the loop disables every pad |
| `PinctrlDnv.DnvGpio.IrqHandler` | Tools/modules/gpio_dnv/pinctrl-dnv.c:650-671 | the loop dispatches the recorded pending pads in order, running whatever their handlers do |
| `PinctrlDnv.PinsApart` | Tools/modules/gpio_dnv/pinctrl-dnv.c:549-615 | setting one pin's direction or level changes no other register of any of the 153 pins |
| `PinctrlDnv.PinReadsBack` | Tools/modules/gpio_dnv/pinctrl-dnv.c:536-615 | a pin made an output reads back as what was last set; made an input, as its receiver |
| `PinctrlDnv.PinBits` | Tools/modules/gpio_dnv/pinctrl-dnv.c:536-615 | an output has bit 8 clear, bit 9 set and its level in bit 0; an input the other way round with its level kept; no other bit changes; and which bit a pin reads as |

## Left out

- It87Driver.It87Data.UpdateAll: the fixed-size tables of `it87_data` are sequences of records that the methods reassign, not arrays of bytes; aliasing between them is not modelled.
- It87Driver.It87Data.UpdateDevice: the jiffies counter is a parameter; when more than half of its range has passed since a valid cache was filled, the refresh is decided by the counter's reading alone and the age bound is not claimed.
- It87Snapshot.LastRefreshWins: on older chips a refresh also depends on the duty or map remembered from before, because one register holds either; the law is stated for newer chips and for repeated refreshes.
- It87Sensor.SensorTypeLaw: chips with bank select have another sensor-source decoding, which shifts the register address; it is not modelled.
- It87Probe.ProbedValid: what the Super-I/O configuration says is an arbitrary input, `it87_find` itself is not modelled.
- Register addresses, feature sets and frequency tables are constants, taken over as they are: the laws say that addresses are apart and what each register is for, not what its number is.
- `it87_check_pwm`: its polarity repair runs before the driver's first operation; its verdict is a parameter of the probed device.
- `set_fan_div` before any refresh packs dividers that were never read; FanDivKeepsLimit starts from the cached limit and divider.
- Values are mathematical integers: the narrowing of `unsigned long` arguments, and overflow for voltages and speeds out of any sensible range, are not modelled.
- MiconPort.MiconApi.SendReadCmd: printing and the debug output are not modelled; the read timeout is the choice of which bytes have arrived.
- MiconLedRuns.LedsRefineMap: what the firmware does with a write frame is an assumption, stated in MiconDevice, and so is what HonestAttempt says of its answers to reads; MiconReply says when another reply could pass.
- `set_lcd_color` overwrites the whole on/off register and is not part of the LED runs.
- `cmd_set_lcddisp`, the date, drive and sound commands and `micon_api_v3` repeat the same exchanges.
- GpioIchRuns.OutputCacheRefinesMap: an input pin whose cached output bit is 1 reads as 1; the law states that, not the ideal level.
- `ich6_gpio_get`, `request` and the region bookkeeping of `gpio-ich` are not modelled.
- PinctrlDnv.DnvGpio.IrqHandler: the handlers are sequences of the driver's own operations and other register changes; the domain mapping and flow handlers of the kernel are not modelled.
- Pin numbers are taken below the table sizes, since the tables of `pinctrl-dnv` are read before the range check; `range.pins` is not modelled.
- `gpio-it87.c`, the shell and service scripts, kernel registration, text parsing, locking and concurrency.

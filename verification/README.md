# Charlieplexed 12-LED display engine on a PIC16F684

This project models the display engine of `16F684_8-LEDs_charlie-plexed.X/main.c`.
The engine drives 12 LEDs from four shared pins: RA1, RA2, RA4 and RA5, which are
bits 1, 2, 4 and 5 of `TRISA` (direction, 1 = input) and `PORTA` (level).
The model has three modules:

- `PinTable` (pin_table.dfy). The 12-way `switch` of the timer interrupt handler
  is a pure lookup from the decremented LED position to the arm it runs. Each arm
  has a tested byte and mask, a high pin and a low pin. The module also holds the
  `OutBits`/`HighBits` an arm leaves (`Arm`), the register update of a selecting
  tick (`Apply`, `Drive`), and a read-back (`Lit`) of the LED a register
  configuration lights.
- `Scheduler` (scheduler.dfy). The counters are pure step functions:
  - the handler's static `State` (`NextState`);
  - the shared countdown `gTicks` (`CountDown`);
  - the main loop's shift of `gLEDs_8_to_11` (`Rotate`).

  The module proves closed forms for them, and proves the 12-tick coverage of the
  display.
- `Controller` (controller.dfy). The class `Charlieplexer` holds the handler's
  statics `State` and `Timer0Ticks`, the globals `gTicks`, `gLEDs_0_to_7` and
  `gLEDs_8_to_11`, and the registers `TRISA` and `PORTA`, all as `bv8`.
  - `Tick` is one TIMER0 interrupt.
  - `MainStep(adcHigh)` is one pass of the application loop, once its ADC
    conversion has finished.
  - A ghost `history` records every (TRISA, PORTA) configuration the pins pass
    through.
  - The class invariant `Valid` keeps the counters in range. It also keeps the
    pins safe: at most two shared pins are ever outputs, and a write makes a pin
    an output only when all four were floating beforehand.

Every byte is a `bv8`, so the code's `uint8_t` arithmetic is exact:
- `--State` wraps;
- `gLEDs_8_to_11 <<= 1` drops the bit shifted out of the byte.

Points where the code's behaviour is easy to misread, and which the model follows
exactly:
- The reload of `gTicks` to 250 and the step of `gLEDs_8_to_11` happen in `main`'s
  loop, not in the interrupt handler.
- The step is a byte-wide left shift, reset to 1 when the low nibble becomes 0. It
  is not a nibble rotation in general: it agrees with one on 1, 2, 4 and 8
  (`RotateIsNibbleRotation`) and differs on 0 and on most other bytes. From the
  power-on value 0 only 0, 1, 2, 4 and 8 are reachable, in the order
  0, 1, 2, 4, 8, 1, ... (`RotationFromPowerOn`).
- `State` starts at 8 and is decremented before the `switch`. So the first
  selecting tick addresses LED7, and LEDs 11..8 are first visited after LED0.
- Selectors 0 and 12..255 all fall into the `default` arm, which drives LED0 and
  resets `State` to 12. The invariant proved is 1 <= `State` <= 12.

## Model

| member | source | states |
|---|---|---|
| PinTable.Position | 16F684_8-LEDs_charlie-plexed.X/main.c:159-255 | every selector byte addresses one of the 12 LEDs, so the default arm (selector 0 and 12..255, LED0) is counted among them; which bit each addressed LED tests is stated by `TestsOwnBit` |
| PinTable.Lookup | 16F684_8-LEDs_charlie-plexed.X/main.c:159-255 | every arm of the switch drives an ordered pair of two different shared pins, one of RA1, RA2, RA4, RA5 each |
| PinTable.PinBitIsShift | 16F684_8-LEDs_charlie-plexed.X/main.c:163-252 | the register bit of each shared pin is the `1 << p` the arms write |
| PinTable.TestsOwnBit | 16F684_8-LEDs_charlie-plexed.X/main.c:161-252 | positions 0-7 test bit k of gLEDs_0_to_7 and positions 8-11 test bit k-8 of gLEDs_8_to_11, agreeing with the reference `LedOn` |
| PinTable.PositionOf | 16F684_8-LEDs_charlie-plexed.X/main.c:159-255 | each of the 4 x 3 ordered (high, low) pin pairs is the pair of some LED 0..11, so the table covers all pairs |
| PinTable.PositionOfLookup | 16F684_8-LEDs_charlie-plexed.X/main.c:159-255 | the pair of a position determines the position: no two LEDs share a pair |
| PinTable.Arm | 16F684_8-LEDs_charlie-plexed.X/main.c:156-255 | OutBits is 0 exactly when the tested bit is clear; a nonzero OutBits clears at most two shared pins and no other bit; HighBits lies within the pair and is 0 exactly when OutBits is |
| PinTable.OutputsOfMasked | 16F684_8-LEDs_charlie-plexed.X/main.c:257-263 | `TRISA &= OutBits` makes outputs of exactly the old outputs and the pins OutBits clears |
| PinTable.Apply | 16F684_8-LEDs_charlie-plexed.X/main.c:257-264 | the shared pins that are outputs after the writes are exactly those OutBits clears, or none when OutBits is 0, whatever TRISA held before (`DriveShape` gives the full register values) |
| PinTable.Drive | 16F684_8-LEDs_charlie-plexed.X/main.c:156-264 | a selecting tick leaves no shared pin an output exactly when the addressed LED's bit is clear (`DriveShape` and `DriveLights` state which pins and which LED) |
| PinTable.DriveShape | 16F684_8-LEDs_charlie-plexed.X/main.c:257-264 | a selecting tick keeps TRISA bits outside the shared pins; with the tested bit set exactly the pair are outputs, high pin at 1, low pin at 0, other PORTA bits kept; with it clear all four pins float and PORTA is unchanged |
| PinTable.DriveLights | 16F684_8-LEDs_charlie-plexed.X/main.c:257-264 | whatever the registers held before, after a selecting tick the registers light what `Shown` says: the addressed LED when its bit is set and no LED otherwise |
| Scheduler.NextState | 16F684_8-LEDs_charlie-plexed.X/main.c:159-254 | after any selecting tick State lies in 1..12, whatever byte it held |
| Scheduler.NextStateCountsDown | 16F684_8-LEDs_charlie-plexed.X/main.c:159-254 | from a State in 1..12 a selecting tick counts it down by one, and State 1 goes to 12 through the default arm |
| Scheduler.StateAfterClosedForm | 16F684_8-LEDs_charlie-plexed.X/main.c:147-254 | from State s in 1..12, n selecting ticks leave State ((s - 1 - n) mod 12) + 1 |
| Scheduler.AddressedClosedForm | 16F684_8-LEDs_charlie-plexed.X/main.c:147-254 | from State s in 1..12, selecting tick n addresses LED (s - 1 - n) mod 12 |
| Scheduler.StartupSequence | 16F684_8-LEDs_charlie-plexed.X/main.c:147-254 | from the power-on State 8 the selecting ticks address 7, 6, ..., 0 and then 11, 10, ..., 0 repeatedly |
| Scheduler.SchedulePeriodic | 16F684_8-LEDs_charlie-plexed.X/main.c:159-254 | the State sequence repeats every 12 selecting ticks |
| Scheduler.TickOf | 16F684_8-LEDs_charlie-plexed.X/main.c:159-254 | every LED is addressed by some selecting tick in any window of 12 |
| Scheduler.CycleAddressesDistinct | 16F684_8-LEDs_charlie-plexed.X/main.c:159-254 | 12 consecutive selecting ticks address 12 different LEDs |
| Scheduler.CycleShowsExactlyTheSetBits | 16F684_8-LEDs_charlie-plexed.X/main.c:153-264 | with the display bytes held, the LEDs shown over any 12 consecutive selecting ticks are exactly those whose bits are set |
| Scheduler.CountDown | 16F684_8-LEDs_charlie-plexed.X/main.c:152 | one tick never raises gTicks, and leaves it unchanged exactly when it is already 0 (`CountDownSaturates` gives the closed form) |
| Scheduler.CountDownSaturates | 16F684_8-LEDs_charlie-plexed.X/main.c:152 | gTicks never wraps below 0: after n ticks it is max(g - n, 0) |
| Scheduler.ReloadPeriod | 16F684_8-LEDs_charlie-plexed.X/main.c:134-136 | after a reload to 250, gTicks is 0 again exactly from the 250th tick on |
| Scheduler.Rotate | 16F684_8-LEDs_charlie-plexed.X/main.c:137 | the upper group never ends a step with an empty low nibble |
| Scheduler.RotateIsNibbleRotation | 16F684_8-LEDs_charlie-plexed.X/main.c:137 | on 1, 2, 4 and 8 the step is a left rotation within the low nibble |
| Scheduler.RotationFromPowerOn | 16F684_8-LEDs_charlie-plexed.X/main.c:109-137 | from the power-on value 0 the n-th step leaves 1 << (n mod 4), so the values reached are exactly 1, 2, 4, 8 in turn |
| Controller.SafeConcat | 16F684_8-LEDs_charlie-plexed.X/main.c:257-264 | a safe pin history stays safe when extended by safe writes that start by floating all four pins |
| Controller.TickWrites | 16F684_8-LEDs_charlie-plexed.X/main.c:257-264 | a selecting tick writes the pins at least once (its float-first order and final configuration are stated by the lemmas below) |
| Controller.TickWritesFloatFirst | 16F684_8-LEDs_charlie-plexed.X/main.c:257 | the first write of a selecting tick leaves no shared pin an output |
| Controller.TickWritesEndInApply | 16F684_8-LEDs_charlie-plexed.X/main.c:257-264 | the last configuration a selecting tick writes is the result `Apply` gives |
| Controller.TickWritesLast | 16F684_8-LEDs_charlie-plexed.X/main.c:257-264 | the last configuration is the high pin raised after the pair was driven after it was lowered after the float, or just the float when OutBits is 0 |
| Controller.ApplyDrivingInSteps | 16F684_8-LEDs_charlie-plexed.X/main.c:257-264 | with a nonzero OutBits, `Apply` equals the four writes float, lower the pair, drive the pair, raise the high pin, composed in that order |
| Controller.TickWritesSafe | 16F684_8-LEDs_charlie-plexed.X/main.c:257-264 | within a selecting tick every configuration has at most two shared outputs, and outputs appear only after all four were floated |
| Controller.Charlieplexer.constructor | 16F684_8-LEDs_charlie-plexed.X/main.c:98-110 | the power-on state: every pin an input, PORTA and the display bytes 0, gTicks 0, State 8, Timer0Ticks 0, and the invariant holds |
| Controller.Charlieplexer.Tick | 16F684_8-LEDs_charlie-plexed.X/main.c:144-271 | keeps the invariant; gTicks counts down without wrapping; a non-selecting tick changes only Timer0Ticks; a selecting tick advances State and drives the registers as `Drive` for the decremented State |
| Controller.Charlieplexer.Select | 16F684_8-LEDs_charlie-plexed.X/main.c:156-264 | advances State and performs the float-then-drive writes, keeping the pin history safe |
| Controller.Charlieplexer.NextArm | 16F684_8-LEDs_charlie-plexed.X/main.c:159-254 | `switch (--State)`: returns the arm for the decremented State and leaves State as NextState gives it |
| Controller.Charlieplexer.WritePins | 16F684_8-LEDs_charlie-plexed.X/main.c:257-264 | performs the writes one statement at a time in the handler's order, recording the configuration after each; the recorded list is exactly `TickWrites` and the registers end as `Apply` gives them |
| Controller.Charlieplexer.FloatPins | 16F684_8-LEDs_charlie-plexed.X/main.c:257 | TRISA is ORed with 0x36: the four shared pins become inputs, nothing else changes, and the new configuration is recorded |
| Controller.Charlieplexer.LowerPair | 16F684_8-LEDs_charlie-plexed.X/main.c:261 | `PORTA &= OutBits`: the pair's levels go to 0, nothing else changes, and the new configuration is recorded |
| Controller.Charlieplexer.DrivePair | 16F684_8-LEDs_charlie-plexed.X/main.c:262 | `TRISA &= OutBits`: the pair become outputs, nothing else changes, and the new configuration is recorded |
| Controller.Charlieplexer.RaiseHigh | 16F684_8-LEDs_charlie-plexed.X/main.c:263 | PORTA is ORed with HighBits: the high pin goes to 1, nothing else changes, and the new configuration is recorded |
| Controller.Charlieplexer.MainStep | 16F684_8-LEDs_charlie-plexed.X/main.c:133-138 | stores the ADC byte in gLEDs_0_to_7; when gTicks is 0 reloads it to 250 and steps gLEDs_8_to_11; keeps the invariant (gTicks <= 250, upper group 0 or one-hot) and touches nothing else |

## Left out

- Configuration fuses and the oscillator, option, comparator and ANSEL setup, and the start-up delay, at main.c:68-111: one-shot hardware setup with no logic. Only the initial values of the globals, statics and pin registers are modelled.
- The ADC: its setup and the busy-wait on `GO`, at main.c:115-123 and 131-132. This is device I/O; `ADRESH` is the parameter `adcHigh` of `MainStep`.
- The interrupt plumbing: the `TMR0IE && TMR0IF` guard, clearing `TMR0IF`, and `GIE`. Each call of `Tick` is one taken TIMER0 interrupt.
- Preemption of the main loop by the handler. `Tick` and `MainStep` are atomic; any order of calls to them is a possible run, but an interrupt in the middle of a statement is not modelled.
- The PIC's read-modify-write behaviour of `PORTA`, whose reads return pin levels rather than latches. `TRISA` and `PORTA` are plain bytes.
- `TRISC`/`PORTC` and the RA0 analog input: they are written only during initialisation, and the model keeps every TRISA bit outside the four shared pins (`DriveShape`).
- Real-time behaviour: the 1.024 ms tick, brightness and flicker.

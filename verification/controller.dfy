/** The device state shared by the timer-interrupt handler `ISR_handler`
    and the application loop of `main`, with one method per side: Tick is one
    TIMER0 interrupt, MainStep is one pass of the loop after its ADC
    conversion has finished. */
module Controller {
  import opened PinTable
  import opened Scheduler

  /** Float before drive: a register write may make a shared pin an output
      only when none of the four is an output beforehand. */
  predicate FloatsBeforeDriving(before: Pins, after: Pins) {
    Outputs(before.tris) == 0 || Outputs(after.tris) & !Outputs(before.tris) == 0
  }

  /** Configuration `i` of the sequence drives at most one pin pair, and the
      write that produced it floated before it drove. */
  ghost predicate SafeStep(h: seq<Pins>, i: int)
    requires 0 <= i < |h|
  {
    AtMostTwoOutputs(h[i].tris) && (i > 0 ==> FloatsBeforeDriving(h[i - 1], h[i]))
  }

  /** Every configuration in the sequence is a safe step. */
  ghost predicate SafeHistory(h: seq<Pins>) {
    forall i | 0 <= i < |h| :: SafeStep(h, i)
  }

  /** A safe history followed by a safe run of writes whose first write
      floats all four shared pins is safe: floating never adds an output. */
  lemma SafeConcat(h: seq<Pins>, w: seq<Pins>)
    requires SafeHistory(h) && SafeHistory(w)
    requires |w| > 0 && Outputs(w[0].tris) == 0
    ensures SafeHistory(h + w)
  {
    var hw := h + w;
    forall i | 0 <= i < |hw|
      ensures SafeStep(hw, i)
    {
      if i < |h| {
        assert SafeStep(h, i);
        assert hw[i] == h[i];
        if i > 0 {
          assert hw[i - 1] == h[i - 1];
        }
      } else {
        assert SafeStep(w, i - |h|);
        assert hw[i] == w[i - |h|];
        if i > |h| {
          assert hw[i - 1] == w[i - 1 - |h|];
        }
      }
    }
  }

  /** `TRISA |= (1<<5)|(1<<4)|(1<<2)|(1<<1)`: all four shared pins float. */
  function Floated(c: Pins): Pins {
    Pins(c.tris | GroupMask, c.port)
  }

  /** `PORTA &= OutBits`: both pins of the pair low. */
  function PairLowered(c: Pins, outBits: bv8): Pins {
    Pins(c.tris, c.port & outBits)
  }

  /** `TRISA &= OutBits`: the pair become outputs. */
  function PairDriven(c: Pins, outBits: bv8): Pins {
    Pins(c.tris & outBits, c.port)
  }

  /** `PORTA |= HighBits`: the high pin goes high. */
  function HighRaised(c: Pins, highBits: bv8): Pins {
    Pins(c.tris, c.port | highBits)
  }

  /** The (TRISA, PORTA) configurations a selecting tick passes through, one
      per register write in the order the handler makes them: all four
      shared pins floated, then, when OutBits is nonzero, the pair's PORTA
      bits cleared, the pair made outputs and HighBits set. */
  function TickWrites(t: bv8, p: bv8, m: Masks): (w: seq<Pins>)
    ensures |w| > 0
  {
    var floated := Floated(Pins(t, p));
    var lowered := PairLowered(floated, m.outBits);
    var driven := PairDriven(lowered, m.outBits);
    if m.outBits != 0 then [floated, lowered, driven, HighRaised(driven, m.highBits)]
    else [floated]
  }

  /** The first write of a selecting tick leaves no shared pin an output. */
  lemma TickWritesFloatFirst(t: bv8, p: bv8, m: Masks)
    ensures Outputs(TickWrites(t, p, m)[0].tris) == 0
  {
  }

  /** The last write of a selecting tick leaves the registers as `Apply`
      gives them. */
  lemma TickWritesEndInApply(t: bv8, p: bv8, m: Masks)
    ensures var w := TickWrites(t, p, m); w[|w| - 1] == Apply(t, p, m)
  {
    TickWritesLast(t, p, m);
    if m.outBits != 0 {
      ApplyDrivingInSteps(t, p, m);
    }
  }

  /** The four writes of a selecting tick that drives a pair, composed, are
      the update `Apply` describes. */
  lemma ApplyDrivingInSteps(t: bv8, p: bv8, m: Masks)
    requires m.outBits != 0
    ensures Apply(t, p, m) == HighRaised(PairDriven(PairLowered(Floated(Pins(t, p)), m.outBits), m.outBits), m.highBits)
  {
  }

  /** The last configuration of a selecting tick is its writes composed. */
  lemma TickWritesLast(t: bv8, p: bv8, m: Masks)
    ensures var w := TickWrites(t, p, m);
      w[|w| - 1] == if m.outBits != 0
        then HighRaised(PairDriven(PairLowered(Floated(Pins(t, p)), m.outBits), m.outBits), m.highBits)
        else Floated(Pins(t, p))
  {
  }

  /** Float before drive holds within a selecting tick: its writes make at
      most two shared pins outputs, and only after all four were floated. */
  lemma TickWritesSafe(t: bv8, p: bv8, m: Masks)
    requires m.outBits != 0 ==> AtMostTwoOutputs(m.outBits)
    ensures SafeHistory(TickWrites(t, p, m))
  {
  }

  /** Recording four configurations one at a time records the four of them. */
  lemma AppendFour(h: seq<Pins>, a: Pins, b: Pins, c: Pins, d: Pins)
    ensures h + [a] + [b] + [c] + [d] == h + [a, b, c, d]
  {
  }

  class Charlieplexer {
    var state: bv8        // static State of the handler: LED position + 1
    var timer0Ticks: bv8  // static Timer0Ticks of the handler: the hold counter
    var ticks: bv8        // gTicks: countdown to the next rotation
    var leds0to7: bv8     // gLEDs_0_to_7: the displayed ADC byte
    var leds8to11: bv8    // gLEDs_8_to_11: the rotating upper group
    var trisa: bv8        // TRISA: 1 = input (floating), 0 = output
    var porta: bv8        // PORTA: output levels

    /** Every (TRISA, PORTA) configuration the pins have been in, oldest first. */
    ghost var history: seq<Pins>

    /** The counters stay in their ranges and the upper group holds at
        most one LED. */
    ghost predicate CountersValid()
      reads this`state, this`timer0Ticks, this`ticks, this`leds8to11
    {
      1 <= state <= 12
      && timer0Ticks <= 1
      && ticks <= Reload
      && (leds8to11 == 0 || leds8to11 == 1 || leds8to11 == 2 || leds8to11 == 4 || leds8to11 == 8)
    }

    /** The history ends in the current registers and every write in it
        floated before it drove. */
    ghost predicate PinsValid()
      reads this`trisa, this`porta, this`history
    {
      |history| > 0 && history[|history| - 1] == Pins(trisa, porta)
      && SafeHistory(history)
    }

    ghost predicate Valid()
      reads this
    {
      CountersValid() && PinsValid()
    }

    /** The state once `main` has initialised the device and the handler's
        statics hold their initial values: every pin an input, all LEDs off. */
    constructor ()
      ensures Valid()
      ensures state == 8 && timer0Ticks == 0 && ticks == 0
      ensures leds0to7 == 0 && leds8to11 == 0
      ensures trisa == 0xFF && porta == 0 && history == [Pins(0xFF, 0)]
    {
      state, timer0Ticks := 8, 0;
      trisa, porta := 0xFF, 0;
      leds0to7, leds8to11, ticks := 0, 0, 0;
      history := [Pins(0xFF, 0)];
    }

    /** One TIMER0 interrupt. Every second tick selects the next LED
        position and rewrites the pins; the other tick only counts down. */
    method Tick()
      requires Valid()
      modifies this
      ensures Valid()
      ensures ticks == CountDown(old(ticks))
      ensures leds0to7 == old(leds0to7) && leds8to11 == old(leds8to11)
      // non-selecting tick: only the hold counter moves
      ensures old(timer0Ticks) != 0 ==>
        timer0Ticks == old(timer0Ticks) - 1 && state == old(state)
        && trisa == old(trisa) && porta == old(porta) && history == old(history)
      // selecting tick: advance, float all four pins, then drive the pair if its bit is set
      ensures old(timer0Ticks) == 0 ==>
        timer0Ticks == 1 && state == NextState(old(state))
        && history == old(history) + TickWrites(old(trisa), old(porta), Arm(old(state) - 1, leds0to7, leds8to11))
        && Pins(trisa, porta) == Drive(old(trisa), old(porta), old(state) - 1, leds0to7, leds8to11)
    {
      if ticks != 0 {
        ticks := ticks - 1;
      }
      if timer0Ticks == 0 {
        timer0Ticks := 1;
        Select();
      } else {
        timer0Ticks := timer0Ticks - 1;
      }
    }

    /** The selecting half of a tick: pick the arm for the next position,
        then make its register writes. */
    method Select()
      requires PinsValid()
      modifies this`state, this`trisa, this`porta, this`history
      ensures PinsValid()
      ensures state == NextState(old(state))
      ensures history == old(history) + TickWrites(old(trisa), old(porta), Arm(old(state) - 1, leds0to7, leds8to11))
      ensures Pins(trisa, porta) == Drive(old(trisa), old(porta), old(state) - 1, leds0to7, leds8to11)
    {
      ghost var h0, t0, p0 := history, trisa, porta;
      var m := NextArm();
      WritePins(m);
      TickWritesFloatFirst(t0, p0, m);
      TickWritesSafe(t0, p0, m);
      SafeConcat(h0, TickWrites(t0, p0, m));
    }

    /** `switch (--State)`: the arm for the decremented State, whose default
        arm also wraps State back to 12. */
    method NextArm() returns (m: Masks)
      modifies this`state
      ensures state == NextState(old(state))
      ensures m == Arm(old(state) - 1, leds0to7, leds8to11)
    {
      state := state - 1;
      m := Arm(state, leds0to7, leds8to11);
      if !(1 <= state <= 11) {
        state := 12;
      }
    }

    /** The register writes of a selecting tick with the arm's OutBits and
        HighBits, in the handler's order; the history records the
        configuration after each of them. */
    method WritePins(m: Masks)
      modifies this`trisa, this`porta, this`history
      ensures history == old(history) + TickWrites(old(trisa), old(porta), m)
      ensures Pins(trisa, porta) == Apply(old(trisa), old(porta), m)
    {
      ghost var h0, t0, p0 := history, trisa, porta;
      FloatPins();                               // turn off all LED output drivers
      if m.outBits != 0 {
        ghost var floated := Pins(trisa, porta);
        LowerPair(m.outBits);                    // both pins of the pair low
        ghost var lowered := Pins(trisa, porta);
        DrivePair(m.outBits);                    // the pair become outputs
        ghost var driven := Pins(trisa, porta);
        RaiseHigh(m.highBits);                   // the high pin goes high
        AppendFour(h0, floated, lowered, driven, Pins(trisa, porta));
      }
      TickWritesEndInApply(t0, p0, m);
    }

    /** `TRISA |= ...`: every shared pin becomes an input. */
    method FloatPins()
      modifies this`trisa, this`history
      ensures Pins(trisa, porta) == Floated(old(Pins(trisa, porta)))
      ensures history == old(history) + [Pins(trisa, porta)]
    {
      trisa := trisa | GroupMask;
      history := history + [Pins(trisa, porta)];
    }

    /** `PORTA &= OutBits`. */
    method LowerPair(outBits: bv8)
      modifies this`porta, this`history
      ensures Pins(trisa, porta) == PairLowered(old(Pins(trisa, porta)), outBits)
      ensures history == old(history) + [Pins(trisa, porta)]
    {
      porta := porta & outBits;
      history := history + [Pins(trisa, porta)];
    }

    /** `TRISA &= OutBits`. */
    method DrivePair(outBits: bv8)
      modifies this`trisa, this`history
      ensures Pins(trisa, porta) == PairDriven(old(Pins(trisa, porta)), outBits)
      ensures history == old(history) + [Pins(trisa, porta)]
    {
      trisa := trisa & outBits;
      history := history + [Pins(trisa, porta)];
    }

    /** `PORTA |= HighBits`. */
    method RaiseHigh(highBits: bv8)
      modifies this`porta, this`history
      ensures Pins(trisa, porta) == HighRaised(old(Pins(trisa, porta)), highBits)
      ensures history == old(history) + [Pins(trisa, porta)]
    {
      porta := porta | highBits;
      history := history + [Pins(trisa, porta)];
    }

    /** One pass of the application loop: store the ADC high byte, and when
        the countdown has run out reload it and advance the upper group. */
    method MainStep(adcHigh: bv8)
      requires Valid()
      modifies this
      ensures Valid()
      ensures leds0to7 == adcHigh
      ensures old(ticks) == 0 ==> ticks == Reload && leds8to11 == Rotate(old(leds8to11))
      ensures old(ticks) != 0 ==> ticks == old(ticks) && leds8to11 == old(leds8to11)
      ensures state == old(state) && timer0Ticks == old(timer0Ticks)
      ensures trisa == old(trisa) && porta == old(porta) && history == old(history)
    {
      leds0to7 := adcHigh;
      if ticks == 0 {
        ticks := Reload;
        leds8to11 := leds8to11 << 1;
        if leds8to11 & 0x0F == 0 {
          leds8to11 := 1;
        }
      }
    }
  }
}

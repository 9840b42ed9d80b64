/** The counters of the charlieplexing engine as pure step functions: the
    LED position sequence kept in the handler's static `State`, the shared
    countdown `gTicks`, and the main loop's rotation of `gLEDs_8_to_11`. */
module Scheduler {
  import opened PinTable

  /** `switch (--State)` followed, in the default arm, by `State = 12`: the
      State the handler keeps after a selecting tick. */
  function NextState(state: bv8): (r: bv8)
    ensures 1 <= r <= 12
  {
    var d := state - 1;
    if 1 <= d <= 11 then d else 12
  }

  /** State after `n` selecting ticks starting from `s`. */
  function StateAfter(s: bv8, n: nat): bv8 {
    if n == 0 then s else NextState(StateAfter(s, n - 1))
  }

  /** The selector (the decremented State) that the selecting tick numbered
      `n` (from 0) switches on, starting from State `s`. */
  function SelectorAt(s: bv8, n: nat): bv8 {
    StateAfter(s, n) - 1
  }

  /** From any State in 1..12 the State counts down 12, 11, ..., 1 and wraps
      back to 12: after n selections it is ((s - 1 - n) mod 12) + 1. */
  lemma {:induction false} StateAfterClosedForm(s: bv8, n: nat)
    requires 1 <= s <= 12
    ensures StateAfter(s, n) as int == (s as int - 1 - n) % 12 + 1
  {
    if n > 0 {
      StateAfterClosedForm(s, n - 1);
      var t := StateAfter(s, n - 1);
      NextStateCountsDown(t);
      ModTwelveStep(s as int - n);
    }
  }

  /** Counting down by one modulo 12 wraps 0 to 11. */
  lemma ModTwelveStep(a: int)
    ensures (a - 1) % 12 == if a % 12 == 0 then 11 else a % 12 - 1
  {
    var q, r := a / 12, a % 12;
    if r == 0 {
      assert a - 1 == 12 * (q - 1) + 11;
    } else {
      assert a - 1 == 12 * q + (r - 1);
    }
  }

  /** Within 1..12 a selecting tick counts State down by one, 1 going to 12. */
  lemma NextStateCountsDown(t: bv8)
    requires 1 <= t <= 12
    ensures NextState(t) as int == if t == 1 then 12 else t as int - 1
  {
  }

  /** The LED addressed by selecting tick `n` (from 0), starting from State `s`. */
  function Addressed(s: bv8, n: nat): (k: nat)
    ensures k < 12
  {
    Position(SelectorAt(s, n))
  }

  /** From State s in 1..12, selecting tick n addresses LED (s - 1 - n) mod 12. */
  lemma AddressedClosedForm(s: bv8, n: nat)
    requires 1 <= s <= 12
    ensures Addressed(s, n) == (s as int - 1 - n) % 12
  {
    StateAfterClosedForm(s, n);
  }

  /** From the power-on State 8 the first selecting tick addresses LED7,
      the eighth addresses LED0, and from then on 11, 10, ..., 0 repeat. */
  lemma StartupSequence(n: nat)
    ensures n < 8 ==> Addressed(8, n) == 7 - n
    ensures n >= 8 ==> Addressed(8, n) == 11 - (n - 8) % 12
  {
    AddressedClosedForm(8, n);
    if n >= 8 {
      assert (7 - n) % 12 == (-1 - (n - 8)) % 12;
    }
  }

  /** The position sequence repeats every 12 selecting ticks. */
  lemma SchedulePeriodic(s: bv8, n: nat)
    requires 1 <= s <= 12
    ensures StateAfter(s, n + 12) == StateAfter(s, n)
  {
    StateAfterClosedForm(s, n);
    StateAfterClosedForm(s, n + 12);
  }

  /** The selecting tick in the window start .. start + 11 that addresses LED k. */
  function TickOf(s: bv8, start: nat, k: nat): (n: nat)
    requires 1 <= s <= 12 && k < 12
    ensures start <= n < start + 12 && Addressed(s, n) == k
  {
    var n := start + (s as int - 1 - start - k) % 12;
    AddressedClosedForm(s, n);
    n
  }

  /** Any 12 consecutive selecting ticks address 12 different LEDs, so with
      TickOf every LED exactly once. */
  lemma CycleAddressesDistinct(s: bv8, start: nat)
    requires 1 <= s <= 12
    ensures forall i, j :: start <= i < j < start + 12 ==> Addressed(s, i) != Addressed(s, j)
  {
    forall i, j | start <= i < j < start + 12
      ensures Addressed(s, i) != Addressed(s, j)
    {
      AddressedClosedForm(s, i);
      AddressedClosedForm(s, j);
    }
  }

  /** What selecting tick `n` shows, starting from State `s`. */
  function ShownAt(s: bv8, n: nat, lower: bv8, upper: bv8): Option<nat> {
    Shown(SelectorAt(s, n), lower, upper)
  }

  /** Over any 12 consecutive selecting ticks with unchanged display bytes,
      the LEDs shown are exactly those whose bits are set. */
  lemma CycleShowsExactlyTheSetBits(s: bv8, start: nat, lower: bv8, upper: bv8)
    requires 1 <= s <= 12
    ensures forall k :: 0 <= k < 12 ==>
      (LedOn(k, lower, upper) <==> exists n :: start <= n < start + 12 && ShownAt(s, n, lower, upper) == Some(k))
  {
    forall k | 0 <= k < 12
      ensures LedOn(k, lower, upper) <==> exists n :: start <= n < start + 12 && ShownAt(s, n, lower, upper) == Some(k)
    {
      var n := TickOf(s, start, k);
      TestsOwnBit(SelectorAt(s, n), lower, upper);
      if LedOn(k, lower, upper) {
        assert ShownAt(s, n, lower, upper) == Some(k);
      }
      if m :| start <= m < start + 12 && ShownAt(s, m, lower, upper) == Some(k) {
        TestsOwnBit(SelectorAt(s, m), lower, upper);
      }
    }
  }

  /** `if (gTicks != 0) gTicks--;` in the handler. */
  function CountDown(g: bv8): (r: bv8)
    ensures r <= g && (r == g <==> g == 0)
  {
    if g != 0 then g - 1 else g
  }

  /** `gTicks` after `n` ticks with no reload in between. */
  function CountDownAfter(g: bv8, n: nat): bv8 {
    if n == 0 then g else CountDown(CountDownAfter(g, n - 1))
  }

  /** The countdown never wraps below 0: after n ticks it is max(g - n, 0). */
  lemma {:induction false} CountDownSaturates(g: bv8, n: nat)
    ensures CountDownAfter(g, n) as int == if n >= g as int then 0 else g as int - n
  {
    if n > 0 {
      CountDownSaturates(g, n - 1);
    }
  }

  /** The reload value the main loop writes into gTicks. */
  const Reload: bv8 := 250

  /** A reload is followed by exactly 250 ticks before gTicks is 0 again. */
  lemma ReloadPeriod(n: nat)
    ensures CountDownAfter(Reload, n) == 0 <==> n >= 250
  {
    CountDownSaturates(Reload, n);
  }

  /** `if (((gLEDs_8_to_11 <<= 1) & 0x0F) == 0) gLEDs_8_to_11 = 1;`: a
      byte-wide left shift, reset to 1 when the low nibble becomes zero. */
  function Rotate(v: bv8): (r: bv8)
    ensures r & 0x0F != 0
  {
    var shifted := v << 1;
    if shifted & 0x0F == 0 then 1 else shifted
  }

  /** gLEDs_8_to_11 after `n` reloads. */
  function RotateAfter(v: bv8, n: nat): bv8 {
    if n == 0 then v else Rotate(RotateAfter(v, n - 1))
  }

  /** On a one-hot low nibble the step is a left rotation within the nibble
      (0b1000 wraps to 0b0001). */
  lemma RotateIsNibbleRotation(v: bv8)
    requires v == 1 || v == 2 || v == 4 || v == 8
    ensures Rotate(v) == ((v << 1) | (v >> 3)) & 0x0F
  {
  }

  /** From the power-on value 0, the n-th reload (from 0) leaves
      1 << (n mod 4): the values reached are exactly 1, 2, 4, 8, 1, ... */
  lemma {:induction false} RotationFromPowerOn(n: nat)
    ensures RotateAfter(0, n + 1) == (1 as bv8) << (n % 4)
  {
    if n > 0 {
      RotationFromPowerOn(n - 1);
      var m := (n - 1) % 4;
      if m == 3 {
        assert n % 4 == 0;
      } else {
        assert n % 4 == m + 1;
      }
    }
  }
}

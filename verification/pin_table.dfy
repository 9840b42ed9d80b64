/** The charlieplexing pin table of the tick handler: the `switch` on the
    decremented LED position, the TRISA/PORTA update that applies an arm of
    it, and the read-back of which LED a register configuration lights.

    The four shared pins are RA1, RA2, RA4 and RA5, that is bits 1, 2, 4 and
    5 of TRISA (direction: 1 = input, 0 = output) and PORTA (level). */
module PinTable {

  datatype Option<T> = None | Some(value: T)

  /** Bit numbers of the four shared pins. */
  predicate IsDrivePin(p: nat) {
    p == 1 || p == 2 || p == 4 || p == 5
  }

  /** TRISA/PORTA bits of the four shared pins: (1<<5)|(1<<4)|(1<<2)|(1<<1). */
  const GroupMask: bv8 := 0x36

  /** The register bit of pin `p`, written `(1 << p)` in the handler. */
  function PinBit(p: nat): (b: bv8)
    requires IsDrivePin(p)
    ensures b != 0 && b & GroupMask == b
  {
    if p == 1 then 0x02 else if p == 2 then 0x04 else if p == 4 then 0x10 else 0x20
  }

  /** The table of pin bits agrees with the shift the handler writes. */
  lemma PinBitIsShift(p: nat)
    requires IsDrivePin(p)
    ensures PinBit(p) == (1 as bv8) << p
  {
  }

  /** Which display byte an arm tests: gLEDs_0_to_7 or gLEDs_8_to_11. */
  datatype Group = Lower | Upper

  /** One arm of the switch: the byte and mask it tests, the pin it drives
      high and the pin it drives low. */
  datatype Entry = Entry(group: Group, mask: bv8, high: nat, low: nat)

  /** The switch on the decremented State. Every selector outside 1..11
      (0, and any other byte) falls into the default arm, which is LED0. */
  function Lookup(d: bv8): (e: Entry)
    ensures IsDrivePin(e.high) && IsDrivePin(e.low) && e.high != e.low
  {
    if d == 11 then Entry(Upper, 0x08, 1, 4)       // LED11: DRV1=H DRV4=L
    else if d == 10 then Entry(Upper, 0x04, 4, 1)  // LED10: DRV4=H DRV1=L
    else if d == 9 then Entry(Upper, 0x02, 1, 5)   // LED9:  DRV1=H DRV5=L
    else if d == 8 then Entry(Upper, 0x01, 5, 1)   // LED8:  DRV5=H DRV1=L
    else if d == 7 then Entry(Lower, 0x80, 1, 2)   // LED7:  DRV1=H DRV2=L
    else if d == 6 then Entry(Lower, 0x40, 2, 1)   // LED6:  DRV2=H DRV1=L
    else if d == 5 then Entry(Lower, 0x20, 2, 5)   // LED5:  DRV2=H DRV5=L
    else if d == 4 then Entry(Lower, 0x10, 5, 2)   // LED4:  DRV5=H DRV2=L
    else if d == 3 then Entry(Lower, 0x08, 2, 4)   // LED3:  DRV2=H DRV4=L
    else if d == 2 then Entry(Lower, 0x04, 4, 2)   // LED2:  DRV4=H DRV2=L
    else if d == 1 then Entry(Lower, 0x02, 5, 4)   // LED1:  DRV5=H DRV4=L
    else Entry(Lower, 0x01, 4, 5)                  // LED0:  DRV4=H DRV5=L
  }

  /** The LED number a selector addresses (the default arm is LED0). */
  function Position(d: bv8): (k: nat)
    ensures k < 12
  {
    if 1 <= d <= 11 then d as nat else 0
  }

  /** Reference meaning of the two display bytes: LED k < 8 shows bit k of
      gLEDs_0_to_7 and LED k >= 8 shows bit k - 8 of gLEDs_8_to_11. */
  predicate LedOn(k: nat, lower: bv8, upper: bv8)
    requires k < 12
  {
    if k < 8 then (lower >> k) & 1 == 1 else (upper >> (k - 8)) & 1 == 1
  }

  /** The `if (gLEDs_x & mask)` test of an arm. */
  predicate Tested(e: Entry, lower: bv8, upper: bv8) {
    (if e.group == Lower then lower else upper) & e.mask != 0
  }

  /** Every arm tests exactly the bit that belongs to the LED it drives. */
  lemma TestsOwnBit(d: bv8, lower: bv8, upper: bv8)
    ensures Lookup(d).mask == (1 as bv8) << (Position(d) % 8)
    ensures Lookup(d).group == (if Position(d) < 8 then Lower else Upper)
    ensures Tested(Lookup(d), lower, upper) == LedOn(Position(d), lower, upper)
  {
  }

  /** The inverse of the table: the LED that a (high pin, low pin) pair lights.
      Every one of the 4 * 3 ordered pairs is some LED's pair. */
  function PositionOf(high: nat, low: nat): (k: nat)
    requires IsDrivePin(high) && IsDrivePin(low) && high != low
    ensures k < 12
    ensures Lookup(k as bv8).high == high && Lookup(k as bv8).low == low
  {
    if high == 1 then (if low == 4 then 11 else if low == 5 then 9 else 7)
    else if high == 2 then (if low == 1 then 6 else if low == 5 then 5 else 3)
    else if high == 4 then (if low == 1 then 10 else if low == 2 then 2 else 0)
    else (if low == 1 then 8 else if low == 2 then 4 else 1)
  }

  /** No two LEDs share a pin pair: the table is injective on positions. */
  lemma PositionOfLookup(d: bv8)
    ensures PositionOf(Lookup(d).high, Lookup(d).low) == Position(d)
  {
  }

  /** The TRISA/PORTA pair, as the handler leaves them. */
  datatype Pins = Pins(tris: bv8, port: bv8)

  /** The shared pins configured as outputs (TRISA bit clear). */
  function Outputs(tris: bv8): bv8 {
    !tris & GroupMask
  }

  /** At most two shared pins are outputs: clearing the lowest set bit of
      the output mask twice leaves nothing. */
  predicate AtMostTwoOutputs(tris: bv8) {
    var o := Outputs(tris);
    var rest := o & (o - 1);
    rest & (rest - 1) == 0
  }

  /** Clearing TRISA bits with a mask makes outputs of the pins that were
      outputs and of the pins the mask clears. */
  lemma OutputsOfMasked(tris: bv8, mask: bv8)
    ensures Outputs(tris & mask) == Outputs(tris) | Outputs(mask)
  {
  }

  /** The OutBits and HighBits the switch leaves for the ISR's writes. */
  datatype Masks = Masks(outBits: bv8, highBits: bv8)

  /** The arm of the switch for selector `d`: when the arm's bit is set,
      OutBits clears the pair and HighBits holds the high pin; otherwise
      both are 0. */
  function Arm(d: bv8, lower: bv8, upper: bv8): (m: Masks)
    ensures m.outBits == 0 <==> !Tested(Lookup(d), lower, upper)
    ensures m.outBits != 0 ==> m.outBits | GroupMask == 0xFF && AtMostTwoOutputs(m.outBits)
    ensures m.highBits & !Outputs(m.outBits) == 0 && (m.highBits == 0 <==> m.outBits == 0)
  {
    var e := Lookup(d);
    if Tested(e, lower, upper) then Masks(!(PinBit(e.high) | PinBit(e.low)), PinBit(e.high))
    else Masks(0, 0)
  }

  /** The register writes of a selecting tick: float all four shared pins,
      then, if OutBits is nonzero, clear the pair's PORTA bits, make the pair
      outputs and set HighBits in PORTA. */
  function Apply(tris: bv8, port: bv8, m: Masks): (r: Pins)
    ensures m.outBits != 0 ==> Outputs(r.tris) == Outputs(m.outBits)
    ensures m.outBits == 0 ==> Outputs(r.tris) == 0
  {
    var floated := tris | GroupMask;
    if m.outBits != 0 then Pins(floated & m.outBits, (port & m.outBits) | m.highBits)
    else Pins(floated, port)
  }

  /** The registers after a selecting tick with selector `d`. */
  function Drive(tris: bv8, port: bv8, d: bv8, lower: bv8, upper: bv8): (r: Pins)
    ensures Outputs(r.tris) == 0 <==> !Tested(Lookup(d), lower, upper)
  {
    Apply(tris, port, Arm(d, lower, upper))
  }

  /** A selecting tick leaves TRISA outside the shared pins alone; when the
      tested bit is set exactly the arm's pair are outputs, the high pin at 1
      and the low pin at 0, and every other PORTA bit keeps its value;
      otherwise all four shared pins float and PORTA is untouched. */
  lemma DriveShape(tris: bv8, port: bv8, d: bv8, lower: bv8, upper: bv8)
    ensures Drive(tris, port, d, lower, upper).tris & !GroupMask == tris & !GroupMask
    ensures var r := Drive(tris, port, d, lower, upper);
      var e := Lookup(d); var pair := PinBit(e.high) | PinBit(e.low);
      if Tested(e, lower, upper) then
        Outputs(r.tris) == pair
        && r.port & PinBit(e.high) != 0 && r.port & PinBit(e.low) == 0
        && r.port & !pair == port & !pair
      else
        Outputs(r.tris) == 0 && r.port == port
  {
  }

  /** The shared pin whose register bit is `b`, if `b` is a single pin bit. */
  function PinOf(b: bv8): (r: Option<nat>)
    ensures r.Some? ==> IsDrivePin(r.value) && b == PinBit(r.value)
  {
    if b == 0x02 then Some(1)
    else if b == 0x04 then Some(2)
    else if b == 0x10 then Some(4)
    else if b == 0x20 then Some(5)
    else None
  }

  /** The LED the registers light: exactly one shared pin is an output at
      level 1 and exactly one is an output at level 0. */
  function Lit(p: Pins): (r: Option<nat>)
    ensures r.Some? ==> r.value < 12
  {
    var highs := Outputs(p.tris) & p.port;
    var lows := Outputs(p.tris) & !p.port;
    match (PinOf(highs), PinOf(lows))
    case (Some(h), Some(l)) =>
      assert highs & lows == 0;
      Some(PositionOf(h, l))
    case _ => None
  }

  /** What a selecting tick with selector `d` should show: the addressed LED
      when its bit is set, nothing otherwise. */
  function Shown(d: bv8, lower: bv8, upper: bv8): Option<nat> {
    if Tested(Lookup(d), lower, upper) then Some(Position(d)) else None
  }

  /** Whatever the registers held before, a selecting tick lights the
      addressed LED when its bit is set and no LED otherwise. */
  lemma DriveLights(tris: bv8, port: bv8, d: bv8, lower: bv8, upper: bv8)
    ensures Lit(Drive(tris, port, d, lower, upper)) == Shown(d, lower, upper)
  {
  }
}

/** Choosing the SD clock divisor and writing it into the Clock Control register
    (section 2.2.14 of the SD Host Controller Simplified Specification v3.00). */
module Clock {
  import opened Options

  /** Which divisors the controller offers: the programmable generator, the 10-bit divided clock
      of version 3.00, the 8-bit divided clock of version 2.00. */
  datatype Mode = Programmable | Divided10 | Divided8

  /** `divZeroBroken` is SDHCI_QUIRK2_CLOCK_DIV_ZERO_BROKEN; `clkMul` is 0 without the generator. */
  datatype Clocking = Clocking(version3: bool, maxClk: u32, clkMul: nat, divZeroBroken: bool)

  const U32: nat := 0x1_0000_0000

  type u32 = x: int | 0 <= x < 0x1_0000_0000

  const PROG_CLOCK_MODE: nat := 0x20

  // ---------------------------------------------------------------- divisors and rates

  function PowersOfTwo(): set<nat> {
    {1, 2, 4, 8, 16, 32, 64, 128, 256}
  }

  predicate Legal(mode: Mode, d: nat) {
    match mode
    case Programmable => 1 <= d <= 1024
    case Divided10 => d == 1 || (2 <= d <= 2046 && d % 2 == 0)
    case Divided8 => d in PowersOfTwo()
  }

  function Largest(mode: Mode): nat {
    match mode
    case Programmable => 1024
    case Divided10 => 2046
    case Divided8 => 256
  }

  /** The frequency that is divided, as the 32-bit product the driver computes. */
  function Source(c: Clocking, mode: Mode): nat {
    if mode.Programmable? then (c.maxClk * c.clkMul) % U32 else c.maxClk
  }

  function Rate(c: Clocking, mode: Mode, d: nat): nat
    requires d > 0
  {
    Source(c, mode) / d
  }

  predicate Reaches(c: Clocking, mode: Mode, d: nat, clock: nat) {
    d > 0 && Rate(c, mode, d) <= clock
  }

  /** `d` is the smallest divisor of the mode that does not exceed the request, or the largest
      there is when none does. */
  predicate Best(c: Clocking, mode: Mode, d: nat, clock: nat) {
    && Legal(mode, d)
    && (forall e :: 0 < e < d && Legal(mode, e) ==> !Reaches(c, mode, e, clock))
    && (Reaches(c, mode, d, clock) || d == Largest(mode))
  }

  /** The generator is used when it gets low enough with 1024, and also when only 1025 would do,
      a divisor it does not have. */
  predicate UsesGenerator(c: Clocking, clock: nat) {
    c.version3 && c.clkMul > 0 && Reaches(c, Programmable, 1025, clock)
  }

  predicate OneTooMany(c: Clocking, clock: nat) {
    UsesGenerator(c, clock) && !Reaches(c, Programmable, 1024, clock)
  }

  function ModeFor(c: Clocking, clock: nat): Mode {
    if !c.version3 then Divided8 else if UsesGenerator(c, clock) then Programmable else Divided10
  }

  lemma RateFalls(c: Clocking, mode: Mode, d: nat, e: nat)
    requires 0 < d <= e
    ensures Rate(c, mode, e) <= Rate(c, mode, d)
  {
    DivisionFalls(Source(c, mode), d, e);
  }

  lemma DivisionFalls(s: nat, d: nat, e: nat)
    requires 0 < d <= e
    ensures s / e <= s / d
  {
    var q, p := s / e, s / d;
    MulOrder(q, d, e);
    if q > p {
      MulOrder(d, p + 1, q);
      assert false;
    }
  }

  lemma MulOrder(k: nat, a: nat, b: nat)
    requires a <= b
    ensures k * a <= k * b
  {
  }

  /** The best divisor gives the greatest rate of its mode that does not exceed the request. */
  lemma BestIsFastest(c: Clocking, mode: Mode, d: nat, e: nat, clock: nat)
    requires Best(c, mode, d, clock) && Legal(mode, e) && Reaches(c, mode, e, clock)
    ensures Rate(c, mode, e) <= Rate(c, mode, d) <= clock
  {
    assert e >= d;
    RateFalls(c, mode, d, e);
    assert e <= Largest(mode);
  }

  // ---------------------------------------------------------------- the register

  /** The two masks and shifts that place the divider bits. */
  function Field(n: nat): nat {
    n % 0x100 * 0x100 + n / 0x100 % 4 * 0x40
  }

  /** What the controller makes of bits 15:6 and bit 5. */
  function Divider(clk: nat): nat {
    clk / 0x100 % 0x100 + clk / 0x40 % 4 * 0x100
  }

  function DecodedMode(version3: bool, clk: nat): Mode {
    if !version3 then Divided8 else if clk / 0x20 % 2 == 1 then Programmable else Divided10
  }

  function Decoded(version3: bool, clk: nat): nat {
    var n := Divider(clk);
    match DecodedMode(version3, clk)
    case Programmable => n + 1
    case Divided10 => if n == 0 then 1 else 2 * n
    case Divided8 => if n == 0 then 1 else 2 * n
  }

  /** The register value for divisor `d`. */
  function Encoded(mode: Mode, d: nat): nat
    requires d > 0
  {
    if mode.Programmable? then PROG_CLOCK_MODE + Field(d - 1) else Field(d / 2)
  }

  lemma FieldParts(lo: nat, hi: nat, f: nat, low: nat)
    requires lo < 0x100 && hi < 4 && f < 2 && low < 0x20
    ensures var clk := f * 0x20 + (lo * 0x100 + hi * 0x40) + low;
      && clk / 0x100 == lo && clk / 0x40 % 4 == hi && clk / 0x20 % 2 == f && clk < 0x1_0000
      && clk % 0x20 == low
  {
    var clk := f * 0x20 + (lo * 0x100 + hi * 0x40) + low;
    Quotient(clk, 0x100, lo, hi * 0x40 + f * 0x20 + low);
    Quotient(clk, 0x40, lo * 4 + hi, f * 0x20 + low);
    Quotient(lo * 4 + hi, 4, lo, hi);
    Quotient(clk, 0x20, lo * 8 + hi * 2 + f, low);
    Quotient(lo * 8 + hi * 2 + f, 2, lo * 4 + hi, f);
  }

  /** The enable bits below the divider do not disturb it. */
  lemma FieldAndLow(n: nat, f: nat, low: nat)
    requires n < 0x400 && f < 2 && low < 0x20
    ensures var clk := f * 0x20 + Field(n) + low;
      && Divider(clk) == n && clk / 0x20 % 2 == f && clk < 0x1_0000 && clk % 0x20 == low
  {
    var lo, hi := n % 0x100, n / 0x100;
    Quotient(n, 0x100, hi, lo);
    assert hi < 4 && n == hi * 0x100 + lo;
    FieldParts(lo, hi, f, low);
    Quotient(hi, 4, 0, hi);
    Quotient(lo, 0x100, 0, lo);
  }

  lemma FieldRoundTrip(n: nat, f: nat)
    requires n < 0x400 && f < 2
    ensures Divider(f * 0x20 + Field(n)) == n && (f * 0x20 + Field(n)) / 0x20 % 2 == f
    ensures f * 0x20 + Field(n) < 0x1_0000
  {
    FieldAndLow(n, f, 0);
  }

  lemma Quotient(a: nat, b: nat, q: nat, r: nat)
    requires a == q * b + r && r < b
    ensures a / b == q && a % b == r
  {
    var q', r' := a / b, a % b;
    assert q' * b + r' == q * b + r;
    assert (q' - q) * b == r - r';
    if q' > q { MulOrder(b, 1, q' - q); assert false; }
    if q' < q { MulOrder(b, 1, q - q'); assert false; }
  }

  lemma Halves(mode: Mode, d: nat)
    requires Legal(mode, d)
    ensures mode.Programmable? ==> 1 <= d <= 0x400
    ensures !mode.Programmable? ==> d / 2 < 0x400 && d == if d / 2 == 0 then 1 else 2 * (d / 2)
  {
  }

  /** Decoding what was encoded gives the divisor back. */
  lemma RegisterRoundTrip(version3: bool, mode: Mode, d: nat)
    requires Legal(mode, d) && (version3 <==> !mode.Divided8?)
    ensures DecodedMode(version3, Encoded(mode, d)) == mode && Decoded(version3, Encoded(mode, d)) == d
  {
    Halves(mode, d);
    hide Field, Divider, Legal;
    if mode.Programmable? {
      FieldRoundTrip(d - 1, 1);
      assert Encoded(mode, d) == 1 * 0x20 + Field(d - 1);
    } else {
      FieldRoundTrip(d / 2, 0);
      assert Encoded(mode, d) == 0 * 0x20 + Field(d / 2);
    }
  }

  /** The divisor 1025 reads back as 1. */
  lemma OneTooManyReadsAsOne()
    ensures Encoded(Programmable, 1025) == PROG_CLOCK_MODE && Decoded(true, PROG_CLOCK_MODE) == 1
  {
  }

  // ---------------------------------------------------------------- the search

  method SearchGenerator(c: Clocking, clock: nat) returns (div: nat)
    requires c.clkMul > 0
    ensures 1 <= div <= 1025
    ensures forall e :: 0 < e < div ==> !Reaches(c, Programmable, e, clock)
    ensures div <= 1024 ==> Reaches(c, Programmable, div, clock)
  {
    div := 1;
    while div <= 1024 && (c.maxClk * c.clkMul) % U32 / div > clock
      invariant 1 <= div <= 1025
      invariant forall e :: 0 < e < div ==> !Reaches(c, Programmable, e, clock)
    {
      div := div + 1;
    }
  }

  /** Every legal divisor below `div` is too small. */
  predicate TooSmall(c: Clocking, mode: Mode, div: nat, clock: nat) {
    forall e :: 0 < e < div && Legal(mode, e) ==> !Reaches(c, mode, e, clock)
  }

  lemma StartDivided10(c: Clocking, clock: nat)
    ensures if c.maxClk <= clock then Best(c, Divided10, 1, clock) else TooSmall(c, Divided10, 2, clock)
  {
  }

  lemma NextDivided10(c: Clocking, div: nat, clock: nat)
    requires 2 <= div && div % 2 == 0 && TooSmall(c, Divided10, div, clock) && c.maxClk / div > clock
    ensures TooSmall(c, Divided10, div + 2, clock)
  {
    assert !Reaches(c, Divided10, div, clock);
    hide Reaches;
  }

  lemma EndDivided10(c: Clocking, div: nat, clock: nat)
    requires 2 <= div <= 2046 && div % 2 == 0 && TooSmall(c, Divided10, div, clock)
    requires div == 2046 || c.maxClk / div <= clock
    ensures Best(c, Divided10, div, clock)
  {
    assert c.maxClk / div <= clock ==> Reaches(c, Divided10, div, clock);
    hide Reaches;
  }

  method SearchDivided10(c: Clocking, clock: nat) returns (div: nat)
    ensures Best(c, Divided10, div, clock)
  {
    StartDivided10(c, clock);
    hide Best, TooSmall;
    if c.maxClk <= clock { return 1; }
    div := 2;
    while div < 2046 && c.maxClk / div > clock
      invariant 2 <= div <= 2046 && div % 2 == 0 && TooSmall(c, Divided10, div, clock)
    {
      NextDivided10(c, div, clock);
      div := div + 2;
    }
    EndDivided10(c, div, clock);
  }

  method SearchDivided8(c: Clocking, clock: nat) returns (div: nat)
    ensures Best(c, Divided8, div, clock)
  {
    div := 1;
    while div < 256 && c.maxClk / div > clock
      invariant div in PowersOfTwo()
      invariant forall e :: 0 < e < div && Legal(Divided8, e) ==> !Reaches(c, Divided8, e, clock)
      decreases 256 - div
    {
      div := div * 2;
    }
  }

  /** The clock every branch of sdhci_calc_clk reports. */
  method Report(c: Clocking, mul: nat, ghost mode: Mode, realDiv: nat) returns (actual: nat)
    requires realDiv > 0 && mul == if mode.Programmable? then c.clkMul else 1
    ensures actual == Rate(c, mode, realDiv)
  {
    actual := (c.maxClk * mul) % U32 / realDiv;
  }

  /** The quirk writes 1 where the divided clock needs 0. */
  predicate ZeroAvoided(c: Clocking, clock: nat) {
    c.divZeroBroken && ModeFor(c, clock).Divided10? && c.maxClk <= clock && c.maxClk <= 25000000
  }

  /** sdhci_calc_clk without presets: the register value and the clock it is said to give. */
  method CalcClk(c: Clocking, clock: nat) returns (clk: nat, actual: nat, realDiv: nat)
    ensures realDiv > 0 && actual == Rate(c, ModeFor(c, clock), realDiv)
    ensures if OneTooMany(c, clock) then realDiv == 1025 else Best(c, ModeFor(c, clock), realDiv, clock)
    ensures !ZeroAvoided(c, clock) ==> clk == Encoded(ModeFor(c, clock), realDiv)
    ensures ZeroAvoided(c, clock) ==> realDiv == 1 && clk == Field(1)
  {
    var div, mul := 0, 1;
    clk := 0;
    if c.version3 {
      var switchBase := false;
      if c.clkMul > 0 {
        div := SearchGenerator(c, clock);
        if (c.maxClk * c.clkMul) % U32 / div <= clock {
          if div <= 1024 {
            RateFalls(c, Programmable, div, 1024);
            RateFalls(c, Programmable, div, 1025);
          }
          clk := PROG_CLOCK_MODE;
          realDiv := div;
          mul := c.clkMul;
          div := div - 1;
        } else {
          switchBase := true;
        }
      }
      if c.clkMul == 0 || switchBase {
        div := SearchDivided10(c, clock);
        assert c.maxClk <= clock ==> Reaches(c, Divided10, 1, clock);
        realDiv := div;
        div := div / 2;
        if c.divZeroBroken && div == 0 && c.maxClk <= 25000000 { div := 1; }
      }
    } else {
      div := SearchDivided8(c, clock);
      realDiv := div;
      div := div / 2;
    }
    actual := Report(c, mul, ModeFor(c, clock), realDiv);
    clk := clk + Field(div);
  }

  /** The controller divides by what the driver computed if and only if the driver did not pick
      1025 and the quirk did not step in. */
  lemma ControllerAgrees(c: Clocking, clock: nat, clk: nat, realDiv: nat)
    requires if OneTooMany(c, clock) then realDiv == 1025 else Best(c, ModeFor(c, clock), realDiv, clock)
    requires realDiv > 0
    requires if ZeroAvoided(c, clock) then realDiv == 1 && clk == Field(1)
             else clk == Encoded(ModeFor(c, clock), realDiv)
    ensures DecodedMode(c.version3, clk) == ModeFor(c, clock)
    ensures Decoded(c.version3, clk) == realDiv <==> !OneTooMany(c, clock) && !ZeroAvoided(c, clock)
  {
    OneTooManyReadsAsOne();
    FieldRoundTrip(1, 0);
    assert 0 * 0x20 + Field(1) == Field(1);
    assert DecodedMode(true, PROG_CLOCK_MODE) == Programmable;
    hide Field, Divider, Encoded, Legal, Reaches;
    if !OneTooMany(c, clock) && !ZeroAvoided(c, clock) {
      RegisterRoundTrip(c.version3, ModeFor(c, clock), realDiv);
    }
  }

  /** A 205 MHz base clock doubled by the generator, asked for the 400 kHz of card identification:
      the search ends at 1025, the driver reports 400 kHz, and the card gets the 410 MHz undivided. */
  method UndividedClock() returns (clk: nat, actual: nat, realDiv: nat)
    ensures realDiv == 1025 && actual == 400000
    ensures DecodedMode(true, clk) == Programmable && Decoded(true, clk) == 1
  {
    var c := Clocking(true, 205000000, 2, false);
    assert Source(c, Programmable) == 410000000;
    assert OneTooMany(c, 400000);
    clk, actual, realDiv := CalcClk(c, 400000);
    OneTooManyReadsAsOne();
  }

  /** A controller with the quirk, asked for its own 25 MHz: the card gets half of it. */
  method HalvedClock() returns (clk: nat, actual: nat, realDiv: nat)
    ensures realDiv == 1 && actual == 25000000
    ensures DecodedMode(true, clk) == Divided10 && Decoded(true, clk) == 2
  {
    var c := Clocking(true, 25000000, 0, true);
    assert ZeroAvoided(c, 25000000);
    clk, actual, realDiv := CalcClk(c, 25000000);
    FieldRoundTrip(1, 0);
  }

  // ---------------------------------------------------------------- setting the clock

  type u10 = x: int | 0 <= x < 0x400

  /** A Preset Value register: the 10-bit frequency select and the generator select. */
  datatype Preset = Preset(select: u10, generator: bool)

  /** The clock the controller makes of its register. */
  function Output(c: Clocking, register: nat): nat {
    DecodedPositive(c.version3, register);
    Rate(c, DecodedMode(c.version3, register), Decoded(c.version3, register))
  }

  lemma DecodedPositive(version3: bool, clk: nat)
    ensures Decoded(version3, clk) > 0
  {
    hide Divider;
  }

  lemma LowBits(version3: bool, f: nat, n: nat, low: nat)
    requires f < 2 && n < 0x400 && low < 0x20
    ensures var clk := f * 0x20 + Field(n);
      && Divider(clk + low) == Divider(clk) == n
      && DecodedMode(version3, clk + low) == DecodedMode(version3, clk)
      && Decoded(version3, clk + low) == Decoded(version3, clk)
      && DecodedMode(true, clk) == (if f == 1 then Programmable else Divided10)
      && (clk + low) % 0x20 == low
  {
    FieldRoundTrip(n, f);
    FieldAndLow(n, f, low);
    hide Field, Divider;
  }

  /** What the controller decodes from the divider bits of a preset value. */
  lemma PresetDecodes(f: nat, select: nat)
    requires f < 2 && select < 0x400
    ensures Decoded(true, f * 0x20 + Field(select)) ==
            if f == 1 then select + 1 else if select == 0 then 1 else 2 * select
    ensures DecodedMode(true, f * 0x20 + Field(select)) == if f == 1 then Programmable else Divided10
  {
    FieldRoundTrip(select, f);
    hide Divider, Field;
  }

  /** A register value of the driver, as the parts it puts together. */
  lemma EncodedParts(mode: Mode, d: nat) returns (f: nat, n: nat)
    requires Legal(mode, d) || (mode.Programmable? && d == 1025)
    ensures f < 2 && n < 0x400 && Encoded(mode, d) == f * 0x20 + Field(n)
  {
    if d == 1025 && mode.Programmable? {
      OneTooManyReadsAsOne();
      assert Field(0) == 0;
      return 1, 0;
    }
    Halves(mode, d);
    hide Field, Legal;
    if mode.Programmable? { f, n := 1, d - 1; } else { f, n := 0, d / 2; }
  }

  lemma Shrinks(s: nat, d: nat)
    requires d > 1
    ensures s / d == s <==> s == 0
  {
    MulOrder(s, 2, d);
    Recomposed(s, d);
  }

  lemma Recomposed(s: nat, d: nat)
    requires d > 0
    ensures s / d * d <= s && (s / d == 0 || s / d * d >= d)
  {
    var q := s / d;
    assert s == q * d + s % d;
    if q > 0 { MulOrder(d, 1, q); }
  }

  lemma OutputIs(c: Clocking, clk: nat, mode: Mode, d: nat)
    requires d > 0
    requires DecodedMode(c.version3, clk) == mode && Decoded(c.version3, clk) == d
    ensures Output(c, clk) == Rate(c, mode, d)
  {
  }

  lemma OutputIsOf(c: Clocking, a: nat, b: nat)
    requires DecodedMode(c.version3, a) == DecodedMode(c.version3, b)
    requires Decoded(c.version3, a) == Decoded(c.version3, b)
    ensures Output(c, a) == Output(c, b)
  {
  }

  /** The clock that is reported is the one the controller makes if and only if the driver did not
      pick 1025 and the quirk did not halve it. */
  lemma ReportAgrees(c: Clocking, clock: nat, clk: nat, realDiv: nat)
    requires if OneTooMany(c, clock) then realDiv == 1025 else Best(c, ModeFor(c, clock), realDiv, clock)
    requires realDiv > 0
    requires if ZeroAvoided(c, clock) then realDiv == 1 && clk == Field(1)
             else clk == Encoded(ModeFor(c, clock), realDiv)
    ensures Rate(c, ModeFor(c, clock), realDiv) == Output(c, clk) <==> !Misreported(c, clock)
  {
    var mode := ModeFor(c, clock);
    ControllerAgrees(c, clock, clk, realDiv);
    if OneTooMany(c, clock) {
      OneTooManyReadsAsOne();
      assert Source(c, Programmable) / 1024 > 0;
      hide Source, Best;
      Shrinks(Source(c, Programmable), 1025);
      OutputIs(c, clk, mode, 1);
    } else if ZeroAvoided(c, clock) {
      FieldRoundTrip(1, 0);
      Shrinks(c.maxClk, 2);
      OutputIs(c, clk, mode, 2);
    } else {
      OutputIs(c, clk, mode, realDiv);
    }
  }

  /** The controller divides by the best divisor if and only if neither happened. */
  lemma BestIsDecoded(c: Clocking, clock: nat, clk: nat, realDiv: nat)
    requires if OneTooMany(c, clock) then realDiv == 1025 else Best(c, ModeFor(c, clock), realDiv, clock)
    requires realDiv > 0
    requires if ZeroAvoided(c, clock) then realDiv == 1 && clk == Field(1)
             else clk == Encoded(ModeFor(c, clock), realDiv)
    ensures DecodedMode(c.version3, clk) == ModeFor(c, clock)
    ensures Best(c, ModeFor(c, clock), Decoded(c.version3, clk), clock) <==>
            !OneTooMany(c, clock) && !ZeroAvoided(c, clock)
  {
    ControllerAgrees(c, clock, clk, realDiv);
    if OneTooMany(c, clock) {
      OneTooManyReadsAsOne();
      assert !Reaches(c, Programmable, 1024, clock);
      RateFalls(c, Programmable, 1, 1024);
      hide Rate;
    } else if ZeroAvoided(c, clock) {
      FieldRoundTrip(1, 0);
      assert Legal(Divided10, 1) && Reaches(c, Divided10, 1, clock);
      hide Reaches;
    }
  }

  /** The reported clock is not the one the controller makes. */
  predicate Misreported(c: Clocking, clock: nat) {
    OneTooMany(c, clock) || (ZeroAvoided(c, clock) && c.maxClk > 0)
  }

  /** What the search leaves to be written, as parts. */
  lemma Calculated(c: Clocking, clock: nat, clk: nat, realDiv: nat) returns (f: nat, n: nat)
    requires if OneTooMany(c, clock) then realDiv == 1025 else Best(c, ModeFor(c, clock), realDiv, clock)
    requires if ZeroAvoided(c, clock) then realDiv == 1 && clk == Field(1)
             else realDiv > 0 && clk == Encoded(ModeFor(c, clock), realDiv)
    ensures f < 2 && n < 0x400 && clk == f * 0x20 + Field(n)
  {
    if ZeroAvoided(c, clock) { return 0, 1; }
    assert OneTooMany(c, clock) ==> ModeFor(c, clock).Programmable?;
    assert OneTooMany(c, clock) || Legal(ModeFor(c, clock), realDiv);
    hide Field, Encoded, Legal, Best, OneTooMany, ZeroAvoided;
    f, n := EncodedParts(ModeFor(c, clock), realDiv);
  }

  const CLOCK_INT_EN: nat := 1
  const CLOCK_CARD_EN: nat := 4
  const CLOCK_PLL_EN: nat := 8

  class ClockControl {
    const clocking: Clocking
    /** The controller is of version 4.10 or later and in version 4 mode. */
    const v4Mode: bool
    /** None unless preset values are enabled. */
    const preset: Option<Preset>
    var register: nat
    var actualClock: nat

    constructor (clocking: Clocking, v4Mode: bool, preset: Option<Preset>)
      ensures this.clocking == clocking && this.v4Mode == v4Mode && this.preset == preset
    {
      this.clocking, this.v4Mode, this.preset, register, actualClock := clocking, v4Mode, preset, 0, 0;
    }

    /** The preset branch of sdhci_calc_clk; sdhci_set_clock has just cleared the register. */
    method CalcPreset(p: Preset) returns (clk: nat, actual: nat, ghost f: nat)
      requires clocking.version3 && register == 0
      ensures f < 2 && clk == f * 0x20 + Field(p.select) && (f == 1 <==> clocking.clkMul > 0 && p.generator)
      ensures actual == Output(clocking, clk)
    {
      clk, f := register, 0;
      var realDiv, mul := 0, 1;
      if clocking.clkMul > 0 && p.generator {
        clk, f := PROG_CLOCK_MODE, 1;
        realDiv := p.select + 1;
        mul := clocking.clkMul;
      } else {
        realDiv := p.select * 2;
        if realDiv < 1 { realDiv := 1; }
      }
      PresetDecodes(f, p.select);
      hide Field, Divider, DecodedMode, Decoded;
      ghost var mode := if f == 1 then Programmable else Divided10;
      actual := Report(clocking, mul, mode, realDiv);
      hide *;
      clk := clk + Field(p.select);
      OutputIs(clocking, clk, mode, realDiv);
    }

    /** sdhci_enable_clk, which gives up when the clock or the PLL never stabilises. */
    method EnableClk(clk: nat, stable: bool, pllStable: bool) returns (ghost low: nat)
      modifies this`register
      ensures low < 0x20 && register == clk + low
      ensures low == 1 + (if stable && v4Mode then 8 else 0) + (if stable && (v4Mode ==> pllStable) then 4 else 0)
    {
      register, low := clk + CLOCK_INT_EN, CLOCK_INT_EN;
      if !stable { return; }
      if v4Mode {
        register, low := register + CLOCK_PLL_EN, low + CLOCK_PLL_EN;
        if !pllStable { return; }
      }
      register, low := register + CLOCK_CARD_EN, low + CLOCK_CARD_EN;
    }

    predicate UsesPreset() {
      clocking.version3 && preset.Some?
    }

    /** What a register value and a reported clock have to say for a requested clock. */
    predicate Told(clock: nat, clk: nat, actual: nat) {
      if UsesPreset() then
        && actual == Output(clocking, clk) && Divider(clk) == preset.value.select
        && (DecodedMode(true, clk).Programmable? <==> clocking.clkMul > 0 && preset.value.generator)
      else
        && DecodedMode(clocking.version3, clk) == ModeFor(clocking, clock)
        && (actual == Output(clocking, clk) <==> !Misreported(clocking, clock))
        && (Best(clocking, ModeFor(clocking, clock), Decoded(clocking.version3, clk), clock) <==>
              !OneTooMany(clocking, clock) && !ZeroAvoided(clocking, clock))
    }

    /** sdhci_calc_clk as sdhci_set_clock calls it. */
    method Calc(clock: nat) returns (clk: nat, actual: nat, ghost f: nat, ghost n: nat)
      requires register == 0
      ensures f < 2 && n < 0x400 && clk == f * 0x20 + Field(n)
      ensures Told(clock, clk, actual)
    {
      if UsesPreset() {
        n := preset.value.select;
        clk, actual, f := CalcPreset(preset.value);
        LowBits(true, f, n, 0);
        hide Field, Divider, DecodedMode, Output;
      } else {
        var realDiv;
        clk, actual, realDiv := CalcClk(clocking, clock);
        f, n := Calculated(clocking, clock, clk, realDiv);
        ToldByReport(clock, clk, realDiv);
        hide *;
      }
    }

    lemma ToldByReport(clock: nat, clk: nat, realDiv: nat)
      requires !UsesPreset()
      requires if OneTooMany(clocking, clock) then realDiv == 1025
               else Best(clocking, ModeFor(clocking, clock), realDiv, clock)
      requires realDiv > 0
      requires if ZeroAvoided(clocking, clock) then realDiv == 1 && clk == Field(1)
               else clk == Encoded(ModeFor(clocking, clock), realDiv)
      ensures Told(clock, clk, Rate(clocking, ModeFor(clocking, clock), realDiv))
    {
      ReportAgrees(clocking, clock, clk, realDiv);
      BestIsDecoded(clocking, clock, clk, realDiv);
      hide Output, DecodedMode, Decoded, ModeFor, Best, Encoded, Rate, Misreported, OneTooMany, ZeroAvoided;
    }

    lemma StillTold(clock: nat, clk: nat, actual: nat, f: nat, n: nat, low: nat)
      requires low < 0x20 && f < 2 && n < 0x400 && clk == f * 0x20 + Field(n)
      requires Told(clock, clk, actual)
      ensures Told(clock, clk + low, actual) && (clk + low) % 0x20 == low
    {
      hide Output, DecodedMode, Decoded, Divider, Field, ModeFor, Best, Misreported, OneTooMany, ZeroAvoided;
      LowBits(clocking.version3, f, n, low);
      OutputIsOf(clocking, clk, clk + low);
    }

    /** sdhci_set_clock: with presets the reported clock is always the one the controller makes of
        its register, without them if and only if it is not misreported.  Bit 0 starts the internal
        clock, bit 3 the PLL of version 4 mode, bit 2 the clock of the card. */
    method SetClock(clock: nat, stable: bool, pllStable: bool)
      modifies this
      ensures if clock == 0 then register == 0 && actualClock == 0 else Told(clock, register, actualClock)
      ensures register % 0x20 == if clock == 0 then 0
        else 1 + (if stable && v4Mode then 8 else 0) + (if stable && (v4Mode ==> pllStable) then 4 else 0)
    {
      actualClock, register := 0, 0;
      if clock == 0 { return; }
      var clk, actual;
      ghost var f, n;
      clk, actual, f, n := Calc(clock);
      hide *;
      actualClock := actual;
      ghost var low := EnableClk(clk, stable, pllStable);
      StillTold(clock, clk, actual, f, n, low);
    }
  }
}

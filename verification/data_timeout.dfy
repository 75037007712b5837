/** The data timeout counter (section 2.2.15 of the SD Host Controller Simplified
    Specification v3.00), in the 32-bit arithmetic of the driver. */
module DataTimeout {
  import opened Options

  const U32: nat := 0x1_0000_0000

  /** What sdhci_calc_timeout looks at in a command: its own busy timeout in milliseconds, or
      the timeout of its data in nanoseconds plus clock cycles. */
  datatype Timed = Command(busyTimeout: u32) | Data(timeoutNs: u32, timeoutClks: u32)

  type u32 = x: int | 0 <= x < 0x1_0000_0000

  // ---------------------------------------------------------------- the target

  /** `n` is the least number of steps of `step` that covers `amount`. */
  predicate RoundedUp(amount: nat, step: nat, n: nat) {
    n * step >= amount && (n > 0 ==> (n - 1) * step < amount)
  }

  lemma RoundedUpIsOne(amount: nat, step: nat, n: nat, k: nat)
    requires step > 0 && RoundedUp(amount, step, n) && k * step >= amount
    ensures n <= k
  {
    if k < n { Order(k, n - 1, step); }
  }

  lemma Order(a: nat, b: nat, k: nat)
    requires a <= b
    ensures a * k <= b * k
  {
  }

  function CeilDiv(a: nat, b: nat): (n: nat)
    requires b > 0
    ensures RoundedUp(a, b, n)
  {
    assert a == (a / b) * b + a % b;
    assert (a / b + 1) * b == (a / b) * b + b;
    a / b + (if a % b == 0 then 0 else 1)
  }

  function Cycles(clks: nat, clock: nat): nat {
    if clock > 0 then CeilDiv(1000000 * clks, clock) else 0
  }

  /** The two parts of the target, in microseconds, each rounded up. */
  function Target(t: Timed, clock: nat): nat {
    match t
    case Command(busy) => busy * 1000
    case Data(ns, clks) => CeilDiv(ns, 1000) + Cycles(clks, clock)
  }

  /** The target of a data command, in microseconds: the least that covers its nanoseconds, and the
      least in which a clock of `clock` Hz makes its cycles. */
  lemma TargetMeans(ns: u32, clks: u32, clock: nat) returns (a: nat, b: nat)
    requires clock > 0
    ensures Target(Data(ns, clks), clock) == a + b
    ensures a * 1000 >= ns && forall k: nat :: k * 1000 >= ns ==> a <= k
    ensures b * clock >= clks * 1000000 && forall k: nat :: k * clock >= clks * 1000000 ==> b <= k
  {
    a, b := CeilDiv(ns, 1000), CeilDiv(1000000 * clks, clock);
    forall k: nat ensures (k * 1000 >= ns ==> a <= k) && (k * clock >= clks * 1000000 ==> b <= k) {
      if k * 1000 >= ns { RoundedUpIsOne(ns, 1000, a, k); }
      if k * clock >= clks * 1000000 { RoundedUpIsOne(1000000 * clks, clock, b, k); }
    }
  }

  lemma RoundUpTrick(n: nat)
    ensures (n + 999) / 1000 == CeilDiv(n, 1000)
  {
  }

  lemma NoCycles(clock: nat)
    requires clock > 0
    ensures CeilDiv(0, clock) == 0
  {
  }

  /** DIV_ROUND_UP adds 999 before it divides. */
  predicate RoundingWraps(t: Timed) {
    t.Data? && t.timeoutNs + 999 >= U32
  }

  /** The target as the driver's 32 bits show it. */
  function Computed(t: Timed, clock: nat): nat {
    match t
    case Command(busy) => busy * 1000 % U32
    case Data(ns, clks) => ((if RoundingWraps(t) then 0 else CeilDiv(ns, 1000)) + Cycles(clks, clock)) % U32
  }

  lemma RoundInU32(ns: u32)
    ensures (ns + 999) % U32 / 1000 == if ns + 999 >= U32 then 0 else CeilDiv(ns, 1000)
  {
    if ns + 999 < U32 { RoundUpTrick(ns); }
  }

  method CyclePart(clks: nat, clock: nat) returns (cycles: nat)
    ensures cycles == Cycles(clks, clock)
  {
    cycles := 0;
    if clock > 0 && clks > 0 {
      var val := 1000000 * clks;
      cycles := val / clock;
      if val % clock != 0 { cycles := cycles + 1; }
    } else if clock > 0 {
      NoCycles(clock);
    }
  }

  /** sdhci_target_timeout */
  method TargetTimeout(t: Timed, clock: nat) returns (us: nat)
    ensures us == Computed(t, clock)
  {
    match t
    case Command(busy) =>
      us := busy * 1000 % U32;
    case Data(timeoutNs, timeoutClks) =>
      RoundInU32(timeoutNs);
      hide CeilDiv, Cycles;
      us := (timeoutNs + 999) % U32 / 1000;
      var cycles := CyclePart(timeoutClks, clock);
      us := (us + cycles) % U32;
  }

  lemma RoundingLoses(ns: u32)
    requires ns + 999 >= U32
    ensures 0 < CeilDiv(ns, 1000) < U32
  {
    RoundUpTrick(ns);
  }

  lemma Shifted(a: nat, b: nat)
    requires 0 < a < U32
    ensures b % U32 != (a + b) % U32
  {
  }

  /** The driver computes the sum of the rounded-up parts modulo 2^32 if and only if the rounding
      does not wrap, and that sum itself if and only if it fits as well. */
  lemma ComputedIsTarget(t: Timed, clock: nat)
    ensures Computed(t, clock) == Target(t, clock) % U32 <==> !RoundingWraps(t)
    ensures Computed(t, clock) == Target(t, clock) <==> !RoundingWraps(t) && Target(t, clock) < U32
  {
    hide CeilDiv, Cycles, RoundedUp;
    if RoundingWraps(t) {
      RoundingLoses(t.timeoutNs);
      Shifted(CeilDiv(t.timeoutNs, 1000), Cycles(t.timeoutClks, clock));
    }
    Remainder(Target(t, clock));
  }

  lemma Remainder(a: nat)
    ensures a % U32 == a <==> a < U32
    ensures a % U32 < U32
  {
  }

  // ---------------------------------------------------------------- the counter

  function Pow2(n: nat): nat {
    if n == 0 then 1 else 2 * Pow2(n - 1)
  }

  /** The timeout of count 0. */
  function Base(timeoutClk: nat): (base: nat)
    requires timeoutClk > 0
    ensures base < U32
  {
    0x2000 * 1000 / timeoutClk
  }

  /** Count 0 waits for the 2^13 cycles of a timeout clock of `timeoutClk` kHz, in microseconds
      rounded down. */
  lemma BaseMeans(timeoutClk: nat)
    requires timeoutClk > 0
    ensures Base(timeoutClk) * timeoutClk <= 8192 * 1000 < (Base(timeoutClk) + 1) * timeoutClk
  {
    var q := 8192000 / timeoutClk;
    assert 8192000 == q * timeoutClk + 8192000 % timeoutClk;
  }

  predicate Covers(base: nat, count: nat, target: nat) {
    base * Pow2(count) >= target
  }

  predicate LeastCover(base: nat, count: nat, target: nat) {
    Covers(base, count, target) && forall c :: 0 <= c < count ==> !Covers(base, c, target)
  }

  /** The least count that covers the target, 15 when none of 0..14 does. */
  function Needed(base: nat, target: nat): (n: nat)
    ensures n <= 15 && (n <= 14 ==> Covers(base, n, target))
    ensures forall c :: 0 <= c < n ==> !Covers(base, c, target)
  {
    NeededFrom(base, target, 0)
  }

  function NeededFrom(base: nat, target: nat, c: nat): (n: nat)
    requires c <= 15
    ensures c <= n <= 15 && (n <= 14 ==> Covers(base, n, target))
    ensures forall k :: c <= k < n ==> !Covers(base, k, target)
    decreases 15 - c
  {
    if c == 15 || Covers(base, c, target) then c else NeededFrom(base, target, c + 1)
  }

  /** The 32 bits of a doubled timeout cover the target. */
  predicate WrapCovers(base: nat, count: nat, target: nat) {
    base * Pow2(count) % U32 >= target
  }

  /** The least count whose 32 bits cover the target, 15 when none of 0..14 does. */
  function Found(base: nat, target: nat): (n: nat)
    ensures n <= 15 && (n <= 14 ==> WrapCovers(base, n, target))
    ensures forall c :: 0 <= c < n ==> !WrapCovers(base, c, target)
  {
    FoundFrom(base, target, 0)
  }

  function FoundFrom(base: nat, target: nat, c: nat): (n: nat)
    requires c <= 15
    ensures c <= n <= 15 && (n <= 14 ==> WrapCovers(base, n, target))
    ensures forall k :: c <= k < n ==> !WrapCovers(base, k, target)
    decreases 15 - c
  {
    if c == 15 || WrapCovers(base, c, target) then c else FoundFrom(base, target, c + 1)
  }

  lemma {:induction false} CoversGrows(base: nat, c: nat, d: nat, target: nat)
    requires c <= d && Covers(base, c, target)
    ensures Covers(base, d, target)
  {
    if c < d { CoversGrows(base, c, d - 1, target); }
  }

  lemma NextDouble(base: nat, count: nat)
    ensures base * Pow2(count + 1) == 2 * (base * Pow2(count))
  {
  }

  /** The right answer: the least count that covers the target, or 14 and `tooBig` when none of
      0..14 does. */
  predicate Right(base: nat, target: nat, count: nat, tooBig: bool) {
    && (tooBig <==> !Covers(base, 14, target))
    && (if tooBig then count == 14 else count <= 14 && LeastCover(base, count, target))
  }

  /** What sdhci_calc_timeout makes of a count. */
  function Answer(n: nat): (nat, bool) {
    if n > 14 then (14, true) else (n, false)
  }

  lemma RightIsNeeded(base: nat, target: nat, count: nat, tooBig: bool)
    ensures Right(base, target, count, tooBig) <==> (count, tooBig) == Answer(Needed(base, target))
  {
    var n := Needed(base, target);
    if n <= 14 { CoversGrows(base, n, 14, target); }
  }

  /** The count that would do needs a timeout of more than 32 bits. */
  predicate Overflows(base: nat, target: nat) {
    var n := Needed(base, target);
    n <= 14 && base * Pow2(n) >= U32
  }

  /** With a target of 32 bits the doubling finds the count that is needed if and only if that one
      does not overflow. */
  lemma FoundIsNeeded(base: nat, target: nat)
    requires base < U32 && target < U32
    ensures Found(base, target) == Needed(base, target) <==> !Overflows(base, target)
  {
    var n := Needed(base, target);
    forall c | 0 <= c < n ensures !WrapCovers(base, c, target) { TooLittle(base, c, target); }
    if n <= 14 {
      AtLeast(base, n, target);
      hide Covers, WrapCovers, Pow2;
    }
  }

  lemma TooLittle(base: nat, c: nat, target: nat)
    requires target < U32 && !Covers(base, c, target)
    ensures !WrapCovers(base, c, target)
  {
    hide Pow2;
    Wraps(base * Pow2(c), 0, base * Pow2(c));
  }

  /** The 32 bits of the least count that covers do so too unless it overflows. */
  lemma AtLeast(base: nat, n: nat, target: nat)
    requires base < U32 && target < U32 && LeastCover(base, n, target)
    ensures WrapCovers(base, n, target) <==> base * Pow2(n) < U32
  {
    var t := base * Pow2(n);
    if n == 0 { assert t == base; } else { NextDouble(base, n - 1); assert !Covers(base, n - 1, target); }
    assert target <= t < target + U32;
    hide Pow2;
    if t < U32 { Wraps(t, 0, t); } else { Wraps(t, 1, t - U32); }
  }

  lemma Wraps(a: nat, q: nat, r: nat)
    requires a == q * U32 + r && r < U32
    ensures a % U32 == r
  {
  }

  lemma DoubledOnce(base: nat, count: nat)
    ensures 2 * (base * Pow2(count) % U32) % U32 == base * Pow2(count + 1) % U32
  {
    NextDouble(base, count);
    DoubleWraps(base * Pow2(count));
  }

  lemma DoubleWraps(a: nat)
    ensures 2 * (a % U32) % U32 == 2 * a % U32
  {
    var q, r := a / U32, a % U32;
    assert a == q * U32 + r;
    var k, s := if 2 * r < U32 then 0 else 1, if 2 * r < U32 then 2 * r else 2 * r - U32;
    Wraps(2 * r, k, s);
    Wraps(2 * a, 2 * q + k, s);
  }

  /** The doubling loop. */
  method DoubleUp(base: nat, target: nat) returns (count: nat)
    requires base < U32
    ensures count == Found(base, target)
  {
    count := 0;
    var current := base;
    assert base * Pow2(0) == base;
    while current < target && count < 0xF
      invariant count <= 15 && current == base * Pow2(count) % U32
      invariant Found(base, target) == FoundFrom(base, target, count)
      decreases 0xF - count
    {
      DoubledOnce(base, count);
      count := count + 1;
      current := 2 * current % U32;
    }
  }

  /** The search of sdhci_calc_timeout is right if and only if the doubling that reaches the
      target does not overflow. */
  method Search(timeoutClk: nat, target: nat) returns (count: nat, tooBig: bool)
    requires timeoutClk > 0
    ensures (count, tooBig) == Answer(Found(Base(timeoutClk), target))
    ensures target < U32 ==>
      (Right(Base(timeoutClk), target, count, tooBig) <==> !Overflows(Base(timeoutClk), target))
  {
    var base := Base(timeoutClk);
    hide Base, Right, Overflows, Found, Needed;
    count := DoubleUp(base, target);
    ghost var found := count;
    tooBig := count >= 0xF;
    if tooBig { count := 0xE; }
    RightIsNeeded(base, target, count, tooBig);
    if target < U32 { FoundIsNeeded(base, target); }
  }

  /** Targets of at most 2^31 microseconds never overflow. */
  lemma SafeTargets(base: nat, target: nat)
    requires base < U32 && target <= 0x8000_0000
    ensures !Overflows(base, target)
  {
    var n := Needed(base, target);
    if n > 0 { NextDouble(base, n - 1); assert !Covers(base, n - 1, target); }
  }

  /** Nor does any target of a controller whose timeout clock is at least 32 kHz. */
  lemma SafeClocks(timeoutClk: nat, target: nat)
    requires timeoutClk >= 32
    ensures !Overflows(Base(timeoutClk), target)
  {
    SmallBase(timeoutClk);
    var base, n := Base(timeoutClk), Needed(Base(timeoutClk), target);
    hide Base, Needed;
    if n <= 14 {
      PowerGrows(n, 14);
      Powers();
      Products(base, 256000, Pow2(n), 0x4000);
    }
  }

  lemma SmallBase(timeoutClk: nat)
    requires timeoutClk >= 32
    ensures Base(timeoutClk) <= 256000
  {
  }

  lemma {:induction false} PowerGrows(n: nat, m: nat)
    requires n <= m
    ensures Pow2(n) <= Pow2(m)
  {
    if n < m { PowerGrows(n, m - 1); }
  }

  lemma Products(a: nat, b: nat, c: nat, d: nat)
    requires a <= b && c <= d
    ensures a * c <= b * d
  {
    Order(a, b, c);
    Order(c, d, b);
  }

  /** sdhci_calc_timeout gets as far as its search; `cmd` is None for an unspecified command, and
      `broken` is SDHCI_QUIRK_BROKEN_TIMEOUT_VAL. */
  predicate Searches(broken: bool, cmd: Option<Timed>) {
    !broken && cmd.Some? && (cmd.value.Command? ==> cmd.value.busyTimeout > 0)
  }

  /** The answer is right for the true target if and only if the count the doubling finds for the
      computed one is the count the true one needs. Where the true target fits into 32 bits and its
      rounding does not wrap that says that the doubling does not overflow; where the doubling does
      not overflow it says that the computed target needs the same count as the true one. */
  method CalcTimeout(broken: bool, cmd: Option<Timed>, clock: nat, timeoutClk: nat) returns (count: nat, tooBig: bool)
    requires timeoutClk > 0
    ensures !Searches(broken, cmd) ==> count == 0xE && tooBig
    ensures Searches(broken, cmd) ==>
      var base, target, computed := Base(timeoutClk), Target(cmd.value, clock), Computed(cmd.value, clock);
      && (count, tooBig) == Answer(Found(base, computed))
      && (Right(base, target, count, tooBig) <==> Found(base, computed) == Needed(base, target))
      && (Right(base, computed, count, tooBig) <==> !Overflows(base, computed))
      && (target < U32 && !RoundingWraps(cmd.value) ==>
            (Right(base, target, count, tooBig) <==> !Overflows(base, target)))
      && (timeoutClk >= 32 || !Overflows(base, computed) ==>
            (Right(base, target, count, tooBig) <==> Needed(base, computed) == Needed(base, target)))
  {
    if !Searches(broken, cmd) { return 0xE, true; }
    ghost var target := Target(cmd.value, clock);
    ComputedIsTarget(cmd.value, clock);
    ComputedFits(cmd.value, clock);
    hide Base, Right, Overflows, Target, Computed, RoundingWraps, Found, Needed;
    var computed := TargetTimeout(cmd.value, clock);
    count, tooBig := Search(timeoutClk, computed);
    RightIsNeeded(Base(timeoutClk), target, count, tooBig);
    FoundIsNeeded(Base(timeoutClk), computed);
    if timeoutClk >= 32 { SafeClocks(timeoutClk, computed); }
  }

  lemma ComputedFits(t: Timed, clock: nat)
    ensures Computed(t, clock) < U32
  {
    hide CeilDiv, Cycles;
  }

  // ---------------------------------------------------------------- wrong answers, and a lucky one

  /** With a 1 kHz timeout clock every 32-bit target above 4194304000 us needs the count 10, and the
      doubling never finds it. */
  lemma LostTarget(target: nat)
    requires 4194304000 < target < U32
    ensures Overflows(Base(1), target) && Needed(Base(1), target) == 10 && Found(Base(1), target) == 15
  {
    var base := 0x2000 * 1000;
    Powers();
    assert Base(1) == base && Covers(base, 10, target);
    if Covers(base, Needed(base, target), target) && Needed(base, target) < 10 {
      CoversGrows(base, Needed(base, target), 9, target);
    }
    NoneFound(target);
  }

  lemma NoneFound(target: nat)
    requires 4194304000 < target < U32
    ensures Found(0x2000 * 1000, target) == 15
  {
    var n := Found(0x2000 * 1000, target);
    Powers();
    Doubled(n);
    hide *;
  }

  /** A busy timeout of 4294967 ms on such a controller: the count 10 would do, the driver says
      that none does. */
  method LostCommand(clock: nat) returns (count: nat, tooBig: bool)
    ensures count == 14 && tooBig
    ensures Target(Command(4294967), clock) == 4294967000 && LeastCover(Base(1), 10, 4294967000)
  {
    var t := Command(4294967);
    assert Searches(false, Some(t)) && Computed(t, clock) == Target(t, clock) == 4294967000;
    LostTarget(4294967000);
    hide Overflows, Right, Target, Computed, Base, Searches, Found, Covers;
    count, tooBig := CalcTimeout(false, Some(t), clock, 1);
  }

  /** A busy timeout of 137338291 ms there: no count does, and the driver says so only because the
      doubling loses the count 10 that the wrapped target needs. */
  method LuckyCommand(clock: nat) returns (count: nat, tooBig: bool)
    ensures count == 14 && tooBig && Right(Base(1), Target(Command(137338291), clock), count, tooBig)
    ensures Needed(Base(1), Computed(Command(137338291), clock)) == 10
  {
    var t := Command(137338291);
    assert Searches(false, Some(t)) && Computed(t, clock) == 4194304824 && Target(t, clock) == 137338291000;
    LostTarget(4194304824);
    NoneNeeded();
    hide Overflows, Right, Target, Computed, Base, Searches, Found, Needed, Covers;
    count, tooBig := CalcTimeout(false, Some(t), clock, 1);
  }

  lemma NoneNeeded()
    ensures Needed(Base(1), 137338291000) == 15
  {
    var n := Needed(Base(1), 137338291000);
    Powers();
    if n <= 14 {
      CoversGrows(Base(1), n, 14, 137338291000);
      assert false;
    }
  }

  /** A busy timeout of 4294968 ms wraps to 704 us, so with a 1 MHz timeout clock the driver settles
      for count 0 although no count covers the target. */
  method WrappedCommand(clock: nat) returns (count: nat, tooBig: bool)
    ensures count == 0 && !tooBig
    ensures Target(Command(4294968), clock) == 4294968000 && !Covers(Base(1000), 14, 4294968000)
  {
    var t := Command(4294968);
    assert Searches(false, Some(t)) && Computed(t, clock) == 704 && Target(t, clock) == 4294968000
        && Base(1000) == 8192;
    FoundAtOnce(8192, 704);
    Powers();
    assert !Covers(8192, 14, 4294968000);
    hide Overflows, Right, Covers, Needed, Target, Computed, Base, Searches, Found;
    count, tooBig := CalcTimeout(false, Some(t), clock, 1000);
  }

  /** A data timeout of 4294967295 ns: the rounding wraps to 0 us, and the driver settles for count 0
      where the count 10 is needed. */
  method WrappedRounding(clock: nat) returns (count: nat, tooBig: bool)
    ensures count == 0 && !tooBig
    ensures Target(Data(4294967295, 0), clock) == 4294968 && LeastCover(Base(1000), 10, 4294968)
  {
    var t := Data(4294967295, 0);
    NoCyclesAtAll(clock);
    assert Searches(false, Some(t)) && Computed(t, clock) == 0 && Target(t, clock) == 4294968
        && Base(1000) == 8192;
    FoundAtOnce(8192, 0);
    TenNeeded();
    hide Overflows, Right, LeastCover, Needed, Target, Computed, Base, Searches, Found;
    count, tooBig := CalcTimeout(false, Some(t), clock, 1000);
  }

  lemma NoCyclesAtAll(clock: nat)
    ensures Cycles(0, clock) == 0
  {
    if clock > 0 { NoCycles(clock); }
  }

  lemma TenNeeded()
    ensures LeastCover(8192, 10, 4294968)
  {
    Powers();
    forall c | 0 <= c < 10 ensures !Covers(8192, c, 4294968) {
      if Covers(8192, c, 4294968) { CoversGrows(8192, c, 9, 4294968); }
    }
  }

  lemma FoundAtOnce(base: nat, target: nat)
    requires target <= base < U32
    ensures Found(base, target) == 0
  {
    assert base * Pow2(0) == base;
    assert WrapCovers(base, 0, target);
  }

  lemma Powers()
    ensures Pow2(9) == 0x200 && Pow2(10) == 0x400 && Pow2(14) == 0x4000
  {
    assert Pow2(7) == 0x80;
  }

  /** The 32 bits of the doubled timeout of a 1 kHz clock stay below 4194304001. */
  lemma Doubled(n: nat)
    ensures n <= 14 ==> 0x2000 * 1000 * Pow2(n) % U32 <= 4194304000
  {
    Powers();
    if n <= 9 {
      PowerGrows(n, 9);
      hide Pow2;
      Wraps(0x2000 * 1000 * Pow2(n), 0, 0x2000 * 1000 * Pow2(n));
    } else if n <= 14 {
      assert Pow2(11) == 0x800 && Pow2(12) == 0x1000 && Pow2(13) == 0x2000;
      assert 0 <= n - 10 <= 4;
      var q, r := [1, 3, 7, 15, 31][n - 10], [4093640704, 3892314112, 3489660928, 2684354560, 1073741824][n - 10];
      hide Pow2;
      Wraps(0x2000 * 1000 * Pow2(n), q, r);
    }
  }
}

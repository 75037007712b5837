/** The CV181x tuning procedure: probe every tap, then pick the middle of the widest window. */
module Tuning {

  const RETRIES: nat := 50
  const TAPS: nat := 128
  const THRESHOLD: nat := 20

  // ---------------------------------------------------------------- bit masks

  /** 1 << off within a byte */
  function BitOf(off: nat): bv8
    requires off < 8
  {
    match off
    case 0 => 0x01 case 1 => 0x02 case 2 => 0x04 case 3 => 0x08
    case 4 => 0x10 case 5 => 0x20 case 6 => 0x40 case _ => 0x80
  }

  /** CHECK_MASK_BIT */
  predicate Check(mask: seq<bv8>, bit: nat)
    requires bit / 8 < |mask|
  {
    mask[bit / 8] & BitOf(bit % 8) != 0
  }

  lemma BitsApart(m: bv8, i: nat, j: nat)
    requires i < 8 && j < 8
    ensures ((m | BitOf(i)) & BitOf(j) != 0) <==> (i == j || m & BitOf(j) != 0)
  {
    var a, b := BitOf(i), BitOf(j);
    assert (m | a) & b == (m & b) | (a & b);
    assert i == j ==> a & b == a && a != 0;
    assert i != j ==> a & b == 0;
  }

  /** SET_MASK_BIT */
  method SetBit(mask: array<bv8>, bit: nat)
    requires bit / 8 < mask.Length
    modifies mask
    ensures forall b :: 0 <= b < 8 * mask.Length ==> (Check(mask[..], b) <==> b == bit || old(Check(mask[..], b)))
  {
    ghost var before := mask[..];
    mask[bit / 8] := mask[bit / 8] | BitOf(bit % 8);
    forall b | 0 <= b < 8 * mask.Length ensures Check(mask[..], b) <==> b == bit || Check(before, b) {
      BitsApart(before[bit / 8], bit % 8, b % 8);
    }
  }

  // ---------------------------------------------------------------- probing

  /** All 51 probes of a tap succeed; `answers` says how each probe of each tap comes out. */
  predicate Passes(answers: (nat, nat) -> bool, tap: nat) {
    forall k :: 0 <= k < 51 ==> answers(tap, k)
  }

  /** Probe one tap until a probe fails or the retries are used up. */
  method Probe(answers: (nat, nat) -> bool, tap: nat) returns (ok: bool)
    ensures ok <==> Passes(answers, tap)
  {
    var retry := 0;
    ok := answers(tap, retry);
    while ok && retry < RETRIES
      invariant retry <= RETRIES && ok == answers(tap, retry)
      invariant forall k :: 0 <= k < retry ==> answers(tap, k)
      decreases RETRIES - retry
    {
      retry := retry + 1;
      ok := answers(tap, retry);
    }
  }

  /** After probing every tap, exactly the failing ones are set. */
  method ProbeAll(answers: (nat, nat) -> bool) returns (mask: array<bv8>)
    ensures fresh(mask) && mask.Length == TAPS / 8
    ensures forall t :: 0 <= t < TAPS ==> (Check(mask[..], t) <==> !Passes(answers, t))
  {
    mask := new bv8[TAPS / 8](_ => 0);
    assert forall b :: 0 <= b < TAPS ==> !Check(mask[..], b);
    var tap := 0;
    while tap < TAPS
      invariant tap <= TAPS
      invariant forall t :: 0 <= t < TAPS ==> (Check(mask[..], t) <==> t < tap && !Passes(answers, t))
    {
      var ok := Probe(answers, tap);
      if !ok { SetBit(mask, tap); }
      tap := tap + 1;
    }
  }

  // ---------------------------------------------------------------- the widest window

  /** `n` taps from `i` on pass. */
  predicate Run(pass: seq<bool>, i: nat, n: nat) {
    i + n <= |pass| && forall k :: i <= k < i + n ==> pass[k]
  }

  /** The earliest of the longest runs. */
  ghost predicate Widest(pass: seq<bool>, i: nat, n: nat) {
    && Run(pass, i, n)
    && (forall j: nat, m: nat :: Run(pass, j, m) ==> m <= n)
    && (forall j: nat :: Run(pass, j, n) ==> i <= j)
  }

  /** What the scan reports: nothing passes, or the earliest longest run. */
  ghost predicate Summary(pass: seq<bool>, start: int, width: nat) {
    if width == 0 then start == -1 && forall t :: 0 <= t < |pass| ==> !pass[t]
    else start >= 0 && Widest(pass, start, width)
  }

  /** The run in progress at the end of what has been scanned. */
  ghost predicate InProgress(pass: seq<bool>, start: int, width: nat) {
    && (start == -1 <==> width == 0)
    && (width > 0 ==> start >= 0 && start + width == |pass|)
    && width <= |pass| && Run(pass, |pass| - width, width)
    && (width < |pass| ==> !pass[|pass| - width - 1])
  }

  function Passing(mask: seq<bv8>): (pass: seq<bool>)
    requires |mask| == TAPS / 8
    ensures |pass| == TAPS
  {
    seq(TAPS, t requires 0 <= t < TAPS => !Check(mask, t))
  }

  /** A run among the first k + 1 taps either is one among the first k, or ends with tap k. */
  lemma RunGrows(pass: seq<bool>, k: nat, i: nat, n: nat)
    requires k < |pass| && n > 0
    ensures Run(pass[..k + 1], i, n)
        <==> Run(pass[..k], i, n) || (i + n == k + 1 && pass[k] && Run(pass[..k], i, n - 1))
  {
    var p, q := pass[..k + 1], pass[..k];
    assert forall j :: 0 <= j < k ==> p[j] == q[j];
    assert p[k] == pass[k];
    if Run(p, i, n) && i + n == k + 1 { assert p[k]; }
  }

  /** No run that ends where the current one ends is longer. */
  lemma CurrentLongest(pass: seq<bool>, start: int, width: nat, i: nat, n: nat)
    requires InProgress(pass, start, width) && Run(pass, i, n) && i + n == |pass|
    ensures n <= width
  {
    assert width < |pass| ==> !pass[|pass| - width - 1];
  }

  lemma TapFails(pass: seq<bool>, k: nat, start: int, width: nat)
    requires k < |pass| && !pass[k] && Summary(pass[..k], start, width)
    ensures InProgress(pass[..k + 1], -1, 0) && Summary(pass[..k + 1], start, width)
  {
    var p, q := pass[..k + 1], pass[..k];
    assert p[k] == pass[k] && forall j :: 0 <= j < k ==> p[j] == q[j];
    forall i: nat, n: nat | n > 0 ensures Run(p, i, n) <==> Run(q, i, n) {
      RunGrows(pass, k, i, n);
    }
    if width > 0 { WidestStays(p, q, start, width); }
  }

  lemma WidestStays(p: seq<bool>, q: seq<bool>, start: nat, width: nat)
    requires width > 0 && Widest(q, start, width)
    requires forall i: nat, n: nat :: n > 0 ==> (Run(p, i, n) <==> Run(q, i, n))
    ensures Widest(p, start, width)
  {
    forall j: nat, m: nat | Run(p, j, m) ensures m <= width {
      if m > 0 { assert Run(q, j, m); }
    }
  }

  lemma TapPasses(pass: seq<bool>, k: nat, curStart: int, curWidth: nat, start: int, width: nat)
    requires k < |pass| && pass[k]
    requires InProgress(pass[..k], curStart, curWidth) && Summary(pass[..k], start, width)
    ensures var curStart' := if curStart == -1 then k else curStart;
      && InProgress(pass[..k + 1], curStart', curWidth + 1)
      && if curWidth + 1 > width then Summary(pass[..k + 1], curStart', curWidth + 1)
         else Summary(pass[..k + 1], start, width)
  {
    var curStart' := if curStart == -1 then k else curStart;
    var p := pass[..k + 1];
    assert forall j :: 0 <= j < k ==> p[j] == pass[..k][j];
    assert p[k] == pass[k];
    assert Run(p, curStart', curWidth + 1);
    var q := pass[..k];
    forall i: nat, n: nat | n > 0 && Run(p, i, n)
      ensures Run(q, i, n) || (i + n == k + 1 && n <= curWidth + 1)
    {
      RunGrows(pass, k, i, n);
      if !Run(q, i, n) { CurrentLongest(q, curStart, curWidth, i, n - 1); }
    }
    if width > 0 { RunGrows(pass, k, start, width); }
    if curWidth + 1 > width {
      forall j: nat, m: nat | Run(p, j, m) ensures m <= curWidth + 1 {
        if m > 0 && Run(q, j, m) { NoWider(q, start, width, j, m); }
      }
      var n := curWidth + 1;
      forall j: nat | Run(p, j, n) ensures curStart' <= j {
        if Run(q, j, n) { NoWider(q, start, width, j, n); }
      }
    } else {
      forall j: nat, m: nat | Run(p, j, m) ensures m <= width {
        if m > 0 && Run(q, j, m) { NoWider(q, start, width, j, m); }
      }
      forall j: nat | Run(p, j, width) ensures start <= j {
        if !Run(q, j, width) { assert start + width <= k; }
      }
    }
  }

  lemma NoWider(pass: seq<bool>, start: int, width: nat, j: nat, m: nat)
    requires Summary(pass, start, width) && Run(pass, j, m)
    ensures m <= width
  {
    if width == 0 { assert j < |pass| ==> !pass[j]; }
  }

  lemma NothingScanned(pass: seq<bool>)
    ensures InProgress(pass[..0], -1, 0) && Summary(pass[..0], -1, 0)
  {
  }

  function Middle(start: int, width: nat): int {
    if width >= THRESHOLD then start + width / 2 else -1
  }

  /** One turn of the scan. */
  method ScanTap(ok: bool, k: nat, curStart: int, curWidth: nat, start: int, width: nat, tap: int,
      ghost pass: seq<bool>)
    returns (curStart': int, curWidth': nat, start': int, width': nat, tap': int)
    requires k < |pass| && ok == pass[k] && tap == Middle(start, width)
    requires InProgress(pass[..k], curStart, curWidth) && Summary(pass[..k], start, width)
    ensures InProgress(pass[..k + 1], curStart', curWidth') && Summary(pass[..k + 1], start', width')
    ensures tap' == Middle(start', width')
  {
    start', width', tap' := start, width, tap;
    if ok {
      TapPasses(pass, k, curStart, curWidth, start, width);
      hide InProgress, Summary;
      curStart' := if curStart == -1 then k else curStart;
      curWidth' := curWidth + 1;
      if curWidth' > width {
        width' := curWidth';
        start' := curStart';
        if width' >= THRESHOLD { tap' := curStart' + width' / 2; }
      }
    } else {
      TapFails(pass, k, start, width);
      curStart', curWidth' := -1, 0;
    }
  }

  /** The scan: the tap is the middle of the earliest longest run of passing taps if that has at
      least the threshold width, and -1 otherwise. */
  method FindTap(mask: array<bv8>) returns (tap: int, start: int, width: nat)
    requires mask.Length == TAPS / 8
    ensures Summary(Passing(mask[..]), start, width)
    ensures tap == if width >= THRESHOLD then start + width / 2 else -1
  {
    ghost var pass := Passing(mask[..]);
    var curStart: int, curWidth: nat := -1, 0;
    tap, start, width := -1, -1, 0;
    NothingScanned(pass);
    hide InProgress, Summary, Check;
    var k := 0;
    while k < TAPS
      invariant k <= TAPS && tap == Middle(start, width)
      invariant InProgress(pass[..k], curStart, curWidth) && Summary(pass[..k], start, width)
    {
      var failed := Check(mask[..], k);
      assert pass[k] == !failed;
      curStart, curWidth, start, width, tap := ScanTap(!failed, k, curStart, curWidth, start, width, tap, pass);
      k := k + 1;
    }
    assert pass[..TAPS] == pass;
  }

  // ---------------------------------------------------------------- the whole procedure

  function Good(answers: (nat, nat) -> bool): (pass: seq<bool>)
    ensures |pass| == 128
  {
    seq(128, t requires 0 <= t < 128 => Passes(answers, t))
  }

  /** Probing and scanning together pick the middle of the earliest longest run of taps that
      passed all 51 probes, and report failure exactly when no run has the threshold width. */
  method ExecuteTuning(answers: (nat, nat) -> bool) returns (tap: int)
    ensures tap == -1 <==> forall i: nat :: !Run(Good(answers), i, 20)
    ensures tap != -1 ==> exists i: nat, n: nat ::
      Widest(Good(answers), i, n) && n >= 20 && tap == i + n / 2
  {
    var mask := ProbeAll(answers);
    var start, width;
    tap, start, width := FindTap(mask);
    assert Passing(mask[..]) == Good(answers);
    WideEnough(Good(answers), start, width);
  }

  /** There is a run of the threshold width exactly when the longest has at least that width. */
  lemma WideEnough(pass: seq<bool>, start: int, width: nat)
    requires Summary(pass, start, width)
    ensures width >= THRESHOLD <==> exists i: nat :: Run(pass, i, THRESHOLD)
  {
    if width >= THRESHOLD {
      assert Run(pass, start, THRESHOLD);
    } else if width == 0 {
      forall i: nat ensures !Run(pass, i, THRESHOLD) {
        assert i < |pass| ==> !pass[i];
      }
    }
  }

  /** The tap chosen passed its probes, and so did at least nine taps to either side. */
  lemma TapHasMargin(answers: (nat, nat) -> bool, i: nat, n: nat, t: nat)
    requires Widest(Good(answers), i, n) && n >= 20
    requires i + n / 2 - 9 <= t <= i + n / 2 + 9
    ensures t < 128 && Passes(answers, t)
  {
    assert Good(answers)[t];
  }
}

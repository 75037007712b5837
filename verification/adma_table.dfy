/** The ADMA2 descriptor table: what sdhci_adma_table_pre writes, and what it means to the
    controller (section 1.13 of the SD Host Controller Simplified Specification v3.00). */
module AdmaTable {
  import opened Options
  import opened Memories

  /** One mapped scatter-gather entry: sg_dma_address and sg_dma_len. */
  datatype Seg = Seg(addr: nat, len: nat)

  /** The fields of a descriptor, at the width they have in memory. */
  datatype Desc = Desc(addr: nat, len: u16, cmd: bv16)

  type u16 = x: int | 0 <= x < 0x1_0000

  /** The settings the table depends on: 64-bit descriptors, the quirk that wants END on the
      last transfer instead of a closing NOP, and the hook that splits at 128 MiB. */
  datatype Style = Style(use64: bool, endOnLast: bool, split: bool)

  const TRAN_VALID: bv16 := 0x21
  const NOP_END_VALID: bv16 := 0x3
  const END: bv16 := 0x2
  const WINDOW: nat := 128 * 1024 * 1024

  // ---------------------------------------------------------------- the table as built

  /** The bytes before the next multiple of four. */
  function Head(addr: nat): nat {
    (4 - addr % 4) % 4
  }

  function AddressSpace(use64: bool): nat {
    if use64 then 0x1_0000_0000_0000_0000 else 0x1_0000_0000
  }

  function WriteDesc(use64: bool, addr: nat, len: int, cmd: bv16): Desc {
    Desc(addr % AddressSpace(use64), len % 0x1_0000, cmd)
  }

  /** BOUNDARY_OK: first and last byte lie in the same 128 MiB window. */
  predicate BoundaryOk(addr: nat, len: int) {
    addr / WINDOW == (addr + len - 1) / WINDOW
  }

  /** What one call of the write hook appends. */
  function Written(style: Style, addr: nat, len: int, cmd: bv16): seq<Desc> {
    if !style.split || len == 0 || BoundaryOk(addr, len) then [WriteDesc(style.use64, addr, len, cmd)]
    else
      var first := WINDOW - addr % WINDOW;
      [WriteDesc(style.use64, addr, first, cmd), WriteDesc(style.use64, addr + first, len - first, cmd)]
  }

  /** The descriptor of the head of an entry; `slot` is the next free slot of the align buffer. */
  function HeadDescs(style: Style, s: Seg, slot: nat): seq<Desc> {
    if Head(s.addr) == 0 then [] else Written(style, slot, Head(s.addr), TRAN_VALID)
  }

  /** The descriptors of the rest of it. */
  function BodyDescs(style: Style, s: Seg): seq<Desc> {
    var head := Head(s.addr);
    if s.len == head then [] else Written(style, s.addr + head, s.len - head, TRAN_VALID)
  }

  function SegDescs(style: Style, s: Seg, slot: nat): seq<Desc> {
    HeadDescs(style, s, slot) + BodyDescs(style, s)
  }

  /** How many slots of the align buffer the entries use. */
  function Slots(segs: seq<Seg>): nat {
    if segs == [] then 0 else Slots(segs[..|segs| - 1]) + (if Head(segs[|segs| - 1].addr) == 0 then 0 else 1)
  }

  function Descs(style: Style, segs: seq<Seg>, align: nat): seq<Desc> {
    if segs == [] then []
    else
      var n := |segs| - 1;
      Descs(style, segs[..n], align) + SegDescs(style, segs[n], align + 4 * Slots(segs[..n]))
  }

  function Ended(style: Style, descs: seq<Desc>): seq<Desc> {
    if !style.endOnLast then descs + [WriteDesc(style.use64, 0, 0, NOP_END_VALID)]
    else if descs == [] then []
    else
      var n := |descs| - 1;
      descs[n := descs[n].(cmd := descs[n].cmd | END)]
  }

  function Table(style: Style, segs: seq<Seg>, align: nat): seq<Desc> {
    Ended(style, Descs(style, segs, align))
  }

  // ---------------------------------------------------------------- the table as read

  predicate IsValid(d: Desc) {
    d.cmd & 1 != 0
  }

  predicate IsEnd(d: Desc) {
    d.cmd & 2 != 0
  }

  predicate IsTran(d: Desc) {
    d.cmd & 0x30 == 0x20
  }

  /** A length field of zero stands for 65536 bytes. */
  function Length(d: Desc): nat {
    if d.len == 0 then 65536 else d.len
  }

  function Moves(d: Desc): seq<nat> {
    if IsTran(d) then Range(d.addr, Length(d)) else []
  }

  /** The bus addresses the controller touches, in order, until a descriptor says End; nothing
      at all is said about a table it would run out of or whose entries are not valid. */
  function Interpret(table: seq<Desc>): Option<seq<nat>> {
    if table == [] || !IsValid(table[0]) then None
    else if IsEnd(table[0]) then Some(Moves(table[0]))
    else
      match Interpret(table[1..])
      case None => None
      case Some(rest) => Some(Moves(table[0]) + rest)
  }

  // ---------------------------------------------------------------- what the table should say

  /** The bytes of the entries, in order. */
  function Plain(segs: seq<Seg>): seq<nat> {
    if segs == [] then []
    else
      var n := |segs| - 1;
      Plain(segs[..n]) + Range(segs[n].addr, segs[n].len)
  }

  /** The same with the head of every entry replaced by its slot of the align buffer. */
  function Flat(segs: seq<Seg>, align: nat): seq<nat> {
    if segs == [] then []
    else
      var n := |segs| - 1;
      Flat(segs[..n], align) + SegFlat(segs[n], align + 4 * Slots(segs[..n]))
  }

  function SegFlat(s: Seg, slot: nat): seq<nat> {
    var head := Head(s.addr);
    Range(slot, head) + (if s.len <= head then [] else Range(s.addr + head, s.len - head))
  }

  function Total(segs: seq<Seg>): nat {
    if segs == [] then 0 else Total(segs[..|segs| - 1]) + segs[|segs| - 1].len
  }

  /** An entry that ends before its first multiple of four. */
  predicate Short(s: Seg) {
    s.len < Head(s.addr)
  }

  predicate Fits(style: Style, s: Seg) {
    0 < s.len <= 65536 && s.addr + s.len <= AddressSpace(style.use64)
  }

  /** What an entry has to be for its descriptors to mean its bytes. */
  predicate Sound(style: Style, s: Seg) {
    Fits(style, s) && !Short(s)
  }

  predicate AllFit(style: Style, segs: seq<Seg>) {
    forall i :: 0 <= i < |segs| ==> Fits(style, segs[i])
  }

  predicate AllSound(style: Style, segs: seq<Seg>) {
    forall i :: 0 <= i < |segs| ==> Sound(style, segs[i])
  }

  predicate NoneShort(segs: seq<Seg>) {
    forall i :: 0 <= i < |segs| ==> !Short(segs[i])
  }

  predicate SlotsFit(style: Style, align: nat, n: nat) {
    align % 4 == 0 && align + 4 * n <= AddressSpace(style.use64)
  }

  // ---------------------------------------------------------------- interpreting a closed table

  predicate Plainly(d: Desc) {
    d.cmd == TRAN_VALID
  }

  function Touched(descs: seq<Desc>): seq<nat> {
    if descs == [] then [] else Moves(descs[0]) + Touched(descs[1..])
  }

  lemma {:induction false} TouchedConcat(a: seq<Desc>, b: seq<Desc>)
    ensures Touched(a + b) == Touched(a) + Touched(b)
  {
    if a == [] {
      assert a + b == b;
    } else {
      assert (a + b)[0] == a[0] && (a + b)[1..] == a[1..] + b;
      TouchedConcat(a[1..], b);
    }
  }

  /** Either way of closing a list of transfer descriptors makes the controller do all of them
      and then stop; only closing an empty list without a NOP leaves nothing to interpret. */
  lemma {:induction false} ClosedMeaning(style: Style, descs: seq<Desc>)
    requires forall i :: 0 <= i < |descs| ==> Plainly(descs[i])
    ensures Interpret(Ended(style, descs)) ==
            if style.endOnLast && descs == [] then None else Some(Touched(descs))
  {
    var table := Ended(style, descs);
    if descs == [] {
      if !style.endOnLast {
        assert IsValid(table[0]) && IsEnd(table[0]) && !IsTran(table[0]);
      }
    } else if |descs| == 1 && style.endOnLast {
      assert Moves(table[0]) == Moves(descs[0]);
      assert Touched(descs) == Moves(descs[0]);
    } else {
      ClosedMeaning(style, descs[1..]);
      assert table[0] == descs[0] && table[1..] == Ended(style, descs[1..]);
      assert Plainly(descs[0]);
    }
  }

  /** Whatever lies behind the descriptor that says End is never looked at. */
  lemma {:induction false} StopsAtEnd(table: seq<Desc>, stale: seq<Desc>)
    requires Interpret(table).Some?
    ensures Interpret(table + stale) == Interpret(table)
  {
    assert (table + stale)[0] == table[0] && (table + stale)[1..] == table[1..] + stale;
    if !IsEnd(table[0]) { StopsAtEnd(table[1..], stale); }
  }

  // ---------------------------------------------------------------- what one entry becomes

  lemma WrittenPlainly(style: Style, addr: nat, len: int)
    ensures var w := Written(style, addr, len, TRAN_VALID);
      forall i :: 0 <= i < |w| ==> Plainly(w[i])
  {
  }

  lemma {:induction false} DescsPlainly(style: Style, segs: seq<Seg>, align: nat)
    ensures forall i :: 0 <= i < |Descs(style, segs, align)| ==> Plainly(Descs(style, segs, align)[i])
  {
    if segs != [] {
      var n := |segs| - 1;
      DescsPlainly(style, segs[..n], align);
      WrittenPlainly(style, align + 4 * Slots(segs[..n]), Head(segs[n].addr));
      WrittenPlainly(style, segs[n].addr + Head(segs[n].addr), segs[n].len - Head(segs[n].addr));
      hide Written, Head, Slots;
    }
  }

  lemma DescMoves(use64: bool, addr: nat, len: nat)
    requires 0 < len <= 65536 && addr + len <= AddressSpace(use64)
    ensures var d := WriteDesc(use64, addr, len, TRAN_VALID);
      d.addr == addr && Length(d) == len && Moves(d) == Range(addr, len)
  {
  }

  /** A stretch of at most 64 KiB that leaves its window does so after `first` bytes. */
  lemma Crossing(addr: nat, len: nat)
    requires 0 < len <= 65536
    ensures var first := WINDOW - addr % WINDOW;
      && (BoundaryOk(addr, len) <==> len <= first)
      && (addr + first) % WINDOW == 0
  {
    var q, r := addr / WINDOW, addr % WINDOW;
    assert addr == q * WINDOW + r;
    assert addr + (WINDOW - r) == (q + 1) * WINDOW;
  }

  function Transfer(use64: bool, addr: nat, len: int): Desc {
    WriteDesc(use64, addr, len, TRAN_VALID)
  }

  /** One call of the write hook yields one descriptor or, across a window boundary, two. */
  lemma WrittenAre(style: Style, addr: nat, len: nat)
    requires 0 < len <= 65536
    ensures var first := WINDOW - addr % WINDOW;
      Written(style, addr, len, TRAN_VALID) ==
        if !style.split || len <= first then [Transfer(style.use64, addr, len)]
        else [Transfer(style.use64, addr, first), Transfer(style.use64, addr + first, len - first)]
  {
    Crossing(addr, len);
  }

  lemma TouchedOne(d: Desc)
    ensures Touched([d]) == Moves(d)
  {
  }

  lemma TouchedTwo(d: Desc, e: Desc)
    ensures Touched([d, e]) == Moves(d) + Moves(e)
  {
    assert [d, e][1..] == [e];
    TouchedOne(e);
  }

  /** One call of the write hook transfers exactly the bytes asked for, split or not. */
  lemma WrittenMoves(style: Style, addr: nat, len: nat)
    requires 0 < len <= 65536 && addr + len <= AddressSpace(style.use64)
    ensures Touched(Written(style, addr, len, TRAN_VALID)) == Range(addr, len)
  {
    WrittenAre(style, addr, len);
    var first := WINDOW - addr % WINDOW;
    hide Written, AddressSpace, WriteDesc;
    if !style.split || len <= first {
      TouchedOne(Transfer(style.use64, addr, len));
      DescMoves(style.use64, addr, len);
    } else {
      TouchedTwo(Transfer(style.use64, addr, first), Transfer(style.use64, addr + first, len - first));
      DescMoves(style.use64, addr, first);
      DescMoves(style.use64, addr + first, len - first);
      RangeSplit(addr, len, first);
    }
  }

  lemma HeadMoves(style: Style, s: Seg, slot: nat)
    requires slot + 4 <= AddressSpace(style.use64)
    ensures Touched(HeadDescs(style, s, slot)) == Range(slot, Head(s.addr)) && Head(s.addr) <= 3
  {
    var head := Head(s.addr);
    assert head <= 3;
    hide Head, AddressSpace, Written;
    if head > 0 { WrittenMoves(style, slot, head); }
  }

  lemma BodyMoves(style: Style, s: Seg)
    requires Sound(style, s)
    ensures Touched(BodyDescs(style, s)) ==
            if s.len <= Head(s.addr) then [] else Range(s.addr + Head(s.addr), s.len - Head(s.addr))
  {
    var head := Head(s.addr);
    hide Head, AddressSpace, Written;
    if s.len > head { WrittenMoves(style, s.addr + head, s.len - head); }
  }

  lemma SegMoves(style: Style, s: Seg, slot: nat)
    requires Sound(style, s) && slot + 4 <= AddressSpace(style.use64)
    ensures Touched(SegDescs(style, s, slot)) == SegFlat(s, slot)
  {
    hide Touched, HeadDescs, BodyDescs, Head, AddressSpace, Sound, Range;
    HeadMoves(style, s, slot);
    BodyMoves(style, s);
    TouchedConcat(HeadDescs(style, s, slot), BodyDescs(style, s));
  }

  lemma DescsStep(style: Style, segs: seq<Seg>, align: nat)
    requires segs != []
    ensures var n := |segs| - 1;
            var slot := align + 4 * Slots(segs[..n]);
      && Descs(style, segs, align) == Descs(style, segs[..n], align) + SegDescs(style, segs[n], slot)
      && Flat(segs, align) == Flat(segs[..n], align) + SegFlat(segs[n], slot)
  {
    hide SegDescs, SegFlat, Slots;
  }

  lemma SoundStep(style: Style, segs: seq<Seg>, align: nat)
    requires segs != [] && AllSound(style, segs) && SlotsFit(style, align, |segs|)
    ensures var n := |segs| - 1;
      && AllSound(style, segs[..n]) && SlotsFit(style, align, n) && Sound(style, segs[n])
      && align + 4 * Slots(segs[..n]) + 4 <= AddressSpace(style.use64)
      && (align + 4 * Slots(segs[..n])) % 4 == 0
  {
    SlotsAtMost(segs[..|segs| - 1]);
    hide Sound, Slots;
  }

  lemma {:induction false} DescsMove(style: Style, segs: seq<Seg>, align: nat)
    requires AllSound(style, segs) && SlotsFit(style, align, |segs|)
    ensures Touched(Descs(style, segs, align)) == Flat(segs, align)
  {
    if segs != [] {
      var n := |segs| - 1;
      var slot := align + 4 * Slots(segs[..n]);
      SoundStep(style, segs, align);
      DescsStep(style, segs, align);
      hide *;
      DescsMove(style, segs[..n], align);
      SegMoves(style, segs[n], slot);
      TouchedConcat(Descs(style, segs[..n], align), SegDescs(style, segs[n], slot));
    }
  }

  lemma {:induction false} SlotsAtMost(segs: seq<Seg>)
    ensures Slots(segs) <= |segs|
  {
    if segs != [] { SlotsAtMost(segs[..|segs| - 1]); }
  }

  // ---------------------------------------------------------------- the meaning of the table

  /** For entries of 1 to 65536 bytes that reach their first multiple of four, the controller
      transfers exactly the bytes of the entries, in order, with the heads in the align buffer.
      The two ways to end the table agree, and so do split and unsplit tables. */
  lemma TableMeaning(style: Style, segs: seq<Seg>, align: nat)
    requires segs != [] && AllSound(style, segs) && SlotsFit(style, align, |segs|)
    ensures Interpret(Table(style, segs, align)) == Some(Flat(segs, align))
    ensures |Flat(segs, align)| == Total(segs)
  {
    var descs := Descs(style, segs, align);
    DescsPlainly(style, segs, align);
    ClosedMeaning(style, descs);
    DescsMove(style, segs, align);
    FlatLength(segs, align);
    if descs == [] { assert Touched(descs) == []; TotalPositive(style, segs); }
  }

  lemma {:induction false} FlatLength(segs: seq<Seg>, align: nat)
    requires NoneShort(segs)
    ensures |Flat(segs, align)| == Total(segs) == |Plain(segs)|
  {
    if segs != [] { FlatLength(segs[..|segs| - 1], align); }
  }

  lemma TotalPositive(style: Style, segs: seq<Seg>)
    requires segs != [] && Fits(style, segs[|segs| - 1])
    ensures Total(segs) > 0
  {
  }

  function Shorts(segs: seq<Seg>): nat {
    if segs == [] then 0 else Shorts(segs[..|segs| - 1]) + (if Short(segs[|segs| - 1]) then 1 else 0)
  }

  lemma {:induction false} NoShorts(segs: seq<Seg>)
    ensures Shorts(segs) == 0 <==> NoneShort(segs)
  {
    if segs != [] {
      var n := |segs| - 1;
      NoShorts(segs[..n]);
    }
  }

  lemma NegativeLengths(use64: bool, addr: nat, first: nat, len: int)
    requires -65536 < len < 0
    ensures Length(Transfer(use64, addr, len)) == 65536 + len
    ensures Length(Transfer(use64, addr, first)) + Length(Transfer(use64, addr + first, len - first)) >= 65536 + len
  {
    var a, b := first % 0x1_0000, (len - first) % 0x1_0000;
    var p, q := first / 0x1_0000, (len - first) / 0x1_0000;
    assert a + b == len - 0x1_0000 * (p + q);
  }

  lemma MovesLength(use64: bool, addr: nat, len: int)
    ensures |Moves(Transfer(use64, addr, len))| == Length(Transfer(use64, addr, len))
  {
  }

  /** The 16-bit length field turns a negative length into a long transfer. */
  lemma WrittenLength(style: Style, addr: nat, len: int)
    requires -65536 < len < 0
    ensures |Touched(Written(style, addr, len, TRAN_VALID))| >= 65536 + len
    ensures !style.split ==> |Touched(Written(style, addr, len, TRAN_VALID))| == 65536 + len
  {
    var first := WINDOW - addr % WINDOW;
    NegativeLengths(style.use64, addr, first, len);
    TouchedOne(Transfer(style.use64, addr, len));
    TouchedTwo(Transfer(style.use64, addr, first), Transfer(style.use64, addr + first, len - first));
    MovesLength(style.use64, addr, len);
    MovesLength(style.use64, addr, first);
    MovesLength(style.use64, addr + first, len - first);
    hide Length, Moves, Touched, WriteDesc, BoundaryOk;
  }

  lemma FlatSegLength(s: Seg, slot: nat)
    requires !Short(s)
    ensures |SegFlat(s, slot)| == s.len
  {
  }

  /** What is written for the rest of an entry that has none. */
  lemma ShortBody(style: Style, s: Seg)
    requires Short(s) && s.len > 0
    ensures |Touched(BodyDescs(style, s))| >= 65536 + s.len - Head(s.addr)
    ensures !style.split ==> |Touched(BodyDescs(style, s))| == 65536 + s.len - Head(s.addr)
  {
    var head := Head(s.addr);
    assert 0 < head <= 3;
    hide Written, Head;
    WrittenLength(style, s.addr + head, s.len - head);
  }

  lemma SegLength(style: Style, s: Seg, slot: nat)
    requires Fits(style, s) && slot + 4 <= AddressSpace(style.use64)
    ensures if !Short(s) then |Touched(SegDescs(style, s, slot))| == s.len
            else |Touched(SegDescs(style, s, slot))| >= s.len + 65536
    ensures !style.split && Short(s) ==> |Touched(SegDescs(style, s, slot))| == s.len + 65536
  {
    if !Short(s) {
      SegMoves(style, s, slot);
      FlatSegLength(s, slot);
      hide SegDescs, SegFlat, Touched, Short;
    } else {
      hide AddressSpace, HeadDescs, BodyDescs, Touched, Short, Head;
      HeadMoves(style, s, slot);
      ShortBody(style, s);
      TouchedConcat(HeadDescs(style, s, slot), BodyDescs(style, s));
    }
  }

  lemma FitStep(style: Style, segs: seq<Seg>, align: nat)
    requires segs != [] && AllFit(style, segs) && SlotsFit(style, align, |segs|)
    ensures var n := |segs| - 1;
      && AllFit(style, segs[..n]) && SlotsFit(style, align, n) && Fits(style, segs[n])
      && align + 4 * Slots(segs[..n]) + 4 <= AddressSpace(style.use64)
  {
    SlotsAtMost(segs[..|segs| - 1]);
    hide Fits, Slots;
  }

  lemma {:induction false} DescsLength(style: Style, segs: seq<Seg>, align: nat)
    requires AllFit(style, segs) && SlotsFit(style, align, |segs|)
    ensures |Touched(Descs(style, segs, align))| >= Total(segs) + 65536 * Shorts(segs)
    ensures !style.split || Shorts(segs) == 0 ==>
      |Touched(Descs(style, segs, align))| == Total(segs) + 65536 * Shorts(segs)
  {
    if segs != [] {
      var n := |segs| - 1;
      var slot := align + 4 * Slots(segs[..n]);
      DescsStep(style, segs, align);
      FitStep(style, segs, align);
      hide Descs, SegDescs, Slots, Flat, Touched, Short, AllFit, Fits, SlotsFit;
      DescsLength(style, segs[..n], align);
      SegLength(style, segs[n], slot);
      TouchedConcat(Descs(style, segs[..n], align), SegDescs(style, segs[n], slot));
    }
  }

  /** Every entry that ends before its first multiple of four makes the controller transfer at
      least 65536 bytes too many (exactly as many without the hook), so the table says what it
      should if and only if there is none. */
  lemma MeaningIffNoneShort(style: Style, segs: seq<Seg>, align: nat)
    requires segs != [] && AllFit(style, segs) && SlotsFit(style, align, |segs|)
    ensures var said := Interpret(Table(style, segs, align));
      && said.Some? && |said.value| >= Total(segs) + 65536 * Shorts(segs)
      && (!style.split ==> |said.value| == Total(segs) + 65536 * Shorts(segs))
      && (|said.value| == Total(segs) <==> NoneShort(segs))
      && (said.value == Flat(segs, align) <==> NoneShort(segs))
  {
    var descs := Descs(style, segs, align);
    DescsPlainly(style, segs, align);
    ClosedMeaning(style, descs);
    DescsLength(style, segs, align);
    NoShorts(segs);
    TotalPositive(style, segs);
    FlatAtMost(segs, align);
    if NoneShort(segs) { TableMeaning(style, segs, align); }
    hide Interpret, Descs, Flat, Short;
  }

  lemma {:induction false} FlatAtMost(segs: seq<Seg>, align: nat)
    ensures |Flat(segs, align)| <= Total(segs) + 3 * Shorts(segs)
  {
    if segs != [] { FlatAtMost(segs[..|segs| - 1], align); }
  }

  /** One byte at an address just past a multiple of four: the controller is told 65537 bytes. */
  lemma OneByteTooMany()
    ensures var table := Table(Style(false, false, false), [Seg(1, 1)], 0x1000);
      Interpret(table).Some? && |Interpret(table).value| == 65537
  {
    var segs := [Seg(1, 1)];
    assert segs[..0] == [];
    assert Shorts(segs) == 1 && Total(segs) == 1;
    MeaningIffNoneShort(Style(false, false, false), segs, 0x1000);
  }

  // ---------------------------------------------------------------- alignment, windows, size

  predicate Placed(style: Style, d: Desc) {
    && d.addr % 4 == 0
    && (style.split ==> d.addr / 0x800_0000 == (d.addr + Length(d) - 1) / 0x800_0000)
  }

  predicate AllPlaced(style: Style, descs: seq<Desc>) {
    forall i :: 0 <= i < |descs| ==> Placed(style, descs[i])
  }

  lemma TransferPlaced(style: Style, addr: nat, len: nat)
    requires 0 < len <= 65536 && addr + len <= AddressSpace(style.use64) && addr % 4 == 0
    requires style.split ==> len <= WINDOW - addr % WINDOW
    ensures Placed(style, Transfer(style.use64, addr, len))
  {
    DescMoves(style.use64, addr, len);
    hide AddressSpace, WriteDesc;
    Crossing(addr, len);
  }

  lemma WindowAligned(addr: nat)
    requires addr % 4 == 0
    ensures (addr + (WINDOW - addr % WINDOW)) % 4 == 0
  {
    Crossing(addr, 1);
  }

  lemma WrittenPlaced(style: Style, addr: nat, len: nat)
    requires 0 < len <= 65536 && addr + len <= AddressSpace(style.use64) && addr % 4 == 0
    ensures AllPlaced(style, Written(style, addr, len, TRAN_VALID))
  {
    WrittenAre(style, addr, len);
    Crossing(addr, len);
    WindowAligned(addr);
    var first := WINDOW - addr % WINDOW;
    hide Written, AddressSpace, Transfer, Placed;
    if !style.split || len <= first {
      TransferPlaced(style, addr, len);
    } else {
      TransferPlaced(style, addr, first);
      TransferPlaced(style, addr + first, len - first);
    }
  }

  lemma HeadAligns(addr: nat)
    ensures (addr + Head(addr)) % 4 == 0 && Head(addr) <= 3
  {
  }

  /** Every transfer descriptor is 4-aligned, and with the hook lies in one 128 MiB window. */
  lemma {:induction false} TablePlaced(style: Style, segs: seq<Seg>, align: nat)
    requires AllSound(style, segs) && SlotsFit(style, align, |segs|)
    ensures AllPlaced(style, Descs(style, segs, align))
  {
    if segs != [] {
      var n := |segs| - 1;
      SoundStep(style, segs, align);
      DescsStep(style, segs, align);
      SegPlaced(style, segs[n], align + 4 * Slots(segs[..n]));
      TablePlaced(style, segs[..n], align);
      hide Descs, SegDescs, Slots, Flat, Placed, AllSound;
    }
  }

  lemma SegPlaced(style: Style, s: Seg, slot: nat)
    requires Sound(style, s) && slot + 4 <= AddressSpace(style.use64) && slot % 4 == 0
    ensures AllPlaced(style, SegDescs(style, s, slot))
  {
    var head := Head(s.addr);
    HeadAligns(s.addr);
    hide Written, Head, Placed;
    if head > 0 { WrittenPlaced(style, slot, head); }
    if s.len > head { WrittenPlaced(style, s.addr + head, s.len - head); }
  }

  /** The most descriptors n entries can take, before the closing one. */
  function Room(style: Style, n: nat): nat {
    if style.split then 3 * n else 2 * n
  }

  lemma WrittenCount(style: Style, addr: nat, len: int)
    ensures |Written(style, addr, len, TRAN_VALID)| <= Room(style, 1) - 1
  {
  }

  lemma SlotUncut(style: Style, slot: nat, len: nat)
    requires slot % 4 == 0 && 0 < len <= 4
    ensures |Written(style, slot, len, TRAN_VALID)| == 1
  {
    WindowAligned(slot);
    WrittenAre(style, slot, len);
  }

  lemma SegCount(style: Style, s: Seg, slot: nat)
    requires slot % 4 == 0
    ensures |SegDescs(style, s, slot)| <= Room(style, 1)
  {
    var head := Head(s.addr);
    if head > 0 { SlotUncut(style, slot, head); }
    if s.len != head { WrittenCount(style, s.addr + head, s.len - head); }
    hide Written;
  }

  lemma RoomStep(style: Style, n: nat)
    ensures Room(style, n) + Room(style, 1) == Room(style, n + 1)
  {
  }

  lemma {:induction false} DescsSize(style: Style, segs: seq<Seg>, align: nat)
    requires align % 4 == 0
    ensures |Descs(style, segs, align)| <= Room(style, |segs|)
  {
    if segs == [] {
      NoDescs(style, align);
    } else {
      var n := |segs| - 1;
      var slot := align + 4 * Slots(segs[..n]);
      SlotAligned(align, Slots(segs[..n]));
      DescsStep(style, segs, align);
      hide *;
      DescsSize(style, segs[..n], align);
      SegCount(style, segs[n], slot);
      RoomStep(style, n);
      var front, last := Descs(style, segs[..n], align), SegDescs(style, segs[n], slot);
      assert |front + last| == |front| + |last|;
    }
  }

  lemma NoDescs(style: Style, align: nat)
    ensures Descs(style, [], align) == [] && Room(style, 0) == 0
  {
  }

  lemma SlotAligned(align: nat, k: nat)
    requires align % 4 == 0
    ensures (align + 4 * k) % 4 == 0
  {
  }

  /** n entries take at most 2n + 1 descriptors, and 3n + 1 when they are split. */
  lemma TableSize(style: Style, segs: seq<Seg>, align: nat)
    requires align % 4 == 0
    ensures |Table(style, segs, align)| <= Room(style, |segs|) + 1
  {
    DescsSize(style, segs, align);
    hide Descs, WriteDesc;
  }

  /** The 257 descriptors sdhci_alloc_host reserves hold every request of SDHCI_MAX_SEGS
      entries, and of 85 when they are split: the port makes 8 at most. */
  lemma TableHolds(style: Style, segs: seq<Seg>, align: nat)
    requires align % 4 == 0 && |segs| <= (if style.split then 85 else 128)
    ensures |Table(style, segs, align)| <= 257
  {
    TableSize(style, segs, align);
  }

  /** Splitting at window boundaries refines the plain writer, and a closing NOP means the same
      as END on the last descriptor: all four tables move the same bytes in the same order. */
  lemma StylesAgree(a: Style, b: Style, segs: seq<Seg>, align: nat)
    requires a.use64 == b.use64 && segs != []
    requires AllSound(a, segs) && SlotsFit(a, align, |segs|)
    ensures Interpret(Table(a, segs, align)) == Interpret(Table(b, segs, align))
  {
    assert AllSound(b, segs);
    TableMeaning(a, segs, align);
    TableMeaning(b, segs, align);
  }
}

/** The bytes before the first multiple of four of each entry travel through the align buffer:
    copied in before a write (sdhci_adma_table_pre), out after a read (sdhci_adma_table_post). */
module AlignBuffer {
  import opened Memories
  import opened AdmaTable

  function NextSlot(segs: seq<Seg>, align: nat): nat {
    align + 4 * Slots(segs)
  }

  function EntryIn(m: Memory, s: Seg, slot: nat): Memory {
    if Head(s.addr) == 0 then m else Copy(m, slot, s.addr, Head(s.addr))
  }

  function CopiedIn(m: Memory, segs: seq<Seg>, align: nat): Memory {
    if segs == [] then m
    else
      var n := |segs| - 1;
      EntryIn(CopiedIn(m, segs[..n], align), segs[n], NextSlot(segs[..n], align))
  }

  function EntryOut(m: Memory, s: Seg, slot: nat): Memory {
    if Head(s.addr) == 0 then m else Copy(m, s.addr, slot, Head(s.addr))
  }

  function CopiedOut(m: Memory, segs: seq<Seg>, align: nat): Memory {
    if segs == [] then m
    else
      var n := |segs| - 1;
      EntryOut(CopiedOut(m, segs[..n], align), segs[n], NextSlot(segs[..n], align))
  }

  predicate InSlots(a: nat, align: nat, n: nat) {
    align <= a < align + 4 * n
  }

  /** No entry shares a byte with another or with the align buffer, and all are long enough. */
  predicate Separate(segs: seq<Seg>, align: nat, n: nat) {
    && NoneShort(segs) && Distinct(Plain(segs))
    && forall a :: a in Plain(segs) ==> !InSlots(a, align, n)
  }

  /** Separation of all entries, seen from the last one. */
  lemma SeparateStep(segs: seq<Seg>, align: nat, n: nat)
    requires segs != [] && Separate(segs, align, n)
    ensures var k := |segs| - 1;
            var own := Range(segs[k].addr, segs[k].len);
      && Separate(segs[..k], align, n) && !Short(segs[k]) && Apart(Plain(segs[..k]), own)
      && Plain(segs) == Plain(segs[..k]) + own
      && forall a :: segs[k].addr <= a < segs[k].addr + segs[k].len ==> a in own && !InSlots(a, align, n)
  {
    var k := |segs| - 1;
    var own := Range(segs[k].addr, segs[k].len);
    DistinctParts(Plain(segs[..k]), own);
    forall a | segs[k].addr <= a < segs[k].addr + segs[k].len ensures a in own && !InSlots(a, align, n) {
      assert own[a - segs[k].addr] == a;
      assert a in Plain(segs);
    }
  }

  /** Copying into the align buffer touches nothing else. */
  lemma {:induction false} InTouchesSlots(m: Memory, segs: seq<Seg>, align: nat, a: nat)
    requires !InSlots(a, align, |segs|)
    ensures Peek(CopiedIn(m, segs, align), a) == Peek(m, a)
  {
    if segs != [] {
      var n := |segs| - 1;
      InTouchesSlots(m, segs[..n], align, a);
      SlotsAtMost(segs[..n]);
      CopyAt(CopiedIn(m, segs[..n], align), NextSlot(segs[..n], align), segs[n].addr, Head(segs[n].addr), a);
    }
  }

  /** Nor do the slots used so far change when later entries are copied in. */
  lemma FetchBelow(m: Memory, slot: nat, src: nat, n: nat, addrs: seq<nat>)
    requires forall a :: a in addrs ==> !(slot <= a < slot + n)
    ensures Fetch(Copy(m, slot, src, n), addrs) == Fetch(m, addrs)
  {
    forall a | a in addrs ensures Peek(Copy(m, slot, src, n), a) == Peek(m, a) {
      CopyAt(m, slot, src, n, a);
    }
    FetchSame(m, Copy(m, slot, src, n), addrs);
  }

  /** Every address of the flat form is in a used slot or in an entry. */
  lemma {:induction false} FlatWhere(segs: seq<Seg>, align: nat, a: nat)
    requires a in Flat(segs, align)
    ensures InSlots(a, align, Slots(segs)) || a in Plain(segs)
  {
    var n := |segs| - 1;
    var s := segs[n];
    var slot := NextSlot(segs[..n], align);
    if a in Flat(segs[..n], align) {
      FlatWhere(segs[..n], align, a);
    } else {
      assert a in SegFlat(s, slot);
      SegFlatWhere(s, slot, a);
    }
  }

  lemma SegFlatWhere(s: Seg, slot: nat, a: nat)
    requires a in SegFlat(s, slot)
    ensures slot <= a < slot + Head(s.addr) || a in Range(s.addr, s.len)
  {
    var head := Head(s.addr);
    var k :| 0 <= k < |SegFlat(s, slot)| && SegFlat(s, slot)[k] == a;
    if k >= head { assert Range(s.addr, s.len)[k] == a; }
  }

  lemma Addresses(a: nat, n: nat, x: nat)
    ensures x in Range(a, n) <==> a <= x < a + n
  {
    if a <= x < a + n { assert Range(a, n)[x - a] == x; }
  }

  lemma SlotRoom(segs: seq<Seg>, align: nat, n: nat)
    requires segs != [] && |segs| <= n
    ensures var slot := NextSlot(segs[..|segs| - 1], align); align <= slot && slot + 4 <= align + 4 * n
  {
    SlotsAtMost(segs[..|segs| - 1]);
    hide Slots;
  }

  lemma FlatStep(segs: seq<Seg>, align: nat)
    requires segs != []
    ensures var k := |segs| - 1;
      Flat(segs, align) == Flat(segs[..k], align) + SegFlat(segs[k], NextSlot(segs[..k], align))
  {
    hide SegFlat, Slots;
  }

  /** The slots of earlier entries do not change when the last entry is copied in. */
  lemma InSpares(m: Memory, segs: seq<Seg>, align: nat, n: nat)
    requires segs != [] && |segs| <= n && Separate(segs, align, n)
    ensures var k := |segs| - 1;
            var m2 := EntryIn(m, segs[k], NextSlot(segs[..k], align));
      Fetch(m2, Flat(segs[..k], align)) == Fetch(m, Flat(segs[..k], align))
  {
    var k := |segs| - 1;
    var front, s, slot := segs[..k], segs[k], NextSlot(segs[..k], align);
    SeparateStep(segs, align, n);
    SlotsAtMost(front);
    forall a | a in Flat(front, align) ensures !(slot <= a < slot + Head(s.addr)) {
      FlatWhere(front, align, a);
    }
    FetchBelow(m, slot, s.addr, Head(s.addr), Flat(front, align));
  }

  /** Nor do the earlier entries change when the last one is copied out. */
  lemma OutSpares(m: Memory, segs: seq<Seg>, align: nat, n: nat)
    requires segs != [] && Separate(segs, align, n)
    ensures var k := |segs| - 1;
            var m2 := EntryOut(m, segs[k], NextSlot(segs[..k], align));
      Fetch(m2, Plain(segs[..k])) == Fetch(m, Plain(segs[..k]))
  {
    var k := |segs| - 1;
    var s, slot := segs[k], NextSlot(segs[..k], align);
    SeparateStep(segs, align, n);
    forall a | a in Plain(segs[..k]) ensures !(s.addr <= a < s.addr + Head(s.addr)) {
      Addresses(s.addr, s.len, a);
    }
    FetchBelow(m, s.addr, slot, Head(s.addr), Plain(segs[..k]));
  }

  lemma InLast(m: Memory, segs: seq<Seg>, align: nat, n: nat)
    requires segs != [] && |segs| <= n && Separate(segs, align, n)
    ensures var k := |segs| - 1;
            var s, slot := segs[k], NextSlot(segs[..k], align);
      Fetch(EntryIn(CopiedIn(m, segs[..k], align), s, slot), SegFlat(s, slot)) == Fetch(m, Range(s.addr, s.len))
  {
    var k := |segs| - 1;
    var s, m1 := segs[k], CopiedIn(m, segs[..k], align);
    SeparateStep(segs, align, n);
    SlotRoom(segs, align, n);
    forall a | s.addr <= a < s.addr + s.len ensures Peek(m1, a) == Peek(m, a) {
      assert !InSlots(a, align, n);
      InTouchesSlots(m, segs[..k], align, a);
    }
    hide CopiedIn, NextSlot, EntryIn, SegFlat, Separate, Fetch;
    InEntry(m, m1, s, NextSlot(segs[..k], align), align, n);
  }

  lemma OutLast(m: Memory, segs: seq<Seg>, align: nat, n: nat)
    requires segs != [] && |segs| <= n && Separate(segs, align, n)
    ensures var k := |segs| - 1;
            var s, slot := segs[k], NextSlot(segs[..k], align);
      Fetch(EntryOut(CopiedOut(m, segs[..k], align), s, slot), Range(s.addr, s.len)) == Fetch(m, SegFlat(s, slot))
  {
    var k := |segs| - 1;
    var s, m1 := segs[k], CopiedOut(m, segs[..k], align);
    SeparateStep(segs, align, n);
    SlotRoom(segs, align, n);
    forall a | a !in Plain(segs[..k]) ensures Peek(m1, a) == Peek(m, a) {
      OutTouchesEntries(m, segs[..k], align, a);
    }
    assert forall a :: InSlots(a, align, n) ==> a !in Plain(segs[..k]);
    OutEntry(m, m1, s, NextSlot(segs[..k], align), align, n);
  }

  /** Before a write: what the controller reads in the flat form is what the entries hold. */
  lemma {:induction false} InMeaning(m: Memory, segs: seq<Seg>, align: nat, n: nat)
    requires Separate(segs, align, n) && |segs| <= n
    ensures Fetch(CopiedIn(m, segs, align), Flat(segs, align)) == Fetch(m, Plain(segs))
  {
    if segs != [] {
      var k := |segs| - 1;
      var s, slot := segs[k], NextSlot(segs[..k], align);
      var m1 := CopiedIn(m, segs[..k], align);
      SeparateStep(segs, align, n);
      SlotRoom(segs, align, n);
      FlatStep(segs, align);
      hide *;
      InMeaning(m, segs[..k], align, n);
      InSpares(m1, segs, align, n);
      InLast(m, segs, align, n);
      FetchConcat(EntryIn(m1, s, slot), Flat(segs[..k], align), SegFlat(s, slot));
      FetchConcat(m, Plain(segs[..k]), Range(s.addr, s.len));
    }
  }

  lemma InEntry(m: Memory, m1: Memory, s: Seg, slot: nat, align: nat, n: nat)
    requires !Short(s) && align <= slot && slot + 4 <= align + 4 * n
    requires forall a :: s.addr <= a < s.addr + s.len ==> Peek(m1, a) == Peek(m, a) && !InSlots(a, align, n)
    ensures Fetch(EntryIn(m1, s, slot), SegFlat(s, slot)) == Fetch(m, Range(s.addr, s.len))
  {
    var head := Head(s.addr);
    var m2 := EntryIn(m1, s, slot);
    forall j | 0 <= j < s.len ensures Peek(m2, SegFlat(s, slot)[j]) == Peek(m, s.addr + j) {
      if head > 0 { CopyAt(m1, slot, s.addr, head, SegFlat(s, slot)[j]); }
    }
  }

  // ---------------------------------------------------------------- reads

  /** Copying out touches nothing but the entries. */
  lemma {:induction false} OutTouchesEntries(m: Memory, segs: seq<Seg>, align: nat, a: nat)
    requires NoneShort(segs) && a !in Plain(segs)
    ensures Peek(CopiedOut(m, segs, align), a) == Peek(m, a)
  {
    if segs != [] {
      var k := |segs| - 1;
      var s := segs[k];
      OutTouchesEntries(m, segs[..k], align, a);
      Addresses(s.addr, s.len, a);
      CopyAt(CopiedOut(m, segs[..k], align), s.addr, NextSlot(segs[..k], align), Head(s.addr), a);
    }
  }

  lemma OutEntry(m: Memory, m1: Memory, s: Seg, slot: nat, align: nat, n: nat)
    requires !Short(s) && align <= slot && slot + 4 <= align + 4 * n
    requires forall a :: s.addr <= a < s.addr + s.len ==> Peek(m1, a) == Peek(m, a) && !InSlots(a, align, n)
    requires forall a :: InSlots(a, align, n) ==> Peek(m1, a) == Peek(m, a)
    ensures Fetch(EntryOut(m1, s, slot), Range(s.addr, s.len)) == Fetch(m, SegFlat(s, slot))
  {
    var head := Head(s.addr);
    var m2 := EntryOut(m1, s, slot);
    forall j | 0 <= j < s.len ensures Peek(m2, s.addr + j) == Peek(m, SegFlat(s, slot)[j]) {
      if head > 0 { CopyAt(m1, s.addr, slot, head, s.addr + j); }
      if j < head { assert InSlots(slot + j, align, n); }
    }
  }

  /** After a read: the entries hold what the controller has put into the flat form. */
  lemma {:induction false} OutMeaning(m: Memory, segs: seq<Seg>, align: nat, n: nat)
    requires Separate(segs, align, n) && |segs| <= n
    ensures Fetch(CopiedOut(m, segs, align), Plain(segs)) == Fetch(m, Flat(segs, align))
  {
    if segs != [] {
      var k := |segs| - 1;
      var s, slot := segs[k], NextSlot(segs[..k], align);
      var m1 := CopiedOut(m, segs[..k], align);
      SeparateStep(segs, align, n);
      SlotRoom(segs, align, n);
      FlatStep(segs, align);
      hide *;
      OutMeaning(m, segs[..k], align, n);
      OutSpares(m1, segs, align, n);
      OutLast(m, segs, align, n);
      FetchConcat(EntryOut(m1, s, slot), Plain(segs[..k]), Range(s.addr, s.len));
      FetchConcat(m, Flat(segs[..k], align), SegFlat(s, slot));
    }
  }

  // ---------------------------------------------------------------- the main results

  /** The controller is told no address twice. */
  lemma {:induction false} FlatDistinct(segs: seq<Seg>, align: nat, n: nat)
    requires Separate(segs, align, n) && |segs| <= n
    ensures Distinct(Flat(segs, align))
  {
    if segs != [] {
      var k := |segs| - 1;
      var front, s, slot := segs[..k], segs[k], NextSlot(segs[..k], align);
      SeparateStep(segs, align, n);
      SlotsAtMost(front);
      FlatDistinct(front, align, n);
      forall a | a in Flat(front, align) ensures a !in SegFlat(s, slot) {
        FlatWhere(front, align, a);
        if a in SegFlat(s, slot) {
          SegFlatWhere(s, slot, a);
          Addresses(s.addr, s.len, a);
        }
      }
      SegFlatDistinct(s, slot, align, n);
      DistinctParts(Flat(front, align), SegFlat(s, slot));
    }
  }

  lemma SegFlatDistinct(s: Seg, slot: nat, align: nat, n: nat)
    requires align <= slot && slot + 4 <= align + 4 * n
    requires forall a :: s.addr <= a < s.addr + s.len ==> !InSlots(a, align, n)
    ensures Distinct(SegFlat(s, slot))
  {
    var head := Head(s.addr);
    var f := SegFlat(s, slot);
    forall i, j | 0 <= i < j < |f| ensures f[i] != f[j] {
      if i < head <= j { assert InSlots(f[i], align, n); }
    }
  }

  /** A read through the table: after the controller has stored the card's bytes at the
      addresses the table names and the heads have been copied out, the entries hold these bytes
      in order, and nothing outside the entries and the align buffer has changed. */
  lemma ReadRoundTrip(m: Memory, style: Style, segs: seq<Seg>, align: nat, card: seq<byte>)
    requires segs != [] && AllSound(style, segs) && SlotsFit(style, align, |segs|)
    requires Separate(segs, align, |segs|) && |card| == Total(segs)
    ensures var table := Table(style, segs, align);
      && Interpret(table).Some? && |Interpret(table).value| == |card|
      && var m' := CopiedOut(Deposit(m, Interpret(table).value, card), segs, align);
      && Fetch(m', Plain(segs)) == card
      && forall a :: a !in Plain(segs) && !InSlots(a, align, |segs|) ==> Peek(m', a) == Peek(m, a)
  {
    TableMeaning(style, segs, align);
    var flat := Flat(segs, align);
    var m1 := Deposit(m, flat, card);
    FlatDistinct(segs, align, |segs|);
    DepositFetch(m, flat, card);
    OutMeaning(m1, segs, align, |segs|);
    forall a | a !in Plain(segs) && !InSlots(a, align, |segs|)
      ensures Peek(CopiedOut(m1, segs, align), a) == Peek(m, a)
    {
      OutTouchesEntries(m1, segs, align, a);
      SlotsAtMost(segs);
      if a in flat { FlatWhere(segs, align, a); }
      DepositElsewhere(m, flat, card, a);
    }
  }

  /** A write through the table: once the heads have been copied in, the bytes the controller
      reads are the bytes of the entries in order, and nothing but the align buffer has changed. */
  lemma WriteMeaning(m: Memory, style: Style, segs: seq<Seg>, align: nat)
    requires segs != [] && AllSound(style, segs) && SlotsFit(style, align, |segs|)
    requires Separate(segs, align, |segs|)
    ensures var table := Table(style, segs, align);
            var m' := CopiedIn(m, segs, align);
      && Interpret(table).Some? && Fetch(m', Interpret(table).value) == Fetch(m, Plain(segs))
      && forall a :: !InSlots(a, align, |segs|) ==> Peek(m', a) == Peek(m, a)
  {
    TableMeaning(style, segs, align);
    InMeaning(m, segs, align, |segs|);
    forall a | !InSlots(a, align, |segs|) ensures Peek(CopiedIn(m, segs, align), a) == Peek(m, a) {
      InTouchesSlots(m, segs, align, a);
    }
  }
}

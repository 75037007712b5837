/** The code that fills the descriptor table and moves the odd head bytes, step by step. */
module AdmaHosts {
  import opened Memories
  import opened AdmaTable
  import opened AlignBuffer
  import opened ScatterGather

  /** What the table builder sees of a mapped list. */
  function Segs(sg: seq<Entry>): (segs: seq<Seg>)
    ensures |segs| == |sg|
  {
    seq(|sg|, i requires 0 <= i < |sg| => Seg(sg[i].dmaAddress, sg[i].length))
  }

  class AdmaHost {
    const style: Style
    const alignAddr: nat
    const table: array<Desc>
    var mem: Memory

    ghost predicate Valid() {
      alignAddr % 4 == 0
    }

    constructor (style: Style, alignAddr: nat, entries: nat, mem: Memory)
      requires alignAddr % 4 == 0
      ensures Valid() && fresh(table) && table.Length == entries
      ensures this.style == style && this.alignAddr == alignAddr && this.mem == mem
    {
      this.style := style;
      this.alignAddr := alignAddr;
      this.table := new Desc[entries](_ => Desc(0, 0, 0));
      this.mem := mem;
    }

    /** sdhci_adma_write_desc */
    method WriteOne(desc: nat, addr: nat, len: int, cmd: bv16) returns (desc': nat)
      requires desc < table.Length
      modifies table
      ensures desc' == desc + 1
      ensures table[..desc'] == old(table[..desc]) + [AdmaTable.WriteDesc(style.use64, addr, len, cmd)]
    {
      table[desc] := Desc(addr % AddressSpace(style.use64), len % 0x1_0000, cmd);
      return desc + 1;
    }

    /** cvi_adma_write_desc */
    method WriteSplit(desc: nat, addr: nat, len: int, cmd: bv16) returns (desc': nat)
      requires style.split && desc + |Written(style, addr, len, cmd)| <= table.Length
      modifies table
      ensures desc' == desc + |Written(style, addr, len, cmd)|
      ensures table[..desc'] == old(table[..desc]) + Written(style, addr, len, cmd)
    {
      if len == 0 || BoundaryOk(addr, len) {
        desc' := WriteOne(desc, addr, len, cmd);
        return;
      }
      var offset := addr % WINDOW;
      var first := WINDOW - offset;
      desc' := WriteOne(desc, addr, first, cmd);
      desc' := WriteOne(desc', addr + first, len - first, cmd);
    }

    /** __sdhci_adma_write_desc */
    method Write(desc: nat, addr: nat, len: int, cmd: bv16) returns (desc': nat)
      requires desc + |Written(style, addr, len, cmd)| <= table.Length
      modifies table
      ensures desc' == desc + |Written(style, addr, len, cmd)|
      ensures table[..desc'] == old(table[..desc]) + Written(style, addr, len, cmd)
    {
      if style.split { desc' := WriteSplit(desc, addr, len, cmd); }
      else { desc' := WriteOne(desc, addr, len, cmd); }
    }

    /** The bytes before the first multiple of four go through the align buffer. */
    method WriteHead(desc: nat, s: Seg, slot: nat, write: bool) returns (desc': nat, slot': nat)
      requires desc + |HeadDescs(style, s, slot)| <= table.Length
      modifies table, this`mem
      ensures desc' == desc + |HeadDescs(style, s, slot)|
      ensures table[..desc'] == old(table[..desc]) + HeadDescs(style, s, slot)
      ensures slot' == slot + (if Head(s.addr) == 0 then 0 else 4)
      ensures mem == if write then EntryIn(old(mem), s, slot) else old(mem)
    {
      hide Written, Copy;
      desc', slot' := desc, slot;
      var offset := (4 - s.addr % 4) % 4;
      if offset != 0 {
        if write { mem := Copy(mem, slot, s.addr, offset); }
        desc' := Write(desc', slot, offset, TRAN_VALID);
        slot' := slot + 4;
      }
    }

    /** One turn of the loop in sdhci_adma_table_pre. */
    method WriteEntry(desc: nat, s: Seg, slot: nat, write: bool) returns (desc': nat, slot': nat)
      requires desc + |SegDescs(style, s, slot)| <= table.Length
      modifies table, this`mem
      ensures desc' == desc + |SegDescs(style, s, slot)|
      ensures table[..desc'] == old(table[..desc]) + SegDescs(style, s, slot)
      ensures slot' == slot + (if Head(s.addr) == 0 then 0 else 4)
      ensures mem == if write then EntryIn(old(mem), s, slot) else old(mem)
    {
      var head := Head(s.addr);
      assert SegDescs(style, s, slot) == HeadDescs(style, s, slot) + BodyDescs(style, s);
      hide HeadDescs, SegDescs, Written, EntryIn, Head;
      desc', slot' := WriteHead(desc, s, slot, write);
      if s.len != head { desc' := Write(desc', s.addr + head, s.len - head, TRAN_VALID); }
    }

    method WriteEntries(sg: array<Entry>, n: nat, write: bool) returns (desc: nat)
      requires Valid() && n <= sg.Length && Room(style, n) <= table.Length
      modifies table, this`mem
      ensures desc == |Descs(style, Segs(sg[..n]), alignAddr)| <= Room(style, n)
      ensures table[..desc] == Descs(style, Segs(sg[..n]), alignAddr)
      ensures mem == if write then CopiedIn(old(mem), Segs(sg[..n]), alignAddr) else old(mem)
    {
      var slot := alignAddr;
      desc := 0;
      ghost var segs := Segs(sg[..n]);
      NoEntries(mem, style, segs, alignAddr);
      hide Descs, SegDescs, CopiedIn, EntryIn, NextSlot, Head;
      for i := 0 to n
        invariant slot == NextSlot(segs[..i], alignAddr)
        invariant desc == |Descs(style, segs[..i], alignAddr)| <= Room(style, i)
        invariant table[..desc] == Descs(style, segs[..i], alignAddr)
        invariant mem == if write then CopiedIn(old(mem), segs[..i], alignAddr) else old(mem)
      {
        PrefixStep(old(mem), style, segs, alignAddr, i);
        desc, slot := WriteEntry(desc, Seg(sg[i].dmaAddress, sg[i].length), slot, write);
      }
      assert segs[..n] == segs;
    }

    /** Mark the last descriptor as the end, or add a terminating entry. */
    method Terminate(desc: nat) returns (used: nat)
      requires desc < table.Length
      modifies table
      ensures used <= table.Length && table[..used] == Ended(style, old(table[..desc]))
    {
      if !style.endOnLast {
        used := WriteOne(desc, 0, 0, NOP_END_VALID);
      } else {
        if desc != 0 { table[desc - 1] := table[desc - 1].(cmd := table[desc - 1].cmd | END); }
        used := desc;
      }
    }

    /** sdhci_adma_table_pre; the result is how many descriptors the table now holds. */
    method TablePre(sg: array<Entry>, n: nat, write: bool) returns (used: nat)
      requires Valid() && n <= sg.Length && Room(style, n) + 1 <= table.Length
      modifies table, this`mem
      ensures used <= table.Length && table[..used] == Table(style, Segs(sg[..n]), alignAddr)
      ensures mem == if write then CopiedIn(old(mem), Segs(sg[..n]), alignAddr) else old(mem)
    {
      hide Descs, CopiedIn, Ended, Segs;
      var desc := WriteEntries(sg, n, write);
      used := Terminate(desc);
    }

    /** A quick scan of the list for any unaligned mappings. */
    method HasUnaligned(sg: array<Entry>, n: nat) returns (unaligned: bool)
      requires n <= sg.Length
      ensures unaligned <==> exists j :: 0 <= j < n && sg[j].dmaAddress % 4 != 0
    {
      for i := 0 to n
        invariant forall j :: 0 <= j < i ==> sg[j].dmaAddress % 4 == 0
      {
        if sg[i].dmaAddress % 4 != 0 { return true; }
      }
      return false;
    }

    /** Copy the head of one entry from its slot of the align buffer. */
    method CopyHead(s: Seg, slot: nat) returns (slot': nat)
      modifies this`mem
      ensures mem == EntryOut(old(mem), s, slot) && slot' == slot + (if Head(s.addr) == 0 then 0 else 4)
    {
      slot' := slot;
      if s.addr % 4 != 0 {
        var size := 4 - s.addr % 4;
        mem := Copy(mem, s.addr, slot, size);
        slot' := slot + 4;
      }
    }

    /** Copy every head from its slot of the align buffer to its entry. */
    method CopyHeads(sg: array<Entry>, n: nat)
      requires n <= sg.Length
      modifies this`mem
      ensures mem == CopiedOut(old(mem), Segs(sg[..n]), alignAddr)
    {
      ghost var segs := Segs(sg[..n]);
      var slot := alignAddr;
      for i := 0 to n
        invariant slot == NextSlot(segs[..i], alignAddr)
        invariant mem == CopiedOut(old(mem), segs[..i], alignAddr)
      {
        OutStep(old(mem), segs, alignAddr, i);
        hide CopiedOut, Slots, EntryOut, NextSlot, Head;
        slot := CopyHead(Seg(sg[i].dmaAddress, sg[i].length), slot);
      }
      assert segs[..n] == segs;
    }

    /** sdhci_adma_table_post */
    method TablePost(sg: array<Entry>, n: nat, read: bool)
      requires n <= sg.Length
      modifies this`mem
      ensures mem == if read then CopiedOut(old(mem), Segs(sg[..n]), alignAddr) else old(mem)
    {
      if !read { return; }
      var unaligned := HasUnaligned(sg, n);
      if unaligned { CopyHeads(sg, n); } else { AlignedOut(mem, Segs(sg[..n]), alignAddr); }
    }
  }

  lemma Prefix(segs: seq<Seg>, i: nat)
    requires i < |segs|
    ensures segs[..i + 1] != [] && |segs[..i + 1]| == i + 1
    ensures segs[..i + 1][..i] == segs[..i] && segs[..i + 1][i] == segs[i]
  {
  }

  lemma SlotStep(segs: seq<Seg>, align: nat, i: nat)
    requires i < |segs|
    ensures NextSlot(segs[..i + 1], align) == NextSlot(segs[..i], align) + (if Head(segs[i].addr) == 0 then 0 else 4)
    ensures align % 4 == 0 ==> NextSlot(segs[..i], align) % 4 == 0
  {
    Prefix(segs, i);
    hide Head;
  }

  lemma InStep(m: Memory, segs: seq<Seg>, align: nat, i: nat)
    requires i < |segs|
    ensures CopiedIn(m, segs[..i + 1], align)
        == EntryIn(CopiedIn(m, segs[..i], align), segs[i], NextSlot(segs[..i], align))
  {
    Prefix(segs, i);
    hide EntryIn, NextSlot;
  }

  /** What one more entry adds to the table, the align buffer and the room needed. */
  lemma PrefixStep(m: Memory, style: Style, segs: seq<Seg>, align: nat, i: nat)
    requires align % 4 == 0 && i < |segs|
    ensures var slot := NextSlot(segs[..i], align);
      && NextSlot(segs[..i + 1], align) == slot + (if Head(segs[i].addr) == 0 then 0 else 4)
      && Descs(style, segs[..i + 1], align) == Descs(style, segs[..i], align) + SegDescs(style, segs[i], slot)
      && |SegDescs(style, segs[i], slot)| <= Room(style, 1)
      && CopiedIn(m, segs[..i + 1], align) == EntryIn(CopiedIn(m, segs[..i], align), segs[i], slot)
  {
    SlotStep(segs, align, i);
    InStep(m, segs, align, i);
    DescStep(style, segs, align, i);
    hide *;
    SegCount(style, segs[i], NextSlot(segs[..i], align));
  }

  lemma DescStep(style: Style, segs: seq<Seg>, align: nat, i: nat)
    requires i < |segs|
    ensures Descs(style, segs[..i + 1], align) ==
            Descs(style, segs[..i], align) + SegDescs(style, segs[i], NextSlot(segs[..i], align))
  {
    var p := segs[..i + 1];
    Prefix(segs, i);
    DescsStep(style, p, align);
    hide Descs, SegDescs, Slots;
  }

  lemma NoEntries(m: Memory, style: Style, segs: seq<Seg>, align: nat)
    ensures Descs(style, segs[..0], align) == [] && CopiedIn(m, segs[..0], align) == m
        && NextSlot(segs[..0], align) == align
  {
  }

  lemma OutStep(m: Memory, segs: seq<Seg>, align: nat, i: nat)
    requires i < |segs|
    ensures var slot := NextSlot(segs[..i], align);
      && NextSlot(segs[..i + 1], align) == slot + (if Head(segs[i].addr) == 0 then 0 else 4)
      && CopiedOut(m, segs[..i + 1], align) == EntryOut(CopiedOut(m, segs[..i], align), segs[i], slot)
  {
    Prefix(segs, i);
    SlotStep(segs, align, i);
    hide EntryOut, NextSlot, Head;
  }

  /** With every entry aligned there is nothing to copy out. */
  lemma {:induction false} AlignedOut(m: Memory, segs: seq<Seg>, align: nat)
    requires forall j :: 0 <= j < |segs| ==> Head(segs[j].addr) == 0
    ensures CopiedOut(m, segs, align) == m
  {
    if segs != [] { AlignedOut(m, segs[..|segs| - 1], align); }
  }
}

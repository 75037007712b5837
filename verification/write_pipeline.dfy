/** A DMA write from the caller's buffer to the card. */
module WritePipeline {
  import opened Memories
  import opened AdmaTable
  import opened AlignBuffer
  import opened ScatterGather
  import opened AdmaHosts
  import opened ReadPipeline
  import opened Caches

  /** The circumstances of a write of `len` bytes from `buf` that the driver cannot influence. */
  ghost predicate WriteSetting(style: Style, buf: nat, len: nat, phys: nat -> nat, align: nat) {
    && 0 < len <= MAX_SEGS * TILE && Translates(phys) && SlotsFit(style, align, MAX_SEGS)
    && forall i :: 0 <= i < TileCount(len) ==>
      Reachable(style, phys, align, Virt(Tiles(buf, len)[i]), Tiles(buf, len)[i].length)
  }

  function WriteSegs(buf: nat, len: nat, phys: nat -> nat): seq<Seg> {
    Segs(Mapped(Tiles(buf, len), phys))
  }

  lemma HeadOf(phys: nat -> nat, buf: nat, i: nat)
    requires Translates(phys)
    ensures Head(phys(buf + i * TILE)) == Head(buf)
  {
    SameHead(phys(buf + i * TILE), buf + i * TILE);
    TileHead(buf, i);
  }

  lemma SameHead(a: nat, b: nat)
    requires a % PAGE == b % PAGE
    ensures Head(a) == Head(b)
  {
    ModFour(b, 1024 * (a / 4096 - b / 4096));
    assert a == b + 4 * (1024 * (a / 4096 - b / 4096));
  }

  lemma ModFour(b: int, k: int)
    ensures (b + 4 * k) % 4 == b % 4
  {
  }

  lemma TileHead(buf: nat, i: nat)
    ensures Head(buf + i * TILE) == Head(buf)
  {
    ModFour(buf, i * 0x4000);
    assert i * TILE == 4 * (i * 0x4000);
  }

  lemma WriteSeg(style: Style, buf: nat, len: nat, phys: nat -> nat, align: nat, i: nat)
    requires WriteSetting(style, buf, len, phys, align) && i < TileCount(len)
    ensures var s := WriteSegs(buf, len, phys)[i];
      && Fits(style, s) && Head(s.addr) == Head(buf)
      && s.len == (if i < TileCount(len) - 1 then TILE else LastTile(len))
  {
    TilesCover(buf, len);
    TileSizes(buf, len);
    TileInside(len, i);
    var t := Tiles(buf, len)[i];
    assert Virt(t) == buf + i * TILE;
    HeadOf(phys, buf, i);
    assert Reachable(style, phys, align, Virt(t), t.length);
  }

  /** Only the last entry can end before its first multiple of four. */
  lemma ShortWrites(style: Style, buf: nat, len: nat, phys: nat -> nat, align: nat)
    requires WriteSetting(style, buf, len, phys, align)
    ensures var segs := WriteSegs(buf, len, phys);
      && |segs| == TileCount(len) && AllFit(style, segs)
      && (NoneShort(segs) <==> Head(buf) <= LastTile(len))
  {
    var segs := WriteSegs(buf, len, phys);
    TilesCover(buf, len);
    forall i | 0 <= i < |segs|
      ensures Fits(style, segs[i])
      ensures Short(segs[i]) <==> (i == |segs| - 1 && LastTile(len) < Head(buf))
    {
      WriteSeg(style, buf, len, phys, align, i);
    }
    hide WriteSetting, Fits, WriteSegs, LastTile, Head, Short;
    var k := |segs| - 1;
    if NoneShort(segs) { assert !Short(segs[k]); }
  }

  lemma WriteApart(style: Style, buf: nat, len: nat, phys: nat -> nat, align: nat)
    requires WriteSetting(style, buf, len, phys, align)
    ensures var segs := WriteSegs(buf, len, phys);
      && Plain(segs) == MapPhys(phys, Range(buf, len)) && Distinct(Plain(segs))
      && forall a :: a in Plain(segs) ==> !InSlots(a, align, MAX_SEGS)
  {
    TilesCover(buf, len);
    MapDistinct(phys, Range(buf, len));
    OffSlots(style, Tiles(buf, len), phys, align);
  }

  /** End to end: the controller fetches exactly the caller's bytes, in order, if and only if the
      last of the 64 KiB entries reaches its first multiple of four; otherwise it is told to
      transfer at least 64 KiB more than the buffer holds. */
  lemma WriteEndToEnd(m: Memory, style: Style, buf: nat, len: nat, phys: nat -> nat, align: nat)
    requires WriteSetting(style, buf, len, phys, align)
    ensures var segs := WriteSegs(buf, len, phys);
            var said := Interpret(Table(style, segs, align));
            var m' := CopiedIn(m, segs, align);
      && said.Some?
      && (Head(buf) <= LastTile(len) <==> |said.value| == len)
      && (Head(buf) <= LastTile(len) ==> Fetch(m', said.value) == Fetch(m, MapPhys(phys, Range(buf, len))))
      && (Head(buf) > LastTile(len) ==> |said.value| >= len + 65536)
      && (forall a :: !InSlots(a, align, MAX_SEGS) ==> Peek(m', a) == Peek(m, a))
  {
    var segs := WriteSegs(buf, len, phys);
    TilesCover(buf, len);
    ShortWrites(style, buf, len, phys, align);
    WriteApart(style, buf, len, phys, align);
    TotalIsCovered(Tiles(buf, len), phys);
    NoShorts(segs);
    assert SlotsFit(style, align, |segs|);
    assert forall a :: !InSlots(a, align, MAX_SEGS) ==> !InSlots(a, align, |segs|);
    MeaningIffNoneShort(style, segs, align);
    forall a | !InSlots(a, align, MAX_SEGS) ensures Peek(CopiedIn(m, segs, align), a) == Peek(m, a) {
      InTouchesSlots(m, segs, align, a);
    }
    if NoneShort(segs) { WriteSound(m, style, segs, align); }
  }

  lemma WriteSound(m: Memory, style: Style, segs: seq<Seg>, align: nat)
    requires segs != [] && AllFit(style, segs) && NoneShort(segs) && SlotsFit(style, align, |segs|)
    requires Distinct(Plain(segs)) && forall a :: a in Plain(segs) ==> !InSlots(a, align, |segs|)
    ensures var said := Interpret(Table(style, segs, align));
      said.Some? && Fetch(CopiedIn(m, segs, align), said.value) == Fetch(m, Plain(segs))
  {
    WriteMeaning(m, style, segs, align);
  }

  /** One byte at an address just past a multiple of four is such a transfer: with the identity
      for virt_to_phys and the align buffer at 0x2000, the controller is told 65537 bytes. */
  lemma OddWrite(m: Memory)
    ensures var phys := (a: nat) => a;
            var style := Style(false, false, false);
      && WriteSetting(style, 0x1001, 1, phys, 0x2000)
      && var said := Interpret(Table(style, WriteSegs(0x1001, 1, phys), 0x2000));
         said.Some? && |said.value| >= 65537
  {
    var phys := (a: nat) => a;
    var style := Style(false, false, false);
    var t := Tiles(0x1001, 1);
    assert |t| == 1 && t[0] == Tile(0x1001, 1, 0);
    assert Virt(t[0]) == 0x1001 && t[0].length == 1;
    assert Reachable(style, phys, 0x2000, 0x1001, 1);
    assert LastTile(1) == 1 && Head(0x1001) == 3;
    WriteEndToEnd(m, style, 0x1001, 1, phys, 0x2000);
  }

  // ---------------------------------------------------------------- through the cache

  /** With a cache: the flush of the mapping makes the controller fetch what the CPU has written,
      wherever that still was. */
  lemma CachedWrite(c: Cached, style: Style, buf: nat, len: nat, phys: nat -> nat, align: nat)
    requires WriteSetting(style, buf, len, phys, align)
    ensures var segs := WriteSegs(buf, len, phys);
            var said := Interpret(Table(style, segs, align));
            var c' := PerformAll(c, CacheOps(Tiles(buf, len), false), phys);
            var m' := CopiedIn(c'.mem, segs, align);
      && said.Some? && c'.held == c.held
      && (Head(buf) <= LastTile(len) ==> Fetch(m', said.value) == Seen(c, phys, Range(buf, len)))
      && (Head(buf) > LastTile(len) ==> |said.value| >= len + 65536)
      && (forall a :: !InSlots(phys(a), align, MAX_SEGS) ==> View(Cached(m', c'.held), phys, a) == View(c, phys, a))
  {
    var sg := Tiles(buf, len);
    var c' := PerformAll(c, CacheOps(sg, false), phys);
    assert OneToOne(phys);
    TilesCover(buf, len);
    hide WriteSetting, WriteSegs, LastTile, Head, CacheOps, Interpret, Table, OneToOne, CopiedIn, InSlots, Tiles;
    MappedForWrite(c, sg, phys);
    WriteEndToEnd(c'.mem, style, buf, len, phys, align);
    WrittenIsSeen(c, c', phys, buf, len);
  }

  lemma WrittenIsSeen(c: Cached, c': Cached, phys: nat -> nat, buf: nat, len: nat)
    requires forall a :: a in Range(buf, len) ==> Peek(c'.mem, phys(a)) == View(c, phys, a)
    ensures Fetch(c'.mem, MapPhys(phys, Range(buf, len))) == Seen(c, phys, Range(buf, len))
  {
    var addrs := Range(buf, len);
    forall k | 0 <= k < len ensures Peek(c'.mem, MapPhys(phys, addrs)[k]) == View(c, phys, addrs[k]) {
      assert addrs[k] in addrs;
    }
  }

  /** A whole DMA write as the port performs it: _sg_init, dma_map_sg, the table, what the
      controller fetches, dma_unmap_sg. */
  method WriteRequest(host: AdmaHost, sg: array<Entry>, buf: nat, blocks: nat, blockSize: nat, phys: nat -> nat,
                      held: map<nat, byte>) returns (fetched: seq<byte>)
    requires host.Valid() && sg.Length == MAX_SEGS && Room(host.style, MAX_SEGS) + 1 <= host.table.Length
    requires 0 < blocks * blockSize && WriteSetting(host.style, buf, blocks * blockSize, phys, host.alignAddr)
    modifies host.table, host`mem, sg
    ensures var len := blocks * blockSize;
            var before := Cached(old(host.mem), held);
      && (Head(buf) <= LastTile(len) ==> fetched == Seen(before, phys, Range(buf, len)))
      && (Head(buf) > LastTile(len) ==> |fetched| >= len + 65536)
      && (forall a :: !InSlots(phys(a), host.alignAddr, MAX_SEGS) ==>
            View(Cached(host.mem, held), phys, a) == View(before, phys, a))
  {
    ghost var len := blocks * blockSize;
    ghost var before := Cached(host.mem, held);
    TilesCover(buf, len);
    CachedWrite(before, host.style, buf, len, phys, host.alignAddr);
    var n := SgInit(sg, buf, blocks, blockSize);
    hide WriteSetting, LastTile, Head, Interpret, Table, CacheOps, Mapped, Segs, CopiedIn, InSlots, Seen, View, Tiles;
    fetched := FetchData(host, sg, n, phys, held);
  }

  /** From dma_map_sg to dma_unmap_sg. */
  method FetchData(host: AdmaHost, sg: array<Entry>, n: nat, phys: nat -> nat, held: map<nat, byte>)
    returns (fetched: seq<byte>)
    requires host.Valid() && n <= sg.Length && Room(host.style, n) + 1 <= host.table.Length
    requires Interpret(Table(host.style, Segs(Mapped(sg[..n], phys)), host.alignAddr)).Some?
    modifies host.table, host`mem, sg
    ensures var segs := Segs(Mapped(old(sg[..n]), phys));
            var synced := PerformAll(Cached(old(host.mem), held), CacheOps(old(sg[..n]), false), phys);
      && host.mem == CopiedIn(synced.mem, segs, host.alignAddr)
      && fetched == Fetch(host.mem, Interpret(Table(host.style, segs, host.alignAddr)).value)
  {
    hide Interpret, Table, Segs, Mapped, CopiedIn, CacheOps, Returned, Replaced;
    var ops := DmaMapSg(sg, n, false, phys);
    host.mem := PerformAll(Cached(host.mem, held), ops, phys).mem;
    var used := host.TablePre(sg, n, true);
    StopsAtEnd(host.table[..used], host.table[used..]);
    assert host.table[..used] + host.table[used..] == host.table[..];
    fetched := Fetch(host.mem, Interpret(host.table[..]).value);
    host.TablePost(sg, n, false);
    var mem, freed := DmaUnmapSg(host.mem, sg, n, false, phys);
    host.mem := mem;
  }
}

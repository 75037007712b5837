/** The scatter-gather list: cutting a buffer into entries, replacing the entries a read must not
    touch directly, mapping, and handing everything back. */
module ScatterGather {
  import opened Memories

  const TILE: nat := 0x1_0000
  const MAX_SEGS: nat := 8
  const LINE: nat := 64
  const PAGE: nat := 4096

  /** A struct scatterlist; `rea` is SG_REA, `last` is SG_END. */
  datatype Entry = Entry(pageLink: nat, offset: nat, length: nat, dmaAddress: nat,
                         oldAddr: nat, rea: bool, last: bool)

  const ZERO := Entry(0, 0, 0, 0, 0, false, false)

  /** sg_virt */
  function Virt(e: Entry): nat {
    e.pageLink + e.offset
  }

  /** sg_set_buf */
  function SetBuf(e: Entry, buf: nat, len: nat): (r: Entry)
    ensures Virt(r) == buf && r.length == len && r.rea == e.rea && r.last == e.last && r.oldAddr == e.oldAddr
  {
    e.(pageLink := buf - buf % PAGE, offset := buf % PAGE, length := len, dmaAddress := 0)
  }

  // ---------------------------------------------------------------- tiling

  function TileCount(len: nat): nat {
    (len + TILE - 1) / TILE
  }

  function Tile(buf: nat, len: nat, i: nat): Entry
    requires i * TILE < len
  {
    var rest := len - i * TILE;
    SetBuf(ZERO.(last := i == TileCount(len) - 1), buf + i * TILE, if rest > TILE then TILE else rest)
  }

  /** The table sg_init_table leaves. */
  function Blank(n: nat): seq<Entry> {
    seq(n, i requires 0 <= i < n => ZERO.(last := i == n - 1))
  }

  lemma TileInside(len: nat, i: nat)
    requires i < TileCount(len)
    ensures i * TILE < len
    ensures i == TileCount(len) - 1 <==> len - i * TILE <= TILE
  {
  }

  function Tiles(buf: nat, len: nat): (sg: seq<Entry>)
    ensures |sg| == TileCount(len)
  {
    seq(TileCount(len), i requires 0 <= i < TileCount(len) => (TileInside(len, i); Tile(buf, len, i)))
  }

  /** The addresses the entries cover, in order. */
  function Covered(sg: seq<Entry>): seq<nat> {
    if sg == [] then []
    else
      var n := |sg| - 1;
      Covered(sg[..n]) + Range(Virt(sg[n]), sg[n].length)
  }

  lemma {:induction false} CoveredWhere(sg: seq<Entry>, a: nat)
    requires a in Covered(sg)
    ensures exists i :: 0 <= i < |sg| && Virt(sg[i]) <= a < Virt(sg[i]) + sg[i].length
  {
    var n := |sg| - 1;
    if a in Covered(sg[..n]) {
      CoveredWhere(sg[..n], a);
      var i :| 0 <= i < n && Virt(sg[..n][i]) <= a < Virt(sg[..n][i]) + sg[..n][i].length;
      assert sg[i] == sg[..n][i];
    } else {
      assert a in Range(Virt(sg[n]), sg[n].length);
    }
  }

  lemma {:induction false} TilesPrefix(buf: nat, len: nat, n: nat)
    requires n <= TileCount(len)
    ensures Covered(Tiles(buf, len)[..n]) == Range(buf, if n * TILE < len then n * TILE else len)
  {
    if n > 0 {
      var t := Tiles(buf, len);
      TileInside(len, n - 1);
      TilesPrefix(buf, len, n - 1);
      assert t[..n][..n - 1] == t[..n - 1];
      assert t[..n][n - 1] == Tile(buf, len, n - 1);
      RangeSplit(buf, if n * TILE < len then n * TILE else len, (n - 1) * TILE);
    }
  }

  /** A buffer of 1 to 524288 bytes becomes at most eight entries of 1 to 65536 bytes that cover
      it without gap or overlap, the last one marked as such. */
  lemma TilesCover(buf: nat, len: nat)
    requires 0 < len <= 524288
    ensures Covered(Tiles(buf, len)) == Range(buf, len)
    ensures 1 <= |Tiles(buf, len)| <= 8
    ensures forall i :: 0 <= i < |Tiles(buf, len)| ==>
      var e := Tiles(buf, len)[i];
      0 < e.length <= 65536 && !e.rea && (e.last <==> i == |Tiles(buf, len)| - 1)
  {
    var n := TileCount(len);
    TilesPrefix(buf, len, n);
    assert Tiles(buf, len)[..n] == Tiles(buf, len);
    forall i | 0 <= i < n ensures 0 < Tiles(buf, len)[i].length <= TILE {
      TileInside(len, i);
    }
  }

  method InitTable(sg: array<Entry>, n: nat)
    requires 0 < n <= sg.Length
    modifies sg
    ensures sg[..n] == Blank(n) && sg[n..] == old(sg[n..])
  {
    for i := 0 to n
      invariant forall j :: 0 <= j < i ==> sg[j] == ZERO
      invariant sg[n..] == old(sg[n..])
    {
      sg[i] := ZERO;
    }
    sg[n - 1] := sg[n - 1].(last := true);
  }

  /** _sg_init, up to the call of __map_sg. */
  method SgInit(sg: array<Entry>, buf: nat, blocks: nat, blockSize: nat) returns (n: nat)
    requires sg.Length == MAX_SEGS && 0 < blocks * blockSize <= MAX_SEGS * TILE
    modifies sg
    ensures n == TileCount(blocks * blockSize) && n <= MAX_SEGS
    ensures sg[..n] == Tiles(buf, blocks * blockSize)
  {
    var total := blocks * blockSize;
    n := (total + TILE - 1) / TILE;
    InitTable(sg, n);
    var len, at := total, buf;
    for i := 0 to n
      invariant at == buf + i * TILE || i == n
      invariant len == if i * TILE < total then total - i * TILE else 0
      invariant forall j :: 0 <= j < i ==> sg[j] == Tiles(buf, total)[j]
      invariant forall j :: i <= j < n ==> sg[j] == Blank(n)[j]
    {
      TileInside(total, i);
      var l := if len > TILE then TILE else len;
      sg[i] := SetBuf(sg[i], at, l);
      len := len - l;
      at := at + l;
    }
    assert sg[..n] == Tiles(buf, total);
  }

  // ---------------------------------------------------------------- bouncing

  datatype Grant = Denied | Granted(ptr: nat)

  predicate NeedsBounce(e: Entry) {
    e.length < LINE || Virt(e) % LINE != 0
  }

  function Bounced(e: Entry, ptr: nat): Entry {
    SetBuf(e, ptr, e.length).(oldAddr := Virt(e), rea := true)
  }

  /** rt_malloc_align has nothing for entry `i`. */
  predicate Starved(sg: seq<Entry>, grants: seq<Grant>, i: nat)
    requires i < |sg| <= |grants|
  {
    NeedsBounce(sg[i]) && grants[i].Denied?
  }

  function AfterBounce(sg: seq<Entry>, grants: seq<Grant>, k: nat): (r: seq<Entry>)
    requires k <= |sg| <= |grants|
    ensures |r| == |sg|
  {
    seq(|sg|, i requires 0 <= i < |sg| =>
      if i < k && NeedsBounce(sg[i]) && grants[i].Granted? then Bounced(sg[i], grants[i].ptr) else sg[i])
  }

  /** The buffers taken from the allocator for the first `k` entries, in order. */
  function Taken(sg: seq<Entry>, grants: seq<Grant>, k: nat): seq<nat>
    requires k <= |sg| <= |grants|
  {
    if k == 0 then []
    else if NeedsBounce(sg[k - 1]) && grants[k - 1].Granted? then Taken(sg, grants, k - 1) + [grants[k - 1].ptr]
    else Taken(sg, grants, k - 1)
  }

  /** The buffers of the replaced entries, in order. */
  function Replaced(sg: seq<Entry>): seq<nat> {
    if sg == [] then []
    else
      var n := |sg| - 1;
      if sg[n].rea then Replaced(sg[..n]) + [Virt(sg[n])] else Replaced(sg[..n])
  }

  predicate Untouched(sg: seq<Entry>) {
    forall i :: 0 <= i < |sg| ==> !sg[i].rea
  }

  /** Walking the list finds exactly the buffers that were taken. */
  lemma {:induction false} ReplacedAreTaken(sg: seq<Entry>, grants: seq<Grant>, k: nat, j: nat)
    requires k <= |sg| <= |grants| && Untouched(sg) && j <= |sg|
    ensures Replaced(AfterBounce(sg, grants, k)[..j]) == Taken(sg, grants, if j < k then j else k)
  {
    if j > 0 {
      var a := AfterBounce(sg, grants, k);
      assert a[..j][..j - 1] == a[..j - 1];
      ReplacedAreTaken(sg, grants, k, j - 1);
    }
  }

  /** __map_sg for a read; `freed` lists the buffers its rollback frees, in order. */
  method BounceSg(sg: array<Entry>, n: nat, grants: seq<Grant>) returns (fail: bool, freed: seq<nat>)
    requires n <= sg.Length && n <= |grants| && Untouched(sg[..n])
    modifies sg
    ensures fail <==> exists i :: 0 <= i < n && Starved(old(sg[..n]), grants, i)
    ensures !fail ==> freed == [] && sg[..n] == AfterBounce(old(sg[..n]), grants, n)
    ensures fail ==> exists f ::
      (0 <= f < n && Starved(old(sg[..n]), grants, f)
       && (forall i :: 0 <= i < f ==> !Starved(old(sg[..n]), grants, i))
       && freed == Taken(old(sg[..n]), grants, f))
  {
    ghost var before := sg[..n];
    fail, freed := false, [];
    var i := 0;
    while i < n
      invariant i <= n && sg[..n] == AfterBounce(before, grants, i)
      invariant forall j :: 0 <= j < i ==> !Starved(before, grants, j)
    {
      var e := sg[i];
      assert e == AfterBounce(before, grants, i)[i] == before[i];
      if NeedsBounce(e) {
        if grants[i].Denied? {
          fail := true;
          break;
        }
        sg[i] := SetBuf(e, grants[i].ptr, e.length).(oldAddr := Virt(e), rea := true);
      }
      assert sg[..n] == AfterBounce(before, grants, i + 1);
      i := i + 1;
    }
    if fail {
      freed := FreeReplaced(sg, n);
      assert sg[..n] == sg[..n][..n];
      ReplacedAreTaken(before, grants, i, n);
      assert Starved(before, grants, i);
    }
  }

  method FreeReplaced(sg: array<Entry>, n: nat) returns (freed: seq<nat>)
    requires n <= sg.Length
    ensures freed == Replaced(sg[..n])
  {
    freed := [];
    for i := 0 to n
      invariant freed == Replaced(sg[..i])
    {
      assert sg[..i + 1][..i] == sg[..i];
      if sg[i].rea { freed := freed + [Virt(sg[i])]; }
    }
  }

  // ---------------------------------------------------------------- mapping

  /** One rt_hw_cpu_dcache_ops call: invalidate for a read, flush for a write. */
  datatype CacheOp = CacheOp(addr: nat, size: nat, invalidate: bool)

  function Mapped(sg: seq<Entry>, phys: nat -> nat): seq<Entry> {
    seq(|sg|, i requires 0 <= i < |sg| => sg[i].(dmaAddress := phys(Virt(sg[i]))))
  }

  /** What _dma_sync asks for when an entry is mapped. */
  function SyncOp(e: Entry, read: bool): CacheOp {
    CacheOp(Virt(e), e.length, read)
  }

  function CacheOps(sg: seq<Entry>, read: bool): seq<CacheOp> {
    seq(|sg|, i requires 0 <= i < |sg| => SyncOp(sg[i], read))
  }

  /** __sdhci_dma_map_sg */
  method DmaMapSg(sg: array<Entry>, n: nat, read: bool, phys: nat -> nat) returns (ops: seq<CacheOp>)
    requires n <= sg.Length
    modifies sg
    ensures sg[..n] == Mapped(old(sg[..n]), phys) && ops == CacheOps(old(sg[..n]), read)
  {
    ghost var before := sg[..n];
    ops := [];
    for i := 0 to n
      invariant forall j :: 0 <= j < n ==> sg[j] == if j < i then Mapped(before, phys)[j] else before[j]
      invariant |ops| == i && forall j :: 0 <= j < i ==> ops[j] == CacheOps(before, read)[j]
    {
      var va := Virt(sg[i]);
      sg[i] := sg[i].(dmaAddress := phys(va));
      ops := ops + [CacheOp(va, sg[i].length, read)];
    }
  }

  // ---------------------------------------------------------------- handing back

  /** Copy one bounced entry back to where the caller wanted it. */
  function EntryBack(m: Memory, e: Entry, phys: nat -> nat): Memory {
    if e.rea then Copy(m, phys(e.oldAddr), phys(Virt(e)), e.length) else m
  }

  function Returned(m: Memory, sg: seq<Entry>, phys: nat -> nat): Memory {
    if sg == [] then m
    else
      var n := |sg| - 1;
      EntryBack(Returned(m, sg[..n], phys), sg[n], phys)
  }

  /** __sdhci_dma_unmap_sg_attrs; `freed` lists the buffers it frees, in order. */
  method DmaUnmapSg(m: Memory, sg: array<Entry>, n: nat, read: bool, phys: nat -> nat)
    returns (m': Memory, freed: seq<nat>)
    requires n <= sg.Length
    ensures m' == if read then Returned(m, sg[..n], phys) else m
    ensures freed == if read then Replaced(sg[..n]) else []
  {
    m', freed := m, [];
    if read {
      for i := 0 to n
        invariant m' == Returned(m, sg[..i], phys) && freed == Replaced(sg[..i])
      {
        assert sg[..i + 1][..i] == sg[..i];
        if sg[i].rea {
          m' := Copy(m', phys(sg[i].oldAddr), phys(Virt(sg[i])), sg[i].length);
          freed := freed + [Virt(sg[i])];
        }
      }
    }
  }

  // ---------------------------------------------------------------- cache lines

  function RoundUp(size: nat): nat {
    (size + LINE - 1) / LINE * LINE
  }

  /** A cache operation works on whole lines: the one of byte `a` is among them. */
  predicate Touches(op: CacheOp, a: nat) {
    op.size > 0 && op.addr / LINE <= a / LINE <= (op.addr + op.size - 1) / LINE
  }

  /** The line of byte `a` is one that mapping the entry for a read touches. */
  predicate InTouchedLine(e: Entry, a: nat) {
    Touches(SyncOp(e, true), a)
  }

  /** Invalidating the entry discards nothing but the entry, or its own bounce buffer. */
  ghost predicate OwnsItsLines(e: Entry) {
    forall a: nat :: InTouchedLine(e, a) ==> Virt(e) <= a < Virt(e) + (if e.rea then RoundUp(e.length) else e.length)
  }

  predicate GrantsAligned(grants: seq<Grant>) {
    forall i :: 0 <= i < |grants| && grants[i].Granted? ==> grants[i].ptr % LINE == 0
  }

  lemma LinesOf(e: Entry, size: nat)
    requires Virt(e) % LINE == 0 && 0 < e.length && size % LINE == 0 && size == RoundUp(e.length)
    ensures forall a: nat :: InTouchedLine(e, a) <==> Virt(e) <= a < Virt(e) + size
  {
    var v := Virt(e);
    forall a: nat ensures InTouchedLine(e, a) <==> v <= a < v + size {
      assert (v + e.length - 1) / LINE == v / LINE + (e.length - 1) / LINE;
      assert size == ((e.length - 1) / LINE + 1) * LINE;
      assert a == a / LINE * LINE + a % LINE;
    }
  }

  /** The byte behind a part line lies in a line the entry touches. */
  lemma PartLine(e: Entry)
    requires Virt(e) % LINE == 0 && e.length % LINE != 0
    ensures InTouchedLine(e, Virt(e) + e.length)
  {
    Rounded(e.length);
    hide RoundUp, InTouchedLine, Virt;
    LinesOf(e, RoundUp(e.length));
  }

  /** An entry of a read owns the lines it invalidates exactly when it was replaced or its length
      is a multiple of the line size: an aligned entry of 100 bytes does not. */
  lemma EntryOwnership(e: Entry, ptr: nat)
    requires 0 < e.length && !e.rea && ptr % LINE == 0
    ensures var e' := if NeedsBounce(e) then Bounced(e, ptr) else e;
      Virt(e') % LINE == 0 && (OwnsItsLines(e') <==> NeedsBounce(e) || e.length % LINE == 0)
  {
    var e' := if NeedsBounce(e) then Bounced(e, ptr) else e;
    Rounded(e.length);
    LinesOf(e', RoundUp(e.length));
    if !NeedsBounce(e) && e.length % LINE != 0 { PartLine(e'); }
    hide Virt, InTouchedLine, RoundUp;
  }

  lemma Rounded(size: nat)
    ensures RoundUp(size) >= size && RoundUp(size) % LINE == 0
    ensures RoundUp(size) == size <==> size % LINE == 0
  {
  }

  function LastTile(len: nat): nat
    requires 0 < len
  {
    TileInside(len, TileCount(len) - 1);
    len - (TileCount(len) - 1) * TILE
  }

  lemma WholeLines(b: int, k: int)
    ensures (b + 64 * k) % 64 == b % 64
  {
  }

  /** Every tile starts as far into a cache line as the buffer does. */
  lemma TileStart(buf: nat, len: nat, i: nat)
    requires i < TileCount(len)
    ensures var t := Tiles(buf, len)[i];
      Virt(t) % LINE == buf % LINE && t.length > 0 && !t.rea
  {
    TileInside(len, i);
    WholeLines(buf, i * 0x400);
    hide TileCount;
  }

  /** One entry of a buffer, after bouncing. */
  lemma TileOwnership(buf: nat, len: nat, grants: seq<Grant>, i: nat)
    requires |grants| == TileCount(len) && GrantsAligned(grants) && i < |grants|
    requires !Starved(Tiles(buf, len), grants, i)
    ensures var e := AfterBounce(Tiles(buf, len), grants, |grants|)[i];
            var size := Tiles(buf, len)[i].length;
      && Virt(e) % LINE == 0
      && (OwnsItsLines(e) <==> buf % LINE != 0 || size < LINE || size % LINE == 0)
  {
    TileStart(buf, len, i);
    hide Tiles, TileCount, Tile, Virt, OwnsItsLines;
    EntryOwnership(Tiles(buf, len)[i], if grants[i].Granted? then grants[i].ptr else 0);
  }

  lemma TileSizes(buf: nat, len: nat)
    requires 0 < len
    ensures var t := Tiles(buf, len);
            var k := |t| - 1;
      && k >= 0 && t[k].length == LastTile(len) && LastTile(len) % LINE == len % LINE
      && forall i :: 0 <= i < k ==> t[i].length == TILE
  {
    var k := TileCount(len) - 1;
    TileInside(len, k);
    forall i | 0 <= i < k ensures Tiles(buf, len)[i].length == TILE {
      TileInside(len, i);
    }
    assert len == k * TILE + LastTile(len);
  }

  /** All entries of a read own their lines exactly when the buffer does not start on a line, or
      consists of whole lines, or leaves less than a line for its last entry. */
  lemma ListOwnership(buf: nat, len: nat, grants: seq<Grant>)
    requires 0 < len && |grants| == TileCount(len) && GrantsAligned(grants)
    requires forall i :: 0 <= i < |grants| ==> !Starved(Tiles(buf, len), grants, i)
    ensures var sg := AfterBounce(Tiles(buf, len), grants, |grants|);
      && (forall i :: 0 <= i < |sg| ==> Virt(sg[i]) % LINE == 0)
      && ((forall i :: 0 <= i < |sg| ==> OwnsItsLines(sg[i]))
          <==> buf % LINE != 0 || len % LINE == 0 || LastTile(len) < LINE)
  {
    var sg := AfterBounce(Tiles(buf, len), grants, |grants|);
    var k := |sg| - 1;
    TileSizes(buf, len);
    forall i | 0 <= i < |sg|
      ensures Virt(sg[i]) % LINE == 0
      ensures i < k ==> OwnsItsLines(sg[i])
      ensures i == k ==> (OwnsItsLines(sg[i]) <==> buf % LINE != 0 || len % LINE == 0 || LastTile(len) < LINE)
    {
      TileOwnership(buf, len, grants, i);
      hide OwnsItsLines, Virt, LastTile, AfterBounce, Tiles, TileCount;
    }
    hide *;
    assert 0 <= k < |sg| && (OwnsItsLines(sg[k]) <==> buf % LINE != 0 || len % LINE == 0 || LastTile(len) < LINE);
  }

  /** Reading 100 bytes to a line-aligned address replaces nothing, and invalidates the 28 bytes
      behind them along with them. */
  lemma AlignedHundred()
    ensures var t := Tiles(0x1000, 100);
      && |t| == 1 && !NeedsBounce(t[0]) && AfterBounce(t, [Denied], 1) == t
      && InTouchedLine(t[0], 0x1000 + 100) && !OwnsItsLines(t[0])
  {
    var t := Tiles(0x1000, 100);
    assert |t| == 1 && t[0] == Tile(0x1000, 100, 0);
    assert Virt(t[0]) == 0x1000 && t[0].length == 100;
    assert InTouchedLine(t[0], 0x1064);
  }
}

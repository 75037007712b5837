/** A DMA read from the caller's buffer to the card and back. */
module ReadPipeline {
  import opened Memories
  import opened AdmaTable
  import opened AlignBuffer
  import opened ScatterGather
  import opened Caches
  import opened AdmaHosts

  // ---------------------------------------------------------------- virtual and bus addresses

  /** virt_to_phys keeps page offsets and never gives two addresses the same place. */
  ghost predicate Translates(phys: nat -> nat) {
    && OneToOne(phys)
    && (forall a: nat :: phys(a) % PAGE == a % PAGE)
  }

  ghost predicate Contiguous(phys: nat -> nat, a: nat, n: nat) {
    forall x: nat :: a <= x < a + n ==> phys(x) == phys(a) + (x - a)
  }

  function MapPhys(phys: nat -> nat, addrs: seq<nat>): (r: seq<nat>)
    ensures |r| == |addrs|
  {
    seq(|addrs|, k requires 0 <= k < |addrs| => phys(addrs[k]))
  }

  lemma MapConcat(phys: nat -> nat, a: seq<nat>, b: seq<nat>)
    ensures MapPhys(phys, a + b) == MapPhys(phys, a) + MapPhys(phys, b)
  {
  }

  lemma MapRange(phys: nat -> nat, a: nat, n: nat)
    requires Contiguous(phys, a, n)
    ensures MapPhys(phys, Range(a, n)) == Range(phys(a), n)
  {
    assert n > 0 ==> phys(a) == phys(a) + 0;
    forall k | 0 <= k < n ensures MapPhys(phys, Range(a, n))[k] == phys(a) + k {
      assert a <= a + k < a + n;
    }
  }

  lemma MapMember(phys: nat -> nat, addrs: seq<nat>, a: nat)
    requires Translates(phys)
    ensures phys(a) in MapPhys(phys, addrs) <==> a in addrs
  {
    if a in addrs {
      var k :| 0 <= k < |addrs| && addrs[k] == a;
      assert MapPhys(phys, addrs)[k] == phys(a);
    }
  }

  lemma MapDistinct(phys: nat -> nat, addrs: seq<nat>)
    requires Translates(phys) && Distinct(addrs)
    ensures Distinct(MapPhys(phys, addrs))
  {
  }

  // ---------------------------------------------------------------- where entries lie

  function Home(e: Entry): nat {
    if e.rea then e.oldAddr else Virt(e)
  }

  /** Where the bytes of the entries belong, in order. */
  function Homes(sg: seq<Entry>): seq<nat> {
    if sg == [] then []
    else
      var n := |sg| - 1;
      Homes(sg[..n]) + Range(Home(sg[n]), sg[n].length)
  }

  predicate Disjoint(a: nat, n: nat, b: nat, k: nat) {
    a + n <= b || b + k <= a
  }

  predicate PairwiseDisjoint(sg: seq<Entry>) {
    forall i, j :: 0 <= i < j < |sg| ==> Disjoint(Virt(sg[i]), sg[i].length, Virt(sg[j]), sg[j].length)
  }

  lemma LastApart(sg: seq<Entry>)
    requires sg != [] && PairwiseDisjoint(sg)
    ensures var n := |sg| - 1;
      PairwiseDisjoint(sg[..n]) && Apart(Covered(sg[..n]), Range(Virt(sg[n]), sg[n].length))
  {
    var n := |sg| - 1;
    hide Covered, Virt;
    forall a | a in Covered(sg[..n]) ensures a !in Range(Virt(sg[n]), sg[n].length) {
      CoveredWhere(sg[..n], a);
      var i :| 0 <= i < n && Virt(sg[..n][i]) <= a < Virt(sg[..n][i]) + sg[..n][i].length;
      assert Disjoint(Virt(sg[i]), sg[i].length, Virt(sg[n]), sg[n].length);
    }
  }

  lemma {:induction false} DistinctCovered(sg: seq<Entry>)
    requires PairwiseDisjoint(sg)
    ensures Distinct(Covered(sg))
  {
    if sg != [] {
      var n := |sg| - 1;
      LastApart(sg);
      assert Covered(sg) == Covered(sg[..n]) + Range(Virt(sg[n]), sg[n].length);
      hide Covered, PairwiseDisjoint, Virt, Distinct, Apart;
      DistinctCovered(sg[..n]);
      DistinctParts(Covered(sg[..n]), Range(Virt(sg[n]), sg[n].length));
    }
  }

  /** What the table builder is given are the bus addresses of what the entries cover. */
  lemma {:induction false} PlainIsCovered(sg: seq<Entry>, phys: nat -> nat)
    requires forall i :: 0 <= i < |sg| ==> Contiguous(phys, Virt(sg[i]), sg[i].length)
    ensures Plain(Segs(Mapped(sg, phys))) == MapPhys(phys, Covered(sg))
  {
    if sg != [] {
      var n := |sg| - 1;
      PlainIsCovered(sg[..n], phys);
      assert Segs(Mapped(sg, phys))[..n] == Segs(Mapped(sg[..n], phys));
      MapRange(phys, Virt(sg[n]), sg[n].length);
      MapConcat(phys, Covered(sg[..n]), Range(Virt(sg[n]), sg[n].length));
    }
  }

  /** Replacing entries does not change where their bytes belong. */
  lemma {:induction false} HomesStay(sg: seq<Entry>, grants: seq<Grant>, k: nat, j: nat)
    requires k <= |sg| <= |grants| && Untouched(sg) && j <= |sg|
    ensures Homes(AfterBounce(sg, grants, k)[..j]) == Covered(sg[..j])
  {
    if j > 0 {
      var a := AfterBounce(sg, grants, k);
      assert a[..j][..j - 1] == a[..j - 1] && sg[..j][..j - 1] == sg[..j - 1];
      HomesStay(sg, grants, k, j - 1);
    }
  }

  // ---------------------------------------------------------------- copying back

  /** No replacement lies where bytes belong, and everything is contiguous on the bus. */
  ghost predicate Laid(sg: seq<Entry>, phys: nat -> nat) {
    && Distinct(Homes(sg))
    && (forall i :: 0 <= i < |sg| ==>
          && Contiguous(phys, Virt(sg[i]), sg[i].length) && Contiguous(phys, Home(sg[i]), sg[i].length)
          && (sg[i].rea ==> Apart(Homes(sg), Range(Virt(sg[i]), sg[i].length))))
  }

  lemma LaidStep(sg: seq<Entry>, phys: nat -> nat)
    requires sg != [] && Laid(sg, phys)
    ensures var n := |sg| - 1;
            var home := Range(Home(sg[n]), sg[n].length);
      && Laid(sg[..n], phys) && Homes(sg) == Homes(sg[..n]) + home && Apart(Homes(sg[..n]), home)
      && Apart(Homes(sg[..n]), Range(Virt(sg[n]), sg[n].length))
      && Contiguous(phys, Virt(sg[n]), sg[n].length) && Contiguous(phys, Home(sg[n]), sg[n].length)
  {
    var n := |sg| - 1;
    DistinctParts(Homes(sg[..n]), Range(Home(sg[n]), sg[n].length));
    hide Contiguous;
  }

  /** Copying back touches nothing but where bytes belong. */
  lemma {:induction false} BackTouchesHomes(m: Memory, sg: seq<Entry>, phys: nat -> nat, a: nat)
    requires Laid(sg, phys) && a !in MapPhys(phys, Homes(sg))
    ensures Peek(Returned(m, sg, phys), a) == Peek(m, a)
  {
    if sg != [] {
      var n := |sg| - 1;
      var e := sg[n];
      LaidStep(sg, phys);
      MapConcat(phys, Homes(sg[..n]), Range(Home(e), e.length));
      MapRange(phys, Home(e), e.length);
      BackTouchesHomes(m, sg[..n], phys, a);
      Addresses(phys(Home(e)), e.length, a);
      CopyAt(Returned(m, sg[..n], phys), phys(e.oldAddr), phys(Virt(e)), e.length, a);
    }
  }

  /** Sources are not overwritten by what is copied back before them. */
  lemma BackSparesSources(m: Memory, sg: seq<Entry>, phys: nat -> nat, a: nat, n: nat)
    requires Laid(sg, phys) && Translates(phys) && Contiguous(phys, a, n) && Apart(Homes(sg), Range(a, n))
    ensures Fetch(Returned(m, sg, phys), Range(phys(a), n)) == Fetch(m, Range(phys(a), n))
  {
    var m1 := Returned(m, sg, phys);
    MapRange(phys, a, n);
    forall x | x in Range(phys(a), n) ensures Peek(m1, x) == Peek(m, x) {
      var k :| 0 <= k < n && Range(phys(a), n)[k] == x;
      assert x == phys(a + k) by { assert MapPhys(phys, Range(a, n))[k] == x; }
      assert Range(a, n)[k] == a + k;
      MapMember(phys, Homes(sg), a + k);
      BackTouchesHomes(m, sg, phys, x);
    }
    FetchSame(m, m1, Range(phys(a), n));
  }

  /** After the copying back, the homes hold what the entries covered. */
  lemma {:induction false} BackMeaning(m: Memory, sg: seq<Entry>, phys: nat -> nat)
    requires Laid(sg, phys) && Translates(phys)
    ensures Fetch(Returned(m, sg, phys), MapPhys(phys, Homes(sg))) == Fetch(m, MapPhys(phys, Covered(sg)))
  {
    if sg != [] {
      var n := |sg| - 1;
      var e, front := sg[n], sg[..n];
      var m1 := Returned(m, front, phys);
      var m2 := EntryBack(m1, e, phys);
      LaidStep(sg, phys);
      assert Returned(m, sg, phys) == m2 && Covered(sg) == Covered(front) + Range(Virt(e), e.length);
      BackLast(m1, e, phys);
      BackSparesFront(m1, sg, phys);
      hide Laid, Homes, Covered, Returned, EntryBack, Translates, Contiguous, Home;
      BackMeaning(m, front, phys);
      BackSparesSources(m, front, phys, Virt(e), e.length);
      MapRange(phys, Virt(e), e.length);
      MapRange(phys, Home(e), e.length);
      MapConcat(phys, Homes(front), Range(Home(e), e.length));
      MapConcat(phys, Covered(front), Range(Virt(e), e.length));
      FetchConcat(m2, MapPhys(phys, Homes(front)), Range(phys(Home(e)), e.length));
      FetchConcat(m, MapPhys(phys, Covered(front)), Range(phys(Virt(e)), e.length));
      hide *;
    }
  }

  lemma BackLast(m: Memory, e: Entry, phys: nat -> nat)
    ensures Fetch(EntryBack(m, e, phys), Range(phys(Home(e)), e.length)) == Fetch(m, Range(phys(Virt(e)), e.length))
  {
    if e.rea { FetchCopied(m, phys(e.oldAddr), phys(Virt(e)), e.length); }
  }

  lemma BackSparesFront(m: Memory, sg: seq<Entry>, phys: nat -> nat)
    requires sg != [] && Laid(sg, phys) && Translates(phys)
    ensures var n := |sg| - 1;
            var homes := MapPhys(phys, Homes(sg[..n]));
      Fetch(EntryBack(m, sg[n], phys), homes) == Fetch(m, homes)
  {
    var n := |sg| - 1;
    var e := sg[n];
    var homes := MapPhys(phys, Homes(sg[..n]));
    LaidStep(sg, phys);
    if e.rea {
      MapRange(phys, Home(e), e.length);
      forall a | a in homes ensures !(phys(e.oldAddr) <= a < phys(e.oldAddr) + e.length) {
        if phys(e.oldAddr) <= a < phys(e.oldAddr) + e.length {
          var k := a - phys(e.oldAddr);
          assert Range(Home(e), e.length)[k] == Home(e) + k;
          assert MapPhys(phys, Range(Home(e), e.length))[k] == phys(Home(e) + k);
          MapMember(phys, Homes(sg[..n]), Home(e) + k);
        }
      }
      FetchBelow(m, phys(e.oldAddr), phys(Virt(e)), e.length, homes);
    }
  }

  // ---------------------------------------------------------------- the whole read

  /** What the allocator promises about the buffers it grants for `sg`: aligned, and clear of the
      caller's buffer and of each other. */
  predicate Honest(sg: seq<Entry>, grants: seq<Grant>)
    requires |sg| == |grants|
  {
    && GrantsAligned(grants)
    && (forall i, j :: 0 <= i < |sg| && 0 <= j < |sg| && Replaces(sg, grants, i) ==>
          Disjoint(grants[i].ptr, sg[i].length, Virt(sg[j]), sg[j].length))
    && (forall i, j :: 0 <= i < j < |sg| && Replaces(sg, grants, i) && Replaces(sg, grants, j) ==>
          Disjoint(grants[i].ptr, sg[i].length, grants[j].ptr, sg[j].length))
  }

  predicate Replaces(sg: seq<Entry>, grants: seq<Grant>, i: nat)
    requires i < |sg| == |grants|
  {
    NeedsBounce(sg[i]) && grants[i].Granted?
  }

  /** The entries of the request once its buffer has been cut up and bounced. */
  function Prepared(buf: nat, len: nat, grants: seq<Grant>): seq<Entry>
    requires |grants| == TileCount(len)
  {
    AfterBounce(Tiles(buf, len), grants, |grants|)
  }

  /** The circumstances of a read of `len` bytes to `buf` that the driver cannot influence. */
  ghost predicate Setting(style: Style, buf: nat, len: nat, grants: seq<Grant>, phys: nat -> nat, align: nat) {
    && 0 < len <= MAX_SEGS * TILE && |grants| == TileCount(len)
    && (forall i :: 0 <= i < |grants| ==> !Starved(Tiles(buf, len), grants, i))
    && Honest(Tiles(buf, len), grants)
    && Translates(phys) && SlotsFit(style, align, MAX_SEGS)
    && (forall i :: 0 <= i < |grants| ==>
          && Reachable(style, phys, align, Virt(Prepared(buf, len, grants)[i]), Prepared(buf, len, grants)[i].length)
          && Contiguous(phys, Virt(Tiles(buf, len)[i]), Tiles(buf, len)[i].length))
  }

  /** Memory the controller can reach: contiguous on the bus, addressable by a descriptor, and no
      part of the align buffer. */
  ghost predicate Reachable(style: Style, phys: nat -> nat, align: nat, a: nat, n: nat) {
    && Contiguous(phys, a, n) && phys(a) + n <= AddressSpace(style.use64)
    && forall x: nat :: a <= x < a + n ==> !InSlots(phys(x), align, MAX_SEGS)
  }

  lemma TilesDisjoint(buf: nat, len: nat)
    ensures PairwiseDisjoint(Tiles(buf, len))
  {
    var t := Tiles(buf, len);
    forall i, j | 0 <= i < j < |t| ensures Disjoint(Virt(t[i]), t[i].length, Virt(t[j]), t[j].length) {
      TileInside(len, i);
      TileInside(len, j);
      assert (i + 1) * TILE <= j * TILE;
    }
  }

  lemma PreparedDisjoint(sg: seq<Entry>, grants: seq<Grant>)
    requires |sg| == |grants| && PairwiseDisjoint(sg) && Honest(sg, grants)
    ensures PairwiseDisjoint(AfterBounce(sg, grants, |sg|))
  {
    var a := AfterBounce(sg, grants, |sg|);
    forall i, j | 0 <= i < j < |a| ensures Disjoint(Virt(a[i]), a[i].length, Virt(a[j]), a[j].length) {
      assert Disjoint(Virt(sg[i]), sg[i].length, Virt(sg[j]), sg[j].length);
      if Replaces(sg, grants, j) { assert Disjoint(grants[j].ptr, sg[j].length, Virt(sg[i]), sg[i].length); }
    }
  }

  /** Every bounced entry lies off every home. */
  lemma BounceOffHomes(sg: seq<Entry>, grants: seq<Grant>, i: nat)
    requires |sg| == |grants| && Honest(sg, grants) && i < |sg| && Replaces(sg, grants, i)
    ensures Apart(Covered(sg), Range(grants[i].ptr, sg[i].length))
  {
    forall x | x in Covered(sg) ensures x !in Range(grants[i].ptr, sg[i].length) {
      CoveredWhere(sg, x);
      var j :| 0 <= j < |sg| && Virt(sg[j]) <= x < Virt(sg[j]) + sg[j].length;
      assert Disjoint(grants[i].ptr, sg[i].length, Virt(sg[j]), sg[j].length);
    }
  }

  lemma {:induction false} MappingOnlyMaps(m: Memory, sg: seq<Entry>, phys: nat -> nat)
    ensures Returned(m, Mapped(sg, phys), phys) == Returned(m, sg, phys)
    ensures Replaced(Mapped(sg, phys)) == Replaced(sg)
  {
    if sg != [] {
      var n := |sg| - 1;
      MappingOnlyMaps(m, sg[..n], phys);
      assert Mapped(sg, phys)[..n] == Mapped(sg[..n], phys);
    }
  }

  lemma EntryAfter(sg: seq<Entry>, grants: seq<Grant>, i: nat)
    requires |sg| == |grants| && i < |sg| && GrantsAligned(grants) && !Starved(sg, grants, i) && !sg[i].rea
    ensures var e := AfterBounce(sg, grants, |grants|)[i];
      && e == (if Replaces(sg, grants, i) then Bounced(sg[i], grants[i].ptr) else sg[i])
      && Home(e) == Virt(sg[i]) && e.length == sg[i].length
      && Virt(e) % LINE == 0 && (e.rea <==> Replaces(sg, grants, i))
  {
  }

  lemma PreparedEntry(style: Style, buf: nat, len: nat, grants: seq<Grant>, phys: nat -> nat, align: nat, i: nat)
    requires Setting(style, buf, len, grants, phys, align) && i < |grants|
    ensures var t := Tiles(buf, len);
            var e := Prepared(buf, len, grants)[i];
      && Home(e) == Virt(t[i]) && e.length == t[i].length && 0 < e.length <= TILE
      && Virt(e) % LINE == 0 && (e.rea <==> Replaces(t, grants, i))
      && (e.rea ==> Virt(e) == grants[i].ptr)
      && Reachable(style, phys, align, Virt(e), e.length) && Contiguous(phys, Home(e), e.length)
  {
    TilesCover(buf, len);
    hide Tile, Reachable, Contiguous, Tiles, Disjoint, PairwiseDisjoint, Translates, TileCount;
    EntryAfter(Tiles(buf, len), grants, i);
  }

  lemma MappedHead(phys: nat -> nat, v: nat)
    requires Translates(phys) && v % LINE == 0
    ensures Head(phys(v)) == 0
  {
    assert phys(v) % PAGE == v % PAGE;
  }

  /** After bouncing, every entry starts on a cache line, so none needs the align buffer. */
  lemma PreparedSound(style: Style, buf: nat, len: nat, grants: seq<Grant>, phys: nat -> nat, align: nat)
    requires Setting(style, buf, len, grants, phys, align)
    ensures var segs := Segs(Mapped(Prepared(buf, len, grants), phys));
      AllSound(style, segs) && NoneShort(segs)
  {
    var sg := Prepared(buf, len, grants);
    var segs := Segs(Mapped(sg, phys));
    assert Translates(phys);
    forall i | 0 <= i < |segs| ensures Sound(style, segs[i]) {
      PreparedEntry(style, buf, len, grants, phys, align, i);
      MappedHead(phys, Virt(sg[i]));
      hide Setting, Translates, Prepared, Contiguous, Head;
    }
    hide Setting, Prepared, Head;
  }

  /** Entries the controller can reach keep clear of the align buffer. */
  lemma {:induction false} OffSlots(style: Style, sg: seq<Entry>, phys: nat -> nat, align: nat)
    requires forall i :: 0 <= i < |sg| ==> Reachable(style, phys, align, Virt(sg[i]), sg[i].length)
    ensures forall a :: a in MapPhys(phys, Covered(sg)) ==> !InSlots(a, align, MAX_SEGS)
    ensures Plain(Segs(Mapped(sg, phys))) == MapPhys(phys, Covered(sg))
  {
    PlainIsCovered(sg, phys);
    forall a | a in MapPhys(phys, Covered(sg)) ensures !InSlots(a, align, MAX_SEGS) {
      var k :| 0 <= k < |Covered(sg)| && phys(Covered(sg)[k]) == a;
      CoveredWhere(sg, Covered(sg)[k]);
      var i :| 0 <= i < |sg| && Virt(sg[i]) <= Covered(sg)[k] < Virt(sg[i]) + sg[i].length;
      assert Reachable(style, phys, align, Virt(sg[i]), sg[i].length);
    }
  }

  lemma PreparedDistinct(sg: seq<Entry>, grants: seq<Grant>, phys: nat -> nat)
    requires |sg| == |grants| && PairwiseDisjoint(sg) && Honest(sg, grants) && Translates(phys)
    ensures Distinct(MapPhys(phys, Covered(AfterBounce(sg, grants, |grants|))))
  {
    hide PairwiseDisjoint, Honest, Translates, AfterBounce;
    PreparedDisjoint(sg, grants);
    DistinctCovered(AfterBounce(sg, grants, |grants|));
    MapDistinct(phys, Covered(AfterBounce(sg, grants, |grants|)));
  }

  lemma PreparedSeparate(style: Style, buf: nat, len: nat, grants: seq<Grant>, phys: nat -> nat, align: nat)
    requires Setting(style, buf, len, grants, phys, align)
    ensures var sg := Prepared(buf, len, grants);
            var segs := Segs(Mapped(sg, phys));
      Separate(segs, align, MAX_SEGS) && Plain(segs) == MapPhys(phys, Covered(sg))
  {
    var sg := Prepared(buf, len, grants);
    assert Honest(Tiles(buf, len), grants) && Translates(phys);
    forall i | 0 <= i < |sg| ensures Reachable(style, phys, align, Virt(sg[i]), sg[i].length) {
      PreparedEntry(style, buf, len, grants, phys, align, i);
    }
    hide Honest, Translates, Reachable, Tiles, Virt, Mapped, Segs, Plain, MapPhys, Covered, InSlots, Distinct,
        NoneShort;
    PreparedSound(style, buf, len, grants, phys, align);
    TilesDisjoint(buf, len);
    PreparedDistinct(Tiles(buf, len), grants, phys);
    OffSlots(style, sg, phys, align);
    hide Setting, Prepared, AfterBounce;
  }

  lemma PreparedHomes(buf: nat, len: nat, grants: seq<Grant>)
    requires 0 < len <= MAX_SEGS * TILE && |grants| == TileCount(len)
    ensures Homes(Prepared(buf, len, grants)) == Range(buf, len) == Covered(Tiles(buf, len))
  {
    var t := Tiles(buf, len);
    TilesCover(buf, len);
    HomesStay(t, grants, |t|, |t|);
    assert Prepared(buf, len, grants)[..|t|] == Prepared(buf, len, grants) && t[..|t|] == t;
  }

  lemma PreparedLaid(style: Style, buf: nat, len: nat, grants: seq<Grant>, phys: nat -> nat, align: nat)
    requires Setting(style, buf, len, grants, phys, align)
    ensures Laid(Prepared(buf, len, grants), phys) && Homes(Prepared(buf, len, grants)) == Range(buf, len)
  {
    var t, sg := Tiles(buf, len), Prepared(buf, len, grants);
    PreparedHomes(buf, len, grants);
    assert Honest(t, grants);
    forall i | 0 <= i < |sg|
      ensures Contiguous(phys, Virt(sg[i]), sg[i].length) && Contiguous(phys, Home(sg[i]), sg[i].length)
      ensures sg[i].rea ==> Apart(Homes(sg), Range(Virt(sg[i]), sg[i].length))
    {
      PreparedEntry(style, buf, len, grants, phys, align, i);
      hide Setting, Prepared, Honest, Home, Homes, Contiguous, Apart;
      if sg[i].rea { BounceOffHomes(t, grants, i); }
    }
    hide Setting, Prepared, Honest, Contiguous, Apart;
  }

  /** What a read leaves in memory: the table is built for the bounced and mapped entries, the
      controller stores what the card sends, the heads are copied out, the entries copied back. */
  function AfterRead(m: Memory, style: Style, sg: seq<Entry>, phys: nat -> nat, align: nat, card: seq<byte>): Memory
    requires var said := Interpret(Table(style, Segs(sg), align)); said.Some? && |said.value| == |card|
  {
    var stored := Deposit(m, Interpret(Table(style, Segs(sg), align)).value, card);
    Returned(CopiedOut(stored, Segs(sg), align), sg, phys)
  }

  /** End to end: for any buffer of 1 to 524288 bytes the caller finds exactly the card's bytes in
      it; no memory but the buffer, the replacements and the align buffer changes; and unmapping
      frees exactly the buffers bouncing took, each once. */
  lemma ReadEndToEnd(m: Memory, style: Style, buf: nat, len: nat, grants: seq<Grant>, phys: nat -> nat,
      align: nat, card: seq<byte>)
    requires Setting(style, buf, len, grants, phys, align) && |card| == len
    ensures var sg := Mapped(Prepared(buf, len, grants), phys);
            var said := Interpret(Table(style, Segs(sg), align));
      && said.Some? && |said.value| == len
      && Fetch(AfterRead(m, style, sg, phys, align, card), MapPhys(phys, Range(buf, len))) == card
      && (forall a :: (a !in MapPhys(phys, Range(buf, len)) && a !in MapPhys(phys, Covered(Prepared(buf, len, grants)))
                       && !InSlots(a, align, MAX_SEGS))
            ==> Peek(AfterRead(m, style, sg, phys, align, card), a) == Peek(m, a))
      && Replaced(sg) == Taken(Tiles(buf, len), grants, |grants|)
  {
    var plain := Prepared(buf, len, grants);
    var sg := Mapped(plain, phys);
    var segs := Segs(sg);
    PreparedSound(style, buf, len, grants, phys, align);
    PreparedSeparate(style, buf, len, grants, phys, align);
    PreparedLaid(style, buf, len, grants, phys, align);
    PreparedTotal(style, buf, len, grants, phys, align);
    FewerSlots(segs, align);
    ReadRoundTrip(m, style, segs, align, card);
    var m2 := CopiedOut(Deposit(m, Interpret(Table(style, segs, align)).value, card), segs, align);
    MappingOnlyMaps(m2, plain, phys);
    BackMeaning(m2, plain, phys);
    forall a | a !in MapPhys(phys, Range(buf, len)) ensures Peek(Returned(m2, plain, phys), a) == Peek(m2, a) {
      BackTouchesHomes(m2, plain, phys, a);
    }
    FreedIsTaken(buf, len, grants);
  }

  lemma FreedIsTaken(buf: nat, len: nat, grants: seq<Grant>)
    requires 0 < len <= MAX_SEGS * TILE && |grants| == TileCount(len)
    ensures Replaced(Prepared(buf, len, grants)) == Taken(Tiles(buf, len), grants, |grants|)
  {
    TilesCover(buf, len);
    ReplacedAreTaken(Tiles(buf, len), grants, |grants|, |grants|);
    assert Prepared(buf, len, grants)[..|grants|] == Prepared(buf, len, grants);
  }

  lemma {:induction false} TotalIsCovered(sg: seq<Entry>, phys: nat -> nat)
    ensures Total(Segs(Mapped(sg, phys))) == |Covered(sg)| == |Homes(sg)|
  {
    if sg != [] {
      var n := |sg| - 1;
      TotalIsCovered(sg[..n], phys);
      assert Segs(Mapped(sg, phys))[..n] == Segs(Mapped(sg[..n], phys));
    }
  }

  lemma PreparedTotal(style: Style, buf: nat, len: nat, grants: seq<Grant>, phys: nat -> nat, align: nat)
    requires Setting(style, buf, len, grants, phys, align)
    ensures var segs := Segs(Mapped(Prepared(buf, len, grants), phys));
      Total(segs) == len && 1 <= |segs| <= MAX_SEGS && SlotsFit(style, align, |segs|)
  {
    PreparedLaid(style, buf, len, grants, phys, align);
    TotalIsCovered(Prepared(buf, len, grants), phys);
    TilesCover(buf, len);
  }

  lemma FewerSlots(segs: seq<Seg>, align: nat)
    requires |segs| <= MAX_SEGS && Separate(segs, align, MAX_SEGS)
    ensures Separate(segs, align, |segs|)
    ensures forall a :: !InSlots(a, align, MAX_SEGS) ==> !InSlots(a, align, |segs|)
  {
  }

  // ---------------------------------------------------------------- through the cache

  /** What the controller is told once every entry starts on a cache line. */
  lemma SaidIsCovered(style: Style, buf: nat, len: nat, grants: seq<Grant>, phys: nat -> nat, align: nat)
    requires Setting(style, buf, len, grants, phys, align)
    ensures var sg := Prepared(buf, len, grants);
            var said := Interpret(Table(style, Segs(Mapped(sg, phys)), align));
      said.Some? && said.value == MapPhys(phys, Covered(sg)) && Distinct(said.value)
  {
    var segs := Segs(Mapped(Prepared(buf, len, grants), phys));
    PreparedSound(style, buf, len, grants, phys, align);
    PreparedSeparate(style, buf, len, grants, phys, align);
    PreparedTotal(style, buf, len, grants, phys, align);
    PreparedHeads(style, buf, len, grants, phys, align);
    hide Setting, Prepared, Separate;
    TableMeaning(style, segs, align);
    FlatIsPlain(segs, align);
    FewerSlots(segs, align);
    FlatDistinct(segs, align, |segs|);
  }

  lemma PreparedHeads(style: Style, buf: nat, len: nat, grants: seq<Grant>, phys: nat -> nat, align: nat)
    requires Setting(style, buf, len, grants, phys, align)
    ensures forall i :: 0 <= i < |grants| ==> Head(Segs(Mapped(Prepared(buf, len, grants), phys))[i].addr) == 0
  {
    forall i | 0 <= i < |grants| ensures Head(Segs(Mapped(Prepared(buf, len, grants), phys))[i].addr) == 0 {
      PreparedEntry(style, buf, len, grants, phys, align, i);
      MappedHead(phys, Virt(Prepared(buf, len, grants)[i]));
      hide Setting, Translates, Prepared, Contiguous, Head;
    }
  }

  lemma {:induction false} FlatIsPlain(segs: seq<Seg>, align: nat)
    requires forall i :: 0 <= i < |segs| ==> Head(segs[i].addr) == 0
    ensures Flat(segs, align) == Plain(segs)
  {
    hide Head, SegFlat, Slots;
    if segs != [] {
      var n := |segs| - 1;
      FlatLast(segs, align);
      SegFlatIsPlain(segs[n], align + 4 * Slots(segs[..n]));
      hide Flat, Plain;
      FlatIsPlain(segs[..n], align);
    }
  }

  lemma FlatLast(segs: seq<Seg>, align: nat)
    requires segs != []
    ensures var n := |segs| - 1;
      && Flat(segs, align) == Flat(segs[..n], align) + SegFlat(segs[n], align + 4 * Slots(segs[..n]))
      && Plain(segs) == Plain(segs[..n]) + Range(segs[n].addr, segs[n].len)
  {
    hide Head, SegFlat, Slots;
  }

  lemma SegFlatIsPlain(s: Seg, slot: nat)
    requires Head(s.addr) == 0
    ensures SegFlat(s, slot) == Range(s.addr, s.len)
  {
    hide Head;
  }

  /** With a cache: whatever it holds when the list is mapped, the CPU finds the card's bytes in the
      entries once the controller has stored them. */
  lemma CachedRead(c: Cached, style: Style, buf: nat, len: nat, grants: seq<Grant>, phys: nat -> nat,
      align: nat, card: seq<byte>)
    requires Setting(style, buf, len, grants, phys, align) && |card| == len
    ensures var sg := Prepared(buf, len, grants);
            var said := Interpret(Table(style, Segs(Mapped(sg, phys)), align));
            var c1 := PerformAll(c, CacheOps(sg, true), phys);
      && said.Some? && |said.value| == len
      && Seen(Cached(Deposit(c1.mem, said.value, card), c1.held), phys, Covered(sg)) == card
  {
    var sg := Prepared(buf, len, grants);
    var c1 := PerformAll(c, CacheOps(sg, true), phys);
    SaidIsCovered(style, buf, len, grants, phys, align);
    PreparedLaid(style, buf, len, grants, phys, align);
    TotalIsCovered(sg, phys);
    hide Setting, Prepared, CacheOps, Interpret, Table, Homes, Laid, Covered;
    MappedForRead(c, sg, phys);
    StoredIsSeen(c1, phys, Covered(sg), card);
  }

  lemma StoredIsSeen(c: Cached, phys: nat -> nat, addrs: seq<nat>, card: seq<byte>)
    requires Distinct(MapPhys(phys, addrs)) && |card| == |addrs| && forall a :: a in addrs ==> a !in c.held
    ensures Seen(Cached(Deposit(c.mem, MapPhys(phys, addrs), card), c.held), phys, addrs) == card
  {
    var m := Deposit(c.mem, MapPhys(phys, addrs), card);
    DepositFetch(c.mem, MapPhys(phys, addrs), card);
    forall k | 0 <= k < |addrs| ensures View(Cached(m, c.held), phys, addrs[k]) == card[k] {
      assert Fetch(m, MapPhys(phys, addrs))[k] == card[k] && addrs[k] in addrs;
    }
  }

  // ---------------------------------------------------------------- step by step

  /** The controller's part: store the card's bytes where the table in memory says. */
  method Transfer(host: AdmaHost, ghost used: nat, card: seq<byte>)
    requires used <= host.table.Length
    requires var said := Interpret(host.table[..used]); said.Some? && |said.value| == |card|
    modifies host`mem
    ensures host.mem == Deposit(old(host.mem), Interpret(host.table[..used]).value, card)
  {
    StopsAtEnd(host.table[..used], host.table[used..]);
    assert host.table[..used] + host.table[used..] == host.table[..];
    host.mem := Deposit(host.mem, Interpret(host.table[..]).value, card);
  }

  predicate Plentiful(sg: seq<Entry>, grants: seq<Grant>)
    requires |sg| == |grants|
  {
    forall i :: 0 <= i < |sg| ==> !Starved(sg, grants, i)
  }

  /** A whole DMA read as the port performs it: _sg_init, __map_sg, dma_map_sg, the table, the
      transfer, the heads, dma_unmap_sg.  It fails only for want of replacement buffers; then
      memory is as it was and everything taken has been freed.  Of what the cache held before the
      mapping, `held'` is left. */
  method ReadRequest(host: AdmaHost, sg: array<Entry>, buf: nat, blocks: nat, blockSize: nat,
                     grants: seq<Grant>, phys: nat -> nat, card: seq<byte>, held: map<nat, byte>)
    returns (ok: bool, freed: seq<nat>, held': map<nat, byte>)
    requires host.Valid() && sg.Length == MAX_SEGS && Room(host.style, MAX_SEGS) + 1 <= host.table.Length
    requires |card| == blocks * blockSize && 0 < |card| <= MAX_SEGS * TILE && |grants| == TileCount(|card|)
    requires Plentiful(Tiles(buf, |card|), grants) ==> Setting(host.style, buf, |card|, grants, phys, host.alignAddr)
    modifies host.table, host`mem, sg
    ensures ok <==> Plentiful(Tiles(buf, |card|), grants)
    ensures ok ==>
      && Fetch(host.mem, MapPhys(phys, Range(buf, |card|))) == card
      && freed == Taken(Tiles(buf, |card|), grants, |grants|)
    ensures ok ==> (forall a :: (a !in MapPhys(phys, Range(buf, |card|)) && !InSlots(a, host.alignAddr, MAX_SEGS)
                                 && a !in MapPhys(phys, Covered(Prepared(buf, |card|, grants))))
                      ==> Peek(host.mem, a) == Peek(old(host.mem), a))
    ensures ok ==> forall a :: a in Covered(Prepared(buf, |card|, grants)) ==> a !in held'
    ensures !ok ==> host.mem == old(host.mem) && held' == held
    ensures !ok ==> exists f ::
      (0 <= f < |grants| && Starved(Tiles(buf, |card|), grants, f)
       && (forall i :: 0 <= i < f ==> !Starved(Tiles(buf, |card|), grants, i))
       && freed == Taken(Tiles(buf, |card|), grants, f))
  {
    TilesCover(buf, |card|);
    var n := SgInit(sg, buf, blocks, blockSize);
    var fail;
    fail, freed := BounceSg(sg, n, grants);
    if fail {
      return false, freed, held;
    }
    ok := true;
    assert sg[..n] == Prepared(buf, |card|, grants);
    ReadEndToEnd(host.mem, host.style, buf, |card|, grants, phys, host.alignAddr, card);
    hide Setting, Prepared, AfterRead, Interpret, Table, Segs, Mapped, Covered, MapPhys, Fetch, InSlots, Taken,
        Replaced, CacheOps;
    MappedForRead(Cached(host.mem, held), Prepared(buf, |card|, grants), phys);
    freed, held' := MoveData(host, sg, n, phys, card, held);
  }

  /** From dma_map_sg to dma_unmap_sg. */
  method MoveData(host: AdmaHost, sg: array<Entry>, n: nat, phys: nat -> nat, card: seq<byte>, held: map<nat, byte>)
    returns (freed: seq<nat>, held': map<nat, byte>)
    requires host.Valid() && n <= sg.Length && Room(host.style, n) + 1 <= host.table.Length
    requires var said := Interpret(Table(host.style, Segs(Mapped(sg[..n], phys)), host.alignAddr));
      said.Some? && |said.value| == |card|
    modifies host.table, host`mem, sg
    ensures host.mem == AfterRead(old(host.mem), host.style, Mapped(old(sg[..n]), phys), phys, host.alignAddr, card)
    ensures freed == Replaced(Mapped(old(sg[..n]), phys))
    ensures held' == PerformAll(Cached(old(host.mem), held), CacheOps(old(sg[..n]), true), phys).held
  {
    MappedForRead(Cached(host.mem, held), sg[..n], phys);
    hide Interpret, Table, Segs, Mapped, CopiedOut, Returned, Deposit, Replaced, CacheOps;
    var ops := DmaMapSg(sg, n, true, phys);
    var synced := PerformAll(Cached(host.mem, held), ops, phys);
    host.mem, held' := synced.mem, synced.held;
    var used := host.TablePre(sg, n, false);
    Transfer(host, used, card);
    host.TablePost(sg, n, true);
    var mem;
    mem, freed := DmaUnmapSg(host.mem, sg, n, true, phys);
    host.mem := mem;
  }
}

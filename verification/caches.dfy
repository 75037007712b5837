/** A data cache over memory, and what the cache operations of the mapping do with it. */
module Caches {
  import opened Memories
  import opened ScatterGather

  /** Memory, and the bytes the cache holds over it, by the address the CPU uses. */
  datatype Cached = Cached(mem: Memory, held: map<nat, byte>)

  /** What the CPU reads. */
  function View(c: Cached, phys: nat -> nat, a: nat): byte {
    if a in c.held then c.held[a] else Peek(c.mem, phys(a))
  }

  function Seen(c: Cached, phys: nat -> nat, addrs: seq<nat>): seq<byte> {
    seq(|addrs|, k requires 0 <= k < |addrs| => View(c, phys, addrs[k]))
  }

  ghost predicate OneToOne(phys: nat -> nat) {
    forall a, b :: a != b ==> phys(a) != phys(b)
  }

  // ---------------------------------------------------------------- one operation

  /** The bytes of the lines an operation touches. */
  function LineSpan(op: CacheOp): seq<nat> {
    if op.size == 0 then []
    else
      var first := op.addr / LINE;
      Range(first * LINE, ((op.addr + op.size - 1) / LINE - first + 1) * LINE)
  }

  lemma SpanIsTouched(op: CacheOp, a: nat)
    ensures a in LineSpan(op) <==> Touches(op, a)
  {
    if op.size > 0 {
      var first, last := op.addr / LINE, (op.addr + op.size - 1) / LINE;
      InRange(first * LINE, (last - first + 1) * LINE, a);
      assert a == a / LINE * LINE + a % LINE;
    }
  }

  lemma InRange(a: nat, n: nat, x: nat)
    ensures x in Range(a, n) <==> a <= x < a + n
  {
    if a <= x < a + n { assert Range(a, n)[x - a] == x; }
  }

  /** Memory once the held bytes among `addrs` have been written back. */
  function WrittenBack(c: Cached, phys: nat -> nat, addrs: seq<nat>): Memory {
    if addrs == [] then c.mem
    else
      var n := |addrs| - 1;
      var m := WrittenBack(c, phys, addrs[..n]);
      if addrs[n] in c.held then m[phys(addrs[n]) := c.held[addrs[n]]] else m
  }

  lemma {:induction false} WrittenBackAt(c: Cached, phys: nat -> nat, addrs: seq<nat>, a: nat)
    requires OneToOne(phys)
    ensures Peek(WrittenBack(c, phys, addrs), phys(a)) ==
      if a in addrs && a in c.held then c.held[a] else Peek(c.mem, phys(a))
  {
    if addrs != [] {
      var n := |addrs| - 1;
      assert a in addrs <==> a in addrs[..n] || a == addrs[n];
      WrittenBackAt(c, phys, addrs[..n], a);
    }
  }

  /** Flushing writes the lines back, invalidating drops them. */
  function Perform(c: Cached, op: CacheOp, phys: nat -> nat): Cached {
    if op.invalidate then c.(held := map a | a in c.held && !Touches(op, a) :: c.held[a])
    else c.(mem := WrittenBack(c, phys, LineSpan(op)))
  }

  function PerformAll(c: Cached, ops: seq<CacheOp>, phys: nat -> nat): Cached {
    if ops == [] then c
    else Perform(PerformAll(c, ops[..|ops| - 1], phys), ops[|ops| - 1], phys)
  }

  predicate AnyTouches(ops: seq<CacheOp>, a: nat) {
    exists i :: 0 <= i < |ops| && Touches(ops[i], a)
  }

  lemma AnyTouchesLast(ops: seq<CacheOp>, a: nat)
    requires ops != []
    ensures var n := |ops| - 1; AnyTouches(ops, a) <==> AnyTouches(ops[..n], a) || Touches(ops[n], a)
  {
    var n := |ops| - 1;
    if AnyTouches(ops, a) && !Touches(ops[n], a) {
      var i :| 0 <= i < |ops| && Touches(ops[i], a);
      assert ops[..n][i] == ops[i];
    }
    if AnyTouches(ops[..n], a) {
      var i :| 0 <= i < n && Touches(ops[..n][i], a);
      assert ops[i] == ops[..n][i];
    }
  }

  // ---------------------------------------------------------------- all of them

  /** Flushing changes nothing the CPU sees, and memory shows it wherever a line was flushed. */
  lemma {:induction false} Flushed(c: Cached, ops: seq<CacheOp>, phys: nat -> nat, a: nat)
    requires OneToOne(phys) && forall i :: 0 <= i < |ops| ==> !ops[i].invalidate
    ensures var c' := PerformAll(c, ops, phys);
      && c'.held == c.held && View(c', phys, a) == View(c, phys, a)
      && (AnyTouches(ops, a) ==> Peek(c'.mem, phys(a)) == View(c, phys, a))
  {
    if ops != [] {
      var n := |ops| - 1;
      Flushed(c, ops[..n], phys, a);
      var c1 := PerformAll(c, ops[..n], phys);
      AnyTouchesLast(ops, a);
      SpanIsTouched(ops[n], a);
      WrittenBackAt(c1, phys, LineSpan(ops[n]), a);
      hide Touches, AnyTouches, LineSpan, WrittenBack;
    }
  }

  /** Invalidating changes no memory, and drops exactly the bytes of the lines touched. */
  lemma {:induction false} Invalidated(c: Cached, ops: seq<CacheOp>, phys: nat -> nat, a: nat)
    requires forall i :: 0 <= i < |ops| ==> ops[i].invalidate
    ensures var c' := PerformAll(c, ops, phys);
      && c'.mem == c.mem && (a in c'.held <==> a in c.held && !AnyTouches(ops, a))
      && (a in c'.held ==> c'.held[a] == c.held[a])
  {
    if ops != [] {
      var n := |ops| - 1;
      Invalidated(c, ops[..n], phys, a);
      AnyTouchesLast(ops, a);
      hide Touches, AnyTouches;
    }
  }

  lemma CoveredTouched(sg: seq<Entry>, read: bool, a: nat)
    requires a in Covered(sg)
    ensures AnyTouches(CacheOps(sg, read), a)
  {
    CoveredWhere(sg, a);
    var i :| 0 <= i < |sg| && Virt(sg[i]) <= a < Virt(sg[i]) + sg[i].length;
    assert Touches(CacheOps(sg, read)[i], a);
  }

  /** Mapping for a write: memory holds, at every address of the list, what the CPU has written
      there, and the CPU sees what it saw. */
  lemma MappedForWrite(c: Cached, sg: seq<Entry>, phys: nat -> nat)
    requires OneToOne(phys)
    ensures var c' := PerformAll(c, CacheOps(sg, false), phys);
      && c'.held == c.held
      && (forall a :: View(c', phys, a) == View(c, phys, a))
      && (forall a :: a in Covered(sg) ==> Peek(c'.mem, phys(a)) == View(c, phys, a))
  {
    var ops := CacheOps(sg, false);
    var c' := PerformAll(c, ops, phys);
    Flushed(c, ops, phys, 0);
    forall a
      ensures View(c', phys, a) == View(c, phys, a)
      ensures a in Covered(sg) ==> Peek(c'.mem, phys(a)) == View(c, phys, a)
    {
      Flushed(c, ops, phys, a);
      if a in Covered(sg) { CoveredTouched(sg, false, a); }
    }
  }

  /** Mapping for a read: memory is left alone, and the cache holds no byte of the list any more;
      it still holds what lies in none of its lines. */
  lemma MappedForRead(c: Cached, sg: seq<Entry>, phys: nat -> nat)
    ensures var c' := PerformAll(c, CacheOps(sg, true), phys);
      && c'.mem == c.mem
      && (forall a :: a in Covered(sg) ==> a !in c'.held)
      && (forall a :: !AnyTouches(CacheOps(sg, true), a) ==> View(c', phys, a) == View(c, phys, a))
  {
    var ops := CacheOps(sg, true);
    var c' := PerformAll(c, ops, phys);
    Invalidated(c, ops, phys, 0);
    forall a
      ensures a in Covered(sg) ==> a !in c'.held
      ensures !AnyTouches(ops, a) ==> View(c', phys, a) == View(c, phys, a)
    {
      Invalidated(c, ops, phys, a);
      if a in Covered(sg) { CoveredTouched(sg, true, a); }
    }
  }

  // ---------------------------------------------------------------- foreign bytes

  /** Byte `a` belongs to no entry, nor to what the allocator gave along with a replacement. */
  predicate Foreign(sg: seq<Entry>, a: nat) {
    forall i :: 0 <= i < |sg| ==> !(Virt(sg[i]) <= a < Virt(sg[i]) + OwnSize(sg[i]))
  }

  function OwnSize(e: Entry): nat {
    if e.rea then RoundUp(e.length) else e.length
  }

  /** Whatever the cache holds, mapping the list for a read loses nothing the CPU has written to
      a foreign byte. */
  ghost predicate Lossless(sg: seq<Entry>, phys: nat -> nat) {
    forall c: Cached, a: nat :: Foreign(sg, a) ==>
      View(PerformAll(c, CacheOps(sg, true), phys), phys, a) == View(c, phys, a)
  }

  lemma OwnedIsLossless(sg: seq<Entry>, phys: nat -> nat)
    requires forall i :: 0 <= i < |sg| ==> OwnsItsLines(sg[i])
    ensures Lossless(sg, phys)
  {
    var ops := CacheOps(sg, true);
    forall c: Cached, a: nat | Foreign(sg, a) ensures View(PerformAll(c, ops, phys), phys, a) == View(c, phys, a) {
      if AnyTouches(ops, a) {
        var i :| 0 <= i < |ops| && Touches(ops[i], a);
        assert OwnsItsLines(sg[i]) && InTouchedLine(sg[i], a);
        assert false;
      }
      Invalidated(c, ops, phys, a);
    }
  }

  /** A foreign byte in a touched line is lost if only the cache has it. */
  lemma Loses(sg: seq<Entry>, phys: nat -> nat, i: nat, a: nat)
    requires i < |sg| && InTouchedLine(sg[i], a) && Foreign(sg, a)
    ensures !Lossless(sg, phys)
  {
    var c := Cached(map[], map[a := 1]);
    var ops := CacheOps(sg, true);
    assert Touches(ops[i], a);
    Invalidated(c, ops, phys, a);
    assert View(PerformAll(c, ops, phys), phys, a) == 0 && View(c, phys, a) == 1;
  }

  /** Mapping a buffer for a read loses no foreign byte, whatever the cache holds, if and only if
      the buffer does not start on a line, or consists of whole lines, or leaves less than a line
      for its last entry. */
  lemma BufferOwnership(buf: nat, len: nat, grants: seq<Grant>, phys: nat -> nat)
    requires 0 < len && |grants| == TileCount(len) && GrantsAligned(grants)
    requires forall i :: 0 <= i < |grants| ==> !Starved(Tiles(buf, len), grants, i)
    ensures Lossless(AfterBounce(Tiles(buf, len), grants, |grants|), phys)
        <==> buf % 64 != 0 || len % 64 == 0 || LastTile(len) < 64
  {
    var sg := AfterBounce(Tiles(buf, len), grants, |grants|);
    ListOwnership(buf, len, grants);
    hide OwnsItsLines, Lossless, Tiles, AfterBounce, LastTile;
    if buf % 64 != 0 || len % 64 == 0 || LastTile(len) < 64 {
      OwnedIsLossless(sg, phys);
    } else {
      AlignedTail(buf, len, grants);
      Loses(sg, phys, |sg| - 1, buf + len);
    }
  }

  /** In the remaining case nothing is replaced, and the line of the last byte goes on behind the
      buffer. */
  lemma AlignedTail(buf: nat, len: nat, grants: seq<Grant>)
    requires 0 < len && |grants| == TileCount(len)
    requires buf % LINE == 0 && len % LINE != 0 && LastTile(len) >= LINE
    ensures var sg := AfterBounce(Tiles(buf, len), grants, |grants|);
      |sg| > 0 && InTouchedLine(sg[|sg| - 1], buf + len) && Foreign(sg, buf + len)
  {
    var t := Tiles(buf, len);
    var sg := AfterBounce(t, grants, |grants|);
    var k := |sg| - 1;
    TileSizes(buf, len);
    forall i | 0 <= i < |sg|
      ensures sg[i] == t[i] && !sg[i].rea && Virt(sg[i]) + sg[i].length <= buf + len
      ensures i == k ==> Virt(sg[i]) + sg[i].length == buf + len && Virt(sg[i]) % LINE == 0 && sg[i].length % LINE != 0
    {
      TileStart(buf, len, i);
      TileInside(len, i);
      hide OwnsItsLines;
    }
    PartLine(sg[k]);
  }
}

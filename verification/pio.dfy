/** Programmed I/O: blocks of bytes in scatter-gather pieces against 32-bit words in the Buffer
    Data Port, little end first. */
module Pio {
  import opened Memories

  type u32 = x: int | 0 <= x < 0x1_0000_0000

  // ---------------------------------------------------------------- words

  /** The value of at most four bytes, the first one lowest. */
  function Pack(b: seq<byte>): nat {
    if b == [] then 0 else b[0] as nat + 0x100 * Pack(b[1..])
  }

  function Pow256(n: nat): nat {
    if n == 0 then 1 else 0x100 * Pow256(n - 1)
  }

  lemma {:induction false} PackBound(b: seq<byte>)
    ensures Pack(b) < Pow256(|b|)
  {
    if b != [] { PackBound(b[1..]); }
  }

  lemma {:induction false} PackAppend(b: seq<byte>, x: byte)
    ensures Pack(b + [x]) == Pack(b) + x as nat * Pow256(|b|)
  {
    if b == [] {
      assert (b + [x])[1..] == [];
    } else {
      assert (b + [x])[1..] == b[1..] + [x] && (b + [x])[0] == b[0];
      PackAppend(b[1..], x);
      Scale(x as nat, Pow256(|b| - 1));
    }
  }

  lemma Scale(x: nat, p: nat)
    ensures x * (0x100 * p) == 0x100 * (x * p)
  {
  }

  lemma PackFits(b: seq<byte>)
    requires |b| <= 4
    ensures Pack(b) < 0x1_0000_0000
  {
    PackBound(b);
    assert Pow256(4) == 0x1_0000_0000 && Pow256(3) == 0x100_0000 && Pow256(2) == 0x1_0000 && Pow256(1) == 0x100;
  }

  /** The words that carry the bytes of one block; the last one may be partly filled. */
  function Words(b: seq<byte>): (w: seq<u32>)
    ensures |w| == (|b| + 3) / 4
  {
    if b == [] then []
    else
      var k := if |b| < 4 then |b| else 4;
      PackFits(b[..k]);
      [Pack(b[..k])] + Words(b[k..])
  }

  /** The first `n` bytes a word gives when its low byte is taken off repeatedly. */
  function Split(w: nat, n: nat): (b: seq<byte>)
    ensures |b| == n
  {
    if n == 0 then [] else [(w % 0x100) as byte] + Split(w / 0x100, n - 1)
  }

  /** The first `n` bytes of a list of words. */
  function Bytes(w: seq<u32>, n: nat): (b: seq<byte>)
    requires n <= 4 * |w|
    ensures |b| == n
    decreases n
  {
    if n == 0 then []
    else
      var k := if n < 4 then n else 4;
      Split(w[0], k) + Bytes(w[1..], n - k)
  }

  lemma {:induction false} SplitPack(b: seq<byte>)
    ensures Split(Pack(b), |b|) == b
  {
    if b != [] {
      SplitPack(b[1..]);
      assert Pack(b) % 0x100 == b[0] as nat && Pack(b) / 0x100 == Pack(b[1..]);
    }
  }

  /** The first byte is the lowest of its word, and a last word that is not full ends in zeros. */
  lemma LowByteFirst(a: byte, b: byte, c: byte, d: byte, e: byte)
    ensures Words([a, b, c, d, e]) ==
      [a as int + 256 * (b as int) + 65536 * (c as int) + 16777216 * (d as int), e as int]
  {
    var s := [a, b, c, d, e];
    assert s[..4] == [a, b, c, d] && s[4..] == [e] && [e][..1] == [e] && [e][1..] == [];
    PackFirst(a, [b, c, d]);
    PackFirst(b, [c, d]);
    PackFirst(c, [d]);
    PackFirst(d, []);
    PackFirst(e, []);
    hide Pack;
    assert [a] + [b, c, d] == [a, b, c, d] && [b] + [c, d] == [b, c, d] && [c] + [d] == [c, d];
    assert [d] + [] == [d] && [e] + [] == [e];
    PackFits([a, b, c, d]);
    PackFits([e]);
    assert Words([e]) == [Pack([e])];
    assert Words(s) == [Pack([a, b, c, d])] + Words([e]);
  }

  lemma PackFirst(x: byte, rest: seq<byte>)
    ensures Pack([x] + rest) == x as int + 256 * Pack(rest) && Pack([]) == 0
  {
    assert ([x] + rest)[1..] == rest;
  }

  /** What is written as words reads back as the same bytes. */
  lemma {:induction false} RoundTrip(b: seq<byte>)
    ensures Bytes(Words(b), |b|) == b
    decreases |b|
  {
    if b != [] {
      var k := if |b| < 4 then |b| else 4;
      SplitPack(b[..k]);
      RoundTrip(b[k..]);
      assert Words(b)[1..] == Words(b[k..]);
    }
  }

  // ---------------------------------------------------------------- pieces

  function Flatten(pieces: seq<seq<byte>>): seq<byte> {
    if pieces == [] then [] else pieces[0] + Flatten(pieces[1..])
  }

  function Capacity(lengths: seq<nat>): nat {
    if lengths == [] then 0 else lengths[0] + Capacity(lengths[1..])
  }

  /** Full words first: a multiple of four bytes can be packed apart from what follows. */
  lemma {:induction false} WordsConcat(a: seq<byte>, b: seq<byte>)
    requires |a| % 4 == 0
    ensures Words(a + b) == Words(a) + Words(b)
    decreases |a|
  {
    if a == [] {
      assert a + b == b;
    } else {
      assert (a + b)[..4] == a[..4] && (a + b)[4..] == a[4..] + b;
      WordsConcat(a[4..], b);
    }
  }

  lemma LastWord(b: seq<byte>)
    requires 0 < |b| <= 4
    ensures Words(b) == [Pack(b)]
  {
    assert b[..|b|] == b;
  }

  /** The writing end: the pieces still to send and the words that have left. */
  class Writer {
    var pieces: seq<seq<byte>>
    var sent: seq<u32>

    constructor (pieces: seq<seq<byte>>)
      ensures this.pieces == pieces && sent == []
    {
      this.pieces, sent := pieces, [];
    }

    /** sg_miter_next with the amount the caller consumes: at most `want` bytes, none skipped. */
    method Take(want: nat) returns (got: seq<byte>)
      requires 0 < want <= |Flatten(pieces)|
      modifies this`pieces
      ensures 0 < |got| <= want && got + Flatten(pieces) == Flatten(old(pieces))
    {
      while pieces[0] == []
        invariant pieces != [] && Flatten(pieces) == Flatten(old(pieces)) && want <= |Flatten(pieces)|
        decreases |pieces|
      {
        pieces := pieces[1..];
      }
      var first := pieces[0];
      var len := if |first| < want then |first| else want;
      got := first[..len];
      pieces := [first[len..]] + pieces[1..];
      assert first == got + first[len..];
    }

    /** Add one byte to the word under construction; it leaves when it is full, or `last`. */
    method Emit(x: byte, last: bool, chunk: nat, scratch: nat, ghost full: seq<byte>, ghost loose: seq<byte>,
        ghost before: seq<u32>)
      returns (chunk': nat, scratch': nat, ghost full': seq<byte>, ghost loose': seq<byte>)
      requires Midway(before, sent, full, loose, chunk, scratch)
      modifies this`sent
      ensures full' + loose' == full + loose + [x]
      ensures if last then loose' == [] && sent == before + Words(full')
              else Midway(before, sent, full', loose', chunk', scratch')
    {
      hide Words, Pow256, Pack, Shift;
      EmitParts(before, sent, full, loose, x);
      PackNothing();
      var shift := Shift(chunk);
      var grown := scratch + x as nat * shift;
      assert grown == Pack(loose + [x]);
      scratch' := grown;
      chunk' := chunk + 1;
      full', loose' := full, loose + [x];
      if chunk' == 4 || last {
        sent := sent + [scratch'];
        chunk', scratch' := 0, 0;
        full', loose' := full + loose + [x], [];
      }
    }

    /** Add the bytes of one piece; `last` says that the block ends with them. */
    method EmitAll(buf: seq<byte>, last: bool, chunk: nat, scratch: nat, ghost full: seq<byte>, ghost loose: seq<byte>,
                   ghost before: seq<u32>)
      returns (chunk': nat, scratch': nat, ghost full': seq<byte>, ghost loose': seq<byte>)
      requires buf != [] && Midway(before, sent, full, loose, chunk, scratch)
      modifies this`sent
      ensures full' + loose' == full + loose + buf
      ensures if last then loose' == [] && sent == before + Words(full')
              else Midway(before, sent, full', loose', chunk', scratch')
    {
      chunk', scratch', full', loose' := chunk, scratch, full, loose;
      hide Words, Midway;
      var i := 0;
      while i < |buf|
        invariant i <= |buf| && full' + loose' == full + loose + buf[..i]
        invariant if last && i == |buf| then loose' == [] && sent == before + Words(full')
                  else Midway(before, sent, full', loose', chunk', scratch')
      {
        assert full + loose + buf[..i] + [buf[i]] == full + loose + buf[..i + 1];
        chunk', scratch', full', loose' :=
            Emit(buf[i], last && i + 1 == |buf|, chunk', scratch', full', loose', before);
        i := i + 1;
      }
      assert buf[..|buf|] == buf;
    }

    /** sdhci_write_block_pio: exactly the next `blksz` bytes leave, as ceil(blksz / 4) words. */
    method WriteBlock(blksz: nat)
      requires blksz <= |Flatten(pieces)|
      modifies this
      ensures sent == old(sent) + Words(Flatten(old(pieces))[..blksz])
      ensures Flatten(pieces) == Flatten(old(pieces))[blksz..]
    {
      ghost var all := Flatten(pieces);
      ghost var full: seq<byte>, loose: seq<byte> := [], [];
      var left: nat, chunk: nat, scratch: nat := blksz, 0, 0;
      while left > 0
        invariant left <= blksz && |full + loose| == blksz - left
        invariant full + loose + Flatten(pieces) == all
        invariant if left > 0 then Midway(old(sent), sent, full, loose, chunk, scratch)
                  else loose == [] && sent == old(sent) + Words(full)
      {
        hide Words, Flatten, Midway;
        var buf := Take(left);
        left := left - |buf|;
        chunk, scratch, full, loose := EmitAll(buf, left == 0, chunk, scratch, full, loose, old(sent));
      }
      assert all[..blksz] == full && all[blksz..] == Flatten(pieces);
    }
  }

  /** `full` has left in whole words, `loose` makes up the word under construction. */
  predicate Midway(before: seq<u32>, sent: seq<u32>, full: seq<byte>, loose: seq<byte>, chunk: nat, scratch: nat) {
    && |full| % 4 == 0 && |loose| == chunk < 4
    && sent == before + Words(full) && scratch == Pack(loose)
  }

  function Shift(chunk: nat): (s: nat)
    requires chunk < 4
    ensures s == Pow256(chunk)
  {
    assert Pow256(3) == 0x100_0000 && Pow256(2) == 0x1_0000 && Pow256(1) == 0x100;
    if chunk == 0 then 1 else if chunk == 1 then 0x100 else if chunk == 2 then 0x1_0000 else 0x100_0000
  }

  lemma EmitParts(before: seq<u32>, sent: seq<u32>, full: seq<byte>, loose: seq<byte>, x: byte)
    requires |full| % 4 == 0 && |loose| < 4 && sent == before + Words(full)
    ensures Pack(loose + [x]) == Pack(loose) + x as nat * Pow256(|loose|) < 0x1_0000_0000
    ensures sent + [Pack(loose + [x])] == before + Words(full + loose + [x])
  {
    PackAppend(loose, x);
    PackFits(loose + [x]);
    WordsConcat(full, loose + [x]);
    LastWord(loose + [x]);
    hide Words, Pow256, Pack;
    assert full + loose + [x] == full + (loose + [x]);
  }

  lemma PackNothing()
    ensures Pack([]) == 0
  {
  }

  // ---------------------------------------------------------------- reading

  lemma {:induction false} BytesAppend(w: seq<u32>, n: nat)
    requires n < 4 * |w|
    ensures Bytes(w, n + 1) == Bytes(w, n) + [ByteAt(w[n / 4], n % 4)]
    decreases n
  {
    if n < 4 {
      FewBytes(w, n);
    } else {
      BytesAppend(w[1..], n - 4);
      NextWord(w, n);
      hide Split, ByteAt;
    }
  }

  lemma FewBytes(w: seq<u32>, n: nat)
    requires n < 4 && w != []
    ensures Bytes(w, n + 1) == Bytes(w, n) + [ByteAt(w[n / 4], n % 4)]
  {
    SplitAppend(w[0], n);
    hide Split, ByteAt;
    assert n / 4 == 0 && n % 4 == n;
  }

  lemma NextWord(w: seq<u32>, n: nat)
    requires 4 <= n < 4 * |w|
    ensures (n - 4) / 4 == n / 4 - 1 && (n - 4) % 4 == n % 4 && w[1..][(n - 4) / 4] == w[n / 4]
  {
  }

  /** Byte `k` of a word. */
  function ByteAt(w: nat, k: nat): byte {
    if k == 0 then (w % 0x100) as byte else ByteAt(w / 0x100, k - 1)
  }

  lemma {:induction false} SplitAppend(w: nat, n: nat)
    ensures Split(w, n + 1) == Split(w, n) + [ByteAt(w, n)]
  {
    if n > 0 { SplitAppend(w / 0x100, n - 1); }
  }

  function Shifted(w: nat, k: nat): nat {
    if k == 0 then w else Shifted(w / 0x100, k - 1)
  }

  lemma {:induction false} ShiftedByte(w: nat, k: nat)
    ensures ByteAt(w, k) == (Shifted(w, k) % 0x100) as byte && Shifted(w, k + 1) == Shifted(w, k) / 0x100
  {
    if k > 0 { ShiftedByte(w / 0x100, k - 1); }
  }

  /** The reading end: the room left in each piece, the bytes stored so far in order, and the
      words the Buffer Data Port will give. */
  class Reader {
    var lengths: seq<nat>
    var stored: seq<byte>
    var port: seq<u32>

    constructor (lengths: seq<nat>, port: seq<u32>)
      ensures this.lengths == lengths && this.port == port && stored == []
    {
      this.lengths, this.port, stored := lengths, port, [];
    }

    /** sg_miter_next with the amount the caller consumes. */
    method Take(want: nat) returns (len: nat)
      requires 0 < want <= Capacity(lengths)
      modifies this`lengths
      ensures 0 < len <= want && len + Capacity(lengths) == Capacity(old(lengths))
    {
      while lengths[0] == 0
        invariant lengths != [] && Capacity(lengths) == Capacity(old(lengths)) && want <= Capacity(lengths)
        decreases |lengths|
      {
        lengths := lengths[1..];
      }
      len := if lengths[0] < want then lengths[0] else want;
      lengths := [lengths[0] - len] + lengths[1..];
    }

    /** sdhci_read_block_pio: ceil(blksz / 4) words are taken, and their first `blksz` bytes stored. */
    method ReadBlock(blksz: nat)
      requires blksz <= Capacity(lengths) && (blksz + 3) / 4 <= |port|
      modifies this
      ensures stored == old(stored) + Bytes(old(port), blksz)
      ensures port == old(port)[(blksz + 3) / 4..]
      ensures Capacity(lengths) == Capacity(old(lengths)) - blksz
    {
      ghost var done := 0;
      var left, chunk, scratch: nat := blksz, 0, 0;
      while left > 0
        invariant 0 <= left <= blksz && done == blksz - left
        invariant Capacity(lengths) == Capacity(old(lengths)) - done
        invariant Reading(old(port), port, done, chunk, scratch) && stored == old(stored) + Bytes(old(port), done)
      {
        var len := Take(left);
        left := left - len;
        hide Bytes, Reading;
        chunk, scratch := TakeBytes(len, chunk, scratch, done, old(port), old(stored));
        done := done + len;
      }
    }

    /** The next `len` bytes go to memory. */
    method TakeBytes(len: nat, chunk: nat, scratch: nat, ghost done: nat, ghost words: seq<u32>,
        ghost before: seq<byte>)
      returns (chunk': nat, scratch': nat)
      requires (done + len + 3) / 4 <= |words|
      requires Reading(words, port, done, chunk, scratch) && stored == before + Bytes(words, done)
      modifies this`port, this`stored
      ensures Reading(words, port, done + len, chunk', scratch') && stored == before + Bytes(words, done + len)
    {
      chunk', scratch' := chunk, scratch;
      hide Bytes, Reading;
      for i := 0 to len
        invariant Reading(words, port, done + i, chunk', scratch') && stored == before + Bytes(words, done + i)
      {
        chunk', scratch' := TakeByte(chunk', scratch', done + i, words, before);
      }
    }

    /** The low byte of the current word goes to memory; a used-up word is replaced first. */
    method TakeByte(chunk: nat, scratch: nat, ghost done: nat, ghost words: seq<u32>, ghost before: seq<byte>)
      returns (chunk': nat, scratch': nat)
      requires done / 4 < |words|
      requires Reading(words, port, done, chunk, scratch) && stored == before + Bytes(words, done)
      modifies this`port, this`stored
      ensures Reading(words, port, done + 1, chunk', scratch') && stored == before + Bytes(words, done + 1)
    {
      ReadingStep(words, done);
      Refilled(words, port, done, chunk, scratch);
      hide Bytes, Shifted, Reading;
      chunk', scratch' := chunk, scratch;
      if chunk' == 0 {
        scratch' := port[0];
        port := port[1..];
        chunk' := 4;
      }
      Consumed(words, port, done, chunk', scratch');
      stored := stored + [(scratch' % 0x100) as byte];
      scratch' := scratch' / 0x100;
      chunk' := chunk' - 1;
    }
  }

  /** `done` bytes have been taken from the port: so many whole words, the last of them shifted. */
  predicate Reading(before: seq<u32>, port: seq<u32>, done: nat, chunk: nat, scratch: nat) {
    && (done + 3) / 4 <= |before| && port == before[(done + 3) / 4..]
    && chunk == (done + 3) / 4 * 4 - done
    && (chunk > 0 ==> scratch == Shifted(before[done / 4], done % 4))
  }

  /** The word the next byte comes from. */
  predicate CurrentWord(before: seq<u32>, port: seq<u32>, done: nat, chunk: nat, scratch: nat)
    requires done / 4 < |before|
  {
    && port == before[done / 4 + 1..] && chunk == 4 - done % 4
    && scratch == Shifted(before[done / 4], done % 4)
  }

  lemma Refilled(before: seq<u32>, port: seq<u32>, done: nat, chunk: nat, scratch: nat)
    requires done / 4 < |before| && Reading(before, port, done, chunk, scratch)
    ensures if chunk > 0 then CurrentWord(before, port, done, chunk, scratch)
            else port != [] && CurrentWord(before, port[1..], done, 4, port[0])
  {
    var q, k := done / 4, done % 4;
    assert done == 4 * q + k;
    assert (done + 3) / 4 == if k == 0 then q else q + 1;
    hide Shifted;
    if k == 0 { assert Shifted(before[q], 0) == before[q] by { Unshifted(before[q]); } }
  }

  lemma Unshifted(w: nat)
    ensures Shifted(w, 0) == w
  {
  }

  lemma Consumed(before: seq<u32>, port: seq<u32>, done: nat, chunk: nat, scratch: nat)
    requires done / 4 < |before| && CurrentWord(before, port, done, chunk, scratch)
    ensures chunk > 0 && scratch == Shifted(before[done / 4], done % 4)
    ensures Reading(before, port, done + 1, chunk - 1, scratch / 0x100)
  {
    var q, k := done / 4, done % 4;
    assert done == 4 * q + k;
    assert (done + 1 + 3) / 4 == q + 1;
    ShiftedByte(before[q], k);
    hide Shifted;
    if k < 3 { assert (done + 1) / 4 == q && (done + 1) % 4 == k + 1; }
  }

  lemma ReadingStep(before: seq<u32>, done: nat)
    requires done / 4 < |before|
    ensures Bytes(before, done + 1) == Bytes(before, done) + [(Shifted(before[done / 4], done % 4) % 0x100) as byte]
  {
    BytesAppend(before, done);
    ShiftedByte(before[done / 4], done % 4);
    hide Bytes;
  }

  // ---------------------------------------------------------------- whole transfers

  /** The words of `n` blocks, each block starting a word of its own. */
  function BlockWords(stream: seq<byte>, blksz: nat, n: nat): seq<u32>
    requires |stream| == n * blksz
  {
    if n == 0 then [] else
      BlockSizes(blksz, n);
      Words(stream[..blksz]) + BlockWords(stream[blksz..], blksz, n - 1)
  }

  lemma BlockSizes(blksz: nat, n: nat)
    requires n > 0
    ensures n * blksz == blksz + (n - 1) * blksz && n * blksz >= blksz
  {
  }

  /** The first word of a block, and the words after it. */
  lemma FirstWord(b: seq<byte>, more: seq<u32>)
    requires b != []
    ensures var k := if |b| < 4 then |b| else 4;
      (Words(b) + more)[0] == Pack(b[..k]) && (Words(b) + more)[1..] == Words(b[k..]) + more
  {
    var k := if |b| < 4 then |b| else 4;
    WordsStep(b);
    PushedFront(Pack(b[..k]), Words(b[k..]), more);
    hide *;
  }

  lemma PushedFront(x: u32, w: seq<u32>, more: seq<u32>)
    ensures ([x] + w + more)[0] == x && ([x] + w + more)[1..] == w + more
  {
    assert [x] + w + more == [x] + (w + more);
  }

  lemma WordsStep(b: seq<byte>)
    requires b != []
    ensures var k := if |b| < 4 then |b| else 4;
      Pack(b[..k]) < 0x1_0000_0000 && Words(b) == [Pack(b[..k])] + Words(b[k..])
  {
    PackFits(b[..if |b| < 4 then |b| else 4]);
    hide Pack;
  }

  /** Reading one block off the front of more words gives that block. */
  lemma {:induction false} BytesOfFirst(b: seq<byte>, more: seq<u32>)
    ensures Bytes(Words(b) + more, |b|) == b
    decreases |b|
  {
    if b != [] {
      var k := if |b| < 4 then |b| else 4;
      SplitPack(b[..k]);
      FirstWord(b, more);
      hide Words, Pack, Split;
      BytesOfFirst(b[k..], more);
      assert b == b[..k] + b[k..];
    }
  }

  /** How many readings of the Present State register in a row say that a block can move. */
  function Leading(ready: seq<bool>): nat {
    if ready == [] || !ready[0] then 0 else 1 + Leading(ready[1..])
  }

  function Least(a: nat, b: nat): nat {
    if a < b then a else b
  }

  /** What has left as `sent` and what is left as `rest` make up the whole stream, block by block. */
  predicate Accounted(stream: seq<byte>, blksz: nat, total: nat, blocks: nat, rest: seq<byte>, sent: seq<u32>)
    requires |stream| == total * blksz
  {
    && |rest| == blocks * blksz <= |stream| && rest == stream[|stream| - |rest|..]
    && sent + BlockWords(rest, blksz, blocks) == BlockWords(stream, blksz, total)
  }

  lemma NothingMoved(stream: seq<byte>, blksz: nat, total: nat)
    requires |stream| == total * blksz
    ensures Accounted(stream, blksz, total, total, stream, [])
  {
    hide BlockWords;
  }

  lemma BlockMoves(stream: seq<byte>, blksz: nat, total: nat, blocks: nat, rest: seq<byte>, sent: seq<u32>)
    requires blocks > 0 && |stream| == total * blksz && Accounted(stream, blksz, total, blocks, rest, sent)
    ensures blksz <= |rest|
    ensures Accounted(stream, blksz, total, blocks - 1, rest[blksz..], sent + Words(rest[..blksz]))
  {
    BlockSizes(blksz, blocks);
    hide Words;
    var more := BlockWords(rest[blksz..], blksz, blocks - 1);
    assert BlockWords(rest, blksz, blocks) == Words(rest[..blksz]) + more;
    assert sent + (Words(rest[..blksz]) + more) == sent + Words(rest[..blksz]) + more;
  }

  /** A write by programmed I/O: `blocks` counts down over any number of interrupts. */
  class PioWrite {
    const blksz: nat
    const total: nat
    const writer: Writer
    const stream: seq<byte>
    var blocks: nat

    constructor (blksz: nat, total: nat, pieces: seq<seq<byte>>)
      requires |Flatten(pieces)| == total * blksz
      ensures Valid() && blocks == total && fresh(writer)
      ensures this.blksz == blksz && this.total == total && stream == Flatten(pieces)
    {
      this.blksz, this.total, this.blocks := blksz, total, total;
      this.stream := Flatten(pieces);
      this.writer := new Writer(pieces);
      new;
      NothingMoved(Flatten(pieces), blksz, total);
      hide Accounted, Flatten;
    }

    ghost predicate Valid()
      reads this, writer
    {
      blocks <= total && |stream| == total * blksz
      && Accounted(stream, blksz, total, blocks, Flatten(writer.pieces), writer.sent)
    }

    method OneBlock()
      requires Valid() && blocks > 0
      modifies this`blocks, writer
      ensures Valid() && blocks == old(blocks) - 1
    {
      ghost var rest, sent := Flatten(writer.pieces), writer.sent;
      BlockMoves(stream, blksz, total, blocks, rest, sent);
      hide Flatten, Words, Accounted, BlockWords;
      writer.WriteBlock(blksz);
      assert Flatten(writer.pieces) == rest[blksz..] && writer.sent == sent + Words(rest[..blksz]);
      blocks := blocks - 1;
    }

    /** sdhci_transfer_pio for a write. */
    method Transfer(ready: seq<bool>)
      requires Valid()
      modifies this`blocks, writer
      ensures Valid() && blocks == old(blocks) - Least(old(blocks), Leading(ready))
    {
      if blocks == 0 { return; }
      var n := 0;
      while n < |ready| && ready[n]
        invariant Valid() && 0 < blocks && n <= |ready|
        invariant blocks == old(blocks) - n && Leading(ready) == n + Leading(ready[n..])
      {
        OneBlock();
        assert ready[n..][1..] == ready[n + 1..];
        if blocks == 0 { break; }
        n := n + 1;
      }
    }
  }

  /** A read by programmed I/O from a card that sends `stream`. */
  class PioRead {
    const blksz: nat
    const total: nat
    const reader: Reader
    const stream: seq<byte>
    var blocks: nat

    constructor (blksz: nat, total: nat, lengths: seq<nat>, stream: seq<byte>)
      requires |stream| == total * blksz == Capacity(lengths)
      ensures Valid() && blocks == total && fresh(reader)
      ensures this.blksz == blksz && this.total == total && this.stream == stream
    {
      this.blksz, this.total, this.blocks, this.stream := blksz, total, total, stream;
      this.reader := new Reader(lengths, BlockWords(stream, blksz, total));
    }

    /** The first (total - blocks) * blksz bytes of the stream are in place. */
    ghost predicate Valid()
      reads this, reader
    {
      && blocks <= total && |stream| == total * blksz && Capacity(reader.lengths) == blocks * blksz
      && |reader.stored| == |stream| - blocks * blksz
      && |stream[|reader.stored|..]| == blocks * blksz
      && reader.stored == stream[..|reader.stored|]
      && reader.port == BlockWords(stream[|reader.stored|..], blksz, blocks)
    }

    method OneBlock()
      requires Valid() && blocks > 0
      modifies this`blocks, reader
      ensures Valid() && blocks == old(blocks) - 1
    {
      BlockSizes(blksz, blocks);
      ghost var rest := stream[|reader.stored|..];
      BytesOfFirst(rest[..blksz], BlockWords(rest[blksz..], blksz, blocks - 1));
      reader.ReadBlock(blksz);
      assert rest[blksz..] == stream[|reader.stored|..];
      blocks := blocks - 1;
    }

    /** sdhci_transfer_pio for a read. */
    method Transfer(ready: seq<bool>)
      requires Valid()
      modifies this`blocks, reader
      ensures Valid() && blocks == old(blocks) - Least(old(blocks), Leading(ready))
    {
      if blocks == 0 { return; }
      var n := 0;
      while n < |ready| && ready[n]
        invariant Valid() && 0 < blocks && n <= |ready|
        invariant blocks == old(blocks) - n && Leading(ready) == n + Leading(ready[n..])
      {
        OneBlock();
        assert ready[n..][1..] == ready[n + 1..];
        if blocks == 0 { break; }
        n := n + 1;
      }
    }
  }

  /** Once every block has moved, the words that left are those of the whole stream. */
  lemma WriteFinished(w: PioWrite)
    requires w.Valid() && w.blocks == 0
    ensures w.writer.sent == BlockWords(w.stream, w.blksz, w.total)
  {
    assert BlockWords(Flatten(w.writer.pieces), w.blksz, 0) == [];
  }

  /** ... and the whole stream is in place. */
  lemma ReadFinished(r: PioRead)
    requires r.Valid() && r.blocks == 0
    ensures r.reader.stored == r.stream
  {
  }
}

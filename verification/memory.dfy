/** Bytes in memory, addressed the way the controller sees them. */
module Memories {
  newtype byte = x: int | 0 <= x < 256

  type Memory = map<nat, byte>

  function Peek(m: Memory, a: nat): byte {
    if a in m then m[a] else 0
  }

  function Range(a: nat, n: nat): seq<nat> {
    seq(n, k requires 0 <= k < n => a + k)
  }

  function Fetch(m: Memory, addrs: seq<nat>): seq<byte> {
    seq(|addrs|, k requires 0 <= k < |addrs| => Peek(m, addrs[k]))
  }

  /** Store `data` byte by byte at `addrs`. */
  function Deposit(m: Memory, addrs: seq<nat>, data: seq<byte>): Memory
    requires |addrs| == |data|
  {
    if addrs == [] then m
    else
      var n := |addrs| - 1;
      Deposit(m, addrs[..n], data[..n])[addrs[n] := data[n]]
  }

  /** memcpy */
  function Copy(m: Memory, dst: nat, src: nat, n: nat): Memory {
    Deposit(m, Range(dst, n), Fetch(m, Range(src, n)))
  }

  predicate Distinct(addrs: seq<nat>) {
    forall i, j :: 0 <= i < j < |addrs| ==> addrs[i] != addrs[j]
  }

  predicate Apart(a: seq<nat>, b: seq<nat>) {
    forall x :: x in a ==> x !in b
  }

  lemma {:induction false} DepositElsewhere(m: Memory, addrs: seq<nat>, data: seq<byte>, a: nat)
    requires |addrs| == |data| && a !in addrs
    ensures Peek(Deposit(m, addrs, data), a) == Peek(m, a)
  {
    if addrs != [] {
      var n := |addrs| - 1;
      DepositElsewhere(m, addrs[..n], data[..n], a);
    }
  }

  /** What has been stored at different addresses can be read back. */
  lemma {:induction false} DepositFetch(m: Memory, addrs: seq<nat>, data: seq<byte>)
    requires |addrs| == |data| && Distinct(addrs)
    ensures Fetch(Deposit(m, addrs, data), addrs) == data
  {
    if addrs != [] {
      var n := |addrs| - 1;
      var m1 := Deposit(m, addrs[..n], data[..n]);
      DepositFetch(m, addrs[..n], data[..n]);
      forall k | 0 <= k < n ensures Peek(m1[addrs[n] := data[n]], addrs[k]) == data[k] {
        assert Fetch(m1, addrs[..n])[k] == data[..n][k];
      }
    }
  }

  lemma CopyAt(m: Memory, dst: nat, src: nat, n: nat, a: nat)
    ensures Peek(Copy(m, dst, src, n), a) == if dst <= a < dst + n then Peek(m, src + (a - dst)) else Peek(m, a)
  {
    var data := Fetch(m, Range(src, n));
    if dst <= a < dst + n {
      DepositFetch(m, Range(dst, n), data);
      assert Fetch(Copy(m, dst, src, n), Range(dst, n))[a - dst] == data[a - dst];
    } else {
      DepositElsewhere(m, Range(dst, n), data, a);
    }
  }

  lemma FetchConcat(m: Memory, a: seq<nat>, b: seq<nat>)
    ensures Fetch(m, a + b) == Fetch(m, a) + Fetch(m, b)
  {
  }

  lemma FetchSame(m: Memory, m': Memory, addrs: seq<nat>)
    requires forall a :: a in addrs ==> Peek(m', a) == Peek(m, a)
    ensures Fetch(m', addrs) == Fetch(m, addrs)
  {
  }

  lemma FetchCopied(m: Memory, dst: nat, src: nat, n: nat)
    ensures Fetch(Copy(m, dst, src, n), Range(dst, n)) == Fetch(m, Range(src, n))
  {
    DepositFetch(m, Range(dst, n), Fetch(m, Range(src, n)));
  }

  lemma RangeSplit(a: nat, n: nat, k: nat)
    requires k <= n
    ensures Range(a, n) == Range(a, k) + Range(a + k, n - k)
  {
  }

  lemma DistinctParts(a: seq<nat>, b: seq<nat>)
    ensures Distinct(a + b) <==> Distinct(a) && Distinct(b) && Apart(a, b)
  {
    var s := a + b;
    if Distinct(s) {
      assert forall i :: 0 <= i < |a| ==> a[i] == s[i];
      assert forall i :: 0 <= i < |b| ==> b[i] == s[|a| + i];
      forall i, j | 0 <= i < |a| && 0 <= j < |b| ensures a[i] != b[j] {
        assert s[i] != s[|a| + j];
      }
    }
    if Distinct(a) && Distinct(b) && Apart(a, b) {
      forall i, j | 0 <= i < j < |s| ensures s[i] != s[j] {
        if i < |a| <= j { assert s[i] in a && s[j] in b; }
      }
    }
  }
}

// Fixed-width integers and addresses as byte strings.
module Bytes {
  import opened Integers

  function Pow256(n: nat): (r: nat)
    ensures 0 < r
  {
    if n == 0 then 1 else 256 * Pow256(n - 1)
  }

  lemma Widths()
    ensures Pow256(2) == U16_LIMIT
    ensures Pow256(8) == U64_LIMIT
    ensures Pow256(32) == U64_LIMIT * U64_LIMIT * U64_LIMIT * U64_LIMIT
  {
    assert Pow256(4) == 256 * 256 * 256 * 256;
    assert Pow256(8) == Pow256(4) * Pow256(4);
    PowAdd(8, 8);
    PowAdd(16, 16);
  }

  lemma {:induction false} PowAdd(m: nat, n: nat)
    ensures Pow256(m + n) == Pow256(m) * Pow256(n)
  {
    if m != 0 {
      PowAdd(m - 1, n);
    }
  }

  // `from_le_bytes`
  function FromLe(bytes: seq<u8>): (n: nat)
    ensures n < Pow256(|bytes|)
  {
    if bytes == [] then 0 else bytes[0] + 256 * FromLe(bytes[1..])
  }

  // `to_le_bytes`
  function ToLe(n: nat, width: nat): (bytes: seq<u8>)
    requires n < Pow256(width)
    ensures |bytes| == width
  {
    if width == 0 then [] else [n % 256] + ToLe(n / 256, width - 1)
  }

  lemma {:induction false} LeRoundTrip(n: nat, width: nat)
    requires n < Pow256(width)
    ensures FromLe(ToLe(n, width)) == n
  {
    if width != 0 {
      LeRoundTrip(n / 256, width - 1);
      assert ToLe(n, width)[1..] == ToLe(n / 256, width - 1);
    }
  }

  lemma {:induction false} LeUnique(bytes: seq<u8>)
    ensures ToLe(FromLe(bytes), |bytes|) == bytes
  {
    if bytes != [] {
      LeUnique(bytes[1..]);
      assert bytes == [bytes[0]] + bytes[1..];
    }
  }

  // An address is the number its bytes spell, most significant first, so that
  // comparing addresses byte by byte is comparing numbers.
  function FromBe(bytes: seq<u8>): (n: nat)
    ensures n < Pow256(|bytes|)
  {
    if bytes == [] then 0 else 256 * FromBe(bytes[..|bytes| - 1]) + bytes[|bytes| - 1]
  }

  function ToBe(n: nat, width: nat): (bytes: seq<u8>)
    requires n < Pow256(width)
    ensures |bytes| == width
  {
    if width == 0 then [] else ToBe(n / 256, width - 1) + [n % 256]
  }

  lemma {:induction false} BeRoundTrip(n: nat, width: nat)
    requires n < Pow256(width)
    ensures FromBe(ToBe(n, width)) == n
  {
    if width != 0 {
      BeRoundTrip(n / 256, width - 1);
      assert ToBe(n, width)[..width - 1] == ToBe(n / 256, width - 1);
    }
  }

  lemma {:induction false} BeUnique(bytes: seq<u8>)
    ensures ToBe(FromBe(bytes), |bytes|) == bytes
  {
    if bytes != [] {
      BeUnique(bytes[..|bytes| - 1]);
      assert bytes == bytes[..|bytes| - 1] + [bytes[|bytes| - 1]];
    }
  }

  // The byte-slice order of Rust: the first differing byte decides.
  ghost predicate ByteOrderLess(x: seq<u8>, y: seq<u8>)
    requires |x| == |y|
  {
    exists i :: 0 <= i < |x| && x[..i] == y[..i] && x[i] < y[i]
  }

  lemma {:induction false} ByteOrderIsNumericOrder(x: seq<u8>, y: seq<u8>)
    requires |x| == |y|
    ensures ByteOrderLess(x, y) <==> FromBe(x) < FromBe(y)
  {
    if x != [] {
      var n := |x| - 1;
      LastByteDecidesTies(x, y);
      ByteOrderIsNumericOrder(x[..n], y[..n]);
      BeUnique(x[..n]);
      BeUnique(y[..n]);
    }
  }

  lemma LastByteDecidesTies(x: seq<u8>, y: seq<u8>)
    requires |x| == |y| > 0
    ensures var n := |x| - 1;
            ByteOrderLess(x, y) <==> ByteOrderLess(x[..n], y[..n]) || (x[..n] == y[..n] && x[n] < y[n])
  {
    var n := |x| - 1;
    forall i | 0 <= i < n
      ensures x[..n][..i] == x[..i] && y[..n][..i] == y[..i]
    {
    }
    if ByteOrderLess(x, y) {
      var i :| 0 <= i < |x| && x[..i] == y[..i] && x[i] < y[i];
      if i < n {
        assert x[..n][..i] == y[..n][..i];
      }
    }
    if ByteOrderLess(x[..n], y[..n]) {
      var i :| 0 <= i < n && x[..n][..i] == y[..n][..i] && x[..n][i] < y[..n][i];
      assert x[..i] == y[..i];
    }
  }
}

// Bytes in memory and on the wire: reyao/endian.h and the typed formats of reyao/bytearray.cc.
module Wire {
  import opened Prelude

  type byte = x: int | 0 <= x < 256

  datatype Endian = Little | Big

  function Other(e: Endian): Endian { if e == Little then Big else Little }

  lemma Split(a: seq<byte>, b: seq<byte>)
    ensures (a + b)[..|a|] == a && (a + b)[|a|..] == b
  {
  }

  function Pow256(n: nat): (p: nat)
    ensures p > 0
  {
    if n == 0 then 1 else 256 * Pow256(n - 1)
  }

  function LowFirst(v: nat, n: nat): (b: seq<byte>)
    ensures |b| == n
  {
    if n == 0 then [] else [v % 256] + LowFirst(v / 256, n - 1)
  }

  function Value(b: seq<byte>): (v: nat)
    ensures v < Pow256(|b|)
  {
    if b == [] then 0 else b[0] + 256 * Value(b[1..])
  }

  lemma {:induction false} ValueOfLowFirst(v: nat, n: nat)
    requires v < Pow256(n)
    ensures Value(LowFirst(v, n)) == v
  {
    if n > 0 {
      ValueOfLowFirst(v / 256, n - 1);
      assert LowFirst(v, n)[1..] == LowFirst(v / 256, n - 1);
    }
  }

  lemma LowAndRest(x: byte, y: nat)
    ensures (x + 256 * y) % 256 == x && (x + 256 * y) / 256 == y
  {
  }

  lemma {:induction false} LowFirstOfValue(b: seq<byte>)
    ensures LowFirst(Value(b), |b|) == b
  {
    if b != [] {
      LowAndRest(b[0], Value(b[1..]));
      LowFirstOfValue(b[1..]);
      assert b == [b[0]] + b[1..];
    }
  }

  function Reverse(b: seq<byte>): (r: seq<byte>)
    ensures |r| == |b| && forall i | 0 <= i < |b| :: r[i] == b[|b| - 1 - i]
  {
    seq(|b|, i requires 0 <= i < |b| => b[|b| - 1 - i])
  }

  // How a machine of the given byte order stores an n-byte integer.
  function Stored(order: Endian, v: nat, n: nat): (b: seq<byte>)
    ensures |b| == n
  {
    if order == Little then LowFirst(v, n) else Reverse(LowFirst(v, n))
  }

  function Loaded(order: Endian, b: seq<byte>): (v: nat)
    ensures v < Pow256(|b|)
  {
    if order == Little then Value(b) else Value(Reverse(b))
  }

  lemma {:induction false} ValueAppend(a: seq<byte>, x: byte)
    ensures Value(a + [x]) == Value(a) + x * Pow256(|a|)
  {
    if a == [] {
      assert a + [x] == [x] && [x][1..] == [];
    } else {
      ValueAppend(a[1..], x);
      assert (a + [x])[1..] == a[1..] + [x];
      var p := Pow256(|a| - 1);
      assert 256 * (x * p) == x * (256 * p);
    }
  }

  // Positional notation: big-endian has the most significant byte in front, little-endian the least.
  lemma Positional(x: byte, b: seq<byte>)
    ensures Loaded(Big, [x] + b) == x * Pow256(|b|) + Loaded(Big, b)
    ensures Loaded(Little, [x] + b) == x + 256 * Loaded(Little, b)
  {
    assert Reverse([x] + b) == Reverse(b) + [x];
    ValueAppend(Reverse(b), x);
    assert ([x] + b)[1..] == b;
  }

  // bswap_16, bswap_32 and bswap_64
  function ByteSwap(v: nat, n: nat): (r: nat)
    ensures r < Pow256(n)
  {
    Value(Reverse(LowFirst(v, n)))
  }

  lemma StoredLoaded(order: Endian, v: nat, n: nat)
    requires v < Pow256(n)
    ensures Loaded(order, Stored(order, v, n)) == v
  {
    ValueOfLowFirst(v, n);
    assert Reverse(Reverse(LowFirst(v, n))) == LowFirst(v, n);
  }

  // Swapping before a store, or after a load, gives the other byte order, on either kind of machine.
  lemma SwapThenStore(order: Endian, v: nat, n: nat)
    ensures Stored(order, ByteSwap(v, n), n) == Stored(Other(order), v, n)
  {
    LowFirstOfValue(Reverse(LowFirst(v, n)));
    assert Reverse(Reverse(LowFirst(v, n))) == LowFirst(v, n);
  }

  lemma LoadThenSwap(order: Endian, b: seq<byte>)
    ensures ByteSwap(Loaded(order, b), |b|) == Loaded(Other(order), b)
  {
    LowFirstOfValue(b);
    LowFirstOfValue(Reverse(b));
    assert Reverse(Reverse(b)) == b;
  }

  lemma SwapTwice(v: nat, n: nat)
    requires v < Pow256(n)
    ensures ByteSwap(ByteSwap(v, n), n) == v
  {
    SwapThenStore(Little, v, n);
    StoredLoaded(Big, v, n);
  }

  // ---- signed integers, two's complement ----

  function Unsigned(v: int, n: nat): (u: nat)
    ensures u < Pow256(n)
  {
    v % Pow256(n)
  }

  function AsSigned(u: nat, n: nat): int { if 2 * u < Pow256(n) then u else u - Pow256(n) }

  predicate InRange(v: int, n: nat, signed: bool) {
    if signed then 0 <= 2 * v + Pow256(n) < 2 * Pow256(n) else 0 <= v < Pow256(n)
  }

  // ---- wire format of one integer or one string with a length in front ----

  function IntBytes(e: Endian, v: int, n: nat): (b: seq<byte>)
    ensures |b| == n
  {
    Stored(e, Unsigned(v, n), n)
  }

  function IntOf(e: Endian, b: seq<byte>, signed: bool): int {
    if signed then AsSigned(Loaded(e, b), |b|) else Loaded(e, b)
  }

  // An integer is read back exactly when its type can hold it.
  lemma IntRoundTrip(e: Endian, v: int, n: nat, signed: bool)
    ensures IntOf(e, IntBytes(e, v, n), signed) == v <==> InRange(v, n, signed)
  {
    StoredLoaded(e, Unsigned(v, n), n);
    ModIs(v, Pow256(n));
  }

  lemma ModIs(v: int, p: nat)
    requires p > 0
    ensures 0 <= v < p ==> v % p == v
    ensures v < 0 <= v + p ==> v % p == v + p
  {
    if v < 0 <= v + p {
      assert v == (-1) * p + (v + p);
    }
  }
}

/**
  The byte order conversions of qingyi/net/endian_.h, and the memory images that the
  integer methods of qingyi/net/buffer_.h copy in and out of the buffer.

  A host stores an integer either least or most significant byte first.  The buffer
  must hold network order (Appendix B of RFC 791: most significant byte first) on both.
*/
module Endian {

  type byte = x: int | 0 <= x < 256

  datatype ByteOrder = LittleEndian | BigEndian

  /** The sizes of int8_t, int16_t, int32_t and int64_t. */
  type Width = n: nat | n == 1 || n == 2 || n == 4 || n == 8 witness 1

  function Power256(n: nat): (r: nat)
    ensures r > 0
  {
    if n == 0 then 1 else 256 * Power256(n - 1)
  }

  function Reverse(s: seq<byte>): (r: seq<byte>)
    ensures |r| == |s|
    ensures forall k :: 0 <= k < |s| ==> r[k] == s[|s| - 1 - k]
  {
    if s == [] then [] else Reverse(s[1..]) + [s[0]]
  }

  /** The n base-256 digits of x, least significant first. */
  function Digits(x: nat, n: nat): (bytes: seq<byte>)
    ensures |bytes| == n
  {
    if n == 0 then [] else [x % 256] + Digits(x / 256, n - 1)
  }

  function Value(bytes: seq<byte>): nat {
    if bytes == [] then 0 else bytes[0] + 256 * Value(bytes[1..])
  }

  // ---------- Memory images and conversions ----------

  /** The bytes of an unsigned n-byte integer in the memory of a host. */
  function Stored(x: nat, n: nat, host: ByteOrder): seq<byte> {
    if host.LittleEndian? then Digits(x, n) else Reverse(Digits(x, n))
  }

  /** The unsigned integer that a host reads from memory. */
  function Loaded(bytes: seq<byte>, host: ByteOrder): nat {
    if host.LittleEndian? then Value(bytes) else Value(Reverse(bytes))
  }

  /** htobe16, htobe32, htobe64. */
  function HostToNetwork(x: nat, n: nat, host: ByteOrder): nat {
    if host.LittleEndian? then Value(Reverse(Digits(x, n))) else x
  }

  /** be16toh, be32toh, be64toh. */
  function NetworkToHost(x: nat, n: nat, host: ByteOrder): nat {
    if host.LittleEndian? then Value(Reverse(Digits(x, n))) else x
  }

  // ---------- Two's complement ----------

  predicate Representable(x: int, n: nat) {
    0 <= 2 * x + Power256(n) < 2 * Power256(n)
  }

  function ToUnsigned(x: int, n: nat): nat
    requires Representable(x, n)
  {
    if x < 0 then x + Power256(n) else x
  }

  function ToSigned(x: nat, n: nat): int {
    if 2 * x < Power256(n) then x else x - Power256(n)
  }

  // ---------- What the buffer stores for an integer ----------

  /** The bytes that AppendInt and PrependInt copy into the buffer. */
  function Encode(x: int, n: Width, host: ByteOrder): seq<byte>
    requires Representable(x, n)
  {
    Stored(HostToNetwork(ToUnsigned(x, n), n, host), n, host)
  }

  /** The integer that PeekInt makes of the bytes it copies out. */
  function Decode(bytes: seq<byte>, host: ByteOrder): int
  {
    ToSigned(NetworkToHost(Loaded(bytes, host), |bytes|, host), |bytes|)
  }

  // ---------- Digits and values are inverse ----------

  lemma {:induction false} ValueOfDigits(x: nat, n: nat)
    requires x < Power256(n)
    ensures Value(Digits(x, n)) == x
  {
    if n > 0 {
      ValueOfDigits(x / 256, n - 1);
    }
  }

  lemma {:induction false} DigitsOfValue(bytes: seq<byte>)
    ensures Value(bytes) < Power256(|bytes|)
    ensures Digits(Value(bytes), |bytes|) == bytes
  {
    if bytes != [] {
      var rest := Value(bytes[1..]);
      DigitsOfValue(bytes[1..]);
      assert Value(bytes) / 256 == rest && Value(bytes) % 256 == bytes[0];
      assert rest + 1 <= Power256(|bytes| - 1);
      assert [bytes[0]] + bytes[1..] == bytes;
    }
  }

  lemma ReverseTwice(s: seq<byte>)
    ensures Reverse(Reverse(s)) == s
  {
  }

  lemma {:induction false} DigitAt(x: nat, n: nat, k: nat)
    requires k < n
    ensures Digits(x, n)[k] == x / Power256(k) % 256
  {
    if k > 0 {
      DigitAt(x / 256, n - 1, k - 1);
      DivideTwice(x, Power256(k - 1));
    }
  }

  lemma DivideTwice(x: nat, p: nat)
    requires p > 0
    ensures x / 256 / p == x / (256 * p)
  {
    var q := x / (256 * p);
    var r := x % (256 * p);
    assert x == 256 * p * q + r;
    assert x / 256 == p * q + r / 256 by {
      assert x == 256 * (p * q) + r;
    }
    assert r / 256 < p;
    QuotientIs(x / 256, p, q, r / 256);
  }

  lemma QuotientIs(x: nat, p: nat, q: nat, r: nat)
    requires p > 0 && x == p * q + r && r < p
    ensures x / p == q
  {
    var d := x / p - q;
    assert p * d == r - x % p;
    ProductSign(p, d);
  }

  lemma ProductSign(p: nat, d: int)
    ensures d > 0 ==> p * d >= p
    ensures d < 0 ==> p * d <= 0 - p
    decreases if d < 0 then -d else d
  {
    if d > 1 {
      ProductSign(p, d - 1);
    } else if d < -1 {
      ProductSign(p, d + 1);
    }
  }

  // ---------- The codec ----------

  /**
    Whatever the byte order of the host, the buffer receives network order: byte k
    of the n is the digit of weight 256^(n-1-k) of the two's complement of x.  The
    division rounds down, so that it gives those digits for a negative x too.
  */
  lemma EncodeIsNetworkOrder(x: int, n: Width, host: ByteOrder, k: nat)
    requires Representable(x, n) && k < n
    ensures |Encode(x, n, host)| == n
    ensures Encode(x, n, host)[k] == x / Power256(n - 1 - k) % 256
  {
    EncodeIsReversedDigits(x, n, host);
    DigitAt(ToUnsigned(x, n), n, n - 1 - k);
    hide Encode, Digits, Reverse, Representable;
    if x < 0 {
      DigitOfComplement(x, n, n - 1 - k);
    }
  }

  lemma {:induction false} PowerSplits(n: nat, k: nat)
    requires k <= n
    ensures Power256(n) == Power256(k) * Power256(n - k)
  {
    if k > 0 {
      PowerSplits(n - 1, k - 1);
      Regrouped(256, Power256(k - 1), Power256(n - k));
    }
  }

  lemma Regrouped(a: int, b: int, c: int)
    ensures a * (b * c) == (a * b) * c
  {
  }

  /** Adding 256^n changes none of the n low digits. */
  lemma DigitOfComplement(x: int, n: nat, k: nat)
    requires k < n
    ensures (x + Power256(n)) / Power256(k) % 256 == x / Power256(k) % 256
  {
    PowerSplits(n, k);
    var p, rest := Power256(k), Power256(n - k - 1);
    assert Power256(n - k) == 256 * rest;
    hide Power256;
    AddMultiple(x, p, 256 * rest);
    AddBlocks(x / p, rest);
  }

  lemma AddBlocks(a: int, b: int)
    ensures (a + 256 * b) % 256 == a % 256
  {
  }

  lemma AddMultiple(x: int, p: int, q: int)
    requires p > 0
    ensures (x + p * q) / p == x / p + q
  {
    var d := (x + p * q) / p - (x / p + q);
    Distributes(p, (x + p * q) / p, x / p, q);
    assert p * d == x % p - (x + p * q) % p;
    ProductSign(p, d);
  }

  lemma Distributes(p: int, a: int, b: int, c: int)
    ensures p * (a - (b + c)) == p * a - p * b - p * c
  {
  }

  lemma EncodeIsReversedDigits(x: int, n: Width, host: ByteOrder)
    requires Representable(x, n)
    ensures Encode(x, n, host) == Reverse(Digits(ToUnsigned(x, n), n))
  {
    var digits := Digits(ToUnsigned(x, n), n);
    DigitsOfValue(Reverse(digits));
  }

  /** On either host the value of n bytes is the one they have in network order. */
  lemma NetworkValue(bytes: seq<byte>, host: ByteOrder)
    ensures NetworkToHost(Loaded(bytes, host), |bytes|, host) == Value(Reverse(bytes)) < Power256(|bytes|)
  {
    DigitsOfValue(bytes);
    DigitsOfValue(Reverse(bytes));
  }

  /** The sum of the bytes, each with the weight of its place, the first with the highest. */
  function WeightedSum(bytes: seq<byte>): nat {
    if bytes == [] then 0 else bytes[0] * Power256(|bytes| - 1) + WeightedSum(bytes[1..])
  }

  lemma {:induction false} ValueOfAppended(s: seq<byte>, b: byte)
    ensures Value(s + [b]) == Value(s) + b * Power256(|s|)
  {
    if s == [] {
      assert s + [b] == [b];
      assert [b][1..] == [];
    } else {
      ValueOfAppended(s[1..], b);
      assert (s + [b])[1..] == s[1..] + [b];
      Regrouped(256, b, Power256(|s| - 1));
      Regrouped(b, 256, Power256(|s| - 1));
    }
  }

  lemma {:induction false} WeightedSumIsValue(bytes: seq<byte>)
    ensures Value(Reverse(bytes)) == WeightedSum(bytes)
  {
    if bytes != [] {
      WeightedSumIsValue(bytes[1..]);
      ValueOfAppended(Reverse(bytes[1..]), bytes[0]);
    }
  }

  /**
    Whatever the host, the integer that bytes in network order stand for is their weighted
    sum, less 256^n if the first of the n bytes has its high bit.
  */
  lemma DecodeIsTwosComplement(bytes: seq<byte>, host: ByteOrder)
    requires bytes != []
    ensures Decode(bytes, host) == WeightedSum(bytes) - if bytes[0] >= 128 then Power256(|bytes|) else 0
  {
    NetworkValue(bytes, host);
    NetworkValue(bytes[1..], host);
    WeightedSumIsValue(bytes);
    WeightedSumIsValue(bytes[1..]);
    FirstByteDecides(bytes[0], Power256(|bytes| - 1), WeightedSum(bytes[1..]));
  }

  lemma FirstByteDecides(b: byte, p: nat, rest: nat)
    requires rest < p
    ensures 2 * (b * p + rest) < 256 * p <==> b < 128
  {
    if b < 128 {
      assert b * p <= 127 * p;
    } else {
      assert b * p >= 128 * p;
    }
  }

  /** The integers of the four widths. */
  lemma WidthsAreThoseOfIntTypes(x: int)
    ensures Representable(x, 1) <==> -128 <= x < 128
    ensures Representable(x, 2) <==> -32768 <= x < 32768
    ensures Representable(x, 4) <==> -0x8000_0000 <= x < 0x8000_0000
    ensures Representable(x, 8) <==> -0x8000_0000_0000_0000 <= x < 0x8000_0000_0000_0000
  {
    PowerSplits(4, 2);
    PowerSplits(8, 4);
  }

  /** An integer encoded on one host is decoded on any other, whatever their byte orders. */
  lemma DecodeEncode(x: int, n: Width, writer: ByteOrder, reader: ByteOrder)
    requires Representable(x, n)
    ensures |Encode(x, n, writer)| == n
    ensures Decode(Encode(x, n, writer), reader) == x
  {
    var u := ToUnsigned(x, n);
    EncodeIsReversedDigits(x, n, writer);
    NetworkValue(Encode(x, n, writer), reader);
    ReverseTwice(Digits(u, n));
    ValueOfDigits(u, n);
  }

  /** Every n bytes are the encoding of the integer they decode to. */
  lemma EncodeDecode(bytes: seq<byte>, n: Width, host: ByteOrder)
    requires |bytes| == n
    ensures Representable(Decode(bytes, host), n)
    ensures Encode(Decode(bytes, host), n, host) == bytes
  {
    var u := Value(Reverse(bytes));
    NetworkValue(bytes, host);
    assert Decode(bytes, host) == ToSigned(u, n);
    hide Decode, Encode, Reverse, Digits, Value, Power256;
    assert ToUnsigned(ToSigned(u, n), n) == u;
    EncodeIsReversedDigits(ToSigned(u, n), n, host);
    DigitsOfValue(Reverse(bytes));
    ReverseTwice(bytes);
  }
}

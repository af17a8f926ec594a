/** The two variable-length integer codes: Bitcoin's CompactSize and the ULEB128 of BCS. */
module Varint {
  import opened Bytes

  type U32 = n: nat | n < 0x1_0000_0000
  type U64 = n: nat | n < 0x1_0000_0000_0000_0000

  /** Conversion of a length to 64 bits. */
  function Size(b: Bytes): U64 {
    |b| % 0x1_0000_0000_0000_0000
  }

  // ---- CompactSize ------------------------------------------------------------------------------

  function CompactSize(n: U64): Bytes {
    if n < 0xfd then [n]
    else if n <= 0xffff then [0xfd] + Le(2, n)
    else if n <= 0xffff_ffff then [0xfe] + Le(4, n)
    else [0xff] + Le(8, n)
  }

  /** A lenient reader, as a reference: it takes any of the four widths for any value that fits. */
  function ReadCompactSize(b: Bytes): Option<(nat, Bytes)> {
    if b == [] then None
    else
      var width := if b[0] < 0xfd then 0 else if b[0] == 0xfd then 2 else if b[0] == 0xfe then 4 else 8;
      if width == 0 then Some((b[0], b[1..]))
      else if |b| < 1 + width then None
      else Some((LeValue(b[1..1 + width]), b[1 + width..]))
  }

  lemma CompactRoundTrip(n: U64, rest: Bytes)
    ensures ReadCompactSize(CompactSize(n) + rest) == Some((n, rest))
  {
    SpanValues();
    var b := CompactSize(n) + rest;
    if n >= 0xfd {
      var width := |CompactSize(n)| - 1;
      LeFits(width, n);
      assert b[1..1 + width] == Le(width, n) && b[1 + width..] == rest;
    } else {
      assert b[1..] == rest;
    }
  }

  /** Whatever bytes a value is read from, the code's own are no longer, and no other are as short. */
  lemma CompactShortest(b: Bytes)
    requires ReadCompactSize(b).Some?
    ensures var (n, rest) := ReadCompactSize(b).value;
            && n < 0x1_0000_0000_0000_0000
            && |CompactSize(n)| <= |b| - |rest|
            && (|CompactSize(n)| == |b| - |rest| ==> b == CompactSize(n) + rest)
  {
    SpanValues();
    if b[0] >= 0xfd {
      var width := if b[0] == 0xfd then 2 else if b[0] == 0xfe then 4 else 8;
      LeOnto(b[1..1 + width]);
      assert b == [b[0]] + b[1..1 + width] + b[1 + width..];
    } else {
      assert b == [b[0]] + b[1..];
    }
  }

  function CompactPrefixed(b: Bytes): Bytes {
    CompactSize(Size(b)) + b
  }

  predicate Addressable(b: Bytes) {
    |b| < 0x1_0000_0000_0000_0000
  }

  lemma CompactPrefixedSplits(a: Bytes, x: Bytes, b: Bytes, y: Bytes)
    requires Addressable(a) && Addressable(b) && CompactPrefixed(a) + x == CompactPrefixed(b) + y
    ensures a == b && x == y
  {
    hide CompactSize, ReadCompactSize;
    assert CompactPrefixed(a) + x == CompactSize(|a|) + (a + x);
    assert CompactPrefixed(b) + y == CompactSize(|b|) + (b + y);
    CompactRoundTrip(|a|, a + x);
    CompactRoundTrip(|b|, b + y);
    SplitEqual(a, x, b, y);
  }

  // ---- ULEB128 ------------------------------------------------------------------------------------

  function Uleb(v: nat): Bytes {
    if v < 0x80 then [v] else [0x80 + v % 0x80] + Uleb(v / 0x80)
  }

  method Uleb128(value: U64, buf: Bytes) returns (out: Bytes)
    ensures out == buf + Uleb(value)
  {
    var v: nat := value;
    out := buf;
    while true
      invariant out + Uleb(v) == buf + Uleb(value)
      decreases v
    {
      var byte := v % 0x80;
      ghost var u := v;
      v := v / 0x80;
      if v != 0 {
        byte := byte + 0x80;
      }
      assert Uleb(u) == if v == 0 then [byte] else [byte] + Uleb(v);
      assert v != 0 ==> out + ([byte] + Uleb(v)) == out + [byte] + Uleb(v);
      out := out + [byte];
      if v == 0 {
        break;
      }
    }
  }

  method BcsBytes(b: Bytes, buf: Bytes) returns (out: Bytes)
    ensures out == buf + UlebPrefixed(b)
  {
    out := Uleb128(Size(b), buf);
    out := out + b;
  }

  function ReadUleb(b: Bytes): Option<(nat, Bytes)> {
    if b == [] then None
    else if b[0] < 0x80 then Some((b[0], b[1..]))
    else match ReadUleb(b[1..])
         case None => None
         case Some((v, rest)) => Some((b[0] - 0x80 + 0x80 * v, rest))
  }

  lemma {:induction false} UlebRoundTrip(v: nat, rest: Bytes)
    ensures ReadUleb(Uleb(v) + rest) == Some((v, rest))
  {
    var b := Uleb(v) + rest;
    if v < 0x80 {
      assert b[1..] == rest;
    } else {
      UlebRoundTrip(v / 0x80, rest);
      assert b[1..] == Uleb(v / 0x80) + rest;
    }
  }

  /** The same for ULEB128: shortest, and the only one that short. */
  lemma {:induction false} UlebShortest(b: Bytes)
    requires ReadUleb(b).Some?
    ensures var (v, rest) := ReadUleb(b).value;
            && |Uleb(v)| <= |b| - |rest|
            && (|Uleb(v)| == |b| - |rest| ==> b == Uleb(v) + rest)
  {
    assert b == [b[0]] + b[1..];
    if b[0] >= 0x80 {
      UlebShortest(b[1..]);
      var (v', rest) := ReadUleb(b[1..]).value;
      var v := b[0] - 0x80 + 0x80 * v';
      ModUnique(v, 0x80, v', b[0] - 0x80);
      if v >= 0x80 {
        assert Uleb(v) == [b[0]] + Uleb(v');
        assert Uleb(v) + rest == [b[0]] + (Uleb(v') + rest);
      } else {
        assert |Uleb(v')| >= 1;
      }
    }
  }

  function SevenBits(k: nat): nat {
    if k == 0 then 1 else 0x80 * SevenBits(k - 1)
  }

  /** Exactly as many bytes as the value has groups of seven bits. */
  lemma {:induction false} UlebLength(v: nat, k: nat)
    requires k > 0
    ensures |Uleb(v)| <= k <==> v < SevenBits(k)
  {
    if k == 1 {
      assert SevenBits(1) == 0x80 * SevenBits(0);
      assert v >= 0x80 ==> |Uleb(v / 0x80)| >= 1;
    } else if v >= 0x80 {
      UlebLength(v / 0x80, k - 1);
      var s := SevenBits(k - 1);
      assert v == 0x80 * (v / 0x80) + v % 0x80;
    } else {
      SevenGrows(k - 1);
    }
  }

  lemma {:induction false} SevenGrows(k: nat)
    ensures SevenBits(k) >= 1
  {
    if k > 0 {
      SevenGrows(k - 1);
    }
  }

  lemma TenBytesSuffice(v: U64)
    ensures 1 <= |Uleb(v)| <= 10
  {
    UlebLength(v, 10);
    assert SevenBits(2) == 0x4000 && SevenBits(3) == 0x20_0000 by {
      assert SevenBits(2) == 0x80 * SevenBits(1) == 0x4000 * SevenBits(0);
      assert SevenBits(3) == 0x80 * SevenBits(2);
    }
    assert SevenBits(5) == 0x80 * SevenBits(4) == 0x4000 * SevenBits(3);
    assert SevenBits(7) == 0x80 * SevenBits(6) == 0x4000 * SevenBits(5);
    assert SevenBits(9) == 0x80 * SevenBits(8) == 0x4000 * SevenBits(7);
    assert SevenBits(10) == 0x80 * SevenBits(9);
  }

  function UlebPrefixed(b: Bytes): Bytes {
    Uleb(Size(b)) + b
  }

  lemma UlebPrefixedSplits(a: Bytes, x: Bytes, b: Bytes, y: Bytes)
    requires Addressable(a) && Addressable(b) && UlebPrefixed(a) + x == UlebPrefixed(b) + y
    ensures a == b && x == y
  {
    hide Uleb, ReadUleb;
    assert UlebPrefixed(a) + x == Uleb(|a|) + (a + x);
    assert UlebPrefixed(b) + y == Uleb(|b|) + (b + y);
    UlebRoundTrip(|a|, a + x);
    UlebRoundTrip(|b|, b + y);
    SplitEqual(a, x, b, y);
  }

  // ---- lists of strings ---------------------------------------------------------------------------

  /** A list of strings is determined by its bytes, under either length prefix. */
  lemma StringsDecodeUniquely(xs: seq<Bytes>, ys: seq<Bytes>)
    requires (forall x <- xs :: Addressable(x)) && (forall y <- ys :: Addressable(y))
    ensures Flatten(CompactPrefixed, xs) == Flatten(CompactPrefixed, ys) ==> xs == ys
    ensures Flatten(UlebPrefixed, xs) == Flatten(UlebPrefixed, ys) ==> xs == ys
  {
    hide Uleb, CompactSize;
    assert SelfDelimiting(CompactPrefixed, Addressable) by {
      forall x: Bytes ensures |CompactPrefixed(x)| > 0 { CompactRoundTrip(Size(x), []); }
      forall x: Bytes, y: Bytes, r: Bytes, s: Bytes
        | Addressable(x) && Addressable(y) && CompactPrefixed(x) + r == CompactPrefixed(y) + s
        ensures x == y && r == s
      {
        CompactPrefixedSplits(x, r, y, s);
      }
    }
    assert SelfDelimiting(UlebPrefixed, Addressable) by {
      forall x: Bytes ensures |UlebPrefixed(x)| > 0 { UlebRoundTrip(Size(x), []); }
      forall x: Bytes, y: Bytes, r: Bytes, s: Bytes
        | Addressable(x) && Addressable(y) && UlebPrefixed(x) + r == UlebPrefixed(y) + s
        ensures x == y && r == s
      {
        UlebPrefixedSplits(x, r, y, s);
      }
    }
    if Flatten(CompactPrefixed, xs) == Flatten(CompactPrefixed, ys) {
      FlattenInjective(CompactPrefixed, Addressable, xs, ys);
    }
    if Flatten(UlebPrefixed, xs) == Flatten(UlebPrefixed, ys) {
      FlattenInjective(UlebPrefixed, Addressable, xs, ys);
    }
  }
}

/** Low-S normalisation of a threshold ECDSA signature, and why Bitcoin may be given the result. */
module LowS {
  import opened Bytes
  import opened Btc

  /** The order of secp256k1. */
  const ORDER: nat := 0xffff_ffff_ffff_ffff_ffff_ffff_ffff_fffe_baae_dce6_af48_a03b_bfd2_5e8c_d036_4141

  lemma OrderIsOdd()
    ensures ORDER % 2 == 1 && ORDER > 2
    ensures ORDER + 0x1_4551_2319_50b7_5fc4_402d_a173_2fc9_bebf
         == 0x1_0000_0000_0000_0000_0000_0000_0000_0000_0000_0000_0000_0000_0000_0000_0000_0000
  {}

  datatype Encoded = Der(bytes: Bytes) | ROverflows | SOverflows

  /** What is encoded for `s`: itself, or its negative when it is in the upper half. */
  function Low(n: nat, s: nat): nat
    requires s < n
  {
    if s > n / 2 then n - s else s
  }

  method EncodeBtcDERSignature(serialize: (nat, nat) -> Bytes, rBytes: Bytes32, sBytes: Bytes32) returns (e: Encoded)
    ensures e.ROverflows? <==> BeValue(rBytes) >= ORDER
    ensures e.SOverflows? <==> BeValue(rBytes) < ORDER && BeValue(sBytes) >= ORDER
    ensures e.Der? ==> e.bytes == serialize(BeValue(rBytes), Low(ORDER, BeValue(sBytes))) + [1]
  {
    var r := BeValue(rBytes);
    if r >= ORDER {
      return ROverflows;
    }
    var s := BeValue(sBytes);
    if s >= ORDER {
      return SOverflows;
    }
    if s > ORDER / 2 {
      s := ORDER - s;
    }
    var der := serialize(r, s);
    return Der(der + [SIGHASH_ALL]);
  }

  /** Of a scalar and its negative exactly one is low, and that one is what both are encoded as. */
  lemma LowIsCanonical(n: nat, s: nat, t: nat)
    requires n > 2 && n % 2 == 1 && 0 < s < n && 0 < t < n
    ensures Low(n, s) == Low(n, t) <==> t == s || t == n - s
    ensures Low(n, s) <= n / 2 && (Low(n, s) == s || Low(n, s) == n - s)
    ensures Low(n, s) == s <==> Low(n, n - s) != n - s
  {
    assert n == 2 * (n / 2) + 1;
  }

  /** On secp256k1: whatever two non-zero scalars are encoded alike, they are equal or negatives. */
  lemma Secp256k1IsCanonical(s: nat, t: nat)
    requires 0 < s < ORDER && 0 < t < ORDER
    ensures Low(ORDER, s) == Low(ORDER, t) <==> t == s || t == ORDER - s
    ensures 0 < Low(ORDER, s) <= ORDER / 2
  {
    OrderIsOdd();
    LowIsCanonical(ORDER, s, t);
  }

  // ---- ECDSA verification (SEC 1, section 4.1.4) ------------------------------------------------------

  /**
   * The group as the multiples of its generator, named by their factors modulo `n`; `x` maps a
   * factor to the point's x-coordinate, which a point shares with its negative.
   */
  datatype Curve = Curve(n: nat, x: nat -> nat) {
    ghost predicate Valid() {
      n > 2 && n % 2 == 1 && forall k {:trigger x(k)} :: 0 < k < n ==> x(k) == x(n - k)
    }
  }

  /** `u1 G + u2 Q` for an inverse `w` of the signature's second half. */
  function Point(n: nat, q: nat, e: nat, r: nat, w: nat): nat
    requires n > 0
  {
    var u1 := e * w % n;
    var u2 := r * w % n;
    (u1 + u2 * q) % n
  }

  /** `w` inverts `s`, and the point has `r` as its x-coordinate. */
  predicate AcceptsWith(c: Curve, q: nat, e: nat, r: nat, s: nat, w: nat)
    requires c.n > 0
  {
    var p := Point(c.n, q, e, r, w);
    0 < w < c.n && s * w % c.n == 1 && p != 0 && c.x(p) % c.n == r
  }

  ghost predicate Accepts(c: Curve, q: nat, e: nat, r: nat, s: nat)
    requires c.n > 0
  {
    0 < r < c.n && 0 < s < c.n && exists w :: AcceptsWith(c, q, e, r, s, w)
  }

  /** A number modulo `n`, named by what it differs from by a multiple of `n`. */
  lemma Reduce(v: int, n: nat) returns (k: int)
    requires n > 0
    ensures v == k * n + v % n && 0 <= v % n < n
  {
    k := v / n;
  }

  lemma Congruent(v: int, w: int, k: int, n: nat)
    requires n > 0 && v == w + k * n
    ensures v % n == w % n
  {
    var j := w / n;
    assert v == (j + k) * n + w % n by {
      assert (j + k) * n == j * n + k * n;
    }
    ModUnique(v, n, j + k, w % n);
  }

  function Negative(v: int, n: nat): (r: nat)
    requires n > 0
    ensures r < n
  {
    (-v) % n
  }

  /** A product with `n - w` is the negative of the product with `w`. */
  lemma TimesNegative(a: int, w: int, n: nat)
    requires n > 0
    ensures a * (n - w) % n == Negative(a * w % n, n)
  {
    var k := Reduce(a * w, n);
    assert a * (n - w) == -(a * w % n) + (a - k) * n by {
      assert a * (n - w) == a * n - a * w;
      assert (a - k) * n == a * n - k * n;
    }
    Congruent(a * (n - w), -(a * w % n), a - k, n);
  }

  /** The sum of negatives is the negative of the sum. */
  lemma SumOfNegatives(a: int, b: int, q: int, n: nat)
    requires n > 0
    ensures (Negative(a, n) + Negative(b, n) * q) % n == Negative((a + b * q) % n, n)
  {
    var i := Reduce(-a, n);
    var j := Reduce(-b, n);
    var k := Reduce(a + b * q, n);
    var x, y, z := Negative(a, n), Negative(b, n), (a + b * q) % n;
    assert x + y * q == -z + (-i - j * q - k) * n by {
      assert y * q == (-b - j * n) * q == -(b * q) - j * q * n;
      assert (-i - j * q - k) * n == -(i * n) - j * q * n - k * n;
    }
    Congruent(x + y * q, -z, -i - j * q - k, n);
  }

  lemma NegativeOfNonZero(p: nat, n: nat)
    requires 0 < p < n
    ensures Negative(p, n) == n - p
  {
    ModUnique(-(p as int), n, -1, n - p);
  }

  lemma PointNegates(n: nat, q: nat, e: nat, r: nat, w: nat)
    requires 0 < w < n
    ensures Point(n, q, e, r, n - w) == Negative(Point(n, q, e, r, w), n)
  {
    TimesNegative(e, w, n);
    TimesNegative(r, w, n);
    hide Negative;
    SumOfNegatives(e * w % n, r * w % n, q, n);
  }

  /** Negating the inverse negates the point, which has the same x-coordinate. */
  lemma NegatedAccepts(c: Curve, q: nat, e: nat, r: nat, s: nat, w: nat)
    requires c.Valid() && 0 < s < c.n && AcceptsWith(c, q, e, r, s, w)
    ensures w < c.n && AcceptsWith(c, q, e, r, c.n - s, c.n - w)
  {
    PointNegates(c.n, q, e, r, w);
    PointInRange(c.n, q, e, r, w);
    NegativeOfNonZero(Point(c.n, q, e, r, w), c.n);
    ProductOfNegatives(s, w, c.n);
    hide Point, Negative;
    assert c.x(Point(c.n, q, e, r, w)) == c.x(c.n - Point(c.n, q, e, r, w));
  }

  lemma PointInRange(n: nat, q: nat, e: nat, r: nat, w: nat)
    requires n > 0
    ensures Point(n, q, e, r, w) < n
  {}

  lemma ProductOfNegatives(s: nat, w: nat, n: nat)
    requires 0 < s < n && 0 < w < n
    ensures (n - s) * (n - w) % n == s * w % n
  {
    assert (n - s) * (n - w) == s * w + (n - s - w) * n by {
      assert (n - s) * (n - w) == n * n - s * n - w * n + s * w;
      assert (n - s - w) * n == n * n - s * n - w * n;
    }
    Congruent((n - s) * (n - w), s * w, n - s - w, n);
  }

  /** The low form verifies exactly when the original does, for every key, hash and signature. */
  lemma LowVerifiesTheSame(c: Curve, q: nat, e: nat, r: nat, s: nat)
    requires c.Valid() && s < c.n
    ensures Accepts(c, q, e, r, Low(c.n, s)) <==> Accepts(c, q, e, r, s)
  {
    hide AcceptsWith;
    if s > c.n / 2 {
      if Accepts(c, q, e, r, s) {
        var w :| AcceptsWith(c, q, e, r, s, w);
        NegatedAccepts(c, q, e, r, s, w);
        assert AcceptsWith(c, q, e, r, c.n - s, c.n - w);
      }
      if Accepts(c, q, e, r, c.n - s) {
        var w :| AcceptsWith(c, q, e, r, c.n - s, w);
        NegatedAccepts(c, q, e, r, c.n - s, w);
        assert c.n - (c.n - s) == s;
        assert AcceptsWith(c, q, e, r, s, c.n - w);
      }
    }
  }
}

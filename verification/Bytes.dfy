/** Bytes and the fixed-width integer encodings that every wire format of the engine uses. */
module Bytes {

  type byte = b: int | 0 <= b < 256
  type Bytes = seq<byte>

  datatype Option<+T> = None | Some(value: T)

  /** The number of values a field of `width` bytes can hold. */
  function Span(width: nat): (n: nat)
    ensures n > 0
  {
    if width == 0 then 1 else 256 * Span(width - 1)
  }

  lemma SpanValues()
    ensures Span(1) == 0x100 && Span(2) == 0x1_0000
    ensures Span(4) == 0x1_0000_0000 && Span(8) == 0x1_0000_0000_0000_0000
  {
    assert Span(4) == 256 * Span(3) == 0x1_0000 * Span(2);
    assert Span(8) == 256 * Span(7) == 0x1_0000 * Span(6) == 0x100_0000 * Span(5) == 0x1_0000_0000 * Span(4);
  }

  /** Little endian; a value that does not fit loses its high bytes, as a narrowing conversion does. */
  function Le(width: nat, v: nat): (b: Bytes)
    ensures |b| == width
  {
    if width == 0 then [] else [v % 256] + Le(width - 1, v / 256)
  }

  function LeValue(b: Bytes): (v: nat)
    ensures v < Span(|b|)
  {
    if b == [] then 0 else b[0] + 256 * LeValue(b[1..])
  }

  /** Big endian, with the same truncation. */
  function Be(width: nat, v: nat): (b: Bytes)
    ensures |b| == width
  {
    if width == 0 then [] else Be(width - 1, v / 256) + [v % 256]
  }

  function BeValue(b: Bytes): (v: nat)
    ensures v < Span(|b|)
  {
    if b == [] then 0 else 256 * BeValue(b[..|b| - 1]) + b[|b| - 1]
  }

  lemma DivModSpan(v: nat, s: nat)
    requires s > 0
    ensures v % (256 * s) == v % 256 + 256 * ((v / 256) % s)
  {
    var q := v / 256;
    var k := q / s;
    assert q == k * s + q % s;
    assert v == 256 * q + v % 256;
    assert v == k * (256 * s) + (256 * (q % s) + v % 256) by {
      assert 256 * (k * s) == k * (256 * s);
    }
    assert 0 <= q % s <= s - 1;
    assert 0 <= 256 * (q % s) + v % 256 < 256 * s;
    ModUnique(v, 256 * s, k, 256 * (q % s) + v % 256);
  }

  lemma ModUnique(v: int, m: int, k: int, r: int)
    requires m > 0 && v == k * m + r && 0 <= r < m
    ensures v % m == r && v / m == k
  {
    var k' := v / m;
    var r' := v % m;
    assert v == k' * m + r';
    assert (k - k') * m == r' - r;
    if k > k' {
      assert (k - k') * m >= m by { MulMono(1, k - k', m); }
    } else if k < k' {
      MulMono(1, k' - k, m);
    }
  }

  lemma MulMono(a: int, b: int, m: int)
    requires a <= b && m >= 0
    ensures a * m <= b * m
  {}

  /** Decoding an encoding gives the value back, up to the width's truncation. */
  lemma {:induction false} LeRoundTrip(width: nat, v: nat)
    ensures LeValue(Le(width, v)) == v % Span(width)
  {
    if width > 0 {
      LeRoundTrip(width - 1, v / 256);
      assert Le(width, v)[1..] == Le(width - 1, v / 256);
      DivModSpan(v, Span(width - 1));
    }
  }

  lemma {:induction false} BeRoundTrip(width: nat, v: nat)
    ensures BeValue(Be(width, v)) == v % Span(width)
  {
    if width > 0 {
      BeRoundTrip(width - 1, v / 256);
      assert Be(width, v)[..width - 1] == Be(width - 1, v / 256);
      DivModSpan(v, Span(width - 1));
    }
  }

  /** Every byte string of the width is the encoding of its value. */
  lemma {:induction false} LeOnto(b: Bytes)
    ensures Le(|b|, LeValue(b)) == b
  {
    if b != [] {
      LeOnto(b[1..]);
      ModUnique(LeValue(b), 256, LeValue(b[1..]), b[0]);
      assert [b[0]] + b[1..] == b;
    }
  }

  lemma {:induction false} BeOnto(b: Bytes)
    ensures Be(|b|, BeValue(b)) == b
  {
    if b != [] {
      BeOnto(b[..|b| - 1]);
      ModUnique(BeValue(b), 256, BeValue(b[..|b| - 1]), b[|b| - 1]);
      assert b[..|b| - 1] + [b[|b| - 1]] == b;
    }
  }

  lemma LeFits(width: nat, v: nat)
    requires v < Span(width)
    ensures LeValue(Le(width, v)) == v
  {
    LeRoundTrip(width, v);
    ModUnique(v, Span(width), 0, v);
  }

  lemma BeFits(width: nat, v: nat)
    requires v < Span(width)
    ensures BeValue(Be(width, v)) == v
  {
    BeRoundTrip(width, v);
    ModUnique(v, Span(width), 0, v);
  }

  /** Four bytes spelled out, least significant first and most significant first. */
  lemma FourBytes(b: Bytes)
    requires |b| == 4
    ensures var w, x, y, z: int := b[0], b[1], b[2], b[3];
            && LeValue(b) == w + 0x100 * x + 0x1_0000 * y + 0x100_0000 * z
            && BeValue(b) == 0x100_0000 * w + 0x1_0000 * x + 0x100 * y + z
  {
    assert b[1..][1..] == b[2..] && b[2..][1..] == b[3..] && b[3..][1..] == [];
    assert LeValue(b[3..]) == b[3];
    assert LeValue(b[2..]) == b[2] + 256 * LeValue(b[3..]);
    assert LeValue(b[1..]) == b[1] + 256 * LeValue(b[2..]);
    assert b[..3][..2] == b[..2] && b[..2][..1] == b[..1] && b[..1][..0] == [];
    assert BeValue(b[..1]) == b[0];
    assert BeValue(b[..2]) == 256 * BeValue(b[..1]) + b[1];
    assert BeValue(b[..3]) == 256 * BeValue(b[..2]) + b[2];
  }

  /** Two strings that start with fields of one length agree field by field. */
  lemma SplitEqual(a: Bytes, x: Bytes, b: Bytes, y: Bytes)
    requires a + x == b + y && |a| == |b|
    ensures a == b && x == y
  {
    assert a == (a + x)[..|a|] == (b + y)[..|a|] == b;
    assert x == (a + x)[|a|..] == (b + y)[|b|..] == y;
  }

  lemma Assoc(a: Bytes, b: Bytes, c: Bytes)
    ensures a + b + c == a + (b + c)
  {}

  /** A slice stays what it is when bytes are added behind or in front. */
  lemma SliceStays(b: Bytes, more: Bytes, i: nat, j: nat)
    requires i <= j <= |b|
    ensures (b + more)[i..j] == b[i..j]
    ensures (more + b)[|more| + i..|more| + j] == b[i..j]
  {}

  lemma TakeDrop(a: Bytes, x: Bytes)
    ensures (a + x)[..|a|] == a && (a + x)[|a|..] == x
  {}

  /** A code whose words can be told apart from whatever follows them. */
  ghost predicate SelfDelimiting<T(!new)>(code: T -> Bytes, ok: T -> bool) {
    && (forall x :: ok(x) ==> |code(x)| > 0)
    && (forall x, y, r: Bytes, s: Bytes ::
          ok(x) && ok(y) && code(x) + r == code(y) + s ==> x == y && r == s)
  }

  function Flatten<T>(code: T -> Bytes, xs: seq<T>): Bytes {
    if |xs| == 0 then [] else code(xs[0]) + Flatten(code, xs[1..])
  }

  lemma {:induction false} FlattenSnoc<T>(code: T -> Bytes, xs: seq<T>, x: T)
    ensures Flatten(code, xs + [x]) == Flatten(code, xs) + code(x)
  {
    if |xs| == 0 {
      assert (xs + [x])[1..] == [] && (xs + [x])[0] == x;
      assert Flatten(code, [x][1..]) == [];
    } else {
      assert (xs + [x])[1..] == xs[1..] + [x];
      FlattenSnoc(code, xs[1..], x);
      assert code(xs[0]) + (Flatten(code, xs[1..]) + code(x)) == code(xs[0]) + Flatten(code, xs[1..]) + code(x);
    }
  }

  /** A list of words of a self-delimiting code is determined by its concatenation. */
  lemma {:induction false} FlattenInjective<T(!new)>(code: T -> Bytes, ok: T -> bool, xs: seq<T>, ys: seq<T>)
    requires SelfDelimiting(code, ok)
    requires (forall x <- xs :: ok(x)) && (forall y <- ys :: ok(y))
    requires Flatten(code, xs) == Flatten(code, ys)
    ensures xs == ys
  {
    if xs != [] && ys != [] {
      assert code(xs[0]) + Flatten(code, xs[1..]) == code(ys[0]) + Flatten(code, ys[1..]);
      FlattenInjective(code, ok, xs[1..], ys[1..]);
      assert xs == [xs[0]] + xs[1..] && ys == [ys[0]] + ys[1..];
    }
  }

  /** Two different strings with one hash. */
  ghost predicate Collision(hash: Bytes -> Bytes, x: Bytes, y: Bytes) {
    x != y && hash(x) == hash(y)
  }

  lemma {:induction false} Fewer<T>(a: set<T>, b: set<T>)
    requires a <= b
    ensures |a| <= |b|
  {
    if a != {} {
      var x :| x in a;
      Fewer(a - {x}, b - {x});
    }
  }
}

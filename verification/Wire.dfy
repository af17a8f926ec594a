/** Reading back what was written field by field: parsers as partial inverses of codes. */
module Wire {
  import opened Bytes
  import opened Varint

  type Parser<!T> = Bytes -> Option<(T, Bytes)>

  /** On the code of `x`, whatever follows it, `parse` gives `x` and what follows. */
  ghost predicate Reads<T(!new)>(parse: Parser<T>, code: T -> Bytes, x: T) {
    forall rest: Bytes {:trigger code(x) + rest} :: parse(code(x) + rest) == Some((x, rest))
  }

  // ---- fields ---------------------------------------------------------------------------------

  function ReadFixed(width: nat, b: Bytes): Option<(Bytes, Bytes)> {
    if |b| < width then None else Some((b[..width], b[width..]))
  }

  function ReadLe(width: nat, b: Bytes): Option<(nat, Bytes)> {
    if |b| < width then None else Some((LeValue(b[..width]), b[width..]))
  }

  function ReadPrefixed(b: Bytes): Option<(Bytes, Bytes)> {
    match ReadCompactSize(b)
    case None => None
    case Some((n, rest)) => ReadFixed(n, rest)
  }

  lemma FixedBack(width: nat, x: Bytes, rest: Bytes)
    requires |x| == width
    ensures ReadFixed(width, x + rest) == Some((x, rest))
  {
    TakeDrop(x, rest);
  }

  lemma LeBack(width: nat, v: nat, rest: Bytes)
    requires v < Span(width)
    ensures ReadLe(width, Le(width, v) + rest) == Some((v, rest))
  {
    TakeDrop(Le(width, v), rest);
    LeFits(width, v);
  }

  lemma PrefixedBack(x: Bytes)
    requires Addressable(x)
    ensures Reads(ReadPrefixed, CompactPrefixed, x)
  {
    hide CompactSize, ReadCompactSize;
    forall rest: Bytes ensures ReadPrefixed(CompactPrefixed(x) + rest) == Some((x, rest)) {
      assert CompactPrefixed(x) + rest == CompactSize(|x|) + (x + rest);
      CompactRoundTrip(|x|, x + rest);
      TakeDrop(x, rest);
    }
  }

  // ---- lists ------------------------------------------------------------------------------------

  function ReadMany<T>(n: nat, parse: Parser<T>, b: Bytes): Option<(seq<T>, Bytes)> {
    if n == 0 then Some(([], b))
    else match parse(b)
         case None => None
         case Some((x, rest)) =>
           match ReadMany(n - 1, parse, rest)
           case None => None
           case Some((xs, end)) => Some(([x] + xs, end))
  }

  lemma {:induction false} ManyBack<T(!new)>(parse: Parser<T>, code: T -> Bytes, xs: seq<T>, rest: Bytes)
    requires forall x <- xs :: Reads(parse, code, x)
    ensures ReadMany(|xs|, parse, Flatten(code, xs) + rest) == Some((xs, rest))
  {
    if |xs| == 0 {
      assert Flatten(code, xs) + rest == rest && xs == [];
    } else {
      var tail := Flatten(code, xs[1..]) + rest;
      assert Flatten(code, xs) + rest == code(xs[0]) + tail;
      assert xs[0] in xs;
      ManyBack(parse, code, xs[1..], rest);
      assert parse(code(xs[0]) + tail) == Some((xs[0], tail));
      assert [xs[0]] + xs[1..] == xs;
    }
  }

  /** A count, then the elements. */
  function Counted<T>(code: T -> Bytes, xs: seq<T>): Bytes {
    CompactSize(|xs| % 0x1_0000_0000_0000_0000) + Flatten(code, xs)
  }

  function ReadCounted<T>(parse: Parser<T>, b: Bytes): Option<(seq<T>, Bytes)> {
    match ReadCompactSize(b)
    case None => None
    case Some((n, rest)) => ReadMany(n, parse, rest)
  }

  lemma CountedBack<T(!new)>(parse: Parser<T>, code: T -> Bytes, xs: seq<T>, rest: Bytes)
    requires |xs| < 0x1_0000_0000_0000_0000 && forall x <- xs :: Reads(parse, code, x)
    ensures ReadCounted(parse, Counted(code, xs) + rest) == Some((xs, rest))
  {
    hide CompactSize, ReadCompactSize;
    assert Counted(code, xs) + rest == CompactSize(|xs|) + (Flatten(code, xs) + rest);
    CompactRoundTrip(|xs|, Flatten(code, xs) + rest);
    ManyBack(parse, code, xs, rest);
  }
}

/**
 * The item framing that carries a whole FROST round across the Go/Rust boundary:
 * a two-byte count, then for each item a two-byte identifier, a four-byte length and the bytes.
 * Both implementations are modelled in their own form and proved against one specification.
 */
module Framing {
  import opened Bytes

  type U16 = n: nat | n < 0x1_0000

  datatype Item = Item(id: U16, body: Bytes)

  /** The decoder cannot return anything else: its count and lengths come from fixed-width fields. */
  ghost predicate Fits(items: seq<Item>) {
    |items| < 0x1_0000 && forall it <- items :: |it.body| < 0x1_0000_0000
  }

  function EncodeItem(it: Item): Bytes {
    Be(2, it.id) + Be(4, |it.body|) + it.body
  }

  function EncodeEach(items: seq<Item>): Bytes {
    if items == [] then [] else EncodeItem(items[0]) + EncodeEach(items[1..])
  }

  function Encode(items: seq<Item>): Bytes {
    Be(2, |items|) + EncodeEach(items)
  }

  function DecodeMany(n: nat, b: Bytes): (r: Option<seq<Item>>) {
    if n == 0 then Some([])
    else if |b| < 6 || |b| - 6 < BeValue(b[2..6]) then None
    else
      var ln := BeValue(b[2..6]);
      SpanValues();
      Prepend([Item(BeValue(b[..2]), b[6..][..ln])], DecodeMany(n - 1, b[6..][ln..]))
  }

  function Decode(b: Bytes): (r: Option<seq<Item>>) {
    if |b| < 2 then None else DecodeMany(BeValue(b[..2]), b[2..])
  }

  function Prepend(xs: seq<Item>, r: Option<seq<Item>>): Option<seq<Item>> {
    match r case None => None case Some(ys) => Some(xs + ys)
  }

  lemma PrependNothing(r: Option<seq<Item>>)
    ensures Prepend([], r) == r
  {
    if r.Some? {
      assert [] + r.value == r.value;
    }
  }

  lemma PrependTwice(xs: seq<Item>, ys: seq<Item>, r: Option<seq<Item>>)
    ensures Prepend(xs, Prepend(ys, r)) == Prepend(xs + ys, r)
  {
    if r.Some? {
      assert xs + (ys + r.value) == xs + ys + r.value;
    }
  }

  /** Where the `k`-th item starts: behind the count and six bytes and a body for each item before it. */
  function ItemAt(items: seq<Item>, k: nat): nat
    requires k <= |items|
  {
    if k == 0 then 2 else ItemAt(items, k - 1) + 6 + |items[k - 1].body|
  }

  lemma {:induction false} EachFrom(items: seq<Item>, k: nat)
    requires k <= |items|
    ensures ItemAt(items, k) <= |Encode(items)| && Encode(items)[ItemAt(items, k)..] == EncodeEach(items[k..])
  {
    if k == 0 {
      assert items[0..] == items;
    } else {
      EachFrom(items, k - 1);
      var it := items[k - 1];
      assert items[k - 1..][1..] == items[k..];
      hide Be;
      var rest := Encode(items)[ItemAt(items, k - 1)..];
      assert rest == EncodeItem(it) + EncodeEach(items[k..]);
      assert rest[6 + |it.body|..] == EncodeEach(items[k..]);
    }
  }

  /** The layout: count, then identifier, length and body of each item, big-endian. */
  lemma Layout(items: seq<Item>, k: nat)
    requires k < |items|
    ensures |Encode(items)| >= 2 && BeValue(Encode(items)[..2]) == |items| % 0x1_0000
    ensures LaidOut(Encode(items), ItemAt(items, k), items[k])
  {
    EachFrom(items, k);
    NextItem(items, k);
    CountField(items);
    hide *;
    ItemParts(Encode(items), ItemAt(items, k), items[k], EncodeEach(items[k + 1..]));
  }

  predicate LaidOut(b: Bytes, o: nat, it: Item) {
    && |b| >= o + 6 + |it.body|
    && BeValue(b[o..o + 2]) == it.id && BeValue(b[o + 2..o + 6]) == |it.body| % 0x1_0000_0000
    && b[o + 6..o + 6 + |it.body|] == it.body
  }

  lemma NextItem(items: seq<Item>, k: nat)
    requires k < |items|
    ensures EncodeEach(items[k..]) == EncodeItem(items[k]) + EncodeEach(items[k + 1..])
  {
    assert items[k..][1..] == items[k + 1..];
    hide EncodeItem;
  }

  lemma CountField(items: seq<Item>)
    ensures |Encode(items)| >= 2 && BeValue(Encode(items)[..2]) == |items| % 0x1_0000
  {
    SpanValues();
    BeRoundTrip(2, |items|);
    hide Be, BeValue, EncodeEach;
    assert Encode(items)[..2] == Be(2, |items|);
  }

  lemma HeaderFields(it: Item)
    ensures BeValue(Be(2, it.id)) == it.id && BeValue(Be(4, |it.body|)) == |it.body| % 0x1_0000_0000
  {
    SpanValues();
    BeFits(2, it.id);
    BeRoundTrip(4, |it.body|);
    hide Be, BeValue;
  }

  lemma ItemParts(b: Bytes, o: nat, it: Item, rest: Bytes)
    requires o <= |b| && b[o..] == EncodeItem(it) + rest
    ensures LaidOut(b, o, it)
  {
    HeaderFields(it);
    hide Be, BeValue;
    var c := EncodeItem(it) + rest;
    assert c[..2] == Be(2, it.id) && c[2..6] == Be(4, |it.body|) && c[6..6 + |it.body|] == it.body;
    assert b[o..o + 2] == b[o..][..2] == c[..2] && b[o + 2..o + 6] == b[o..][2..6] == c[2..6];
    assert b[o + 6..o + 6 + |it.body|] == b[o..][6..6 + |it.body|] == c[6..6 + |it.body|];
  }

  // ---- the Go half -------------------------------------------------------------------------

  method EncodeFrostItems(items: seq<Item>) returns (out: Bytes)
    ensures out == Encode(items)
  {
    out := Be(2, |items|);
    assert items[0..] == items;
    for i := 0 to |items|
      invariant out + EncodeEach(items[i..]) == Encode(items)
    {
      EachStep(items, i, out);
      out := out + Be(2, items[i].id);
      out := out + Be(4, |items[i].body|);
      out := out + items[i].body;
    }
  }

  method DecodeFrostItems(buf: Bytes) returns (r: Option<seq<Item>>)
    ensures r == Decode(buf)
  {
    var b := buf;
    if |b| < 2 {
      return None;
    }
    var n := BeValue(b[..2]);
    b := b[2..];
    ghost var whole := b;
    var out: seq<Item> := [];
    PrependNothing(DecodeMany(n, whole));
    for i := 0 to n
      invariant DecodeMany(n, whole) == Prepend(out, DecodeMany(n - i, b))
    {
      if |b| < 6 {
        return None;
      }
      SpanValues();
      var id := BeValue(b[..2]);
      var ln := BeValue(b[2..6]);
      b := b[6..];
      if |b| < ln {
        return None;
      }
      PrependTwice(out, [Item(id, b[..ln])], DecodeMany(n - i - 1, b[ln..]));
      out := out + [Item(id, b[..ln])];
      b := b[ln..];
    }
    assert out + [] == out;
    return Some(out);
  }

  // ---- the Rust half -----------------------------------------------------------------------

  method EncodeItems(items: seq<Item>) returns (out: Bytes)
    ensures out == Encode(items)
  {
    out := [];
    out := PutU16(out, |items|);
    assert items[0..] == items;
    assert out + EncodeEach(items) == Encode(items);
    assert EncodeEach([]) == [];
    hide *;
    for k := 0 to |items|
      invariant out + EncodeEach(items[k..]) == Encode(items)
    {
      ghost var before := out;
      out := PutU16(out, items[k].id);
      out := PutU32(out, |items[k].body|);
      out := out + items[k].body;
      EachStep(items, k, before);
    }
    assert items[|items|..] == [];
  }

  lemma EachStep(items: seq<Item>, k: nat, before: Bytes)
    requires k < |items|
    ensures before + Be(2, items[k].id) + Be(4, |items[k].body|) + items[k].body + EncodeEach(items[k + 1..])
         == before + EncodeEach(items[k..])
  {
    hide Be;
    assert items[k..][1..] == items[k + 1..];
    var it := items[k];
    assert before + Be(2, it.id) + Be(4, |it.body|) + it.body == before + EncodeItem(it);
  }

  method PutU16(buf: Bytes, v: nat) returns (out: Bytes)
    ensures out == buf + Be(2, v)
  {
    out := buf + Be(2, v);
  }

  method PutU32(buf: Bytes, v: nat) returns (out: Bytes)
    ensures out == buf + Be(4, v)
  {
    out := buf + Be(4, v);
  }

  /** Reads the fields byte by byte. */
  method DecodeItems(buf: Bytes) returns (r: Option<seq<Item>>)
    ensures r == Decode(buf)
  {
    var b := buf;
    if |b| < 2 {
      return None;
    }
    var n := ByHand(b[..2]);
    BeByHand(b[..2]);
    b := b[2..];
    ghost var whole := b;
    var out: seq<Item> := [];
    PrependNothing(DecodeMany(n, whole));
    hide DecodeMany, BeValue, ByHand, Prepend;
    for k := 0 to n
      invariant DecodeMany(n, whole) == Prepend(out, DecodeMany(n - k, b))
    {
      DecodeStep(n - k, b);
      PrependSome(out, []);
      if |b| < 6 {
        return None;
      }
      BeByHand(b[..2]);
      BeByHand(b[2..6]);
      var idx := ByHand(b[..2]);
      var len := ByHand(b[2..6]);
      b := b[6..];
      if |b| < len {
        return None;
      }
      PrependTwice(out, [Item(idx, b[..len])], DecodeMany(n - k - 1, b[len..]));
      out := out + [Item(idx, b[..len])];
      b := b[len..];
    }
    DecodeNone(b);
    PrependSome(out, []);
    return Some(out);
  }

  lemma PrependSome(xs: seq<Item>, ys: seq<Item>)
    ensures Prepend(xs, Some(ys)) == Some(xs + ys) && Prepend(xs, None) == None
    ensures xs + [] == xs
  {}

  lemma DecodeNone(b: Bytes)
    ensures DecodeMany(0, b) == Some([])
  {}

  /** One item's worth of the decoder. */
  lemma DecodeStep(n: nat, b: Bytes)
    requires n > 0
    ensures |b| < 6 || |b| - 6 < BeValue(b[2..6]) ==> DecodeMany(n, b) == None
    ensures |b| >= 6 && |b| - 6 >= BeValue(b[2..6]) ==>
              BeValue(b[..2]) < 0x1_0000 &&
              var ln := BeValue(b[2..6]);
              DecodeMany(n, b) == Prepend([Item(BeValue(b[..2]), b[6..][..ln])], DecodeMany(n - 1, b[6..][ln..]))
  {
    SpanValues();
  }

  /** `from_be_bytes` on two or four bytes named one by one. */
  function ByHand(b: Bytes): (v: nat)
    requires |b| == 2 || |b| == 4
  {
    if |b| == 2 then 256 * (b[0] as nat) + b[1]
    else 0x100_0000 * (b[0] as nat) + 0x1_0000 * (b[1] as nat) + 256 * (b[2] as nat) + b[3]
  }

  lemma BeByHand(b: Bytes)
    requires |b| == 2 || |b| == 4
    ensures BeValue(b) == ByHand(b) < Span(|b|)
  {
    var c := b[..|b| - 1];
    assert BeValue(b) == 256 * BeValue(c) + b[|b| - 1];
    if |b| == 4 {
      assert c[..2][..1] == b[..1] && c[..2][1] == b[1];
      assert BeValue(c) == 256 * BeValue(c[..2]) + c[2];
      assert BeValue(c[..2]) == 256 * BeValue(c[..2][..1]) + c[1];
      assert BeValue(c[..2][..1]) == b[0];
    }
  }

  // ---- the codec laws ----------------------------------------------------------------------

  lemma Cut(id: Bytes, ln: Bytes, body: Bytes, tail: Bytes)
    requires |id| == 2 && |ln| == 4
    ensures var b := id + ln + body + tail;
            && |b| == 6 + |body| + |tail| && b[..2] == id && b[2..6] == ln
            && b[6..][..|body|] == body && b[6..][|body|..] == tail
  {
    assert (id + ln + body + tail)[6..] == body + tail;
  }

  lemma {:induction false} DecodeManyInverts(items: seq<Item>, rest: Bytes)
    requires forall it <- items :: |it.body| < 0x1_0000_0000
    ensures DecodeMany(|items|, EncodeEach(items) + rest) == Some(items)
  {
    if items == [] {
    } else {
      DecodeManyInverts(items[1..], rest);
      DecodeHead(items[0], items[1..], rest);
      assert [items[0]] + items[1..] == items;
    }
  }

  lemma DecodeHead(it: Item, items: seq<Item>, rest: Bytes)
    requires |it.body| < 0x1_0000_0000
    requires DecodeMany(|items|, EncodeEach(items) + rest) == Some(items)
    ensures DecodeMany(|items| + 1, EncodeEach([it] + items) + rest) == Some([it] + items)
  {
    var tail := EncodeEach(items) + rest;
    var b := EncodeEach([it] + items) + rest;
    EachCons(it, items, rest);
    hide *;
    SpanValues();
    BeFits(2, it.id);
    BeFits(4, |it.body|);
    Cut(Be(2, it.id), Be(4, |it.body|), it.body, tail);
    DecodeStep(|items| + 1, b);
    PrependSome([it], items);
  }

  lemma EachCons(it: Item, items: seq<Item>, rest: Bytes)
    ensures EncodeEach([it] + items) + rest
         == Be(2, it.id) + Be(4, |it.body|) + it.body + (EncodeEach(items) + rest)
  {
    assert ([it] + items)[1..] == items;
    hide Be;
    var head, each := EncodeItem(it), EncodeEach(items);
    assert EncodeEach([it] + items) == head + each;
    assert (head + each) + rest == head + (each + rest);
  }

  lemma {:induction false} DecodeManyFits(n: nat, b: Bytes)
    requires DecodeMany(n, b).Some?
    ensures |DecodeMany(n, b).value| == n
    ensures forall it <- DecodeMany(n, b).value :: |it.body| < 0x1_0000_0000
    ensures EncodeEach(DecodeMany(n, b).value) <= b
  {
    if n > 0 {
      SpanValues();
      var ln := BeValue(b[2..6]);
      var it, rest := Item(BeValue(b[..2]), b[6..][..ln]), b[6..][ln..];
      assert DecodeMany(n, b) == Prepend([it], DecodeMany(n - 1, rest));
      DecodeManyFits(n - 1, rest);
      HeadItem(b, it, rest);
      OneMore(it, DecodeMany(n - 1, rest).value, b, rest);
    }
  }

  lemma HeadItem(b: Bytes, it: Item, rest: Bytes)
    requires |b| >= 6 && |b| >= 6 + BeValue(b[2..6]) && BeValue(b[..2]) == it.id
    requires it.body == b[6..][..BeValue(b[2..6])] && rest == b[6..][BeValue(b[2..6])..]
    ensures b == EncodeItem(it) + rest
  {
    BeOnto(b[..2]);
    BeOnto(b[2..6]);
    assert b == b[..2] + b[2..6] + b[6..];
    assert b[6..] == it.body + rest;
  }

  lemma OneMore(it: Item, tail: seq<Item>, b: Bytes, rest: Bytes)
    requires b == EncodeItem(it) + rest && EncodeEach(tail) <= rest
    ensures EncodeEach([it] + tail) <= b
  {
    assert ([it] + tail)[1..] == tail;
    assert rest == EncodeEach(tail) + rest[|EncodeEach(tail)|..];
    assert b == EncodeEach([it] + tail) + rest[|EncodeEach(tail)|..];
  }

  /** Decoding gives the items back exactly when their number and their lengths fit the fields. */
  lemma RoundTripIff(items: seq<Item>, rest: Bytes)
    ensures Decode(Encode(items) + rest) == Some(items) <==> Fits(items)
  {
    var b := Encode(items) + rest;
    assert b[..2] == Be(2, |items|) && b[2..] == EncodeEach(items) + rest;
    SpanValues();
    if Fits(items) {
      BeFits(2, |items|);
      DecodeManyInverts(items, rest);
    }
    if Decode(b) == Some(items) {
      DecodeManyFits(BeValue(b[..2]), b[2..]);
    }
  }

  /** Whatever the decoder accepts starts with the one encoding of its result. */
  lemma AcceptedStartsWithEncoding(b: Bytes)
    requires Decode(b).Some?
    ensures Fits(Decode(b).value) && Encode(Decode(b).value) <= b
  {
    SpanValues();
    DecodeManyFits(BeValue(b[..2]), b[2..]);
    BeOnto(b[..2]);
    assert b == b[..2] + b[2..];
  }

  /** With more items than the count field holds, the count wraps and only the first ones come back. */
  lemma OverflowKeepsFirst(items: seq<Item>)
    requires forall it <- items :: |it.body| < 0x1_0000_0000
    ensures Decode(Encode(items)) == Some(items[..|items| % 0x1_0000])
  {
    var b := Encode(items);
    assert b[..2] == Be(2, |items|) && b[2..] == EncodeEach(items);
    SpanValues();
    BeRoundTrip(2, |items|);
    var n := |items| % 0x1_0000;
    EncodeEachConcat(items[..n], items[n..]);
    assert items[..n] + items[n..] == items;
    DecodeManyInverts(items[..n], EncodeEach(items[n..]));
  }

  lemma {:induction false} EncodeEachConcat(a: seq<Item>, b: seq<Item>)
    ensures EncodeEach(a + b) == EncodeEach(a) + EncodeEach(b)
  {
    if a == [] {
      assert a + b == b;
    } else {
      assert (a + b)[1..] == a[1..] + b;
      EncodeEachConcat(a[1..], b);
    }
  }

  // ---- the map the Rust side builds ---------------------------------------------------------

  /** Insertion into an ordered map, item by item: a repeated identifier keeps its last body. */
  function ToMap(items: seq<Item>): map<nat, Bytes> {
    if items == [] then map[]
    else
      var last := items[|items| - 1];
      ToMap(items[..|items| - 1])[last.id as nat := last.body]
  }

  ghost predicate DistinctIds(items: seq<Item>) {
    forall i, j :: 0 <= i < j < |items| ==> items[i].id != items[j].id
  }

  /** `items` names every entry of `m` once, in some order. */
  ghost predicate Lists(items: seq<Item>, m: map<nat, Bytes>) {
    && DistinctIds(items)
    && (forall it <- items :: it.id in m && m[it.id] == it.body)
    && (forall k <- m :: exists it <- items :: it.id == k)
  }

  lemma {:induction false} ToMapEntries(items: seq<Item>)
    requires DistinctIds(items)
    ensures Lists(items, ToMap(items))
    ensures |ToMap(items)| == |items|
  {
    if items != [] {
      var front, last := items[..|items| - 1], items[|items| - 1];
      ToMapEntries(front);
      assert items == front + [last];
      NewId(front, last, ToMap(front));
      ListsOneMore(front, ToMap(front), last);
    }
  }

  lemma NewId(front: seq<Item>, last: Item, m: map<nat, Bytes>)
    requires DistinctIds(front + [last]) && Lists(front, m)
    ensures last.id !in m
  {
    forall x | 0 <= x < |front| ensures front[x].id != last.id {
      assert (front + [last])[x] == front[x] && (front + [last])[|front|] == last;
    }
  }

  lemma ListsOneMore(front: seq<Item>, m: map<nat, Bytes>, last: Item)
    requires Lists(front, m) && last.id !in m && DistinctIds(front + [last])
    ensures Lists(front + [last], m[last.id as nat := last.body])
    ensures |m[last.id as nat := last.body]| == |m| + 1
  {
    var items, m' := front + [last], m[last.id as nat := last.body];
    assert m'.Keys == m.Keys + {last.id};
    forall k <- m' ensures exists it <- items :: it.id == k {
      if k == last.id {
        assert last in items;
      } else {
        var it :| it in front && it.id == k;
        assert it in items;
      }
    }
    forall it <- items ensures it.id in m' && m'[it.id] == it.body {
      if it in front {
        assert it.id in m;
      }
    }
  }

  lemma ListsDetermines(items: seq<Item>, m: map<nat, Bytes>)
    requires Lists(items, m)
    ensures ToMap(items) == m
  {
    ToMapEntries(items);
    var t := ToMap(items);
    forall k <- m ensures k in t && t[k] == m[k] {
      var it :| it in items && it.id == k;
    }
    forall k <- t ensures k in m {
      var it :| it in items && it.id == k;
    }
  }

  /** Two item lists with the same entries in any order give the same map. */
  lemma OrderDoesNotMatter(a: seq<Item>, b: seq<Item>)
    requires DistinctIds(a) && DistinctIds(b) && multiset(a) == multiset(b)
    ensures ToMap(a) == ToMap(b)
  {
    ToMapEntries(b);
    var m := ToMap(b);
    forall it <- a ensures it.id in m && m[it.id] == it.body {
      assert it in multiset(a);
      assert it in b;
    }
    forall k <- m ensures exists it <- a :: it.id == k {
      var it :| it in b && it.id == k;
      assert it in multiset(b);
      assert it in a;
    }
    ListsDetermines(a, m);
  }

  /** What a FROST call receives: the framed items, decoded, with identifier 0 refused. */
  function Received(blob: Bytes): (r: Option<map<nat, Bytes>>) {
    match Decode(blob)
    case None => None
    case Some(items) => if exists it <- items :: it.id == 0 then None else Some(ToMap(items))
  }

  lemma {:induction false} BoundedSet(s: set<nat>, n: nat)
    requires forall x <- s :: x < n
    ensures |s| <= n
  {
    if n == 0 {
      assert s == {};
    } else {
      BoundedSet(s - {n - 1}, n - 1);
    }
  }

  /** Across the boundary a map arrives unchanged, in whatever order it was listed. */
  lemma ReceivedIsSent(items: seq<Item>, m: map<nat, Bytes>)
    requires Lists(items, m)
    requires forall k <- m :: 1 <= k && |m[k]| < 0x1_0000_0000
    ensures Received(Encode(items)) == Some(m)
  {
    ToMapEntries(items);
    ListsDetermines(items, m);
    forall k <- m ensures k < 0x1_0000 {
      var it :| it in items && it.id == k;
    }
    assert 0 !in m.Keys;
    BoundedSet(m.Keys + {0}, 0x1_0000);
    assert |m.Keys + {0}| == |m| + 1;
    RoundTripIff(items, []);
    assert Encode(items) + [] == Encode(items);
  }

  // ---- the identifier of a participant -----------------------------------------------------

  /** An identifier is a scalar, written as 32 little-endian bytes; Rust reads back the low two. */
  function IdToU16(ser: Bytes): U16 {
    SpanValues();
    (if |ser| > 0 then ser[0] else 0) + 256 * ((if |ser| > 1 then ser[1] else 0) as nat)
  }

  /** An identifier made from a participant number is read back as that number, modulo 2^16. */
  lemma IdReadBack(u: nat)
    ensures IdToU16(Le(32, u)) == u % 0x1_0000
  {
    assert Le(32, u) == [u % 256] + Le(31, u / 256);
    assert Le(31, u / 256) == [u / 256 % 256] + Le(30, u / 256 / 256);
    DivModSpan(u, 256);
  }
}

/** Persistence of the group's key set. */
module KeySets {
  import opened Bytes
  import opened Framing
  import opened Wire

  /** The FROST crate's own serialization of one package. */
  datatype Serde<!T> = Serde(serialize: T -> Option<Bytes>, deserialize: Bytes -> Option<T>)

  ghost predicate Lossless<T(!new)>(s: Serde<T>) {
    forall x {:trigger s.serialize(x)} :: s.serialize(x).Some? ==> s.deserialize(s.serialize(x).value) == Some(x)
  }

  /** Key packages by identifier, and the public package they belong to. */
  datatype KeySet<K, P> = KeySet(keyPackages: map<nat, K>, pubkeyPackage: P, maxSigners: U16, minSigners: U16)

  /** The identifiers of the default list, all of them. */
  ghost predicate Complete<K, P>(ks: KeySet<K, P>) {
    forall i: nat :: i in ks.keyPackages <==> 1 <= i <= ks.maxSigners
  }

  function Record(b: Bytes): Bytes {
    Le(4, |b|) + b
  }

  /** The records of the packages 1..n, unless one of them cannot be serialized. */
  ghost function Records<K, P>(key: Serde<K>, ks: KeySet<K, P>, n: nat): Option<Bytes>
    requires Complete(ks) && n <= ks.maxSigners
  {
    if n == 0 then Some([])
    else match (Records(key, ks, n - 1), key.serialize(ks.keyPackages[n]))
         case (Some(before), Some(s)) => Some(before + Record(s))
         case _ => None
  }

  ghost function Encoding<K, P>(key: Serde<K>, pub: Serde<P>, ks: KeySet<K, P>): Option<Bytes>
    requires Complete(ks)
  {
    match (pub.serialize(ks.pubkeyPackage), Records(key, ks, ks.maxSigners))
    case (Some(pk), Some(rs)) => Some(Le(2, ks.maxSigners) + Le(2, ks.minSigners) + Record(pk) + rs)
    case _ => None
  }

  method ToBytes<K, P>(key: Serde<K>, pub: Serde<P>, ks: KeySet<K, P>) returns (r: Option<Bytes>)
    requires Complete(ks)
    ensures r == Encoding(key, pub, ks)
  {
    var out := Le(2, ks.maxSigners);
    out := out + Le(2, ks.minSigners);
    var pk := pub.serialize(ks.pubkeyPackage);
    if pk.None? {
      return None;
    }
    out := out + Le(4, |pk.value|);
    out := out + pk.value;
    ghost var head := out;
    Assoc(Le(2, ks.maxSigners) + Le(2, ks.minSigners), Le(4, |pk.value|), pk.value);
    assert Records(key, ks, 0) == Some([]) && head + [] == head;
    hide Le, Records, Record;
    for i := 0 to ks.maxSigners
      invariant Records(key, ks, i).Some? && out == head + Records(key, ks, i).value
    {
      var kp := key.serialize(ks.keyPackages[i + 1]);
      OneMoreRecord(key, ks, i, head);
      if kp.None? {
        RecordsFail(key, ks, i + 1, ks.maxSigners);
        return None;
      }
      out := out + Le(4, |kp.value|);
      out := out + kp.value;
    }
    return Some(out);
  }

  lemma OneMoreRecord<K, P>(key: Serde<K>, ks: KeySet<K, P>, i: nat, head: Bytes)
    requires Complete(ks) && i < ks.maxSigners && Records(key, ks, i).Some?
    ensures match key.serialize(ks.keyPackages[i + 1])
            case None => Records(key, ks, i + 1).None?
            case Some(s) =>
              Records(key, ks, i + 1).Some?
              && head + Records(key, ks, i + 1).value == head + Records(key, ks, i).value + Le(4, |s|) + s
  {
    var kp := key.serialize(ks.keyPackages[i + 1]);
    if kp.Some? {
      var before := Records(key, ks, i).value;
      assert Records(key, ks, i + 1) == Some(before + Record(kp.value));
      hide Records, Le;
      assert head + (before + (Le(4, |kp.value|) + kp.value)) == head + before + Le(4, |kp.value|) + kp.value;
    }
  }

  lemma {:induction false} RecordsFail<K, P>(key: Serde<K>, ks: KeySet<K, P>, i: nat, n: nat)
    requires Complete(ks) && i <= n <= ks.maxSigners && Records(key, ks, i).None?
    ensures Records(key, ks, n).None?
  {
    if i < n {
      RecordsFail(key, ks, i, n - 1);
    }
  }

  // ---- the layout ------------------------------------------------------------------------------------

  /** `s` lies at `o`, behind its length in four bytes, little-endian. */
  predicate RecordAt(b: Bytes, o: nat, s: Bytes) {
    |b| >= o + 4 + |s| && LeValue(b[o..o + 4]) == |s| % 0x1_0000_0000 && b[o + 4..o + 4 + |s|] == s
  }

  predicate HeaderIs(b: Bytes, max: nat, min: nat) {
    |b| >= 4 && LeValue(b[..2]) == max && LeValue(b[2..4]) == min
  }

  lemma RecordLies(before: Bytes, s: Bytes, rest: Bytes)
    ensures RecordAt(before + Record(s) + rest, |before|, s)
  {
    SpanValues();
    LeRoundTrip(4, |s|);
    hide Le, LeValue;
    var b, o := before + Record(s) + rest, |before|;
    assert b[o..o + 4] == Le(4, |s|) && b[o + 4..o + 4 + |s|] == s;
  }

  lemma RecordStays(b: Bytes, o: nat, s: Bytes, more: Bytes)
    requires RecordAt(b, o, s)
    ensures RecordAt(b + more, o, s)
  {
    hide LeValue;
    SliceStays(b, more, o, o + 4);
    SliceStays(b, more, o + 4, o + 4 + |s|);
  }

  lemma RecordShifts(b: Bytes, o: nat, s: Bytes, head: Bytes)
    requires RecordAt(b, o, s)
    ensures RecordAt(head + b, |head| + o, s)
  {
    hide LeValue;
    SliceStays(b, head, o, o + 4);
    SliceStays(b, head, o + 4, o + 4 + |s|);
  }

  /** A package's own bytes, nothing if it has none. */
  ghost function Stored<K, P>(key: Serde<K>, ks: KeySet<K, P>, n: nat): Bytes
    requires Complete(ks) && 1 <= n <= ks.maxSigners
  {
    match key.serialize(ks.keyPackages[n]) case None => [] case Some(s) => s
  }

  /** Where package `n` starts among the records: behind four bytes and a package for each before it. */
  ghost function Offset<K, P>(key: Serde<K>, ks: KeySet<K, P>, n: nat): nat
    requires Complete(ks) && 1 <= n <= ks.maxSigners
  {
    if n == 1 then 0 else Offset(key, ks, n - 1) + 4 + |Stored(key, ks, n - 1)|
  }

  lemma LastRecord<K, P>(key: Serde<K>, ks: KeySet<K, P>, m: nat)
    requires Complete(ks) && 1 <= m <= ks.maxSigners && Records(key, ks, m).Some?
    ensures Records(key, ks, m - 1).Some?
    ensures Records(key, ks, m).value == Records(key, ks, m - 1).value + Record(Stored(key, ks, m))
  {}

  lemma {:induction false} OffsetIs<K, P>(key: Serde<K>, ks: KeySet<K, P>, m: nat)
    requires Complete(ks) && 1 <= m <= ks.maxSigners && Records(key, ks, m).Some?
    ensures Records(key, ks, m - 1).Some? && Offset(key, ks, m) == |Records(key, ks, m - 1).value|
  {
    LastRecord(key, ks, m);
    if m > 1 {
      OffsetIs(key, ks, m - 1);
      LastRecord(key, ks, m - 1);
      hide Records, Le;
    }
  }

  lemma {:induction false} RecordLiesAt<K, P>(key: Serde<K>, ks: KeySet<K, P>, n: nat, m: nat)
    requires Complete(ks) && 1 <= n <= m <= ks.maxSigners && Records(key, ks, m).Some?
    ensures RecordAt(Records(key, ks, m).value, Offset(key, ks, n), Stored(key, ks, n))
  {
    LastRecord(key, ks, m);
    var before, last := Records(key, ks, m - 1).value, Record(Stored(key, ks, m));
    if n == m {
      OffsetIs(key, ks, m);
      hide Record, RecordAt, Records, Offset;
      RecordLies(before, Stored(key, ks, m), []);
      assert before + last + [] == before + last;
    } else {
      RecordLiesAt(key, ks, n, m - 1);
      hide Record, RecordAt, Records, Offset;
      RecordStays(before, Offset(key, ks, n), Stored(key, ks, n), last);
    }
  }

  /** The layout: both numbers in two bytes, little-endian, the public package, the key packages in order. */
  lemma Layout<K, P>(key: Serde<K>, pub: Serde<P>, ks: KeySet<K, P>, n: nat)
    requires Complete(ks) && Encoding(key, pub, ks).Some? && 1 <= n <= ks.maxSigners
    ensures HeaderIs(Encoding(key, pub, ks).value, ks.maxSigners, ks.minSigners)
    ensures pub.serialize(ks.pubkeyPackage).Some?
            && RecordAt(Encoding(key, pub, ks).value, 4, pub.serialize(ks.pubkeyPackage).value)
    ensures RecordAt(Encoding(key, pub, ks).value,
                     8 + |pub.serialize(ks.pubkeyPackage).value| + Offset(key, ks, n), Stored(key, ks, n))
  {
    hide *;
    EncodingParts(key, pub, ks);
    var pk, rs := pub.serialize(ks.pubkeyPackage).value, Records(key, ks, ks.maxSigners).value;
    RecordLiesAt(key, ks, n, ks.maxSigners);
    PartsLie(ks.maxSigners, ks.minSigners, pk, rs, Offset(key, ks, n), Stored(key, ks, n));
  }

  lemma EncodingParts<K, P>(key: Serde<K>, pub: Serde<P>, ks: KeySet<K, P>)
    requires Complete(ks) && Encoding(key, pub, ks).Some?
    ensures pub.serialize(ks.pubkeyPackage).Some? && Records(key, ks, ks.maxSigners).Some?
    ensures Encoding(key, pub, ks).value
         == Le(2, ks.maxSigners) + Le(2, ks.minSigners) + Record(pub.serialize(ks.pubkeyPackage).value)
            + Records(key, ks, ks.maxSigners).value
  {
    hide Records, Le, Record;
  }

  lemma PartsLie(max: U16, min: U16, pk: Bytes, rs: Bytes, o: nat, s: Bytes)
    requires RecordAt(rs, o, s)
    ensures HeaderIs(Le(2, max) + Le(2, min) + Record(pk) + rs, max, min)
    ensures RecordAt(Le(2, max) + Le(2, min) + Record(pk) + rs, 4, pk)
    ensures RecordAt(Le(2, max) + Le(2, min) + Record(pk) + rs, 8 + |pk| + o, s)
  {
    var head, record := Le(2, max) + Le(2, min), Record(pk);
    assert |head| == 4 && |head + record| == 8 + |pk|;
    hide Le, LeValue, Record, RecordAt, HeaderIs;
    HeadLies(max, min, record + rs);
    Assoc(head, record, rs);
    RecordLies(head, pk, rs);
    RecordShifts(rs, o, s, head + record);
  }

  lemma HeadLies(max: U16, min: U16, rest: Bytes)
    ensures HeaderIs(Le(2, max) + Le(2, min) + rest, max, min)
  {
    SpanValues();
    LeFits(2, max);
    LeFits(2, min);
    hide Le, LeValue;
    var b := Le(2, max) + Le(2, min) + rest;
    assert b[..2] == Le(2, max) && b[2..4] == Le(2, min);
  }

  // ---- reading -------------------------------------------------------------------------------------

  /** A length-prefixed package. */
  function ReadRecord<T>(s: Serde<T>, b: Bytes): Option<(T, Bytes)> {
    match ReadLe(4, b)
    case None => None
    case Some((n, b1)) =>
      match ReadFixed(n, b1)
      case None => None
      case Some((x, rest)) =>
        match s.deserialize(x)
        case None => None
        case Some(v) => Some((v, rest))
  }

  /** Packages numbered from 1. */
  function Nth<K>(xs: seq<K>, i: nat): K
    requires 1 <= i <= |xs|
  {
    xs[i - 1]
  }

  function Numbered<K>(xs: seq<K>): map<nat, K> {
    map i: nat | 1 <= i <= |xs| :: Nth(xs, i)
  }

  function ReadRecords<T>(s: Serde<T>, n: nat, b: Bytes): Option<(seq<T>, Bytes)> {
    ReadMany(n, c => ReadRecord(s, c), b)
  }

  function ReadKeySet<K, P>(key: Serde<K>, pub: Serde<P>, b: Bytes): Option<(KeySet<K, P>, Bytes)> {
    SpanValues();
    match ReadLe(2, b)
    case None => None
    case Some((max, b1)) =>
      match ReadLe(2, b1)
      case None => None
      case Some((min, b2)) =>
        match ReadRecord(pub, b2)
        case None => None
        case Some((pk, b3)) =>
          match ReadRecords(key, max, b3)
          case None => None
          case Some((ks, rest)) => Some((KeySet(Numbered(ks), pk, max, min), rest))
  }

  /** Takes `n` bytes at the cursor and moves it. */
  method Rd(b: Bytes, o: nat, n: nat) returns (r: Option<Bytes>, o': nat)
    requires o <= |b|
    ensures o <= o' <= |b|
    ensures match ReadFixed(n, b[o..])
            case None => r.None?
            case Some((x, rest)) => r == Some(x) && b[o'..] == rest
  {
    var end := o + n;
    if end > |b| {
      return None, o;
    }
    assert b[o..][..n] == b[o..end] && b[o..][n..] == b[end..];
    return Some(b[o..end]), end;
  }

  method RdRecord<T>(s: Serde<T>, b: Bytes, o: nat) returns (r: Option<T>, o': nat)
    requires o <= |b|
    ensures o <= o' <= |b|
    ensures match ReadRecord(s, b[o..])
            case None => r.None?
            case Some((x, rest)) => r == Some(x) && b[o'..] == rest
  {
    hide LeValue;
    var field: Option<Bytes>;
    field, o' := Rd(b, o, 4);
    if field.None? {
      return None, o;
    }
    var len := LeValue(field.value);
    field, o' := Rd(b, o', len);
    if field.None? {
      return None, o;
    }
    var x := s.deserialize(field.value);
    return x, o';
  }

  method FromBytes<K, P>(key: Serde<K>, pub: Serde<P>, buf: Bytes) returns (r: Option<KeySet<K, P>>)
    ensures r == match ReadKeySet(key, pub, buf) case None => None case Some((ks, _)) => Some(ks)
  {
    SpanValues();
    var o: nat := 0;
    assert buf[0..] == buf;
    var field: Option<Bytes>;
    field, o := Rd(buf, o, 2);
    if field.None? {
      return None;
    }
    var maxSigners: U16 := LeValue(field.value);
    field, o := Rd(buf, o, 2);
    if field.None? {
      return None;
    }
    var minSigners: U16 := LeValue(field.value);
    hide LeValue, ReadRecord, ReadRecords, Numbered;
    var pk: Option<P>;
    pk, o := RdRecord(pub, buf, o);
    if pk.None? {
      return None;
    }
    var keyPackages := ReadPackages(key, maxSigners, buf, o);
    match keyPackages {
      case None => return None;
      case Some(m) => return Some(KeySet(m, pk.value, maxSigners, minSigners));
    }
  }

  /** The loop over the identifiers, from the cursor on. */
  method ReadPackages<K>(key: Serde<K>, maxSigners: U16, buf: Bytes, start: nat) returns (r: Option<map<nat, K>>)
    requires start <= |buf|
    ensures r == match ReadRecords(key, maxSigners, buf[start..])
                 case None => None
                 case Some((xs, _)) => Some(Numbered(xs))
  {
    var o: nat := start;
    ghost var read: seq<K> := [];
    var keyPackages: map<nat, K> := map[];
    NothingRead(ReadRecords(key, maxSigners, buf[start..]));
    hide ReadRecord, ReadRecords, After, Numbered;
    for i := 0 to maxSigners
      invariant o <= |buf| && |read| == i && keyPackages == Numbered(read)
      invariant ReadRecords(key, maxSigners, buf[start..]) == After(read, ReadRecords(key, maxSigners - i, buf[o..]))
    {
      var kp: Option<K>;
      RecordStep(key, maxSigners - i, buf[o..], read);
      AllRead(key, read, buf[o..]);
      kp, o := RdRecord(key, buf, o);
      if kp.None? {
        return None;
      }
      NumberedOneMore(read, kp.value);
      keyPackages := keyPackages[i + 1 := kp.value];
      read := read + [kp.value];
    }
    AllRead(key, read, buf[o..]);
    return Some(keyPackages);
  }

  /** What was read already, in front of what is still read. */
  function After<T>(xs: seq<T>, r: Option<(seq<T>, Bytes)>): Option<(seq<T>, Bytes)> {
    match r case None => None case Some((ys, rest)) => Some((xs + ys, rest))
  }

  lemma NothingRead<T>(r: Option<(seq<T>, Bytes)>)
    ensures After([], r) == r && Numbered<T>([]) == map[]
  {
    if r.Some? {
      assert [] + r.value.0 == r.value.0;
    }
  }

  lemma AllRead<T>(s: Serde<T>, xs: seq<T>, b: Bytes)
    ensures After(xs, ReadRecords(s, 0, b)) == Some((xs, b)) && After(xs, None) == None
  {
    assert xs + [] == xs;
  }

  lemma RecordStep<T>(s: Serde<T>, n: nat, b: Bytes, xs: seq<T>)
    requires n > 0
    ensures match ReadRecord(s, b)
            case None => ReadRecords(s, n, b) == None
            case Some((x, rest)) =>
              After(xs, ReadRecords(s, n, b)) == After(xs + [x], ReadRecords(s, n - 1, rest))
  {
    hide ReadRecord;
    if ReadRecord(s, b).Some? {
      var (x, rest) := ReadRecord(s, b).value;
      if ReadRecords(s, n - 1, rest).Some? {
        var ys := ReadRecords(s, n - 1, rest).value.0;
        assert xs + ([x] + ys) == xs + [x] + ys;
      }
    }
  }

  lemma NumberedOneMore<K>(xs: seq<K>, x: K)
    ensures Numbered(xs + [x]) == Numbered(xs)[|xs| + 1 := x]
  {}

  // ---- inverse, and closed on truncation -------------------------------------------------------------

  /** Every package serializes to something whose length 32 bits can hold. */
  ghost predicate Sized<K, P>(key: Serde<K>, pub: Serde<P>, ks: KeySet<K, P>) {
    && (forall k <- ks.keyPackages.Values :: key.serialize(k).Some? ==> |key.serialize(k).value| < 0x1_0000_0000)
    && (pub.serialize(ks.pubkeyPackage).Some? ==> |pub.serialize(ks.pubkeyPackage).value| < 0x1_0000_0000)
  }

  lemma RecordBack<T(!new)>(s: Serde<T>, x: T, rest: Bytes)
    requires Lossless(s) && s.serialize(x).Some? && |s.serialize(x).value| < 0x1_0000_0000
    ensures ReadRecord(s, Record(s.serialize(x).value) + rest) == Some((x, rest))
  {
    var b := s.serialize(x).value;
    SpanValues();
    assert Record(b) + rest == Le(4, |b|) + (b + rest);
    LeBack(4, |b|, b + rest);
    FixedBack(|b|, b, rest);
  }

  /** The packages 1..n as a list. */
  ghost function InOrder<K, P>(ks: KeySet<K, P>, n: nat): (xs: seq<K>)
    requires Complete(ks) && n <= ks.maxSigners
    ensures |xs| == n && forall i :: 0 <= i < n ==> xs[i] == ks.keyPackages[i + 1]
  {
    if n == 0 then [] else InOrder(ks, n - 1) + [ks.keyPackages[n]]
  }

  lemma {:induction false} RecordsBack<K(!new), P>(key: Serde<K>, pub: Serde<P>, ks: KeySet<K, P>, n: nat, more: nat,
                                                   rest: Bytes)
    requires Lossless(key) && Complete(ks) && n <= ks.maxSigners && Records(key, ks, n).Some? && Sized(key, pub, ks)
    ensures ReadRecords(key, n + more, Records(key, ks, n).value + rest)
         == After(InOrder(ks, n), ReadRecords(key, more, rest))
  {
    if n == 0 {
      NothingBack(key, ks, more, rest);
    } else {
      var k := ks.keyPackages[n];
      assert k in ks.keyPackages.Values;
      var s := key.serialize(k).value;
      RecordBack(key, k, rest);
      RecordsBack(key, pub, ks, n - 1, more + 1, Record(s) + rest);
      OneMoreBack(key, n + more, more, Records(key, ks, n - 1).value, s, k, InOrder(ks, n - 1), rest);
    }
  }

  lemma NothingBack<K, P>(key: Serde<K>, ks: KeySet<K, P>, more: nat, rest: Bytes)
    requires Complete(ks)
    ensures ReadRecords(key, more, Records(key, ks, 0).value + rest) == After(InOrder(ks, 0), ReadRecords(key, more, rest))
  {
    hide ReadRecords, After;
    assert [] + rest == rest;
    NothingRead(ReadRecords(key, more, rest));
  }

  lemma OneMoreBack<K>(key: Serde<K>, count: nat, more: nat, before: Bytes, s: Bytes, k: K, xs: seq<K>, rest: Bytes)
    requires ReadRecord(key, Record(s) + rest) == Some((k, rest))
    requires ReadRecords(key, count, before + (Record(s) + rest))
          == After(xs, ReadRecords(key, more + 1, Record(s) + rest))
    ensures ReadRecords(key, count, before + Record(s) + rest) == After(xs + [k], ReadRecords(key, more, rest))
  {
    hide ReadRecord, ReadRecords, Record, After;
    Assoc(before, Record(s), rest);
    RecordStep(key, more + 1, Record(s) + rest, xs);
  }

  lemma AllRecordsBack<K(!new), P>(key: Serde<K>, pub: Serde<P>, ks: KeySet<K, P>, rest: Bytes)
    requires Lossless(key) && Complete(ks) && Records(key, ks, ks.maxSigners).Some? && Sized(key, pub, ks)
    ensures ReadRecords(key, ks.maxSigners, Records(key, ks, ks.maxSigners).value + rest)
         == Some((InOrder(ks, ks.maxSigners), rest))
    ensures Numbered(InOrder(ks, ks.maxSigners)) == ks.keyPackages
  {
    RecordsBack(key, pub, ks, ks.maxSigners, 0, rest);
    hide Records;
    var xs := InOrder(ks, ks.maxSigners);
    assert ReadRecords(key, 0, rest) == Some(([], rest)) && xs + [] == xs;
  }

  /** Reading what was written gives the key set back; what follows it is not looked at. */
  lemma ReadsBack<K(!new), P(!new)>(key: Serde<K>, pub: Serde<P>, ks: KeySet<K, P>, rest: Bytes)
    requires Lossless(key) && Lossless(pub) && Complete(ks) && Sized(key, pub, ks) && Encoding(key, pub, ks).Some?
    ensures ReadKeySet(key, pub, Encoding(key, pub, ks).value + rest) == Some((ks, rest))
  {
    var pk := pub.serialize(ks.pubkeyPackage).value;
    var rs := Records(key, ks, ks.maxSigners).value;
    assert Encoding(key, pub, ks).value == Le(2, ks.maxSigners) + Le(2, ks.minSigners) + Record(pk) + rs;
    AllRecordsBack(key, pub, ks, rest);
    RecordBack(pub, ks.pubkeyPackage, rs + rest);
    hide Encoding, ReadRecord, ReadRecords, Records, Record, Numbered, InOrder, Lossless, Complete, Sized, Le, ReadKeySet;
    Nested(Le(2, ks.maxSigners), Le(2, ks.minSigners), Record(pk), rs, rest);
    HeaderBack(key, pub, ks.maxSigners, ks.minSigners, Record(pk) + (rs + rest));
  }

  lemma Nested(a: Bytes, b: Bytes, c: Bytes, d: Bytes, rest: Bytes)
    ensures a + b + c + d + rest == a + (b + (c + (d + rest)))
  {}

  lemma HeaderBack<K, P>(key: Serde<K>, pub: Serde<P>, max: U16, min: U16, b2: Bytes)
    requires ReadRecord(pub, b2).Some?
    ensures var (pk, b3) := ReadRecord(pub, b2).value;
            ReadKeySet(key, pub, Le(2, max) + (Le(2, min) + b2)) ==
            match ReadRecords(key, max, b3)
            case None => None
            case Some((ks, rest)) => Some((KeySet(Numbered(ks), pk, max, min), rest))
  {
    SpanValues();
    LeBack(2, max, Le(2, min) + b2);
    LeBack(2, min, b2);
    hide ReadLe, Le, ReadRecord, ReadRecords, Numbered;
  }

  /** More bytes behind what a reader accepts change nothing but what is left over. */
  lemma RecordExtends<T>(s: Serde<T>, b: Bytes, more: Bytes)
    requires ReadRecord(s, b).Some?
    ensures var (x, rest) := ReadRecord(s, b).value; ReadRecord(s, b + more) == Some((x, rest + more))
  {
    FieldExtends(b, 4, more);
    var n := LeValue(b[..4]);
    FieldExtends(b[4..], n, more);
  }

  lemma FieldExtends(b: Bytes, n: nat, more: Bytes)
    requires n <= |b|
    ensures (b + more)[..n] == b[..n] && (b + more)[n..] == b[n..] + more
  {}

  lemma {:induction false} RecordsExtend<T>(s: Serde<T>, n: nat, b: Bytes, more: Bytes)
    requires ReadRecords(s, n, b).Some?
    ensures var (xs, rest) := ReadRecords(s, n, b).value; ReadRecords(s, n, b + more) == Some((xs, rest + more))
  {
    hide ReadRecord;
    if n > 0 {
      var (x, rest) := ReadRecord(s, b).value;
      RecordExtends(s, b, more);
      RecordsExtend(s, n - 1, rest, more);
    }
  }

  lemma KeySetExtends<K, P>(key: Serde<K>, pub: Serde<P>, b: Bytes, more: Bytes)
    requires ReadKeySet(key, pub, b).Some?
    ensures var (ks, rest) := ReadKeySet(key, pub, b).value; ReadKeySet(key, pub, b + more) == Some((ks, rest + more))
  {
    SpanValues();
    FieldExtends(b, 2, more);
    FieldExtends(b[2..], 2, more);
    var b2 := b[2..][2..];
    hide ReadRecord, LeValue, ReadRecords;
    RecordExtends(pub, b2, more);
    var (_, b3) := ReadRecord(pub, b2).value;
    RecordsExtend(key, LeValue(b[..2]), b3, more);
  }

  /** Cut anywhere, a stored key set is refused as a whole. */
  lemma TruncatedIsRefused<K(!new), P(!new)>(key: Serde<K>, pub: Serde<P>, ks: KeySet<K, P>, cut: nat)
    requires Lossless(key) && Lossless(pub) && Complete(ks) && Sized(key, pub, ks) && Encoding(key, pub, ks).Some?
    requires cut < |Encoding(key, pub, ks).value|
    ensures ReadKeySet(key, pub, Encoding(key, pub, ks).value[..cut]) == None
  {
    hide ReadKeySet, Encoding;
    var b := Encoding(key, pub, ks).value;
    ReadsBack(key, pub, ks, []);
    assert b + [] == b && b[..cut] + b[cut..] == b;
    if ReadKeySet(key, pub, b[..cut]).Some? {
      KeySetExtends(key, pub, b[..cut], b[cut..]);
    }
  }
}

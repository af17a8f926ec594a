/** The authenticated wire message of the operator mesh: what is signed, and how it is framed. */
module Transport {
  import opened Bytes

  /** `to` is -1 on a broadcast. The signature travels beside the fields it covers. */
  datatype Envelope = Envelope(session: Bytes, from: nat, to: int, isBroadcast: bool, fin: bool, payload: Bytes)

  datatype Signed = Signed(envelope: Envelope, sig: Bytes)

  // ---- what a signature covers -------------------------------------------------------------

  /** Conversion of a Go `int` to `uint32`. */
  function Word(v: int): (w: nat)
    ensures w < 0x1_0000_0000
  {
    v % 0x1_0000_0000
  }

  function Flag(b: bool): Bytes {
    if b then [1] else [0]
  }

  /** The ten bytes between session and payload. */
  function Routing(e: Envelope): (b: Bytes)
    ensures |b| == 10
  {
    Be(4, Word(e.from)) + Be(4, Word(e.to)) + Flag(e.isBroadcast) + Flag(e.fin)
  }

  function SigningBytes(e: Envelope): Bytes {
    e.session + Routing(e) + e.payload
  }

  method WriteSigningBytes(e: Envelope) returns (b: Bytes)
    ensures b == SigningBytes(e)
  {
    b := e.session;
    b := b + Be(4, Word(e.from));
    b := b + Be(4, Word(e.to));
    if e.isBroadcast {
      b := b + [1];
    } else {
      b := b + [0];
    }
    if e.fin {
      b := b + [1];
    } else {
      b := b + [0];
    }
    assert b == e.session + Routing(e);
    b := b + e.payload;
  }

  /** Where each field lies in the signed bytes. */
  lemma SigningLayout(e: Envelope)
    ensures var b, n := SigningBytes(e), |e.session|;
            && |b| == n + 10 + |e.payload| && b[..n] == e.session
            && BeValue(b[n..n + 4]) == e.from % 0x1_0000_0000 && BeValue(b[n + 4..n + 8]) == e.to % 0x1_0000_0000
            && b[n + 8] == (if e.isBroadcast then 1 else 0) && b[n + 9] == (if e.fin then 1 else 0)
            && b[n + 10..] == e.payload
  {
    RoutingParts(e);
    SpanValues();
    BeFits(4, Word(e.from));
    BeFits(4, Word(e.to));
    hide Be, BeValue, Routing;
    var b, n := SigningBytes(e), |e.session|;
    assert b[n..n + 4] == Routing(e)[..4] && b[n + 4..n + 8] == Routing(e)[4..8];
  }

  /** Field values that the two 32-bit words can tell apart; an operator index is one, and so is -1. */
  predicate InRange(e: Envelope) {
    e.from < 0x1_0000_0000 && -1 <= e.to < 0xFFFF_FFFF
  }

  lemma WordInjective(a: int, b: int)
    requires Word(a) == Word(b) && -0x1_0000_0000 < a - b < 0x1_0000_0000
    ensures a == b
  {}

  lemma Quarters(a: Bytes, b: Bytes, c: Bytes, d: Bytes)
    requires |a| == 4 && |b| == 4 && |c| == 1 && |d| == 1
    ensures var r := a + b + c + d; r[..4] == a && r[4..8] == b && r[8] == c[0] && r[9] == d[0]
  {}

  lemma RoutingParts(e: Envelope)
    ensures Routing(e)[..4] == Be(4, Word(e.from)) && Routing(e)[4..8] == Be(4, Word(e.to))
    ensures Routing(e)[8] == Flag(e.isBroadcast)[0] && Routing(e)[9] == Flag(e.fin)[0]
  {
    hide Be;
    Quarters(Be(4, Word(e.from)), Be(4, Word(e.to)), Flag(e.isBroadcast), Flag(e.fin));
  }

  /** The ten bytes determine the four fields. */
  lemma RoutingDetermines(a: Envelope, b: Envelope)
    requires InRange(a) && InRange(b) && Routing(a) == Routing(b)
    ensures a.from == b.from && a.to == b.to && a.isBroadcast == b.isBroadcast && a.fin == b.fin
  {
    SpanValues();
    BeFits(4, Word(a.from));
    BeFits(4, Word(b.from));
    BeFits(4, Word(a.to));
    BeFits(4, Word(b.to));
    RoutingParts(a);
    RoutingParts(b);
    hide Be, BeValue, Routing, Word;
    WordInjective(a.from, b.from);
    WordInjective(a.to, b.to);
  }

  /** Within one session the signed bytes determine every field of the envelope. */
  lemma SigningBytesDetermine(a: Envelope, b: Envelope)
    requires InRange(a) && InRange(b) && |a.session| == |b.session|
    requires SigningBytes(a) == SigningBytes(b)
    ensures a == b
  {
    hide Routing;
    assert SigningBytes(a) == a.session + (Routing(a) + a.payload);
    assert SigningBytes(b) == b.session + (Routing(b) + b.payload);
    SplitEqual(a.session, Routing(a) + a.payload, b.session, Routing(b) + b.payload);
    SplitEqual(Routing(a), a.payload, Routing(b), b.payload);
    RoutingDetermines(a, b);
  }

  /** `t` extends `s` by bytes that can be read as the routing fields of a message of session `s`. */
  predicate Absorbs(s: Bytes, t: Bytes) {
    s < t && (|t| > |s| + 8 ==> t[|s| + 8] <= 1) && (|t| > |s| + 9 ==> t[|s| + 9] <= 1)
  }

  ghost predicate Confusable(s: Bytes, t: Bytes) {
    exists a, b :: Confuses(s, t, a, b)
  }

  ghost predicate Confuses(s: Bytes, t: Bytes, a: Envelope, b: Envelope) {
    a.session == s && b.session == t && InRange(a) && InRange(b) && SigningBytes(a) == SigningBytes(b)
  }

  /** The session is not length-prefixed, so two sessions share signed bytes exactly in this case. */
  lemma SessionsConfusableIff(s: Bytes, t: Bytes)
    requires s != t
    ensures Confusable(s, t) <==> Absorbs(s, t) || Absorbs(t, s)
  {
    if Absorbs(s, t) {
      var a, b := Confuse(s, t);
      assert Confuses(s, t, a, b);
    }
    if Absorbs(t, s) {
      var a, b := Confuse(t, s);
      assert Confuses(s, t, b, a);
    }
    if Confusable(s, t) {
      var a, b :| Confuses(s, t, a, b);
      if |s| < |t| {
        CollisionAbsorbs(a, b);
      } else if |t| < |s| {
        CollisionAbsorbs(b, a);
      } else {
        SigningBytesDetermine(a, b);
      }
    }
  }

  /** "distin-keygen", "distin-sign", "frost-keygen", "frost-sign" */
  const SESSION_KEYGEN: Bytes := [100, 105, 115, 116, 105, 110, 45, 107, 101, 121, 103, 101, 110]
  const SESSION_SIGN: Bytes := [100, 105, 115, 116, 105, 110, 45, 115, 105, 103, 110]
  const SESSION_FROST_KEYGEN_RUN: Bytes := [102, 114, 111, 115, 116, 45, 107, 101, 121, 103, 101, 110]
  const SESSION_FROST_SIGN_RUN: Bytes := [102, 114, 111, 115, 116, 45, 115, 105, 103, 110]

  const SESSIONS: set<Bytes> := {SESSION_KEYGEN, SESSION_SIGN, SESSION_FROST_KEYGEN_RUN, SESSION_FROST_SIGN_RUN}

  lemma SessionsSpellOut()
    ensures Spells(SESSION_KEYGEN, "distin-keygen") && Spells(SESSION_SIGN, "distin-sign")
    ensures Spells(SESSION_FROST_KEYGEN_RUN, "frost-keygen") && Spells(SESSION_FROST_SIGN_RUN, "frost-sign")
  {}

  predicate Spells(b: Bytes, text: string) {
    |b| == |text| && forall k :: 0 <= k < |text| ==> b[k] == text[k] as int
  }

  /** No two sessions the operators open can be confused; one that appends "-bad" to the last one could. */
  lemma SessionsAreApart(s: Bytes, t: Bytes)
    requires s in SESSIONS && t in SESSIONS && s != t
    ensures !Confusable(s, t)
    ensures Confusable(SESSION_FROST_SIGN_RUN, SESSION_FROST_SIGN_RUN + [45, 98, 97, 100])
  {
    EarlyDifference(s, t);
    SessionsConfusableIff(s, t);
    SessionsConfusableIff(SESSION_FROST_SIGN_RUN, SESSION_FROST_SIGN_RUN + [45, 98, 97, 100]);
  }

  lemma EarlyDifference(s: Bytes, t: Bytes)
    requires s in SESSIONS && t in SESSIONS && s != t
    ensures |s| > 7 && |t| > 7 && (s[0] != t[0] || s[6] != t[6] || s[7] != t[7])
  {}

  lemma CollisionAbsorbs(a: Envelope, b: Envelope)
    requires SigningBytes(a) == SigningBytes(b) && |a.session| < |b.session|
    ensures Absorbs(a.session, b.session)
  {
    hide Be;
    var w := SigningBytes(a);
    var s, t := a.session, b.session;
    assert w[..|s|] == s && w[..|t|] == t;
    assert s == t[..|s|];
    assert w[|s| + 8] == Routing(a)[8] && w[|s| + 9] == Routing(a)[9];
  }

  lemma Confuse(s: Bytes, t: Bytes) returns (a: Envelope, b: Envelope)
    requires Absorbs(s, t)
    ensures Confuses(s, t, a, b)
  {
    b := Envelope(t, 0, 0, false, false, []);
    ZeroRouting(b);
    var r := Routing(b);
    hide Be, Routing;
    var w := t[|s|..] + r;
    assert SigningBytes(b) == t + r + [] == s + w;
    assert |t| > |s| + 8 ==> w[8] == t[|s| + 8];
    assert |t| > |s| + 9 ==> w[9] == t[|s| + 9];
    a := ReadRouting(s, w);
  }

  /** Ten bytes whose last two are flags are the routing fields of some message. */
  lemma ReadRouting(s: Bytes, w: Bytes) returns (a: Envelope)
    requires |w| >= 10 && w[8] <= 1 && w[9] <= 1
    ensures a.session == s && InRange(a) && SigningBytes(a) == s + w
  {
    SpanValues();
    var to := BeValue(w[4..8]);
    a := Envelope(s, BeValue(w[..4]), if to == 0xFFFF_FFFF then -1 else to, w[8] == 1, w[9] == 1, w[10..]);
    BeOnto(w[..4]);
    BeOnto(w[4..8]);
    assert Word(a.from) == a.from && Word(a.to) == to && Flag(a.isBroadcast) == [w[8]] && Flag(a.fin) == [w[9]];
    TenBytes(s, w);
    hide Be, BeValue, Word, Flag;
  }

  lemma TenBytes(s: Bytes, w: Bytes)
    requires |w| >= 10
    ensures s + (w[..4] + w[4..8] + [w[8]] + [w[9]]) + w[10..] == s + w
  {
    assert w[..4] + w[4..8] + [w[8]] + [w[9]] == w[..10];
    assert s + w[..10] + w[10..] == s + (w[..10] + w[10..]);
  }

  lemma ZeroRouting(b: Envelope)
    requires b.from == 0 && b.to == 0 && !b.isBroadcast && !b.fin
    ensures forall k :: 0 <= k < 10 ==> Routing(b)[k] == 0
  {
    assert Be(4, 0) == Be(3, 0) + [0] == Be(2, 0) + [0] + [0] == Be(1, 0) + [0, 0, 0] == [0, 0, 0, 0];
  }

  // ---- signatures ----------------------------------------------------------------------------

  /** Ed25519, as far as the transport relies on it. */
  datatype Ed25519 = Ed25519(sign: (Bytes, Bytes) -> Bytes, verify: (Bytes, Bytes, Bytes) -> bool)

  function SignedBy(c: Ed25519, priv: Bytes, e: Envelope): Signed {
    Signed(e, c.sign(priv, SigningBytes(e)))
  }

  predicate Verify(c: Ed25519, pub: Bytes, m: Signed) {
    c.verify(pub, SigningBytes(m.envelope), m.sig)
  }

  /**
   * A frame that verifies with a signature made for another envelope of the same session is that
   * envelope, or it exhibits a signature that is valid for two different messages.
   */
  lemma AcceptedIsSigned(c: Ed25519, priv: Bytes, pub: Bytes, sent: Envelope, m: Signed)
    requires c.verify(pub, SigningBytes(sent), c.sign(priv, SigningBytes(sent)))
    requires m.sig == SignedBy(c, priv, sent).sig && m.envelope.session == sent.session
    requires InRange(sent) && InRange(m.envelope)
    ensures Verify(c, pub, m) ==>
              m.envelope == sent
              || exists x, y :: x != y && c.verify(pub, x, m.sig) && c.verify(pub, y, m.sig)
  {
    if Verify(c, pub, m) && SigningBytes(m.envelope) == SigningBytes(sent) {
      SigningBytesDetermine(m.envelope, sent);
    }
  }

  // ---- frames on a byte stream -----------------------------------------------------------------

  const MAX_FRAME: nat := 0x100_0000

  datatype Json = Json(marshal: Signed -> Bytes, unmarshal: Bytes -> Option<Signed>)

  ghost predicate Inverse(j: Json) {
    forall m :: j.unmarshal(j.marshal(m)) == Some(m)
  }

  datatype ReadError = EndOfStream | ShortRead | BadLength(n: nat) | Malformed
  datatype FrameRead = Got(m: Signed, rest: Bytes) | Stopped(error: ReadError)

  function Framed(j: Json, m: Signed): Bytes {
    Be(4, |j.marshal(m)|) + j.marshal(m)
  }

  function ParseFrame(j: Json, s: Bytes): (r: FrameRead)
    ensures r.Got? ==> |r.rest| < |s|
  {
    if s == [] then Stopped(EndOfStream)
    else if |s| < 4 then Stopped(ShortRead)
    else
      var n := BeValue(s[..4]);
      if n == 0 || n > MAX_FRAME then Stopped(BadLength(n))
      else if |s| == 4 then Stopped(EndOfStream)
      else if |s| < 4 + n then Stopped(ShortRead)
      else match j.unmarshal(s[4..4 + n])
           case None => Stopped(Malformed)
           case Some(m) => Got(m, s[4 + n..])
  }

  method ReadFrame(j: Json, r: Bytes) returns (result: FrameRead)
    ensures result == ParseFrame(j, r)
    ensures result.Got? ==>
              |r| >= 4 && var n := BeValue(r[..4]);
              0 < n <= 0x100_0000 && |r| >= 4 + n
              && j.unmarshal(r[4..4 + n]) == Some(result.m) && result.rest == r[4 + n..]
    ensures (|r| >= 4 && 0 < BeValue(r[..4]) <= 0x100_0000 && |r| >= 4 + BeValue(r[..4])) ==>
              if j.unmarshal(r[4..4 + BeValue(r[..4])]).Some? then result.Got? else result == Stopped(Malformed)
    ensures |r| >= 4 && (BeValue(r[..4]) == 0 || BeValue(r[..4]) > 0x100_0000) ==>
              result == Stopped(BadLength(BeValue(r[..4])))
  {
    if |r| < 4 {
      return Stopped(if r == [] then EndOfStream else ShortRead);
    }
    var n := BeValue(r[..4]);
    if n == 0 || n > MAX_FRAME {
      return Stopped(BadLength(n));
    }
    var body := r[4..];
    if |body| < n {
      return Stopped(if body == [] then EndOfStream else ShortRead);
    }
    assert body[..n] == r[4..4 + n] && body[n..] == r[4 + n..];
    var m := j.unmarshal(body[..n]);
    match m {
      case None => return Stopped(Malformed);
      case Some(e) => return Got(e, body[n..]);
    }
  }

  method WriteFrame(j: Json, w: Bytes, m: Signed) returns (w': Bytes)
    ensures w' == w + Framed(j, m)
    ensures w' == w + (Be(4, |j.marshal(m)|) + j.marshal(m))
  {
    var bz := j.marshal(m);
    var hdr := Be(4, |bz|);
    w' := w + hdr;
    w' := w' + bz;
  }

  /** A frame is read back, with the stream left right behind it, exactly when its size is allowed. */
  lemma FrameRoundTripIff(j: Json, m: Signed, rest: Bytes)
    requires Inverse(j)
    ensures ParseFrame(j, Framed(j, m) + rest) == Got(m, rest) <==> 0 < |j.marshal(m)| <= MAX_FRAME
  {
    var bz := j.marshal(m);
    var s := Framed(j, m) + rest;
    assert s[..4] == Be(4, |bz|);
    assert s == Be(4, |bz|) + (bz + rest);
    SpanValues();
    BeRoundTrip(4, |bz|);
    var n := BeValue(s[..4]);
    if 0 < |bz| <= MAX_FRAME {
      BeFits(4, |bz|);
      assert s[4..4 + n] == bz && s[4 + n..] == rest;
    }
    if ParseFrame(j, s) == Got(m, rest) {
      assert |s[4 + n..]| == |rest|;
    }
  }

  function Stream(j: Json, ms: seq<Signed>): Bytes {
    if ms == [] then [] else Framed(j, ms[0]) + Stream(j, ms[1..])
  }

  /** Everything a reader gets off a stream, and why it stops. */
  function ParseAll(j: Json, s: Bytes): (r: (seq<Signed>, ReadError))
    decreases |s|
  {
    match ParseFrame(j, s)
    case Stopped(e) => ([], e)
    case Got(m, rest) => Before([m], ParseAll(j, rest))
  }

  /** Frames already read, in front of what the rest of the stream gives. */
  function Before(ms: seq<Signed>, r: (seq<Signed>, ReadError)): (seq<Signed>, ReadError) {
    (ms + r.0, r.1)
  }

  lemma BeforeTwice(ms: seq<Signed>, m: Signed, r: (seq<Signed>, ReadError))
    ensures Before(ms, Before([m], r)) == Before(ms + [m], r)
    ensures Before([], r) == r && Before(ms, ([], r.1)) == (ms, r.1)
  {
    assert ms + ([m] + r.0) == ms + [m] + r.0;
    assert [] + r.0 == r.0 && ms + [] == ms;
  }

  method ReadAll(j: Json, stream: Bytes) returns (ms: seq<Signed>, error: ReadError)
    ensures (ms, error) == ParseAll(j, stream)
  {
    var s := stream;
    ms := [];
    BeforeTwice([], Signed(Envelope([], 0, 0, false, false, []), []), ParseAll(j, s));
    hide Before, BeValue;
    while true
      invariant ParseAll(j, stream) == Before(ms, ParseAll(j, s))
      decreases |s|
    {
      var r := ReadFrame(j, s);
      match r {
        case Stopped(e) =>
          BeforeTwice(ms, Signed(Envelope([], 0, 0, false, false, []), []), ([], e));
          return ms, e;
        case Got(m, rest) =>
          BeforeTwice(ms, m, ParseAll(j, rest));
          ms := ms + [m];
          s := rest;
      }
    }
  }

  /** How many frames lie wholly within the first `cut` bytes of a stream. */
  function Whole(j: Json, ms: seq<Signed>, cut: nat): (k: nat)
    ensures k <= |ms|
  {
    if ms == [] || cut < |Framed(j, ms[0])| then 0
    else 1 + Whole(j, ms[1..], cut - |Framed(j, ms[0])|)
  }

  lemma TakePast(f: Bytes, tail: Bytes, cut: nat)
    requires |f| <= cut <= |f| + |tail|
    ensures (f + tail)[..cut] == f + tail[..cut - |f|]
  {}

  lemma TakeWithin(f: Bytes, tail: Bytes, cut: nat)
    requires cut < |f|
    ensures (f + tail)[..cut] == f[..cut]
  {}

  lemma ParseAllStops(j: Json, s: Bytes)
    requires ParseFrame(j, s).Stopped?
    ensures ParseAll(j, s) == ([], ParseFrame(j, s).error)
  {}

  lemma ParseAllGoesOn(j: Json, s: Bytes)
    requires ParseFrame(j, s).Got?
    ensures ParseAll(j, s) == Before([ParseFrame(j, s).m], ParseAll(j, ParseFrame(j, s).rest))
  {}

  lemma StreamTaken(j: Json, ms: seq<Signed>, k: nat)
    requires ms != [] && k < |ms|
    ensures ms[..k + 1] == [ms[0]] + ms[1..][..k]
    ensures |Stream(j, ms[..k + 1])| == |Framed(j, ms[0])| + |Stream(j, ms[1..][..k])|
  {
    assert ms[..k + 1] == [ms[0]] + ms[1..][..k];
    assert ms[..k + 1][1..] == ms[1..][..k];
  }

  /** What a reader makes of the first `cut` bytes of a stream. */
  ghost predicate CutReads(j: Json, ms: seq<Signed>, cut: nat)
    requires cut <= |Stream(j, ms)|
  {
    var k := Whole(j, ms, cut);
    var left := cut - |Stream(j, ms[..k])|;
    left >= 0 && ParseAll(j, Stream(j, ms)[..cut]) == (ms[..k], if left == 0 || left == 4 then EndOfStream else ShortRead)
  }

  lemma CutWithin(j: Json, ms: seq<Signed>, cut: nat)
    requires ms != [] && cut < |Framed(j, ms[0])| && 0 < |j.marshal(ms[0])| <= MAX_FRAME
    ensures cut <= |Stream(j, ms)| && CutReads(j, ms, cut)
  {
    TakeWithin(Framed(j, ms[0]), Stream(j, ms[1..]), cut);
    assert ms[..0] == [];
    PartialFrame(j, ms[0], cut);
    hide ParseFrame, Framed;
    ParseAllStops(j, Framed(j, ms[0])[..cut]);
  }

  lemma CutPast(j: Json, ms: seq<Signed>, cut: nat)
    requires ms != [] && |Framed(j, ms[0])| <= cut <= |Stream(j, ms)|
    requires Inverse(j) && 0 < |j.marshal(ms[0])| <= MAX_FRAME
    requires CutReads(j, ms[1..], cut - |Framed(j, ms[0])|)
    ensures CutReads(j, ms, cut)
  {
    var f, tail := Framed(j, ms[0]), Stream(j, ms[1..]);
    var rest := tail[..cut - |f|];
    assert Stream(j, ms) == f + tail && Whole(j, ms, cut) == 1 + Whole(j, ms[1..], cut - |f|);
    hide ParseFrame, ParseAll, Framed, Stream, Whole, Inverse;
    TakePast(f, tail, cut);
    FrameRoundTripIff(j, ms[0], rest);
    StreamTaken(j, ms, Whole(j, ms[1..], cut - |f|));
    ParseAllGoesOn(j, f + rest);
  }

  /**
   * A stream cut at any byte: the reader gets exactly the frames that arrived whole, in order, and
   * reports a clean end only at a frame boundary or right behind a length prefix.
   */
  lemma {:induction false} CutStream(j: Json, ms: seq<Signed>, cut: nat)
    requires Inverse(j) && forall m <- ms :: 0 < |j.marshal(m)| <= MAX_FRAME
    requires cut <= |Stream(j, ms)|
    ensures CutReads(j, ms, cut)
  {
    if ms == [] {
      assert Stream(j, ms)[..cut] == [];
    } else {
      assert ms[0] in ms;
      hide CutReads, ParseFrame, ParseAll, Framed, Inverse;
      if cut < |Framed(j, ms[0])| {
        CutWithin(j, ms, cut);
      } else {
        CutStream(j, ms[1..], cut - |Framed(j, ms[0])|);
        CutPast(j, ms, cut);
      }
    }
  }

  lemma PartialFrame(j: Json, m: Signed, cut: nat)
    requires 0 < |j.marshal(m)| <= MAX_FRAME && cut < |Framed(j, m)|
    ensures ParseFrame(j, Framed(j, m)[..cut]) == Stopped(if cut == 0 || cut == 4 then EndOfStream else ShortRead)
  {
    var f := Framed(j, m);
    if cut >= 4 {
      assert f[..cut][..4] == Be(4, |j.marshal(m)|);
      SpanValues();
      BeFits(4, |j.marshal(m)|);
    }
  }
}

/** Identifiable abort: the statement operators sign about a culprit, and the quorum over it. */
module Fault {
  import opened Bytes
  import opened Transport

  datatype FaultReport = FaultReport(session: Bytes, messageHash: Bytes, round: int, culprit: int, culpritKey: Bytes)

  /** "distin-fault-report-v1\0" */
  const MAGIC: Bytes := [100, 105, 115, 116, 105, 110, 45, 102, 97, 117, 108, 116, 45,
                         114, 101, 112, 111, 114, 116, 45, 118, 49, 0]

  /** "distin-frost-sign" */
  const SESSION_FROST_SIGN: Bytes := [100, 105, 115, 116, 105, 110, 45, 102, 114, 111, 115, 116, 45, 115, 105, 103, 110]

  const FAULT_ROUND_FROST_SHARE := 1001

  function FrostFaultReport(msg32: Bytes, culprit: int, culpritKey: Bytes): FaultReport {
    FaultReport(SESSION_FROST_SIGN, msg32, FAULT_ROUND_FROST_SHARE, culprit, culpritKey)
  }

  // ---- the digest's preimage -------------------------------------------------------------------

  function Prefixed(b: Bytes): Bytes {
    Be(4, |b|) + b
  }

  function Preimage(r: FaultReport): Bytes {
    MAGIC + Prefixed(r.session) + Prefixed(r.messageHash) + Be(4, Word(r.round)) + Be(4, Word(r.culprit))
    + Prefixed(r.culpritKey)
  }

  class Hasher {
    var written: Bytes

    constructor ()
      ensures written == []
    {
      written := [];
    }

    method Write(b: Bytes)
      modifies this
      ensures written == old(written) + b
    {
      written := written + b;
    }

    method WriteLP(b: Bytes)
      modifies this
      ensures written == old(written) + Prefixed(b)
    {
      Write(Be(4, |b|));
      Write(b);
    }
  }

  method Digest32(r: FaultReport, sha256: Bytes -> Bytes) returns (d: Bytes)
    ensures d == sha256(Preimage(r))
  {
    var h := new Hasher();
    h.Write(MAGIC);
    h.WriteLP(r.session);
    h.WriteLP(r.messageHash);
    h.Write(Be(4, Word(r.round)));
    h.Write(Be(4, Word(r.culprit)));
    h.WriteLP(r.culpritKey);
    assert h.written == Preimage(r) by {
      hide Prefixed, Be, Word;
    }
    d := sha256(h.written);
  }

  /** The tag is its text with a zero behind it, and the session names are theirs. */
  lemma TagsSpellOut()
    ensures var text := "distin-fault-report-v1";
            |MAGIC| == |text| + 1 && MAGIC[|text|] == 0 && forall k :: 0 <= k < |text| ==> MAGIC[k] == text[k] as int
    ensures var text := "distin-frost-sign";
            |SESSION_FROST_SIGN| == |text| && forall k :: 0 <= k < |text| ==> SESSION_FROST_SIGN[k] == text[k] as int
  {}

  /** A reader of the preimage: big-endian words and length-prefixed strings behind the tag. */
  function ReadWord(b: Bytes): Option<(nat, Bytes)> {
    if |b| < 4 then None else Some((BeValue(b[..4]), b[4..]))
  }

  function ReadString(b: Bytes): Option<(Bytes, Bytes)> {
    match ReadWord(b)
    case None => None
    case Some((n, rest)) => if |rest| < n then None else Some((rest[..n], rest[n..]))
  }

  function ReadReport(b: Bytes): Option<FaultReport> {
    if |b| < 23 || b[..23] != MAGIC then None
    else match ReadString(b[23..])
         case None => None
         case Some((session, b1)) =>
           match ReadString(b1)
           case None => None
           case Some((messageHash, b2)) => ReadAccusation(session, messageHash, b2)
  }

  function ReadAccusation(session: Bytes, messageHash: Bytes, b: Bytes): Option<FaultReport> {
    match ReadWord(b)
    case None => None
    case Some((round, b1)) =>
      match ReadWord(b1)
      case None => None
      case Some((culprit, b2)) =>
        match ReadString(b2)
        case None => None
        case Some((key, end)) =>
          if end == [] then Some(FaultReport(session, messageHash, round, culprit, key)) else None
  }

  lemma WordReads(v: nat, rest: Bytes)
    requires v < 0x1_0000_0000
    ensures ReadWord(Be(4, v) + rest) == Some((v, rest))
  {
    SpanValues();
    BeFits(4, v);
    TakeDrop(Be(4, v), rest);
    hide Be, BeValue;
  }

  lemma StringReads(s: Bytes, rest: Bytes)
    requires |s| < 0x1_0000_0000
    ensures ReadString(Prefixed(s) + rest) == Some((s, rest))
  {
    hide Be, ReadWord;
    assert Prefixed(s) + rest == Be(4, |s|) + (s + rest);
    WordReads(|s|, s + rest);
    TakeDrop(s, rest);
  }

  lemma TailReads(r: FaultReport)
    requires Sized(r)
    ensures ReadAccusation(r.session, r.messageHash, Tail(r)) ==
            Some(FaultReport(r.session, r.messageHash, r.round % 0x1_0000_0000, r.culprit % 0x1_0000_0000, r.culpritKey))
  {
    var key := Prefixed(r.culpritKey) + [];
    hide Prefixed, Be, ReadString, ReadWord;
    WordReads(Word(r.round), Be(4, Word(r.culprit)) + key);
    WordReads(Word(r.culprit), key);
    StringReads(r.culpritKey, []);
  }

  /** The preimage reads back field by field, in the documented order, numbers modulo 32 bits. */
  lemma ReportReadsBack(r: FaultReport)
    requires Sized(r)
    ensures ReadReport(Preimage(r)) ==
            Some(FaultReport(r.session, r.messageHash, r.round % 0x1_0000_0000, r.culprit % 0x1_0000_0000, r.culpritKey))
  {
    PreimageAssoc(r);
    TailReads(r);
    assert |MAGIC| == 23;
    hide Prefixed, ReadString, Preimage, Tail, ReadAccusation, MAGIC;
    TakeDrop(MAGIC, Prefixed(r.session) + (Prefixed(r.messageHash) + Tail(r)));
    StringReads(r.session, Prefixed(r.messageHash) + Tail(r));
    StringReads(r.messageHash, Tail(r));
  }

  /** A FROST report names its message, culprit and key, under the FROST session and round 1001. */
  lemma FrostReportReadsBack(msg32: Bytes, culprit: nat, key: Bytes)
    requires |msg32| < 0x1_0000_0000 && |key| < 0x1_0000_0000 && culprit < 0x1_0000_0000
    ensures ReadReport(Preimage(FrostFaultReport(msg32, culprit, key))) ==
            Some(FaultReport(SESSION_FROST_SIGN, msg32, 1001, culprit, key))
  {
    var r := FrostFaultReport(msg32, culprit, key);
    FrostReportFields(msg32, culprit, key);
    SmallNumber(r.round);
    SmallNumber(r.culprit);
    hide Preimage, ReadReport, FrostFaultReport, Sized;
    ReportReadsBack(r);
  }

  lemma FrostReportFields(msg32: Bytes, culprit: nat, key: Bytes)
    requires |msg32| < 0x1_0000_0000 && |key| < 0x1_0000_0000
    ensures var r := FrostFaultReport(msg32, culprit, key);
            r == FaultReport(SESSION_FROST_SIGN, msg32, 1001, culprit, key) && Sized(r)
  {}

  lemma SmallNumber(v: int)
    requires 0 <= v < 0x1_0000_0000
    ensures v % 0x1_0000_0000 == v
  {}

  predicate Sized(r: FaultReport) {
    |r.session| < 0x1_0000_0000 && |r.messageHash| < 0x1_0000_0000 && |r.culpritKey| < 0x1_0000_0000
  }

  /** A length-prefixed string can be told from whatever follows it. */
  lemma PrefixedSplits(a: Bytes, x: Bytes, b: Bytes, y: Bytes)
    requires |a| < 0x1_0000_0000 && |b| < 0x1_0000_0000
    requires Prefixed(a) + x == Prefixed(b) + y
    ensures a == b && x == y
  {
    Assoc(Be(4, |a|), a, x);
    Assoc(Be(4, |b|), b, y);
    SameLength(|a|, |b|, a + x, b + y);
    hide Be;
    SplitEqual(Be(4, |a|), a + x, Be(4, |b|), b + y);
    SplitEqual(a, x, b, y);
  }

  lemma SameLength(m: nat, n: nat, x: Bytes, y: Bytes)
    requires m < 0x1_0000_0000 && n < 0x1_0000_0000 && Be(4, m) + x == Be(4, n) + y
    ensures m == n
  {
    SplitEqual(Be(4, m), x, Be(4, n), y);
    SpanValues();
    BeFits(4, m);
    BeFits(4, n);
  }

  lemma WordSplits(v: int, x: Bytes, w: int, y: Bytes)
    requires Be(4, Word(v)) + x == Be(4, Word(w)) + y
    ensures Word(v) == Word(w) && x == y
  {
    SplitEqual(Be(4, Word(v)), x, Be(4, Word(w)), y);
    SpanValues();
    BeFits(4, Word(v));
    BeFits(4, Word(w));
  }

  /** The same statement, as far as the 32-bit numbers in it go. */
  predicate SameStatement(a: FaultReport, b: FaultReport) {
    && a.session == b.session && a.messageHash == b.messageHash && a.culpritKey == b.culpritKey
    && Word(a.round) == Word(b.round) && Word(a.culprit) == Word(b.culprit)
  }

  function Tail(r: FaultReport): Bytes {
    Be(4, Word(r.round)) + (Be(4, Word(r.culprit)) + (Prefixed(r.culpritKey) + []))
  }

  lemma PreimageAssoc(r: FaultReport)
    ensures Preimage(r) == MAGIC + (Prefixed(r.session) + (Prefixed(r.messageHash) + Tail(r)))
  {
    hide Prefixed, Be, Word;
    var m, s, h := MAGIC, Prefixed(r.session), Prefixed(r.messageHash);
    var n, c, k := Be(4, Word(r.round)), Be(4, Word(r.culprit)), Prefixed(r.culpritKey);
    assert m + s + h + n + c + k == m + (s + (h + (n + (c + (k + [])))));
  }

  /** Two reports are hashed from the same bytes exactly when they make the same statement. */
  lemma PreimageDetermines(a: FaultReport, b: FaultReport)
    requires Sized(a) && Sized(b)
    ensures Preimage(a) == Preimage(b) <==> SameStatement(a, b)
  {
    if Preimage(a) == Preimage(b) {
      PreimageAssoc(a);
      PreimageAssoc(b);
      hide Prefixed, Be, Word;
      SplitEqual(MAGIC, Prefixed(a.session) + (Prefixed(a.messageHash) + Tail(a)),
                 MAGIC, Prefixed(b.session) + (Prefixed(b.messageHash) + Tail(b)));
      PrefixedSplits(a.session, Prefixed(a.messageHash) + Tail(a), b.session, Prefixed(b.messageHash) + Tail(b));
      PrefixedSplits(a.messageHash, Tail(a), b.messageHash, Tail(b));
      WordSplits(a.round, Be(4, Word(a.culprit)) + (Prefixed(a.culpritKey) + []),
                 b.round, Be(4, Word(b.culprit)) + (Prefixed(b.culpritKey) + []));
      WordSplits(a.culprit, Prefixed(a.culpritKey) + [], b.culprit, Prefixed(b.culpritKey) + []);
      PrefixedSplits(a.culpritKey, [], b.culpritKey, []);
    }
  }

  /** Equal digests mean the same statement, or a SHA-256 collision is in hand. */
  lemma DigestDetermines(a: FaultReport, b: FaultReport, sha256: Bytes -> Bytes)
    requires Sized(a) && Sized(b) && sha256(Preimage(a)) == sha256(Preimage(b))
    ensures SameStatement(a, b) || Collision(sha256, Preimage(a), Preimage(b))
  {
    PreimageDetermines(a, b);
  }

  /** A FROST report and a report of a GG20 session, or of another round, are never hashed from the same bytes. */
  lemma SchemesNeverShare(msg32: Bytes, culprit: int, key: Bytes, other: FaultReport)
    requires Sized(FrostFaultReport(msg32, culprit, key)) && Sized(other)
    requires other.session == SESSION_SIGN || Word(other.round) != FAULT_ROUND_FROST_SHARE
    ensures Preimage(FrostFaultReport(msg32, culprit, key)) != Preimage(other)
  {
    PreimageDetermines(FrostFaultReport(msg32, culprit, key), other);
    assert |SESSION_FROST_SIGN| != |SESSION_SIGN|;
  }

  // ---- attestations and their quorum -------------------------------------------------------------

  datatype Attestation = Attestation(report: FaultReport, attester: int, attesterKey: Bytes, sig: Bytes)

  datatype Crypto = Crypto(sha256: Bytes -> Bytes, verify: (Bytes, Bytes, Bytes) -> bool)

  function DigestOf(c: Crypto, a: Attestation): Bytes {
    c.sha256(Preimage(a.report))
  }

  predicate VerifyAttestation(c: Crypto, a: Attestation) {
    |a.attesterKey| == 32 && |a.sig| == 64 && c.verify(a.attesterKey, DigestOf(c, a), a.sig)
  }

  /** `a` counts towards digest `d`: a valid signature over it, by somebody else than the culprit. */
  predicate Counts(c: Crypto, a: Attestation, d: Bytes) {
    VerifyAttestation(c, a) && DigestOf(c, a) == d && a.attester != a.report.culprit
  }

  function Signers(c: Crypto, atts: seq<Attestation>, d: Bytes): set<int> {
    set a | a in atts && Counts(c, a, d) :: a.attester
  }

  /** The attestations that are kept for `d`: of one signer's, the last. */
  function BySigner(c: Crypto, atts: seq<Attestation>, d: Bytes): map<int, Attestation> {
    if atts == [] then map[]
    else
      var a := atts[|atts| - 1];
      var m := BySigner(c, atts[..|atts| - 1], d);
      if Counts(c, a, d) then m[a.attester := a] else m
  }

  lemma {:induction false} BySignerKeys(c: Crypto, atts: seq<Attestation>, d: Bytes)
    ensures BySigner(c, atts, d).Keys == Signers(c, atts, d)
    ensures forall s <- BySigner(c, atts, d) ::
              var a := BySigner(c, atts, d)[s]; a in atts && Counts(c, a, d) && a.attester == s
  {
    hide Counts;
    if atts != [] {
      var front, a := atts[..|atts| - 1], atts[|atts| - 1];
      BySignerKeys(c, front, d);
      assert atts == front + [a];
      assert forall x :: x in atts <==> x in front || x == a;
      SignersOneMore(c, front, a, d);
    }
  }

  lemma SignersOneMore(c: Crypto, front: seq<Attestation>, a: Attestation, d: Bytes)
    ensures Signers(c, front + [a], d) == Signers(c, front, d) + if Counts(c, a, d) then {a.attester} else {}
  {
    hide Counts;
    var atts := front + [a];
    forall x | x in Signers(c, front, d) ensures x in Signers(c, atts, d) {
      var b :| b in front && Counts(c, b, d) && b.attester == x;
      assert b in atts;
    }
    if Counts(c, a, d) {
      assert a in atts;
    }
  }

  predicate Enough(c: Crypto, atts: seq<Attestation>, d: Bytes, need: int) {
    |Signers(c, atts, d)| >= need
  }

  ghost predicate Succeeds(c: Crypto, atts: seq<Attestation>, need: int) {
    exists d: Bytes :: Enough(c, atts, d, need)
  }

  /** One attestation of every signer of `d`, its last one, each once. */
  ghost predicate IsBundle(c: Crypto, atts: seq<Attestation>, d: Bytes, out: seq<Attestation>) {
    var kept := BySigner(c, atts, d);
    && (forall a <- out :: a.attester in kept && kept[a.attester] == a)
    && (forall s <- kept :: kept[s] in out)
    && (forall i, j :: 0 <= i < j < |out| ==> out[i].attester != out[j].attester)
  }

  datatype Collection = Agreed(bundle: seq<Attestation>) | NeedTooSmall | NoQuorum

  /** The valid attestations by digest and attester, the last of one attester's; the culprit's own only open a group. */
  method GroupByDigest(c: Crypto, atts: seq<Attestation>) returns (groups: map<Bytes, map<int, Attestation>>)
    ensures Grouped(c, atts, groups)
  {
    groups := map[];
    for k := 0 to |atts|
      invariant Grouped(c, atts[..k], groups)
    {
      var a := atts[k];
      var front := atts[..k];
      assert atts[..k + 1][..k] == front && atts[..k + 1][k] == a;
      GroupStep(c, front, a, groups);
      assert atts[..k + 1] == front + [a];
      if !VerifyAttestation(c, a) {
        continue;
      }
      var digest := DigestOf(c, a);
      if digest !in groups {
        groups := groups[digest := map[]];
      }
      if a.attester == a.report.culprit {
        continue;
      }
      groups := groups[digest := groups[digest][a.attester := a]];
    }
    assert atts[..|atts|] == atts;
  }

  /** The search through the groups, in the order of the map. */
  method FirstWithEnough(c: Crypto, atts: seq<Attestation>, need: int) returns (r: Collection, ghost d: Bytes)
    ensures need < 1 <==> r == NeedTooSmall
    ensures need >= 1 ==> (r.Agreed? <==> Succeeds(c, atts, need))
    ensures r.Agreed? ==> Enough(c, atts, d, need) && IsBundle(c, atts, d, r.bundle)
  {
    d := [];
    if need < 1 {
      return NeedTooSmall, d;
    }
    var groups := GroupByDigest(c, atts);
    var todo := groups.Keys;
    while todo != {}
      invariant todo <= groups.Keys
      invariant forall e <- groups.Keys - todo :: |groups[e]| < need
      decreases |todo|
    {
      var e :| e in todo;
      if |groups[e]| >= need {
        BySignerKeys(c, atts, e);
        assert |groups[e].Keys| == |groups[e]|;
        var out := Bundle(c, atts, e, groups[e]);
        d := e;
        assert Enough(c, atts, d, need);
        return Agreed(out), d;
      }
      todo := todo - {e};
    }
    forall e: Bytes ensures !Enough(c, atts, e, need) {
      BySignerKeys(c, atts, e);
      assert |BySigner(c, atts, e).Keys| == |BySigner(c, atts, e)|;
    }
    return NoQuorum, d;
  }

  /**
   * Succeeds exactly when some digest has `need` distinct attesters; which one it returns then is
   * up to the order of the map, but it is always the whole bundle of a digest that has enough.
   */
  method CollectFault(c: Crypto, atts: seq<Attestation>, need: int) returns (r: Collection, ghost d: Bytes)
    ensures need < 1 <==> r == NeedTooSmall
    ensures need >= 1 ==> (r.Agreed? <==> Succeeds(c, atts, need))
    ensures r.Agreed? ==> Enough(c, atts, d, need) && IsBundle(c, atts, d, r.bundle)
    ensures r.Agreed? ==> |r.bundle| >= need && forall a <- r.bundle ::
              a in atts && |a.attesterKey| == 32 && |a.sig| == 64 && a.attester != a.report.culprit
              && c.sha256(Preimage(a.report)) == d && c.verify(a.attesterKey, d, a.sig)
    ensures r.Agreed? ==> forall i, j :: 0 <= i < j < |r.bundle| ==> r.bundle[i].attester != r.bundle[j].attester
    ensures r.Agreed? ==> forall k ::
              0 <= k < |atts| && |atts[k].attesterKey| == 32 && |atts[k].sig| == 64
              && atts[k].attester != atts[k].report.culprit
              && c.sha256(Preimage(atts[k].report)) == d && c.verify(atts[k].attesterKey, d, atts[k].sig) ==>
                exists m :: k <= m < |atts| && atts[m] in r.bundle && atts[m].attester == atts[k].attester
  {
    hide *;
    r, d := FirstWithEnough(c, atts, need);
    if r.Agreed? {
      BundleHolds(c, atts, d, r.bundle);
      BundleIsLast(c, atts, d, r.bundle);
    }
  }

  /** What is in a bundle, by the checks that every attestation passed. */
  lemma BundleHolds(c: Crypto, atts: seq<Attestation>, d: Bytes, out: seq<Attestation>)
    requires IsBundle(c, atts, d, out)
    ensures forall need :: Enough(c, atts, d, need) ==> |out| >= need
    ensures forall a <- out ::
              a in atts && |a.attesterKey| == 32 && |a.sig| == 64 && a.attester != a.report.culprit
              && c.sha256(Preimage(a.report)) == d && c.verify(a.attesterKey, d, a.sig)
  {
    BySignerKeys(c, atts, d);
    hide BySigner, Preimage;
    var kept := BySigner(c, atts, d);
    forall s <- Signers(c, atts, d) ensures s in Numbered(out) {
      assert kept[s] in out && kept[s].attester == s;
    }
    Fewer(Signers(c, atts, d), Numbered(out));
    NumberedSize(out);
  }

  /** Nothing valid is left out: at it or behind it the bundle has one of the same number. */
  lemma BundleIsLast(c: Crypto, atts: seq<Attestation>, d: Bytes, out: seq<Attestation>)
    requires IsBundle(c, atts, d, out)
    ensures forall k ::
              0 <= k < |atts| && |atts[k].attesterKey| == 32 && |atts[k].sig| == 64
              && atts[k].attester != atts[k].report.culprit
              && c.sha256(Preimage(atts[k].report)) == d && c.verify(atts[k].attesterKey, d, atts[k].sig) ==>
                exists m :: k <= m < |atts| && atts[m] in out && atts[m].attester == atts[k].attester
  {
    hide BySigner, Preimage;
    forall k | 0 <= k < |atts| && Counts(c, atts[k], d)
      ensures exists m :: k <= m < |atts| && atts[m] in out && atts[m].attester == atts[k].attester
    {
      LastKept(c, atts, d, k);
    }
  }

  lemma {:induction false} LastKept(c: Crypto, atts: seq<Attestation>, d: Bytes, k: nat)
    requires k < |atts| && Counts(c, atts[k], d)
    ensures var kept := BySigner(c, atts, d);
            atts[k].attester in kept && exists m :: k <= m < |atts| && atts[m] == kept[atts[k].attester]
                                                    && atts[m].attester == atts[k].attester
    decreases |atts|
  {
    hide Counts;
    var n := |atts| - 1;
    if k < n && !(Counts(c, atts[n], d) && atts[n].attester == atts[k].attester) {
      var front := atts[..n];
      LastKept(c, front, d, k);
      var m :| k <= m < n && front[m] == BySigner(c, front, d)[atts[k].attester] && front[m].attester == atts[k].attester;
      assert atts[m] == front[m];
    }
  }

  function Numbered(out: seq<Attestation>): set<int> {
    set a | a in out :: a.attester
  }

  lemma {:induction false} NumberedSize(out: seq<Attestation>)
    ensures |Numbered(out)| <= |out|
  {
    if out != [] {
      NumberedSize(out[1..]);
      assert out == [out[0]] + out[1..];
      assert Numbered(out) == Numbered(out[1..]) + {out[0].attester};
    }
  }

  /** So many valid attestations of one digest, under different numbers and none by the culprit, are enough. */
  lemma ValidOnesSucceed(c: Crypto, atts: seq<Attestation>, some: seq<Attestation>, d: Bytes, need: int)
    requires |some| >= need && forall a <- some ::
               a in atts && |a.attesterKey| == 32 && |a.sig| == 64 && a.attester != a.report.culprit
               && c.sha256(Preimage(a.report)) == d && c.verify(a.attesterKey, d, a.sig)
    requires forall i, j :: 0 <= i < j < |some| ==> some[i].attester != some[j].attester
    ensures Succeeds(c, atts, need)
  {
    hide Preimage;
    DistinctNumbers(some);
    forall a <- some ensures a.attester in Signers(c, atts, d) {
      assert Counts(c, a, d);
    }
    Fewer(Numbered(some), Signers(c, atts, d));
    assert Enough(c, atts, d, need);
  }

  lemma {:induction false} DistinctNumbers(out: seq<Attestation>)
    requires forall i, j :: 0 <= i < j < |out| ==> out[i].attester != out[j].attester
    ensures |Numbered(out)| == |out|
  {
    if out != [] {
      DistinctNumbers(out[1..]);
      assert out == [out[0]] + out[1..];
      assert Numbered(out) == Numbered(out[1..]) + {out[0].attester};
    }
  }

  /** The groups hold what is kept for every digest; a digest without a group has nothing kept. */
  ghost predicate Grouped(c: Crypto, atts: seq<Attestation>, groups: map<Bytes, map<int, Attestation>>) {
    forall e {:trigger BySigner(c, atts, e)} :: BySigner(c, atts, e) == if e in groups then groups[e] else map[]
  }

  lemma GroupStep(c: Crypto, front: seq<Attestation>, a: Attestation, groups: map<Bytes, map<int, Attestation>>)
    requires Grouped(c, front, groups)
    ensures var digest := DigestOf(c, a);
            var g := if digest in groups then groups else groups[digest := map[]];
            && (!VerifyAttestation(c, a) ==> Grouped(c, front + [a], groups))
            && (VerifyAttestation(c, a) && a.attester == a.report.culprit ==> Grouped(c, front + [a], g))
            && (VerifyAttestation(c, a) && a.attester != a.report.culprit ==>
                  Grouped(c, front + [a], g[digest := g[digest][a.attester := a]]))
  {
    hide VerifyAttestation, DigestOf;
    forall e ensures BySigner(c, front + [a], e)
                  == if Counts(c, a, e) then BySigner(c, front, e)[a.attester := a] else BySigner(c, front, e)
    {
      assert (front + [a])[..|front|] == front;
    }
  }

  method Bundle(c: Crypto, atts: seq<Attestation>, d: Bytes, group: map<int, Attestation>) returns (out: seq<Attestation>)
    requires group == BySigner(c, atts, d)
    ensures IsBundle(c, atts, d, out)
  {
    BySignerKeys(c, atts, d);
    hide BySigner, Counts;
    out := [];
    var todo := group.Keys;
    while todo != {}
      invariant todo <= group.Keys
      invariant forall a <- out :: a.attester in group && a.attester !in todo && group[a.attester] == a
      invariant forall s <- group.Keys - todo :: group[s] in out
      invariant forall i, j :: 0 <= i < j < |out| ==> out[i].attester != out[j].attester
      decreases |todo|
    {
      var s :| s in todo;
      assert group[s].attester == s;
      out := out + [group[s]];
      todo := todo - {s};
    }
  }

  /** Which attestations there are decides, not their order, and more of them never hurt. */
  lemma SuccessIsMonotone(c: Crypto, atts: seq<Attestation>, more: seq<Attestation>, need: int, less: int)
    requires (forall a <- atts :: a in more) && less <= need && Succeeds(c, atts, need)
    ensures Succeeds(c, more, less)
  {
    forall d: Bytes | Enough(c, atts, d, need) ensures Enough(c, more, d, less) {
      MoreSigners(c, atts, more, d);
    }
    hide Enough;
  }

  lemma MoreSigners(c: Crypto, atts: seq<Attestation>, more: seq<Attestation>, d: Bytes)
    requires forall a <- atts :: a in more
    ensures |Signers(c, atts, d)| <= |Signers(c, more, d)|
  {
    Fewer(Signers(c, atts, d), Signers(c, more, d));
  }

  /** Everybody whose attestation counts towards anything. */
  ghost function Attesters(c: Crypto, atts: seq<Attestation>): set<int> {
    set a | a in atts && Counts(c, a, DigestOf(c, a)) :: a.attester
  }

  /** Nobody signed two different statements. */
  ghost predicate OneStatementEach(c: Crypto, atts: seq<Attestation>) {
    forall a <- atts, b <- atts ::
      Counts(c, a, DigestOf(c, a)) && Counts(c, b, DigestOf(c, b)) && a.attester == b.attester
      ==> DigestOf(c, a) == DigestOf(c, b)
  }

  /**
   * Quorum intersection: with a majority threshold and nobody signing twice, at most one digest can
   * win, so the random order of the map does not matter.
   */
  lemma WinnerIsUnique(c: Crypto, atts: seq<Attestation>, need: int, d: Bytes, e: Bytes)
    requires OneStatementEach(c, atts) && 2 * need > |Attesters(c, atts)|
    requires Enough(c, atts, d, need) && Enough(c, atts, e, need)
    ensures d == e
  {
    hide VerifyAttestation, DigestOf;
    if d != e {
      var s, t := Signers(c, atts, d), Signers(c, atts, e);
      assert |s + t| == |s| + |t| - |s * t|;
      assert s * t == {} && s + t <= Attesters(c, atts);
      Fewer(s + t, Attesters(c, atts));
    }
  }

  /** Two operators that list the same attestations differently agree on the accused. */
  lemma SameAccused(c: Crypto, atts: seq<Attestation>, others: seq<Attestation>, need: int,
                    d: Bytes, out: seq<Attestation>, e: Bytes, out': seq<Attestation>)
    requires forall a :: a in atts <==> a in others
    requires OneStatementEach(c, atts) && 2 * need > |Attesters(c, atts)| && need >= 1
    requires Enough(c, atts, d, need) && IsBundle(c, atts, d, out)
    requires Enough(c, others, e, need) && IsBundle(c, others, e, out')
    ensures forall a <- out, b <- out' :: Sized(a.report) && Sized(b.report) ==>
              SameStatement(a.report, b.report) || Collision(c.sha256, Preimage(a.report), Preimage(b.report))
  {
    assert Signers(c, others, e) == Signers(c, atts, e);
    WinnerIsUnique(c, atts, need, d, e);
    hide OneStatementEach, Signers, Attesters, IsBundle, Sized, SameStatement, Collision;
    forall a <- out, b <- out' | Sized(a.report) && Sized(b.report)
      ensures SameStatement(a.report, b.report) || Collision(c.sha256, Preimage(a.report), Preimage(b.report))
    {
      BundleDigest(c, atts, d, out, a);
      BundleDigest(c, others, e, out', b);
      DigestDetermines(a.report, b.report, c.sha256);
    }
  }

  lemma BundleDigest(c: Crypto, atts: seq<Attestation>, d: Bytes, out: seq<Attestation>, a: Attestation)
    requires IsBundle(c, atts, d, out) && a in out
    ensures c.sha256(Preimage(a.report)) == d
  {
    BySignerKeys(c, atts, d);
    hide BySigner, Preimage;
  }

  // ---- keys behind the numbers ---------------------------------------------------------------------

  /** The keys that signed `d`, whatever numbers they were used under. */
  function Keys(c: Crypto, atts: seq<Attestation>, d: Bytes): set<Bytes> {
    set a | a in atts && Counts(c, a, d) :: a.attesterKey
  }

  /** One attestation filed under the `n` numbers after the culprit's. */
  function Claims(report: FaultReport, key: Bytes, sig: Bytes, n: nat): (atts: seq<Attestation>)
    ensures |atts| == n && forall k :: 0 <= k < n ==> atts[k] == Attestation(report, report.culprit + 1 + k, key, sig)
  {
    seq(n, k requires 0 <= k < n => Attestation(report, report.culprit + 1 + k, key, sig))
  }

  function Numbers(lo: int, n: nat): (s: set<int>)
    ensures |s| == n && forall k :: k in s <==> lo <= k < lo + n
  {
    if n == 0 then {} else Numbers(lo, n - 1) + {lo + n - 1}
  }

  /**
   * The collector counts numbers that are neither signed nor pinned: one key with one signature is a
   * quorum of any size. Against a culprit 0 the numbers 1, 2 and 3 make a quorum of three.
   */
  lemma OneKeyIsAQuorum(c: Crypto, report: FaultReport, key: Bytes, sig: Bytes, need: nat)
    requires need >= 1 && VerifyAttestation(c, Attestation(report, report.culprit + 1, key, sig))
    ensures var atts, d := Claims(report, key, sig, need), c.sha256(Preimage(report));
            Succeeds(c, atts, need) && Enough(c, atts, d, need) && Keys(c, atts, d) == {key}
  {
    hide Preimage;
    var atts, d := Claims(report, key, sig, need), c.sha256(Preimage(report));
    forall k | 0 <= k < need ensures atts[k] in atts && Counts(c, atts[k], d) {}
    forall s | s in Numbers(report.culprit + 1, need) ensures s in Signers(c, atts, d) {
      var a := atts[s - report.culprit - 1];
      assert a in atts && Counts(c, a, d) && a.attester == s;
    }
    Fewer(Numbers(report.culprit + 1, need), Signers(c, atts, d));
    assert Enough(c, atts, d, need);
    hide Counts, Enough;
    assert key in Keys(c, atts, d) by {
      assert atts[0] in atts && Counts(c, atts[0], d) && atts[0].attesterKey == key;
    }
    assert Keys(c, atts, d) == {key} by {
      assert forall a <- atts :: a.attesterKey == key;
    }
  }

  /** One key has signed `d` under two numbers. */
  predicate SharesKey(c: Crypto, a: Attestation, b: Attestation, d: Bytes) {
    Counts(c, a, d) && Counts(c, b, d) && a.attesterKey == b.attesterKey && a.attester != b.attester
  }

  ghost predicate OwnKeys(c: Crypto, atts: seq<Attestation>, d: Bytes) {
    forall a <- atts, b <- atts :: !SharesKey(c, a, b, d)
  }

  /** A quorum of numbers is a quorum of keys, on this list and on every selection from it. */
  ghost predicate QuorumsAreKeys(c: Crypto, atts: seq<Attestation>, d: Bytes) {
    forall some: seq<Attestation>, need {:trigger Enough(c, some, d, need)} ::
      (forall a <- some :: a in atts) && Enough(c, some, d, need) ==> |Keys(c, some, d)| >= need
  }

  lemma {:induction false} EnoughKeys(c: Crypto, atts: seq<Attestation>, d: Bytes)
    requires OwnKeys(c, atts, d)
    ensures |Signers(c, atts, d)| <= |Keys(c, atts, d)|
  {
    hide Counts;
    if atts != [] {
      var front, a := atts[..|atts| - 1], atts[|atts| - 1];
      assert atts == front + [a];
      EnoughKeys(c, front, d);
      SignersOneMore(c, front, a, d);
      KeysOneMore(c, front, a, d);
      if Counts(c, a, d) && a.attesterKey in Keys(c, front, d) {
        var b :| b in front && Counts(c, b, d) && b.attesterKey == a.attesterKey;
        assert b in atts && a in atts && !SharesKey(c, a, b, d);
        assert a.attester in Signers(c, front, d);
      }
    }
  }

  lemma KeysOneMore(c: Crypto, front: seq<Attestation>, a: Attestation, d: Bytes)
    ensures Keys(c, front + [a], d) == Keys(c, front, d) + if Counts(c, a, d) then {a.attesterKey} else {}
  {
    hide Counts;
    var atts := front + [a];
    forall x | x in Keys(c, front, d) ensures x in Keys(c, atts, d) {
      var b :| b in front && Counts(c, b, d) && b.attesterKey == x;
      assert b in atts;
    }
    if Counts(c, a, d) {
      assert a in atts;
    }
  }

  /** Exactly the lists in which no key signs under two numbers leave no room for a forged quorum. */
  lemma QuorumsAreKeysIff(c: Crypto, atts: seq<Attestation>, d: Bytes)
    ensures QuorumsAreKeys(c, atts, d) <==> OwnKeys(c, atts, d)
  {
    hide Counts;
    if OwnKeys(c, atts, d) {
      forall some: seq<Attestation>, need | (forall a <- some :: a in atts) && Enough(c, some, d, need)
        ensures |Keys(c, some, d)| >= need
      {
        EnoughKeys(c, some, d);
      }
    } else {
      var a, b :| a in atts && b in atts && SharesKey(c, a, b, d);
      TwoNumbersOneKey(c, a, b, d);
    }
  }

  lemma TwoNumbersOneKey(c: Crypto, a: Attestation, b: Attestation, d: Bytes)
    requires SharesKey(c, a, b, d)
    ensures Enough(c, [a, b], d, 2) && |Keys(c, [a, b], d)| == 1
  {
    hide Counts;
    assert a in [a, b] && b in [a, b];
    Fewer({a.attester, b.attester}, Signers(c, [a, b], d));
    assert Keys(c, [a, b], d) == {a.attesterKey};
  }

  // ---- with the operators' keys pinned -----------------------------------------------------------------

  /** The attestations under the key registered for the number they claim, which a caller has to select itself. */
  function OnlyPinned(atts: seq<Attestation>, pinned: map<int, Bytes>): seq<Attestation> {
    if atts == [] then []
    else
      var a := atts[|atts| - 1];
      OnlyPinned(atts[..|atts| - 1], pinned)
      + if a.attester in pinned && pinned[a.attester] == a.attesterKey then [a] else []
  }

  lemma {:induction false} OnlyPinnedIs(atts: seq<Attestation>, pinned: map<int, Bytes>, a: Attestation)
    ensures a in OnlyPinned(atts, pinned) <==> a in atts && a.attester in pinned && pinned[a.attester] == a.attesterKey
  {
    if atts != [] {
      var front, last := atts[..|atts| - 1], atts[|atts| - 1];
      assert atts == front + [last];
      OnlyPinnedIs(front, pinned, a);
    }
  }

  ghost predicate DifferentKeys(pinned: map<int, Bytes>) {
    forall i <- pinned, j <- pinned :: pinned[i] == pinned[j] ==> i == j
  }

  /** The operators whose registered key has signed `d`. */
  ghost function Confirmed(c: Crypto, atts: seq<Attestation>, pinned: map<int, Bytes>, d: Bytes): set<int> {
    set a | a in atts && Counts(c, a, d) && a.attester in pinned && pinned[a.attester] == a.attesterKey :: a.attester
  }

  /** With the keys pinned, a quorum is as many different registered keys, one of each confirmed operator. */
  lemma PinnedQuorum(c: Crypto, atts: seq<Attestation>, pinned: map<int, Bytes>, d: Bytes, need: int)
    requires DifferentKeys(pinned)
    ensures Enough(c, OnlyPinned(atts, pinned), d, need) <==> |Confirmed(c, atts, pinned, d)| >= need
    ensures Enough(c, OnlyPinned(atts, pinned), d, need) ==>
              |Keys(c, OnlyPinned(atts, pinned), d)| >= need && Keys(c, OnlyPinned(atts, pinned), d) <= pinned.Values
  {
    var kept := OnlyPinned(atts, pinned);
    forall a: Attestation
      ensures a in kept <==> a in atts && a.attester in pinned && pinned[a.attester] == a.attesterKey
    {
      OnlyPinnedIs(atts, pinned, a);
    }
    hide Counts, OnlyPinned;
    assert Signers(c, kept, d) == Confirmed(c, atts, pinned, d);
    EnoughKeys(c, kept, d);
  }

  /**
   * An accusation no honest operator's registered key has signed gets no quorum out of fewer than
   * `need` dishonest operators, whatever else is on the list, once the keys are pinned.
   */
  lemma FalseAccusation(c: Crypto, atts: seq<Attestation>, pinned: map<int, Bytes>, honest: set<int>, d: Bytes, need: int)
    requires honest <= pinned.Keys && |pinned.Keys - honest| < need
    requires forall a <- atts, h <- honest :: Counts(c, a, d) ==> a.attesterKey != pinned[h]
    ensures !Enough(c, OnlyPinned(atts, pinned), d, need)
  {
    var kept := OnlyPinned(atts, pinned);
    hide Counts;
    forall s | s in Signers(c, kept, d) ensures s in pinned.Keys - honest {
      var a :| a in kept && Counts(c, a, d) && a.attester == s;
      OnlyPinnedIs(atts, pinned, a);
    }
    Fewer(Signers(c, kept, d), pinned.Keys - honest);
  }
}

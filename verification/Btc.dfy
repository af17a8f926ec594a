/** Bitcoin transactions of the threshold group: the BIP-143 sighash and the segwit serialization. */
module Btc {
  import opened Bytes
  import opened Varint

  type Bytes32 = b: Bytes | |b| == 32 witness seq(32, _ => 0)

  datatype Outpoint = Outpoint(txid: Bytes32, vout: U32)
  datatype TxIn = TxIn(outpoint: Outpoint, value: U64, sequence: U32)
  datatype TxOut = TxOut(value: U64, script: Bytes)

  const SIGHASH_ALL: byte := 1

  /** SHA-256 and RIPEMD-160, of which only the output lengths matter here. */
  datatype Hashes = Hashes(sha256: Bytes -> Bytes, ripemd160: Bytes -> Bytes) {
    function Hash256(b: Bytes): Bytes { sha256(sha256(b)) }
    function Hash160(b: Bytes): Bytes { ripemd160(sha256(b)) }
    ghost predicate Valid() {
      forall b: Bytes {:trigger sha256(b)} {:trigger ripemd160(b)} :: |sha256(b)| == 32 && |ripemd160(b)| == 20
    }
  }

  function OutpointBytes(o: Outpoint): Bytes {
    o.txid + Le(4, o.vout)
  }

  function WordBytes(w: U32): Bytes {
    Le(4, w)
  }

  function OutputBytes(o: TxOut): Bytes {
    Le(8, o.value) + CompactPrefixed(o.script)
  }

  function Outpoints(ins: seq<TxIn>): (r: seq<Outpoint>)
    ensures |r| == |ins| && forall i :: 0 <= i < |ins| ==> r[i] == ins[i].outpoint
  {
    seq(|ins|, i requires 0 <= i < |ins| => ins[i].outpoint)
  }

  function Sequences(ins: seq<TxIn>): (r: seq<U32>)
    ensures |r| == |ins| && forall i :: 0 <= i < |ins| ==> r[i] == ins[i].sequence
  {
    seq(|ins|, i requires 0 <= i < |ins| => ins[i].sequence)
  }

  // ---- the sighash -------------------------------------------------------------------------------

  /** One call: everything a signature hash is computed from. */
  datatype SighashCall = SighashCall(
    version: U32, ins: seq<TxIn>, outs: seq<TxOut>, index: nat, pubkey: Bytes, locktime: U32)

  function Prevouts(c: SighashCall): Bytes {
    Flatten(OutpointBytes, Outpoints(c.ins))
  }

  function SequenceBytes(c: SighashCall): Bytes {
    Flatten(WordBytes, Sequences(c.ins))
  }

  function Outputs(c: SighashCall): Bytes {
    Flatten(OutputBytes, c.outs)
  }

  /** OP_DUP OP_HASH160 <key hash> OP_EQUALVERIFY OP_CHECKSIG, behind its length. */
  function ScriptCode(pkh: Bytes): Bytes {
    [0x19, 0x76, 0xa9, 0x14] + pkh + [0x88, 0xac]
  }

  /** The fields joined left to right, as a buffer grows. */
  function Joined(fields: seq<Bytes>): Bytes {
    if fields == [] then [] else Joined(fields[..|fields| - 1]) + fields[|fields| - 1]
  }

  /** The fields of the BIP-143 preimage, in order. */
  function Fields(h: Hashes, c: SighashCall): (f: seq<Bytes>)
    requires c.index < |c.ins|
    ensures |f| == 11
  {
    var signed := c.ins[c.index];
    [Le(4, c.version), h.Hash256(Prevouts(c)), h.Hash256(SequenceBytes(c)), signed.outpoint.txid,
     Le(4, signed.outpoint.vout), ScriptCode(h.Hash160(c.pubkey)), Le(8, signed.value), Le(4, signed.sequence),
     h.Hash256(Outputs(c)), Le(4, c.locktime), Le(4, SIGHASH_ALL)]
  }

  function SighashPreimage(h: Hashes, c: SighashCall): Bytes
    requires c.index < |c.ins|
  {
    Joined(Fields(h, c))
  }

  method BtcSegwitSighash(h: Hashes, version: U32, inputs: seq<TxIn>, outputs: seq<TxOut>, inIndex: int,
                          pubkey: Bytes, locktime: U32)
    returns (r: Option<Bytes>)
    ensures r.Some? <==> 0 <= inIndex < |inputs|
    ensures r.Some? ==>
              r.value == h.Hash256(SighashPreimage(h, SighashCall(version, inputs, outputs, inIndex, pubkey, locktime)))
  {
    if inIndex < 0 || inIndex >= |inputs| {
      return None;
    }
    ghost var c := SighashCall(version, inputs, outputs, inIndex, pubkey, locktime);
    var prevouts := WritePrevouts(inputs);
    var hashPrevouts := h.Hash256(prevouts);
    var seqs := WriteSequences(inputs);
    var hashSequence := h.Hash256(seqs);
    var outs := WriteOutputs(outputs, []);
    assert [] + Flatten(OutputBytes, outputs) == Outputs(c);
    var hashOutputs := h.Hash256(outs);
    var pkh := h.Hash160(pubkey);
    var scriptCode: Bytes := [0x19, 0x76, 0xa9, 0x14];
    scriptCode := scriptCode + pkh;
    scriptCode := scriptCode + [0x88, 0xac];
    hide Le;
    var signed := inputs[inIndex];
    var pre := Le(4, version);
    pre := pre + hashPrevouts;
    pre := pre + hashSequence;
    pre := pre + signed.outpoint.txid;
    pre := pre + Le(4, signed.outpoint.vout);
    pre := pre + scriptCode;
    pre := pre + Le(8, signed.value);
    pre := pre + Le(4, signed.sequence);
    pre := pre + hashOutputs;
    pre := pre + Le(4, locktime);
    pre := pre + Le(4, SIGHASH_ALL);
    Joined11(Fields(h, c));
    return Some(h.Hash256(pre));
  }

  method WritePrevouts(ins: seq<TxIn>) returns (w: Bytes)
    ensures w == Flatten(OutpointBytes, Outpoints(ins))
  {
    w := [];
    for i := 0 to |ins|
      invariant w == Flatten(OutpointBytes, Outpoints(ins)[..i])
    {
      FlattenSnoc(OutpointBytes, Outpoints(ins)[..i], ins[i].outpoint);
      assert Outpoints(ins)[..i + 1] == Outpoints(ins)[..i] + [ins[i].outpoint];
      assert w + ins[i].outpoint.txid + Le(4, ins[i].outpoint.vout) == w + OutpointBytes(ins[i].outpoint);
      w := w + ins[i].outpoint.txid;
      w := w + Le(4, ins[i].outpoint.vout);
    }
    assert Outpoints(ins)[..|ins|] == Outpoints(ins);
  }

  method WriteSequences(ins: seq<TxIn>) returns (w: Bytes)
    ensures w == Flatten(WordBytes, Sequences(ins))
  {
    w := [];
    for i := 0 to |ins|
      invariant w == Flatten(WordBytes, Sequences(ins)[..i])
    {
      FlattenSnoc(WordBytes, Sequences(ins)[..i], ins[i].sequence);
      assert Sequences(ins)[..i + 1] == Sequences(ins)[..i] + [ins[i].sequence];
      w := w + Le(4, ins[i].sequence);
    }
    assert Sequences(ins)[..|ins|] == Sequences(ins);
  }

  /** The outputs, appended to a buffer. */
  method WriteOutputs(outs: seq<TxOut>, buf: Bytes) returns (w: Bytes)
    ensures w == buf + Flatten(OutputBytes, outs)
  {
    w := buf;
    assert buf + Flatten(OutputBytes, outs[..0]) == buf;
    hide CompactSize, Le, OutputBytes, Flatten;
    for i := 0 to |outs|
      invariant w == buf + Flatten(OutputBytes, outs[..i])
    {
      OutputStep(outs, i, buf);
      w := w + Le(8, outs[i].value);
      w := w + CompactSize(Size(outs[i].script));
      w := w + outs[i].script;
    }
    assert outs[..|outs|] == outs;
  }

  lemma OutputStep(outs: seq<TxOut>, i: nat, buf: Bytes)
    requires i < |outs|
    ensures buf + Flatten(OutputBytes, outs[..i]) + Le(8, outs[i].value) + CompactSize(Size(outs[i].script))
            + outs[i].script
         == buf + Flatten(OutputBytes, outs[..i + 1])
  {
    hide CompactSize, Le, Flatten;
    FlattenSnoc(OutputBytes, outs[..i], outs[i]);
    assert outs[..i + 1] == outs[..i] + [outs[i]];
    var script := outs[i].script;
    Regroup(buf, Flatten(OutputBytes, outs[..i]), Le(8, outs[i].value), CompactSize(Size(script)), script);
  }

  lemma Regroup(a: Bytes, b: Bytes, c: Bytes, d: Bytes, e: Bytes)
    ensures a + b + c + d + e == a + (b + (c + (d + e)))
  {}

  // ---- what a sighash commits to -------------------------------------------------------------------

  lemma LeDetermines(width: nat, v: nat, w: nat)
    requires v < Span(width) && w < Span(width) && Le(width, v) == Le(width, w)
    ensures v == w
  {
    LeFits(width, v);
    LeFits(width, w);
  }

  lemma OutpointsDelimited()
    ensures SelfDelimiting(OutpointBytes, (o: Outpoint) => true)
  {
    forall x: Outpoint, y: Outpoint, r: Bytes, s: Bytes | OutpointBytes(x) + r == OutpointBytes(y) + s
      ensures x == y && r == s
    {
      SplitEqual(OutpointBytes(x), r, OutpointBytes(y), s);
      SplitEqual(x.txid, Le(4, x.vout), y.txid, Le(4, y.vout));
      SpanValues();
      LeDetermines(4, x.vout, y.vout);
    }
  }

  lemma WordsDelimited()
    ensures SelfDelimiting(WordBytes, (w: U32) => true)
  {
    forall x: U32, y: U32, r: Bytes, s: Bytes | WordBytes(x) + r == WordBytes(y) + s
      ensures x == y && r == s
    {
      SplitEqual(WordBytes(x), r, WordBytes(y), s);
      SpanValues();
      LeDetermines(4, x, y);
    }
  }

  predicate Fits(o: TxOut) {
    Addressable(o.script)
  }

  lemma OutputSplits(x: TxOut, r: Bytes, y: TxOut, s: Bytes)
    requires Fits(x) && Fits(y) && OutputBytes(x) + r == OutputBytes(y) + s
    ensures x == y && r == s
  {
    hide CompactPrefixed, Le;
    assert OutputBytes(x) + r == Le(8, x.value) + (CompactPrefixed(x.script) + r);
    assert OutputBytes(y) + s == Le(8, y.value) + (CompactPrefixed(y.script) + s);
    SplitEqual(Le(8, x.value), CompactPrefixed(x.script) + r, Le(8, y.value), CompactPrefixed(y.script) + s);
    SpanValues();
    LeDetermines(8, x.value, y.value);
    CompactPrefixedSplits(x.script, r, y.script, s);
  }

  lemma OutputsDelimited()
    ensures SelfDelimiting(OutputBytes, Fits)
  {
    forall x ensures |OutputBytes(x)| > 0 {
      assert |Le(8, x.value)| == 8;
    }
    hide OutputBytes;
    forall x: TxOut, y: TxOut, r: Bytes, s: Bytes | Fits(x) && Fits(y) && OutputBytes(x) + r == OutputBytes(y) + s
      ensures x == y && r == s
    {
      OutputSplits(x, r, y, s);
    }
  }

  /** Two calls sign the same transaction input. */
  ghost predicate SameSigned(h: Hashes, a: SighashCall, b: SighashCall)
    requires a.index < |a.ins| && b.index < |b.ins|
  {
    && a.version == b.version && a.locktime == b.locktime
    && Outpoints(a.ins) == Outpoints(b.ins) && Sequences(a.ins) == Sequences(b.ins) && a.outs == b.outs
    && a.ins[a.index] == b.ins[b.index]
    && h.Hash160(a.pubkey) == h.Hash160(b.pubkey)
  }

  /** A collision of HASH256 among the strings that go into two sighashes. */
  ghost predicate CollisionFound(h: Hashes, a: SighashCall, b: SighashCall)
    requires a.index < |a.ins| && b.index < |b.ins|
  {
    || Collision(h.Hash256, SighashPreimage(h, a), SighashPreimage(h, b))
    || Collision(h.Hash256, Prevouts(a), Prevouts(b))
    || Collision(h.Hash256, SequenceBytes(a), SequenceBytes(b))
    || Collision(h.Hash256, Outputs(a), Outputs(b))
  }

  ghost predicate CallOk(c: SighashCall) {
    c.index < |c.ins| && forall o <- c.outs :: Fits(o)
  }

  /** Equal sighashes: the same transaction, input and key are signed, or HASH256 has been broken. */
  lemma SighashCommits(h: Hashes, a: SighashCall, b: SighashCall)
    requires h.Valid() && CallOk(a) && CallOk(b)
    requires h.Hash256(SighashPreimage(h, a)) == h.Hash256(SighashPreimage(h, b))
    ensures SameSigned(h, a, b) || CollisionFound(h, a, b)
  {
    if !CollisionFound(h, a, b) {
      PreimageFields(h, a, b);
      ListsDetermined(a, b);
    }
  }

  lemma ListsDetermined(a: SighashCall, b: SighashCall)
    requires CallOk(a) && CallOk(b)
    requires Prevouts(a) == Prevouts(b) && SequenceBytes(a) == SequenceBytes(b) && Outputs(a) == Outputs(b)
    ensures Outpoints(a.ins) == Outpoints(b.ins) && Sequences(a.ins) == Sequences(b.ins) && a.outs == b.outs
  {
    hide OutpointBytes, WordBytes, OutputBytes;
    OutpointsDelimited();
    FlattenInjective(OutpointBytes, (o: Outpoint) => true, Outpoints(a.ins), Outpoints(b.ins));
    WordsDelimited();
    FlattenInjective(WordBytes, (w: U32) => true, Sequences(a.ins), Sequences(b.ins));
    OutputsDelimited();
    FlattenInjective(OutputBytes, Fits, a.outs, b.outs);
  }

  lemma PreimageFields(h: Hashes, a: SighashCall, b: SighashCall)
    requires h.Valid() && CallOk(a) && CallOk(b) && SighashPreimage(h, a) == SighashPreimage(h, b)
    ensures a.version == b.version && a.locktime == b.locktime && a.ins[a.index] == b.ins[b.index]
    ensures h.Hash160(a.pubkey) == h.Hash160(b.pubkey)
    ensures h.Hash256(Prevouts(a)) == h.Hash256(Prevouts(b))
    ensures h.Hash256(SequenceBytes(a)) == h.Hash256(SequenceBytes(b))
    ensures h.Hash256(Outputs(a)) == h.Hash256(Outputs(b))
  {
    SpanValues();
    var x, y := a.ins[a.index], b.ins[b.index];
    var f, g := Fields(h, a), Fields(h, b);
    Widths(h, a);
    Widths(h, b);
    FieldsDetermined(f, g);
    assert f[0] == g[0] && f[1] == g[1] && f[2] == g[2] && f[3] == g[3] && f[4] == g[4] && f[5] == g[5];
    assert f[6] == g[6] && f[7] == g[7] && f[8] == g[8] && f[9] == g[9];
    LeDetermines(4, a.version, b.version);
    LeDetermines(4, a.locktime, b.locktime);
    LeDetermines(4, x.outpoint.vout, y.outpoint.vout);
    LeDetermines(4, x.sequence, y.sequence);
    LeDetermines(8, x.value, y.value);
    hide Le;
    SameKeyHash(h.Hash160(a.pubkey), h.Hash160(b.pubkey));
  }

  lemma SameKeyHash(p: Bytes, q: Bytes)
    requires |p| == |q| && ScriptCode(p) == ScriptCode(q)
    ensures p == q
  {
    assert p == ScriptCode(p)[4..4 + |p|] == ScriptCode(q)[4..4 + |q|] == q;
  }

  lemma Widths(h: Hashes, c: SighashCall)
    requires h.Valid()
    ensures |h.Hash256(Prevouts(c))| == |h.Hash256(SequenceBytes(c))| == |h.Hash256(Outputs(c))| == 32
    ensures |ScriptCode(h.Hash160(c.pubkey))| == 26 && |h.Hash160(c.pubkey)| == 20
  {}

  lemma Joined11(f: seq<Bytes>)
    requires |f| == 11
    ensures Joined(f) == f[0] + f[1] + f[2] + f[3] + f[4] + f[5] + f[6] + f[7] + f[8] + f[9] + f[10]
  {
    assert forall k :: 0 < k <= 11 ==> f[..k][..k - 1] == f[..k - 1];
    assert f[..11] == f;
    assert Joined(f[..1]) == [] + f[0] == f[0];
    assert Joined(f[..2]) == Joined(f[..1]) + f[1];
    assert Joined(f[..3]) == Joined(f[..2]) + f[2];
    assert Joined(f[..4]) == Joined(f[..3]) + f[3];
    assert Joined(f[..5]) == Joined(f[..4]) + f[4];
    assert Joined(f[..6]) == Joined(f[..5]) + f[5];
    assert Joined(f[..7]) == Joined(f[..6]) + f[6];
    assert Joined(f[..8]) == Joined(f[..7]) + f[7];
    assert Joined(f[..9]) == Joined(f[..8]) + f[8];
    assert Joined(f[..10]) == Joined(f[..9]) + f[9];
    assert Joined(f[..11]) == Joined(f[..10]) + f[10];
  }

  /** Where a field lies in the concatenation. */
  lemma {:induction false} JoinedAt(f: seq<Bytes>, k: nat)
    requires k < |f|
    ensures |Joined(f[..k + 1])| == |Joined(f[..k])| + |f[k]| <= |Joined(f)|
    ensures Joined(f)[|Joined(f[..k])|..|Joined(f[..k])| + |f[k]|] == f[k]
  {
    var n := |f| - 1;
    assert f[..k + 1][..k] == f[..k] && f[..k + 1][k] == f[k];
    if k == n {
      assert f[..k + 1] == f;
    } else {
      JoinedAt(f[..n], k);
      assert f[..n][..k] == f[..k] && f[..n][..k + 1] == f[..k + 1] && f[..n][k] == f[k];
    }
  }

  /** Fields of known widths are determined by their concatenation. */
  lemma {:induction false} FieldsDetermined(f: seq<Bytes>, g: seq<Bytes>)
    requires |f| == |g| && forall i :: 0 <= i < |f| ==> |f[i]| == |g[i]|
    requires Joined(f) == Joined(g)
    ensures f == g
  {
    if f != [] {
      var n := |f| - 1;
      JoinedLength(f[..n], g[..n]);
      SplitEqual(Joined(f[..n]), f[n], Joined(g[..n]), g[n]);
      FieldsDetermined(f[..n], g[..n]);
      assert f == f[..n] + [f[n]] && g == g[..n] + [g[n]];
    }
  }

  lemma {:induction false} JoinedLength(f: seq<Bytes>, g: seq<Bytes>)
    requires |f| == |g| && forall i :: 0 <= i < |f| ==> |f[i]| == |g[i]|
    ensures |Joined(f)| == |Joined(g)|
  {
    if f != [] {
      JoinedLength(f[..|f| - 1], g[..|g| - 1]);
    }
  }
}

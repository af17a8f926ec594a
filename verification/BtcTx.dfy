/** The broadcast-ready segwit transaction, read back by an independent parser. */
module BtcTx {
  import opened Bytes
  import opened Varint
  import opened Wire
  import opened Btc

  datatype WireIn = WireIn(outpoint: Outpoint, scriptSig: Bytes, sequence: U32)

  /** A transaction as it travels; one witness stack per input. */
  datatype WireTx = WireTx(version: U32, ins: seq<WireIn>, outs: seq<TxOut>, witnesses: seq<seq<Bytes>>, locktime: U32)

  function InputBytes(i: WireIn): Bytes {
    OutpointBytes(i.outpoint) + (CompactPrefixed(i.scriptSig) + Le(4, i.sequence))
  }

  function StackBytes(items: seq<Bytes>): Bytes {
    Counted(CompactPrefixed, items)
  }

  function Body(t: WireTx): Bytes {
    Counted(InputBytes, t.ins) + Counted(OutputBytes, t.outs)
  }

  function Witness(t: WireTx): Bytes {
    Flatten(StackBytes, t.witnesses)
  }

  /** Without marker, flag and witness: what the txid is the hash of. */
  function Legacy(t: WireTx): Bytes {
    Le(4, t.version) + Body(t) + Le(4, t.locktime)
  }

  function Segwit(t: WireTx): Bytes {
    Le(4, t.version) + [0, 1] + Body(t) + Witness(t) + Le(4, t.locktime)
  }

  /** The transaction that spends P2WPKH inputs of one key: empty script signatures, two witness items each. */
  function Signed(version: U32, inputs: seq<TxIn>, outputs: seq<TxOut>, locktime: U32, derSigs: seq<Bytes>,
                  pub: Bytes): WireTx
    requires |derSigs| == |inputs|
  {
    WireTx(version,
           seq(|inputs|, i requires 0 <= i < |inputs| => WireIn(inputs[i].outpoint, [], inputs[i].sequence)),
           outputs,
           seq(|inputs|, i requires 0 <= i < |inputs| => [derSigs[i], pub]),
           locktime)
  }

  // ---- writing -----------------------------------------------------------------------------------

  function CountBytes(n: nat): Bytes {
    CompactSize(n % 0x1_0000_0000_0000_0000)
  }

  method WriteBody(inputs: seq<TxIn>, outputs: seq<TxOut>, ghost t: WireTx, buf: Bytes) returns (w: Bytes)
    requires t.outs == outputs && |t.ins| == |inputs|
    requires forall i :: 0 <= i < |inputs| ==> t.ins[i] == WireIn(inputs[i].outpoint, [], inputs[i].sequence)
    ensures w == buf + Body(t)
  {
    w := buf + CountBytes(|inputs|);
    ghost var head := w;
    assert t.ins[..0] == [] && head + Flatten(InputBytes, []) == head;
    hide CompactSize, Le, Flatten, InputBytes;
    for i := 0 to |inputs|
      invariant w == head + Flatten(InputBytes, t.ins[..i])
    {
      InputStep(t.ins, i, head);
      w := w + inputs[i].outpoint.txid;
      w := w + Le(4, inputs[i].outpoint.vout);
      w := w + CompactSize(0);
      w := w + Le(4, inputs[i].sequence);
    }
    assert t.ins[..|inputs|] == t.ins;
    w := w + CountBytes(|outputs|);
    w := WriteOutputs(outputs, w);
    BodyParts(t, buf);
  }

  lemma BodyParts(t: WireTx, buf: Bytes)
    ensures buf + CountBytes(|t.ins|) + Flatten(InputBytes, t.ins) + CountBytes(|t.outs|) + Flatten(OutputBytes, t.outs)
         == buf + Body(t)
  {
    hide CompactSize, Flatten;
    var a, b := CountBytes(|t.ins|), Flatten(InputBytes, t.ins);
    var c, d := CountBytes(|t.outs|), Flatten(OutputBytes, t.outs);
    assert buf + a + b + c + d == buf + ((a + b) + (c + d));
  }

  lemma InputStep(ins: seq<WireIn>, i: nat, head: Bytes)
    requires i < |ins| && ins[i].scriptSig == []
    ensures var o := ins[i].outpoint;
            head + Flatten(InputBytes, ins[..i]) + o.txid + Le(4, o.vout) + CompactSize(0) + Le(4, ins[i].sequence)
            == head + Flatten(InputBytes, ins[..i + 1])
  {
    hide CompactSize, Le, Flatten;
    FlattenSnoc(InputBytes, ins[..i], ins[i]);
    assert ins[..i + 1] == ins[..i] + [ins[i]];
    var x, o := ins[i], ins[i].outpoint;
    var f := Flatten(InputBytes, ins[..i]);
    assert CompactPrefixed([]) == CompactSize(0) + [] == CompactSize(0);
    assert head + f + o.txid + Le(4, o.vout) + CompactSize(0) + Le(4, x.sequence)
        == head + (f + (o.txid + Le(4, o.vout) + (CompactSize(0) + Le(4, x.sequence))));
  }

  method WriteWitness(derSigs: seq<Bytes>, pub: Bytes, ghost t: WireTx, buf: Bytes) returns (w: Bytes)
    requires |t.witnesses| == |derSigs| && forall i :: 0 <= i < |derSigs| ==> t.witnesses[i] == [derSigs[i], pub]
    ensures w == buf + Witness(t)
  {
    w := buf;
    assert t.witnesses[..0] == [] && buf + Flatten(StackBytes, []) == buf;
    hide CompactSize, Flatten, StackBytes;
    for i := 0 to |derSigs|
      invariant w == buf + Flatten(StackBytes, t.witnesses[..i])
    {
      StackStep(t.witnesses, i, derSigs[i], pub, buf);
      w := w + CompactSize(2);
      w := w + CompactSize(Size(derSigs[i]));
      w := w + derSigs[i];
      w := w + CompactSize(Size(pub));
      w := w + pub;
    }
    assert t.witnesses[..|derSigs|] == t.witnesses;
  }

  lemma StackStep(stacks: seq<seq<Bytes>>, i: nat, sig: Bytes, pub: Bytes, buf: Bytes)
    requires i < |stacks| && stacks[i] == [sig, pub]
    ensures buf + Flatten(StackBytes, stacks[..i]) + CompactSize(2) + CompactSize(Size(sig)) + sig
            + CompactSize(Size(pub)) + pub
         == buf + Flatten(StackBytes, stacks[..i + 1])
  {
    TwoItems(sig, pub);
    hide CompactSize, Flatten, StackBytes;
    FlattenSnoc(StackBytes, stacks[..i], stacks[i]);
    assert stacks[..i + 1] == stacks[..i] + [stacks[i]];
    var f := Flatten(StackBytes, stacks[..i]);
    var a, b, c := CompactSize(2), CompactSize(Size(sig)), CompactSize(Size(pub));
    assert buf + f + a + b + sig + c + pub == buf + (f + (a + ((b + sig) + (c + pub))));
  }

  lemma TwoItems(sig: Bytes, pub: Bytes)
    ensures StackBytes([sig, pub]) == CompactSize(2) + (CompactPrefixed(sig) + CompactPrefixed(pub))
  {
    hide CompactSize, CompactPrefixed;
    assert [sig, pub][1..] == [pub] && [pub][1..] == [];
    assert Flatten(CompactPrefixed, [pub]) == CompactPrefixed(pub) + Flatten(CompactPrefixed, []) == CompactPrefixed(pub);
    assert Flatten(CompactPrefixed, [sig, pub]) == CompactPrefixed(sig) + CompactPrefixed(pub);
  }

  /** Counts and lengths that 64 bits can hold, which every Go slice has. */
  ghost predicate Broadcastable(inputs: seq<TxIn>, outputs: seq<TxOut>, derSigs: seq<Bytes>, pub: Bytes) {
    && |inputs| < 0x1_0000_0000_0000_0000 && |outputs| < 0x1_0000_0000_0000_0000
    && Addressable(pub) && (forall s <- derSigs :: Addressable(s)) && (forall o <- outputs :: Fits(o))
  }

  method SerializeSignedP2WPKHTx(h: Hashes, version: U32, inputs: seq<TxIn>, outputs: seq<TxOut>, locktime: U32,
                                 derSigs: seq<Bytes>, pub: Bytes)
    returns (r: Option<(Bytes, Bytes)>)
    ensures r.Some? <==> |derSigs| == |inputs|
    ensures r.Some? ==>
              var t := Signed(version, inputs, outputs, locktime, derSigs, pub);
              r.value == (Segwit(t), h.Hash256(Legacy(t)))
    ensures r.Some? && Broadcastable(inputs, outputs, derSigs, pub) ==>
              var read, stripped := ReadTx(r.value.0), Strip(r.value.0);
              && read.Some? && stripped.Some? && r.value.1 == h.sha256(h.sha256(stripped.value))
              && read.value.version == version && read.value.locktime == locktime && read.value.outs == outputs
              && |read.value.ins| == |inputs| == |read.value.witnesses|
              && forall i :: 0 <= i < |inputs| ==>
                   read.value.ins[i] == WireIn(inputs[i].outpoint, [], inputs[i].sequence)
                   && read.value.witnesses[i] == [derSigs[i], pub]
  {
    if |derSigs| != |inputs| {
      return None;
    }
    ghost var t := Signed(version, inputs, outputs, locktime, derSigs, pub);
    var legacy := Le(4, version);
    legacy := WriteBody(inputs, outputs, t, legacy);
    legacy := legacy + Le(4, locktime);
    var txid := h.Hash256(legacy);
    var w := Le(4, version);
    w := w + [0x00, 0x01];
    w := WriteBody(inputs, outputs, t, w);
    w := WriteWitness(derSigs, pub, t, w);
    w := w + Le(4, locktime);
    if Broadcastable(inputs, outputs, derSigs, pub) {
      BroadcastIsFaithful(version, inputs, outputs, locktime, derSigs, pub);
    }
    hide ReadTx, Strip, Segwit, Legacy, Le, Body, Witness;
    return Some((w, txid));
  }

  // ---- reading -----------------------------------------------------------------------------------

  function ReadOutpoint(b: Bytes): Option<(Outpoint, Bytes)> {
    if |b| < 36 then None
    else
      SpanValues();
      Some((Outpoint(b[..32], LeValue(b[32..36])), b[36..]))
  }

  function ReadWord(b: Bytes): Option<(U32, Bytes)> {
    if |b| < 4 then None
    else
      SpanValues();
      Some((LeValue(b[..4]), b[4..]))
  }

  function ReadInput(b: Bytes): Option<(WireIn, Bytes)> {
    match ReadOutpoint(b)
    case None => None
    case Some((o, b1)) =>
      match ReadPrefixed(b1)
      case None => None
      case Some((s, b2)) =>
        match ReadWord(b2)
        case None => None
        case Some((q, b3)) => Some((WireIn(o, s, q), b3))
  }

  function ReadOutput(b: Bytes): Option<(TxOut, Bytes)> {
    if |b| < 8 then None
    else
      SpanValues();
      match ReadPrefixed(b[8..])
      case None => None
      case Some((s, rest)) => Some((TxOut(LeValue(b[..8]), s), rest))
  }

  function ReadStack(b: Bytes): Option<(seq<Bytes>, Bytes)> {
    ReadCounted(ReadPrefixed, b)
  }

  function ReadBody(b: Bytes): Option<((seq<WireIn>, seq<TxOut>), Bytes)> {
    match ReadCounted(ReadInput, b)
    case None => None
    case Some((ins, b1)) =>
      match ReadCounted(ReadOutput, b1)
      case None => None
      case Some((outs, b2)) => Some(((ins, outs), b2))
  }

  /** What a node reads: a zero where the input count would be marks a segwit transaction. */
  function ReadTx(b: Bytes): Option<WireTx> {
    match ReadWord(b)
    case None => None
    case Some((version, b1)) =>
      if [0, 1] <= b1 then
        match ReadBody(b1[2..])
        case None => None
        case Some((io, b2)) =>
          match ReadMany(|io.0|, ReadStack, b2)
          case None => None
          case Some((witnesses, b3)) => ReadEnd(version, io, witnesses, b3)
      else
        match ReadBody(b1)
        case None => None
        case Some((io, b2)) => ReadEnd(version, io, [], b2)
  }

  function ReadEnd(version: U32, io: (seq<WireIn>, seq<TxOut>), witnesses: seq<seq<Bytes>>, b: Bytes): Option<WireTx> {
    match ReadWord(b)
    case None => None
    case Some((locktime, rest)) =>
      if rest == [] then Some(WireTx(version, io.0, io.1, witnesses, locktime)) else None
  }

  /** Deletes marker, flag and witness, finding the end of the outputs by reading. */
  function Strip(b: Bytes): Option<Bytes> {
    if |b| < 10 then None
    else match ReadBody(b[6..])
         case None => None
         case Some((_, rest)) => if |b| < 6 + |rest| then None else Some(Without(b, |rest|))
  }

  /** First four bytes, then all but the next two up to the last `after`, then the last four. */
  function Without(b: Bytes, after: nat): Bytes
    requires |b| >= 10 && |b| >= 6 + after
  {
    b[..4] + b[6..|b| - after] + b[|b| - 4..]
  }

  /** Sizes that the 64-bit counts can hold, which every Go slice has. */
  ghost predicate Sized(t: WireTx) {
    && |t.ins| < 0x1_0000_0000_0000_0000 && |t.outs| < 0x1_0000_0000_0000_0000
    && (forall i <- t.ins :: Addressable(i.scriptSig))
    && (forall o <- t.outs :: Fits(o))
    && (forall w <- t.witnesses :: |w| < 0x1_0000_0000_0000_0000 && forall x <- w :: Addressable(x))
  }

  lemma WordBack(v: U32, rest: Bytes)
    ensures ReadWord(Le(4, v) + rest) == Some((v, rest))
  {
    SpanValues();
    LeBack(4, v, rest);
  }

  lemma OutpointBack(o: Outpoint, rest: Bytes)
    ensures ReadOutpoint(OutpointBytes(o) + rest) == Some((o, rest))
  {
    SpanValues();
    LeFits(4, o.vout);
    var b := OutpointBytes(o) + rest;
    assert |Le(4, o.vout)| == 4;
    hide Le, LeValue;
    assert b[..32] == o.txid && b[32..36] == Le(4, o.vout) && b[36..] == rest;
  }

  lemma InputBack(i: WireIn)
    requires Addressable(i.scriptSig)
    ensures Reads(ReadInput, InputBytes, i)
  {
    hide OutpointBytes, ReadOutpoint, ReadWord, ReadPrefixed, CompactPrefixed, Le;
    PrefixedBack(i.scriptSig);
    forall rest: Bytes ensures ReadInput(InputBytes(i) + rest) == Some((i, rest)) {
      var b2 := Le(4, i.sequence) + rest;
      var b1 := CompactPrefixed(i.scriptSig) + b2;
      assert InputBytes(i) + rest == OutpointBytes(i.outpoint) + b1;
      OutpointBack(i.outpoint, b1);
      WordBack(i.sequence, rest);
    }
  }

  lemma OutputBack(o: TxOut)
    requires Fits(o)
    ensures Reads(ReadOutput, OutputBytes, o)
  {
    SpanValues();
    LeFits(8, o.value);
    PrefixedBack(o.script);
    hide Le, LeValue, ReadPrefixed, CompactPrefixed;
    forall rest: Bytes ensures ReadOutput(OutputBytes(o) + rest) == Some((o, rest)) {
      var b1 := CompactPrefixed(o.script) + rest;
      assert OutputBytes(o) + rest == Le(8, o.value) + b1;
      TakeDrop(Le(8, o.value), b1);
    }
  }

  lemma StackBack(items: seq<Bytes>)
    requires |items| < 0x1_0000_0000_0000_0000 && forall x <- items :: Addressable(x)
    ensures Reads(ReadStack, StackBytes, items)
  {
    forall x | x in items ensures Reads(ReadPrefixed, CompactPrefixed, x) {
      PrefixedBack(x);
    }
    hide ReadPrefixed, CompactPrefixed, Reads;
    forall rest: Bytes ensures ReadStack(StackBytes(items) + rest) == Some((items, rest)) {
      CountedBack(ReadPrefixed, CompactPrefixed, items, rest);
    }
    StackReads(items);
  }

  lemma StackReads(items: seq<Bytes>)
    requires forall rest: Bytes :: ReadStack(StackBytes(items) + rest) == Some((items, rest))
    ensures Reads(ReadStack, StackBytes, items)
  {
    hide ReadStack, StackBytes;
  }

  lemma BodyBack(t: WireTx, rest: Bytes)
    requires Sized(t)
    ensures ReadBody(Body(t) + rest) == Some(((t.ins, t.outs), rest))
  {
    forall i | i in t.ins ensures Reads(ReadInput, InputBytes, i) {
      InputBack(i);
    }
    forall o | o in t.outs ensures Reads(ReadOutput, OutputBytes, o) {
      OutputBack(o);
    }
    hide Counted, Reads, ReadCounted;
    var tail := Counted(OutputBytes, t.outs) + rest;
    assert Body(t) + rest == Counted(InputBytes, t.ins) + tail;
    CountedBack(ReadInput, InputBytes, t.ins, tail);
    CountedBack(ReadOutput, OutputBytes, t.outs, rest);
  }

  lemma WitnessBack(t: WireTx, rest: Bytes)
    requires Sized(t) && |t.witnesses| == |t.ins|
    ensures ReadMany(|t.ins|, ReadStack, Witness(t) + rest) == Some((t.witnesses, rest))
  {
    forall w | w in t.witnesses ensures Reads(ReadStack, StackBytes, w) {
      StackBack(w);
    }
    hide Reads, ReadMany, Flatten;
    ManyBack(ReadStack, StackBytes, t.witnesses, rest);
  }

  /** Every serialized transaction is read back as it was, so no two have the same bytes. */
  lemma SegwitReadsBack(t: WireTx)
    requires Sized(t) && |t.witnesses| == |t.ins|
    ensures ReadTx(Segwit(t)) == Some(t)
  {
    hide Body, Witness, ReadBody, ReadMany, Le, ReadWord;
    var end := Le(4, t.locktime);
    var b2 := Witness(t) + end;
    var b1 := [0, 1] + (Body(t) + b2);
    assert Segwit(t) == Le(4, t.version) + b1;
    WordBack(t.version, b1);
    assert [0, 1] <= b1 && b1[2..] == Body(t) + b2;
    BodyBack(t, b2);
    WitnessBack(t, end);
    WordBack(t.locktime, []);
    assert end + [] == end;
  }

  /** The legacy form is told apart by its first count, which is not zero when there are inputs. */
  lemma LegacyReadsBack(t: WireTx)
    requires Sized(t) && t.ins != []
    ensures ReadTx(Legacy(t)) == Some(t.(witnesses := []))
  {
    NonZeroCount(t);
    hide Body, ReadBody, Le, ReadWord;
    var end := Le(4, t.locktime);
    var b1 := Body(t) + end;
    assert Legacy(t) == Le(4, t.version) + b1;
    WordBack(t.version, b1);
    BodyBack(t, end);
    WordBack(t.locktime, []);
    assert end + [] == end;
  }

  lemma NonZeroCount(t: WireTx)
    requires 0 < |t.ins| < 0x1_0000_0000_0000_0000
    ensures Body(t) != [] && Body(t)[0] != 0
  {
    hide Flatten;
  }

  /** Deleting marker, flag and witness leaves exactly the bytes the txid is the hash of. */
  lemma StripGivesLegacy(t: WireTx)
    requires Sized(t) && |t.witnesses| == |t.ins|
    ensures Strip(Segwit(t)) == Some(Legacy(t))
  {
    assert |Le(4, t.version)| == 4 && |Le(4, t.locktime)| == 4;
    hide Body, Witness, ReadBody, Le, Without;
    var rest := Witness(t) + Le(4, t.locktime);
    Pieces(Le(4, t.version), Body(t), Witness(t), Le(4, t.locktime));
    BodyBack(t, rest);
  }

  lemma Pieces(v: Bytes, body: Bytes, stacks: Bytes, end: Bytes)
    requires |v| == 4 && |end| == 4
    ensures var b := v + [0, 1] + body + stacks + end;
            && |b| >= 10 && |b| >= 6 + |stacks + end| && b[6..] == body + (stacks + end)
            && Without(b, |stacks + end|) == v + body + end
  {
    var b := v + [0, 1] + body + stacks + end;
    assert b[..4] == v && b[6..|b| - |stacks + end|] == body && b[|b| - 4..] == end;
  }

  /** The two together, for what the program broadcasts. */
  lemma BroadcastIsFaithful(version: U32, inputs: seq<TxIn>, outputs: seq<TxOut>, locktime: U32,
                            derSigs: seq<Bytes>, pub: Bytes)
    requires |derSigs| == |inputs| && Broadcastable(inputs, outputs, derSigs, pub)
    ensures var t := Signed(version, inputs, outputs, locktime, derSigs, pub);
            ReadTx(Segwit(t)) == Some(t) && Strip(Segwit(t)) == Some(Legacy(t))
  {
    var t := Signed(version, inputs, outputs, locktime, derSigs, pub);
    assert Sized(t) by {
      forall w | w in t.witnesses ensures |w| == 2 && forall x <- w :: Addressable(x) {
        var i :| 0 <= i < |t.witnesses| && t.witnesses[i] == w;
        assert derSigs[i] in derSigs;
      }
    }
    hide Signed, Strip, ReadTx, Segwit, Legacy;
    SegwitReadsBack(t);
    StripGivesLegacy(t);
  }

  // ---- the sighash preimage ------------------------------------------------------------------------

  lemma Offsets(f: seq<Bytes>)
    requires |f| == 11
    requires |f[0]| == 4 && |f[1]| == 32 && |f[2]| == 32 && |f[3]| == 32 && |f[4]| == 4 && |f[5]| == 26
    requires |f[6]| == 8 && |f[7]| == 4 && |f[8]| == 32 && |f[9]| == 4 && |f[10]| == 4
    ensures var p := Joined(f);
            && |p| == 182 && p[..4] == f[0] && p[4..36] == f[1] && p[36..68] == f[2] && p[68..100] == f[3]
            && p[100..104] == f[4] && p[104..130] == f[5] && p[130..138] == f[6] && p[138..142] == f[7]
            && p[142..174] == f[8] && p[174..178] == f[9] && p[178..182] == f[10]
  {
    assert f[..0] == [] && f[..11] == f;
    JoinedAt(f, 0);
    JoinedAt(f, 1);
    JoinedAt(f, 2);
    JoinedAt(f, 3);
    JoinedAt(f, 4);
    JoinedAt(f, 5);
    JoinedAt(f, 6);
    JoinedAt(f, 7);
    JoinedAt(f, 8);
    JoinedAt(f, 9);
    JoinedAt(f, 10);
    hide Joined;
  }

  /** The three hashed lists read back as the outpoints, the sequences and the outputs. */
  lemma ListsReadBack(c: SighashCall)
    requires CallOk(c)
    ensures ReadMany(|c.ins|, ReadOutpoint, Prevouts(c)) == Some((Outpoints(c.ins), []))
    ensures ReadMany(|c.ins|, ReadWord, SequenceBytes(c)) == Some((Sequences(c.ins), []))
    ensures ReadMany(|c.outs|, ReadOutput, Btc.Outputs(c)) == Some((c.outs, []))
  {
    forall o: Outpoint ensures Reads(ReadOutpoint, OutpointBytes, o) {
      forall rest: Bytes ensures ReadOutpoint(OutpointBytes(o) + rest) == Some((o, rest)) {
        OutpointBack(o, rest);
      }
    }
    forall w: U32 ensures Reads(ReadWord, WordBytes, w) {
      forall rest: Bytes ensures ReadWord(WordBytes(w) + rest) == Some((w, rest)) {
        WordBack(w, rest);
      }
    }
    forall o <- c.outs ensures Reads(ReadOutput, OutputBytes, o) {
      OutputBack(o);
    }
    hide Reads, ReadMany, Flatten, OutpointBytes, WordBytes, OutputBytes;
    assert Prevouts(c) + [] == Prevouts(c) && SequenceBytes(c) + [] == SequenceBytes(c)
        && Btc.Outputs(c) + [] == Btc.Outputs(c);
    ManyBack(ReadOutpoint, OutpointBytes, Outpoints(c.ins), []);
    ManyBack(ReadWord, WordBytes, Sequences(c.ins), []);
    ManyBack(ReadOutput, OutputBytes, c.outs, []);
  }

  lemma SighashLayout(h: Hashes, c: SighashCall)
    requires h.Valid() && c.index < |c.ins|
    ensures var p, signed := SighashPreimage(h, c), c.ins[c.index];
            && |p| == 182 && p[..4] == Le(4, c.version)
            && p[4..36] == h.Hash256(Prevouts(c)) && p[36..68] == h.Hash256(SequenceBytes(c))
            && p[68..100] == signed.outpoint.txid && p[100..104] == Le(4, signed.outpoint.vout)
            && p[104..130] == ScriptCode(h.Hash160(c.pubkey))
            && p[130..138] == Le(8, signed.value) && p[138..142] == Le(4, signed.sequence)
            && p[142..174] == h.Hash256(Btc.Outputs(c)) && p[174..178] == Le(4, c.locktime) && p[178..182] == Le(4, 1)
  {
    Widths(h, c);
    hide Le, Joined, Prevouts, SequenceBytes, Btc.Outputs, ScriptCode;
    Offsets(Fields(h, c));
  }

  lemma FieldValue(width: nat, v: nat, b: Bytes)
    requires v < Span(width) && b == Le(width, v)
    ensures LeValue(b) == v
  {
    LeFits(width, v);
  }

  lemma LittleOne()
    ensures Le(4, 1) == [1, 0, 0, 0]
  {
    FourBytes([1, 0, 0, 0]);
    LeOnto([1, 0, 0, 0]);
    hide Le, LeValue;
  }

  /** The preimage taken apart at the offsets of BIP-143, for a signature over everything. */
  lemma SighashReadsBack(h: Hashes, c: SighashCall)
    requires h.Valid() && c.index < |c.ins|
    ensures var p, signed := SighashPreimage(h, c), c.ins[c.index];
            && |p| == 182
            && LeValue(p[..4]) == c.version
            && p[4..36] == h.sha256(h.sha256(Prevouts(c)))
            && p[36..68] == h.sha256(h.sha256(SequenceBytes(c)))
            && p[68..100] == signed.outpoint.txid && LeValue(p[100..104]) == signed.outpoint.vout
            && p[104..108] == [0x19, 0x76, 0xa9, 0x14] && p[108..128] == h.ripemd160(h.sha256(c.pubkey))
            && p[128..130] == [0x88, 0xac]
            && LeValue(p[130..138]) == signed.value && LeValue(p[138..142]) == signed.sequence
            && p[142..174] == h.sha256(h.sha256(Btc.Outputs(c)))
            && LeValue(p[174..178]) == c.locktime && p[178..182] == [1, 0, 0, 0]
  {
    var p, signed := SighashPreimage(h, c), c.ins[c.index];
    SighashLayout(h, c);
    Widths(h, c);
    SpanValues();
    LittleOne();
    hide Le, LeValue, SighashPreimage, Prevouts, SequenceBytes, Btc.Outputs, ScriptCode;
    FieldValue(4, c.version, p[..4]);
    FieldValue(4, signed.outpoint.vout, p[100..104]);
    FieldValue(8, signed.value, p[130..138]);
    FieldValue(4, signed.sequence, p[138..142]);
    FieldValue(4, c.locktime, p[174..178]);
    ScriptParts(p, h.Hash160(c.pubkey));
  }

  lemma ScriptParts(p: Bytes, pkh: Bytes)
    requires |p| == 182 && |pkh| == 20
    ensures p[104..130] == ScriptCode(pkh) ==>
              p[104..108] == [0x19, 0x76, 0xa9, 0x14] && p[108..128] == pkh && p[128..130] == [0x88, 0xac]
  {
    var s := p[104..130];
    assert s[..4] == p[104..108] && s[4..24] == p[108..128] && s[24..26] == p[128..130];
    if s == ScriptCode(pkh) {
      assert ScriptCode(pkh)[4..24] == pkh;
    }
  }
}

/** The on-chain rules the signer daemon meets: receipts, thresholds and the recorded signature. */
module Chain {
  import opened Bytes
  import opened Varint

  datatype Status = Pending | Aggregated

  datatype Operator = Operator(stakeWeight: U64, jailed: bool, unbondingAt: U64)

  datatype Request = Request(
    scheme: nat, messageHash: Bytes, threshold: nat, partials: nat, weight: U64, required: U64,
    expiry: nat, status: Status, sig: Bytes)

  datatype Receipt = Receipt(share: Bytes, slot: nat, weight: U64)

  /** Accounts by address; a receipt's address is made of its request's and its operator's. */
  datatype Chain = Chain(
    slot: nat, paused: bool, operators: map<nat, Operator>, requests: map<nat, Request>,
    receipts: map<(nat, nat), Receipt>)

  /** Transactions of anybody, and the passing of slots. */
  datatype Tx =
    | Submit(request: nat, operator: nat, share: Bytes)
    | Record(request: nat, sig: Bytes)
    | Create(request: nat, scheme: nat, messageHash: Bytes, threshold: nat, required: U64, expiry: nat)
    | Cancel(request: nat)
    | Expire(request: nat)
    | SetOperator(operator: nat, account: Operator)
    | SetPaused(paused: bool)
    | Tick(slots: nat)

  predicate NonZero(b: Bytes) {
    exists x <- b :: x != 0
  }

  /** What a share must look like for its scheme: FROST 0, GG20 1. */
  predicate ShareOk(scheme: nat, share: Bytes, messageHash: Bytes) {
    |share| == 64 && NonZero(share) && NonZero(messageHash)
    && (if scheme == 0 then NonZero(share[..32]) else NonZero(share[32..]))
  }

  predicate CanSubmit(c: Chain, request: nat, operator: nat, share: Bytes) {
    && !c.paused && operator in c.operators && request in c.requests
    && !c.operators[operator].jailed && c.operators[operator].unbondingAt == 0
    && var r := c.requests[request];
       && r.status.Pending? && c.slot <= r.expiry && ShareOk(r.scheme, share, r.messageHash)
       && (request, operator) !in c.receipts
       && r.partials < 0xffff && r.weight + c.operators[operator].stakeWeight < 0x1_0000_0000_0000_0000
  }

  predicate CanRecord(c: Chain, request: nat, sig: Bytes) {
    && !c.paused && request in c.requests
    && var r := c.requests[request];
       r.status.Pending? && c.slot <= r.expiry && r.partials >= r.threshold && r.weight >= r.required && NonZero(sig)
  }

  function Submitted(c: Chain, request: nat, operator: nat, share: Bytes): Chain
    requires CanSubmit(c, request, operator, share)
  {
    var r, w := c.requests[request], c.operators[operator].stakeWeight;
    c.(requests := c.requests[request := r.(partials := r.partials + 1, weight := r.weight + w)],
       receipts := c.receipts[(request, operator) := Receipt(share, c.slot, w)])
  }

  function Recorded(c: Chain, request: nat, sig: Bytes): Chain
    requires CanRecord(c, request, sig)
  {
    c.(requests := c.requests[request := c.requests[request].(status := Aggregated, sig := sig)])
  }

  /** One transaction; None means the program refuses it. */
  function Execute(c: Chain, tx: Tx): Option<Chain> {
    match tx
    case Submit(q, o, share) => if CanSubmit(c, q, o, share) then Some(Submitted(c, q, o, share)) else None
    case Record(q, sig) => if CanRecord(c, q, sig) then Some(Recorded(c, q, sig)) else None
    case Create(q, scheme, hash, threshold, required, expiry) =>
      if c.paused || q in c.requests || !NonZero(hash) || threshold < 1 then None
      else Some(c.(requests := c.requests[q := Request(scheme, hash, threshold, 0, 0, required, expiry, Pending, [])]))
    case Cancel(q) =>
      if q in c.requests && c.requests[q].status.Pending? then Some(c.(requests := c.requests - {q})) else None
    case Expire(q) =>
      if q in c.requests && c.requests[q].status.Pending? && c.slot > c.requests[q].expiry
      then Some(c.(requests := c.requests - {q})) else None
    case SetOperator(o, account) => Some(c.(operators := c.operators[o := account]))
    case SetPaused(paused) => Some(c.(paused := paused))
    case Tick(slots) => Some(c.(slot := c.slot + slots))
  }

  /** The state after one more transaction. */
  function Next(c: Chain, tx: Tx): Chain {
    match Execute(c, tx) case None => c case Some(d) => d
  }

  /** A history; refused transactions leave no trace. */
  function After(c: Chain, txs: seq<Tx>): Chain
    decreases |txs|
  {
    if txs == [] then c
    else After(Next(c, txs[0]), txs[1..])
  }

  // ---- what every history keeps ------------------------------------------------------------------

  /** The operators that hold a receipt for a request. */
  ghost function Holders(c: Chain, request: nat): set<nat> {
    set k | k in c.receipts && k.0 == request :: k.1
  }

  /** Nothing is counted twice, and nothing is recorded below its thresholds. */
  ghost predicate RequestOk(c: Chain, q: nat)
    requires q in c.requests
  {
    var r := c.requests[q];
    && r.partials <= |Holders(c, q)|
    && (r.status.Aggregated? ==> r.partials >= r.threshold >= 1 && r.weight >= r.required && NonZero(r.sig))
    && r.threshold >= 1
  }

  ghost predicate Sound(c: Chain) {
    forall q <- c.requests :: RequestOk(c, q)
  }

  /** Recorded requests are final, receipts are never taken back or replaced, time does not go back. */
  ghost predicate Later(c: Chain, d: Chain) {
    && c.slot <= d.slot
    && (forall q <- c.requests :: c.requests[q].status.Aggregated? ==> q in d.requests && d.requests[q] == c.requests[q])
    && (forall k <- c.receipts :: k in d.receipts && d.receipts[k] == c.receipts[k])
    && (Sound(c) ==> Sound(d))
  }

  lemma LaterTransitive(c: Chain, d: Chain, e: Chain)
    requires Later(c, d) && Later(d, e)
    ensures Later(c, e)
  {
    hide Sound;
  }

  lemma HoldersGrow(c: Chain, d: Chain, q: nat, operator: nat)
    requires (q, operator) !in c.receipts && d.receipts.Keys == c.receipts.Keys + {(q, operator)}
    ensures |Holders(d, q)| == |Holders(c, q)| + 1
    ensures forall p :: p != q ==> Holders(d, p) == Holders(c, p)
  {
    assert operator !in Holders(c, q);
    assert (q, operator) in d.receipts;
    assert Holders(d, q) == Holders(c, q) + {operator};
  }

  lemma SubmitIsLater(c: Chain, q: nat, operator: nat, share: Bytes)
    requires CanSubmit(c, q, operator, share)
    ensures Later(c, Submitted(c, q, operator, share))
  {
    var d := Submitted(c, q, operator, share);
    if Sound(c) {
      forall p | p in d.requests ensures RequestOk(d, p) {
        SubmitOk(c, q, operator, share, p);
      }
    }
    hide Holders, NonZero, ShareOk, RequestOk;
  }

  lemma SubmitOk(c: Chain, q: nat, operator: nat, share: Bytes, p: nat)
    requires CanSubmit(c, q, operator, share) && p in c.requests && RequestOk(c, p)
    ensures RequestOk(Submitted(c, q, operator, share), p)
  {
    HoldersGrow(c, Submitted(c, q, operator, share), q, operator);
    hide Holders, NonZero, ShareOk;
  }

  lemma SameReceipts(c: Chain, d: Chain)
    requires d.receipts == c.receipts
    ensures forall q :: Holders(d, q) == Holders(c, q)
  {}

  lemma RecordIsLater(c: Chain, q: nat, sig: Bytes)
    requires CanRecord(c, q, sig)
    ensures Later(c, Recorded(c, q, sig))
  {
    var d := Recorded(c, q, sig);
    SameReceipts(c, d);
    hide Holders, NonZero;
    if Sound(c) {
      forall p | p in d.requests ensures RequestOk(d, p) {
        assert RequestOk(c, p);
      }
    }
  }

  lemma ExecuteIsLater(c: Chain, tx: Tx)
    requires Execute(c, tx).Some?
    ensures Later(c, Execute(c, tx).value)
  {
    if tx.Submit? {
      SubmitIsLater(c, tx.request, tx.operator, tx.share);
    } else if tx.Record? {
      RecordIsLater(c, tx.request, tx.sig);
    } else {
      var d := Execute(c, tx).value;
      SameReceipts(c, d);
      hide Holders, NonZero;
      if Sound(c) {
        forall p | p in d.requests ensures RequestOk(d, p) {
          if p in c.requests {
            assert RequestOk(c, p);
          }
        }
      }
    }
  }

  /** Whatever anybody sends, in any order. */
  lemma {:induction false} HistoryIsLater(c: Chain, txs: seq<Tx>)
    ensures Later(c, After(c, txs))
    decreases |txs|
  {
    hide Later, Execute;
    if txs == [] {
      NowIsLater(c);
    } else {
      match Execute(c, txs[0])
      case None => HistoryIsLater(c, txs[1..]);
      case Some(d) =>
        ExecuteIsLater(c, txs[0]);
        HistoryIsLater(d, txs[1..]);
        LaterTransitive(c, d, After(d, txs[1..]));
    }
  }

  /**
   * A request's counters move only with a new receipt, and then by one and by the stake of the operator
   * whose receipt it is; the receipt holds the share, the slot and that stake.
   */
  lemma CountedByReceipt(c: Chain, tx: Tx, q: nat)
    requires Execute(c, tx).Some? && q in c.requests && q in Execute(c, tx).value.requests
    ensures var d := Execute(c, tx).value;
            var r, s := c.requests[q], d.requests[q];
            if tx.Submit? && tx.request == q then
              && (q, tx.operator) !in c.receipts && tx.operator in c.operators
              && d.receipts == c.receipts[(q, tx.operator) :=
                                 Receipt(tx.share, c.slot, c.operators[tx.operator].stakeWeight)]
              && s == r.(partials := r.partials + 1, weight := r.weight + c.operators[tx.operator].stakeWeight)
            else s.partials == r.partials && s.weight == r.weight && (s != r ==> tx == Record(q, s.sig))
  {
    hide NonZero, ShareOk;
  }

  /** An account goes only while it is pending: by its own cancellation, or once it has expired. */
  lemma GoneOnlyBy(c: Chain, tx: Tx, q: nat)
    requires Execute(c, tx).Some? && q in c.requests && q !in Execute(c, tx).value.requests
    ensures c.requests[q].status.Pending?
    ensures tx == Cancel(q) || (tx == Expire(q) && c.slot > c.requests[q].expiry)
  {
    hide NonZero, ShareOk;
  }

  lemma AfterNext(c: Chain, txs: seq<Tx>, n: nat)
    requires txs != [] && n < |txs|
    ensures After(c, txs) == After(Next(c, txs[0]), txs[1..])
    ensures After(c, txs[..n + 1]) == After(Next(c, txs[0]), txs[1..][..n])
  {
    hide Execute;
    assert txs[..n + 1][0] == txs[0] && txs[..n + 1][1..] == txs[1..][..n];
  }

  /**
   * Every receipt a history added was earned: its operator sent the share while in good standing, with
   * the program not paused and the request pending and not expired, and the receipt says when and what
   * the operator's stake was.
   */
  lemma {:induction false} ReceiptsWereEarned(c: Chain, txs: seq<Tx>, q: nat, o: nat) returns (n: nat, met: Chain)
    requires (q, o) in After(c, txs).receipts && (q, o) !in c.receipts
    ensures n < |txs| && met == After(c, txs[..n])
    ensures !met.paused && o in met.operators && !met.operators[o].jailed && met.operators[o].unbondingAt == 0
    ensures q in met.requests && met.requests[q].status == Pending && met.slot <= met.requests[q].expiry
    ensures var r := After(c, txs).receipts[(q, o)];
            && txs[n] == Submit(q, o, r.share) && r.slot == met.slot && r.weight == met.operators[o].stakeWeight
            && |r.share| == 64 && (exists b <- r.share :: b != 0) && (exists b <- met.requests[q].messageHash :: b != 0)
            && if met.requests[q].scheme == 0 then exists b <- r.share[..32] :: b != 0
               else exists b <- r.share[32..] :: b != 0
    decreases |txs|
  {
    if txs != [] {
      var d := Next(c, txs[0]);
      AfterNext(c, txs, 0);
      if (q, o) in d.receipts {
        n, met := 0, c;
        ReceiptMade(c, txs[0], q, o);
        assert txs[..0] == [];
        HistoryIsLater(d, txs[1..]);
      } else {
        hide Execute;
        n, met := ReceiptsWereEarned(d, txs[1..], q, o);
        AfterNext(c, txs, n);
        n := n + 1;
      }
    }
  }

  lemma ReceiptMade(c: Chain, tx: Tx, q: nat, o: nat)
    requires (q, o) !in c.receipts && (q, o) in Next(c, tx).receipts
    ensures tx.Submit? && tx.request == q && tx.operator == o && CanSubmit(c, q, o, tx.share)
    ensures Next(c, tx).receipts[(q, o)] == Receipt(tx.share, c.slot, c.operators[o].stakeWeight)
  {
    hide NonZero, ShareOk;
  }

  /**
   * Every signature a history recorded was earned: it was sent when the request was pending and not
   * expired, with the program not paused, after enough receipts of enough stake.
   */
  lemma {:induction false} SignaturesWereEarned(c: Chain, txs: seq<Tx>, q: nat) returns (n: nat, met: Chain)
    requires q in After(c, txs).requests && After(c, txs).requests[q].status == Aggregated
    requires !(q in c.requests && c.requests[q].status == Aggregated)
    ensures n < |txs| && met == After(c, txs[..n])
    ensures !met.paused && q in met.requests
    ensures var r := met.requests[q];
            && r.status == Pending && met.slot <= r.expiry && r.partials >= r.threshold && r.weight >= r.required
            && txs[n].Record? && txs[n].request == q && (exists b <- txs[n].sig :: b != 0)
            && After(c, txs).requests[q] == r.(status := Aggregated, sig := txs[n].sig)
    decreases |txs|
  {
    if txs != [] {
      var d := Next(c, txs[0]);
      AfterNext(c, txs, 0);
      if q in d.requests && d.requests[q].status == Aggregated {
        n, met := 0, c;
        SignatureMade(c, txs[0], q);
        assert txs[..0] == [];
        HistoryIsLater(d, txs[1..]);
      } else {
        hide Execute;
        n, met := SignaturesWereEarned(d, txs[1..], q);
        AfterNext(c, txs, n);
        n := n + 1;
      }
    }
  }

  lemma SignatureMade(c: Chain, tx: Tx, q: nat)
    requires !(q in c.requests && c.requests[q].status == Aggregated)
    requires q in Next(c, tx).requests && Next(c, tx).requests[q].status == Aggregated
    ensures tx.Record? && tx.request == q && CanRecord(c, q, tx.sig)
    ensures Next(c, tx).requests[q] == c.requests[q].(status := Aggregated, sig := tx.sig)
  {
    hide NonZero, ShareOk;
  }

  lemma NowIsLater(c: Chain)
    ensures Later(c, c)
  {}

  /** Behind every recorded signature there are as many different receipt holders as its threshold asks. */
  lemma RecordedHasQuorum(c: Chain, txs: seq<Tx>, q: nat)
    requires c.requests == map[] && q in After(c, txs).requests && After(c, txs).requests[q].status.Aggregated?
    ensures |Holders(After(c, txs), q)| >= After(c, txs).requests[q].threshold >= 1
  {
    HistoryIsLater(c, txs);
    assert RequestOk(After(c, txs), q);
  }
}

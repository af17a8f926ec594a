/** The signer daemon: poll, submit both receipts, record the signature; any call may fail. */
module Signerd {
  import opened Bytes
  import opened Varint
  import opened Chain

  /** A call works, is lost before it reaches the chain, or takes effect but reports an error. */
  datatype Fate = Works | Vanishes | EffectOnly

  /** What happens at one call: first others' transactions, then the call's own fate. */
  datatype Turn = Turn(others: seq<Tx>, fate: Fate)

  /** A transaction of the daemon that reached the chain, and the state it met. */
  datatype Sent = Sent(met: Chain, tx: Tx)

  ghost predicate OnlyTicks(txs: seq<Tx>) {
    forall tx <- txs :: tx.Tick?
  }

  /** Nobody but the daemon sends transactions; slots pass, and its own calls may fail in any way. */
  ghost predicate Alone(turns: seq<Turn>) {
    forall t <- turns :: OnlyTicks(t.others)
  }

  lemma AloneNext(turns: seq<Turn>)
    requires Alone(turns) && turns != []
    ensures OnlyTicks(turns[0].others) && Alone(turns[1..])
  {
    assert turns[0] in turns;
  }

  /** Time has passed and nothing else. */
  ghost predicate Aged(c: Chain, d: Chain) {
    d == c.(slot := d.slot) && c.slot <= d.slot
  }

  lemma {:induction false} TicksAge(c: Chain, txs: seq<Tx>)
    requires OnlyTicks(txs)
    ensures Aged(c, After(c, txs))
    decreases |txs|
  {
    if txs != [] {
      assert txs[0] in txs;
      TicksAge(Execute(c, txs[0]).value, txs[1..]);
    }
  }

  class Rpc {
    var chain: Chain
    var turns: seq<Turn>  // when they are used up, nobody interferes and every call works
    ghost var sent: seq<Sent>

    constructor (chain: Chain, turns: seq<Turn>)
      ensures this.chain == chain && this.turns == turns && sent == []
    {
      this.chain, this.turns, sent := chain, turns, [];
    }

    method Next() returns (fate: Fate)
      modifies this`chain, this`turns
      ensures Later(old(chain), chain)
      ensures old(turns) == [] ==> fate == Works && chain == old(chain) && turns == []
      ensures old(turns) != [] ==> |turns| == |old(turns)| - 1
      ensures Alone(old(turns)) ==> Aged(old(chain), chain) && Alone(turns)
    {
      NowIsLater(chain);
      if Alone(turns) && turns != [] {
        AloneNext(turns);
        TicksAge(chain, turns[0].others);
      }
      hide Later, Alone, OnlyTicks;
      if turns == [] {
        return Works;
      }
      HistoryIsLater(chain, turns[0].others);
      chain := After(chain, turns[0].others);
      fate := turns[0].fate;
      turns := turns[1..];
    }

    /** `get_account(..).is_ok()`: false may also mean that the call failed. */
    method HasReceipt(request: nat, operator: nat) returns (found: bool)
      modifies this`chain, this`turns
      ensures Later(old(chain), chain)
      ensures found ==> (request, operator) in chain.receipts
      ensures old(turns) == [] ==>
                chain == old(chain) && turns == [] && found == ((request, operator) in chain.receipts)
      ensures |turns| <= |old(turns)|
      ensures Alone(old(turns)) ==> Aged(old(chain), chain) && Alone(turns)
    {
      hide Alone;
      var fate := Next();
      return fate.Works? && (request, operator) in chain.receipts;
    }

    /** `send`: false stands for the panic of an unwrapped error; `met` is the state the call found. */
    method Send(tx: Tx) returns (ok: bool, ghost met: Chain)
      modifies this`chain, this`turns, this`sent
      ensures Later(old(chain), met) && Later(met, chain)
      ensures chain == met || Execute(met, tx) == Some(chain)
      ensures sent == old(sent) || sent == old(sent) + [Sent(met, tx)]
      ensures ok ==> Execute(met, tx) == Some(chain)
      ensures ok && tx.Submit? ==> (tx.request, tx.operator) in chain.receipts
      ensures ok && tx.Record? ==>
                tx.request in chain.requests && chain.requests[tx.request].status.Aggregated?
                && chain.requests[tx.request].sig == tx.sig
      ensures old(turns) == [] ==> turns == [] && met == old(chain) && ok == Execute(old(chain), tx).Some?
      ensures old(turns) == [] ==> chain == (match Execute(old(chain), tx) case None => old(chain) case Some(d) => d)
      ensures |turns| <= |old(turns)|
      ensures Alone(old(turns)) ==> Alone(turns) && Aged(old(chain), met)
    {
      hide Alone, Aged;
      var fate := Next();
      met := chain;
      NowIsLater(met);
      if fate.Vanishes? {
        return false, met;
      }
      sent := sent + [Sent(chain, tx)];
      var r := Execute(chain, tx);
      if r.None? {
        return false, met;
      }
      ExecuteIsLater(chain, tx);
      assert tx.Submit? ==> (tx.request, tx.operator) in r.value.receipts;
      hide Later;
      chain := r.value;
      return fate.Works?, met;
    }
  }

  /** The operating system's randomness: no draw comes twice. */
  class OsRng {
    var drawn: nat

    constructor ()
      ensures drawn == 0
    {
      drawn := 0;
    }

    method Draw() returns (nonces: nat)
      modifies this
      ensures nonces == old(drawn) && drawn == old(drawn) + 1
    {
      nonces := drawn;
      drawn := drawn + 1;
    }
  }

  /**
   * The keys on disk: a FROST key set, which signs with nonces drawn for each attempt, and the
   * operators' accounts, numbered from 1.
   */
  datatype Keys = Keys(
    ops: seq<nat>,
    thresholdSign: (nat, Bytes) -> Option<Bytes>,
    participation: (nat, Bytes) -> Bytes)

  const QUORUM: seq<nat> := [1, 2]

  predicate KeysOk(k: Keys) {
    |k.ops| == 3 && k.ops[0] != k.ops[1]
  }

  /** A signature the chain can take. */
  predicate Good(sig: Option<Bytes>) {
    sig.Some? && NonZero(sig.value)
  }

  /** Some attempt at signing `hash` gives this signature. */
  ghost predicate SignedFor(k: Keys, hash: Bytes, sig: Bytes) {
    exists nonces :: k.thresholdSign(nonces, hash) == Some(sig)
  }

  /** No attempt at signing `hash` fails. */
  ghost predicate AlwaysSigns(k: Keys, hash: Bytes) {
    forall nonces :: Good(k.thresholdSign(nonces, hash))
  }

  datatype Outcome = Done | SignFailed | Panicked

  /** Both quorum operators hold receipts. */
  predicate BothIn(c: Chain, k: Keys, request: nat)
    requires KeysOk(k)
  {
    (request, k.ops[0]) in c.receipts && (request, k.ops[1]) in c.receipts
  }

  /** A receipt is asked for in the name of a quorum operator, with what that operator's own key gives. */
  ghost predicate OwnShare(k: Keys, tx: Tx)
    requires KeysOk(k) && tx.Submit?
  {
    (tx.operator == k.ops[0] || tx.operator == k.ops[1])
    && exists hash {:trigger k.participation(tx.operator, hash)} :: tx.share == k.participation(tx.operator, hash)
  }

  /** No signature was sent before both receipts were there, and no receipt with another operator's share. */
  ghost predicate Orderly(k: Keys, log: seq<Sent>)
    requires KeysOk(k)
  {
    forall s <- log ::
      (s.tx.Record? ==> BothIn(s.met, k, s.tx.request)) && (s.tx.Submit? ==> OwnShare(k, s.tx))
  }

  /** Every recorded signature has both receipts behind it. */
  ghost predicate Backed(c: Chain, k: Keys)
    requires KeysOk(k)
  {
    forall q <- c.requests :: c.requests[q].status.Aggregated? ==> BothIn(c, k, q)
  }

  /** Whether this holds before and after a stretch in which nobody interfered. */
  ghost predicate KeptBacked(was: seq<Turn>, turns: seq<Turn>, c: Chain, d: Chain, k: Keys)
    requires KeysOk(k)
  {
    Alone(was) ==> Alone(turns) && (Backed(c, k) ==> Backed(d, k))
  }

  // ---- what a stretch of the daemon's work keeps --------------------------------------------------------

  /** What any stretch keeps, failures included. */
  ghost predicate Safe(k: Keys, c: Chain, log: seq<Sent>, was: seq<Turn>, d: Chain, log': seq<Sent>, turns: seq<Turn>)
    requires KeysOk(k)
  {
    Later(c, d) && (Orderly(k, log) ==> Orderly(k, log')) && KeptBacked(was, turns, c, d, k)
  }

  lemma SafeThen(k: Keys, c: Chain, log: seq<Sent>, was: seq<Turn>, d: Chain, log': seq<Sent>, turns: seq<Turn>,
                 e: Chain, log'': seq<Sent>, rest: seq<Turn>)
    requires KeysOk(k) && Safe(k, c, log, was, d, log', turns) && Safe(k, d, log', turns, e, log'', rest)
    ensures Safe(k, c, log, was, e, log'', rest)
  {
    LaterTransitive(c, d, e);
    hide Later, Orderly, Alone, Backed;
  }

  lemma NothingIsSafe(k: Keys, c: Chain, log: seq<Sent>, turns: seq<Turn>)
    requires KeysOk(k)
    ensures Safe(k, c, log, turns, c, log, turns)
  {
    NowIsLater(c);
    hide Later;
  }

  lemma BackedStays(c: Chain, d: Chain, k: Keys, tx: Tx)
    requires KeysOk(k) && Backed(c, k) && (d == c || Execute(c, tx) == Some(d))
    requires tx.Submit? || (tx.Record? && BothIn(c, k, tx.request))
    ensures Backed(d, k)
  {
    hide NonZero, ShareOk;
  }

  // ---- when a request can be finished ----------------------------------------------------------------

  /** What quorum operator `i` still has to bring. */
  function Missing(c: Chain, k: Keys, request: nat, i: nat): nat
    requires KeysOk(k) && i < 2
  {
    if (request, k.ops[i]) in c.receipts then 0 else 1
  }

  function MissingWeight(c: Chain, k: Keys, request: nat, i: nat): nat
    requires KeysOk(k) && i < 2
  {
    if (request, k.ops[i]) in c.receipts || k.ops[i] !in c.operators then 0 else c.operators[k.ops[i]].stakeWeight
  }

  /** An operator that has no receipt yet may get one. */
  predicate Able(c: Chain, k: Keys, request: nat, i: nat)
    requires KeysOk(k) && i < 2 && request in c.requests
  {
    (request, k.ops[i]) in c.receipts
    || (k.ops[i] in c.operators && !c.operators[k.ops[i]].jailed && c.operators[k.ops[i]].unbondingAt == 0
        && var r := c.requests[request]; ShareOk(r.scheme, Share(k, i, r.messageHash), r.messageHash))
  }

  /** Everything a caller can check before the poll. */
  predicate Ready(c: Chain, k: Keys, request: nat)
    requires KeysOk(k) && request in c.requests
  {
    var r := c.requests[request];
    var partials := r.partials + Missing(c, k, request, 0) + Missing(c, k, request, 1);
    var weight := r.weight + MissingWeight(c, k, request, 0) + MissingWeight(c, k, request, 1);
    && r.status.Pending? && !c.paused && c.slot <= r.expiry
    && Able(c, k, request, 0) && Able(c, k, request, 1)
    && r.threshold <= partials && r.required <= weight
    && (partials > r.partials ==> partials <= 0xffff && weight < 0x1_0000_0000_0000_0000)
  }

  ghost predicate Finished(c: Chain, k: Keys, request: nat, hash: Bytes) {
    request in c.requests && c.requests[request].status.Aggregated?
    && SignedFor(k, hash, c.requests[request].sig)
  }

  /** Only one request and its receipts differ. */
  ghost predicate OnlyTouches(c: Chain, d: Chain, request: nat) {
    && d.slot == c.slot && d.paused == c.paused && d.operators == c.operators
    && d.requests.Keys == c.requests.Keys
    && forall q :: q != request ==> SameAt(c, d, q)
  }

  ghost predicate SameAt(c: Chain, d: Chain, q: nat) {
    && (q in c.requests <==> q in d.requests) && (q in c.requests ==> d.requests[q] == c.requests[q])
    && forall o: nat :: (q, o) in d.receipts <==> (q, o) in c.receipts
  }

  lemma TxTouches(c: Chain, d: Chain, tx: Tx)
    requires d == c || Execute(c, tx) == Some(d)
    requires tx.Submit? || tx.Record?
    ensures OnlyTouches(c, d, tx.request)
  {
    hide NonZero, ShareOk;
  }

  lemma ReadySame(c: Chain, d: Chain, k: Keys, q: nat)
    requires KeysOk(k) && SameAt(c, d, q) && q in c.requests
    requires d.slot == c.slot && d.paused == c.paused && d.operators == c.operators
    ensures Ready(d, k, q) <==> Ready(c, k, q)
  {
    hide NonZero, ShareOk;
  }

  // ---- what stays possible when only the daemon sends ----------------------------------------------------

  /** Both receipts are there and the thresholds are not met: more than the daemon can do is needed. */
  predicate Blocked(c: Chain, k: Keys, request: nat)
    requires KeysOk(k)
  {
    request in c.requests && BothIn(c, k, request)
    && var r := c.requests[request];
       r.status.Pending? && (r.partials < r.threshold || r.weight < r.required)
  }

  predicate SameTerms(r: Request, s: Request) {
    r.scheme == s.scheme && r.messageHash == s.messageHash && r.expiry == s.expiry
  }

  /** A request keeps its terms; once ready it is ready until it is finished or expired; blocked, it stays as it is. */
  ghost predicate Carried(c: Chain, d: Chain, k: Keys, q: nat)
    requires KeysOk(k)
  {
    q in c.requests ==>
      q in d.requests && SameTerms(c.requests[q], d.requests[q])
      && var r := c.requests[q];
         && (Ready(c, k, q) ==> d.slot > r.expiry || Ready(d, k, q) || Finished(d, k, q, r.messageHash))
         && (Blocked(c, k, q) ==> Blocked(d, k, q) && d.requests[q] == r)
  }

  ghost predicate AllCarried(c: Chain, d: Chain, k: Keys)
    requires KeysOk(k)
  {
    forall q {:trigger Carried(c, d, k, q)} :: Carried(c, d, k, q)
  }

  /** Whether requests are carried over a stretch in which nobody interfered. */
  ghost predicate Carries(was: seq<Turn>, turns: seq<Turn>, c: Chain, d: Chain, k: Keys)
    requires KeysOk(k)
  {
    Alone(was) ==> Alone(turns) && Later(c, d) && AllCarried(c, d, k)
  }

  lemma CarriedThen(c: Chain, d: Chain, e: Chain, k: Keys)
    requires KeysOk(k) && AllCarried(c, d, k) && AllCarried(d, e, k) && Later(d, e)
    ensures AllCarried(c, e, k)
  {
    forall q ensures Carried(c, e, k, q) {
      assert Carried(c, d, k, q) && Carried(d, e, k, q);
      CarriedOn(c, d, e, k, q);
    }
  }

  lemma CarriedOn(c: Chain, d: Chain, e: Chain, k: Keys, q: nat)
    requires KeysOk(k) && Carried(c, d, k, q) && Carried(d, e, k, q) && Later(d, e)
    ensures Carried(c, e, k, q)
  {
    hide Ready, Blocked, Sound;
  }

  lemma CarriesThen(was: seq<Turn>, turns: seq<Turn>, rest: seq<Turn>, c: Chain, d: Chain, e: Chain, k: Keys)
    requires KeysOk(k) && Carries(was, turns, c, d, k) && Carries(turns, rest, d, e, k)
    ensures Carries(was, rest, c, e, k)
  {
    hide Alone, AllCarried, Later;
    if Alone(was) {
      CarriedThen(c, d, e, k);
      LaterTransitive(c, d, e);
    }
  }

  lemma AgeKeeps(c: Chain, d: Chain, k: Keys)
    requires KeysOk(k) && Aged(c, d)
    ensures AllCarried(c, d, k)
  {
    forall q ensures Carried(c, d, k, q) {
      hide NonZero, ShareOk;
    }
  }

  /** A receipt the daemon gets for one of the quorum's operators. */
  lemma SubmitKeeps(c: Chain, d: Chain, k: Keys, tx: Tx)
    requires KeysOk(k) && tx.Submit? && tx.operator in k.ops[..2] && (d == c || Execute(c, tx) == Some(d))
    ensures AllCarried(c, d, k)
  {
    TxTouches(c, d, tx);
    forall q ensures Carried(c, d, k, q) {
      if q == tx.request {
        SubmitCarries(c, d, k, tx);
      } else {
        OthersCarried(c, d, k, tx.request, q);
      }
    }
  }

  lemma SubmitCarries(c: Chain, d: Chain, k: Keys, tx: Tx)
    requires KeysOk(k) && tx.Submit? && tx.operator in k.ops[..2] && (d == c || Execute(c, tx) == Some(d))
    ensures Carried(c, d, k, tx.request)
  {
    hide NonZero, ShareOk;
    assert k.ops[..2] == [k.ops[0], k.ops[1]];
  }

  lemma OthersCarried(c: Chain, d: Chain, k: Keys, request: nat, q: nat)
    requires KeysOk(k) && OnlyTouches(c, d, request) && q != request
    ensures Carried(c, d, k, q)
  {
    assert SameAt(c, d, q);
    if q in c.requests {
      ReadySame(c, d, k, q);
    }
    hide Ready;
  }

  /** The daemon's signature on the request as it read it. */
  lemma RecordKeeps(c: Chain, d: Chain, k: Keys, tx: Tx, hash: Bytes)
    requires KeysOk(k) && tx.Record? && (d == c || Execute(c, tx) == Some(d))
    requires tx.request in c.requests ==> c.requests[tx.request].messageHash == hash
    requires SignedFor(k, hash, tx.sig)
    ensures AllCarried(c, d, k)
  {
    TxTouches(c, d, tx);
    forall q ensures Carried(c, d, k, q) {
      if q == tx.request {
        hide NonZero, Able;
      } else {
        OthersCarried(c, d, k, tx.request, q);
      }
    }
  }

  // ---- one request --------------------------------------------------------------------------------

  function Share(k: Keys, i: nat, hash: Bytes): Bytes
    requires KeysOk(k) && i < 2
  {
    k.participation(k.ops[i], hash)
  }

  /** Quorum operator `i` has its receipt, or the chain refuses it. */
  function Receive(c: Chain, k: Keys, request: nat, hash: Bytes, i: nat): Option<Chain>
    requires KeysOk(k) && i < 2
  {
    if (request, k.ops[i]) in c.receipts then Some(c)
    else Execute(c, Submit(request, k.ops[i], Share(k, i, hash)))
  }

  /** A transaction that is refused changes nothing. */
  function Try(c: Chain, r: Option<Chain>): Chain {
    match r case None => c case Some(d) => d
  }

  /** What a fulfilment with the given signature makes of the chain when no call fails and nobody interferes. */
  function Fulfilled(c: Chain, k: Keys, request: nat, hash: Bytes, signature: Option<Bytes>): Chain
    requires KeysOk(k)
  {
    match signature
    case None => c
    case Some(sig) =>
      match Receive(c, k, request, hash, 0)
      case None => c
      case Some(d) =>
        match Receive(d, k, request, hash, 1)
        case None => d
        case Some(e) => Try(e, Execute(e, Record(request, sig)))
  }

  /** The same after the first `i` operators' turns. */
  function Partway(c: Chain, k: Keys, request: nat, hash: Bytes, i: nat): Option<Chain>
    requires KeysOk(k) && i <= 2
  {
    if i == 0 then Some(c)
    else match Partway(c, k, request, hash, i - 1)
         case None => None
         case Some(d) => Receive(d, k, request, hash, i - 1)
  }

  lemma NoSignature(c: Chain, k: Keys, request: nat, hash: Bytes)
    requires KeysOk(k)
    ensures Fulfilled(c, k, request, hash, None) == c
  {}

  lemma NothingCarries(k: Keys, c: Chain, turns: seq<Turn>)
    requires KeysOk(k)
    ensures Carries(turns, turns, c, c, k)
  {
    NowIsLater(c);
    AgeKeeps(c, c, k);
    hide Later, AllCarried;
  }

  lemma PartwayEnds(c: Chain, k: Keys, request: nat, hash: Bytes, sig: Bytes, i: nat, d: Chain)
    requires KeysOk(k) && i <= 2 && Partway(c, k, request, hash, i) == Some(d)
    ensures i < 2 ==> Partway(c, k, request, hash, i + 1) == Receive(d, k, request, hash, i)
    ensures i < 2 && Receive(d, k, request, hash, i) == None ==> Fulfilled(c, k, request, hash, Some(sig)) == d
    ensures i == 2 ==> Fulfilled(c, k, request, hash, Some(sig)) == Try(d, Execute(d, Record(request, sig)))
  {
    hide Receive, Execute;
    assert Partway(c, k, request, hash, 0) == Some(c);
  }

  lemma SubmitBacked(start: Chain, c: Chain, met: Chain, d: Chain, k: Keys, tx: Tx)
    requires KeysOk(k) && tx.Submit? && Aged(start, c) && Aged(c, met) && (d == met || Execute(met, tx) == Some(d))
    ensures Backed(start, k) ==> Backed(d, k)
  {
    hide Execute;
    if Backed(start, k) {
      BackedStays(met, d, k, tx);
    }
  }

  method EnsureReceipt(rpc: Rpc, k: Keys, request: nat, hash: Bytes, i: nat) returns (ok: bool)
    requires KeysOk(k) && i < 2
    modifies rpc
    ensures Safe(k, old(rpc.chain), old(rpc.sent), old(rpc.turns), rpc.chain, rpc.sent, rpc.turns)
    ensures (request, k.ops[0]) in old(rpc.chain.receipts) ==> (request, k.ops[0]) in rpc.chain.receipts
    ensures ok ==> (request, k.ops[i]) in rpc.chain.receipts
    ensures var tx := Submit(request, k.ops[i], k.participation(k.ops[i], hash));
            rpc.sent == old(rpc.sent) || exists met :: rpc.sent == old(rpc.sent) + [Sent(met, tx)]
    ensures Carries(old(rpc.turns), rpc.turns, old(rpc.chain), rpc.chain, k)
    ensures |rpc.turns| <= |old(rpc.turns)|
    ensures old(rpc.turns) == [] ==>
              var r := Receive(old(rpc.chain), k, request, hash, i);
              rpc.turns == [] && ok == r.Some? && rpc.chain == Try(old(rpc.chain), r)
  {
    hide Later, Orderly, Execute, Alone, Backed, Aged, Carried;
    var op := k.ops[i];
    var submitted := rpc.HasReceipt(request, op);
    KeepReceipts(old(rpc.chain), rpc.chain);
    if Alone(old(rpc.turns)) {
      AgeKeeps(old(rpc.chain), rpc.chain, k);
    }
    if submitted {
      if Alone(old(rpc.turns)) && Backed(old(rpc.chain), k) {
        BackedAges(old(rpc.chain), rpc.chain, k);
      }
      return true;
    }
    ghost var c, log := rpc.chain, rpc.sent;
    var tx := Submit(request, op, k.participation(op, hash));
    ghost var met;
    ok, met := rpc.Send(tx);
    LaterTransitive(old(rpc.chain), c, met);
    LaterTransitive(old(rpc.chain), met, rpc.chain);
    KeepReceipts(old(rpc.chain), rpc.chain);
    assert OwnShare(k, tx);
    LogSubmit(k, log, rpc.sent, tx, met);
    if Alone(old(rpc.turns)) {
      SubmitBacked(old(rpc.chain), c, met, rpc.chain, k, tx);
      SubmitKeeps(met, rpc.chain, k, tx);
      AgeKeeps(c, met, k);
      CarriedThen(old(rpc.chain), c, met, k);
      CarriedThen(old(rpc.chain), met, rpc.chain, k);
    }
  }

  /** Only receipts for the quorum's operators on this request were asked for, each with its own share. */
  ghost predicate Adds(k: Keys, log: seq<Sent>, log': seq<Sent>, request: nat, hash: Bytes)
    requires KeysOk(k)
  {
    && |log| <= |log'| && log'[..|log|] == log
    && forall n {:trigger log'[n]} :: |log| <= n < |log'| ==>
         var tx := log'[n].tx;
         tx == Submit(request, k.ops[0], k.participation(k.ops[0], hash))
         || tx == Submit(request, k.ops[1], k.participation(k.ops[1], hash))
  }

  lemma AddsThen(k: Keys, log: seq<Sent>, log': seq<Sent>, log'': seq<Sent>, request: nat, hash: Bytes, i: nat)
    requires KeysOk(k) && i < 2 && Adds(k, log, log', request, hash)
    requires var tx := Submit(request, k.ops[i], k.participation(k.ops[i], hash));
             log'' == log' || exists met :: log'' == log' + [Sent(met, tx)]
    ensures Adds(k, log, log'', request, hash)
  {
    assert log''[..|log|] == log'[..|log|];
  }

  /** The state of the loop over the quorum after the first `i` operators. */
  ghost predicate Underway(k: Keys, start: Chain, log: seq<Sent>, was: seq<Turn>, c: Chain, log': seq<Sent>,
                           turns: seq<Turn>, request: nat, hash: Bytes, i: nat)
    requires KeysOk(k) && i <= 2
  {
    && Safe(k, start, log, was, c, log', turns) && Carries(was, turns, start, c, k) && |turns| <= |was|
    && Adds(k, log, log', request, hash)
    && (i > 0 ==> (request, k.ops[0]) in c.receipts) && (i > 1 ==> (request, k.ops[1]) in c.receipts)
    && (was == [] ==> turns == [] && Partway(start, k, request, hash, i) == Some(c))
  }

  lemma UnderwayStarts(k: Keys, c: Chain, log: seq<Sent>, turns: seq<Turn>, request: nat, hash: Bytes)
    requires KeysOk(k)
    ensures Underway(k, c, log, turns, c, log, turns, request, hash, 0)
  {
    NothingIsSafe(k, c, log, turns);
    NothingCarries(k, c, turns);
    assert log[..|log|] == log;
    hide Safe, Carries;
  }

  /** One operator's turn, from what `EnsureReceipt` promises. */
  lemma UnderwayNext(k: Keys, start: Chain, log: seq<Sent>, was: seq<Turn>, c: Chain, log': seq<Sent>, turns: seq<Turn>,
                     d: Chain, log'': seq<Sent>, rest: seq<Turn>, request: nat, hash: Bytes, sig: Bytes,
                     i: nat, ok: bool)
    requires KeysOk(k) && i < 2
    requires Underway(k, start, log, was, c, log', turns, request, hash, i)
    requires Safe(k, c, log', turns, d, log'', rest) && Carries(turns, rest, c, d, k) && |rest| <= |turns|
    requires (request, k.ops[0]) in c.receipts ==> (request, k.ops[0]) in d.receipts
    requires ok ==> (request, k.ops[i]) in d.receipts
    requires turns == [] ==> rest == [] && ok == Receive(c, k, request, hash, i).Some?
                             && d == Try(c, Receive(c, k, request, hash, i))
    requires var tx := Submit(request, k.ops[i], k.participation(k.ops[i], hash));
             log'' == log' || exists met :: log'' == log' + [Sent(met, tx)]
    ensures Adds(k, log, log'', request, hash)
    ensures ok ==> Underway(k, start, log, was, d, log'', rest, request, hash, i + 1)
    ensures !ok ==> Safe(k, start, log, was, d, log'', rest) && Carries(was, rest, start, d, k) && |rest| <= |was|
    ensures !ok && was == [] ==> rest == [] && d == Fulfilled(start, k, request, hash, Some(sig))
  {
    SafeThen(k, start, log, was, c, log', turns, d, log'', rest);
    CarriesThen(was, turns, rest, start, c, d, k);
    AddsThen(k, log, log', log'', request, hash, i);
    hide Adds;
    if was == [] {
      PartwayEnds(start, k, request, hash, sig, i, c);
    }
    hide Safe, Carries, Partway, Receive, Fulfilled;
  }

  /** The loop over the quorum; it stops at the first operator whose receipt cannot be ensured. */
  method EnsureReceipts(rpc: Rpc, k: Keys, request: nat, hash: Bytes, ghost sig: Bytes) returns (ok: bool)
    requires KeysOk(k)
    modifies rpc
    ensures Safe(k, old(rpc.chain), old(rpc.sent), old(rpc.turns), rpc.chain, rpc.sent, rpc.turns)
    ensures ok ==> BothIn(rpc.chain, k, request)
    ensures Adds(k, old(rpc.sent), rpc.sent, request, hash)
    ensures Carries(old(rpc.turns), rpc.turns, old(rpc.chain), rpc.chain, k)
    ensures |rpc.turns| <= |old(rpc.turns)|
    ensures old(rpc.turns) == [] ==>
              rpc.turns == []
              && if ok then Partway(old(rpc.chain), k, request, hash, 2) == Some(rpc.chain)
                 else rpc.chain == Fulfilled(old(rpc.chain), k, request, hash, Some(sig))
  {
    ghost var start, log, was := rpc.chain, rpc.sent, rpc.turns;
    UnderwayStarts(k, start, log, was, request, hash);
    hide Safe, Receive, Fulfilled, Carries, Partway, Try, Adds;
    var i := 0;
    while i < |QUORUM|
      invariant 0 <= i <= 2
      invariant Underway(k, start, log, was, rpc.chain, rpc.sent, rpc.turns, request, hash, i)
    {
      ghost var c, log', turns := rpc.chain, rpc.sent, rpc.turns;
      ok := EnsureReceipt(rpc, k, request, hash, QUORUM[i] - 1);
      UnderwayNext(k, start, log, was, c, log', turns, rpc.chain, rpc.sent, rpc.turns, request, hash, sig, i, ok);
      if !ok {
        return;
      }
      i := i + 1;
    }
    ok := true;
  }

  /** The receipts a fulfilment adds hold each operator's own share, its weight and the current slot. */
  lemma NewReceipts(c: Chain, k: Keys, request: nat, hash: Bytes, sig: Option<Bytes>, i: nat)
    requires KeysOk(k) && i < 2
    requires (request, k.ops[i]) !in c.receipts && (request, k.ops[i]) in Fulfilled(c, k, request, hash, sig).receipts
    ensures k.ops[i] in c.operators
    ensures Fulfilled(c, k, request, hash, sig).receipts[(request, k.ops[i])]
         == Receipt(k.participation(k.ops[i], hash), c.slot, c.operators[k.ops[i]].stakeWeight)
  {
    hide NonZero, ShareOk;
    ReceivedOne(c, k, request, hash, 0);
    var d := Receive(c, k, request, hash, 0);
    if d.Some? {
      ReceivedOne(d.value, k, request, hash, 1);
    }
    hide Receive;
  }

  /** The same of whatever chain a fulfilment without failures left. */
  ghost predicate OwnReceipts(c: Chain, d: Chain, k: Keys, request: nat, hash: Bytes)
    requires KeysOk(k)
  {
    forall i :: 0 <= i < 2 && (request, k.ops[i]) !in c.receipts && (request, k.ops[i]) in d.receipts ==>
      k.ops[i] in c.operators
      && d.receipts[(request, k.ops[i])] ==
         Receipt(k.participation(k.ops[i], hash), c.slot, c.operators[k.ops[i]].stakeWeight)
  }

  lemma FulfilledReceipts(c: Chain, k: Keys, request: nat, hash: Bytes, sig: Option<Bytes>)
    requires KeysOk(k)
    ensures OwnReceipts(c, Fulfilled(c, k, request, hash, sig), k, request, hash)
  {
    hide Fulfilled;
    forall i | 0 <= i < 2 && (request, k.ops[i]) !in c.receipts
               && (request, k.ops[i]) in Fulfilled(c, k, request, hash, sig).receipts
      ensures k.ops[i] in c.operators
      ensures Fulfilled(c, k, request, hash, sig).receipts[(request, k.ops[i])] ==
              Receipt(k.participation(k.ops[i], hash), c.slot, c.operators[k.ops[i]].stakeWeight)
    {
      NewReceipts(c, k, request, hash, sig, i);
    }
  }

  lemma ReceivedOne(c: Chain, k: Keys, request: nat, hash: Bytes, i: nat)
    requires KeysOk(k) && i < 2
    ensures var d := Receive(c, k, request, hash, i);
            d.Some? ==>
              && d.value.slot == c.slot && d.value.operators == c.operators
              && (if (request, k.ops[i]) in c.receipts then d.value.receipts == c.receipts
                  else k.ops[i] in c.operators
                       && d.value.receipts ==
                          c.receipts[(request, k.ops[i]) :=
                            Receipt(k.participation(k.ops[i], hash), c.slot, c.operators[k.ops[i]].stakeWeight)])
  {
    hide NonZero, ShareOk;
  }

  /** Recording the signature of the request as it was read keeps everything else possible. */
  lemma RecordCarries(was: seq<Turn>, turns: seq<Turn>, rest: seq<Turn>, start: Chain, c: Chain, met: Chain, d: Chain,
                      k: Keys, request: nat, hash: Bytes, tx: Tx)
    requires KeysOk(k) && AsRead(start, request, hash)
    requires tx.Record? && tx.request == request && SignedFor(k, hash, tx.sig)
    requires Carries(was, turns, start, c, k) && (Alone(turns) ==> Alone(rest) && Aged(c, met))
    requires Later(c, met) && Later(met, d) && (d == met || Execute(met, tx) == Some(d))
    ensures Carries(was, rest, start, d, k)
  {
    hide Alone, Later, Execute;
    if Alone(was) {
      AgeKeeps(c, met, k);
      assert Carried(start, c, k, request) && Carried(c, met, k, request);
      hide Carried;
      RecordKeeps(met, d, k, tx, hash);
      CarriedThen(start, c, met, k);
      CarriedThen(start, met, d, k);
      LaterTransitive(start, c, met);
      LaterTransitive(start, met, d);
    }
  }

  /** The request as the daemon read it. */
  predicate AsRead(c: Chain, request: nat, hash: Bytes) {
    request in c.requests && c.requests[request].messageHash == hash
  }

  /** One attempt, by the specification of its parts. */
  method Attempt(rpc: Rpc, rng: OsRng, k: Keys, request: nat, hash: Bytes) returns (r: Outcome, ghost nonces: nat)
    requires KeysOk(k)
    modifies rpc, rng
    ensures nonces == old(rng.drawn) && rng.drawn == old(rng.drawn) + 1
    ensures Safe(k, old(rpc.chain), old(rpc.sent), old(rpc.turns), rpc.chain, rpc.sent, rpc.turns)
    ensures r == Done ==> BothIn(rpc.chain, k, request) && Finished(rpc.chain, k, request, hash)
    ensures r == Done ==> k.thresholdSign(nonces, hash) == Some(rpc.chain.requests[request].sig)
    ensures AsRead(old(rpc.chain), request, hash) ==>
              Carries(old(rpc.turns), rpc.turns, old(rpc.chain), rpc.chain, k)
    ensures |rpc.turns| <= |old(rpc.turns)|
    ensures old(rpc.turns) == [] ==>
              rpc.turns == []
              && rpc.chain == Fulfilled(old(rpc.chain), k, request, hash, k.thresholdSign(nonces, hash))
    ensures old(rpc.turns) == [] ==> OwnReceipts(old(rpc.chain), rpc.chain, k, request, hash)
    ensures Adds(k, old(rpc.sent), rpc.sent, request, hash)
            || exists log, met, sig {:trigger log + [Sent(met, Record(request, sig))]} ::
                 Adds(k, old(rpc.sent), log, request, hash) && rpc.sent == log + [Sent(met, Record(request, sig))]
                 && BothIn(met, k, request) && Some(sig) == k.thresholdSign(nonces, hash)
  {
    NothingIsSafe(k, rpc.chain, rpc.sent, rpc.turns);
    NoSignature(rpc.chain, k, request, hash);
    hide Safe, Later, Orderly, Execute, Receive, Fulfilled, Partway, Carries;
    var drawn := rng.Draw();
    nonces := drawn;
    FulfilledReceipts(rpc.chain, k, request, hash, k.thresholdSign(drawn, hash));
    hide OwnReceipts, Adds;
    var sig := k.thresholdSign(drawn, hash);
    NothingAdded(k, rpc.sent, request, hash);
    if sig.None? {
      return SignFailed, nonces;
    }
    var ok := EnsureReceipts(rpc, k, request, hash, sig.value);
    if !ok {
      return Panicked, nonces;
    }
    var tx := Record(request, sig.value);
    ghost var c, log, turns := rpc.chain, rpc.sent, rpc.turns;
    if old(rpc.turns) == [] {
      PartwayEnds(old(rpc.chain), k, request, hash, sig.value, 2, c);
    }
    ghost var met;
    assert SignedFor(k, hash, tx.sig);
    ok, met := rpc.Send(tx);
    KeepReceipts(c, met);
    SendIsSafe(k, c, log, turns, met, rpc.chain, rpc.sent, rpc.turns, tx);
    SafeThen(k, old(rpc.chain), old(rpc.sent), old(rpc.turns), c, log, turns, rpc.chain, rpc.sent, rpc.turns);
    SafeKeepsReceipts(k, c, log, turns, rpc.chain, rpc.sent, rpc.turns, request);
    if AsRead(old(rpc.chain), request, hash) {
      RecordCarries(old(rpc.turns), turns, rpc.turns, old(rpc.chain), c, met, rpc.chain, k, request, hash, tx);
    }
    return if ok then Done else Panicked, nonces;
  }

  /** Signs with nonces drawn for this attempt, sees to both receipts, and records the signature. */
  method Fulfill(rpc: Rpc, rng: OsRng, k: Keys, request: nat, hash: Bytes) returns (r: Outcome, ghost nonces: nat)
    requires KeysOk(k)
    modifies rpc, rng
    ensures nonces == old(rng.drawn) && rng.drawn == old(rng.drawn) + 1
    ensures Safe(k, old(rpc.chain), old(rpc.sent), old(rpc.turns), rpc.chain, rpc.sent, rpc.turns)
    ensures r == Done ==>
              && (request, k.ops[0]) in rpc.chain.receipts && (request, k.ops[1]) in rpc.chain.receipts
              && request in rpc.chain.requests && rpc.chain.requests[request].status.Aggregated?
              && k.thresholdSign(nonces, hash) == Some(rpc.chain.requests[request].sig)
    ensures AsRead(old(rpc.chain), request, hash) ==>
              Carries(old(rpc.turns), rpc.turns, old(rpc.chain), rpc.chain, k)
    ensures |rpc.turns| <= |old(rpc.turns)|
    ensures old(rpc.turns) == [] ==>
              rpc.turns == []
              && rpc.chain == Fulfilled(old(rpc.chain), k, request, hash, k.thresholdSign(nonces, hash))
    ensures old(rpc.turns) == [] ==> forall i ::
              0 <= i < 2 && (request, k.ops[i]) !in old(rpc.chain).receipts && (request, k.ops[i]) in rpc.chain.receipts ==>
                k.ops[i] in old(rpc.chain).operators
                && rpc.chain.receipts[(request, k.ops[i])] ==
                   Receipt(k.participation(k.ops[i], hash), old(rpc.chain).slot,
                           old(rpc.chain).operators[k.ops[i]].stakeWeight)
    ensures |old(rpc.sent)| <= |rpc.sent| && rpc.sent[..|old(rpc.sent)|] == old(rpc.sent)
    ensures forall n {:trigger rpc.sent[n]} :: |old(rpc.sent)| <= n < |rpc.sent| ==>
              var tx := rpc.sent[n].tx;
              tx == Submit(request, k.ops[0], k.participation(k.ops[0], hash))
              || tx == Submit(request, k.ops[1], k.participation(k.ops[1], hash))
              || (tx.Record? && tx.request == request && Some(tx.sig) == k.thresholdSign(nonces, hash)
                  && (request, k.ops[0]) in rpc.sent[n].met.receipts && (request, k.ops[1]) in rpc.sent[n].met.receipts)
  {
    ghost var c, log, was := rpc.chain, rpc.sent, rpc.turns;
    hide Safe, Carries, Fulfilled, Adds, SignedFor;
    r, nonces := Attempt(rpc, rng, k, request, hash);
    if Adds(k, log, rpc.sent, request, hash) {
      AddedOnly(k, log, rpc.sent, request, hash);
    } else {
      ghost var log', met, sig :|
        Adds(k, log, log', request, hash) && rpc.sent == log' + [Sent(met, Record(request, sig))]
        && BothIn(met, k, request) && Some(sig) == k.thresholdSign(nonces, hash);
      AddedOnly(k, log, log', request, hash);
      assert rpc.sent[..|log|] == log'[..|log|];
    }
  }

  lemma NothingAdded(k: Keys, log: seq<Sent>, request: nat, hash: Bytes)
    requires KeysOk(k)
    ensures Adds(k, log, log, request, hash)
  {
    assert log[..|log|] == log;
  }

  lemma AddedOnly(k: Keys, log: seq<Sent>, log': seq<Sent>, request: nat, hash: Bytes)
    requires KeysOk(k) && Adds(k, log, log', request, hash)
    ensures |log| <= |log'| && log'[..|log|] == log
    ensures forall n {:trigger log'[n]} :: |log| <= n < |log'| ==>
              var tx := log'[n].tx;
              tx == Submit(request, k.ops[0], k.participation(k.ops[0], hash))
              || tx == Submit(request, k.ops[1], k.participation(k.ops[1], hash))
  {}

  lemma KeepReceipts(c: Chain, d: Chain)
    requires Later(c, d)
    ensures forall key :: key in c.receipts ==> key in d.receipts
  {}

  lemma LogSubmit(k: Keys, log: seq<Sent>, log': seq<Sent>, tx: Tx, met: Chain)
    requires KeysOk(k) && tx.Submit? && OwnShare(k, tx) && (log' == log || log' == log + [Sent(met, tx)])
    ensures Orderly(k, log) ==> Orderly(k, log')
  {}

  lemma LogRecord(k: Keys, c: Chain, log: seq<Sent>, log': seq<Sent>, tx: Tx, met: Chain)
    requires KeysOk(k) && tx.Record? && BothIn(c, k, tx.request) && Later(c, met)
    requires log' == log || log' == log + [Sent(met, tx)]
    ensures Orderly(k, log) ==> Orderly(k, log')
  {
    KeepReceipts(c, met);
  }

  /** Sending the signature with both receipts in place. */
  lemma SendIsSafe(k: Keys, c: Chain, log: seq<Sent>, was: seq<Turn>, met: Chain, d: Chain, log': seq<Sent>,
                   turns: seq<Turn>, tx: Tx)
    requires KeysOk(k) && tx.Record? && BothIn(c, k, tx.request)
    requires Later(c, met) && Later(met, d) && (d == met || Execute(met, tx) == Some(d))
    requires log' == log || log' == log + [Sent(met, tx)]
    requires Alone(was) ==> Alone(turns) && Aged(c, met)
    ensures Safe(k, c, log, was, d, log', turns)
  {
    LaterTransitive(c, met, d);
    LogRecord(k, c, log, log', tx, met);
    KeepReceipts(c, met);
    if Alone(was) && Backed(c, k) {
      BackedAges(c, met, k);
      BackedStays(met, d, k, tx);
    }
    hide Later, Orderly, Alone, Backed, Execute, Aged;
  }

  lemma SafeKeepsReceipts(k: Keys, c: Chain, log: seq<Sent>, was: seq<Turn>, d: Chain, log': seq<Sent>,
                          turns: seq<Turn>, request: nat)
    requires KeysOk(k) && Safe(k, c, log, was, d, log', turns) && BothIn(c, k, request)
    ensures BothIn(d, k, request)
  {
    KeepReceipts(c, d);
    hide Later, Orderly, KeptBacked;
  }

  lemma BackedAges(c: Chain, d: Chain, k: Keys)
    requires KeysOk(k) && Aged(c, d) && Backed(c, k)
    ensures Backed(d, k)
  {}

  /**
   * Without failures, one fulfilment finishes a pending request exactly when it is ready and the
   * attempt at signing works, wherever an earlier attempt stopped.
   */
  lemma FinishesIff(c: Chain, k: Keys, request: nat, nonces: nat)
    requires KeysOk(k) && request in c.requests && c.requests[request].status.Pending?
    ensures var hash := c.requests[request].messageHash;
            Finished(Fulfilled(c, k, request, hash, k.thresholdSign(nonces, hash)), k, request, hash)
            <==> Ready(c, k, request) && Good(k.thresholdSign(nonces, hash))
  {
    var hash := c.requests[request].messageHash;
    hide NonZero, ShareOk, SignedFor;
    AttemptSigns(k, nonces, hash);
    OneReceipt(c, k, request, 0);
    var d := Receive(c, k, request, hash, 0);
    if d.Some? {
      OneReceipt(d.value, k, request, 1);
    }
  }

  lemma AttemptSigns(k: Keys, nonces: nat, hash: Bytes)
    ensures k.thresholdSign(nonces, hash).Some? ==> SignedFor(k, hash, k.thresholdSign(nonces, hash).value)
  {}

  /** One operator's turn, by what it changes. */
  lemma OneReceipt(c: Chain, k: Keys, request: nat, i: nat)
    requires KeysOk(k) && i < 2 && request in c.requests && c.requests[request].status.Pending?
    ensures var r := c.requests[request];
            var d := Receive(c, k, request, r.messageHash, i);
            var partials, weight := r.partials + Missing(c, k, request, i), r.weight + MissingWeight(c, k, request, i);
            && (d.Some? <==> Able(c, k, request, i) && (Missing(c, k, request, i) == 1 ==>
                  !c.paused && c.slot <= r.expiry && partials <= 0xffff && weight < 0x1_0000_0000_0000_0000))
            && (d.Some? ==>
                  && d.value.requests == c.requests[request := r.(partials := partials, weight := weight)]
                  && d.value.slot == c.slot && d.value.paused == c.paused && d.value.operators == c.operators
                  && d.value.receipts.Keys == c.receipts.Keys + {(request, k.ops[i])})
  {
    hide NonZero, ShareOk;
  }

  // ---- the poll loop ---------------------------------------------------------------------------------

  lemma TouchThen(c: Chain, d: Chain, e: Chain, request: nat)
    requires OnlyTouches(c, d, request) && OnlyTouches(d, e, request)
    ensures OnlyTouches(c, e, request)
  {
    forall q | q != request ensures SameAt(c, e, q) {
      assert SameAt(c, d, q) && SameAt(d, e, q);
    }
  }

  lemma FulfilledTouches(c: Chain, k: Keys, request: nat, hash: Bytes, sig: Option<Bytes>)
    requires KeysOk(k)
    ensures OnlyTouches(c, Fulfilled(c, k, request, hash, sig), request)
  {
    TxTouches(c, c, Record(request, []));
    hide Execute, OnlyTouches, SameAt;
    var r := Receive(c, k, request, hash, 0);
    if sig.Some? && r.Some? {
      var d := r.value;
      TxTouches(c, d, Submit(request, k.ops[0], Share(k, 0, hash)));
      var s := Receive(d, k, request, hash, 1);
      if s.Some? {
        var e := s.value;
        var tx := Record(request, sig.value);
        TxTouches(d, e, Submit(request, k.ops[1], Share(k, 1, hash)));
        TxTouches(e, Try(e, Execute(e, tx)), tx);
        TouchThen(c, d, e, request);
        TouchThen(c, e, Try(e, Execute(e, tx)), request);
      }
    }
  }

  /**
   * What a poll without failures does about one request it found; `draws` holds the nonces of the
   * attempts it made.
   */
  ghost predicate Handled(c: Chain, d: Chain, k: Keys, draws: map<nat, nat>, q: nat)
    requires KeysOk(k)
  {
    q in c.requests && q in d.requests
    && var r := c.requests[q];
       if r.status.Pending? && r.scheme == 0 then
         && (Ready(c, k, q) ==> q in draws)
         && (Finished(d, k, q, r.messageHash) <==>
               Ready(c, k, q) && Good(k.thresholdSign(draws[q], r.messageHash)))
       else d.requests[q] == r
  }

  lemma HandledStays(c: Chain, d: Chain, e: Chain, k: Keys, draws: map<nat, nat>, q: nat, request: nat, nonces: nat)
    requires KeysOk(k) && Handled(c, d, k, draws, q) && OnlyTouches(d, e, request) && q != request
    ensures Handled(c, e, k, draws[request := nonces], q)
  {
    assert SameAt(d, e, q);
    hide Ready;
  }

  lemma HandledNow(c: Chain, d: Chain, k: Keys, draws: map<nat, nat>, q: nat, nonces: nat)
    requires KeysOk(k) && SameAt(c, d, q) && q in c.requests && c.requests[q].status.Pending? && c.requests[q].scheme == 0
    requires d.slot == c.slot && d.paused == c.paused && d.operators == c.operators
    ensures var hash := c.requests[q].messageHash;
            Handled(c, Fulfilled(d, k, q, hash, k.thresholdSign(nonces, hash)), k, draws[q := nonces], q)
  {
    var hash := c.requests[q].messageHash;
    ReadySame(c, d, k, q);
    FulfilledTouches(d, k, q, hash, k.thresholdSign(nonces, hash));
    hide Ready, Fulfilled, Good, Finished;
    FinishesIff(d, k, q, nonces);
  }

  lemma SkippedIsHandled(c: Chain, d: Chain, k: Keys, draws: map<nat, nat>, q: nat)
    requires KeysOk(k) && SameAt(c, d, q) && q in c.requests
    requires !c.requests[q].status.Pending? || c.slot > c.requests[q].expiry || c.requests[q].scheme != 0
    ensures Handled(c, d, k, draws, q)
  {
    hide NonZero, Able;
  }

  /** The state of a poll without failures, with `todo` still to be looked at. */
  ghost predicate Polling(c: Chain, d: Chain, k: Keys, draws: map<nat, nat>, todo: set<nat>)
    requires KeysOk(k)
  {
    && d.slot == c.slot && d.paused == c.paused && d.operators == c.operators && d.requests.Keys == c.requests.Keys
    && todo <= c.requests.Keys
    && (forall q <- todo :: SameAt(c, d, q))
    && (forall q {:trigger Handled(c, d, k, draws, q)} ::
          q in c.requests && q !in todo ==> Handled(c, d, k, draws, q))
  }

  lemma PollFulfils(c: Chain, d: Chain, k: Keys, draws: map<nat, nat>, todo: set<nat>, q: nat, nonces: nat, e: Chain)
    requires KeysOk(k) && Polling(c, d, k, draws, todo) && q in todo
    requires c.requests[q].status.Pending? && c.requests[q].scheme == 0
    requires var hash := c.requests[q].messageHash; e == Fulfilled(d, k, q, hash, k.thresholdSign(nonces, hash))
    ensures Polling(c, e, k, draws[q := nonces], todo - {q})
  {
    var hash := c.requests[q].messageHash;
    HandledNow(c, d, k, draws, q, nonces);
    FulfilledTouches(d, k, q, hash, k.thresholdSign(nonces, hash));
    hide Handled, Fulfilled;
    forall p | p in c.requests && p !in todo - {q} ensures Handled(c, e, k, draws[q := nonces], p) {
      if p != q {
        HandledStays(c, d, e, k, draws, p, q, nonces);
      }
    }
    forall p | p in todo - {q} ensures SameAt(c, e, p) {
      assert SameAt(c, d, p) && SameAt(d, e, p);
    }
  }

  lemma PollSkips(c: Chain, d: Chain, k: Keys, draws: map<nat, nat>, todo: set<nat>, q: nat)
    requires KeysOk(k) && Polling(c, d, k, draws, todo) && q in todo
    requires !c.requests[q].status.Pending? || c.slot > c.requests[q].expiry || c.requests[q].scheme != 0
    ensures Polling(c, d, k, draws, todo - {q})
  {
    SkippedIsHandled(c, d, k, draws, q);
    hide Handled;
  }

  /** The pending requests, or nothing when the call fails. */
  method ProgramAccounts(rpc: Rpc) returns (accounts: map<nat, Request>)
    modifies rpc`chain, rpc`turns
    ensures Later(old(rpc.chain), rpc.chain)
    ensures old(rpc.turns) == [] ==>
              rpc.turns == [] && rpc.chain == old(rpc.chain) && accounts == rpc.chain.requests
    ensures accounts == map[] || accounts == rpc.chain.requests
    ensures rpc.turns == [] || |rpc.turns| < |old(rpc.turns)|
    ensures Alone(old(rpc.turns)) ==> Alone(rpc.turns) && Aged(old(rpc.chain), rpc.chain)
  {
    hide Later, Alone, Aged;
    var fate := rpc.Next();
    return if fate.Works? then rpc.chain.requests else map[];
  }

  /** The slot, or 0 when the call fails. */
  method GetSlot(rpc: Rpc) returns (slot: nat)
    modifies rpc`chain, rpc`turns
    ensures Later(old(rpc.chain), rpc.chain)
    ensures old(rpc.turns) == [] ==> rpc.turns == [] && rpc.chain == old(rpc.chain) && slot == rpc.chain.slot
    ensures |rpc.turns| <= |old(rpc.turns)|
    ensures Alone(old(rpc.turns)) ==> Alone(rpc.turns) && Aged(old(rpc.chain), rpc.chain)
  {
    hide Later, Alone, Aged;
    var fate := rpc.Next();
    return if fate.Works? then rpc.chain.slot else 0;
  }

  /**
   * One pass. Each request is isolated: what comes of one is not looked at. Without failures exactly
   * the FROST requests that were ready and whose attempt at signing worked are finished, however the
   * others end. A pass with a failure uses up at least one turn, and takes no request's readiness away.
   */
  method Poll(rpc: Rpc, rng: OsRng, k: Keys) returns (ghost draws: map<nat, nat>)
    requires KeysOk(k)
    modifies rpc, rng
    ensures Safe(k, old(rpc.chain), old(rpc.sent), old(rpc.turns), rpc.chain, rpc.sent, rpc.turns)
    ensures Carries(old(rpc.turns), rpc.turns, old(rpc.chain), rpc.chain, k)
    ensures rpc.turns == [] || |rpc.turns| < |old(rpc.turns)|
    ensures old(rpc.turns) == [] ==>
              forall q <- old(rpc.chain).requests :: Handled(old(rpc.chain), rpc.chain, k, draws, q)
    ensures old(rpc.turns) == [] ==> forall q <- old(rpc.chain).requests ::
              q in rpc.chain.requests
              && var r, s := old(rpc.chain).requests[q], rpc.chain.requests[q];
                 if r.status == Pending && r.scheme == 0 then
                   Ready(old(rpc.chain), k, q) && (q in draws && Good(k.thresholdSign(draws[q], r.messageHash))) <==>
                   s.status == Aggregated && exists nonces :: k.thresholdSign(nonces, r.messageHash) == Some(s.sig)
                 else s == r
  {
    ghost var start, log, was := rpc.chain, rpc.sent, rpc.turns;
    hide Later, Orderly, Fulfilled, Handled, SameAt, Alone, Backed, Aged, Carried, AllCarried, Finished;
    draws := map[];
    var accounts := ProgramAccounts(rpc);
    ghost var c, turns := rpc.chain, rpc.turns;
    AgeSafe(k, start, log, was, c, turns);
    var slot := GetSlot(rpc);
    AgeSafe(k, c, log, turns, rpc.chain, rpc.turns);
    SafeThen(k, start, log, was, c, log, turns, rpc.chain, log, rpc.turns);
    hide Safe, Carries;
    var todo := accounts.Keys;
    NothingPolled(start, k);
    while todo != {}
      invariant todo <= accounts.Keys && Safe(k, start, log, was, rpc.chain, rpc.sent, rpc.turns)
      invariant Carries(turns, rpc.turns, c, rpc.chain, k) && |rpc.turns| <= |turns|
      invariant was == [] ==> rpc.turns == [] && Polling(start, rpc.chain, k, draws, todo)
      decreases |todo|
    {
      var pda :| pda in todo;
      var r := accounts[pda];
      ghost var d, log', turns' := rpc.chain, rpc.sent, rpc.turns;
      if !r.status.Pending? || slot > r.expiry || r.scheme != 0 {
        if was == [] {
          PollSkips(start, d, k, draws, todo, pda);
        }
      } else {
        ghost var nonces: nat;
        var outcome;
        outcome, nonces := Fulfill(rpc, rng, k, pda, r.messageHash);
        if was == [] {
          PollFulfils(start, d, k, draws, todo, pda, nonces, rpc.chain);
        }
        draws := draws[pda := nonces];
        SafeThen(k, start, log, was, d, log', turns', rpc.chain, rpc.sent, rpc.turns);
        CarriesOnto(turns, turns', rpc.turns, c, d, rpc.chain, k, pda);
      }
      todo := todo - {pda};
    }
    CarriesThen(was, turns, rpc.turns, start, c, rpc.chain, k);
    if was == [] {
      AllHandled(start, rpc.chain, k, draws);
    }
  }

  lemma AllHandled(c: Chain, d: Chain, k: Keys, draws: map<nat, nat>)
    requires KeysOk(k) && forall q <- c.requests :: Handled(c, d, k, draws, q)
    ensures forall q <- c.requests ::
              q in d.requests
              && var r, s := c.requests[q], d.requests[q];
                 if r.status == Pending && r.scheme == 0 then
                   Ready(c, k, q) && (q in draws && Good(k.thresholdSign(draws[q], r.messageHash))) <==>
                   s.status == Aggregated && exists nonces :: k.thresholdSign(nonces, r.messageHash) == Some(s.sig)
                 else s == r
  {
    hide Ready, Good;
    forall q | q in c.requests
      ensures q in d.requests
      ensures var r, s := c.requests[q], d.requests[q];
              if r.status == Pending && r.scheme == 0 then
                Ready(c, k, q) && (q in draws && Good(k.thresholdSign(draws[q], r.messageHash))) <==>
                s.status == Aggregated && exists nonces :: k.thresholdSign(nonces, r.messageHash) == Some(s.sig)
              else s == r
    {
      assert Handled(c, d, k, draws, q);
    }
  }

  /** A call that changes nothing but the time. */
  lemma AgeSafe(k: Keys, c: Chain, log: seq<Sent>, was: seq<Turn>, d: Chain, turns: seq<Turn>)
    requires KeysOk(k) && Later(c, d) && (Alone(was) ==> Alone(turns) && Aged(c, d))
    ensures Safe(k, c, log, was, d, log, turns) && Carries(was, turns, c, d, k)
  {
    hide Later, Alone, Orderly;
    if Alone(was) {
      AgeKeeps(c, d, k);
      if Backed(c, k) {
        BackedAges(c, d, k);
      }
    }
  }

  /** The request is still as it was read. */
  lemma CarriesOnto(was: seq<Turn>, turns: seq<Turn>, rest: seq<Turn>, c: Chain, d: Chain, e: Chain, k: Keys, q: nat)
    requires KeysOk(k) && q in c.requests && Carries(was, turns, c, d, k)
    requires AsRead(d, q, c.requests[q].messageHash) ==> Carries(turns, rest, d, e, k)
    ensures Carries(was, rest, c, e, k)
  {
    if Alone(was) {
      assert Carried(c, d, k, q);
      hide Later, Alone, AllCarried, Carried;
      CarriesThen(was, turns, rest, c, d, e, k);
    }
  }

  lemma NothingPolled(c: Chain, k: Keys)
    requires KeysOk(k)
    ensures Polling(c, c, k, map[], c.requests.Keys)
  {}

  /** Every FROST request that was ready has been finished or has expired, unless signing it can fail. */
  ghost predicate Served(c: Chain, d: Chain, k: Keys)
    requires KeysOk(k)
  {
    forall q {:trigger Ready(c, k, q)} ::
      q in c.requests && c.requests[q].scheme == 0 && Ready(c, k, q) && AlwaysSigns(k, c.requests[q].messageHash) ==>
      d.slot > c.requests[q].expiry || Finished(d, k, q, c.requests[q].messageHash)
  }

  /**
   * The daemon's loop. With nobody else sending, more passes than there are failures finish every FROST
   * request that was ready at the start and does not expire meanwhile, and change no blocked one.
   */
  method Run(rpc: Rpc, rng: OsRng, k: Keys, polls: nat)
    requires KeysOk(k)
    modifies rpc, rng
    ensures Safe(k, old(rpc.chain), old(rpc.sent), old(rpc.turns), rpc.chain, rpc.sent, rpc.turns)
    ensures Carries(old(rpc.turns), rpc.turns, old(rpc.chain), rpc.chain, k)
    ensures Alone(old(rpc.turns)) && polls > |old(rpc.turns)| ==> forall q {:trigger Ready(old(rpc.chain), k, q)} ::
              q in old(rpc.chain).requests && old(rpc.chain).requests[q].scheme == 0 && Ready(old(rpc.chain), k, q)
              && (forall nonces :: Good(k.thresholdSign(nonces, old(rpc.chain).requests[q].messageHash))) ==>
                rpc.chain.slot > old(rpc.chain).requests[q].expiry
                || (q in rpc.chain.requests && rpc.chain.requests[q].status.Aggregated?
                    && exists nonces :: k.thresholdSign(nonces, old(rpc.chain).requests[q].messageHash)
                                        == Some(rpc.chain.requests[q].sig))
  {
    ghost var start, log, was := rpc.chain, rpc.sent, rpc.turns;
    NothingIsSafe(k, start, log, was);
    NowIsLater(start);
    AgeKeeps(start, start, k);
    hide Safe, Later, Handled, Alone, AllCarried, Served, Finished;
    for n := 0 to polls
      invariant Safe(k, start, log, was, rpc.chain, rpc.sent, rpc.turns)
      invariant Carries(was, rpc.turns, start, rpc.chain, k)
      invariant rpc.turns == [] || |rpc.turns| + n <= |was|
      invariant Alone(was) && n > |was| ==> Served(start, rpc.chain, k)
    {
      ghost var c, log', turns := rpc.chain, rpc.sent, rpc.turns;
      ghost var draws := Poll(rpc, rng, k);
      SafeThen(k, start, log, was, c, log', turns, rpc.chain, rpc.sent, rpc.turns);
      if Alone(was) && n >= |was| {
        if n > |was| {
          StillServed(start, c, rpc.chain, k);
        } else {
          ServedNow(start, c, rpc.chain, k, draws);
        }
      }
      CarriesThen(was, turns, rpc.turns, start, c, rpc.chain, k);
    }
    if Alone(was) && polls > |was| {
      AllServed(start, rpc.chain, k);
    }
  }

  lemma AllServed(c: Chain, d: Chain, k: Keys)
    requires KeysOk(k) && Served(c, d, k)
    ensures forall q {:trigger Ready(c, k, q)} ::
              q in c.requests && c.requests[q].scheme == 0 && Ready(c, k, q)
              && (forall nonces :: Good(k.thresholdSign(nonces, c.requests[q].messageHash))) ==>
                d.slot > c.requests[q].expiry
                || (q in d.requests && d.requests[q].status.Aggregated?
                    && exists nonces :: k.thresholdSign(nonces, c.requests[q].messageHash) == Some(d.requests[q].sig))
  {
    hide Ready, Good;
  }

  lemma StillServed(start: Chain, c: Chain, d: Chain, k: Keys)
    requires KeysOk(k) && Later(c, d) && Served(start, c, k)
    ensures Served(start, d, k)
  {
    hide Ready, Sound;
  }

  /** A pass without failures serves whatever was carried to it. */
  lemma ServedNow(start: Chain, c: Chain, d: Chain, k: Keys, draws: map<nat, nat>)
    requires KeysOk(k) && AllCarried(start, c, k) && Later(c, d)
    requires forall q <- c.requests :: Handled(c, d, k, draws, q)
    ensures Served(start, d, k)
  {
    forall q | q in start.requests && start.requests[q].scheme == 0 && Ready(start, k, q)
               && AlwaysSigns(k, start.requests[q].messageHash)
      ensures d.slot > start.requests[q].expiry || Finished(d, k, q, start.requests[q].messageHash)
    {
      assert Carried(start, c, k, q) && Handled(c, d, k, draws, q);
      hide Blocked, Sound, NonZero, Able, Good;
    }
  }

  // ---- where resuming does not help --------------------------------------------------------------------

  /**
   * Receipts outlive a cancelled request. When its address is used again, the daemon takes them for
   * receipts of the new request, adds none of its own, and can finish it exactly when what others
   * have submitted meets the thresholds.
   */
  lemma StaleReceiptsIff(c: Chain, k: Keys, request: nat)
    requires KeysOk(k) && request in c.requests && BothIn(c, k, request)
    ensures var r := c.requests[request];
            Ready(c, k, request) <==>
              r.status.Pending? && !c.paused && c.slot <= r.expiry && !Blocked(c, k, request)
  {
    hide NonZero;
  }

  /** Both operators are in good standing and have not answered the request. */
  ghost predicate Willing(c: Chain, k: Keys, request: nat, hash: Bytes)
    requires KeysOk(k)
  {
    forall i :: 0 <= i < 2 ==>
      && k.ops[i] in c.operators && !c.operators[k.ops[i]].jailed && c.operators[k.ops[i]].unbondingAt == 0
      && c.operators[k.ops[i]].stakeWeight < 0x1_0000_0000
      && (request, k.ops[i]) !in c.receipts && ShareOk(0, Share(k, i, hash), hash)
  }

  lemma AnsweredTwice(c: Chain, k: Keys, request: nat, hash: Bytes, required: U64, expiry: nat)
    returns (c1: Chain, c2: Chain, c3: Chain)
    requires KeysOk(k) && !c.paused && request !in c.requests && c.slot <= expiry && NonZero(hash)
    requires Willing(c, k, request, hash)
    ensures Execute(c, Create(request, 0, hash, 2, required, expiry)) == Some(c1)
    ensures Execute(c1, Submit(request, k.ops[0], Share(k, 0, hash))) == Some(c2)
    ensures Execute(c2, Submit(request, k.ops[1], Share(k, 1, hash))) == Some(c3)
    ensures !c3.paused && request in c3.requests && c3.requests[request].status.Pending? && BothIn(c3, k, request)
  {
    hide NonZero, ShareOk, Share;
    c1 := Execute(c, Create(request, 0, hash, 2, required, expiry)).value;
    c2 := Execute(c1, Submit(request, k.ops[0], Share(k, 0, hash))).value;
    c3 := Execute(c2, Submit(request, k.ops[1], Share(k, 1, hash))).value;
  }

  lemma AskedAgain(c: Chain, k: Keys, request: nat, hash: Bytes, required: U64, expiry: nat) returns (d: Chain, e: Chain)
    requires KeysOk(k) && !c.paused && request in c.requests && c.requests[request].status.Pending? && NonZero(hash)
    requires BothIn(c, k, request)
    ensures Execute(c, Cancel(request)) == Some(d)
    ensures Execute(d, Create(request, 0, hash, 2, required, expiry)) == Some(e)
    ensures Blocked(e, k, request) && e.requests[request].partials == 0
  {
    hide NonZero;
    d := Execute(c, Cancel(request)).value;
    e := Execute(d, Create(request, 0, hash, 2, required, expiry)).value;
  }

  lemma AfterTwo(c: Chain, tx: Tx, d: Chain, tx': Tx, e: Chain, rest: seq<Tx>)
    requires Execute(c, tx) == Some(d) && Execute(d, tx') == Some(e)
    ensures After(c, [tx, tx'] + rest) == After(e, rest)
  {
    assert ([tx, tx'] + rest)[1..] == [tx'] + rest && ([tx'] + rest)[1..] == rest;
    hide Execute;
  }

  lemma AfterOne(c: Chain, tx: Tx, d: Chain)
    requires Execute(c, tx) == Some(d)
    ensures After(c, [tx]) == d
  {
    assert [tx][1..] == [];
    hide Execute;
  }

  /** And this can happen: asked for, answered twice, cancelled, asked for again. */
  lemma RecreatedIsStuck(c: Chain, k: Keys, request: nat, hash: Bytes, required: U64, expiry: nat)
    requires KeysOk(k) && !c.paused && request !in c.requests && c.slot <= expiry && NonZero(hash)
    requires Willing(c, k, request, hash)
    ensures var ask := Create(request, 0, hash, 2, required, expiry);
            var txs := [ask, Submit(request, k.ops[0], Share(k, 0, hash)), Submit(request, k.ops[1], Share(k, 1, hash)),
                        Cancel(request), ask];
            var d := After(c, txs);
            Blocked(d, k, request) && d.requests[request].partials == 0 && !Ready(d, k, request)
  {
    var ask := Create(request, 0, hash, 2, required, expiry);
    var s0, s1 := Submit(request, k.ops[0], Share(k, 0, hash)), Submit(request, k.ops[1], Share(k, 1, hash));
    var c1, c2, c3 := AnsweredTwice(c, k, request, hash, required, expiry);
    var c4, c5 := AskedAgain(c3, k, request, hash, required, expiry);
    hide Execute, Willing, Share, Ready, NonZero;
    AfterTwo(c, ask, c1, s0, c2, [s1, Cancel(request), ask]);
    AfterTwo(c2, s1, c3, Cancel(request), c4, [ask]);
    StaleReceiptsIff(c5, k, request);
    var a, b, d, e := ask, s0, s1, Cancel(request);
    assert [a, b] + [d, e, a] == [a, b, d, e, a] && [d, e] + [a] == [d, e, a];
    AfterOne(c4, ask, c5);
  }
}

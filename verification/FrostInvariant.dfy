/** What every step of every run keeps, for any number of operators and any interleaving. */
module FrostInvariant {
  import opened Bytes
  import opened Framing
  import opened Transport
  import opened FrostNet

  // ---- what a run of given operators exchanges ---------------------------------------------

  /** The identifiers whose packages operator `i` hands to FROST; a signer's own is among them. */
  ghost function Ids(cfg: Config, i: nat): set<nat> {
    set k | k in cfg.ops && (k != i || cfg.kind.Sign?) :: Num(k)
  }

  /** The first-round packages operator `i` hands to FROST, by identifier. */
  ghost function View1(cfg: Config, i: nat): map<nat, Bytes> {
    map id | id in Ids(cfg, i) :: cfg.open(Index(id))
  }

  /** What `i` answers, by recipient. */
  ghost function Out(cfg: Config, i: nat): map<nat, Bytes> {
    cfg.reply(i, View1(cfg, i))
  }

  /** The second-round packages addressed to operator `i`, by the identifier of their sender. */
  ghost function View2(cfg: Config, i: nat): map<nat, Bytes> {
    map id | id in Ids(cfg, i) :: At(Out(cfg, Index(id)), i)
  }

  ghost function Judged(cfg: Config, i: nat): Verdict {
    cfg.judge(i, View1(cfg, i), View2(cfg, i))
  }

  /**
   * The configurations the engine can be started in: indices below 65535, so that the identifiers
   * 1..65535 name them apart, and packages whose length fits the framing. Only signers can be
   * corrupt: the tampering driver has no key-generation form.
   */
  ghost predicate Valid(cfg: Config) {
    && (forall i <- cfg.ops :: i < 0xFFFF)
    && cfg.corrupt <= cfg.ops
    && (cfg.kind.Keygen? ==> cfg.corrupt == {})
    && (forall i <- cfg.ops :: |cfg.open(i)| < 0x1_0000_0000)
    && (forall i <- cfg.ops, j <- cfg.ops :: |At(Out(cfg, i), j)| < 0x1_0000_0000)
  }

  /** The `r`-th frame `i` ever writes to `j`: first round, second round, FIN. */
  ghost function Frame(cfg: Config, i: nat, j: nat, r: int): Envelope {
    if r == 0 then RoundFrame(cfg, i, -1, 1, cfg.open(i))
    else if r == 1 then RoundFrame(cfg, i, if cfg.kind.Keygen? then j else -1, 2, At(Out(cfg, i), j))
    else FinFrame(cfg, i)
  }

  // ---- counters read off a driver ------------------------------------------------------------

  /** How many frames a driver has written to `j`. */
  function Sent(pc: Driver, j: nat): (n: nat)
    ensures n <= 3
  {
    match pc
    case Send1(todo) => if j in todo then 0 else 1
    case Collect1(_) => 1
    case Send2(_, _, todo) => if j in todo then 1 else 2
    case Collect2(_, _, _) => 2
    case SendFin(_, _, _, todo) => if j in todo then 2 else 3
    case WaitFin(_, _, _, _) => 3
  }

  /** How many round frames of `i` a driver has taken out of its inbox. */
  function Taken(corrupt: bool, pc: Driver, i: nat): nat {
    match pc
    case Send1(_) => 0
    case Collect1(got) => if i in got then 1 else 0
    case Send2(_, _, _) => 1
    case Collect2(_, _, got) => if i in got then 2 else 1
    case _ => if corrupt then 1 else 2
  }

  function Min(a: int, b: int): int {
    if a < b then a else b
  }

  /** The envelopes of one sender, in queue order. */
  function From(q: seq<Envelope>, k: nat): seq<Envelope> {
    if q == [] then [] else (if q[0].from == k then [q[0]] else []) + From(q[1..], k)
  }

  lemma {:induction false} FromAppend(q: seq<Envelope>, e: Envelope, k: nat)
    ensures From(q + [e], k) == From(q, k) + (if e.from == k then [e] else [])
  {
    if q == [] {
      assert q + [e] == [e] && [e][1..] == [];
    } else {
      var head := if q[0].from == k then [q[0]] else [];
      assert (q + [e])[1..] == q[1..] + [e] && (q + [e])[0] == q[0];
      FromAppend(q[1..], e, k);
      assert From(q + [e], k) == head + From(q[1..] + [e], k);
      assert From(q, k) == head + From(q[1..], k);
    }
  }

  // ---- the invariant -------------------------------------------------------------------------

  ghost predicate Stretch(cfg: Config, q: seq<Envelope>, i: nat, j: nat, lo: int) {
    forall x :: 0 <= x < |q| ==> q[x] == Frame(cfg, i, j, lo + x)
  }

  ghost predicate FinSeen(op: Op, i: nat) {
    i in op.net.finCh || (op.pc.WaitFin? && i in op.pc.fins)
  }

  /** The pair (i, j): what is on the link, in j's inbox and already taken is one script, in order. */
  ghost predicate PairOk(cfg: Config, i: nat, j: nat, pc: Driver, link: seq<Envelope>, op: Op) {
    var rcvd := Sent(pc, j) - |link|;
    var taken := Taken(j in cfg.corrupt, op.pc, i);
    && taken <= Min(rcvd, 2)
    && Stretch(cfg, link, i, j, rcvd)
    && Stretch(cfg, From(op.net.inbox, i), i, j, taken)
    && |From(op.net.inbox, i)| == Min(rcvd, 2) - taken
    && (FinSeen(op, i) <==> rcvd == 3)
  }

  ghost predicate PcOk(cfg: Config, i: nat, pc: Driver) {
    match pc
    case Send1(todo) => todo <= Peers(cfg, i)
    case Collect1(got) => got.Keys <= Peers(cfg, i) && forall k <- got :: got[k] == cfg.open(k)
    case Send2(items1, out, todo) =>
      Lists(items1, View1(cfg, i)) && out == Out(cfg, i) && todo <= Peers(cfg, i)
    case Collect2(items1, out, got) =>
      && i !in cfg.corrupt && Lists(items1, View1(cfg, i)) && out == Out(cfg, i)
      && got.Keys <= Peers(cfg, i) && forall k <- got :: got[k] == At(Out(cfg, k), i)
    case SendFin(items1, items2, verdict, todo) => Settled(cfg, i, items1, items2, verdict) && todo <= Peers(cfg, i)
    case WaitFin(items1, items2, verdict, fins) => Settled(cfg, i, items1, items2, verdict) && fins <= Peers(cfg, i)
  }

  /** An honest driver past the second collection holds both views and the verdict on them. */
  ghost predicate Settled(cfg: Config, i: nat, items1: seq<Item>, items2: seq<Item>, verdict: Verdict) {
    && Lists(items1, View1(cfg, i))
    && (i !in cfg.corrupt ==>
          Lists(items2, View2(cfg, i)) && verdict == Judged(cfg, i) && !verdict.Refused?)
  }

  ghost predicate NetOk(cfg: Config, i: nat, op: Op) {
    && op.wire.Keys == Peers(cfg, i)
    && (op.net.finished <==> op.pc.Finishing())
    && (forall e <- op.net.inbox :: e.from in Peers(cfg, i))
    && (forall k <- op.net.finCh :: k in Peers(cfg, i) && !(op.pc.WaitFin? && k in op.pc.fins))
    && (forall x, y :: 0 <= x < y < |op.net.finCh| ==> op.net.finCh[x] != op.net.finCh[y])
    && op.net.gone <= Peers(cfg, i)
    && (op.life.Closed? ==> op.pc.WaitFin?)
    && (op.life == Closed(true) ==> op.pc.fins == Peers(cfg, i))
  }

  /** Operator `k` went down before the barrier let it. */
  predicate Quit(s: State, k: nat) {
    k in s && (s[k].life.Failed? || s[k].life == Closed(false))
  }

  /** A connection is recorded as ended only once its peer is down and its link drained. */
  ghost predicate Drained(s: State, k: nat, i: nat) {
    k in s && !s[k].life.Up? && i in s[k].wire && s[k].wire[i] == []
  }

  ghost predicate Blamed(s: State, i: nat)
    requires i in s
  {
    && (forall k <- s[i].net.gone :: Drained(s, k, i))
    && (s[i].net.errs > 0 ==> exists k <- s[i].net.gone :: Quit(s, k))
  }

  ghost predicate OpAt(cfg: Config, s: State, i: nat)
    requires i in s
  {
    PcOk(cfg, i, s[i].pc) && NetOk(cfg, i, s[i])
  }

  ghost predicate PairAt(cfg: Config, s: State, i: nat, j: nat)
    requires Link(s, i, j)
  {
    PairOk(cfg, i, j, s[i].pc, s[i].wire[j], s[j])
  }

  ghost predicate Inv(cfg: Config, s: State) {
    && s.Keys == cfg.ops
    && (forall i {:trigger OpAt(cfg, s, i)} {:trigger Blamed(s, i)} :: i in cfg.ops ==> OpAt(cfg, s, i) && Blamed(s, i))
    && (forall i, j {:trigger PairAt(cfg, s, i, j)} {:trigger Link(s, i, j)} ::
          i in cfg.ops && j in cfg.ops && i != j ==> Link(s, i, j) && PairAt(cfg, s, i, j))
  }

  lemma InitOk(cfg: Config)
    requires Valid(cfg)
    ensures Inv(cfg, Init(cfg))
  {
    var s := Init(cfg);
    forall i, j | i in cfg.ops && j in cfg.ops && i != j ensures Link(s, i, j) && PairAt(cfg, s, i, j) {
      FreshPair(cfg, i, j);
    }
  }

  lemma FreshPair(cfg: Config, i: nat, j: nat)
    requires i in Peers(cfg, j) && j in Peers(cfg, i)
    ensures PairOk(cfg, i, j, Send1(Peers(cfg, i)), [], Start(cfg, j))
  {}

  // ---- one pair under one change --------------------------------------------------------------

  /** A pair depends on nothing but these counts and queues. */
  lemma PairFrame(cfg: Config, i: nat, j: nat, pc: Driver, pc': Driver, link: seq<Envelope>, op: Op, op': Op)
    requires PairOk(cfg, i, j, pc, link, op)
    requires Sent(pc', j) == Sent(pc, j)
    requires Taken(j in cfg.corrupt, op'.pc, i) == Taken(j in cfg.corrupt, op.pc, i)
    requires From(op'.net.inbox, i) == From(op.net.inbox, i)
    requires FinSeen(op', i) <==> FinSeen(op, i)
    ensures PairOk(cfg, i, j, pc', link, op')
  {
    hide Sent, Taken, From, FinSeen, Stretch;
  }

  lemma PairWrite(cfg: Config, i: nat, j: nat, pc: Driver, pc': Driver, link: seq<Envelope>, e: Envelope, op: Op)
    requires PairOk(cfg, i, j, pc, link, op)
    requires Sent(pc', j) == Sent(pc, j) + 1 && e == Frame(cfg, i, j, Sent(pc, j))
    ensures PairOk(cfg, i, j, pc', link + [e], op)
  {
    hide Sent, Taken, From, FinSeen, Frame;
    StretchAppend(cfg, link, i, j, Sent(pc, j) - |link|, e);
  }

  lemma WrittenFrame(cfg: Config, i: nat, j: nat, pc: Driver)
    requires pc.Sending() && j in pc.todo && PcOk(cfg, i, pc)
    ensures Outgoing(cfg, i, pc, j) == Frame(cfg, i, j, Sent(pc, j))
  {}

  lemma StretchAppend(cfg: Config, q: seq<Envelope>, i: nat, j: nat, lo: int, e: Envelope)
    requires Stretch(cfg, q, i, j, lo) && e == Frame(cfg, i, j, lo + |q|)
    ensures Stretch(cfg, q + [e], i, j, lo)
  {
    hide Frame;
  }

  // ---- putting a step together ---------------------------------------------------------------

  /** At most operator `i` differs. */
  ghost predicate Moved(s: State, t: State, i: nat) {
    i in s && i in t && t == s[i := t[i]]
  }

  ghost predicate BothWays(cfg: Config, t: State, i: nat, b: nat) {
    Link(t, i, b) && Link(t, b, i) && PairAt(cfg, t, i, b) && PairAt(cfg, t, b, i)
  }

  ghost predicate PairsWith(cfg: Config, t: State, i: nat) {
    forall b {:trigger BothWays(cfg, t, i, b)} :: b in cfg.ops && b != i ==> BothWays(cfg, t, i, b)
  }

  /** The invariant of the new state from its parts at the operator that moved. */
  lemma Assemble(cfg: Config, s: State, t: State, i: nat)
    requires Inv(cfg, s) && Moved(s, t, i)
    requires OpAt(cfg, t, i)
    requires forall k {:trigger Blamed(t, k)} :: k in cfg.ops ==> Blamed(t, k)
    requires PairsWith(cfg, t, i)
    ensures Inv(cfg, t)
  {
    hide PairOk, PcOk, NetOk, Blamed;
    forall a, b | a in cfg.ops && b in cfg.ops && a != b ensures Link(t, a, b) && PairAt(cfg, t, a, b) {
      if a == i {
        assert BothWays(cfg, t, i, b);
      } else if b == i {
        assert BothWays(cfg, t, i, a);
      } else {
        assert PairAt(cfg, s, a, b);
      }
    }
    forall k | k in cfg.ops ensures OpAt(cfg, t, k) && Blamed(t, k) {
      if k != i {
        assert OpAt(cfg, s, k);
      }
    }
  }

  /** A step of `i` that leaves its own record of ended connections alone keeps the blame in place. */
  lemma BlameKept(cfg: Config, s: State, t: State, i: nat)
    requires Inv(cfg, s) && Moved(s, t, i) && s[i].life.Up?
    requires t[i].net.gone == s[i].net.gone && t[i].net.errs == s[i].net.errs
    ensures forall k {:trigger Blamed(t, k)} :: k in cfg.ops ==> Blamed(t, k)
  {
    hide PcOk, NetOk, PairAt;
    forall k | k in cfg.ops ensures Blamed(t, k) {
      assert Blamed(s, k);
      forall q | q in t[k].net.gone ensures Drained(t, q, k) {
        assert Drained(s, q, k);
      }
      if s[k].net.errs > 0 {
        var q :| q in s[k].net.gone && Quit(s, q);
        assert Drained(s, q, k);
        assert Quit(t, q);
      }
    }
  }

  // ---- each kind of step ---------------------------------------------------------------------

  lemma WriteKeeps(cfg: Config, s: State, i: nat, j: nat)
    requires Valid(cfg) && Inv(cfg, s) && Enabled(cfg, s, Write(i, j))
    ensures Inv(cfg, Apply(cfg, s, Write(i, j)))
  {
    hide PairOk, PcOk, NetOk, Outgoing, StepOp, Sent, Taken, From, FinSeen;
    var t := Apply(cfg, s, Write(i, j));
    assert OpAt(cfg, s, i);
    WriteOp(cfg, s, i, j);
    forall b | b in cfg.ops && b != i ensures BothWays(cfg, t, i, b) {
      WritePairs(cfg, s, t, i, j, b);
    }
    BlameKept(cfg, s, t, i);
    Assemble(cfg, s, t, i);
  }

  lemma WriteOp(cfg: Config, s: State, i: nat, j: nat)
    requires Enabled(cfg, s, Write(i, j)) && OpAt(cfg, s, i)
    ensures var op, op' := s[i], StepOp(cfg, s, Write(i, j));
            && op' == op.(pc := op.pc.(todo := op.pc.todo - {j}),
                          wire := op.wire[j := op.wire[j] + [Outgoing(cfg, i, op.pc, j)]])
            && PcOk(cfg, i, op'.pc) && NetOk(cfg, i, op')
  {
    assert s[i].pc.todo - {j} <= s[i].pc.todo;
  }

  lemma WriteCounts(op: Op, op': Op, j: nat)
    requires op.pc.Sending() && j in op.pc.todo
    requires op'.pc == op.pc.(todo := op.pc.todo - {j}) && op'.net == op.net
    ensures Sent(op'.pc, j) == Sent(op.pc, j) + 1
    ensures forall b :: b != j ==> Sent(op'.pc, b) == Sent(op.pc, b)
    ensures forall c, b :: Taken(c, op'.pc, b) == Taken(c, op.pc, b)
    ensures forall b :: FinSeen(op', b) <==> FinSeen(op, b)
  {}

  lemma WritePairs(cfg: Config, s: State, t: State, i: nat, j: nat, b: nat)
    requires Inv(cfg, s) && Moved(s, t, i) && b in cfg.ops && b != i && Link(s, i, j)
    requires s[i].pc.Sending() && j in s[i].pc.todo
    requires t[i] == s[i].(pc := s[i].pc.(todo := s[i].pc.todo - {j}),
                           wire := s[i].wire[j := s[i].wire[j] + [Outgoing(cfg, i, s[i].pc, j)]])
    ensures BothWays(cfg, t, i, b)
  {
    hide PairOk, PcOk, NetOk, Outgoing, Sent, Taken, From, FinSeen, Blamed, Frame;
    var op, op' := s[i], t[i];
    assert OpAt(cfg, s, i) && PairAt(cfg, s, i, b) && PairAt(cfg, s, b, i);
    WriteCounts(op, op', j);
    if b == j {
      WrittenFrame(cfg, i, j, op.pc);
      PairWrite(cfg, i, j, op.pc, op'.pc, op.wire[j], Outgoing(cfg, i, op.pc, j), s[j]);
    } else {
      PairFrame(cfg, i, b, op.pc, op'.pc, op.wire[b], s[b], s[b]);
    }
    PairFrame(cfg, b, i, s[b].pc, s[b].pc, s[b].wire[i], op, op');
  }

  /** Most steps leave every link alone and keep all counts, so all pairs carry over. */
  lemma CountsKept(cfg: Config, s: State, t: State, i: nat)
    requires Inv(cfg, s) && Moved(s, t, i) && t[i].wire == s[i].wire
    requires forall b :: b in Peers(cfg, i) ==> Sent(t[i].pc, b) == Sent(s[i].pc, b)
    requires forall b :: b in Peers(cfg, i) ==>
               Taken(i in cfg.corrupt, t[i].pc, b) == Taken(i in cfg.corrupt, s[i].pc, b)
    requires t[i].net.inbox == s[i].net.inbox
    requires forall b :: b in Peers(cfg, i) ==> (FinSeen(t[i], b) <==> FinSeen(s[i], b))
    ensures PairsWith(cfg, t, i)
  {
    hide PairOk, PcOk, NetOk, Sent, Taken, From, FinSeen, Blamed;
    forall b | b in cfg.ops && b != i ensures BothWays(cfg, t, i, b) {
      var op, op' := s[i], t[i];
      assert Link(s, i, b) && Link(s, b, i);
      PairFrame(cfg, i, b, op.pc, op'.pc, op.wire[b], s[b], s[b]);
      PairFrame(cfg, b, i, s[b].pc, s[b].pc, s[b].wire[i], op, op');
    }
  }

  /** Going down, by finishing or by failing, keeps everything else in place. */
  lemma LifeKeeps(cfg: Config, s: State, t: State, i: nat, life: Life)
    requires Inv(cfg, s) && Moved(s, t, i) && s[i].life.Up? && t[i] == s[i].(life := life)
    requires life.Closed? ==> s[i].pc.WaitFin? && (life.full ==> s[i].pc.fins == Peers(cfg, i))
    ensures Inv(cfg, t)
  {
    hide PairOk, PcOk, Sent, Taken, From, Blamed, PairsWith;
    assert OpAt(cfg, s, i);
    CountsKept(cfg, s, t, i);
    BlameKept(cfg, s, t, i);
    Assemble(cfg, s, t, i);
  }

  lemma SubsetFull(a: set<nat>, b: set<nat>)
    requires a <= b && |a| >= |b|
    ensures a == b
  {
    if a != b {
      var x :| x in b && x !in a;
      Fewer(a, b - {x});
    }
  }

  // ---- a driver advances ---------------------------------------------------------------------

  lemma Numbers()
    ensures forall k {:trigger Num(k)} :: Index(Num(k)) == k && Num(k) > 0 && (k < 0xFFFF ==> Id(k) == Num(k))
  {}

  /** `view` has the entries of `m` under their numbers. */
  ghost predicate Numbered(m: map<nat, Bytes>, view: map<nat, Bytes>) {
    && (forall k <- m :: Num(k) in view && view[Num(k)] == m[k])
    && (forall id <- view :: Index(id) in m && Num(Index(id)) == id)
  }

  lemma EachLists(got: map<nat, Bytes>, order: seq<nat>, view: map<nat, Bytes>)
    requires Enumerates(order, got.Keys) && (forall k <- got :: k < 0xFFFF) && Numbered(got, view)
    ensures Lists(ListEach(got, order), view)
  {
    Numbers();
    var items := ListEach(got, order);
    hide ListEach, Num, Index, Id;
    forall x | 0 <= x < |order|
      ensures order[x] in got && items[x].id == Num(order[x]) && items[x].body == got[order[x]]
    {
      assert order[x] in order;
    }
    forall id <- view ensures exists it <- items :: it.id == id {
      var x :| 0 <= x < |order| && order[x] == Index(id);
      assert items[x] in items;
    }
    forall x, y | 0 <= x < y < |items| ensures items[x].id != items[y].id {
      assert Index(Num(order[x])) != Index(Num(order[y]));
    }
  }

  lemma ListsCons(it: Item, items: seq<Item>, m: map<nat, Bytes>)
    requires Lists(items, m) && it.id !in m
    ensures Lists([it] + items, m[it.id as nat := it.body])
  {
    var all, m' := [it] + items, m[it.id as nat := it.body];
    forall id <- m' ensures exists x <- all :: x.id == id {
      if id == it.id {
        assert it in all;
      } else {
        var x :| x in items && x.id == id;
        assert x in all;
      }
    }
    forall x, y | 0 <= x < y < |all| ensures all[x].id != all[y].id {
      assert all[y] == items[y - 1] && items[y - 1] in items;
    }
  }

  /** A collected map, listed in any order and framed, arrives as the view it stands for. */
  lemma ListedIsView(cfg: Config, i: nat, own: Bytes, got: map<nat, Bytes>, order: seq<nat>, view: map<nat, Bytes>)
    requires Valid(cfg) && i in cfg.ops && got.Keys == Peers(cfg, i) && Enumerates(order, got.Keys)
    requires Numbered(if cfg.kind.Sign? then got[i := own] else got, view)
    requires forall id <- view :: |view[id]| < 0x1_0000_0000
    ensures var items := Listed(cfg, i, own, got, order);
            Lists(items, view) && Received(Encode(items)) == Some(view)
  {
    Numbers();
    var each := ListEach(got, order);
    hide Lists, Received, Encode, ListEach, Num, Index, Id, Numbered, Enumerates;
    if cfg.kind.Sign? {
      var others := WithoutOwn(i, own, got, view);
      EachLists(got, order, others);
      ListsCons(Item(Id(i), own), each, others);
    } else {
      EachLists(got, order, view);
      assert [] + each == each;
    }
    PositiveIds(if cfg.kind.Sign? then got[i := own] else got, view);
    ReceivedIsSent(Listed(cfg, i, own, got, order), view);
  }

  lemma WithoutOwn(i: nat, own: Bytes, got: map<nat, Bytes>, view: map<nat, Bytes>) returns (others: map<nat, Bytes>)
    requires i !in got && Numbered(got[i := own], view)
    ensures Numbered(got, others) && Num(i) !in others && view == others[Num(i) := own]
  {
    Numbers();
    hide Num, Index, Id;
    others := map id | id in view && id != Num(i) :: view[id];
    var all := got[i := own];
    assert i in all;
    forall k | k in got ensures Num(k) in others && others[Num(k)] == got[k] {
      assert k in all && Index(Num(k)) != Index(Num(i));
    }
    forall id | id in others ensures Index(id) in got && Num(Index(id)) == id {
      assert Index(id) in all;
    }
  }

  lemma PositiveIds(m: map<nat, Bytes>, view: map<nat, Bytes>)
    requires Numbered(m, view)
    ensures forall id <- view :: 1 <= id
  {
    Numbers();
  }

  lemma StepKeeps(cfg: Config, s: State, i: nat, order: seq<nat>)
    requires Valid(cfg) && Inv(cfg, s) && Enabled(cfg, s, Step(i, order))
    ensures Inv(cfg, Apply(cfg, s, Step(i, order)))
  {
    hide PairOk, PcOk, NetOk, From, Blamed, Advanced, PairAt;
    var t := Apply(cfg, s, Step(i, order));
    assert OpAt(cfg, s, i);
    if s[i].pc.WaitFin? {
      FullFins(cfg, s[i].pc, i);
      LifeKeeps(cfg, s, t, i, Closed(true));
    } else if Advanced(cfg, i, s[i].pc, order).Stop? {
      LifeKeeps(cfg, s, t, i, t[i].life);
    } else {
      StepGoes(cfg, s, i, order);
    }
  }

  lemma StepGoes(cfg: Config, s: State, i: nat, order: seq<nat>)
    requires Valid(cfg) && Inv(cfg, s) && Enabled(cfg, s, Step(i, order))
    requires !s[i].pc.WaitFin? && Advanced(cfg, i, s[i].pc, order).Go?
    ensures Inv(cfg, Apply(cfg, s, Step(i, order)))
  {
    hide PairOk, PcOk, From, Blamed, Advanced, PairAt, Sent, Taken, PhaseDone, PairsWith;
    var t := Apply(cfg, s, Step(i, order));
    assert OpAt(cfg, s, i);
    AdvancedOk(cfg, i, s[i].pc, order);
    AdvancedCounts(cfg, i, s[i].pc, order);
    assert OpAt(cfg, t, i);
    CountsKept(cfg, s, t, i);
    BlameKept(cfg, s, t, i);
    hide NetOk, FinSeen;
    Assemble(cfg, s, t, i);
  }

  lemma FullFins(cfg: Config, pc: Driver, i: nat)
    requires PcOk(cfg, i, pc) && PhaseDone(cfg, i, pc)
    ensures pc.WaitFin? ==> pc.fins == Peers(cfg, i)
    ensures pc.Collecting() ==> pc.got.Keys == Peers(cfg, i)
  {
    if pc.WaitFin? {
      SubsetFull(pc.fins, Peers(cfg, i));
    } else if pc.Collecting() {
      SubsetFull(pc.got.Keys, Peers(cfg, i));
    }
  }

  lemma ViewsFit(cfg: Config, i: nat)
    requires Valid(cfg) && i in cfg.ops
    ensures forall id <- View1(cfg, i) :: 1 <= id && |View1(cfg, i)[id]| < 0x1_0000_0000
    ensures forall id <- View2(cfg, i) :: 1 <= id && |View2(cfg, i)[id]| < 0x1_0000_0000
  {
    Numbers();
    hide Out, At, Num, Index;
  }

  lemma FirstView(cfg: Config, i: nat, got: map<nat, Bytes>, order: seq<nat>)
    requires Valid(cfg) && i in cfg.ops && PcOk(cfg, i, Collect1(got)) && got.Keys == Peers(cfg, i)
    requires Enumerates(order, got.Keys)
    ensures var items1 := Listed(cfg, i, cfg.open(i), got, order);
            Lists(items1, View1(cfg, i)) && Received(Encode(items1)) == Some(View1(cfg, i))
  {
    ViewsFit(cfg, i);
    Numbers();
    hide Lists, Received, Encode, Listed, Num, Index, View2;
    ListedIsView(cfg, i, cfg.open(i), got, order, View1(cfg, i));
  }

  lemma SecondView(cfg: Config, i: nat, items1: seq<Item>, out: map<nat, Bytes>, got: map<nat, Bytes>, order: seq<nat>)
    requires Valid(cfg) && i in cfg.ops && PcOk(cfg, i, Collect2(items1, out, got)) && got.Keys == Peers(cfg, i)
    requires Enumerates(order, got.Keys)
    ensures var items2 := Listed(cfg, i, At(out, i), got, order);
            && Lists(items2, View2(cfg, i)) && Received(Encode(items2)) == Some(View2(cfg, i))
            && Received(Encode(items1)) == Some(View1(cfg, i))
  {
    ViewsFit(cfg, i);
    View2Numbered(cfg, i, got);
    hide Lists, Received, Encode, Listed, Out, At, View1, View2, Numbered;
    ReceivedIsSent(items1, View1(cfg, i));
    ListedIsView(cfg, i, At(out, i), got, order, View2(cfg, i));
  }

  lemma View2Numbered(cfg: Config, i: nat, got: map<nat, Bytes>)
    requires i in cfg.ops && got.Keys == Peers(cfg, i) && forall k <- got :: got[k] == At(Out(cfg, k), i)
    ensures Numbered(if cfg.kind.Sign? then got[i := At(Out(cfg, i), i)] else got, View2(cfg, i))
  {
    Numbers();
    hide Out, At, Num, Index;
  }

  /** The driver hands FROST the view of the round, whatever order it listed the map in. */
  lemma AdvancedOk(cfg: Config, i: nat, pc: Driver, order: seq<nat>)
    requires Valid(cfg) && i in cfg.ops && PcOk(cfg, i, pc) && PhaseDone(cfg, i, pc) && !pc.WaitFin?
    requires pc.Collecting() ==> Enumerates(order, pc.got.Keys)
    requires Advanced(cfg, i, pc, order).Go?
    ensures PcOk(cfg, i, Advanced(cfg, i, pc, order).pc)
  {
    hide Lists, Received, Encode, Listed, View1, View2, At;
    FullFins(cfg, pc, i);
    match pc
    case Collect1(got) =>
      FirstView(cfg, i, got, order);
    case Collect2(items1, out, got) =>
      SecondView(cfg, i, items1, out, got, order);
    case _ =>
  }

  /** A phase change alters no count. */
  lemma AdvancedCounts(cfg: Config, i: nat, pc: Driver, order: seq<nat>)
    requires PcOk(cfg, i, pc) && PhaseDone(cfg, i, pc) && !pc.WaitFin? && Advanced(cfg, i, pc, order).Go?
    ensures var pc' := Advanced(cfg, i, pc, order).pc;
            && (pc'.Finishing() <==> pc.Finishing() || pc'.SendFin?)
            && (pc'.WaitFin? ==> pc'.fins == {})
            && (forall b :: b in Peers(cfg, i) ==> Sent(pc', b) == Sent(pc, b))
            && (forall b :: b in Peers(cfg, i) ==> Taken(i in cfg.corrupt, pc', b) == Taken(i in cfg.corrupt, pc, b))
  {
    hide Lists, Received, Encode, Listed, View1, View2, Out, At;
    FullFins(cfg, pc, i);
  }

  // ---- a driver takes an event ---------------------------------------------------------------

  lemma TakeFinKeeps(cfg: Config, s: State, i: nat)
    requires Valid(cfg) && Inv(cfg, s) && Enabled(cfg, s, TakeFin(i))
    ensures Inv(cfg, Apply(cfg, s, TakeFin(i)))
  {
    hide PairOk, From, Blamed, PairAt, PcOk, NetOk, FinSeen, Sent, Taken, PhaseDone, PairsWith;
    var t := Apply(cfg, s, TakeFin(i));
    assert OpAt(cfg, s, i);
    FinTaken(cfg, i, s[i], t[i]);
    CountsKept(cfg, s, t, i);
    BlameKept(cfg, s, t, i);
    Assemble(cfg, s, t, i);
  }

  lemma FinTaken(cfg: Config, i: nat, op: Op, op': Op)
    requires PcOk(cfg, i, op.pc) && NetOk(cfg, i, op) && op.life.Up? && op.pc.WaitFin? && op.net.finCh != []
    requires op' == op.(pc := op.pc.(fins := op.pc.fins + {op.net.finCh[0]}), net := op.net.(finCh := op.net.finCh[1..]))
    ensures PcOk(cfg, i, op'.pc) && NetOk(cfg, i, op')
    ensures forall b :: FinSeen(op', b) <==> FinSeen(op, b)
    ensures forall b :: Sent(op'.pc, b) == Sent(op.pc, b)
    ensures forall c, b :: Taken(c, op'.pc, b) == Taken(c, op.pc, b)
  {
    hide Settled;
    var f := op.net.finCh;
    assert f == [f[0]] + f[1..];
    forall x, y | 0 <= x < y < |f[1..]| ensures f[1..][x] != f[1..][y] {
      assert f[1..][x] == f[x + 1] && f[1..][y] == f[y + 1];
    }
    forall k <- f[1..] ensures k in Peers(cfg, i) && k !in op'.pc.fins {
      var x :| 0 <= x < |f[1..]| && f[1..][x] == k;
      assert f[x + 1] == k && f[x + 1] in f && f[0] != f[x + 1];
    }
  }

  /** What the inbox head can be, from the counts of its sender. */
  lemma HeadFrame(cfg: Config, s: State, i: nat)
    requires Inv(cfg, s) && i in s && s[i].net.inbox != []
    ensures var e, k := s[i].net.inbox[0], s[i].net.inbox[0].from;
            && k in Peers(cfg, i) && k in cfg.ops
            && Taken(i in cfg.corrupt, s[i].pc, k) < 2
            && e == Frame(cfg, k, i, Taken(i in cfg.corrupt, s[i].pc, k))
  {
    hide PcOk, Blamed, Sent, Taken, Frame, FinSeen;
    assert OpAt(cfg, s, i);
    var k := s[i].net.inbox[0].from;
    assert s[i].net.inbox[0] in s[i].net.inbox;
    assert Link(s, k, i) && PairAt(cfg, s, k, i);
    assert From(s[i].net.inbox, k)[0] == s[i].net.inbox[0];
  }

  lemma TakeKeeps(cfg: Config, s: State, i: nat)
    requires Valid(cfg) && Inv(cfg, s) && Enabled(cfg, s, Take(i))
    ensures Inv(cfg, Apply(cfg, s, Take(i)))
  {
    hide PairOk, PcOk, NetOk, From, Blamed, PairAt, Accept, PhaseDone;
    var t := Apply(cfg, s, Take(i));
    assert OpAt(cfg, s, i);
    if Accept(Peers(cfg, i), CurrentTag(cfg, s[i].pc), s[i].pc.got, s[i].net.inbox[0]).Rejected? {
      LifeKeeps(cfg, s, t, i, t[i].life);
    } else {
      HeadFrame(cfg, s, i);
      AcceptedKeeps(cfg, i, s[i], t[i]);
      forall b | b in cfg.ops && b != i ensures BothWays(cfg, t, i, b) {
        TakePairs(cfg, s, t, i, b);
      }
      BlameKept(cfg, s, t, i);
      Assemble(cfg, s, t, i);
    }
  }

  /** An accepted envelope is the sender's frame of the current round, with its body kept intact. */
  lemma AcceptedKeeps(cfg: Config, i: nat, op: Op, op': Op)
    requires Valid(cfg) && op.pc.Collecting() && op.net.inbox != [] && op.life.Up?
    requires PcOk(cfg, i, op.pc) && NetOk(cfg, i, op)
    requires var e, k := op.net.inbox[0], op.net.inbox[0].from;
             && k in Peers(cfg, i)
             && e == Frame(cfg, k, i, Taken(i in cfg.corrupt, op.pc, k))
             && Accept(Peers(cfg, i), CurrentTag(cfg, op.pc), op.pc.got, e).Kept?
             && op' == op.(pc := op.pc.(got := Accept(Peers(cfg, i), CurrentTag(cfg, op.pc), op.pc.got, e).got),
                           net := op.net.(inbox := op.net.inbox[1..]))
    ensures PcOk(cfg, i, op'.pc) && NetOk(cfg, i, op')
    ensures forall b :: Taken(i in cfg.corrupt, op'.pc, b)
                     == Taken(i in cfg.corrupt, op.pc, b) + (if b == op.net.inbox[0].from then 1 else 0)
    ensures forall b :: Sent(op'.pc, b) == Sent(op.pc, b)
    ensures forall b :: FinSeen(op', b) <==> FinSeen(op, b)
  {
    hide View1, Out, At, Lists;
    var e := op.net.inbox[0];
    assert forall x <- op'.net.inbox :: x in op.net.inbox;
    forall body: Bytes, tg: byte ensures Tagged(tg, body)[1..] == body {
    }
  }

  lemma TakePairs(cfg: Config, s: State, t: State, i: nat, b: nat)
    requires Inv(cfg, s) && Moved(s, t, i) && b in cfg.ops && b != i && t[i].wire == s[i].wire
    requires s[i].net.inbox != [] && t[i].net.inbox == s[i].net.inbox[1..]
    requires forall k :: Taken(i in cfg.corrupt, t[i].pc, k)
                      == Taken(i in cfg.corrupt, s[i].pc, k) + (if k == s[i].net.inbox[0].from then 1 else 0)
    requires forall k :: Sent(t[i].pc, k) == Sent(s[i].pc, k)
    requires forall k :: FinSeen(t[i], k) <==> FinSeen(s[i], k)
    ensures BothWays(cfg, t, i, b)
  {
    hide PairOk, PcOk, NetOk, Sent, Taken, FinSeen, Blamed, Frame;
    assert Link(s, i, b) && Link(s, b, i);
    var op, op' := s[i], t[i];
    PairFrame(cfg, i, b, op.pc, op'.pc, op.wire[b], s[b], s[b]);
    if b == op.net.inbox[0].from {
      PairTake(cfg, b, i, s[b].pc, s[b].wire[i], op, op');
    } else {
      assert From(op'.net.inbox, b) == From(op.net.inbox, b);
      PairFrame(cfg, b, i, s[b].pc, s[b].pc, s[b].wire[i], op, op');
    }
  }

  lemma PairTake(cfg: Config, b: nat, i: nat, pc: Driver, link: seq<Envelope>, op: Op, op': Op)
    requires PairOk(cfg, b, i, pc, link, op) && op.net.inbox != [] && op.net.inbox[0].from == b
    requires op'.net.inbox == op.net.inbox[1..]
    requires Taken(i in cfg.corrupt, op'.pc, b) == Taken(i in cfg.corrupt, op.pc, b) + 1
    requires FinSeen(op', b) <==> FinSeen(op, b)
    ensures PairOk(cfg, b, i, pc, link, op')
  {
    hide Sent, Taken, FinSeen, Frame;
    var q, q' := From(op.net.inbox, b), From(op'.net.inbox, b);
    assert q == [op.net.inbox[0]] + q';
    var lo := Taken(i in cfg.corrupt, op.pc, b);
    forall x | 0 <= x < |q'| ensures q'[x] == Frame(cfg, b, i, lo + 1 + x) {
      assert q'[x] == q[x + 1] == Frame(cfg, b, i, lo + (x + 1));
    }
  }

  // ---- a reader takes a frame or finds its connection ended ----------------------------------

  lemma EofKeeps(cfg: Config, s: State, i: nat, j: nat)
    requires Valid(cfg) && Inv(cfg, s) && Enabled(cfg, s, Eof(i, j))
    ensures Inv(cfg, Apply(cfg, s, Eof(i, j)))
  {
    hide PairOk, From, PairAt, PcOk, Sent, Taken, PairsWith;
    var t := Apply(cfg, s, Eof(i, j));
    assert OpAt(cfg, s, i);
    CountsKept(cfg, s, t, i);
    hide NetOk, FinSeen;
    EofBlame(cfg, s, t, i, j);
    EofOp(cfg, i, s[i], t[i], j);
    Assemble(cfg, s, t, i);
  }

  lemma EofOp(cfg: Config, i: nat, op: Op, op': Op, j: nat)
    requires NetOk(cfg, i, op) && j in Peers(cfg, i) && op' == op.(net := OnClosed(op.net, j))
    ensures NetOk(cfg, i, op')
  {}

  /** An operator that meets a disconnect before its own result met one that quit early. */
  lemma EofBlame(cfg: Config, s: State, t: State, i: nat, j: nat)
    requires Inv(cfg, s) && Enabled(cfg, s, Eof(i, j)) && Moved(s, t, i)
    requires t[i] == s[i].(net := OnClosed(s[i].net, j))
    ensures forall k {:trigger Blamed(t, k)} :: k in cfg.ops ==> Blamed(t, k)
  {
    if !s[i].net.finished {
      EarlyDisconnect(cfg, s, i, j);
    }
    hide PairAt, OpAt;
    forall k | k in cfg.ops ensures Blamed(t, k) {
      assert Blamed(s, k);
      forall q | q in t[k].net.gone ensures Drained(t, q, k) {
        assert Drained(s, q, k);
      }
      if t[k].net.errs > 0 {
        if s[k].net.errs > 0 {
          var q :| q in s[k].net.gone && Quit(s, q);
          assert Drained(s, q, k) && Quit(t, q);
        } else {
          assert j in t[k].net.gone && Quit(t, j);
        }
      }
    }
  }

  /** FIN barrier: an operator that closed through the barrier saw every peer finish first. */
  lemma ClosedAfterFinished(cfg: Config, s: State, i: nat, j: nat)
    requires Inv(cfg, s) && Link(s, i, j) && s[j].life == Closed(true)
    ensures s[i].net.finished && s[i].pc.Finishing()
  {
    hide PcOk, From, Taken;
    assert OpAt(cfg, s, i) && OpAt(cfg, s, j) && PairAt(cfg, s, i, j);
    assert FinSeen(s[j], i);
  }

  lemma EarlyDisconnect(cfg: Config, s: State, i: nat, j: nat)
    requires Inv(cfg, s) && Link(s, i, j) && !s[j].life.Up? && !s[i].net.finished
    ensures Quit(s, j)
  {
    hide Inv;
    if s[j].life == Closed(true) {
      ClosedAfterFinished(cfg, s, i, j);
    }
  }

  lemma FewDistinct(q: seq<nat>, peers: set<nat>)
    requires forall k <- q :: k in peers
    requires forall x, y :: 0 <= x < y < |q| ==> q[x] != q[y]
    ensures |q| <= |peers|
    decreases |q|
  {
    if q != [] {
      var last := q[|q| - 1];
      forall k <- q[..|q| - 1] ensures k in peers - {last} {
        var x :| 0 <= x < |q| - 1 && q[x] == k;
      }
      FewDistinct(q[..|q| - 1], peers - {last});
    }
  }

  /** The FIN channel always has room: `default` in the reader's non-blocking send is never taken. */
  lemma FinChannelHasRoom(cfg: Config, i: nat, op: Op)
    requires NetOk(cfg, i, op)
    ensures |op.net.finCh| < |Peers(cfg, i)| + 1
  {
    FewDistinct(op.net.finCh, Peers(cfg, i));
  }

  lemma ReadKeeps(cfg: Config, s: State, i: nat, j: nat)
    requires Valid(cfg) && Inv(cfg, s) && Enabled(cfg, s, Read(i, j))
    ensures Inv(cfg, Apply(cfg, s, Read(i, j)))
  {
    hide PairOk, From, PairAt, PcOk, NetOk, FinSeen, Sent, Taken, Blamed, OnFrame;
    var t := Apply(cfg, s, Read(i, j));
    assert Link(s, j, i) && OpAt(cfg, s, i) && OpAt(cfg, s, j);
    FrontFrame(cfg, s, i, j);
    ReadOp(cfg, i, s[i], t[i], j, s[j].wire[i][0]);
    ShiftedOp(cfg, s[j], j, i);
    forall a, b | a in cfg.ops && b in cfg.ops && a != b ensures Link(t, a, b) && PairAt(cfg, t, a, b) {
      ReadPairs(cfg, s, i, j, a, b);
    }
    forall k | k in cfg.ops ensures OpAt(cfg, t, k) && Blamed(t, k) {
      assert OpAt(cfg, s, k);
      ReadBlame(cfg, s, i, j, k);
    }
  }

  /** The oldest frame on a link is the next one of its sender's script. */
  lemma FrontFrame(cfg: Config, s: State, i: nat, j: nat)
    requires Inv(cfg, s) && Link(s, j, i) && s[j].wire[i] != []
    ensures var r := Sent(s[j].pc, i) - |s[j].wire[i]|;
            0 <= r < 3 && s[j].wire[i][0] == Frame(cfg, j, i, r) && (FinSeen(s[i], j) <==> r == 3)
  {
    hide From, Taken, Frame, FinSeen;
    assert PairAt(cfg, s, j, i);
    assert s[j].wire[i][0] == Frame(cfg, j, i, Sent(s[j].pc, i) - |s[j].wire[i]| + 0);
  }

  lemma ReadOp(cfg: Config, i: nat, op: Op, op': Op, j: nat, e: Envelope)
    requires NetOk(cfg, i, op) && op.life.Up? && j in Peers(cfg, i) && !FinSeen(op, j)
    requires e.from == j && e.session == cfg.session
    requires op' == op.(net := OnFrame(op.net, cfg.session, |Peers(cfg, i)| + 1, j, e))
    ensures NetOk(cfg, i, op')
    ensures op'.net.inbox == if e.fin then op.net.inbox else op.net.inbox + [e]
    ensures op'.net.finCh == if e.fin then op.net.finCh + [j] else op.net.finCh
    ensures op'.net.gone == op.net.gone && op'.net.errs == op.net.errs && op'.net.finished == op.net.finished
  {
    FinChannelHasRoom(cfg, i, op);
    assert forall k <- op'.net.finCh :: k in op.net.finCh || k == j;
  }

  lemma ShiftedOp(cfg: Config, op: Op, j: nat, i: nat)
    requires NetOk(cfg, j, op) && i in op.wire && op.wire[i] != []
    ensures NetOk(cfg, j, Shifted(op, i))
  {}

  lemma ReadBlame(cfg: Config, s: State, i: nat, j: nat, k: nat)
    requires Inv(cfg, s) && Enabled(cfg, s, Read(i, j)) && k in cfg.ops
    requires var op' := Apply(cfg, s, Read(i, j))[i];
             op'.net.gone == s[i].net.gone && op'.net.errs == s[i].net.errs && op'.life == s[i].life
    ensures Blamed(Apply(cfg, s, Read(i, j)), k)
  {
    hide OpAt, PairAt, OnFrame;
    var t := Apply(cfg, s, Read(i, j));
    assert Blamed(s, k);
    forall q | q in t[k].net.gone ensures Drained(t, q, k) {
      assert Drained(s, q, k);
    }
    if s[k].net.errs > 0 {
      var q :| q in s[k].net.gone && Quit(s, q);
      assert Quit(t, q);
    }
  }

  lemma ReadPairs(cfg: Config, s: State, i: nat, j: nat, a: nat, b: nat)
    requires Inv(cfg, s) && Enabled(cfg, s, Read(i, j)) && a in cfg.ops && b in cfg.ops && a != b
    requires var e, op, op' := s[j].wire[i][0], s[i], Apply(cfg, s, Read(i, j))[i];
             && op'.pc == op.pc && op'.wire == op.wire
             && op'.net.inbox == (if e.fin then op.net.inbox else op.net.inbox + [e])
             && op'.net.finCh == (if e.fin then op.net.finCh + [j] else op.net.finCh)
    ensures Link(Apply(cfg, s, Read(i, j)), a, b) && PairAt(cfg, Apply(cfg, s, Read(i, j)), a, b)
  {
    hide PairOk, PcOk, NetOk, Sent, Taken, Blamed, Frame, OnFrame, From;
    var t := Apply(cfg, s, Read(i, j));
    assert Link(s, j, i) && Link(s, a, b) && PairAt(cfg, s, a, b);
    FrontFrame(cfg, s, i, j);
    FrameFields(cfg, j, i);
    FromAppend(s[i].net.inbox, s[j].wire[i][0], a);
    if a == j && b == i {
      PairRead(cfg, j, i, s[j].pc, s[j].wire[i], s[i], t[i]);
    } else {
      assert b != i ==> t[b].net == s[b].net;
      assert From(s[b].net.inbox, a) + [] == From(s[b].net.inbox, a);
      PairFrame(cfg, a, b, s[a].pc, t[a].pc, s[a].wire[b], s[b], t[b]);
    }
  }

  lemma FrameFields(cfg: Config, j: nat, i: nat)
    ensures forall r :: Frame(cfg, j, i, r).from == j && Frame(cfg, j, i, r).session == cfg.session
    ensures forall r :: 0 <= r < 3 ==> (Frame(cfg, j, i, r).fin <==> r == 2)
  {}

  lemma PairRead(cfg: Config, j: nat, i: nat, pc: Driver, link: seq<Envelope>, op: Op, op': Op)
    requires PairOk(cfg, j, i, pc, link, op) && link != [] && Sent(pc, i) <= 3
    requires op'.pc == op.pc
    requires op'.net.inbox == if link[0].fin then op.net.inbox else op.net.inbox + [link[0]]
    requires op'.net.finCh == if link[0].fin then op.net.finCh + [j] else op.net.finCh
    ensures PairOk(cfg, j, i, pc, link[1..], op')
  {
    hide Frame, From, Sent, Taken;
    FrameFields(cfg, j, i);
    FromAppend(op.net.inbox, link[0], j);
    var rcvd := Sent(pc, i) - |link|;
    assert link[0] == Frame(cfg, j, i, rcvd + 0);
    StretchTail(cfg, link, j, i, rcvd);
    assert FinSeen(op', j) <==> FinSeen(op, j) || link[0].fin;
    hide FinSeen;
    if !link[0].fin {
      StretchAppend(cfg, From(op.net.inbox, j), j, i, Taken(i in cfg.corrupt, op.pc, j), link[0]);
    }
  }

  lemma StretchTail(cfg: Config, q: seq<Envelope>, j: nat, i: nat, lo: int)
    requires q != [] && Stretch(cfg, q, j, i, lo)
    ensures Stretch(cfg, q[1..], j, i, lo + 1)
  {
    hide Frame;
    forall x | 0 <= x < |q[1..]| ensures q[1..][x] == Frame(cfg, j, i, lo + 1 + x) {
      assert q[1..][x] == q[x + 1] == Frame(cfg, j, i, lo + (x + 1));
    }
  }

  // ---- every step, every run -----------------------------------------------------------------

  /** No step of any kind breaks the invariant. */
  lemma StepPreserves(cfg: Config, s: State, a: Action)
    requires Valid(cfg) && Inv(cfg, s) && Enabled(cfg, s, a)
    ensures Inv(cfg, Apply(cfg, s, a))
  {
    hide Inv, Apply, Enabled;
    match a
    case Write(i, j) => WriteKeeps(cfg, s, i, j);
    case Step(i, order) => StepKeeps(cfg, s, i, order);
    case Read(i, j) => ReadKeeps(cfg, s, i, j);
    case Eof(i, j) => EofKeeps(cfg, s, i, j);
    case Take(i) => TakeKeeps(cfg, s, i);
    case TakeFin(i) => TakeFinKeeps(cfg, s, i);
    case _ => DownKeeps(cfg, s, a);
  }

  lemma DownKeeps(cfg: Config, s: State, a: Action)
    requires Valid(cfg) && Inv(cfg, s) && Enabled(cfg, s, a)
    requires a.TakeErr? || a.Timeout? || a.Deadline? || a.WriteFails? || a.Kill?
    ensures Inv(cfg, Apply(cfg, s, a))
  {
    hide PairOk, PairAt, PcOk, NetOk, Blamed, PhaseDone;
    var t := Apply(cfg, s, a);
    LifeKeeps(cfg, s, t, a.i, t[a.i].life);
  }

  lemma {:induction false} RunKeeps(cfg: Config, s: State, acts: seq<Action>, t: State)
    requires Valid(cfg) && Inv(cfg, s) && Runs(cfg, s, acts, t)
    ensures Inv(cfg, t)
    decreases |acts|
  {
    if acts != [] {
      StepPreserves(cfg, s, acts[0]);
      RunKeeps(cfg, Apply(cfg, s, acts[0]), acts[1..], t);
    }
  }

  /** Every reachable state satisfies the invariant, whatever the interleaving and the failures. */
  lemma ReachableInv(cfg: Config, s: State)
    requires Valid(cfg) && Reachable(cfg, s)
    ensures Inv(cfg, s)
  {
    var acts :| Runs(cfg, Init(cfg), acts, s);
    InitOk(cfg);
    RunKeeps(cfg, Init(cfg), acts, s);
  }
}

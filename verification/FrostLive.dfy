/** Termination and progress: every run is finite, and a run without failures goes all the way. */
module FrostLive {
  import opened Bytes
  import opened Framing
  import opened Transport
  import opened FrostNet
  import opened FrostInvariant
  import opened FrostEarly

  // ---- a measure that every step lowers ----------------------------------------------------------

  function Phases(pc: Driver): nat {
    match pc
    case Send1(_) => 5
    case Collect1(_) => 4
    case Send2(_, _, _) => 3
    case Collect2(_, _, _) => 2
    case SendFin(_, _, _, _) => 1
    case WaitFin(_, _, _, _) => 0
  }

  /** What one operator still has to do on its own. */
  function OpWork(cfg: Config, i: nat, op: Op): nat {
    (if op.life.Up? then 1 else 0) + Phases(op.pc) + |op.net.inbox| + |op.net.finCh| + |Peers(cfg, i) - op.net.gone|
  }

  /** What is still to be written to, and read off, one link. */
  function LinkWork(pc: Driver, j: nat, link: seq<Envelope>): nat {
    3 * (3 - Sent(pc, j)) + 2 * |link|
  }

  function Entry(cfg: Config, s: State, p: (nat, nat)): nat {
    if p.0 !in s then 0
    else if p.0 == p.1 then OpWork(cfg, p.0, s[p.0])
    else if p.1 in s[p.0].wire then LinkWork(s[p.0].pc, p.1, s[p.0].wire[p.1])
    else 0
  }

  ghost function Total(cfg: Config, s: State, ps: set<(nat, nat)>): nat {
    if ps == {} then 0
    else
      var p :| p in ps;
      Entry(cfg, s, p) + Total(cfg, s, ps - {p})
  }

  ghost function Measure(cfg: Config, s: State): nat {
    Total(cfg, s, set i, j | i in cfg.ops && j in cfg.ops :: (i, j))
  }

  lemma {:induction false} TotalSplit(cfg: Config, s: State, ps: set<(nat, nat)>, p: (nat, nat))
    requires p in ps
    ensures Total(cfg, s, ps) == Entry(cfg, s, p) + Total(cfg, s, ps - {p})
    decreases ps
  {
    var q :| q in ps && Total(cfg, s, ps) == Entry(cfg, s, q) + Total(cfg, s, ps - {q});
    if q != p {
      TotalSplit(cfg, s, ps - {q}, p);
      TotalSplit(cfg, s, ps - {p}, q);
      assert ps - {q} - {p} == ps - {p} - {q};
    }
  }

  lemma {:induction false} TotalLess(cfg: Config, s: State, t: State, ps: set<(nat, nat)>)
    requires forall p <- ps :: Entry(cfg, t, p) <= Entry(cfg, s, p)
    ensures Total(cfg, t, ps) <= Total(cfg, s, ps)
    decreases ps
  {
    hide Entry;
    if ps != {} {
      var p :| p in ps;
      TotalSplit(cfg, s, ps, p);
      TotalSplit(cfg, t, ps, p);
      TotalLess(cfg, s, t, ps - {p});
    }
  }

  /** Two entries that drop together, and none that grows. */
  lemma TotalDrops(cfg: Config, s: State, t: State, p: (nat, nat), q: (nat, nat))
    requires p.0 in cfg.ops && p.1 in cfg.ops && q.0 in cfg.ops && q.1 in cfg.ops && p != q
    requires Entry(cfg, t, p) + Entry(cfg, t, q) < Entry(cfg, s, p) + Entry(cfg, s, q)
    requires forall r :: r != p && r != q ==> Entry(cfg, t, r) <= Entry(cfg, s, r)
    ensures Measure(cfg, t) < Measure(cfg, s)
  {
    hide Entry;
    var ps := set i, j | i in cfg.ops && j in cfg.ops :: (i, j);
    TotalSplit(cfg, s, ps, p);
    TotalSplit(cfg, t, ps, p);
    TotalSplit(cfg, s, ps - {p}, q);
    TotalSplit(cfg, t, ps - {p}, q);
    TotalLess(cfg, s, t, ps - {p} - {q});
  }

  lemma TotalDropsAt(cfg: Config, s: State, t: State, p: (nat, nat))
    requires p.0 in cfg.ops && p.1 in cfg.ops
    requires Entry(cfg, t, p) < Entry(cfg, s, p)
    requires forall r :: r != p ==> Entry(cfg, t, r) <= Entry(cfg, s, r)
    ensures Measure(cfg, t) < Measure(cfg, s)
  {
    hide Entry;
    var ps := set i, j | i in cfg.ops && j in cfg.ops :: (i, j);
    TotalSplit(cfg, s, ps, p);
    TotalSplit(cfg, t, ps, p);
    TotalLess(cfg, s, t, ps - {p});
  }

  /** A step of `i` that leaves the links and the counts alone and does some of its own work. */
  lemma OwnWork(cfg: Config, s: State, t: State, i: nat)
    requires i in cfg.ops && Moved(s, t, i) && t[i].wire == s[i].wire
    requires forall j <- s[i].wire :: Sent(t[i].pc, j) == Sent(s[i].pc, j)
    requires OpWork(cfg, i, t[i]) < OpWork(cfg, i, s[i])
    ensures Measure(cfg, t) < Measure(cfg, s)
  {
    hide OpWork, Sent, Measure;
    TotalDropsAt(cfg, s, t, (i, i));
  }

  lemma WriteWork(cfg: Config, s: State, i: nat, j: nat)
    requires Valid(cfg) && Inv(cfg, s) && Enabled(cfg, s, Write(i, j))
    ensures Measure(cfg, Apply(cfg, s, Write(i, j))) < Measure(cfg, s)
  {
    var t := Apply(cfg, s, Write(i, j));
    assert OpAt(cfg, s, i);
    hide PcOk, Blamed, PairAt, Measure;
    WriteCounts(s[i], t[i], j);
    assert Phases(t[i].pc) == Phases(s[i].pc);
    hide Inv, NetOk, Outgoing, Sent, Phases, Taken, FinSeen;
    TotalDropsAt(cfg, s, t, (i, j));
  }

  lemma StepWork(cfg: Config, s: State, i: nat, order: seq<nat>)
    requires Valid(cfg) && Inv(cfg, s) && Enabled(cfg, s, Step(i, order))
    ensures Measure(cfg, Apply(cfg, s, Step(i, order))) < Measure(cfg, s)
  {
    var t := Apply(cfg, s, Step(i, order));
    assert OpAt(cfg, s, i);
    hide PcOk, Blamed, PairAt, Measure, Advanced, Taken;
    if !s[i].pc.WaitFin? && Advanced(cfg, i, s[i].pc, order).Go? {
      AdvancedCounts(cfg, i, s[i].pc, order);
      NextPhase(cfg, i, s[i].pc, order);
    }
    hide Inv, PhaseDone, Sent, Phases;
    OwnWork(cfg, s, t, i);
  }

  lemma NextPhase(cfg: Config, i: nat, pc: Driver, order: seq<nat>)
    requires !pc.WaitFin? && Advanced(cfg, i, pc, order).Go?
    ensures Phases(Advanced(cfg, i, pc, order).pc) < Phases(pc)
  {
    hide Listed, Received, Encode;
  }

  lemma ReadWork(cfg: Config, s: State, i: nat, j: nat)
    requires Valid(cfg) && Inv(cfg, s) && Enabled(cfg, s, Read(i, j))
    ensures Measure(cfg, Apply(cfg, s, Read(i, j))) < Measure(cfg, s)
  {
    var t := Apply(cfg, s, Read(i, j));
    assert Link(s, j, i);
    hide OpAt, Blamed, PairAt, Measure;
    FrontFrame(cfg, s, i, j);
    FrameFields(cfg, j, i);
    hide Frame, Sent, Inv, FinSeen;
    TotalDrops(cfg, s, t, (j, i), (i, i));
  }

  lemma EofWork(cfg: Config, s: State, i: nat, j: nat)
    requires Valid(cfg) && Inv(cfg, s) && Enabled(cfg, s, Eof(i, j))
    ensures Measure(cfg, Apply(cfg, s, Eof(i, j))) < Measure(cfg, s)
  {
    var t := Apply(cfg, s, Eof(i, j));
    hide OpAt, Blamed, PairAt, Measure, Sent, Phases;
    Proper(Peers(cfg, i) - t[i].net.gone, Peers(cfg, i) - s[i].net.gone);
    OwnWork(cfg, s, t, i);
  }

  lemma TakeWork(cfg: Config, s: State, i: nat)
    requires Valid(cfg) && Inv(cfg, s) && Enabled(cfg, s, Take(i))
    ensures Measure(cfg, Apply(cfg, s, Take(i))) < Measure(cfg, s)
  {
    assert i in cfg.ops;
    hide Inv, Measure, PhaseDone, Accept, Apply;
    var t := Apply(cfg, s, Take(i));
    match Accept(Peers(cfg, i), CurrentTag(cfg, s[i].pc), s[i].pc.got, s[i].net.inbox[0])
    case Rejected(why) =>
      TakeRefused(cfg, s, i, why);
      OwnWork(cfg, s, t, i);
    case Kept(got) =>
      TakeAccepted(cfg, s, i, got);
      assert Sent(t[i].pc, i) == Sent(s[i].pc, i) && Phases(t[i].pc) == Phases(s[i].pc);
      OwnWork(cfg, s, t, i);
  }

  lemma TakeFinWork(cfg: Config, s: State, i: nat)
    requires Valid(cfg) && Inv(cfg, s) && Enabled(cfg, s, TakeFin(i))
    ensures Measure(cfg, Apply(cfg, s, TakeFin(i))) < Measure(cfg, s)
  {
    hide OpAt, Blamed, PairAt, Measure, PhaseDone;
    OwnWork(cfg, s, Apply(cfg, s, TakeFin(i)), i);
  }

  lemma DownWork(cfg: Config, s: State, a: Action)
    requires Valid(cfg) && Inv(cfg, s) && Enabled(cfg, s, a)
    requires a.TakeErr? || a.Timeout? || a.Deadline? || a.WriteFails? || a.Kill?
    ensures Measure(cfg, Apply(cfg, s, a)) < Measure(cfg, s)
  {
    hide OpAt, Blamed, PairAt, Measure, PhaseDone, Sent, Phases;
    OwnWork(cfg, s, Apply(cfg, s, a), a.i);
  }

  lemma Proper(a: set<nat>, b: set<nat>)
    requires a < b
    ensures |a| < |b|
  {
    var x :| x in b && x !in a;
    Fewer(a, b - {x});
  }

  /** Every step, failures included, lowers the measure. */
  lemma StepLowers(cfg: Config, s: State, a: Action)
    requires Valid(cfg) && Inv(cfg, s) && Enabled(cfg, s, a)
    ensures Measure(cfg, Apply(cfg, s, a)) < Measure(cfg, s)
  {
    hide Inv, Apply, Enabled, Measure;
    match a
    case Write(i, j) => WriteWork(cfg, s, i, j);
    case Step(i, order) => StepWork(cfg, s, i, order);
    case Read(i, j) => ReadWork(cfg, s, i, j);
    case Eof(i, j) => EofWork(cfg, s, i, j);
    case Take(i) => TakeWork(cfg, s, i);
    case TakeFin(i) => TakeFinWork(cfg, s, i);
    case _ => DownWork(cfg, s, a);
  }

  /** No run is longer than the measure of its first state: every run ends. */
  lemma {:induction false} RunsAreBounded(cfg: Config, s: State, acts: seq<Action>, t: State)
    requires Valid(cfg) && Inv(cfg, s) && Runs(cfg, s, acts, t)
    ensures |acts| + Measure(cfg, t) <= Measure(cfg, s)
    decreases |acts|
  {
    hide Inv, Measure, Apply, Enabled;
    if acts != [] {
      StepLowers(cfg, s, acts[0]);
      StepPreserves(cfg, s, acts[0]);
      RunsAreBounded(cfg, Apply(cfg, s, acts[0]), acts[1..], t);
    }
  }

  // ---- progress ----------------------------------------------------------------------------------

  /** A corrupt signer never takes the shares out of its inbox; this many peers' shares fit. */
  predicate Roomy(cfg: Config) {
    |cfg.ops| <= INBOX_CAP + 1
  }

  /** `i` is not a corrupt signer waiting behind shares it does not take. */
  predicate Unclogged(cfg: Config, i: nat, pc: Driver) {
    Roomy(cfg) || i !in cfg.corrupt || !pc.WaitFin?
  }

  /** Nothing a driver or a reader of `i` could do at once. */
  ghost predicate Idle(cfg: Config, s: State, i: nat)
    requires i in s
  {
    && !(s[i].pc.Sending() && s[i].pc.todo != {})
    && !PhaseDone(cfg, i, s[i].pc)
    && (s[i].pc.Collecting() ==> s[i].net.inbox == [])
    && (s[i].pc.WaitFin? ==> s[i].net.finCh == [])
    && (forall j {:trigger Link(s, j, i)} :: Link(s, j, i) ==> s[j].wire[i] == [])
  }

  lemma NotDrained(s: State, i: nat, j: nat)
    requires i in s && Blamed(s, i) && Link(s, j, i) && s[j].wire[i] != []
    ensures j !in s[i].net.gone
  {}

  lemma {:induction false} FewSenders(q: seq<Envelope>, peers: set<nat>)
    requires forall e <- q :: e.from in peers
    requires forall k {:trigger From(q, k)} :: |From(q, k)| <= 1
    ensures |q| <= |peers|
  {
    if q != [] {
      var k := q[0].from;
      assert From(q, k) == [q[0]] + From(q[1..], k);
      NoneFrom(q[1..], k);
      forall b ensures |From(q[1..], b)| <= 1 {
        assert |From(q, b)| <= 1;
      }
      FewSenders(q[1..], peers - {k});
    }
  }

  lemma {:induction false} NoneFrom(q: seq<Envelope>, k: nat)
    requires From(q, k) == []
    ensures forall e <- q :: e.from != k
  {
    if q != [] {
      NoneFrom(q[1..], k);
    }
  }

  /** In the barrier an honest inbox is empty, and a corrupt one holds at most a frame per peer. */
  lemma WaitingInbox(cfg: Config, s: State, i: nat)
    requires Inv(cfg, s) && i in s && s[i].pc.WaitFin?
    ensures |s[i].net.inbox| <= |Peers(cfg, i)| && (i !in cfg.corrupt ==> s[i].net.inbox == [])
  {
    assert OpAt(cfg, s, i);
    hide PcOk, Blamed, Stretch, From, FinSeen, Sent;
    forall k ensures |From(s[i].net.inbox, k)| <= if i in cfg.corrupt then 1 else 0 {
      if k in Peers(cfg, i) {
        assert Link(s, k, i) && PairAt(cfg, s, k, i);
      } else {
        FromNobody(s[i].net.inbox, k);
      }
    }
    FewSenders(s[i].net.inbox, Peers(cfg, i));
    if i !in cfg.corrupt {
      EmptyInbox(s[i].net.inbox);
    }
  }

  /** A share still on its link leaves its sender's place in the inbox free. */
  lemma ShareFits(cfg: Config, s: State, j: nat, i: nat)
    requires Inv(cfg, s) && Link(s, j, i) && s[i].pc.WaitFin? && s[j].wire[i] != [] && !s[j].wire[i][0].fin
    ensures |s[i].net.inbox| < |Peers(cfg, i)|
  {
    assert OpAt(cfg, s, i) && PairAt(cfg, s, j, i);
    hide PcOk, Blamed, Stretch, From, FinSeen, Sent, Frame;
    NotFin(cfg, s[j].wire[i], j, i, Sent(s[j].pc, i) - |s[j].wire[i]|);
    assert |From(s[i].net.inbox, j)| == 0;
    forall k ensures |From(s[i].net.inbox, k)| <= 1 {
      if k in Peers(cfg, i) {
        assert Link(s, k, i) && PairAt(cfg, s, k, i);
      } else {
        FromNobody(s[i].net.inbox, k);
      }
    }
    NoneFrom(s[i].net.inbox, j);
    FewSenders(s[i].net.inbox, Peers(cfg, i) - {j});
  }

  lemma NotFin(cfg: Config, q: seq<Envelope>, i: nat, j: nat, lo: int)
    requires Stretch(cfg, q, i, j, lo) && q != [] && !q[0].fin
    ensures lo <= 1
  {
    assert q[0] == Frame(cfg, i, j, lo + 0);
  }

  lemma {:induction false} FromNobody(q: seq<Envelope>, k: nat)
    requires forall e <- q :: e.from != k
    ensures From(q, k) == []
  {
    if q != [] {
      FromNobody(q[1..], k);
    }
  }

  lemma EmptyInbox(q: seq<Envelope>)
    requires forall k {:trigger From(q, k)} :: |From(q, k)| <= 0
    ensures q == []
  {
    if q != [] {
      NoneFrom(q, q[0].from);
    }
  }

  /** A live operator that is not idle has an enabled step that is no fault. */
  lemma NotIdle(cfg: Config, s: State, i: nat) returns (a: Action)
    requires Valid(cfg) && Inv(cfg, s) && i in s && Unclogged(cfg, i, s[i].pc) && s[i].life.Up? && !Idle(cfg, s, i)
    ensures Enabled(cfg, s, a) && !Fault(a)
  {
    if s[i].pc.Sending() && s[i].pc.todo != {} {
      a := WriteReady(cfg, s, i);
    } else if PhaseDone(cfg, i, s[i].pc) {
      a := StepReady(cfg, s, i);
    } else if s[i].pc.Collecting() && s[i].net.inbox != [] {
      hide Inv, PhaseDone;
      a := Take(i);
    } else if s[i].pc.WaitFin? && s[i].net.finCh != [] {
      hide Inv, PhaseDone;
      a := TakeFin(i);
    } else {
      hide Inv;
      a := ReadReady(cfg, s, i);
    }
  }

  lemma WriteReady(cfg: Config, s: State, i: nat) returns (a: Action)
    requires Valid(cfg) && Inv(cfg, s) && i in s && s[i].life.Up? && s[i].pc.Sending() && s[i].pc.todo != {}
    ensures Enabled(cfg, s, a) && !Fault(a)
  {
    assert OpAt(cfg, s, i);
    PcPeers(cfg, i, s[i].pc);
    hide NetOk, PairAt, PcOk, Blamed;
    var j :| j in s[i].pc.todo;
    assert Link(s, i, j);
    hide Inv;
    a := Write(i, j);
  }

  lemma StepReady(cfg: Config, s: State, i: nat) returns (a: Action)
    requires i in s && s[i].life.Up? && PhaseDone(cfg, i, s[i].pc)
    ensures Enabled(cfg, s, a) && !Fault(a)
  {
    hide PhaseDone;
    var order := [];
    if s[i].pc.Collecting() {
      order := AnOrder(s[i].pc.got.Keys);
    }
    a := Step(i, order);
  }

  lemma ReadReady(cfg: Config, s: State, i: nat) returns (a: Action)
    requires Valid(cfg) && Inv(cfg, s) && i in s && Unclogged(cfg, i, s[i].pc)
    requires s[i].life.Up? && (s[i].pc.Collecting() || s[i].pc.WaitFin?)
    requires s[i].pc.Collecting() ==> s[i].net.inbox == []
    requires exists j {:trigger Link(s, j, i)} :: Link(s, j, i) && s[j].wire[i] != []
    ensures Enabled(cfg, s, a) && !Fault(a)
  {
    assert Blamed(s, i);
    hide OpAt, PairAt, Blamed;
    var j :| Link(s, j, i) && s[j].wire[i] != [];
    NotDrained(s, i, j);
    if s[i].pc.WaitFin? {
      WaitingInbox(cfg, s, i);
      PeersCount(cfg, i);
      if !s[j].wire[i][0].fin {
        ShareFits(cfg, s, j, i);
      }
    }
    hide Inv;
    a := Read(i, j);
  }

  lemma PeersCount(cfg: Config, i: nat)
    requires i in cfg.ops
    ensures |Peers(cfg, i)| == |cfg.ops| - 1
  {}

  // What an idle operator waits for: the least advanced live operator is never idle.

  lemma IdleCollect1(cfg: Config, s: State, i: nat) returns (j: nat)
    requires Valid(cfg) && Inv(cfg, s) && i in s && Idle(cfg, s, i) && s[i].pc.Collect1?
    ensures j in s && s[j].pc.Send1? && s[j].pc.todo != {}
  {
    assert OpAt(cfg, s, i);
    PcPeers(cfg, i, s[i].pc);
    j := Missing(Peers(cfg, i), s[i].pc.got.Keys);
    hide PcOk, NetOk, Blamed, Stretch;
    assert Link(s, j, i) && PairAt(cfg, s, j, i);
  }

  lemma Missing(all: set<nat>, some: set<nat>) returns (x: nat)
    requires |some| < |all|
    ensures x in all && x !in some
  {
    Larger(all, some);
    x :| x in all - some;
  }

  lemma IdleCollect2(cfg: Config, s: State, i: nat) returns (j: nat)
    requires Valid(cfg) && Inv(cfg, s) && i in s && Idle(cfg, s, i) && s[i].pc.Collect2?
    ensures j in s && (s[j].pc.Send1? || s[j].pc.Collect1? || (s[j].pc.Send2? && s[j].pc.todo != {}))
  {
    assert OpAt(cfg, s, i);
    PcPeers(cfg, i, s[i].pc);
    j := Missing(Peers(cfg, i), s[i].pc.got.Keys);
    hide PcOk, NetOk, Blamed, Stretch;
    assert Link(s, j, i) && PairAt(cfg, s, j, i);
  }

  lemma IdleWaitFin(cfg: Config, s: State, i: nat) returns (j: nat)
    requires Valid(cfg) && Inv(cfg, s) && i in s && Idle(cfg, s, i) && s[i].pc.WaitFin?
    ensures j in s && !s[j].pc.WaitFin? && (s[j].pc.SendFin? ==> s[j].pc.todo != {})
  {
    assert OpAt(cfg, s, i);
    FinPeers(cfg, i, s[i].pc);
    j := Missing(Peers(cfg, i), s[i].pc.fins);
    hide PcOk, NetOk, Blamed, Stretch, From, Taken;
    assert Link(s, j, i) && PairAt(cfg, s, j, i);
  }

  lemma FinPeers(cfg: Config, i: nat, pc: Driver)
    requires PcOk(cfg, i, pc)
    ensures pc.WaitFin? ==> pc.fins <= Peers(cfg, i)
  {}

  /** An operator still short of the barrier is up, when nobody failed. */
  lemma StillUp(cfg: Config, s: State, j: nat)
    requires Inv(cfg, s) && j in s && !Quit(s, j) && !s[j].pc.WaitFin?
    ensures s[j].life.Up?
  {
    hide PcOk, Blamed, PairAt;
    assert OpAt(cfg, s, j);
  }

  /**
   * No deadlock: as long as nobody failed and somebody is not done, some operator has a step that
   * is neither a deadline nor a failure; a corrupt signer in the barrier counts if its peers' shares fit.
   */
  lemma Progress(cfg: Config, s: State, i: nat) returns (a: Action)
    requires Valid(cfg) && Reachable(cfg, s)
    requires (forall k <- s :: !Quit(s, k)) && i in s && s[i].life.Up? && Unclogged(cfg, i, s[i].pc)
    ensures Enabled(cfg, s, a) && !Fault(a)
  {
    ReachableInv(cfg, s);
    hide Inv, Reachable, Quit, Idle;
    var k := i;
    while Idle(cfg, s, k)
      invariant k in s && s[k].life.Up? && Unclogged(cfg, k, s[k].pc)
      decreases Backlog(s[k].pc)
    {
      if s[k].pc.Sending() {
        BusySender(cfg, s, k);
      }
      var j: nat;
      if s[k].pc.WaitFin? {
        j := IdleWaitFin(cfg, s, k);
      } else if s[k].pc.Collect2? {
        j := IdleCollect2(cfg, s, k);
      } else {
        j := IdleCollect1(cfg, s, k);
      }
      StillUp(cfg, s, j);
      k := j;
    }
    a := NotIdle(cfg, s, k);
  }

  function Backlog(pc: Driver): nat {
    if pc.WaitFin? then 3 else if pc.Collect2? then 2 else if pc.Collect1? then 1 else 0
  }

  lemma BusySender(cfg: Config, s: State, i: nat)
    requires i in s && s[i].pc.Sending()
    ensures !Idle(cfg, s, i)
  {}

  // ---- where the barrier cannot be passed ---------------------------------------------------------

  ghost predicate InboxesFit(s: State) {
    forall i <- s :: |s[i].net.inbox| <= INBOX_CAP
  }

  lemma InboxStep(cfg: Config, s: State, a: Action)
    requires Enabled(cfg, s, a) && InboxesFit(s)
    ensures InboxesFit(Apply(cfg, s, a))
  {
    hide Advanced, Accept, PhaseDone, Outgoing, Peers;
    var t := Apply(cfg, s, a);
    forall k <- t ensures |t[k].net.inbox| <= INBOX_CAP {}
  }

  lemma {:induction false} InboxRun(cfg: Config, s: State, acts: seq<Action>, t: State)
    requires InboxesFit(s) && Runs(cfg, s, acts, t)
    ensures InboxesFit(t)
    decreases |acts|
  {
    hide InboxesFit, Enabled, Apply;
    if acts != [] {
      InboxStep(cfg, s, acts[0]);
      InboxRun(cfg, Apply(cfg, s, acts[0]), acts[1..], t);
    }
  }

  lemma {:induction false} ManySenders(q: seq<Envelope>, senders: set<nat>)
    requires forall k <- senders :: From(q, k) != []
    ensures |q| >= |senders|
  {
    if q == [] {
      assert senders == {};
    } else {
      var k := q[0].from;
      forall b <- senders - {k} ensures From(q[1..], b) != [] {
        assert From(q, b) == [] + From(q[1..], b);
      }
      ManySenders(q[1..], senders - {k});
    }
  }

  /** Every share is read before its sender's FIN, and stays where it is. */
  lemma UnreadShare(cfg: Config, s: State, i: nat, k: nat)
    requires Inv(cfg, s) && i in s && i in cfg.corrupt && s[i].pc.WaitFin? && k in s[i].pc.fins
    ensures From(s[i].net.inbox, k) != []
  {
    assert OpAt(cfg, s, i);
    FinPeers(cfg, i, s[i].pc);
    hide PcOk, NetOk, Blamed, Stretch, From, Sent;
    assert Link(s, k, i) && PairAt(cfg, s, k, i);
  }

  /** With 257 or more peers a corrupt signer never passes the barrier: the last FIN stays behind a share. */
  lemma CorruptNeverCloses(cfg: Config, s: State, i: nat)
    requires Valid(cfg) && Reachable(cfg, s) && i in cfg.corrupt && !Roomy(cfg)
    ensures i in s && s[i].life != Closed(true)
  {
    ReachableInv(cfg, s);
    var acts :| Runs(cfg, Init(cfg), acts, s);
    InboxRun(cfg, Init(cfg), acts, s);
    assert OpAt(cfg, s, i) && |s[i].net.inbox| <= INBOX_CAP;
    hide Inv, Runs, Reachable, PcOk;
    if s[i].life == Closed(true) {
      PeersCount(cfg, i);
      forall k <- s[i].pc.fins ensures From(s[i].net.inbox, k) != [] {
        UnreadShare(cfg, s, i, k);
      }
      ManySenders(s[i].net.inbox, s[i].pc.fins);
    }
  }
}

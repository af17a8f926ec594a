/** The safety theorems of the networked rounds, for every reachable state of every configuration. */
module FrostTheorems {
  import opened Bytes
  import opened Framing
  import opened Transport
  import opened FrostNet
  import opened FrostInvariant

  // ---- the completion barrier ----------------------------------------------------------------

  /**
   * When an operator has closed through the barrier, every peer has its own result, and every
   * honest peer has taken all of the closer's round frames: only a FIN may still be on its way.
   */
  lemma FinBarrier(cfg: Config, s: State, i: nat, j: nat)
    requires Valid(cfg) && Reachable(cfg, s)
    requires i in s && s[i].life == Closed(true) && j in Peers(cfg, i)
    ensures Link(s, i, j) && s[j].net.finished && s[j].pc.Finishing()
    ensures j !in cfg.corrupt ==> From(s[j].net.inbox, i) == [] && forall e <- s[i].wire[j] :: e == FinFrame(cfg, i)
  {
    hide PcOk, Stretch, From, Frame;
    ReachableInv(cfg, s);
    assert OpAt(cfg, s, i) && Link(s, j, i) && Link(s, i, j);
    ClosedAfterFinished(cfg, s, j, i);
    assert PairAt(cfg, s, i, j);
    if j !in cfg.corrupt {
      LastFrames(cfg, s, i, j);
    }
  }

  lemma LastFrames(cfg: Config, s: State, i: nat, j: nat)
    requires Link(s, i, j) && PairAt(cfg, s, i, j) && j !in cfg.corrupt
    requires s[i].pc.WaitFin? && s[j].pc.Finishing()
    ensures From(s[j].net.inbox, i) == []
    ensures forall e <- s[i].wire[j] :: e == FinFrame(cfg, i)
  {
    hide From;
    var link := s[i].wire[j];
    assert |link| <= 1;
    if |link| == 1 {
      assert link[0] == Frame(cfg, i, j, 2 + 0);
    }
  }

  /** While no operator has failed or left the barrier early, no reader reports a disconnect. */
  lemma NoSpuriousDisconnect(cfg: Config, s: State, i: nat)
    requires Valid(cfg) && Reachable(cfg, s) && i in s
    requires forall k <- s :: !Quit(s, k)
    ensures s[i].net.errs == 0
  {
    ReachableInv(cfg, s);
    hide OpAt, PairAt, Quit;
    assert Blamed(s, i);
  }

  /** Even when peers fail, a FIN read off a link is always recorded, never dropped. */
  lemma FinNeverDropped(cfg: Config, s: State, i: nat, j: nat)
    requires Valid(cfg) && Reachable(cfg, s) && Enabled(cfg, s, Read(i, j)) && s[j].wire[i][0].fin
    ensures Apply(cfg, s, Read(i, j))[i].net.finCh == s[i].net.finCh + [j]
  {
    ReachableInv(cfg, s);
    hide PcOk, PairOk, Blamed;
    assert OpAt(cfg, s, i) && Link(s, j, i);
    FrontFrame(cfg, s, i, j);
    FrameFields(cfg, j, i);
    hide Frame;
    FinChannelHasRoom(cfg, i, s[i]);
  }

  // ---- how far apart operators can be ----------------------------------------------------------

  /** 1 and 2 while a driver sends or collects that round, 3 once it has its result. */
  function Round(pc: Driver): nat {
    match pc
    case Send1(_) => 1
    case Collect1(_) => 1
    case Send2(_, _, _) => 2
    case Collect2(_, _, _) => 2
    case _ => 3
  }

  function FrameRound(cfg: Config, e: Envelope): nat {
    if e.fin then 3 else if e.payload != [] && e.payload[0] == Tag(cfg.kind, 2) then 2 else 1
  }

  lemma FrameRounds(cfg: Config, i: nat, j: nat)
    ensures forall r :: 0 <= r < 3 ==> FrameRound(cfg, Frame(cfg, i, j, r)) == r + 1
  {
    hide Out, At;
  }

  /** An honest operator is at most one round ahead of any other, whatever failed meanwhile. */
  lemma RoundSkew(cfg: Config, s: State, i: nat, j: nat)
    requires Valid(cfg) && Reachable(cfg, s) && i in s && j in s && i !in cfg.corrupt
    ensures Round(s[i].pc) <= Round(s[j].pc) + 1
  {
    if i != j {
      ReachableInv(cfg, s);
      hide PcOk, NetOk, Blamed, From, Stretch;
      assert Link(s, j, i) && PairAt(cfg, s, j, i);
    }
  }

  lemma RoundCounts(pc: Driver, k: nat)
    ensures Round(pc) - 1 <= Taken(false, pc, k) <= 2 && 1 <= Round(pc)
  {}

  /** A round frame still on a link or in an inbox is of its receiver's round or the next one. */
  lemma FramesAreCurrentOrNext(cfg: Config, s: State, i: nat, j: nat, e: Envelope)
    requires Valid(cfg) && Reachable(cfg, s) && Link(s, i, j) && !e.fin && j !in cfg.corrupt
    requires e in s[i].wire[j] || e in From(s[j].net.inbox, i)
    ensures Round(s[j].pc) <= FrameRound(cfg, e) <= Round(s[j].pc) + 1
  {
    ReachableInv(cfg, s);
    FrameRounds(cfg, i, j);
    FrameFields(cfg, i, j);
    RoundCounts(s[j].pc, i);
    hide OpAt, Blamed, From, Frame, FrameRound, Round, Sent, Taken, FinSeen;
    assert PairAt(cfg, s, i, j);
    var r := ScriptIndex(cfg, i, j, s[i].pc, s[i].wire[j], s[j], e);
  }

  lemma ScriptIndex(cfg: Config, i: nat, j: nat, pc: Driver, link: seq<Envelope>, op: Op, e: Envelope) returns (r: nat)
    requires PairOk(cfg, i, j, pc, link, op) && (e in link || e in From(op.net.inbox, i))
    ensures Taken(j in cfg.corrupt, op.pc, i) <= r < 3 && e == Frame(cfg, i, j, r)
  {
    hide From, Frame, Taken, FinSeen;
    if e in link {
      var x :| 0 <= x < |link| && link[x] == e;
      r := Sent(pc, j) - |link| + x;
    } else {
      var x :| 0 <= x < |From(op.net.inbox, i)| && From(op.net.inbox, i)[x] == e;
      r := Taken(j in cfg.corrupt, op.pc, i) + x;
    }
  }

  // ---- what collectRound can reject ------------------------------------------------------------

  ghost predicate RejectsHead(cfg: Config, s: State, i: nat) {
    Enabled(cfg, s, Take(i))
    && Accept(Peers(cfg, i), CurrentTag(cfg, s[i].pc), s[i].pc.got, s[i].net.inbox[0]).Rejected?
  }

  /**
   * The only rejection that can happen is a wrong tag in the first collection, on a second-round
   * frame from a peer whose first round is already in, while another peer's is still missing.
   */
  lemma OnlyEarlyFramesRejected(cfg: Config, s: State, i: nat)
    requires Valid(cfg) && Reachable(cfg, s) && RejectsHead(cfg, s, i)
    ensures Apply(cfg, s, Take(i))[i].life == Failed(WrongTag)
    ensures s[i].pc.Collect1? && FrameRound(cfg, s[i].net.inbox[0]) == 2
    ensures s[i].net.inbox[0].from in s[i].pc.got && s[i].pc.got.Keys < Peers(cfg, i)
  {
    ReachableInv(cfg, s);
    HeadFrame(cfg, s, i);
    assert OpAt(cfg, s, i);
    hide PcOk, NetOk, Blamed, PairAt, Frame, FrameRound, Taken;
    RejectedHead(cfg, i, s[i].pc, s[i].net.inbox[0]);
  }

  lemma RejectedHead(cfg: Config, i: nat, pc: Driver, e: Envelope)
    requires pc.Collecting() && PcOk(cfg, i, pc) && !PhaseDone(cfg, i, pc) && e.from in Peers(cfg, i)
    requires Taken(i in cfg.corrupt, pc, e.from) < 2 && e == Frame(cfg, e.from, i, Taken(i in cfg.corrupt, pc, e.from))
    requires Accept(Peers(cfg, i), CurrentTag(cfg, pc), pc.got, e).Rejected?
    ensures Accept(Peers(cfg, i), CurrentTag(cfg, pc), pc.got, e) == Rejected(WrongTag)
    ensures pc.Collect1? && FrameRound(cfg, e) == 2 && e.from in pc.got && pc.got.Keys < Peers(cfg, i)
  {
    FrameRounds(cfg, e.from, i);
    hide Out, At, Lists, View1, FrameRound;
    assert pc.got.Keys != Peers(cfg, i);
  }

  /** With at most two participants there is nobody to wait for while a fast peer runs ahead. */
  lemma TwoNeverReject(cfg: Config, s: State, i: nat)
    requires Valid(cfg) && Reachable(cfg, s) && |cfg.ops| <= 2
    ensures !RejectsHead(cfg, s, i)
  {
    if RejectsHead(cfg, s, i) {
      OnlyEarlyFramesRejected(cfg, s, i);
      ReachableInv(cfg, s);
      hide Inv, RejectsHead;
      var k := s[i].net.inbox[0].from;
      var m :| m in Peers(cfg, i) && m !in s[i].pc.got;
      ThreeOps(cfg.ops, i, k, m);
    }
  }

  lemma ThreeOps(ops: set<nat>, i: nat, k: nat, m: nat)
    requires i in ops && k in ops && m in ops && i != k && i != m && k != m
    ensures |ops| >= 3
  {
    Fewer({i, k, m}, ops);
  }
}

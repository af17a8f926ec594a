/**
 * When a run can abort with nobody at fault: exactly when there are three or more participants.
 * A fast operator that already holds every first-round frame can send its second round to one that
 * still waits for a third operator, and `collectRound` refuses the frame.
 */
module FrostEarly {
  import opened Bytes
  import opened Framing
  import opened Transport
  import opened FrostNet
  import opened FrostInvariant
  import opened FrostTheorems

  predicate Rejection(life: Life) {
    life.Failed? && (life.why == WrongSender || life.why == WrongTag || life.why == Duplicate)
  }

  /** No run, not even one with deadlines and failures, has `collectRound` reject a frame. */
  ghost predicate AbortFree(cfg: Config) {
    forall s: State, i: nat :: Reachable(cfg, s) && i in s ==> !Rejection(s[i].life)
  }

  // ---- runs grow at the end --------------------------------------------------------------------

  lemma {:induction false} RunsSnoc(cfg: Config, s: State, acts: seq<Action>, t: State, a: Action)
    requires Runs(cfg, s, acts, t) && Enabled(cfg, t, a)
    ensures Runs(cfg, s, acts + [a], Apply(cfg, t, a))
    decreases |acts|
  {
    hide Enabled, Apply;
    if acts == [] {
      assert acts + [a] == [a];
      assert [a][1..] == [];
      assert Runs(cfg, Apply(cfg, t, a), [], Apply(cfg, t, a));
    } else {
      assert (acts + [a])[1..] == acts[1..] + [a] && (acts + [a])[0] == acts[0];
      RunsSnoc(cfg, Apply(cfg, s, acts[0]), acts[1..], t, a);
    }
  }

  lemma ReachableStep(cfg: Config, s: State, a: Action)
    requires Reachable(cfg, s) && Enabled(cfg, s, a)
    ensures Reachable(cfg, Apply(cfg, s, a))
  {
    hide Enabled, Apply, Runs;
    var acts :| Runs(cfg, Init(cfg), acts, s);
    RunsSnoc(cfg, Init(cfg), acts, s, a);
  }

  lemma CalmStep(cfg: Config, s: State, a: Action)
    requires CalmReachable(cfg, s) && Enabled(cfg, s, a) && !Fault(a)
    ensures CalmReachable(cfg, Apply(cfg, s, a))
  {
    hide Enabled, Apply, Runs, Fault;
    var acts :| Runs(cfg, Init(cfg), acts, s) && forall b <- acts :: !Fault(b);
    RunsSnoc(cfg, Init(cfg), acts, s, a);
    assert forall b <- acts + [a] :: b in acts || b == a;
  }

  lemma CalmIsReachable(cfg: Config, s: State)
    requires CalmReachable(cfg, s)
    ensures Reachable(cfg, s)
  {
    hide Runs;
  }

  // ---- two participants ------------------------------------------------------------------------

  lemma StepRejects(cfg: Config, s: State, a: Action, i: nat)
    requires Enabled(cfg, s, a) && i in s && !Rejection(s[i].life)
    requires i in Apply(cfg, s, a) && Rejection(Apply(cfg, s, a)[i].life)
    ensures RejectsHead(cfg, s, i)
  {
    hide Advanced, OnFrame, OnClosed, Accept, Outgoing, PhaseDone;
    assert a.i == i;
    if a.Step? && !s[i].pc.WaitFin? {
      StopIsCrypto(cfg, i, s[i].pc, a.order);
    }
  }

  lemma StopIsCrypto(cfg: Config, i: nat, pc: Driver, order: seq<nat>)
    ensures Advanced(cfg, i, pc, order).Stop? ==> Advanced(cfg, i, pc, order).why == Crypto
  {
    hide Received, Listed, Encode;
  }

  lemma {:induction false} TwoRun(cfg: Config, s: State, acts: seq<Action>, t: State)
    requires Valid(cfg) && |cfg.ops| <= 2 && Reachable(cfg, s) && Runs(cfg, s, acts, t)
    requires forall i <- s :: !Rejection(s[i].life)
    ensures forall i <- t :: !Rejection(t[i].life)
    decreases |acts|
  {
    if acts != [] {
      var u := Apply(cfg, s, acts[0]);
      ReachableStep(cfg, s, acts[0]);
      assert u.Keys == s.Keys by {
        ReachableInv(cfg, s);
        ReachableInv(cfg, u);
      }
      hide Enabled, Apply, Rejection, RejectsHead, Reachable;
      forall i | i in u ensures !Rejection(u[i].life) {
        if Rejection(u[i].life) {
          StepRejects(cfg, s, acts[0], i);
          TwoNeverReject(cfg, s, i);
        }
      }
      TwoRun(cfg, u, acts[1..], t);
    }
  }

  // ---- three or more: a run in which a fast peer is refused --------------------------------------

  lemma CalmOp(cfg: Config, s: State, i: nat)
    requires Valid(cfg) && CalmReachable(cfg, s) && i in s
    ensures Inv(cfg, s) && s.Keys == cfg.ops && PcOk(cfg, i, s[i].pc) && NetOk(cfg, i, s[i]) && Blamed(s, i)
  {
    CalmIsReachable(cfg, s);
    ReachableInv(cfg, s);
    hide PcOk, NetOk, Blamed, PairAt;
    assert OpAt(cfg, s, i);
  }

  lemma NotFault(a: Action)
    requires a.Write? || a.Step? || a.Read? || a.Take?
    ensures !Fault(a)
  {}

  lemma TakeAccepted(cfg: Config, s: State, i: nat, got: map<nat, Bytes>)
    requires i in s && s[i].life.Up? && s[i].pc.Collecting() && !PhaseDone(cfg, i, s[i].pc) && s[i].net.inbox != []
    requires Accept(Peers(cfg, i), CurrentTag(cfg, s[i].pc), s[i].pc.got, s[i].net.inbox[0]) == Kept(got)
    ensures Enabled(cfg, s, Take(i))
    ensures Apply(cfg, s, Take(i))
         == s[i := s[i].(pc := s[i].pc.(got := got), net := s[i].net.(inbox := s[i].net.inbox[1..]))]
  {
    hide Accept, PhaseDone;
  }

  lemma ReadEffect(cfg: Config, s: State, i: nat, j: nat)
    requires Link(s, j, i) && s[i].life.Up? && j !in s[i].net.gone && s[j].wire[i] != [] && |s[i].net.inbox| < INBOX_CAP
    requires var e := s[j].wire[i][0]; e.from == j && e.session == cfg.session && !e.fin
    ensures Enabled(cfg, s, Read(i, j))
    ensures Apply(cfg, s, Read(i, j))
         == s[i := s[i].(net := s[i].net.(inbox := s[i].net.inbox + [s[j].wire[i][0]]))][j := Shifted(s[j], i)]
  {}

  lemma TakeRefused(cfg: Config, s: State, i: nat, why: Why)
    requires i in s && s[i].life.Up? && s[i].pc.Collecting() && !PhaseDone(cfg, i, s[i].pc) && s[i].net.inbox != []
    requires Accept(Peers(cfg, i), CurrentTag(cfg, s[i].pc), s[i].pc.got, s[i].net.inbox[0]) == Rejected(why)
    ensures Enabled(cfg, s, Take(i)) && Apply(cfg, s, Take(i)) == s[i := s[i].(life := Failed(why))]
  {
    hide Accept, PhaseDone;
  }

  lemma WriteOne(cfg: Config, s: State, i: nat, j: nat) returns (t: State)
    requires Valid(cfg) && CalmReachable(cfg, s) && i in s && s[i].life.Up? && s[i].pc.Sending() && j in s[i].pc.todo
    ensures CalmReachable(cfg, t) && Moved(s, t, i) && t[i].net == s[i].net && t[i].life.Up?
    ensures t[i].pc == s[i].pc.(todo := s[i].pc.todo - {j}) && t[i].wire.Keys == s[i].wire.Keys
    ensures forall k <- s[i].wire :: |t[i].wire[k]| == |s[i].wire[k]| + (if k == j then 1 else 0)
  {
    CalmOp(cfg, s, i);
    PcPeers(cfg, i, s[i].pc);
    hide NetOk, Blamed, PairAt, Outgoing, CalmReachable, PcOk;
    assert Link(s, i, j);
    hide Inv;
    CalmStep(cfg, s, Write(i, j));
    t := Apply(cfg, s, Write(i, j));
  }

  /** `i` writes its current frame to everyone it still has to. */
  lemma {:induction false} Broadcast(cfg: Config, s: State, i: nat) returns (t: State)
    requires Valid(cfg) && CalmReachable(cfg, s) && i in s && s[i].life.Up? && s[i].pc.Sending()
    ensures CalmReachable(cfg, t) && Moved(s, t, i)
    ensures t[i].pc == s[i].pc.(todo := {}) && t[i].net == s[i].net && t[i].life.Up?
    ensures t[i].wire.Keys == s[i].wire.Keys
    ensures forall j <- s[i].wire :: |t[i].wire[j]| == |s[i].wire[j]| + (if j in s[i].pc.todo then 1 else 0)
    decreases s[i].pc.todo
  {
    hide CalmReachable;
    if s[i].pc.todo == {} {
      t := s;
    } else {
      var j :| j in s[i].pc.todo;
      var u := WriteOne(cfg, s, i, j);
      t := Broadcast(cfg, u, i);
    }
  }

  lemma PcPeers(cfg: Config, i: nat, pc: Driver)
    requires PcOk(cfg, i, pc)
    ensures pc.Sending() ==> pc.todo <= Peers(cfg, i)
    ensures pc.Collecting() ==> pc.got.Keys <= Peers(cfg, i)
  {}

  /** `k` has written its first-round frame to `f` and `f` has not read it. */
  ghost predicate Waiting(op: Op, f: nat) {
    op.life.Up? && Sent(op.pc, f) == 1 && f in op.wire && |op.wire[f]| == 1
  }

  lemma {:induction false} SendTo(cfg: Config, s: State, f: nat, rest: set<nat>) returns (t: State)
    requires Valid(cfg) && CalmReachable(cfg, s) && f in cfg.ops && f !in rest && rest <= s.Keys
    requires forall k <- rest :: s[k] == Start(cfg, k)
    ensures CalmReachable(cfg, t) && t.Keys == s.Keys
    ensures forall k <- rest :: Waiting(t[k], f)
    ensures forall k <- s :: k !in rest ==> t[k] == s[k]
    decreases rest
  {
    if rest == {} {
      t := s;
    } else {
      var k :| k in rest;
      assert s[k] == Start(cfg, k);
      var u := WriteOne(cfg, s, k, f);
      assert Waiting(u[k], f);
      hide Start, Waiting;
      t := SendTo(cfg, u, f, rest - {k});
    }
  }

  // ---- the fast peer collects ------------------------------------------------------------------

  lemma StepOne(cfg: Config, s: State, i: nat, order: seq<nat>) returns (t: State)
    requires Valid(cfg) && CalmReachable(cfg, s) && i in s && s[i].life.Up?
    requires s[i].pc.Send1? || s[i].pc.Collect1?
    requires PhaseDone(cfg, i, s[i].pc) && (s[i].pc.Collecting() ==> Enumerates(order, s[i].pc.got.Keys))
    ensures CalmReachable(cfg, t) && Moved(s, t, i)
    ensures t[i].life.Up? && t[i].net == s[i].net && t[i].wire == s[i].wire
    ensures s[i].pc.Send1? ==> t[i].pc == Collect1(map[])
    ensures s[i].pc.Collect1? ==> t[i].pc.Send2? && t[i].pc.todo == Peers(cfg, i)
  {
    hide NetOk, Blamed, CalmReachable, Inv, Advanced, PcOk, Valid, PhaseDone, Enumerates;
    CalmOp(cfg, s, i);
    FirstAdvance(cfg, i, s[i].pc, order);
    hide Enabled, Apply;
    StepEffect(cfg, s, i, order, Advanced(cfg, i, s[i].pc, order).pc);
    CalmStep(cfg, s, Step(i, order));
    t := Apply(cfg, s, Step(i, order));
  }

  lemma StepEffect(cfg: Config, s: State, i: nat, order: seq<nat>, pc: Driver)
    requires i in s && s[i].life.Up? && !s[i].pc.WaitFin? && PhaseDone(cfg, i, s[i].pc)
    requires s[i].pc.Collecting() ==> Enumerates(order, s[i].pc.got.Keys)
    requires Advanced(cfg, i, s[i].pc, order) == Go(pc) && !pc.SendFin?
    ensures Enabled(cfg, s, Step(i, order))
    ensures Apply(cfg, s, Step(i, order)) == s[i := s[i].(pc := pc)]
  {
    hide Advanced, PhaseDone, Enumerates;
  }

  lemma FirstAdvance(cfg: Config, i: nat, pc: Driver, order: seq<nat>)
    requires Valid(cfg) && i in cfg.ops && PcOk(cfg, i, pc) && (pc.Send1? || pc.Collect1?)
    requires PhaseDone(cfg, i, pc) && (pc.Collecting() ==> Enumerates(order, pc.got.Keys))
    ensures var a := Advanced(cfg, i, pc, order);
            && a.Go? && (pc.Send1? ==> a.pc == Collect1(map[]))
            && (pc.Collect1? ==> a.pc.Send2? && a.pc.todo == Peers(cfg, i))
  {
    hide Listed, Received, Encode;
    if pc.Collect1? {
      FullFins(cfg, pc, i);
      FirstView(cfg, i, pc.got, order);
    }
  }

  lemma NotGone(s: State, i: nat, j: nat)
    requires i in s && j in s && Blamed(s, i) && s[j].life.Up?
    ensures j !in s[i].net.gone
  {}

  /** A reader with room takes the oldest frame of a live peer. */
  lemma ReadOne(cfg: Config, s: State, i: nat, j: nat) returns (t: State)
    requires Valid(cfg) && CalmReachable(cfg, s) && Link(s, j, i) && s[i].life.Up? && s[j].life.Up?
    requires |s[i].net.inbox| < INBOX_CAP && s[j].wire[i] != [] && Sent(s[j].pc, i) <= 2
    ensures CalmReachable(cfg, t) && t.Keys == s.Keys && (forall k <- s :: k != i && k != j ==> t[k] == s[k])
    ensures t[j] == Shifted(s[j], i) && s[j].wire[i][0].from == j
    ensures t[i] == s[i].(net := s[i].net.(inbox := s[i].net.inbox + [s[j].wire[i][0]]))
  {
    hide Valid, CalmReachable, Sent, Apply, Enabled, Fault;
    Readable(cfg, s, i, j);
    ReadEffect(cfg, s, i, j);
    NotFault(Read(i, j));
    CalmStep(cfg, s, Read(i, j));
    t := Apply(cfg, s, Read(i, j));
  }

  lemma Readable(cfg: Config, s: State, i: nat, j: nat)
    requires Valid(cfg) && CalmReachable(cfg, s) && Link(s, j, i) && s[j].life.Up?
    requires s[j].wire[i] != [] && Sent(s[j].pc, i) <= 2
    ensures j !in s[i].net.gone
    ensures var e := s[j].wire[i][0]; e.from == j && e.session == cfg.session && !e.fin
  {
    CalmOp(cfg, s, i);
    NotGone(s, i, j);
    hide OpAt, Blamed, CalmReachable, Inv, Valid, Sent;
    NextOnLink(cfg, s, i, j);
  }

  lemma NextOnLink(cfg: Config, s: State, i: nat, j: nat)
    requires Inv(cfg, s) && Link(s, j, i) && s[j].wire[i] != [] && Sent(s[j].pc, i) <= 2
    ensures var e := s[j].wire[i][0]; e.from == j && e.session == cfg.session && !e.fin
  {
    FrontFrame(cfg, s, i, j);
    FrameFields(cfg, j, i);
    hide Frame, Inv, Sent, FinSeen;
  }

  /** A driver in its first collection accepts a first-round frame it does not have yet. */
  lemma TakeOne(cfg: Config, s: State, i: nat) returns (t: State)
    requires Valid(cfg) && CalmReachable(cfg, s) && i in s && s[i].life.Up? && s[i].pc.Collect1?
    requires s[i].net.inbox != [] && s[i].net.inbox[0].from !in s[i].pc.got
    ensures CalmReachable(cfg, t) && Moved(s, t, i) && t[i].life.Up? && t[i].wire == s[i].wire
    ensures t[i].pc.Collect1? && t[i].pc.got.Keys == s[i].pc.got.Keys + {s[i].net.inbox[0].from}
    ensures t[i].net == s[i].net.(inbox := s[i].net.inbox[1..])
  {
    CalmOp(cfg, s, i);
    hide NetOk, Blamed, CalmReachable, Inv, Accept, PhaseDone, Apply, Enabled, PcOk, Frame, Taken, Fault;
    var e := s[i].net.inbox[0];
    HeadFrame(cfg, s, i);
    FirstAccepted(cfg, i, s[i].pc, e);
    TakeAccepted(cfg, s, i, s[i].pc.got[e.from := e.payload[1..]]);
    NotFault(Take(i));
    CalmStep(cfg, s, Take(i));
    t := Apply(cfg, s, Take(i));
  }

  lemma FirstAccepted(cfg: Config, i: nat, pc: Driver, e: Envelope)
    requires PcOk(cfg, i, pc) && pc.Collect1? && e.from in Peers(cfg, i) && e.from !in pc.got
    requires e == Frame(cfg, e.from, i, Taken(i in cfg.corrupt, pc, e.from))
    ensures !PhaseDone(cfg, i, pc)
    ensures Accept(Peers(cfg, i), CurrentTag(cfg, pc), pc.got, e) == Kept(pc.got[e.from := e.payload[1..]])
  {
    if |pc.got| >= |Peers(cfg, i)| {
      SubsetFull(pc.got.Keys, Peers(cfg, i));
    }
  }

  /** Nothing but the link towards `f` changed. */
  ghost predicate SameBut(op: Op, op': Op, f: nat) {
    op'.pc == op.pc && op'.net == op.net && op'.life == op.life && op'.wire.Keys == op.wire.Keys
    && forall j <- op.wire :: j != f ==> op'.wire[j] == op.wire[j]
  }

  ghost predicate OthersSame(s: State, t: State, f: nat) {
    t.Keys == s.Keys && forall k {:trigger SameBut(s[k], t[k], f)} :: k in s && k != f ==> SameBut(s[k], t[k], f)
  }

  /** The fast peer reads and takes the first round of one other operator. */
  lemma CollectOne(cfg: Config, s: State, f: nat, k: nat) returns (t: State)
    requires Valid(cfg) && CalmReachable(cfg, s) && f in s && s[f].life.Up? && s[f].pc.Collect1?
    requires s[f].net.inbox == [] && k in s && k != f && k !in s[f].pc.got && Waiting(s[k], f)
    ensures CalmReachable(cfg, t) && OthersSame(s, t, f) && (forall b <- s :: b != f && b != k ==> t[b] == s[b])
    ensures t[f].pc.Collect1? && t[f].pc.got.Keys == s[f].pc.got.Keys + {k} && t[f].net.inbox == []
    ensures t[f].life.Up? && t[f].wire == s[f].wire
  {
    hide CalmReachable;
    var u := ReadOne(cfg, s, f, k);
    t := TakeOne(cfg, u, f);
    assert [u[f].net.inbox[0]][1..] == [];
    assert SameBut(s[k], t[k], f);
  }

  lemma {:induction false} CollectAll(cfg: Config, s: State, f: nat, rest: set<nat>) returns (t: State)
    requires Valid(cfg) && CalmReachable(cfg, s) && f in s && s[f].life.Up? && s[f].pc.Collect1?
    requires s[f].net.inbox == [] && rest <= s.Keys - {f} && s[f].pc.got.Keys !! rest
    requires forall k <- rest :: Waiting(s[k], f)
    ensures CalmReachable(cfg, t) && OthersSame(s, t, f)
    ensures t[f].pc.Collect1? && t[f].pc.got.Keys == s[f].pc.got.Keys + rest && t[f].net.inbox == []
    ensures t[f].life.Up? && t[f].wire == s[f].wire
    decreases rest
  {
    hide CalmReachable, Waiting;
    if rest == {} {
      t := s;
    } else {
      var k :| k in rest;
      assert Waiting(s[k], f);
      var u := CollectOne(cfg, s, f, k);
      t := CollectAll(cfg, u, f, rest - {k});
      forall b | b in s && b != f ensures SameBut(s[b], t[b], f) {
        assert SameBut(s[b], u[b], f) && SameBut(u[b], t[b], f);
      }
    }
  }

  lemma {:induction false} AnOrder(keys: set<nat>) returns (order: seq<nat>)
    ensures Enumerates(order, keys)
  {
    if keys == {} {
      order := [];
    } else {
      var k :| k in keys;
      var rest := AnOrder(keys - {k});
      order := [k] + rest;
      assert forall x <- order :: x == k || x in rest;
      assert forall x <- keys :: x == k || x in rest;
    }
  }

  // ---- the refusal -----------------------------------------------------------------------------

  lemma InitCalm(cfg: Config)
    ensures CalmReachable(cfg, Init(cfg))
  {
    assert Runs(cfg, Init(cfg), [], Init(cfg));
  }

  /** The slow operator's own broadcast, the fast peer's, and everyone else's frame to the fast peer. */
  lemma Opening(cfg: Config, f: nat, v: nat) returns (t: State)
    requires Valid(cfg) && f in cfg.ops && v in cfg.ops && f != v
    ensures CalmReachable(cfg, t) && t.Keys == cfg.ops
    ensures t[f].pc == Send1({}) && t[f].life.Up? && t[f].net.inbox == [] && v in t[f].wire && |t[f].wire[v]| == 1
    ensures t[v].pc == Send1({}) && t[v].life.Up? && t[v].net.inbox == []
    ensures forall k <- Peers(cfg, f) :: Waiting(t[k], f)
  {
    hide CalmReachable, Valid;
    InitCalm(cfg);
    var s := Init(cfg);
    Fresh(cfg, s, f, v);
    hide Init, Start;
    var s1 := Broadcast(cfg, s, f);
    var s2 := Broadcast(cfg, s1, v);
    assert Waiting(s2[v], f) && s2[f] == s1[f];
    forall k | k in cfg.ops - {f, v} ensures s2[k] == Start(cfg, k) {
      assert s2[k] == s1[k] == s[k];
    }
    hide Waiting;
    t := SendTo(cfg, s2, f, cfg.ops - {f, v});
    assert t[v] == s2[v] && t[f] == s2[f];
  }

  lemma Fresh(cfg: Config, s: State, f: nat, v: nat)
    requires s == Init(cfg) && f in cfg.ops && v in cfg.ops && f != v
    ensures s.Keys == cfg.ops && forall k <- cfg.ops :: s[k] == Start(cfg, k)
    ensures s[f].life.Up? && s[f].pc == Send1(Peers(cfg, f)) && s[f].net.inbox == []
    ensures s[v].life.Up? && s[v].pc == Send1(Peers(cfg, v)) && s[v].net.inbox == []
    ensures v in s[f].wire && s[f].wire[v] == [] && f in s[v].wire && s[v].wire[f] == []
  {}

  /** Then the fast peer collects everybody's first round. */
  lemma CatchUp(cfg: Config, f: nat, v: nat) returns (t: State)
    requires Valid(cfg) && f in cfg.ops && v in cfg.ops && f != v
    ensures CalmReachable(cfg, t) && f in t && v in t && v in t[f].wire
    ensures t[f].pc.Collect1? && t[f].pc.got.Keys == Peers(cfg, f) && t[f].life.Up? && |t[f].wire[v]| == 1
    ensures t[v].pc == Send1({}) && t[v].life.Up? && t[v].net.inbox == []
  {
    var s := Opening(cfg, f, v);
    hide Waiting, CalmReachable;
    var s1 := StepOne(cfg, s, f, []);
    forall k | k in Peers(cfg, f) ensures Waiting(s1[k], f) {
      assert Waiting(s[k], f);
    }
    t := CollectAll(cfg, s1, f, Peers(cfg, f));
    assert SameBut(s1[v], t[v], f);
  }

  /** And sends `v` its second, behind the first. */
  lemma RunAhead(cfg: Config, f: nat, v: nat) returns (t: State)
    requires Valid(cfg) && f in cfg.ops && v in cfg.ops && f != v
    ensures CalmReachable(cfg, t) && f in t && v in t && v in t[f].wire
    ensures t[f].life.Up? && t[f].pc.Send2? && v !in t[f].pc.todo && |t[f].wire[v]| == 2
    ensures t[v].pc == Send1({}) && t[v].life.Up? && t[v].net.inbox == []
  {
    var s := CatchUp(cfg, f, v);
    hide CalmReachable;
    var order := AnOrder(Peers(cfg, f));
    var s1 := StepOne(cfg, s, f, order);
    t := WriteOne(cfg, s1, f, v);
  }

  /** `v` starts collecting, reads both frames of the fast peer and takes the first. */
  lemma Trapped(cfg: Config, f: nat, v: nat) returns (t: State)
    requires Valid(cfg) && f in cfg.ops && v in cfg.ops && f != v
    ensures CalmReachable(cfg, t) && v in t && t[v].life.Up? && t[v].pc.Collect1? && t[v].pc.got.Keys == {f}
    ensures |t[v].net.inbox| == 1 && t[v].net.inbox[0].from == f
  {
    var s := RunAhead(cfg, f, v);
    hide CalmReachable;
    var s1 := StepOne(cfg, s, v, []);
    var s2 := ReadOne(cfg, s1, v, f);
    var s3 := ReadOne(cfg, s2, v, f);
    t := TakeOne(cfg, s3, v);
  }

  /** With a third operator still missing, the fast peer's second round is refused. */
  lemma ThreeCanAbort(cfg: Config, f: nat, v: nat, c: nat) returns (t: State)
    requires Valid(cfg) && f in cfg.ops && v in cfg.ops && c in cfg.ops && f != v && f != c && v != c
    ensures CalmReachable(cfg, t) && v in t && t[v].life == Failed(WrongTag)
  {
    var s := Trapped(cfg, f, v);
    CalmOp(cfg, s, v);
    StillMissing(cfg, v, f, c, s[v].pc);
    hide *;
    HeadFrame(cfg, s, v);
    SecondRefused(cfg, v, s[v].pc, s[v].net.inbox[0]);
    TakeRefused(cfg, s, v, WrongTag);
    NotFault(Take(v));
    CalmStep(cfg, s, Take(v));
    t := Apply(cfg, s, Take(v));
  }

  lemma StillMissing(cfg: Config, v: nat, f: nat, c: nat, pc: Driver)
    requires pc.Collect1? && pc.got.Keys == {f} && f in Peers(cfg, v) && c in Peers(cfg, v) && f != c
    ensures !PhaseDone(cfg, v, pc)
  {
    assert |pc.got| == |pc.got.Keys| == 1;
    Fewer({f, c}, Peers(cfg, v));
  }

  lemma SecondRefused(cfg: Config, i: nat, pc: Driver, e: Envelope)
    requires pc.Collect1? && e.from in Peers(cfg, i) && e.from in pc.got
    requires e == Frame(cfg, e.from, i, Taken(i in cfg.corrupt, pc, e.from))
    ensures Accept(Peers(cfg, i), CurrentTag(cfg, pc), pc.got, e) == Rejected(WrongTag)
  {
    hide Out, At;
  }

  /** A run of honest or corrupt operators is free of rejected frames exactly when at most two take part. */
  lemma AbortFreeIff(cfg: Config)
    requires Valid(cfg)
    ensures AbortFree(cfg) <==> |cfg.ops| <= 2
  {
    if |cfg.ops| <= 2 {
      forall s: State, i: nat | Reachable(cfg, s) && i in s ensures !Rejection(s[i].life) {
        var acts :| Runs(cfg, Init(cfg), acts, s);
        assert Runs(cfg, Init(cfg), [], Init(cfg));
        TwoRun(cfg, Init(cfg), acts, s);
      }
    } else {
      var f :| f in cfg.ops;
      Larger(cfg.ops, {f});
      var v :| v in cfg.ops - {f};
      Larger(cfg.ops, {f, v});
      var c :| c in cfg.ops - {f, v};
      var t := ThreeCanAbort(cfg, f, v, c);
      CalmIsReachable(cfg, t);
    }
  }

  lemma Larger(a: set<nat>, b: set<nat>)
    requires |a| > |b|
    ensures a - b != {}
  {
    if a <= b {
      Fewer(a, b);
    } else {
      var x :| x in a && x !in b;
      assert x in a - b;
    }
  }
}

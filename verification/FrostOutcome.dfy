/** How a run ends: completion of calm runs, agreement of the signers, delivery of the key shares. */
module FrostOutcome {
  import opened Framing
  import opened FrostNet
  import opened FrostInvariant
  import opened FrostTheorems
  import opened FrostEarly
  import opened FrostLive

  ghost predicate NobodyQuit(s: State) {
    forall k {:trigger Quit(s, k)} :: k in s ==> !Quit(s, k)
  }

  /** The FROST calls of honest participants on honest inputs do not fail. */
  ghost predicate Sound(cfg: Config) {
    forall i <- cfg.ops :: i !in cfg.corrupt ==> !Judged(cfg, i).Refused?
  }

  lemma AdvancedGoes(cfg: Config, i: nat, pc: Driver, order: seq<nat>)
    requires Valid(cfg) && Sound(cfg) && i in cfg.ops && PcOk(cfg, i, pc) && PhaseDone(cfg, i, pc) && !pc.WaitFin?
    requires pc.Collecting() ==> Enumerates(order, pc.got.Keys)
    ensures Advanced(cfg, i, pc, order).Go?
  {
    hide Lists, Received, Encode, Listed, View1, View2, At;
    FullFins(cfg, pc, i);
    match pc
    case Collect1(got) => FirstView(cfg, i, got, order);
    case Collect2(items1, out, got) => SecondView(cfg, i, items1, out, got, order);
    case _ =>
  }

  /** Without deadlines or injected failures the first thing to go wrong is an early frame. */
  lemma FirstFailure(cfg: Config, s: State, a: Action)
    requires Valid(cfg) && Sound(cfg) && Reachable(cfg, s) && NobodyQuit(s) && Enabled(cfg, s, a) && !Fault(a)
    requires !NobodyQuit(Apply(cfg, s, a))
    ensures a.Take? && RejectsHead(cfg, s, a.i)
  {
    ReachableInv(cfg, s);
    hide Valid, Reachable, OpAt, Sound, PairAt, Blamed, NobodyQuit, Apply, RejectsHead;
    if a.Step? {
      StepStaysUp(cfg, s, a.i, a.order);
      MovedLives(s, Apply(cfg, s, a), a.i);
    } else if a.TakeErr? {
      assert Blamed(s, a.i);
      NoErrors(s, a.i);
    } else if a.Take? {
      if !RejectsHead(cfg, s, a.i) {
        TakeStaysUp(cfg, s, a.i);
        MovedLives(s, Apply(cfg, s, a), a.i);
      }
    } else {
      LivesStay(cfg, s, a);
      SameQuits(s, Apply(cfg, s, a), a.i);
    }
  }

  lemma MovedLives(s: State, t: State, i: nat)
    requires NobodyQuit(s) && Moved(s, t, i) && (t[i].life == s[i].life || t[i].life in {Up, Closed(true)})
    ensures NobodyQuit(t)
  {
    forall k | k in t ensures !Quit(t, k) {
      assert !Quit(s, k);
    }
  }

  /** Sending, reading and taking a FIN leave everybody's life as it is. */
  lemma LivesStay(cfg: Config, s: State, a: Action)
    requires Enabled(cfg, s, a) && (a.Write? || a.Read? || a.Eof? || a.TakeFin?)
    ensures var t := Apply(cfg, s, a);
            t.Keys == s.Keys && a.i in s && forall k <- s :: t[k].life == s[k].life
  {
    hide OnFrame, OnClosed, Outgoing, PhaseDone;
  }

  lemma StepStaysUp(cfg: Config, s: State, i: nat, order: seq<nat>)
    requires Valid(cfg) && Sound(cfg) && Inv(cfg, s) && Enabled(cfg, s, Step(i, order))
    ensures Moved(s, Apply(cfg, s, Step(i, order)), i)
    ensures Apply(cfg, s, Step(i, order))[i].life in {Up, Closed(true)}
  {
    assert OpAt(cfg, s, i);
    hide PairAt, NetOk, PcOk, Advanced, Blamed, Enumerates, Sound, PhaseDone;
    if !s[i].pc.WaitFin? {
      AdvancedGoes(cfg, i, s[i].pc, order);
    }
  }

  lemma NoErrors(s: State, i: nat)
    requires NobodyQuit(s) && i in s && Blamed(s, i)
    ensures s[i].net.errs == 0
  {
    hide Quit;
  }

  lemma TakeStaysUp(cfg: Config, s: State, i: nat)
    requires Enabled(cfg, s, Take(i)) && !RejectsHead(cfg, s, i)
    ensures Moved(s, Apply(cfg, s, Take(i)), i) && Apply(cfg, s, Take(i))[i].life.Up?
  {
    hide Accept, PhaseDone;
    TakeAccepted(cfg, s, i, Accept(Peers(cfg, i), CurrentTag(cfg, s[i].pc), s[i].pc.got, s[i].net.inbox[0]).got);
  }

  lemma SameQuits(s: State, t: State, i: nat)
    requires NobodyQuit(s) && s.Keys == t.Keys && i in s && (t[i].life == s[i].life || t[i].life == Closed(true))
    requires forall k <- s :: k != i ==> t[k].life == s[k].life
    ensures NobodyQuit(t)
  {
    forall k | k in t ensures !Quit(t, k) {
      assert !Quit(s, k);
    }
  }

  lemma {:induction false} CalmRun(cfg: Config, s: State, acts: seq<Action>, t: State)
    requires Valid(cfg) && Sound(cfg) && |cfg.ops| <= 2 && Reachable(cfg, s) && NobodyQuit(s)
    requires Runs(cfg, s, acts, t) && forall a <- acts :: !Fault(a)
    ensures NobodyQuit(t)
    decreases |acts|
  {
    hide NobodyQuit, Apply, Enabled, Reachable, RejectsHead, Sound, Fault;
    if acts != [] {
      var u := Apply(cfg, s, acts[0]);
      ReachableStep(cfg, s, acts[0]);
      if !NobodyQuit(u) {
        assert acts[0] in acts;
        FirstFailure(cfg, s, acts[0]);
        TwoNeverReject(cfg, s, acts[0].i);
      }
      CalmRun(cfg, u, acts[1..], t);
    }
  }

  /** Two participants, no deadline, no crash: nobody ever aborts. */
  lemma TwoNeverFail(cfg: Config, s: State)
    requires Valid(cfg) && Sound(cfg) && |cfg.ops| <= 2 && CalmReachable(cfg, s)
    ensures NobodyQuit(s)
  {
    var acts :| Runs(cfg, Init(cfg), acts, s) && forall a <- acts :: !Fault(a);
    assert Runs(cfg, Init(cfg), [], Init(cfg));
    CalmRun(cfg, Init(cfg), acts, s);
  }

  /** A state that no step other than a deadline or a failure can leave. */
  ghost predicate Final(cfg: Config, s: State) {
    forall a :: Enabled(cfg, s, a) ==> Fault(a)
  }

  lemma StartIsCalm(cfg: Config)
    ensures CalmReachable(cfg, Init(cfg))
  {
    assert Runs(cfg, Init(cfg), [], Init(cfg));
  }

  /** Every calm run can be continued to one that stops. */
  lemma {:induction false} CalmRunsEnd(cfg: Config, s: State) returns (t: State)
    requires Valid(cfg) && CalmReachable(cfg, s)
    ensures CalmReachable(cfg, t) && Final(cfg, t)
    decreases Measure(cfg, s)
  {
    hide CalmReachable, Enabled, Apply, Fault, Measure, Inv, Valid;
    if Final(cfg, s) {
      t := s;
    } else {
      var a :| Enabled(cfg, s, a) && !Fault(a);
      CalmIsReachable(cfg, s);
      ReachableInv(cfg, s);
      StepLowers(cfg, s, a);
      CalmStep(cfg, s, a);
      t := CalmRunsEnd(cfg, Apply(cfg, s, a));
    }
  }

  /**
   * However many operators take part: a run that stops with nobody having quit has everybody in the
   * barrier, each honest operator with the verdict on both complete views and closed. A corrupt signer
   * has closed too if and only if its peers' shares fit its inbox, and otherwise waits on.
   */
  lemma FinalMeansDone(cfg: Config, s: State, i: nat)
    requires Valid(cfg) && Reachable(cfg, s) && NobodyQuit(s) && Final(cfg, s) && i in cfg.ops
    ensures i in s && s[i].pc.WaitFin? && s[i].life in {Up, Closed(true)}
    ensures s[i].life == Closed(true) <==> i !in cfg.corrupt || Roomy(cfg)
    ensures i !in cfg.corrupt ==> s[i].pc.verdict == Judged(cfg, i)
  {
    ReachableInv(cfg, s);
    assert OpAt(cfg, s, i) && !Quit(s, i);
    hide Enabled, Fault, PairAt, Blamed, NobodyQuit;
    if s[i].life.Up? && Unclogged(cfg, i, s[i].pc) {
      assert forall k <- s :: !Quit(s, k) by {
        QuitsOf(s);
      }
      var a := Progress(cfg, s, i);
    }
    if i in cfg.corrupt && !Roomy(cfg) {
      CorruptNeverCloses(cfg, s, i);
    }
  }

  lemma QuitsOf(s: State)
    requires NobodyQuit(s)
    ensures forall k <- s :: !Quit(s, k)
  {}

  /** Two participants: every calm run ends, and ends with both closed on their verdicts. */
  lemma TwoAlwaysFinish(cfg: Config, s: State, acts: seq<Action>)
    requires Valid(cfg) && Sound(cfg) && |cfg.ops| <= 2
    requires Runs(cfg, Init(cfg), acts, s) && forall a <- acts :: !Fault(a)
    ensures |acts| <= Measure(cfg, Init(cfg))
    ensures Final(cfg, s) ==> forall i <- cfg.ops ::
              i in s && s[i].life == Closed(true) && s[i].pc.WaitFin?
              && (i !in cfg.corrupt ==> s[i].pc.verdict == Judged(cfg, i))
  {
    InitOk(cfg);
    RunsAreBounded(cfg, Init(cfg), acts, s);
    assert CalmReachable(cfg, s);
    hide Inv, Runs, Final, Measure, Sound;
    TwoNeverFail(cfg, s);
    CalmIsReachable(cfg, s);
    hide CalmReachable, Reachable, NobodyQuit;
    if Final(cfg, s) {
      forall i <- cfg.ops
        ensures i in s && s[i].life == Closed(true) && s[i].pc.WaitFin?
                && (i !in cfg.corrupt ==> s[i].pc.verdict == Judged(cfg, i))
      {
        FinalMeansDone(cfg, s, i);
      }
    }
  }
}

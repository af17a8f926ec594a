/** The signing driver as the engine runs it, from start to end. */
module FrostSigner {
  import opened Bytes
  import opened Framing
  import opened Transport
  import opened FrostNet
  import opened FrostInvariant
  import opened FrostSchemes
  import opened Network
  import opened FrostDriver
  import opened FrostTraces

  // ---- a whole signing run -------------------------------------------------------------------------

  /** What is returned at the end. */
  function Concluded(aggregator: nat, i: nat, end: End): Returned {
    match end
    case Dropped(_) => Aborted
    case Reached(pc) => if pc.SendFin? then Result(aggregator, i, pc.verdict) else Aborted
  }

  function SignLuck(round1: Option<Bytes>, round2: map<nat, Bytes> -> Option<Bytes>, conns: set<nat>,
                    down: (set<nat>, set<nat>, set<nat>)): Luck {
    Luck(round1.Some?, conns !! down.0, view => round2(view).Some?, out => conns !! down.1)
  }

  /** Every connection carries the two rounds and then, unless the send failed, the FIN. */
  ghost predicate Wrote(net: Network, was: map<nat, seq<Signed>>, now: map<nat, seq<Signed>>,
                        commitments: Bytes, share: Bytes, lost: set<nat>) {
    var first := Extended(was, net.Sealed(-1, false, Tagged(3, commitments)), {});
    var second := Extended(first, net.Sealed(-1, false, Tagged(4, share)), {});
    now == Extended(second, net.Sealed(-1, true, []), lost)
  }

  lemma SignReply(g: Signing, i: nat, view: map<nat, Bytes>)
    requires i in g.quorum && i !in g.corrupt
    ensures At(SignConfig(g).reply(i, view), i) == g.share(i, view)
  {}

  /** Barrier and result once the aggregation has spoken. */
  method Conclude(net: Network, aggregator: nat, verdict: Verdict, down: set<nat>, later: seq<nat>) returns (r: Returned)
    modifies net
    ensures r == Result(aggregator, net.self, verdict)
    ensures verdict.Refused? ==> net.finished == old(net.finished)
    ensures !verdict.Refused? ==> net.finished
    ensures !verdict.Refused? ==> net.conns == Extended(old(net.conns), net.Sealed(-1, true, []), down)
  {
    hide Extended;
    var full: bool;
    match verdict {
      case Refused =>
        return Aborted;
      case Culprit(id) =>
        full := net.Fin(down, later);
        return BadShare(Index(id));
      case Produced(signature) =>
        full := net.Fin(down, later);
        return if net.self != aggregator then NoSignature else Signature(signature);
    }
  }

  /**
   * The honest driver behind its checks. `round1` and `round2` are FROST's two calls, either of which
   * may fail, and `down` says which connections are broken at each of the three sends. What is returned
   * is what the step system's driver ends with on the same events, every map listed in full.
   */
  method SignRounds(net: Network, g: Signing, peerSet: set<nat>, aggregator: nat,
                    round1: Option<Bytes>, round2: map<nat, Bytes> -> Option<Bytes>,
                    down: (set<nat>, set<nat>, set<nat>), events1: seq<Event>, events2: seq<Event>, later: seq<nat>)
    returns (r: Returned, ghost order1: seq<nat>, ghost order2: seq<nat>)
    requires net.self in g.quorum && net.self !in g.corrupt && peerSet == g.quorum - {net.self}
    requires round1.Some? ==> round1.value == g.commitment(net.self)
    requires forall view {:trigger round2(view)} :: round2(view).Some? ==> round2(view).value == g.share(net.self, view)
    modifies net
    ensures var luck := SignLuck(round1, round2, old(net.conns.Keys), down);
            && r == Concluded(aggregator, net.self,
                              DriverEnd(SignConfig(g), net.self, luck, events1, order1, events2, order2))
            && ListedInFull(SignConfig(g), net.self, luck, events1, order1, events2, order2)
    ensures !r.Aborted? ==>
              round1.Some? && old(net.conns.Keys) !! down.0 && old(net.conns.Keys) !! down.1
              && CameIn(events1, peerSet, 3) && CameIn(events2, peerSet, 4)
    ensures !r.Aborted? ==>
              net.finished && exists view: map<nat, Bytes> {:trigger g.share(net.self, view)} ::
                Wrote(net, old(net.conns), net.conns, g.commitment(net.self), g.share(net.self, view), down.2)
  {
    hide Extended, Tagged, AfterFirst, SignConfig, Good, Complaint, Collect, Received, Encode, ListEach, Advanced,
         Id, At, Result, GoodUpTo, Payloads, Enumerates, OwnItems, CameIn;
    order1, order2 := [], [];
    var i := net.self;
    ghost var cfg := SignConfig(g);
    SignSetting(g, i);
    assert peerSet == Peers(cfg, i);
    ghost var luck := SignLuck(round1, round2, net.conns.Keys, down);

    // round 1: nonce commitments
    if round1.None? {
      return Aborted, order1, order2;
    }
    var commitments := round1.value;
    var failed := net.Broadcast(Tagged(3, commitments), down.0);
    if failed.Some? {
      return Aborted, order1, order2;
    }
    var commRaw, _ := CollectRound(peerSet, 3, events1);
    if commRaw.GaveUp? {
      return Aborted, order1, order2;
    }
    var view1: Option<map<nat, Bytes>>;
    view1, order1 := HandOver(Sign, i, commitments, commRaw.got);
    FirstAdvanced(cfg, i, commRaw.got, order1);
    if view1.None? {
      return Aborted, order1, order2;
    }
    ghost var pc := Advanced(cfg, i, Collect1(commRaw.got), order1).pc;
    AfterFirstIs(cfg, i, luck, pc, events2, order2, view1.value);
    SignReply(g, i, view1.value);

    // round 2: signature shares
    var share := round2(view1.value);
    if share.None? {
      return Aborted, order1, order2;
    }
    failed := net.Broadcast(Tagged(4, share.value), down.1);
    if failed.Some? {
      return Aborted, order1, order2;
    }
    var shareRaw, _ := CollectRound(peerSet, 4, events2);
    if shareRaw.GaveUp? {
      return Aborted, order1, order2;
    }
    var view2: Option<map<nat, Bytes>>;
    view2, order2 := HandOver(Sign, i, share.value, shareRaw.got);
    AfterFirstIs(cfg, i, luck, pc, events2, order2, view1.value);
    if view2.None? {
      return Aborted, order1, order2;
    }

    // aggregation, by every quorum member
    var verdict := g.aggregate(g.pubPkg(i), view1.value, view2.value);
    RefusedAborts(aggregator, i, verdict);
    r := Conclude(net, aggregator, verdict, down.2, later);
  }

  /** Both calls and all sends work, and both rounds come in complete and from the peers alone. */
  ghost predicate Undisturbed(g: Signing, i: nat, round1: Option<Bytes>, round2: map<nat, Bytes> -> Option<Bytes>,
                              conns: set<nat>, down: (set<nat>, set<nat>, set<nat>),
                              events1: seq<Event>, events2: seq<Event>)
  {
    && round1.Some? && round2(Commitments(g)).Some? && conns !! down.0 && conns !! down.1
    && Brings(events1, g.quorum - {i}, 3, Commitments(g)) && Brings(events2, g.quorum - {i}, 4, Shares(g))
  }

  lemma UndisturbedRounds(g: Signing, i: nat, events1: seq<Event>, events2: seq<Event>)
    requires ValidSigning(g) && i in g.quorum
    requires Brings(events1, g.quorum - {i}, 3, Commitments(g)) && Brings(events2, g.quorum - {i}, 4, Shares(g))
    ensures var r := FirstRound(SignConfig(g), i, events1);
            r.AllIn? && r.got.Keys == Peers(SignConfig(g), i) && Bodies(SignConfig(g), i, 1, r.got)
    ensures var r := SecondRound(SignConfig(g), i, events2);
            r.AllIn? && r.got.Keys == Peers(SignConfig(g), i) && Bodies(SignConfig(g), i, 2, r.got)
  {
    var cfg := SignConfig(g);
    SignSetting(g, i);
    hide Brings, Collect, SignConfig, Commitments, Shares, Num, ValidSigning, Body, Bodies, Peers;
    forall k | k in Peers(cfg, i)
      ensures Num(k) in Commitments(g) && Commitments(g)[Num(k)] == Body(cfg, k, i, 1)
      ensures Num(k) in Shares(g) && Shares(g)[Num(k)] == Body(cfg, k, i, 2)
    {
      SentBodies(g, k, i);
    }
    RoundBrought(cfg, i, 1, events1, Commitments(g));
    RoundBrought(cfg, i, 2, events2, Shares(g));
  }

  lemma SentBodies(g: Signing, k: nat, i: nat)
    requires k in g.quorum && i in g.quorum
    ensures Num(k) in Commitments(g) && Commitments(g)[Num(k)] == Body(SignConfig(g), k, i, 1)
    ensures Num(k) in Shares(g) && Shares(g)[Num(k)] == Body(SignConfig(g), k, i, 2)
  {
    SignOut(g, k, i);
    assert Index(Num(k)) == k;
    hide Out, BroadcastShare;
  }

  /** What comes of an undisturbed run, in terms of the one aggregation. */
  ghost predicate Delivers(g: Signing, i: nat, aggregator: nat, r: Returned) {
    match g.aggregate(g.pubPkg(i), Commitments(g), Shares(g))
    case Produced(sig) => if i == aggregator then r == Signature(sig) else r == NoSignature
    case Culprit(id) => id > 0 ==> r == BadShare(id - 1)
    case Refused => r == Aborted
  }

  lemma UndisturbedDelivers(g: Signing, i: nat, aggregator: nat, round1: Option<Bytes>,
                            round2: map<nat, Bytes> -> Option<Bytes>, conns: set<nat>,
                            down: (set<nat>, set<nat>, set<nat>), events1: seq<Event>, order1: seq<nat>,
                            events2: seq<Event>, order2: seq<nat>)
    requires ValidSigning(g) && i in g.quorum && i !in g.corrupt
    requires Undisturbed(g, i, round1, round2, conns, down, events1, events2)
    requires ListedInFull(SignConfig(g), i, SignLuck(round1, round2, conns, down), events1, order1, events2, order2)
    ensures var luck := SignLuck(round1, round2, conns, down);
            Delivers(g, i, aggregator,
                     Concluded(aggregator, i, DriverEnd(SignConfig(g), i, luck, events1, order1, events2, order2)))
  {
    SignValid(g);
    SignView1(g, i);
    JudgedIs(g, i);
    UndisturbedRounds(g, i, events1, events2);
    var cfg, luck := SignConfig(g), SignLuck(round1, round2, conns, down);
    assert cfg.corrupt == g.corrupt && cfg.ops == g.quorum;
    hide ListedInFull, DriverEnd, ValidSigning, Valid, Commitments, Shares, Judged, SignConfig, FirstRound, SecondRound,
         Bodies, Brings, View1, Out, Peers;
    UndisturbedEnd(cfg, i, luck, events1, order1, events2, order2);
  }

  /** On every connection: the commitment, the share and, unless the send failed, the FIN. */
  ghost predicate FramesOut(net: Network, was: map<nat, seq<Signed>>, now: map<nat, seq<Signed>>, commitments: Bytes,
                            share: Bytes, lost: set<nat>) {
    now.Keys == was.Keys && forall p <- now ::
      now[p] ==
      was[p]
      + [SignedBy(net.crypto, net.priv, Envelope(net.session, net.self, -1, true, false, [3] + commitments)),
         SignedBy(net.crypto, net.priv, Envelope(net.session, net.self, -1, true, false, [4] + share))]
      + if p in lost then []
        else [SignedBy(net.crypto, net.priv, Envelope(net.session, net.self, -1, true, true, []))]
  }

  /**
   * The honest driver, start to end: what the step system's driver ends with on the same events. Where
   * nothing disturbs it, the signature comes out at the aggregator, nothing at the others, and a named
   * culprit at everybody by its index.
   */
  method RunFrostSign(net: Network, g: Signing, quorum: seq<nat>, aggregator: nat, msg32: Bytes,
                      round1: Option<Bytes>, round2: map<nat, Bytes> -> Option<Bytes>,
                      down: (set<nat>, set<nat>, set<nat>), events1: seq<Event>, events2: seq<Event>, later: seq<nat>)
    returns (r: Returned, ghost order1: seq<nat>, ghost order2: seq<nat>)
    requires g.quorum == set q | q in quorum
    requires net.self !in g.corrupt
    requires round1.Some? ==> round1.value == g.commitment(net.self)
    requires forall view {:trigger round2(view)} :: round2(view).Some? ==> round2(view).value == g.share(net.self, view)
    modifies net
    ensures |msg32| != 32 || net.self !in quorum ==> r == Aborted && net.conns == old(net.conns)
    ensures |msg32| == 32 && net.self in quorum ==>
              var luck := SignLuck(round1, round2, old(net.conns.Keys), down);
              && r == Concluded(aggregator, net.self,
                                DriverEnd(SignConfig(g), net.self, luck, events1, order1, events2, order2))
              && ListedInFull(SignConfig(g), net.self, luck, events1, order1, events2, order2)
    ensures |msg32| == 32 && net.self in quorum && ValidSigning(g)
            && round1.Some? && round2(Commitments(g)).Some?
            && old(net.conns.Keys) !! down.0 && old(net.conns.Keys) !! down.1
            && Brings(events1, g.quorum - {net.self}, 3, Commitments(g))
            && Brings(events2, g.quorum - {net.self}, 4, Shares(g)) ==>
              match g.aggregate(g.pubPkg(net.self), Commitments(g), Shares(g))
              case Produced(sig) => if net.self == aggregator then r == Signature(sig) else r == NoSignature
              case Culprit(id) => id > 0 ==> r == BadShare(id - 1)
              case Refused => r == Aborted
    ensures !r.Aborted? ==>
              round1.Some? && old(net.conns.Keys) !! down.0 && old(net.conns.Keys) !! down.1
              && CameIn(events1, g.quorum - {net.self}, 3) && CameIn(events2, g.quorum - {net.self}, 4)
    ensures !r.Aborted? ==>
              net.finished && exists view: map<nat, Bytes> {:trigger g.share(net.self, view)} ::
                FramesOut(net, old(net.conns), net.conns, g.commitment(net.self), g.share(net.self, view), down.2)
  {
    order1, order2 := [], [];
    if |msg32| != 32 {
      return Aborted, order1, order2;
    }
    var i := net.self;
    var peerSet, inQuorum := PeersOf(quorum, i);
    if !inQuorum {
      return Aborted, order1, order2;
    }
    ghost var conns := net.conns;
    hide Concluded, DriverEnd, ListedInFull, SignLuck, ValidSigning, Commitments, Shares, Brings, SignConfig, Wrote;
    hide FramesOut, CameIn;
    r, order1, order2 := SignRounds(net, g, peerSet, aggregator, round1, round2, down, events1, events2, later);
    if ValidSigning(g) && Undisturbed(g, i, round1, round2, conns.Keys, down, events1, events2) {
      UndisturbedDelivers(g, i, aggregator, round1, round2, conns.Keys, down, events1, order1, events2, order2);
    }
    if !r.Aborted? {
      ghost var view: map<nat, Bytes> :|
        Wrote(net, conns, net.conns, g.commitment(i), g.share(i, view), down.2);
      WroteFrames(net, conns, net.conns, g.commitment(i), g.share(i, view), down.2);
    }
  }

  lemma WroteFrames(net: Network, was: map<nat, seq<Signed>>, now: map<nat, seq<Signed>>, commitments: Bytes,
                    share: Bytes, lost: set<nat>)
    requires Wrote(net, was, now, commitments, share, lost)
    ensures FramesOut(net, was, now, commitments, share, lost)
  {}

  lemma SignSetting(g: Signing, i: nat)
    ensures var cfg := SignConfig(g);
            && cfg.kind == Sign && cfg.open(i) == g.commitment(i) && Peers(cfg, i) == g.quorum - {i}
            && Tag(Sign, 1) == 3 && Tag(Sign, 2) == 4
            && forall view1, view2 {:trigger cfg.judge(i, view1, view2)} {:trigger g.aggregate(g.pubPkg(i), view1, view2)} ::
                 cfg.judge(i, view1, view2) == g.aggregate(g.pubPkg(i), view1, view2)
  {}

  lemma RefusedAborts(aggregator: nat, i: nat, verdict: Verdict)
    ensures verdict.Refused? <==> Result(aggregator, i, verdict).Aborted?
  {}

  /** What the endpoint writes is what the step system's driver writes. */
  lemma SameFrames(net: Network, g: Signing, items1: seq<Item>, out: map<nat, Bytes>, todo: set<nat>, j: nat)
    requires net.session == g.session && net.self in g.quorum && j in g.quorum
    requires forall k <- g.quorum :: At(out, k) == At(out, net.self)
    ensures net.Sealed(-1, false, Tagged(3, g.commitment(net.self))).envelope
         == Outgoing(SignConfig(g), net.self, Send1(todo), j)
    ensures net.Sealed(-1, false, Tagged(4, At(out, net.self))).envelope
         == Outgoing(SignConfig(g), net.self, Send2(items1, out, todo), j)
    ensures net.Sealed(-1, true, []).envelope == FinFrame(SignConfig(g), net.self)
  {
    hide At;
  }

  // ---- what it returns on genuine frames -------------------------------------------------------------

  /**
   * What `RunFrostSign` returns on genuine frames, whenever they arrive, in whatever listing order and
   * whatever FROST calls and sends fail, is an abort or the verdict on everyone's commitments and
   * everyone's broadcast shares.
   */
  lemma SigningReturnsTheVerdict(g: Signing, i: nat, luck: Luck, events1: seq<Event>, order1: seq<nat>,
                                 events2: seq<Event>, order2: seq<nat>, aggregator: nat)
    requires ValidSigning(g) && i in g.quorum && i !in g.corrupt
    requires Genuine(SignConfig(g), i, events1) && Genuine(SignConfig(g), i, events2)
    requires ListedInFull(SignConfig(g), i, luck, events1, order1, events2, order2)
    ensures var r := Concluded(aggregator, i, DriverEnd(SignConfig(g), i, luck, events1, order1, events2, order2));
            r.Aborted? || r == Result(aggregator, i, g.aggregate(g.pubPkg(i), Commitments(g), Shares(g)))
    ensures Concluded(aggregator, i, DriverEnd(SignConfig(g), i, luck, events1, order1, events2, order2)).Aborted?
            <==> DriverEnd(SignConfig(g), i, luck, events1, order1, events2, order2).Dropped?
  {
    hide Genuine, ListedInFull, DriverEnd, ValidSigning, Commitments, Shares, Judged, Result, PcOk;
    SignValid(g);
    JudgedIs(g, i);
    if DriverEnd(SignConfig(g), i, luck, events1, order1, events2, order2).Reached? {
      GenuineDriverEnds(SignConfig(g), i, luck, events1, order1, events2, order2);
      RefusedAborts(aggregator, i, Judged(SignConfig(g), i));
    }
  }
}

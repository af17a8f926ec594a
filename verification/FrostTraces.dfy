/**
 * Runs of the step system seen from one honest operator: the frames it took, as events, lead the
 * imperative driver to the same end. And on frames that peers really send, in any order and mixed with
 * whatever outsiders send, a driver that gets to its barrier holds the verdict of the step system.
 */
module FrostTraces {
  import opened Bytes
  import opened Framing
  import opened Transport
  import opened FrostNet
  import opened FrostInvariant
  import opened FrostDriver

  // ---- frames that peers send ----------------------------------------------------------------------

  /** What comes from a peer is one of its two round frames; nothing is said about anybody else's. */
  ghost predicate GenuineFrame(cfg: Config, i: nat, e: Envelope) {
    e.from in Peers(cfg, i) ==> e == Frame(cfg, e.from, i, 0) || e == Frame(cfg, e.from, i, 1)
  }

  ghost predicate Genuine(cfg: Config, i: nat, events: seq<Event>) {
    forall ev <- events :: ev.Arrived? ==> GenuineFrame(cfg, i, ev.e)
  }

  /** What peer `k` sends operator `i` in a round, without the tag. */
  ghost function Body(cfg: Config, k: nat, i: nat, round: nat): Bytes {
    if round == 1 then cfg.open(k) else At(Out(cfg, k), i)
  }

  ghost predicate Bodies(cfg: Config, i: nat, round: nat, got: map<nat, Bytes>) {
    got.Keys <= Peers(cfg, i) && forall k <- got :: got[k] == Body(cfg, k, i, round)
  }

  lemma AcceptedBody(cfg: Config, i: nat, round: nat, got: map<nat, Bytes>, e: Envelope)
    requires (round == 1 || round == 2) && Bodies(cfg, i, round, got) && GenuineFrame(cfg, i, e)
    requires Accept(Peers(cfg, i), Tag(cfg.kind, round), got, e).Kept?
    ensures Bodies(cfg, i, round, Accept(Peers(cfg, i), Tag(cfg.kind, round), got, e).got)
  {
    hide Out, At;
    assert Tag(cfg.kind, 1) != Tag(cfg.kind, 2);
    assert forall body: Bytes, t: byte :: Tagged(t, body)[1..] == body;
  }

  /** A complete collection of genuine frames holds everybody's package of that round. */
  lemma {:induction false} GenuineCollect(cfg: Config, i: nat, round: nat, got: map<nat, Bytes>, events: seq<Event>)
    requires (round == 1 || round == 2) && Bodies(cfg, i, round, got) && Genuine(cfg, i, events)
    ensures var r := Collect(Peers(cfg, i), Tag(cfg.kind, round), got, events);
            r.AllIn? ==> Bodies(cfg, i, round, r.got) && |r.got| >= |Peers(cfg, i)|
    decreases |events|
  {
    hide Bodies, GenuineFrame, Accept, Peers;
    if |got| < |Peers(cfg, i)| && events != [] && events[0].Arrived? {
      assert events[0] in events && forall ev <- events[1..] :: ev in events;
      match Accept(Peers(cfg, i), Tag(cfg.kind, round), got, events[0].e)
      case Rejected(_) =>
      case Kept(got') =>
        AcceptedBody(cfg, i, round, got, events[0].e);
        GenuineCollect(cfg, i, round, got', events[1..]);
    }
  }

  lemma FirstInOk(cfg: Config, i: nat, got: map<nat, Bytes>)
    requires Bodies(cfg, i, 1, got) && |got| >= |Peers(cfg, i)|
    ensures PcOk(cfg, i, Collect1(got)) && PhaseDone(cfg, i, Collect1(got))
  {}

  lemma SecondInOk(cfg: Config, i: nat, pc: Driver, got: map<nat, Bytes>)
    requires i !in cfg.corrupt && pc.Send2? && PcOk(cfg, i, pc) && Bodies(cfg, i, 2, got) && |got| >= |Peers(cfg, i)|
    ensures PcOk(cfg, i, Collect2(pc.items1, pc.out, got)) && PhaseDone(cfg, i, Collect2(pc.items1, pc.out, got))
  {
    hide Lists, View1, Out, At;
  }

  lemma SettledVerdict(cfg: Config, i: nat, pc: Driver)
    requires i !in cfg.corrupt && PcOk(cfg, i, pc) && pc.SendFin?
    ensures pc.verdict == Judged(cfg, i) && !pc.verdict.Refused?
  {
    hide Lists, View1, View2, Judged;
  }

  lemma EndsAtBarrier(cfg: Config, i: nat, luck: Luck, pc: Driver, events2: seq<Event>, order2: seq<nat>)
    requires pc.Send2?
    ensures var end := AfterFirst(cfg, i, luck, pc, events2, order2); end.Reached? ==> end.pc.SendFin?
  {
    hide Received, Encode, SecondRound, Listed;
  }

  lemma GenuineFirst(cfg: Config, i: nat, events1: seq<Event>, order1: seq<nat>)
    requires Valid(cfg) && i in cfg.ops && Genuine(cfg, i, events1) && FirstRound(cfg, i, events1).AllIn?
    requires Enumerates(order1, FirstRound(cfg, i, events1).got.Keys)
    requires Advanced(cfg, i, Collect1(FirstRound(cfg, i, events1).got), order1).Go?
    ensures PcOk(cfg, i, Advanced(cfg, i, Collect1(FirstRound(cfg, i, events1).got), order1).pc)
  {
    GenuineCollect(cfg, i, 1, map[], events1);
    var got1 := FirstRound(cfg, i, events1).got;
    FirstInOk(cfg, i, got1);
    hide Valid, Genuine, Bodies, Collect, PcOk, Advanced, PhaseDone, Enumerates;
    AdvancedOk(cfg, i, Collect1(got1), order1);
  }

  lemma GenuineSecond(cfg: Config, i: nat, pc: Driver, events2: seq<Event>, order2: seq<nat>)
    requires Valid(cfg) && i in cfg.ops && i !in cfg.corrupt && Genuine(cfg, i, events2) && pc.Send2? && PcOk(cfg, i, pc)
    requires SecondRound(cfg, i, events2).AllIn? && Enumerates(order2, SecondRound(cfg, i, events2).got.Keys)
    requires Advanced(cfg, i, Collect2(pc.items1, pc.out, SecondRound(cfg, i, events2).got), order2).Go?
    ensures PcOk(cfg, i, Advanced(cfg, i, Collect2(pc.items1, pc.out, SecondRound(cfg, i, events2).got), order2).pc)
  {
    GenuineCollect(cfg, i, 2, map[], events2);
    var got2 := SecondRound(cfg, i, events2).got;
    SecondInOk(cfg, i, pc, got2);
    hide Valid, Genuine, Bodies, Collect, PcOk, Advanced, PhaseDone, Enumerates;
    AdvancedOk(cfg, i, Collect2(pc.items1, pc.out, got2), order2);
  }

  /**
   * An honest driver that reaches its barrier on genuine frames holds what the step system's invariant
   * says of an operator there, the verdict on both complete views included.
   */
  lemma GenuineDriverEnds(cfg: Config, i: nat, luck: Luck, events1: seq<Event>, order1: seq<nat>,
                          events2: seq<Event>, order2: seq<nat>)
    requires Valid(cfg) && i in cfg.ops && i !in cfg.corrupt && Genuine(cfg, i, events1) && Genuine(cfg, i, events2)
    requires ListedInFull(cfg, i, luck, events1, order1, events2, order2)
    requires DriverEnd(cfg, i, luck, events1, order1, events2, order2).Reached?
    ensures var pc := DriverEnd(cfg, i, luck, events1, order1, events2, order2).pc;
            pc.SendFin? && PcOk(cfg, i, pc) && pc.verdict == Judged(cfg, i) && !pc.verdict.Refused?
  {
    hide Valid, Genuine, Collect, PcOk, Advanced, Enumerates, Received, Encode, Judged, FirstRound, SecondRound;
    GenuineFirst(cfg, i, events1, order1);
    var mid := Advanced(cfg, i, Collect1(FirstRound(cfg, i, events1).got), order1).pc;
    GenuineSecond(cfg, i, mid, events2, order2);
    EndsAtBarrier(cfg, i, luck, mid, events2, order2);
    SettledVerdict(cfg, i, DriverEnd(cfg, i, luck, events1, order1, events2, order2).pc);
  }

  // ---- a round that nothing disturbs -----------------------------------------------------------------

  /** The first events are the peers' frames of a round, one from each, with these bodies by identifier. */
  ghost predicate Brings(events: seq<Event>, peers: set<nat>, tag: byte, bodies: map<nat, Bytes>) {
    && |events| >= |peers|
    && (forall k {:trigger events[k]} :: 0 <= k < |peers| ==>
          events[k].Arrived? && events[k].e.from in peers
          && Num(events[k].e.from) in bodies && events[k].e.payload == [tag] + bodies[Num(events[k].e.from)])
    && (forall k, m :: 0 <= k < m < |peers| ==> events[k].e.from != events[m].e.from)
  }

  function Senders(events: seq<Event>, n: nat): set<nat>
    requires n <= |events|
  {
    set k | 0 <= k < n && events[k].Arrived? :: events[k].e.from
  }

  /** What has been collected after some of them. */
  ghost predicate PartlyIn(events: seq<Event>, want: set<nat>, bodies: map<nat, Bytes>, got: map<nat, Bytes>) {
    && |got| <= |events| && got.Keys <= want && got.Keys == Senders(events, |got|)
    && (forall f <- got :: Num(f) in bodies && got[f] == bodies[Num(f)])
  }

  lemma NextSender(events: seq<Event>, want: set<nat>, tag: byte, bodies: map<nat, Bytes>, n: nat)
    requires Brings(events, want, tag, bodies) && n < |want|
    ensures var from := events[n].e.from;
            from !in Senders(events, n) && Senders(events, n + 1) == Senders(events, n) + {from}
  {}

  lemma AcceptsBody(want: set<nat>, tag: byte, got: map<nat, Bytes>, e: Envelope, body: Bytes)
    requires e.from in want && e.from !in got && e.payload == [tag] + body
    ensures Accept(want, tag, got, e) == Kept(got[e.from := body])
  {
    assert e.payload[1..] == body;
  }

  lemma NewEntry(got: map<nat, Bytes>, from: nat, body: Bytes)
    requires from !in got
    ensures got[from := body].Keys == got.Keys + {from} && |got[from := body]| == |got| + 1
  {
    assert |got[from := body].Keys| == |got[from := body]| && |got.Keys| == |got|;
  }

  lemma BringsOne(events: seq<Event>, want: set<nat>, tag: byte, bodies: map<nat, Bytes>, n: nat)
    requires Brings(events, want, tag, bodies) && n < |want|
    ensures n < |events| && events[n].Arrived? && events[n].e.from in want && Num(events[n].e.from) in bodies
    ensures events[n].e.payload == [tag] + bodies[Num(events[n].e.from)]
  {}

  lemma PartlyNext(events: seq<Event>, want: set<nat>, bodies: map<nat, Bytes>, got: map<nat, Bytes>, from: nat)
    requires PartlyIn(events, want, bodies, got) && |got| < |events| && from in want && from !in got
    requires Senders(events, |got| + 1) == Senders(events, |got|) + {from} && Num(from) in bodies
    ensures PartlyIn(events, want, bodies, got[from := bodies[Num(from)]])
    ensures |got[from := bodies[Num(from)]]| == |got| + 1
  {
    hide Senders, Num;
    NewEntry(got, from, bodies[Num(from)]);
  }

  lemma NextIn(events: seq<Event>, want: set<nat>, tag: byte, bodies: map<nat, Bytes>, got: map<nat, Bytes>)
    requires Brings(events, want, tag, bodies) && PartlyIn(events, want, bodies, got) && |got| < |want|
    ensures |got| < |events| && events[|got|].Arrived? && Num(events[|got|].e.from) in bodies
    ensures var e := events[|got|].e;
            var got' := got[e.from := bodies[Num(e.from)]];
            Accept(want, tag, got, e) == Kept(got') && |got'| == |got| + 1 && PartlyIn(events, want, bodies, got')
  {
    BringsOne(events, want, tag, bodies, |got|);
    NextSender(events, want, tag, bodies, |got|);
    var e := events[|got|].e;
    NotYetIn(events, want, bodies, got, e.from);
    hide Senders, Accept, Brings, PartlyIn, Num;
    AcceptsBody(want, tag, got, e, bodies[Num(e.from)]);
    PartlyNext(events, want, bodies, got, e.from);
  }

  lemma NotYetIn(events: seq<Event>, want: set<nat>, bodies: map<nat, Bytes>, got: map<nat, Bytes>, from: nat)
    requires PartlyIn(events, want, bodies, got) && from !in Senders(events, |got|)
    ensures from !in got
  {}

  lemma {:induction false} BringsFrom(events: seq<Event>, want: set<nat>, tag: byte, bodies: map<nat, Bytes>,
                                      got: map<nat, Bytes>)
    requires Brings(events, want, tag, bodies) && PartlyIn(events, want, bodies, got)
    ensures var r := Collect(want, tag, got, events[|got|..]);
            r.AllIn? && r.got.Keys == want && forall f <- want :: Num(f) in bodies && r.got[f] == bodies[Num(f)]
    decreases |want| - |got|
  {
    Fewer(got.Keys, want);
    if |got| < |want| {
      NextIn(events, want, tag, bodies, got);
      var e := events[|got|].e;
      hide Accept, Brings, PartlyIn, Num;
      assert events[|got|..][0] == events[|got|] && events[|got|..][1..] == events[|got| + 1..];
      BringsFrom(events, want, tag, bodies, got[e.from := bodies[Num(e.from)]]);
    } else {
      hide Brings, Num;
      SubsetFull(got.Keys, want);
    }
  }

  /** Such a round is collected in full. */
  lemma BringsAll(events: seq<Event>, want: set<nat>, tag: byte, bodies: map<nat, Bytes>)
    requires Brings(events, want, tag, bodies)
    ensures var r := Collect(want, tag, map[], events);
            r.AllIn? && r.got.Keys == want && forall f <- want :: Num(f) in bodies && r.got[f] == bodies[Num(f)]
  {
    assert events[0..] == events;
    hide Brings, Collect, Num;
    BringsFrom(events, want, tag, bodies, map[]);
  }

  lemma RoundBrought(cfg: Config, i: nat, round: nat, events: seq<Event>, bodies: map<nat, Bytes>)
    requires (round == 1 || round == 2) && Brings(events, Peers(cfg, i), Tag(cfg.kind, round), bodies)
    requires forall k <- Peers(cfg, i) :: Num(k) in bodies && bodies[Num(k)] == Body(cfg, k, i, round)
    ensures var r := Collect(Peers(cfg, i), Tag(cfg.kind, round), map[], events);
            r.AllIn? && r.got.Keys == Peers(cfg, i) && Bodies(cfg, i, round, r.got)
  {
    hide Brings, Collect, Num, Body, Peers;
    BringsAll(events, Peers(cfg, i), Tag(cfg.kind, round), bodies);
  }

  lemma FirstGoes(cfg: Config, i: nat, got: map<nat, Bytes>, order: seq<nat>)
    requires Valid(cfg) && i in cfg.ops && Bodies(cfg, i, 1, got) && got.Keys == Peers(cfg, i)
    requires Enumerates(order, got.Keys)
    ensures var a := Advanced(cfg, i, Collect1(got), order);
            a.Go? && a.pc.Send2? && Received(Encode(a.pc.items1)) == Some(View1(cfg, i)) && a.pc.out == Out(cfg, i)
    ensures PcOk(cfg, i, Advanced(cfg, i, Collect1(got), order).pc)
  {
    FirstInOk(cfg, i, got);
    hide Lists, Received, Encode, Listed, View1, At, Bodies, Enumerates;
    FirstView(cfg, i, got, order);
  }

  lemma SecondAdvanced(cfg: Config, i: nat, items1: seq<Item>, out: map<nat, Bytes>, got: map<nat, Bytes>,
                       order: seq<nat>, view1: map<nat, Bytes>, view2: map<nat, Bytes>)
    requires Received(Encode(items1)) == Some(view1)
    requires Received(Encode(Listed(cfg, i, At(out, i), got, order))) == Some(view2)
    ensures var a, verdict := Advanced(cfg, i, Collect2(items1, out, got), order), cfg.judge(i, view1, view2);
            if verdict.Refused? then a == Stop(Crypto) else a.Go? && a.pc.SendFin? && a.pc.verdict == verdict
  {
    hide Received, Encode, Listed, At, Peers;
  }

  lemma SecondGoes(cfg: Config, i: nat, pc: Driver, got: map<nat, Bytes>, order: seq<nat>)
    requires Valid(cfg) && i in cfg.ops && i !in cfg.corrupt && pc.Send2? && PcOk(cfg, i, pc)
    requires Bodies(cfg, i, 2, got) && got.Keys == Peers(cfg, i) && Enumerates(order, got.Keys)
    ensures var a := Advanced(cfg, i, Collect2(pc.items1, pc.out, got), order);
            if Judged(cfg, i).Refused? then a == Stop(Crypto)
            else a.Go? && a.pc.SendFin? && a.pc.verdict == Judged(cfg, i)
  {
    SecondInOk(cfg, i, pc, got);
    hide Lists, Received, Encode, Listed, View1, View2, At, Bodies, Enumerates, PcOk, Valid, Peers, PhaseDone, Advanced;
    SecondView(cfg, i, pc.items1, pc.out, got, order);
    SecondAdvanced(cfg, i, pc.items1, pc.out, got, order, View1(cfg, i), View2(cfg, i));
  }

  /** With all calls and sends working and both rounds in, the driver ends with the verdict, or with its refusal. */
  lemma UndisturbedEnd(cfg: Config, i: nat, luck: Luck, events1: seq<Event>, order1: seq<nat>,
                       events2: seq<Event>, order2: seq<nat>)
    requires Valid(cfg) && i in cfg.ops && i !in cfg.corrupt
    requires luck.call1 && luck.sent1 && luck.call2(View1(cfg, i)) && luck.sent2(Out(cfg, i))
    requires var r := FirstRound(cfg, i, events1); r.AllIn? && r.got.Keys == Peers(cfg, i) && Bodies(cfg, i, 1, r.got)
    requires var r := SecondRound(cfg, i, events2); r.AllIn? && r.got.Keys == Peers(cfg, i) && Bodies(cfg, i, 2, r.got)
    requires ListedInFull(cfg, i, luck, events1, order1, events2, order2)
    ensures var end := DriverEnd(cfg, i, luck, events1, order1, events2, order2);
            if Judged(cfg, i).Refused? then end == Dropped(Crypto)
            else end.Reached? && end.pc.SendFin? && end.pc.verdict == Judged(cfg, i)
  {
    hide Valid, Bodies, PcOk, Advanced, Enumerates, Received, Encode, Judged, FirstRound, SecondRound, Peers, View1, Out;
    FirstGoes(cfg, i, FirstRound(cfg, i, events1).got, order1);
    var mid := Advanced(cfg, i, Collect1(FirstRound(cfg, i, events1).got), order1).pc;
    SecondGoes(cfg, i, mid, SecondRound(cfg, i, events2).got, order2);
  }

  // ---- what an operator did in a run -------------------------------------------------------------------

  /** What an operator took in each collection, and the orders in which it listed it. */
  datatype Trace = Trace(events1: seq<Event>, order1: seq<nat>, events2: seq<Event>, order2: seq<nat>)

  const NOTHING := Trace([], [], [], [])

  function Seen(tr: Trace, pc: Driver, ev: Event): Trace {
    if pc.Collect1? then tr.(events1 := [ev] + tr.events1) else tr.(events2 := [ev] + tr.events2)
  }

  /** One action before what follows. */
  ghost function Preceded(cfg: Config, s: State, a: Action, i: nat, tr: Trace): Trace
    requires Enabled(cfg, s, a)
  {
    if a.i != i then tr
    else match a
         case Take(_) => Seen(tr, s[i].pc, Arrived(s[i].net.inbox[0]))
         case TakeErr(_) => Seen(tr, s[i].pc, TransportAborted)
         case Step(_, order) =>
           if s[i].pc.Collect1? then tr.(order1 := order)
           else if s[i].pc.Collect2? then tr.(order2 := order)
           else tr
         case _ => tr
  }

  ghost function TraceOf(cfg: Config, s: State, acts: seq<Action>, i: nat): Trace
    decreases |acts|
  {
    if acts == [] || !Enabled(cfg, s, acts[0]) then NOTHING
    else Preceded(cfg, s, acts[0], i, TraceOf(cfg, Apply(cfg, s, acts[0]), acts[1..], i))
  }

  lemma TakenIsGenuine(cfg: Config, s: State, a: Action, i: nat, tr: Trace)
    requires Inv(cfg, s) && Enabled(cfg, s, a) && Genuine(cfg, i, tr.events1) && Genuine(cfg, i, tr.events2)
    ensures var tr' := Preceded(cfg, s, a, i, tr); Genuine(cfg, i, tr'.events1) && Genuine(cfg, i, tr'.events2)
  {
    if a.i == i && a.Take? {
      HeadFrame(cfg, s, i);
    }
    hide Inv, Frame;
  }

  lemma {:induction false} TraceIsGenuine(cfg: Config, s: State, acts: seq<Action>, t: State, i: nat)
    requires Valid(cfg) && Inv(cfg, s) && Runs(cfg, s, acts, t)
    ensures var tr := TraceOf(cfg, s, acts, i); Genuine(cfg, i, tr.events1) && Genuine(cfg, i, tr.events2)
    decreases |acts|
  {
    hide Inv, Enabled, Apply, Preceded;
    if acts != [] {
      StepPreserves(cfg, s, acts[0]);
      var u := Apply(cfg, s, acts[0]);
      TraceIsGenuine(cfg, u, acts[1..], t, i);
      TakenIsGenuine(cfg, s, acts[0], i, TraceOf(cfg, u, acts[1..], i));
    }
  }

  // ---- the driver from any of its phases ---------------------------------------------------------------

  ghost function FromSecond(cfg: Config, i: nat, items1: seq<Item>, out: map<nat, Bytes>, got: map<nat, Bytes>,
                            tr: Trace): End
  {
    match Collect(Peers(cfg, i), Tag(cfg.kind, 2), got, tr.events2)
    case GaveUp(why) => Dropped(why)
    case AllIn(got2) =>
      match Advanced(cfg, i, Collect2(items1, out, got2), tr.order2)
      case Stop(why) => Dropped(why)
      case Go(pc) => Reached(pc)
  }

  ghost function FromFirst(cfg: Config, i: nat, got: map<nat, Bytes>, tr: Trace): End {
    match Collect(Peers(cfg, i), Tag(cfg.kind, 1), got, tr.events1)
    case GaveUp(why) => Dropped(why)
    case AllIn(got1) =>
      match Advanced(cfg, i, Collect1(got1), tr.order1)
      case Stop(why) => Dropped(why)
      case Go(pc) => if pc.Send2? then FromSecond(cfg, i, pc.items1, pc.out, map[], tr) else Dropped(Crypto)
  }

  ghost predicate ListedSecond(cfg: Config, i: nat, got: map<nat, Bytes>, tr: Trace) {
    var r := Collect(Peers(cfg, i), Tag(cfg.kind, 2), got, tr.events2);
    r.AllIn? ==> Enumerates(tr.order2, r.got.Keys)
  }

  ghost predicate ListedFirst(cfg: Config, i: nat, got: map<nat, Bytes>, tr: Trace) {
    var r := Collect(Peers(cfg, i), Tag(cfg.kind, 1), got, tr.events1);
    r.AllIn? ==>
      Enumerates(tr.order1, r.got.Keys)
      && (Advanced(cfg, i, Collect1(r.got), tr.order1).Go? ==> ListedSecond(cfg, i, map[], tr))
  }

  /** Where a driver in phase `pc` gets, with no failing calls or sends, on what is still to come. */
  ghost function Onward(cfg: Config, i: nat, pc: Driver, tr: Trace): End {
    match pc
    case Send1(_) => FromFirst(cfg, i, map[], tr)
    case Collect1(got) => FromFirst(cfg, i, got, tr)
    case Send2(items1, out, _) => FromSecond(cfg, i, items1, out, map[], tr)
    case Collect2(items1, out, got) => FromSecond(cfg, i, items1, out, got, tr)
    case _ => Reached(SendFin(pc.items1, pc.items2, pc.verdict, Peers(cfg, i)))
  }

  ghost predicate ListedOn(cfg: Config, i: nat, pc: Driver, tr: Trace) {
    match pc
    case Send1(_) => ListedFirst(cfg, i, map[], tr)
    case Collect1(got) => ListedFirst(cfg, i, got, tr)
    case Send2(_, _, _) => ListedSecond(cfg, i, map[], tr)
    case Collect2(_, _, got) => ListedSecond(cfg, i, got, tr)
    case _ => true
  }

  /** The operator's state is where its driver got, if it got to the barrier or gave up by itself. */
  ghost predicate Explains(cfg: Config, i: nat, end: End, listed: bool, op: Op) {
    && (op.pc.Finishing() ==>
          listed && end == Reached(SendFin(op.pc.items1, op.pc.items2, op.pc.verdict, Peers(cfg, i))))
    && (op.life.Failed? && op.life.why !in {SendFailed, Killed} ==> listed && end == Dropped(op.life.why))
  }

  /** No call and no send fails. */
  function Smooth(): Luck {
    Luck(true, true, Always, Always)
  }

  predicate Always(m: map<nat, Bytes>) { true }

  // ---- every run is such a driver's --------------------------------------------------------------------

  lemma DownStays(cfg: Config, s: State, acts: seq<Action>, t: State, i: nat)
    requires Runs(cfg, s, acts, t) && i in s && !s[i].life.Up?
    ensures i in t && t[i].pc == s[i].pc && t[i].life == s[i].life && TraceOf(cfg, s, acts, i) == NOTHING
    decreases |acts|
  {
    if acts != [] {
      OtherStep(cfg, s, acts[0], i);
      DownStays(cfg, Apply(cfg, s, acts[0]), acts[1..], t, i);
    }
  }

  lemma OtherStep(cfg: Config, s: State, a: Action, i: nat)
    requires Enabled(cfg, s, a) && i in s && a.i != i
    ensures var u := Apply(cfg, s, a); i in u && u[i].pc == s[i].pc && u[i].life == s[i].life
  {
    hide StepOp;
  }

  /** What is still to come leads to the same end from both phases, and is listed from the later one. */
  ghost predicate SameEnd(cfg: Config, i: nat, pc: Driver, tr: Trace, pc': Driver, tr': Trace) {
    Onward(cfg, i, pc, tr) == Onward(cfg, i, pc', tr') && (ListedOn(cfg, i, pc', tr') ==> ListedOn(cfg, i, pc, tr))
  }

  lemma OneMoreTaken(cfg: Config, i: nat, pc: Driver, e: Envelope, got': map<nat, Bytes>, tr: Trace)
    requires pc.Collecting() && !PhaseDone(cfg, i, pc)
    requires Accept(Peers(cfg, i), CurrentTag(cfg, pc), pc.got, e) == Kept(got')
    ensures SameEnd(cfg, i, pc, Seen(tr, pc, Arrived(e)), pc.(got := got'), tr)
  {
    hide Accept, Peers, Advanced, Enumerates;
    assert ([Arrived(e)] + tr.events1)[1..] == tr.events1 && ([Arrived(e)] + tr.events2)[1..] == tr.events2;
  }

  lemma OwnTake(cfg: Config, s: State, i: nat, tr: Trace)
    requires Enabled(cfg, s, Take(i)) && Apply(cfg, s, Take(i))[i].life.Up?
    ensures SameEnd(cfg, i, s[i].pc, Preceded(cfg, s, Take(i), i, tr), Apply(cfg, s, Take(i))[i].pc, tr)
  {
    hide Accept, PhaseDone, SameEnd, CurrentTag, Peers;
    match Accept(Peers(cfg, i), CurrentTag(cfg, s[i].pc), s[i].pc.got, s[i].net.inbox[0])
    case Rejected(_) =>
    case Kept(got') => OneMoreTaken(cfg, i, s[i].pc, s[i].net.inbox[0], got', tr);
  }

  lemma OwnAdvance(cfg: Config, s: State, i: nat, order: seq<nat>, tr: Trace)
    requires Enabled(cfg, s, Step(i, order)) && i !in cfg.corrupt && Apply(cfg, s, Step(i, order))[i].life.Up?
    ensures SameEnd(cfg, i, s[i].pc, Preceded(cfg, s, Step(i, order), i, tr), Apply(cfg, s, Step(i, order))[i].pc, tr)
  {
    hide Received, Encode, Listed, Enumerates, Peers;
  }

  lemma OwnQuiet(cfg: Config, s: State, a: Action, i: nat, tr: Trace)
    requires Enabled(cfg, s, a) && a.i == i && !a.Take? && !a.Step? && Apply(cfg, s, a)[i].life.Up?
    ensures SameEnd(cfg, i, s[i].pc, Preceded(cfg, s, a, i, tr), Apply(cfg, s, a)[i].pc, tr)
  {
    hide FromFirst, FromSecond, ListedFirst, ListedSecond, OnFrame, OnClosed, Outgoing, PhaseDone, Peers;
  }

  lemma OwnStep(cfg: Config, s: State, a: Action, i: nat, tr: Trace)
    requires Enabled(cfg, s, a) && i in s && a.i == i && i !in cfg.corrupt && Apply(cfg, s, a)[i].life.Up?
    ensures SameEnd(cfg, i, s[i].pc, Preceded(cfg, s, a, i, tr), Apply(cfg, s, a)[i].pc, tr)
  {
    hide Enabled, Apply, Preceded, SameEnd;
    match a
    case Take(_) => OwnTake(cfg, s, i, tr);
    case Step(_, order) => OwnAdvance(cfg, s, i, order, tr);
    case _ => OwnQuiet(cfg, s, a, i, tr);
  }

  /** The step's outcome at the operator is what its driver comes to. */
  ghost predicate Ends(cfg: Config, s: State, a: Action, i: nat)
    requires Enabled(cfg, s, a)
  {
    var tr := Preceded(cfg, s, a, i, NOTHING);
    i in s && i in Apply(cfg, s, a)
    && Explains(cfg, i, Onward(cfg, i, s[i].pc, tr), ListedOn(cfg, i, s[i].pc, tr), Apply(cfg, s, a)[i])
  }

  lemma LastTake(cfg: Config, s: State, i: nat)
    requires Enabled(cfg, s, Take(i)) && !Apply(cfg, s, Take(i))[i].life.Up?
    ensures Ends(cfg, s, Take(i), i)
  {
    hide Accept, Advanced, Enumerates, Peers;
  }

  lemma LastAdvance(cfg: Config, s: State, i: nat, order: seq<nat>)
    requires Enabled(cfg, s, Step(i, order)) && i !in cfg.corrupt && !Apply(cfg, s, Step(i, order))[i].life.Up?
    ensures Ends(cfg, s, Step(i, order), i)
  {
    hide Received, Encode, Listed, Enumerates, Peers;
  }

  lemma LastQuiet(cfg: Config, s: State, a: Action, i: nat)
    requires Enabled(cfg, s, a) && a.i == i && !a.Take? && !a.Step? && !Apply(cfg, s, a)[i].life.Up?
    ensures Ends(cfg, s, a, i)
  {
    hide Accept, Advanced, Enumerates, Peers, OnFrame, OnClosed, Outgoing;
  }

  lemma LastStep(cfg: Config, s: State, a: Action, i: nat)
    requires Enabled(cfg, s, a) && i in s && a.i == i && i !in cfg.corrupt && !Apply(cfg, s, a)[i].life.Up?
    ensures Ends(cfg, s, a, i)
  {
    hide Enabled, Apply, Ends;
    match a
    case Take(_) => LastTake(cfg, s, i);
    case Step(_, order) => LastAdvance(cfg, s, i, order);
    case _ => LastQuiet(cfg, s, a, i);
  }

  lemma {:induction false} RunExplains(cfg: Config, s: State, acts: seq<Action>, t: State, i: nat)
    requires Runs(cfg, s, acts, t) && i in s && s[i].life.Up? && i !in cfg.corrupt
    ensures i in t
    ensures var tr := TraceOf(cfg, s, acts, i);
            Explains(cfg, i, Onward(cfg, i, s[i].pc, tr), ListedOn(cfg, i, s[i].pc, tr), t[i])
    decreases |acts|
  {
    hide Enabled, Apply, Preceded, Onward, ListedOn;
    if acts == [] {
      NowExplains(cfg, s, i);
    } else {
      var a, u := acts[0], Apply(cfg, s, acts[0]);
      SameOperators(cfg, s, a);
      var tr := TraceOf(cfg, u, acts[1..], i);
      if a.i != i {
        OtherStep(cfg, s, a, i);
        NotTraced(cfg, s, a, i, tr);
        RunExplains(cfg, u, acts[1..], t, i);
      } else if u[i].life.Up? {
        OwnStep(cfg, s, a, i, tr);
        RunExplains(cfg, u, acts[1..], t, i);
      } else {
        LastStep(cfg, s, a, i);
        DownStays(cfg, u, acts[1..], t, i);
      }
    }
  }

  lemma SameOperators(cfg: Config, s: State, a: Action)
    requires Enabled(cfg, s, a)
    ensures Apply(cfg, s, a).Keys == s.Keys
  {
    hide StepOp;
  }

  lemma NowExplains(cfg: Config, s: State, i: nat)
    requires i in s && s[i].life.Up?
    ensures Explains(cfg, i, Onward(cfg, i, s[i].pc, NOTHING), ListedOn(cfg, i, s[i].pc, NOTHING), s[i])
  {
    hide FromFirst, FromSecond, ListedFirst, ListedSecond;
  }

  lemma NotTraced(cfg: Config, s: State, a: Action, i: nat, tr: Trace)
    requires Enabled(cfg, s, a) && a.i != i
    ensures Preceded(cfg, s, a, i, tr) == tr
  {}

  lemma WholeDriver(cfg: Config, i: nat, tr: Trace, todo: set<nat>)
    ensures DriverEnd(cfg, i, Smooth(), tr.events1, tr.order1, tr.events2, tr.order2) == Onward(cfg, i, Send1(todo), tr)
    ensures ListedOn(cfg, i, Send1(todo), tr) ==>
              ListedInFull(cfg, i, Smooth(), tr.events1, tr.order1, tr.events2, tr.order2)
  {
    hide Collect, Enumerates, Received, Encode, Listed;
  }

  /**
   * In every run, what an honest operator took is genuine and leads the driver to the operator's own
   * state: to the same lists and verdict if it reached the barrier, and to the same reason if it gave
   * up otherwise than by a failed call or send.
   */
  lemma RunsAreDriven(cfg: Config, acts: seq<Action>, t: State, i: nat)
    requires Valid(cfg) && Runs(cfg, Init(cfg), acts, t) && i in cfg.ops && i !in cfg.corrupt
    ensures var tr := TraceOf(cfg, Init(cfg), acts, i);
            && i in t && Genuine(cfg, i, tr.events1) && Genuine(cfg, i, tr.events2)
            && Explains(cfg, i, DriverEnd(cfg, i, Smooth(), tr.events1, tr.order1, tr.events2, tr.order2),
                        ListedInFull(cfg, i, Smooth(), tr.events1, tr.order1, tr.events2, tr.order2), t[i])
  {
    InitOk(cfg);
    var tr := TraceOf(cfg, Init(cfg), acts, i);
    hide Valid, Inv, Runs, TraceOf, Onward, ListedOn, Genuine, DriverEnd, ListedInFull;
    TraceIsGenuine(cfg, Init(cfg), acts, t, i);
    RunExplains(cfg, Init(cfg), acts, t, i);
    WholeDriver(cfg, i, tr, Peers(cfg, i));
  }
}

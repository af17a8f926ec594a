/**
 * The imperative drivers are parts of runs of the step system: on the same frames, whenever they arrive,
 * operator `i` gets to the same end by its own `Write`, `Step` and `Take` steps among everybody else's.
 */
module FrostRuns {
  import opened Bytes
  import opened Framing
  import opened Transport
  import opened FrostNet
  import opened FrostInvariant
  import opened FrostEarly
  import opened FrostDriver

  // ---- runs by one operator's own steps ------------------------------------------------------------

  ghost predicate Own(acts: seq<Action>, i: nat) {
    forall a <- acts :: a.i == i && !a.Read? && !a.Eof?
  }

  /** `t` is reached from `s` by steps of operator `i`'s driver only. */
  ghost predicate RunsAlone(cfg: Config, s: State, acts: seq<Action>, t: State, i: nat) {
    Runs(cfg, s, acts, t) && Own(acts, i) && Moved(s, t, i)
  }

  lemma {:induction false} RunsThen(cfg: Config, s: State, a: seq<Action>, t: State, b: seq<Action>, u: State)
    requires Runs(cfg, s, a, t) && Runs(cfg, t, b, u)
    ensures Runs(cfg, s, a + b, u)
    decreases |a|
  {
    hide Enabled, Apply;
    if a == [] {
      assert [] + b == b;
    } else {
      assert (a + b)[1..] == a[1..] + b && (a + b)[0] == a[0];
      RunsThen(cfg, Apply(cfg, s, a[0]), a[1..], t, b, u);
    }
  }

  lemma AloneThen(cfg: Config, s: State, a: seq<Action>, t: State, b: seq<Action>, u: State, i: nat)
    requires RunsAlone(cfg, s, a, t, i) && RunsAlone(cfg, t, b, u, i)
    ensures RunsAlone(cfg, s, a + b, u, i)
  {
    hide Runs;
    RunsThen(cfg, s, a, t, b, u);
  }

  lemma OneStep(cfg: Config, s: State, a: Action, t: State, i: nat)
    requires Enabled(cfg, s, a) && t == Apply(cfg, s, a) && a.i == i && !a.Read? && !a.Eof? && Moved(s, t, i)
    ensures RunsAlone(cfg, s, [a], t, i)
  {
    hide Enabled, Apply;
    assert [a][1..] == [] && Runs(cfg, t, [], t);
  }

  lemma NoStep(cfg: Config, s: State, i: nat)
    requires i in s
    ensures RunsAlone(cfg, s, [], s, i)
  {}

  lemma Stops(cfg: Config, s: State, a: Action, i: nat, life: Life) returns (acts: seq<Action>, t: State)
    requires i in s && Enabled(cfg, s, a) && Apply(cfg, s, a) == s[i := s[i].(life := life)]
    requires a.i == i && !a.Read? && !a.Eof?
    ensures RunsAlone(cfg, s, acts, t, i) && t[i] == s[i].(life := life)
  {
    hide Enabled, Apply;
    acts, t := [a], s[i := s[i].(life := life)];
    OneStep(cfg, s, a, t, i);
  }

  // ---- sending ---------------------------------------------------------------------------------------

  /** The links after the current frame went to everybody still to be sent it. */
  function Written(cfg: Config, i: nat, pc: Driver, wire: map<nat, seq<Envelope>>): map<nat, seq<Envelope>>
    requires pc.Sending()
  {
    map j | j in wire :: if j in pc.todo then wire[j] + [Outgoing(cfg, i, pc, j)] else wire[j]
  }

  lemma WriteEffect(cfg: Config, s: State, i: nat, j: nat)
    requires i in s && s[i].life.Up? && Link(s, i, j) && s[i].pc.Sending() && j in s[i].pc.todo
    ensures Enabled(cfg, s, Write(i, j))
    ensures Apply(cfg, s, Write(i, j))
         == s[i := s[i].(pc := s[i].pc.(todo := s[i].pc.todo - {j}),
                         wire := s[i].wire[j := s[i].wire[j] + [Outgoing(cfg, i, s[i].pc, j)]])]
  {
    hide Outgoing;
  }

  lemma SameOutgoing(cfg: Config, i: nat, pc: Driver, todo: set<nat>, j: nat)
    requires pc.Sending()
    ensures Outgoing(cfg, i, pc.(todo := todo), j) == Outgoing(cfg, i, pc, j)
  {}

  lemma WrittenFirst(cfg: Config, i: nat, pc: Driver, wire: map<nat, seq<Envelope>>, j: nat)
    requires pc.Sending() && j in pc.todo && j in wire
    ensures Written(cfg, i, pc.(todo := pc.todo - {j}), wire[j := wire[j] + [Outgoing(cfg, i, pc, j)]])
         == Written(cfg, i, pc, wire)
  {
    forall k | k in wire ensures Outgoing(cfg, i, pc.(todo := pc.todo - {j}), k) == Outgoing(cfg, i, pc, k) {
      SameOutgoing(cfg, i, pc, pc.todo - {j}, k);
    }
    hide Outgoing;
  }

  /** One write, with what is still to be done the same in the end. */
  lemma WriteOneOf(cfg: Config, s: State, i: nat, j: nat) returns (t: State)
    requires i in s && s[i].life.Up? && s[i].pc.Sending() && Linked(s, i, s[i].pc.todo) && j in s[i].pc.todo
    ensures RunsAlone(cfg, s, [Write(i, j)], t, i) && i in t
    ensures t[i] == s[i].(pc := s[i].pc.(todo := s[i].pc.todo - {j}), wire := t[i].wire)
    ensures t[i].pc.Sending() && Linked(t, i, t[i].pc.todo)
    ensures Written(cfg, i, t[i].pc, t[i].wire) == Written(cfg, i, s[i].pc, s[i].wire)
  {
    WriteEffect(cfg, s, i, j);
    hide Enabled, Apply, Outgoing, RunsAlone, Written;
    WrittenFirst(cfg, i, s[i].pc, s[i].wire, j);
    t := Apply(cfg, s, Write(i, j));
    OneStep(cfg, s, Write(i, j), t, i);
  }

  ghost predicate Linked(s: State, i: nat, todo: set<nat>) {
    forall j <- todo :: Link(s, i, j)
  }

  lemma WrittenNone(cfg: Config, i: nat, pc: Driver, wire: map<nat, seq<Envelope>>)
    requires pc.Sending() && pc.todo == {}
    ensures Written(cfg, i, pc, wire) == wire
  {
    hide Outgoing;
  }

  lemma {:induction false} WriteAll(cfg: Config, s: State, i: nat) returns (acts: seq<Action>, t: State)
    requires i in s && s[i].life.Up? && s[i].pc.Sending() && Linked(s, i, s[i].pc.todo)
    ensures RunsAlone(cfg, s, acts, t, i)
    ensures i in t && t[i] == s[i].(pc := s[i].pc.(todo := {}), wire := Written(cfg, i, s[i].pc, s[i].wire))
    decreases |s[i].pc.todo|
  {
    hide Written, Linked, Runs, Own;
    if s[i].pc.todo == {} {
      acts, t := [], s;
      NoStep(cfg, s, i);
      WrittenNone(cfg, i, s[i].pc, s[i].wire);
    } else {
      hide RunsAlone;
      var j :| j in s[i].pc.todo;
      var u := WriteOneOf(cfg, s, i, j);
      var rest: seq<Action>;
      rest, t := WriteAll(cfg, u, i);
      acts := [Write(i, j)] + rest;
      AloneThen(cfg, s, [Write(i, j)], u, rest, t, i);
    }
  }

  // ---- collecting --------------------------------------------------------------------------------------

  ghost predicate Foreign(acts: seq<Action>, i: nat) {
    forall a <- acts :: a.i != i || a.Read? || a.Eof?
  }

  /** A stretch in which readers and other operators act, and the state it leads to. */
  datatype Feed = Feed(acts: seq<Action>, after: State)

  /**
   * The events reach operator `i`'s collection, one stretch before each: a frame is then at the head of
   * its inbox, an abort in its error channel. Stretches may be empty, and the rest of the system is free.
   */
  ghost predicate Feeds(cfg: Config, s: State, i: nat, events: seq<Event>, feeds: seq<Feed>)
    requires i in s && s[i].pc.Collecting()
    decreases |events|
  {
    |s[i].pc.got| < |Peers(cfg, i)| && events != [] ==>
      feeds != []
      && var v := feeds[0].after;
         Runs(cfg, s, feeds[0].acts, v) && Foreign(feeds[0].acts, i)
         && i in v && v[i].pc == s[i].pc && v[i].life.Up?
         && match events[0]
            case TransportAborted => v[i].net.errs > 0
            case Arrived(e) =>
              v[i].net.inbox != [] && v[i].net.inbox[0] == e
              && match Accept(Peers(cfg, i), CurrentTag(cfg, s[i].pc), s[i].pc.got, e)
                 case Rejected(_) => true
                 case Kept(got') => Feeds(cfg, AfterTake(v, i, got'), i, events[1..], feeds[1..])
  }

  function AfterTake(s: State, i: nat, got: map<nat, Bytes>): State
    requires i in s && s[i].pc.Collecting() && s[i].net.inbox != []
  {
    s[i := s[i].(pc := s[i].pc.(got := got), net := s[i].net.(inbox := s[i].net.inbox[1..]))]
  }

  /** The run: every stretch, and behind it what the collection does about its event. */
  function Woven(i: nat, want: set<nat>, tag: byte, got: map<nat, Bytes>, events: seq<Event>, feeds: seq<Feed>): seq<Action>
    decreases |events|
  {
    if |got| >= |want| then []
    else if events == [] then [Timeout(i)]
    else if feeds == [] then []
    else feeds[0].acts
         + match events[0]
           case TransportAborted => [TakeErr(i)]
           case Arrived(e) =>
             [Take(i)] + match Accept(want, tag, got, e)
                         case Rejected(_) => []
                         case Kept(got') => Woven(i, want, tag, got', events[1..], feeds[1..])
  }

  lemma GiveUpSteps(cfg: Config, s: State, i: nat)
    requires i in s && s[i].life.Up? && s[i].pc.Collecting() && !PhaseDone(cfg, i, s[i].pc)
    ensures Enabled(cfg, s, Timeout(i)) && Apply(cfg, s, Timeout(i)) == s[i := s[i].(life := Failed(TimedOut))]
    ensures s[i].net.errs > 0 ==>
              Enabled(cfg, s, TakeErr(i)) && Apply(cfg, s, TakeErr(i)) == s[i := s[i].(life := Failed(TransportError))]
  {
    hide PhaseDone;
  }

  lemma OneRun(cfg: Config, s: State, a: Action, t: State)
    requires Enabled(cfg, s, a) && t == Apply(cfg, s, a)
    ensures Runs(cfg, s, [a], t)
  {
    hide Enabled, Apply;
    assert [a][1..] == [] && Runs(cfg, t, [], t);
  }

  /** Where a collection left its operator. */
  ghost predicate CollectedAt(op: Op, pc: Driver, r: Collected)
    requires pc.Collecting()
  {
    match r
    case AllIn(got) => op.pc == pc.(got := got) && op.life.Up?
    case GaveUp(why) => op.life == Failed(why)
  }

  /** However its frames arrive, a collection is a run of `Take`, `TakeErr` and `Timeout` steps between them. */
  lemma {:induction false} CollectRuns(cfg: Config, s: State, i: nat, events: seq<Event>, feeds: seq<Feed>)
    returns (t: State)
    requires i in s && s[i].life.Up? && s[i].pc.Collecting() && Feeds(cfg, s, i, events, feeds)
    ensures Runs(cfg, s, Woven(i, Peers(cfg, i), CurrentTag(cfg, s[i].pc), s[i].pc.got, events, feeds), t)
    ensures i in t
    ensures CollectedAt(t[i], s[i].pc, Collect(Peers(cfg, i), CurrentTag(cfg, s[i].pc), s[i].pc.got, events))
    decreases |events|
  {
    hide Runs, Enabled, Apply, Accept, Peers, CurrentTag;
    if |s[i].pc.got| >= |Peers(cfg, i)| {
      t := s;
      RunsNowhere(cfg, s);
    } else if events == [] {
      GiveUpSteps(cfg, s, i);
      t := Apply(cfg, s, Timeout(i));
      OneRun(cfg, s, Timeout(i), t);
    } else {
      var v := feeds[0].after;
      if events[0].TransportAborted? {
        GiveUpSteps(cfg, v, i);
        t := Apply(cfg, v, TakeErr(i));
        OneRun(cfg, v, TakeErr(i), t);
        RunsThen(cfg, s, feeds[0].acts, v, [TakeErr(i)], t);
      } else {
        t := TakeRuns(cfg, v, i, events, feeds);
        RunsThen(cfg, s, feeds[0].acts, v, AfterFeed(cfg, v, i, events, feeds), t);
      }
    }
  }

  lemma RunsNowhere(cfg: Config, s: State)
    ensures Runs(cfg, s, [], s)
  {}

  /** The run from the first event's arrival on. */
  ghost function AfterFeed(cfg: Config, v: State, i: nat, events: seq<Event>, feeds: seq<Feed>): seq<Action>
    requires i in v && v[i].pc.Collecting() && events != [] && events[0].Arrived? && feeds != []
  {
    [Take(i)] + match Accept(Peers(cfg, i), CurrentTag(cfg, v[i].pc), v[i].pc.got, events[0].e)
                case Rejected(_) => []
                case Kept(got') => Woven(i, Peers(cfg, i), CurrentTag(cfg, v[i].pc), got', events[1..], feeds[1..])
  }

  lemma TakeRuns(cfg: Config, v: State, i: nat, events: seq<Event>, feeds: seq<Feed>) returns (t: State)
    requires i in v && v[i].life.Up? && v[i].pc.Collecting() && |v[i].pc.got| < |Peers(cfg, i)|
    requires events != [] && events[0].Arrived? && feeds != [] && v[i].net.inbox != [] && v[i].net.inbox[0] == events[0].e
    requires match Accept(Peers(cfg, i), CurrentTag(cfg, v[i].pc), v[i].pc.got, events[0].e)
             case Rejected(_) => true
             case Kept(got') => Feeds(cfg, AfterTake(v, i, got'), i, events[1..], feeds[1..])
    ensures Runs(cfg, v, AfterFeed(cfg, v, i, events, feeds), t) && i in t
    ensures CollectedAt(t[i], v[i].pc, Collect(Peers(cfg, i), CurrentTag(cfg, v[i].pc), v[i].pc.got, events))
    decreases |events|, 0
  {
    hide Runs, Enabled, Apply, Accept, Peers, Feeds;
    match Accept(Peers(cfg, i), CurrentTag(cfg, v[i].pc), v[i].pc.got, events[0].e)
    case Rejected(why) =>
      TakeRefused(cfg, v, i, why);
      t := Apply(cfg, v, Take(i));
      OneRun(cfg, v, Take(i), t);
      assert [Take(i)] + [] == [Take(i)];
    case Kept(got') =>
      TakeAccepted(cfg, v, i, got');
      var u := AfterTake(v, i, got');
      OneRun(cfg, v, Take(i), u);
      assert CurrentTag(cfg, u[i].pc) == CurrentTag(cfg, v[i].pc);
      hide CurrentTag;
      t := CollectRuns(cfg, u, i, events[1..], feeds[1..]);
      RunsThen(cfg, v, [Take(i)], u,
               Woven(i, Peers(cfg, i), CurrentTag(cfg, v[i].pc), got', events[1..], feeds[1..]), t);
  }

  lemma {:induction false} CollectFull(want: set<nat>, tag: byte, got: map<nat, Bytes>, events: seq<Event>)
    ensures Collect(want, tag, got, events).AllIn? ==> |Collect(want, tag, got, events).got| >= |want|
    decreases |events|
  {
    hide Accept;
    if |got| < |want| && events != [] && events[0].Arrived? {
      match Accept(want, tag, got, events[0].e)
      case Rejected(_) =>
      case Kept(got') => CollectFull(want, tag, got', events[1..]);
    }
  }

  // ---- advancing -----------------------------------------------------------------------------------------

  /** One advance, as one step; `finished` is set on the way into the barrier. */
  lemma AdvanceRuns(cfg: Config, s: State, i: nat, order: seq<nat>) returns (acts: seq<Action>, t: State)
    requires i in s && s[i].life.Up? && !s[i].pc.WaitFin? && PhaseDone(cfg, i, s[i].pc)
    requires s[i].pc.Collecting() ==> Enumerates(order, s[i].pc.got.Keys)
    ensures acts == [Step(i, order)] && RunsAlone(cfg, s, acts, t, i) && i in t
    ensures match Advanced(cfg, i, s[i].pc, order)
            case Stop(why) => t[i] == s[i].(life := Failed(why))
            case Go(pc) =>
              t[i] == s[i].(pc := pc, net := s[i].net.(finished := s[i].net.finished || pc.SendFin?))
  {
    hide Advanced, PhaseDone, Enumerates;
    acts, t := [Step(i, order)], Apply(cfg, s, Step(i, order));
    OneStep(cfg, s, Step(i, order), t, i);
  }

  lemma Failures(cfg: Config, s: State, i: nat, j: nat)
    requires i in s && s[i].life.Up?
    ensures Enabled(cfg, s, Kill(i)) && Apply(cfg, s, Kill(i)) == s[i := s[i].(life := Failed(Killed))]
    ensures Link(s, i, j) && (s[i].pc.Send1? || s[i].pc.Send2?) && j in s[i].pc.todo && !s[j].life.Up? ==>
              Enabled(cfg, s, WriteFails(i, j))
              && Apply(cfg, s, WriteFails(i, j)) == s[i := s[i].(life := Failed(SendFailed))]
  {}

  // ---- the two halves of a driver ------------------------------------------------------------------------

  function CollectionAfter(pc: Driver): Driver
    requires pc.Send1? || pc.Send2?
  {
    match pc
    case Send1(_) => Collect1(map[])
    case Send2(items1, out, _) => Collect2(items1, out, map[])
  }

  function Emptied(pc: Driver): Driver
    requires pc.Send1? || pc.Send2?
  {
    match pc
    case Send1(_) => Send1({})
    case Send2(items1, out, _) => Send2(items1, out, {})
  }

  function TagAfter(cfg: Config, pc: Driver): byte {
    Tag(cfg.kind, if pc.Send1? then 1 else 2)
  }

  /** Operator `i` is about to send a round. */
  ghost predicate Poised(cfg: Config, s: State, i: nat) {
    && i in s && s[i].life.Up? && i !in cfg.corrupt && (s[i].pc.Send1? || s[i].pc.Send2?)
    && s[i].pc.todo == Peers(cfg, i) && Linked(s, i, Peers(cfg, i))
  }

  /** The round is sent and its collection begun. */
  function Announced(cfg: Config, s: State, i: nat): State
    requires i in s && (s[i].pc.Send1? || s[i].pc.Send2?)
  {
    s[i := s[i].(pc := CollectionAfter(s[i].pc), wire := Written(cfg, i, s[i].pc, s[i].wire))]
  }

  lemma AfterSending(cfg: Config, i: nat, pc: Driver)
    requires (pc.Send1? || pc.Send2?) && i !in cfg.corrupt
    ensures PhaseDone(cfg, i, Emptied(pc)) && Advanced(cfg, i, Emptied(pc), []) == Go(CollectionAfter(pc))
    ensures CurrentTag(cfg, CollectionAfter(pc)) == TagAfter(cfg, pc) && CollectionAfter(pc).Collecting()
    ensures CollectionAfter(pc).got == map[]
  {}

  lemma SendRuns(cfg: Config, s: State, i: nat) returns (acts: seq<Action>)
    requires Poised(cfg, s, i)
    ensures Runs(cfg, s, acts, Announced(cfg, s, i)) && Own(acts, i)
  {
    AfterSending(cfg, i, s[i].pc);
    hide Linked, Written, Runs, Own, Advanced, PhaseDone, Peers;
    var a, u := WriteAll(cfg, s, i);
    var b, v := AdvanceRuns(cfg, u, i, []);
    AloneThen(cfg, s, a, u, b, v, i);
    acts := a + b;
    assert v == Announced(cfg, s, i);
  }

  /** The events of the collection behind the send arrive in some way. */
  ghost predicate FedAfterSend(cfg: Config, s: State, i: nat, events: seq<Event>, feeds: seq<Feed>) {
    && i in s && (s[i].pc.Send1? || s[i].pc.Send2?)
    && Feeds(cfg, Announced(cfg, s, i), i, events, feeds)
  }

  /** What happens between the send of a round and the driver's next phase. */
  function RoundActs(cfg: Config, i: nat, pc: Driver, events: seq<Event>, order: seq<nat>, feeds: seq<Feed>): seq<Action> {
    Woven(i, Peers(cfg, i), TagAfter(cfg, pc), map[], events, feeds)
    + if Collect(Peers(cfg, i), TagAfter(cfg, pc), map[], events).AllIn? then [Step(i, order)] else []
  }

  /** Where the send of a round, its collection and the advance behind it leave the operator. */
  ghost predicate RoundEnds(cfg: Config, i: nat, pc: Driver, events: seq<Event>, order: seq<nat>, op: Op)
    requires pc.Send1? || pc.Send2?
  {
    match Collect(Peers(cfg, i), TagAfter(cfg, pc), map[], events)
    case GaveUp(why) => op.life == Failed(why)
    case AllIn(got) =>
      match Advanced(cfg, i, CollectionAfter(pc).(got := got), order)
      case Stop(why) => op.life == Failed(why)
      case Go(pc') => op.pc == pc' && op.life.Up?
  }

  ghost predicate OrderFits(cfg: Config, i: nat, pc: Driver, events: seq<Event>, order: seq<nat>) {
    var r := Collect(Peers(cfg, i), TagAfter(cfg, pc), map[], events);
    r.AllIn? ==> Enumerates(order, r.got.Keys)
  }

  lemma CollectionRuns(cfg: Config, s: State, i: nat, pc: Driver, events: seq<Event>, order: seq<nat>, feeds: seq<Feed>)
    returns (t: State)
    requires (pc.Send1? || pc.Send2?) && i !in cfg.corrupt
    requires i in s && s[i].life.Up? && s[i].pc == CollectionAfter(pc) && s[i].pc.Collecting()
    requires Feeds(cfg, s, i, events, feeds) && OrderFits(cfg, i, pc, events, order)
    ensures Runs(cfg, s, RoundActs(cfg, i, pc, events, order, feeds), t) && i in t
    ensures RoundEnds(cfg, i, pc, events, order, t[i])
  {
    AfterSending(cfg, i, pc);
    CollectFull(Peers(cfg, i), TagAfter(cfg, pc), map[], events);
    hide Runs, Feeds, Woven, Advanced, Peers, Collect, TagAfter, CurrentTag, Enumerates;
    var v := CollectRuns(cfg, s, i, events, feeds);
    var weave := Woven(i, Peers(cfg, i), TagAfter(cfg, pc), map[], events, feeds);
    if Collect(Peers(cfg, i), TagAfter(cfg, pc), map[], events).AllIn? {
      assert PhaseDone(cfg, i, v[i].pc);
      hide PhaseDone, RunsAlone;
      var step: seq<Action>;
      step, t := AdvanceRuns(cfg, v, i, order);
      AloneIsRun(cfg, v, step, t, i);
      RunsThen(cfg, s, weave, v, step, t);
    } else {
      t := v;
      assert weave + [] == weave;
    }
  }

  /** The send of a round, the collection between the arrivals, and the advance if everything came in. */
  lemma RoundRuns(cfg: Config, s: State, i: nat, events: seq<Event>, order: seq<nat>, feeds: seq<Feed>)
    returns (writes: seq<Action>, acts: seq<Action>, t: State)
    requires Poised(cfg, s, i) && FedAfterSend(cfg, s, i, events, feeds) && OrderFits(cfg, i, s[i].pc, events, order)
    ensures Runs(cfg, s, acts, t) && i in t && Own(writes, i)
    ensures acts == writes + RoundActs(cfg, i, s[i].pc, events, order, feeds)
    ensures RoundEnds(cfg, i, s[i].pc, events, order, t[i])
  {
    AfterSending(cfg, i, s[i].pc);
    writes := SendRuns(cfg, s, i);
    var u := Announced(cfg, s, i);
    hide Runs, Own, Feeds, RoundActs, RoundEnds, OrderFits, Written;
    t := CollectionRuns(cfg, u, i, s[i].pc, events, order, feeds);
    acts := writes + RoundActs(cfg, i, s[i].pc, events, order, feeds);
    RunsThen(cfg, s, writes, u, RoundActs(cfg, i, s[i].pc, events, order, feeds), t);
  }

  lemma AloneIsRun(cfg: Config, s: State, acts: seq<Action>, t: State, i: nat)
    requires RunsAlone(cfg, s, acts, t, i)
    ensures Runs(cfg, s, acts, t)
  {}

  ghost predicate SomeDown(s: State, peers: set<nat>) {
    exists j <- peers :: j in s && !s[j].life.Up?
  }

  lemma SendBreaks(cfg: Config, s: State, i: nat) returns (acts: seq<Action>, t: State)
    requires Poised(cfg, s, i) && SomeDown(s, Peers(cfg, i))
    ensures Runs(cfg, s, acts, t) && i in t && t[i].life == Failed(SendFailed)
  {
    var j :| j in Peers(cfg, i) && j in s && !s[j].life.Up?;
    Failures(cfg, s, i, j);
    hide Enabled, Apply;
    acts, t := [WriteFails(i, j)], Apply(cfg, s, WriteFails(i, j));
    OneRun(cfg, s, WriteFails(i, j), t);
  }

  lemma CallBreaks(cfg: Config, s: State, i: nat) returns (acts: seq<Action>, t: State)
    requires Poised(cfg, s, i)
    ensures Runs(cfg, s, acts, t) && i in t && t[i].life == Failed(Killed)
  {
    Failures(cfg, s, i, i);
    hide Enabled, Apply;
    acts, t := [Kill(i)], Apply(cfg, s, Kill(i));
    OneRun(cfg, s, Kill(i), t);
  }

  /**
   * Up to its second send a driver is operator `i`'s part of a run, whenever and however its frames
   * arrive: it fails there where the driver gives up, and otherwise stands where the driver stands.
   */
  lemma FirstHalfRuns(cfg: Config, s: State, i: nat, luck: Luck, events1: seq<Event>, order1: seq<nat>,
                      events2: seq<Event>, order2: seq<nat>, feeds: seq<Feed>)
    returns (writes: seq<Action>, acts: seq<Action>, t: State)
    requires Poised(cfg, s, i) && s[i].pc.Send1?
    requires luck.call1 && !luck.sent1 ==> SomeDown(s, Peers(cfg, i))
    requires luck.call1 && luck.sent1 ==> FedAfterSend(cfg, s, i, events1, feeds)
    requires ListedInFull(cfg, i, luck, events1, order1, events2, order2)
    ensures Runs(cfg, s, acts, t) && i in t
    ensures luck.call1 && luck.sent1 ==>
              Own(writes, i) && acts == writes + RoundActs(cfg, i, s[i].pc, events1, order1, feeds)
    ensures var mid, end := Midway(cfg, i, luck, events1, order1),
                            DriverEnd(cfg, i, luck, events1, order1, events2, order2);
            if mid.None? then end.Dropped? && t[i].life == Failed(end.why)
            else t[i].pc == mid.value && t[i].life.Up?
  {
    writes := [];
    if !luck.call1 {
      hide Poised, AfterFirst, Runs;
      acts, t := CallBreaks(cfg, s, i);
    } else if !luck.sent1 {
      hide Poised, AfterFirst, Runs;
      acts, t := SendBreaks(cfg, s, i);
    } else {
      assert FirstRound(cfg, i, events1) == Collect(Peers(cfg, i), TagAfter(cfg, s[i].pc), map[], events1);
      hide Poised, AfterFirst, Runs, Own, Collect, FirstRound, FedAfterSend, RoundActs, Enumerates, Advanced, SecondStarts,
           SecondRound;
      writes, acts, t := RoundRuns(cfg, s, i, events1, order1, feeds);
    }
  }

  /** The same from the second send to the barrier. */
  lemma SecondHalfRuns(cfg: Config, s: State, i: nat, luck: Luck, events2: seq<Event>, order2: seq<nat>, feeds: seq<Feed>)
    returns (writes: seq<Action>, acts: seq<Action>, t: State)
    requires Poised(cfg, s, i) && s[i].pc.Send2? && Received(Encode(s[i].pc.items1)).Some?
    requires !luck.sent2(s[i].pc.out) ==> SomeDown(s, Peers(cfg, i))
    requires luck.sent2(s[i].pc.out) ==> FedAfterSend(cfg, s, i, events2, feeds)
    requires SecondRound(cfg, i, events2).AllIn? ==> Enumerates(order2, SecondRound(cfg, i, events2).got.Keys)
    ensures Runs(cfg, s, acts, t) && i in t
    ensures luck.call2(Received(Encode(s[i].pc.items1)).value) && luck.sent2(s[i].pc.out) ==>
              Own(writes, i) && acts == writes + RoundActs(cfg, i, s[i].pc, events2, order2, feeds)
    ensures match AfterFirst(cfg, i, luck, s[i].pc, events2, order2)
            case Dropped(why) => t[i].life == Failed(why)
            case Reached(pc) => t[i].pc == pc && t[i].life.Up?
  {
    writes := [];
    hide Received, Encode;
    if !luck.call2(Received(Encode(s[i].pc.items1)).value) {
      hide Poised, Runs;
      acts, t := CallBreaks(cfg, s, i);
    } else if !luck.sent2(s[i].pc.out) {
      hide Poised, Runs;
      acts, t := SendBreaks(cfg, s, i);
    } else {
      assert SecondRound(cfg, i, events2) == Collect(Peers(cfg, i), TagAfter(cfg, s[i].pc), map[], events2);
      hide Poised, Runs, Own, Collect, SecondRound, FedAfterSend, RoundActs, Enumerates, Advanced;
      writes, acts, t := RoundRuns(cfg, s, i, events2, order2, feeds);
    }
  }

  // ---- the barrier --------------------------------------------------------------------------------------

  lemma BarrierSteps(cfg: Config, s: State, i: nat)
    requires i in s && s[i].life.Up? && s[i].pc.WaitFin?
    ensures |s[i].pc.fins| >= |Peers(cfg, i)| ==>
              Enabled(cfg, s, Step(i, [])) && Apply(cfg, s, Step(i, [])) == s[i := s[i].(life := Closed(true))]
    ensures |s[i].pc.fins| < |Peers(cfg, i)| ==>
              Enabled(cfg, s, Deadline(i)) && Apply(cfg, s, Deadline(i)) == s[i := s[i].(life := Closed(false))]
    ensures |s[i].pc.fins| < |Peers(cfg, i)| && s[i].net.finCh != [] ==>
              Enabled(cfg, s, TakeFin(i))
              && Apply(cfg, s, TakeFin(i)) ==
                 s[i := s[i].(pc := s[i].pc.(fins := s[i].pc.fins + {s[i].net.finCh[0]}),
                              net := s[i].net.(finCh := s[i].net.finCh[1..]))]
  {
    hide Peers;
  }

  lemma MoreFins(fins: set<nat>, q: seq<nat>)
    ensures q != [] ==> fins + {q[0]} + Network.Members(q[1..]) == fins + Network.Members(q)
    ensures q == [] ==> fins + Network.Members(q) == fins
    ensures |fins + Network.Members(q)| >= |fins|
  {
    Fewer(fins, fins + Network.Members(q));
  }

  lemma {:induction false} AwaitRuns(cfg: Config, s: State, i: nat) returns (acts: seq<Action>, t: State)
    requires i in s && s[i].life.Up? && s[i].pc.WaitFin?
    ensures RunsAlone(cfg, s, acts, t, i) && i in t
    ensures t[i].life == Closed(|s[i].pc.fins + Network.Members(s[i].net.finCh)| >= |Peers(cfg, i)|)
    ensures t[i].pc.WaitFin? && t[i].pc.verdict == s[i].pc.verdict && t[i].wire == s[i].wire
    decreases |s[i].net.finCh|
  {
    BarrierSteps(cfg, s, i);
    MoreFins(s[i].pc.fins, s[i].net.finCh);
    hide Enabled, Apply, Peers, RunsAlone, Network.Members;
    if |s[i].pc.fins| >= |Peers(cfg, i)| {
      acts, t := Stops(cfg, s, Step(i, []), i, Closed(true));
    } else if s[i].net.finCh == [] {
      acts, t := Stops(cfg, s, Deadline(i), i, Closed(false));
    } else {
      var u := Apply(cfg, s, TakeFin(i));
      OneStep(cfg, s, TakeFin(i), u, i);
      var more: seq<Action>;
      more, t := AwaitRuns(cfg, u, i);
      acts := [TakeFin(i)] + more;
      AloneThen(cfg, s, [TakeFin(i)], u, more, t, i);
    }
  }

  /** The barrier on the FINs in the channel: full exactly when they come from as many operators as there are peers. */
  lemma BarrierRuns(cfg: Config, s: State, i: nat) returns (acts: seq<Action>, t: State)
    requires i in s && s[i].life.Up? && s[i].pc.SendFin? && s[i].pc.todo == Peers(cfg, i) && Linked(s, i, Peers(cfg, i))
    ensures RunsAlone(cfg, s, acts, t, i) && i in t
    ensures t[i].life == Closed(|Network.Members(s[i].net.finCh)| >= |Peers(cfg, i)|)
    ensures t[i].pc.WaitFin? && t[i].pc.verdict == s[i].pc.verdict && t[i].wire == Written(cfg, i, s[i].pc, s[i].wire)
  {
    hide Linked, Written, RunsAlone, Network.Members;
    var a, u := WriteAll(cfg, s, i);
    var b, v := AdvanceRuns(cfg, u, i, []);
    AloneThen(cfg, s, a, u, b, v, i);
    assert {} + Network.Members(v[i].net.finCh) == Network.Members(s[i].net.finCh);
    var c: seq<Action>;
    c, t := AwaitRuns(cfg, v, i);
    AloneThen(cfg, s, a + b, v, c, t, i);
    acts := a + b + c;
  }
}

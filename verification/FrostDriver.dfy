/** The drivers as the engine runs them, one operator at a time, over what its channels deliver. */
module FrostDriver {
  import opened Bytes
  import opened Framing
  import opened Transport
  import opened FrostNet
  import opened FrostInvariant
  import opened Network

  // ---- one collection --------------------------------------------------------------------------

  /** What the `select` of a collection receives; running out of events stands for the deadline. */
  datatype Event = Arrived(e: Envelope) | TransportAborted

  datatype Collected = AllIn(got: map<nat, Bytes>) | GaveUp(why: Why)

  /** The collection as repeated acceptance, the step system's `Take`. */
  function Collect(want: set<nat>, tag: byte, got: map<nat, Bytes>, events: seq<Event>): Collected
    decreases |events|
  {
    if |got| >= |want| then AllIn(got)
    else if events == [] then GaveUp(TimedOut)
    else match events[0]
         case TransportAborted => GaveUp(TransportError)
         case Arrived(e) =>
           match Accept(want, tag, got, e)
           case Rejected(why) => GaveUp(why)
           case Kept(got') => Collect(want, tag, got', events[1..])
  }

  /** Event `k` is a wanted frame: right sender, right tag, and none of that sender before. */
  ghost predicate Good(want: set<nat>, tag: byte, events: seq<Event>, k: nat)
    requires k < |events|
  {
    && events[k].Arrived? && events[k].e.from in want
    && events[k].e.payload != [] && events[k].e.payload[0] == tag
    && forall m :: 0 <= m < k && events[m].Arrived? ==> events[m].e.from != events[k].e.from
  }

  ghost predicate GoodUpTo(want: set<nat>, tag: byte, events: seq<Event>, n: nat)
    requires n <= |events|
  {
    forall k {:trigger Good(want, tag, events, k)} :: 0 <= k < n ==> Good(want, tag, events, k)
  }

  /** The first events are one frame of each wanted peer, all with the round's tag. */
  ghost predicate CameIn(events: seq<Event>, want: set<nat>, tag: byte) {
    && |want| <= |events|
    && (forall k {:trigger events[k]} :: 0 <= k < |want| ==>
          events[k].Arrived? && events[k].e.from in want
          && events[k].e.payload != [] && events[k].e.payload[0] == tag)
    && (forall k, m :: 0 <= k < m < |want| ==> events[k].e.from != events[m].e.from)
  }

  /** `got` is the payloads of the first `n` events, tag removed. */
  ghost predicate Payloads(events: seq<Event>, n: nat, got: map<nat, Bytes>)
    requires n <= |events|
  {
    && (forall k :: 0 <= k < n ==>
          events[k].Arrived? && events[k].e.from in got
          && events[k].e.payload != [] && got[events[k].e.from] == events[k].e.payload[1..])
    && (forall f <- got :: exists k :: 0 <= k < n && events[k].Arrived? && events[k].e.from == f)
  }

  /** Why an event is refused, in the order the checks are made. */
  function Complaint(want: set<nat>, tag: byte, event: Event): Why {
    match event
    case TransportAborted => TransportError
    case Arrived(e) =>
      if e.from !in want then WrongSender
      else if e.payload == [] || e.payload[0] != tag then WrongTag
      else Duplicate
  }

  /**
   * Returns everyone's payload exactly when the first `|want|` events are good frames, one from each
   * wanted peer; otherwise gives up at the first event that is not good, or at the deadline.
   */
  method CollectRound(want: set<nat>, tag: byte, events: seq<Event>) returns (r: Collected, used: nat)
    ensures r == Collect(want, tag, map[], events)
    ensures used <= |events| && used <= |want| && GoodUpTo(want, tag, events, used)
    ensures r.AllIn? <==> used == |want|
    ensures r.AllIn? ==> r.got.Keys == want && Payloads(events, used, r.got)
    ensures r.GaveUp? && used < |events| ==>
              !Good(want, tag, events, used) && r.why == Complaint(want, tag, events[used])
    ensures r.GaveUp? && used == |events| ==> r.why == TimedOut
    ensures r.AllIn? <==> CameIn(events, want, tag)
    ensures r.AllIn? ==> forall k :: 0 <= k < |want| ==> r.got[events[k].e.from] == events[k].e.payload[1..]
    ensures r.GaveUp? && used < |events| ==>
              match events[used]
              case TransportAborted => r.why == TransportError
              case Arrived(e) =>
                && (e.from !in want ==> r.why == WrongSender)
                && (e.from in want && (e.payload == [] || e.payload[0] != tag) ==> r.why == WrongTag)
                && (e.from in want && e.payload != [] && e.payload[0] == tag ==>
                      r.why == Duplicate && exists m :: 0 <= m < used && events[m].Arrived? && events[m].e.from == e.from)
  {
    var got: map<nat, Bytes> := map[];
    used := 0;
    assert events[0..] == events;
    hide Collect, Accept, Payloads, GoodUpTo, Good, Complaint;
    Nothing(want, tag, events);
    while |got| < |want|
      invariant used <= |events| && used == |got| && got.Keys <= want && GoodUpTo(want, tag, events, used)
      invariant Payloads(events, used, got)
      invariant Collect(want, tag, map[], events) == Collect(want, tag, got, events[used..])
      decreases |events| - used
    {
      Fewer(got.Keys, want);
      CollectStep(want, tag, got, events, used);
      if used == |events| {
        return GaveUp(TimedOut), used;
      }
      Checked(want, tag, events, used, got);
      match events[used] {
        case TransportAborted =>
          return GaveUp(TransportError), used;
        case Arrived(e) =>
          if e.from !in want {
            return GaveUp(WrongSender), used;
          }
          if e.payload == [] || e.payload[0] != tag {
            return GaveUp(WrongTag), used;
          }
          if e.from in got {
            SentBefore(events, used, got, e.from);
            return GaveUp(Duplicate), used;
          }
          OneMoreGood(want, tag, events, used);
          OneMorePayload(events, used, got);
          got := got[e.from := e.payload[1..]];
          used := used + 1;
      }
    }
    CollectDone(want, tag, got, events[used..]);
    Fewer(got.Keys, want);
    SubsetFull(got.Keys, want);
    AllGood(want, tag, events, used, got);
    return AllIn(got), used;
  }

  lemma AllGood(want: set<nat>, tag: byte, events: seq<Event>, n: nat, got: map<nat, Bytes>)
    requires n <= |events| && GoodUpTo(want, tag, events, n) && Payloads(events, n, got)
    ensures forall k :: 0 <= k < n ==>
              events[k].Arrived? && events[k].e.from in want && events[k].e.payload != []
              && events[k].e.payload[0] == tag && events[k].e.from in got
              && got[events[k].e.from] == events[k].e.payload[1..]
    ensures forall k, m :: 0 <= k < m < n ==> events[k].e.from != events[m].e.from
  {
    forall k | 0 <= k < n
      ensures events[k].Arrived? && events[k].e.from in want && events[k].e.payload != []
              && events[k].e.payload[0] == tag && events[k].e.from in got
              && got[events[k].e.from] == events[k].e.payload[1..]
    {
      assert Good(want, tag, events, k);
    }
    forall k, m | 0 <= k < m < n ensures events[k].e.from != events[m].e.from {
      assert Good(want, tag, events, m) && Good(want, tag, events, k);
    }
  }

  /** A sender that has been collected sent an earlier event. */
  lemma SentBefore(events: seq<Event>, n: nat, got: map<nat, Bytes>, from: nat)
    requires n <= |events| && Payloads(events, n, got) && from in got
    ensures exists m :: 0 <= m < n && events[m].Arrived? && events[m].e.from == from
  {}

  lemma Nothing(want: set<nat>, tag: byte, events: seq<Event>)
    ensures GoodUpTo(want, tag, events, 0) && Payloads(events, 0, map[])
  {}

  lemma CollectDone(want: set<nat>, tag: byte, got: map<nat, Bytes>, rest: seq<Event>)
    requires |got| >= |want|
    ensures Collect(want, tag, got, rest) == AllIn(got)
  {}

  /** One event's worth of `Collect`. */
  lemma CollectStep(want: set<nat>, tag: byte, got: map<nat, Bytes>, events: seq<Event>, used: nat)
    requires used <= |events| && |got| < |want|
    ensures used == |events| ==> Collect(want, tag, got, events[used..]) == GaveUp(TimedOut)
    ensures used < |events| && events[used].TransportAborted? ==>
              Collect(want, tag, got, events[used..]) == GaveUp(TransportError)
    ensures used < |events| && events[used].Arrived? ==>
              var e := events[used].e;
              Collect(want, tag, got, events[used..]) ==
              if e.from !in want then GaveUp(WrongSender)
              else if e.payload == [] || e.payload[0] != tag then GaveUp(WrongTag)
              else if e.from in got then GaveUp(Duplicate)
              else Collect(want, tag, got[e.from := e.payload[1..]], events[used + 1..])
  {
    if used < |events| {
      assert events[used..][0] == events[used] && events[used..][1..] == events[used + 1..];
    }
  }

  /** What the checks find out about one event. */
  lemma Checked(want: set<nat>, tag: byte, events: seq<Event>, n: nat, got: map<nat, Bytes>)
    requires n < |events| && Payloads(events, n, got)
    ensures events[n].TransportAborted? ==>
              !Good(want, tag, events, n) && Complaint(want, tag, events[n]) == TransportError
    ensures events[n].Arrived? && events[n].e.from !in want ==>
              !Good(want, tag, events, n) && Complaint(want, tag, events[n]) == WrongSender
    ensures events[n].Arrived? && events[n].e.from in want
            && (events[n].e.payload == [] || events[n].e.payload[0] != tag) ==>
              !Good(want, tag, events, n) && Complaint(want, tag, events[n]) == WrongTag
    ensures events[n].Arrived? && events[n].e.from in want && events[n].e.payload != []
            && events[n].e.payload[0] == tag ==>
              if events[n].e.from in got then
                !Good(want, tag, events, n) && Complaint(want, tag, events[n]) == Duplicate
              else Good(want, tag, events, n)
  {}

  lemma OneMoreGood(want: set<nat>, tag: byte, events: seq<Event>, n: nat)
    requires n < |events| && GoodUpTo(want, tag, events, n) && Good(want, tag, events, n)
    ensures GoodUpTo(want, tag, events, n + 1)
  {}

  lemma OneMorePayload(events: seq<Event>, n: nat, got: map<nat, Bytes>)
    requires n < |events| && Payloads(events, n, got)
    requires events[n].Arrived? && events[n].e.payload != [] && events[n].e.from !in got
    ensures Payloads(events, n + 1, got[events[n].e.from := events[n].e.payload[1..]])
  {
    var got' := got[events[n].e.from := events[n].e.payload[1..]];
    forall f <- got' ensures exists k :: 0 <= k < n + 1 && events[k].Arrived? && events[k].e.from == f {
      if f == events[n].e.from {
        assert 0 <= n < n + 1;
      } else {
        assert f in got;
      }
    }
  }

  /** The items of a collected map, in whatever order the map is ranged over. */
  method ItemsOf(got: map<nat, Bytes>) returns (items: seq<Item>, ghost order: seq<nat>)
    ensures Enumerates(order, got.Keys) && items == ListEach(got, order)
    ensures forall k <- got :: Item(Id(k), got[k]) in items
  {
    items, order := [], [];
    var todo := got.Keys;
    while todo != {}
      invariant todo <= got.Keys && Enumerates(order, got.Keys - todo) && items == ListEach(got, order)
      decreases |todo|
    {
      var gi :| gi in todo;
      items := items + [Item(Id(gi), got[gi])];
      ListOneMore(got, order, gi);
      order := order + [gi];
      todo := todo - {gi};
    }
    assert got.Keys - todo == got.Keys;
    EveryEntryListed(got, order);
  }

  lemma EveryEntryListed(got: map<nat, Bytes>, order: seq<nat>)
    requires Enumerates(order, got.Keys)
    ensures forall k <- got :: Item(Id(k), got[k]) in ListEach(got, order)
  {
    hide Id;
    var items := ListEach(got, order);
    forall k <- got ensures Item(Id(k), got[k]) in items {
      var x :| 0 <= x < |order| && order[x] == k;
      assert items[x] in items;
    }
  }

  lemma ListOneMore(got: map<nat, Bytes>, order: seq<nat>, gi: nat)
    ensures ListEach(got, order + [gi]) == ListEach(got, order) + [Item(Id(gi), At(got, gi))]
  {
    hide Id, At;
    var a, b := ListEach(got, order + [gi]), ListEach(got, order) + [Item(Id(gi), At(got, gi))];
    forall x | 0 <= x < |a| ensures a[x] == b[x] {
      assert (order + [gi])[x] == if x < |order| then order[x] else gi;
    }
  }

  // ---- a driver from start to end --------------------------------------------------------------------

  /** What the environment does to one driver: which FROST calls succeed and which rounds of sends go through. */
  datatype Luck = Luck(call1: bool, sent1: bool, call2: map<nat, Bytes> -> bool, sent2: map<nat, Bytes> -> bool)

  /** Before the barrier, or why the driver never got there. */
  datatype End = Reached(pc: Driver) | Dropped(why: Why)

  function FirstRound(cfg: Config, i: nat, events: seq<Event>): Collected {
    Collect(Peers(cfg, i), Tag(cfg.kind, 1), map[], events)
  }

  function SecondRound(cfg: Config, i: nat, events: seq<Event>): Collected {
    Collect(Peers(cfg, i), Tag(cfg.kind, 2), map[], events)
  }

  /** The step system's driver between its collections. */
  function AfterFirst(cfg: Config, i: nat, luck: Luck, pc: Driver, events2: seq<Event>, order2: seq<nat>): End
    requires pc.Send2?
  {
    match Received(Encode(pc.items1))
    case None => Dropped(Crypto)
    case Some(view1) =>
      if !luck.call2(view1) then Dropped(Killed)
      else if !luck.sent2(pc.out) then Dropped(SendFailed)
      else match SecondRound(cfg, i, events2)
           case GaveUp(why) => Dropped(why)
           case AllIn(got2) =>
             match Advanced(cfg, i, Collect2(pc.items1, pc.out, got2), order2)
             case Stop(why) => Dropped(why)
             case Go(pc2) => Reached(pc2)
  }

  /** Two collections, each followed by one advance of the step system's driver. */
  function DriverEnd(cfg: Config, i: nat, luck: Luck, events1: seq<Event>, order1: seq<nat>, events2: seq<Event>,
                     order2: seq<nat>): End {
    if !luck.call1 then Dropped(Killed)
    else if !luck.sent1 then Dropped(SendFailed)
    else match FirstRound(cfg, i, events1)
         case GaveUp(why) => Dropped(why)
         case AllIn(got1) =>
           match Advanced(cfg, i, Collect1(got1), order1)
           case Stop(why) => Dropped(why)
           case Go(pc) => if pc.Send2? then AfterFirst(cfg, i, luck, pc, events2, order2) else Dropped(Crypto)
  }

  /** The driver's state between its collections, if it gets there. */
  function Midway(cfg: Config, i: nat, luck: Luck, events1: seq<Event>, order1: seq<nat>): Option<Driver> {
    var first := FirstRound(cfg, i, events1);
    if !luck.call1 || !luck.sent1 || first.GaveUp? then None
    else match Advanced(cfg, i, Collect1(first.got), order1)
         case Stop(_) => None
         case Go(pc) => Some(pc)
  }

  /** The driver gets as far as its second collection. */
  predicate SecondStarts(cfg: Config, i: nat, luck: Luck, events1: seq<Event>, order1: seq<nat>) {
    var mid := Midway(cfg, i, luck, events1, order1);
    && mid.Some? && mid.value.Send2?
    && var view := Received(Encode(mid.value.items1));
       view.Some? && luck.call2(view.value) && luck.sent2(mid.value.out)
  }

  /** Every map that is listed is listed in full, each key once: what the step system asks of an order. */
  ghost predicate ListedInFull(cfg: Config, i: nat, luck: Luck, events1: seq<Event>, order1: seq<nat>,
                               events2: seq<Event>, order2: seq<nat>) {
    var first, second := FirstRound(cfg, i, events1), SecondRound(cfg, i, events2);
    && (luck.call1 && luck.sent1 && first.AllIn? ==> Enumerates(order1, first.got.Keys))
    && (SecondStarts(cfg, i, luck, events1, order1) && second.AllIn? ==> Enumerates(order2, second.got.Keys))
  }

  /** A signer's own item comes first. */
  function OwnItems(kind: Kind, i: nat, own: Bytes): seq<Item> {
    if kind.Sign? then [Item(Id(i), own)] else []
  }

  lemma FirstAdvanced(cfg: Config, i: nat, got: map<nat, Bytes>, order1: seq<nat>)
    ensures var items := OwnItems(cfg.kind, i, cfg.open(i)) + ListEach(got, order1);
            Advanced(cfg, i, Collect1(got), order1) ==
            match Received(Encode(items))
            case None => Stop(Crypto)
            case Some(view) => Go(Send2(items, cfg.reply(i, view), Peers(cfg, i)))
  {
    hide Received, Encode, ListEach, Id;
  }

  /** What becomes of the driver once both collections are in. */
  function Judge(cfg: Config, i: nat, pc: Driver, view1: map<nat, Bytes>, got2: map<nat, Bytes>, order2: seq<nat>): End
    requires pc.Send2?
  {
    var items2 := OwnItems(cfg.kind, i, At(pc.out, i)) + ListEach(got2, order2);
    match Received(Encode(items2))
    case None => Dropped(Crypto)
    case Some(view2) =>
      var verdict := cfg.judge(i, view1, view2);
      if verdict.Refused? then Dropped(Crypto) else Reached(SendFin(pc.items1, items2, verdict, Peers(cfg, i)))
  }

  lemma AfterFirstIs(cfg: Config, i: nat, luck: Luck, pc: Driver, events2: seq<Event>, order2: seq<nat>,
                     view1: map<nat, Bytes>)
    requires pc.Send2? && Received(Encode(pc.items1)) == Some(view1)
    ensures AfterFirst(cfg, i, luck, pc, events2, order2) ==
            if !luck.call2(view1) then Dropped(Killed)
            else if !luck.sent2(pc.out) then Dropped(SendFailed)
            else match SecondRound(cfg, i, events2)
                 case GaveUp(why) => Dropped(why)
                 case AllIn(got2) => Judge(cfg, i, pc, view1, got2, order2)
  {
    hide Received, Encode, ListEach, Id, At, SecondRound;
  }

  method PeersOf(quorum: seq<nat>, i: nat) returns (peerSet: set<nat>, inQuorum: bool)
    ensures inQuorum <==> i in quorum
    ensures peerSet == (set q | q in quorum) - {i}
  {
    peerSet, inQuorum := {}, false;
    for k := 0 to |quorum|
      invariant inQuorum <==> i in quorum[..k]
      invariant peerSet == (set q | q in quorum[..k]) - {i}
    {
      assert quorum[..k + 1] == quorum[..k] + [quorum[k]];
      if quorum[k] == i {
        inQuorum := true;
      } else {
        peerSet := peerSet + {quorum[k]};
      }
    }
    assert quorum[..|quorum|] == quorum;
  }

  /** Frames the collected bodies, a signer's behind its own, and hands them over the boundary. */
  method HandOver(kind: Kind, i: nat, own: Bytes, got: map<nat, Bytes>)
    returns (view: Option<map<nat, Bytes>>, ghost order: seq<nat>)
    ensures Enumerates(order, got.Keys)
    ensures view == Received(Encode(OwnItems(kind, i, own) + ListEach(got, order)))
  {
    var items: seq<Item>;
    items, order := ItemsOf(got);
    items := OwnItems(kind, i, own) + items;
    var blob := EncodeFrostItems(items);
    view := Received(blob);
  }
}

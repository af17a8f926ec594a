/** The key-generation driver as the engine runs it, tied to the step system like the signing one. */
module FrostDealer {
  import opened Bytes
  import opened Framing
  import opened Transport
  import opened FrostNet
  import opened FrostSchemes
  import opened Network
  import opened FrostDriver
  import opened FrostInvariant
  import opened FrostTraces

  // ---- the second round's point-to-point sends ---------------------------------------------------

  function Package(net: Network, dest: nat, body: Bytes): Signed {
    net.Sealed(dest, false, Tagged(2, body))
  }

  /** The connections after one frame per item, to the operator the item's identifier stands for. */
  function Dispatched(net: Network, conns: map<nat, seq<Signed>>, items: seq<Item>): map<nat, seq<Signed>> {
    if items == [] then conns
    else
      var last := items[|items| - 1];
      var sent := Dispatched(net, conns, items[..|items| - 1]);
      var dest := Index(last.id);
      if dest in sent then sent[dest := sent[dest] + [Package(net, dest, last.body)]]
      else sent
  }

  /** One frame more on each connection that has a package. */
  function Addressed(net: Network, conns: map<nat, seq<Signed>>, out: map<nat, Bytes>): map<nat, seq<Signed>> {
    map p | p in conns :: if p in out then conns[p] + [Package(net, p, out[p])] else conns[p]
  }

  ghost predicate Reachables(items: seq<Item>, conns: map<nat, seq<Signed>>, down: set<nat>) {
    forall it <- items :: it.id >= 1 && Index(it.id) in conns && Index(it.id) !in down
  }

  method SendPackages(net: Network, items: seq<Item>, down: set<nat>) returns (ok: bool)
    modifies net`conns
    ensures ok <==> Reachables(items, old(net.conns), down)
    ensures ok ==> net.conns == Dispatched(net, old(net.conns), items)
    ensures net.conns.Keys == old(net.conns.Keys)
  {
    ghost var was := net.conns;
    DispatchKeeps(net, was, []);
    for n := 0 to |items|
      invariant Reachables(items[..n], was, down)
      invariant net.conns == Dispatched(net, was, items[..n]) && net.conns.Keys == was.Keys
    {
      var it := items[n];
      assert items[..n + 1] == items[..n] + [it] && items[..n + 1][..n] == items[..n];
      if it.id == 0 {
        return false;
      }
      var dest := Index(it.id);
      var sent := net.SendTo(dest, Tagged(2, it.body), down);
      if !sent {
        return false;
      }
    }
    assert items[..|items|] == items;
    return true;
  }

  lemma {:induction false} DispatchKeeps(net: Network, conns: map<nat, seq<Signed>>, items: seq<Item>)
    ensures Dispatched(net, conns, items).Keys == conns.Keys
  {
    if items != [] {
      DispatchKeeps(net, conns, items[..|items| - 1]);
    }
  }

  /** By operator index, what items with different identifiers are addressed to. */
  function ByIndex(m: map<nat, Bytes>): map<nat, Bytes> {
    map dest: nat | dest < 0xFFFF && Num(dest) in m :: m[Num(dest)]
  }

  /** Items with different identifiers put one frame on each connection they name, and nothing elsewhere. */
  lemma {:induction false} DispatchAddresses(net: Network, conns: map<nat, seq<Signed>>, items: seq<Item>)
    requires DistinctIds(items) && forall it <- items :: it.id >= 1
    ensures Dispatched(net, conns, items) == Addressed(net, conns, ByIndex(ToMap(items)))
  {
    if items != [] {
      var front, last := items[..|items| - 1], items[|items| - 1];
      assert items == front + [last];
      DispatchAddresses(net, conns, front);
      ToMapEntries(front);
      NewId(front, last, ToMap(front));
      AddressOneMore(net, conns, ToMap(front), last);
    }
  }

  lemma ByIndexOneMore(m: map<nat, Bytes>, last: Item)
    requires last.id !in m && last.id >= 1
    ensures ByIndex(m[last.id as nat := last.body]) == ByIndex(m)[Index(last.id) := last.body]
    ensures Index(last.id) !in ByIndex(m)
  {
    assert Num(Index(last.id)) == last.id;
  }

  lemma AddressOneMore(net: Network, conns: map<nat, seq<Signed>>, m: map<nat, Bytes>, last: Item)
    requires last.id !in m && last.id >= 1
    ensures var was, i := Addressed(net, conns, ByIndex(m)), Index(last.id);
            Addressed(net, conns, ByIndex(m[last.id as nat := last.body])) ==
            if i in was then was[i := was[i] + [Package(net, i, last.body)]] else was
  {
    ByIndexOneMore(m, last);
    var out, i := ByIndex(m), Index(last.id);
    hide Package, ByIndex, Index;
    assert ByIndex(m[last.id as nat := last.body]) == out[i := last.body];
  }

  // ---- a whole key generation ------------------------------------------------------------------------

  /** FROST's second part, when it succeeds, deals one package to each participant it was given one of. */
  ghost predicate Deals(g: KeyGen, i: nat, part2: map<nat, Bytes> -> Option<map<nat, Bytes>>) {
    forall view {:trigger part2(view)} ::
      part2(view).Some? ==>
        part2(view).value == g.part2(i, view) && part2(view).value.Keys == view.Keys
        && forall id <- view :: |part2(view).value[id]| < 0x1_0000_0000
  }

  function KeygenLuck(part1: Option<Bytes>, part2: map<nat, Bytes> -> Option<map<nat, Bytes>>, conns: set<nat>,
                      down: (set<nat>, set<nat>, set<nat>)): Luck {
    Luck(part1.Some?, conns !! down.0, (view: map<nat, Bytes>) => part2(view).Some?,
         (out: map<nat, Bytes>) => out.Keys <= conns - down.1)
  }

  /** What is returned at the end. */
  function Finished(end: End): Option<Bytes> {
    match end
    case Dropped(_) => None
    case Reached(pc) => if pc.SendFin? && pc.verdict.Produced? then Some(pc.verdict.result) else None
  }

  lemma KeygenSetting(g: KeyGen, i: nat)
    ensures var cfg := KeygenConfig(g);
            && cfg.kind == Keygen && cfg.open(i) == g.part1(i) && Peers(cfg, i) == g.ops - {i}
            && Tag(Keygen, 1) == 1 && Tag(Keygen, 2) == 2
            && (forall view {:trigger cfg.reply(i, view)} {:trigger g.part2(i, view)} ::
                  cfg.reply(i, view) == Routed(g.part2(i, view)))
            && (forall view1, view2 {:trigger cfg.judge(i, view1, view2)} {:trigger g.part3(i, view1, view2)} ::
                  cfg.judge(i, view1, view2) == OrRefused(g.part3(i, view1, view2)))
  {}

  /** Every identifier FROST received came in sixteen bits and is not zero. */
  lemma ReceivedIds(blob: Bytes)
    requires Received(blob).Some?
    ensures forall id <- Received(blob).value :: 1 <= id < 0x1_0000
  {
    var items := Decode(blob).value;
    hide Decode;
    ToMapIds(items);
  }

  lemma {:induction false} ToMapIds(items: seq<Item>)
    ensures forall id <- ToMap(items) :: exists it <- items :: it.id == id
  {
    if items != [] {
      var front, last := items[..|items| - 1], items[|items| - 1];
      ToMapIds(front);
      forall id | id in ToMap(items) ensures exists it <- items :: it.id == id {
        if id == last.id {
          assert last in items;
        } else {
          assert id in ToMap(front);
          var it :| it in front && it.id == id;
          assert it in items;
        }
      }
    }
  }

  /** What Rust frames is what Go decodes: the packages, ascending, each identifier once. */
  lemma PackagesCross(packages: map<nat, Bytes>)
    requires forall id <- packages :: 1 <= id < 0x1_0000 && |packages[id]| < 0x1_0000_0000
    ensures var items := Ascending(packages, 0x1_0000);
            && Decode(Encode(items)) == Some(items) && DistinctIds(items) && (forall it <- items :: it.id >= 1)
            && Routed(packages) == ByIndex(ToMap(items)) && ToMap(items) == packages
  {
    AscendingLists(packages, 0x1_0000);
    assert packages == Below(packages, 0x1_0000);
    var items := Ascending(packages, 0x1_0000);
    hide Ascending, Encode, Decode, Below;
    FewItems(items, packages);
    RoundTripIff(items, []);
    assert Encode(items) + [] == Encode(items);
  }

  lemma FewItems(items: seq<Item>, m: map<nat, Bytes>)
    requires Lists(items, m) && forall k <- m :: 1 <= k < 0x1_0000 && |m[k]| < 0x1_0000_0000
    ensures Fits(items) && ToMap(items) == m && forall it <- items :: it.id >= 1
  {
    ToMapEntries(items);
    ListsDetermines(items, m);
    assert 0 !in m.Keys;
    BoundedSet(m.Keys + {0}, 0x1_0000);
    assert |m.Keys + {0}| == |m| + 1;
  }

  lemma IndexIn(m: map<nat, Bytes>, id: nat)
    requires 1 <= id < 0x1_0000
    ensures Index(id) in ByIndex(m) <==> id in m
    ensures forall dest <- ByIndex(m) :: Num(dest) in m && Index(Num(dest)) == dest
  {
    assert Num(Index(id)) == id;
  }

  lemma ReachableIff(items: seq<Item>, conns: map<nat, seq<Signed>>, down: set<nat>)
    requires DistinctIds(items) && forall it <- items :: it.id >= 1
    ensures Reachables(items, conns, down) <==> ByIndex(ToMap(items)).Keys <= conns.Keys - down
  {
    ToMapEntries(items);
    var m := ToMap(items);
    forall it <- items ensures Index(it.id) in ByIndex(m) {
      IndexIn(m, it.id);
    }
    IndexIn(m, 1);
    hide ToMap, ByIndex, DistinctIds, Index, Num;
    forall dest <- ByIndex(m) ensures exists it <- items :: Index(it.id) == dest {
      assert Num(dest) in m;
      var it :| it in items && it.id == Num(dest);
    }
  }

  /** Rust frames the packages, Go decodes them and sends each to the operator its identifier stands for. */
  method DealPackages(net: Network, packages: map<nat, Bytes>, down: set<nat>) returns (ok: bool)
    requires forall id <- packages :: 1 <= id < 0x1_0000 && |packages[id]| < 0x1_0000_0000
    modifies net`conns
    ensures ok <==> Routed(packages).Keys <= old(net.conns.Keys) - down
    ensures ok ==> net.conns == Addressed(net, old(net.conns), Routed(packages))
    ensures net.conns.Keys == old(net.conns.Keys)
  {
    PackagesCross(packages);
    hide Addressed, Dispatched, Encode, Routed, Ascending, ByIndex, DistinctIds, Decode, Reachables;
    var r2blob := EncodeItems(Ascending(packages, 0x1_0000));
    var r2Out := DecodeFrostItems(r2blob);
    DispatchAddresses(net, net.conns, r2Out.value);
    ReachableIff(r2Out.value, net.conns, down);
    ok := SendPackages(net, r2Out.value, down);
  }

  /** Everything the driver writes before its barrier. */
  ghost predicate WroteAll(net: Network, was: map<nat, seq<Signed>>, now: map<nat, seq<Signed>>, part1: Bytes,
                         out: map<nat, Bytes>, lost: set<nat>) {
    now == Extended(Addressed(net, Extended(was, net.Sealed(-1, false, Tagged(1, part1)), {}), out),
                    net.Sealed(-1, true, []), lost)
  }

  lemma NothingOwn(i: nat, own: Bytes)
    ensures OwnItems(Keygen, i, own) == OwnItems(Keygen, i, []) == []
  {}

  /**
   * The driver from its second call on: one package for each peer, the second collection, part three
   * and the barrier. It ends as the step system's driver does behind its first collection.
   */
  method DealAndFinish(net: Network, g: KeyGen, ghost luck: Luck, ghost pc: Driver, peerSet: set<nat>,
                       view1: map<nat, Bytes>, part2: map<nat, Bytes> -> Option<map<nat, Bytes>>,
                       down: set<nat>, lost: set<nat>, events2: seq<Event>, later: seq<nat>)
    returns (r: Option<Bytes>, ghost order2: seq<nat>)
    requires Deals(g, net.self, part2) && forall id <- view1 :: 1 <= id < 0x1_0000
    requires pc.Send2? && Received(Encode(pc.items1)) == Some(view1) && pc.out == Routed(g.part2(net.self, view1))
    requires peerSet == Peers(KeygenConfig(g), net.self)
    requires luck.call2(view1) == part2(view1).Some? && luck.sent2(pc.out) == (pc.out.Keys <= net.conns.Keys - down)
    modifies net
    ensures r == Finished(AfterFirst(KeygenConfig(g), net.self, luck, pc, events2, order2))
    ensures var second := SecondRound(KeygenConfig(g), net.self, events2);
            luck.call2(view1) && luck.sent2(pc.out) && second.AllIn? ==> Enumerates(order2, second.got.Keys)
    ensures r.Some? ==> part2(view1).Some? && pc.out.Keys <= old(net.conns.Keys) - down && CameIn(events2, peerSet, 2)
    ensures r.Some? ==>
              net.finished && net.conns == Extended(Addressed(net, old(net.conns), pc.out), net.Sealed(-1, true, []), lost)
  {
    hide Extended, Addressed, Tagged, AfterFirst, Collect, Received, Encode, ListEach, Advanced, GoodUpTo, Payloads,
         Good, Complaint, Enumerates, Routed, KeygenConfig, OwnItems, At, Id, CameIn;
    order2 := [];
    r := None;
    var i := net.self;
    ghost var cfg := KeygenConfig(g);
    KeygenSetting(g, i);
    AfterFirstIs(cfg, i, luck, pc, events2, order2, view1);
    var packages := part2(view1);
    if packages.None? {
      return;
    }
    var sent := DealPackages(net, packages.value, down);
    if !sent {
      return;
    }
    var r2Raw, _ := CollectRound(peerSet, 2, events2);
    if r2Raw.GaveUp? {
      return;
    }
    var view2: Option<map<nat, Bytes>>;
    view2, order2 := HandOver(Keygen, i, [], r2Raw.got);
    NothingOwn(i, At(pc.out, i));
    AfterFirstIs(cfg, i, luck, pc, events2, order2, view1);
    if view2.None? {
      return;
    }
    r := g.part3(i, view1, view2.value);
    if r.None? {
      return;
    }
    var full := net.Fin(lost, later);
  }

  /**
   * The driver behind its peer list; `part1` and `part2` may fail. What is returned is what the step
   * system's driver ends with on the same events, every map listed in full.
   */
  method KeygenRounds(net: Network, g: KeyGen, peerSet: set<nat>,
                      part1: Option<Bytes>, part2: map<nat, Bytes> -> Option<map<nat, Bytes>>,
                      down: (set<nat>, set<nat>, set<nat>), events1: seq<Event>, events2: seq<Event>, later: seq<nat>)
    returns (r: Option<Bytes>, ghost order1: seq<nat>, ghost order2: seq<nat>)
    requires peerSet == g.ops - {net.self}
    requires (part1.Some? ==> part1.value == g.part1(net.self)) && Deals(g, net.self, part2)
    modifies net
    ensures var luck := KeygenLuck(part1, part2, old(net.conns.Keys), down);
            && r == Finished(DriverEnd(KeygenConfig(g), net.self, luck, events1, order1, events2, order2))
            && ListedInFull(KeygenConfig(g), net.self, luck, events1, order1, events2, order2)
    ensures r.Some? ==>
              part1.Some? && old(net.conns.Keys) !! down.0
              && CameIn(events1, peerSet, 1) && CameIn(events2, peerSet, 2)
    ensures r.Some? ==>
              net.finished && exists view: map<nat, Bytes> {:trigger part2(view)} ::
                part2(view).Some? && (forall id <- view :: 1 <= id < 0x1_0000)
                && WroteAll(net, old(net.conns), net.conns, g.part1(net.self), Routed(part2(view).value), down.2)
  {
    hide Extended, Addressed, Tagged, AfterFirst, Collect, Received, Encode, ListEach, Advanced, GoodUpTo, Payloads,
         Good, Complaint, Enumerates, Routed, KeygenConfig, OwnItems, At, Id, CameIn;
    order1, order2 := [], [];
    r := None;
    var i := net.self;
    ghost var cfg := KeygenConfig(g);
    KeygenSetting(g, i);
    assert peerSet == Peers(cfg, i);
    ghost var luck := KeygenLuck(part1, part2, net.conns.Keys, down);

    // round 1
    if part1.None? {
      return;
    }
    var failed := net.Broadcast(Tagged(1, part1.value), down.0);
    if failed.Some? {
      return;
    }
    var r1Raw, _ := CollectRound(peerSet, 1, events1);
    if r1Raw.GaveUp? {
      return;
    }
    var view1: Option<map<nat, Bytes>>;
    view1, order1 := HandOver(Keygen, i, part1.value, r1Raw.got);
    FirstAdvanced(cfg, i, r1Raw.got, order1);
    if view1.None? {
      return;
    }
    ghost var pc := Advanced(cfg, i, Collect1(r1Raw.got), order1).pc;
    ReceivedIds(Encode(OwnItems(Keygen, i, part1.value) + ListEach(r1Raw.got, order1)));

    // rounds 2 and 3
    r, order2 := DealAndFinish(net, g, luck, pc, peerSet, view1.value, part2, down.1, down.2, events2, later);
  }

  lemma RoutedIs(packages: map<nat, Bytes>)
    requires forall id <- packages :: 1 <= id < 0x1_0000 && |packages[id]| < 0x1_0000_0000
    ensures Routed(packages) == ByIndex(packages)
  {
    PackagesCross(packages);
    hide Routed, Ascending, Decode, Encode, ByIndex;
  }

  lemma DealtIds(g: KeyGen, i: nat)
    requires ValidKeygen(g) && i in g.ops
    ensures Dealt(g, i).Keys == OtherIds(g, i)
    ensures forall id <- Dealt(g, i) :: 1 <= id < 0x1_0000 && |Dealt(g, i)[id]| < 0x1_0000_0000
  {
    hide Dealt;
    assert forall id <- Dealt(g, i) :: id in OtherIds(g, i);
  }

  lemma OthersByIndex(g: KeyGen, i: nat, m: map<nat, Bytes>)
    requires (forall k <- g.ops :: k < 0xFFFF) && m.Keys == OtherIds(g, i)
    ensures ByIndex(m).Keys == g.ops - {i}
  {
    forall dest: nat ensures dest in ByIndex(m) <==> dest in g.ops - {i} {
      if dest in g.ops - {i} {
        assert Num(dest) in OtherIds(g, i);
      }
    }
  }

  /** What FROST deals goes to every peer and to nobody else. */
  lemma RoutedToPeers(g: KeyGen, i: nat)
    requires ValidKeygen(g) && i in g.ops
    ensures Routed(Dealt(g, i)).Keys == Peers(KeygenConfig(g), i)
  {
    DealtIds(g, i);
    hide Dealt, Routed, ByIndex, OtherIds;
    RoutedIs(Dealt(g, i));
    OthersByIndex(g, i, Dealt(g, i));
  }

  /** What the endpoint writes is what the step system's driver writes, to every peer in every phase. */
  lemma SameKeygenFrames(net: Network, g: KeyGen, items1: seq<Item>, items2: seq<Item>, out: map<nat, Bytes>,
                         verdict: Verdict, todo: set<nat>, j: nat)
    requires net.session == g.session
    ensures net.Sealed(-1, false, Tagged(1, g.part1(net.self))).envelope
         == Outgoing(KeygenConfig(g), net.self, Send1(todo), j)
    ensures j in out ==>
              Package(net, j, out[j]).envelope == Outgoing(KeygenConfig(g), net.self, Send2(items1, out, todo), j)
    ensures net.Sealed(-1, true, []).envelope
         == Outgoing(KeygenConfig(g), net.self, SendFin(items1, items2, verdict, todo), j)
  {}

  // ---- what it returns -----------------------------------------------------------------------------

  /** Likewise a key package that `RunFrostKeygen` returns is part three's on the packages dealt to the operator. */
  lemma KeygenReturnsTheKey(g: KeyGen, i: nat, luck: Luck, events1: seq<Event>, order1: seq<nat>,
                            events2: seq<Event>, order2: seq<nat>)
    requires ValidKeygen(g) && i in g.ops
    requires Genuine(KeygenConfig(g), i, events1) && Genuine(KeygenConfig(g), i, events2)
    requires ListedInFull(KeygenConfig(g), i, luck, events1, order1, events2, order2)
    ensures var r := Finished(DriverEnd(KeygenConfig(g), i, luck, events1, order1, events2, order2));
            r.Some? ==> g.part3(i, Opened(g, i), Column(g, i)) == r
  {
    KeygenValid(g);
    KeygenJudged(g, i);
    assert KeygenConfig(g).corrupt == {} && KeygenConfig(g).ops == g.ops;
    hide Valid, Genuine, ListedInFull, DriverEnd, ValidKeygen, KeygenConfig, Opened, Column, Judged, PcOk;
    if DriverEnd(KeygenConfig(g), i, luck, events1, order1, events2, order2).Reached? {
      GenuineDriverEnds(KeygenConfig(g), i, luck, events1, order1, events2, order2);
    }
  }

  lemma KeygenJudged(g: KeyGen, i: nat)
    requires ValidKeygen(g) && i in g.ops
    ensures Judged(KeygenConfig(g), i) == OrRefused(g.part3(i, Opened(g, i), Column(g, i)))
  {
    KeygenView1(g, i);
    KeygenView2(g, i);
    hide View1, View2, Opened, Column, ValidKeygen;
  }

  lemma DealtBodies(g: KeyGen, k: nat, i: nat)
    requires ValidKeygen(g) && k in g.ops && i in g.ops && k != i
    ensures Num(k) in Opened(g, i) && Opened(g, i)[Num(k)] == Body(KeygenConfig(g), k, i, 1)
    ensures Num(k) in Column(g, i) && Column(g, i)[Num(k)] == Body(KeygenConfig(g), k, i, 2)
  {
    KeygenOut(g, k, i);
    assert Index(Num(k)) == k && Num(k) in OtherIds(g, i);
    hide Out, Dealt;
  }

  lemma UndisturbedDealing(g: KeyGen, i: nat, events1: seq<Event>, events2: seq<Event>)
    requires ValidKeygen(g) && i in g.ops
    requires Brings(events1, g.ops - {i}, 1, Opened(g, i)) && Brings(events2, g.ops - {i}, 2, Column(g, i))
    ensures var r := FirstRound(KeygenConfig(g), i, events1);
            r.AllIn? && r.got.Keys == Peers(KeygenConfig(g), i) && Bodies(KeygenConfig(g), i, 1, r.got)
    ensures var r := SecondRound(KeygenConfig(g), i, events2);
            r.AllIn? && r.got.Keys == Peers(KeygenConfig(g), i) && Bodies(KeygenConfig(g), i, 2, r.got)
  {
    var cfg := KeygenConfig(g);
    KeygenBasics(g, i);
    hide Brings, Collect, KeygenConfig, Opened, Column, Num, ValidKeygen, Body, Bodies, Peers;
    forall k | k in Peers(cfg, i)
      ensures Num(k) in Opened(g, i) && Opened(g, i)[Num(k)] == Body(cfg, k, i, 1)
      ensures Num(k) in Column(g, i) && Column(g, i)[Num(k)] == Body(cfg, k, i, 2)
    {
      DealtBodies(g, k, i);
    }
    RoundBrought(cfg, i, 1, events1, Opened(g, i));
    RoundBrought(cfg, i, 2, events2, Column(g, i));
  }

  lemma KeygenBasics(g: KeyGen, i: nat)
    ensures var cfg := KeygenConfig(g);
            && cfg.kind == Keygen && Peers(cfg, i) == g.ops - {i} && cfg.corrupt == {} && cfg.ops == g.ops
            && Tag(Keygen, 1) == 1 && Tag(Keygen, 2) == 2
  {}

  /** Both calls and all sends work, and both rounds come in complete and from the peers alone. */
  ghost predicate UndisturbedKeygen(g: KeyGen, i: nat, part1: Option<Bytes>,
                                    part2: map<nat, Bytes> -> Option<map<nat, Bytes>>, conns: set<nat>,
                                    down: (set<nat>, set<nat>, set<nat>), events1: seq<Event>, events2: seq<Event>)
  {
    && part1.Some? && part2(Opened(g, i)).Some? && conns !! down.0 && g.ops - {i} <= conns - down.1
    && Brings(events1, g.ops - {i}, 1, Opened(g, i)) && Brings(events2, g.ops - {i}, 2, Column(g, i))
  }

  lemma UndisturbedFinishes(g: KeyGen, i: nat, part1: Option<Bytes>, part2: map<nat, Bytes> -> Option<map<nat, Bytes>>,
                            conns: set<nat>, down: (set<nat>, set<nat>, set<nat>), events1: seq<Event>, order1: seq<nat>,
                            events2: seq<Event>, order2: seq<nat>)
    requires ValidKeygen(g) && i in g.ops
    requires UndisturbedKeygen(g, i, part1, part2, conns, down, events1, events2)
    requires ListedInFull(KeygenConfig(g), i, KeygenLuck(part1, part2, conns, down), events1, order1, events2, order2)
    ensures var luck := KeygenLuck(part1, part2, conns, down);
            Finished(DriverEnd(KeygenConfig(g), i, luck, events1, order1, events2, order2))
            == g.part3(i, Opened(g, i), Column(g, i))
  {
    KeygenValid(g);
    KeygenView1(g, i);
    KeygenJudged(g, i);
    UndisturbedDealing(g, i, events1, events2);
    RoutedToPeers(g, i);
    KeygenReply(g, i);
    var cfg, luck := KeygenConfig(g), KeygenLuck(part1, part2, conns, down);
    KeygenBasics(g, i);
    hide ListedInFull, DriverEnd, ValidKeygen, Valid, Opened, Column, Judged, KeygenConfig, FirstRound, SecondRound,
         Bodies, Brings, View1, Out, Peers, Routed, Dealt;
    UndisturbedEnd(cfg, i, luck, events1, order1, events2, order2);
  }

  lemma KeygenReply(g: KeyGen, i: nat)
    ensures Out(KeygenConfig(g), i) == Routed(Dealt(g, i))
  {
    KeygenView1(g, i);
    hide Routed, View1, Opened;
  }

  /**
   * On every connection: the opening package, the package dealt to the operator at its other end if there
   * is one and, unless the send failed, the FIN.
   */
  ghost predicate FramesOut(net: Network, was: map<nat, seq<Signed>>, now: map<nat, seq<Signed>>, part1: Bytes,
                            packages: map<nat, Bytes>, lost: set<nat>) {
    now.Keys == was.Keys && forall p <- now ::
      now[p] ==
      was[p]
      + [SignedBy(net.crypto, net.priv, Envelope(net.session, net.self, -1, true, false, [1] + part1))]
      + (if p < 0xFFFF && p + 1 in packages
         then [SignedBy(net.crypto, net.priv, Envelope(net.session, net.self, p, false, false, [2] + packages[p + 1]))]
         else [])
      + if p in lost then []
        else [SignedBy(net.crypto, net.priv, Envelope(net.session, net.self, -1, true, true, []))]
  }

  /**
   * The driver, start to end: what the step system's driver ends with on the same events. Where nothing
   * disturbs it, part three's key package on the packages dealt to this operator comes out.
   */
  method RunFrostKeygen(net: Network, g: KeyGen, peerIdxs: seq<nat>,
                        part1: Option<Bytes>, part2: map<nat, Bytes> -> Option<map<nat, Bytes>>,
                        down: (set<nat>, set<nat>, set<nat>), events1: seq<Event>, events2: seq<Event>, later: seq<nat>)
    returns (r: Option<Bytes>, ghost order1: seq<nat>, ghost order2: seq<nat>)
    requires g.ops == (set p | p in peerIdxs) + {net.self} && net.self !in peerIdxs
    requires (part1.Some? ==> part1.value == g.part1(net.self)) && Deals(g, net.self, part2)
    modifies net
    ensures var luck := KeygenLuck(part1, part2, old(net.conns.Keys), down);
            && r == Finished(DriverEnd(KeygenConfig(g), net.self, luck, events1, order1, events2, order2))
            && ListedInFull(KeygenConfig(g), net.self, luck, events1, order1, events2, order2)
    ensures ValidKeygen(g) && part1.Some? && part2(Opened(g, net.self)).Some?
            && old(net.conns.Keys) !! down.0 && g.ops - {net.self} <= old(net.conns.Keys) - down.1
            && Brings(events1, g.ops - {net.self}, 1, Opened(g, net.self))
            && Brings(events2, g.ops - {net.self}, 2, Column(g, net.self)) ==>
              r == g.part3(net.self, Opened(g, net.self), Column(g, net.self))
    ensures r.Some? ==>
              part1.Some? && old(net.conns.Keys) !! down.0
              && CameIn(events1, g.ops - {net.self}, 1) && CameIn(events2, g.ops - {net.self}, 2)
    ensures r.Some? ==>
              net.finished && exists view: map<nat, Bytes> {:trigger part2(view)} ::
                part2(view).Some?
                && FramesOut(net, old(net.conns), net.conns, g.part1(net.self), part2(view).value, down.2)
  {
    var peerSet, selfListed := PeersOf(peerIdxs, net.self);
    ghost var i, conns := net.self, net.conns;
    hide Finished, DriverEnd, ListedInFull, KeygenLuck, ValidKeygen, Opened, Column, Brings, KeygenConfig, WroteAll,
         FramesOut, Routed, CameIn;
    r, order1, order2 := KeygenRounds(net, g, peerSet, part1, part2, down, events1, events2, later);
    if ValidKeygen(g) && UndisturbedKeygen(g, i, part1, part2, conns.Keys, down, events1, events2) {
      UndisturbedFinishes(g, i, part1, part2, conns.Keys, down, events1, order1, events2, order2);
    }
    if r.Some? {
      ghost var view: map<nat, Bytes> :|
        part2(view).Some? && (forall id <- view :: 1 <= id < 0x1_0000)
        && WroteAll(net, conns, net.conns, g.part1(i), Routed(part2(view).value), down.2);
      RoutedIs(part2(view).value);
      WroteAllFrames(net, conns, net.conns, g.part1(i), part2(view).value, down.2);
    }
  }

  lemma WroteAllFrames(net: Network, was: map<nat, seq<Signed>>, now: map<nat, seq<Signed>>, part1: Bytes,
                       packages: map<nat, Bytes>, lost: set<nat>)
    requires WroteAll(net, was, now, part1, ByIndex(packages), lost)
    ensures FramesOut(net, was, now, part1, packages, lost)
  {
    PackageFrames(net, packages);
    hide SignedBy, ByIndex, Package;
  }

  lemma PackageFrames(net: Network, packages: map<nat, Bytes>)
    ensures forall p: nat :: p in ByIndex(packages) <==> p < 0xFFFF && p + 1 in packages
    ensures forall p <- ByIndex(packages) ::
              Package(net, p, ByIndex(packages)[p]) ==
              SignedBy(net.crypto, net.priv, Envelope(net.session, net.self, p, false, false, [2] + packages[p + 1]))
  {}
}

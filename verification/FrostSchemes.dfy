/** The two drivers as configurations: threshold signing and distributed key generation. */
module FrostSchemes {
  import opened Bytes
  import opened Framing
  import opened FrostNet
  import opened FrostInvariant
  import opened FrostEarly
  import opened FrostLive
  import opened FrostOutcome

  /** An honest operator past both collections holds lists of both its views and the verdict on them. */
  lemma SettledAt(cfg: Config, s: State, i: nat)
    requires Valid(cfg) && Reachable(cfg, s) && i in s && i !in cfg.corrupt && s[i].pc.Finishing()
    ensures i in cfg.ops && s[i].pc.verdict == Judged(cfg, i) && !Judged(cfg, i).Refused?
    ensures Received(Encode(s[i].pc.items1)) == Some(View1(cfg, i))
    ensures Received(Encode(s[i].pc.items2)) == Some(View2(cfg, i))
  {
    hide Lists, Received, Encode, NetOk, View1, View2, Judged, Valid, Reachable, PairAt, Blamed;
    ReachableInv(cfg, s);
    assert OpAt(cfg, s, i);
    hide Inv;
    ViewsFit(cfg, i);
    ReceivedIsSent(s[i].pc.items1, View1(cfg, i));
    ReceivedIsSent(s[i].pc.items2, View2(cfg, i));
  }

  // ---- threshold signing -------------------------------------------------------------------------

  /** `bad[0] ^= 0x01`, what the corrupt signer does to its share. */
  function Tampered(share: Bytes): Bytes {
    if share == [] then [] else [if share[0] % 2 == 0 then share[0] + 1 else share[0] - 1] + share[1..]
  }

  /** Exactly the lowest bit of the first byte changes, so tampering twice gives the share back. */
  lemma TamperedFlips(share: Bytes)
    requires share != []
    ensures var t := Tampered(share);
            && |t| == |share| && t != share && t[1..] == share[1..] && t[0] / 2 == share[0] / 2 && Tampered(t) == share
  {
    var t := Tampered(share);
    assert t[1..] == share[1..];
    assert [share[0]] + share[1..] == share;
  }

  /** The FROST calls of one signing session, by operator; `pubPkg` is each operator's stored package. */
  datatype Signing = Signing(
    quorum: set<nat>,
    corrupt: set<nat>,
    session: Bytes,
    commitment: nat -> Bytes,
    share: (nat, map<nat, Bytes>) -> Bytes,
    pubPkg: nat -> Bytes,
    aggregate: (Bytes, map<nat, Bytes>, map<nat, Bytes>) -> Verdict)

  /** The share an operator broadcasts, given the commitments it collected. */
  function BroadcastShare(g: Signing, i: nat, commitments: map<nat, Bytes>): Bytes {
    if i in g.corrupt then Tampered(g.share(i, commitments)) else g.share(i, commitments)
  }

  function SignConfig(g: Signing): Config {
    Config(g.quorum, Sign, g.session, g.corrupt, g.commitment,
           (i: nat, view: map<nat, Bytes>) => map j | j in g.quorum :: BroadcastShare(g, i, view),
           (i: nat, view1: map<nat, Bytes>, view2: map<nat, Bytes>) => g.aggregate(g.pubPkg(i), view1, view2))
  }

  function QuorumIds(g: Signing): set<nat> {
    set k | k in g.quorum :: Num(k)
  }

  /** Everyone's commitment, by identifier. */
  function Commitments(g: Signing): map<nat, Bytes> {
    map id | id in QuorumIds(g) :: g.commitment(Index(id))
  }

  /** Everyone's broadcast share, the tampered one included. */
  function Shares(g: Signing): map<nat, Bytes> {
    map id | id in QuorumIds(g) :: BroadcastShare(g, Index(id), Commitments(g))
  }

  ghost predicate ValidSigning(g: Signing) {
    && (forall i <- g.quorum :: i < 0xFFFF)
    && g.corrupt <= g.quorum
    && (forall i <- g.quorum :: |g.commitment(i)| < 0x1_0000_0000)
    && (forall i <- g.quorum :: |BroadcastShare(g, i, Commitments(g))| < 0x1_0000_0000)
  }

  lemma SignIds(g: Signing, i: nat)
    requires i in g.quorum
    ensures Ids(SignConfig(g), i) == QuorumIds(g)
    ensures forall id <- QuorumIds(g) :: Index(id) in g.quorum
  {}

  lemma SignView1(g: Signing, i: nat)
    requires i in g.quorum
    ensures View1(SignConfig(g), i) == Commitments(g)
  {
    SignIds(g, i);
    hide Ids, QuorumIds, Index;
  }

  lemma SignOut(g: Signing, i: nat, j: nat)
    requires i in g.quorum && j in g.quorum
    ensures At(Out(SignConfig(g), i), j) == BroadcastShare(g, i, Commitments(g))
  {
    SignView1(g, i);
    hide BroadcastShare, View1, Commitments;
  }

  lemma SignView2(g: Signing, i: nat)
    requires i in g.quorum
    ensures View2(SignConfig(g), i) == Shares(g)
  {
    hide SignConfig, Out, At, BroadcastShare, Commitments, Ids, QuorumIds, Index;
    SignIds(g, i);
    forall id | id in QuorumIds(g)
      ensures At(Out(SignConfig(g), Index(id)), i) == BroadcastShare(g, Index(id), Commitments(g))
    {
      SignOut(g, Index(id), i);
    }
  }

  lemma SignValid(g: Signing)
    requires ValidSigning(g)
    ensures Valid(SignConfig(g))
  {
    forall i <- g.quorum, j <- g.quorum ensures |At(Out(SignConfig(g), i), j)| < 0x1_0000_0000 {
      SignOut(g, i, j);
    }
  }

  /**
   * Identifiable abort: every honest signer that gets past both collections has the verdict of the
   * one aggregation of all commitments and all broadcast shares, whoever tampered and in whatever
   * order it listed what it collected.
   */
  lemma SameVerdict(g: Signing, s: State, i: nat)
    requires ValidSigning(g) && Reachable(SignConfig(g), s)
    requires i in s && i !in g.corrupt && s[i].pc.Finishing()
    ensures s[i].pc.verdict == g.aggregate(g.pubPkg(i), Commitments(g), Shares(g))
    ensures Received(Encode(s[i].pc.items1)) == Some(Commitments(g))
    ensures Received(Encode(s[i].pc.items2)) == Some(Shares(g))
  {
    SignValid(g);
    hide Received, Encode, Valid, ValidSigning, Reachable, View1, View2, Commitments, Shares;
    SettledAt(SignConfig(g), s, i);
    SignView1(g, i);
    SignView2(g, i);
  }

  /** Two honest signers with one public package agree, whenever each got there, even in different runs. */
  lemma SignersAgree(g: Signing, s: State, i: nat, t: State, j: nat, aggregator: nat)
    requires ValidSigning(g) && Reachable(SignConfig(g), s) && Reachable(SignConfig(g), t)
    requires i in s && i !in g.corrupt && s[i].pc.Finishing() && j in t && j !in g.corrupt && t[j].pc.Finishing()
    requires g.pubPkg(i) == g.pubPkg(j)
    ensures s[i].pc.verdict == t[j].pc.verdict
    ensures forall bad :: Result(aggregator, i, s[i].pc.verdict) == BadShare(bad) <==>
                          Result(aggregator, j, t[j].pc.verdict) == BadShare(bad)
  {
    hide Reachable, Received, Encode, Commitments, Shares, SignConfig;
    SameVerdict(g, s, i);
    SameVerdict(g, t, j);
  }

  /** What `RunFrostSign` returns once its barrier is over. */
  datatype Returned = Signature(sig: Bytes) | NoSignature | BadShare(operator: nat) | Aborted

  function Result(aggregator: nat, i: nat, verdict: Verdict): Returned {
    match verdict
    case Produced(sig) => if i == aggregator then Signature(sig) else NoSignature
    case Culprit(id) => BadShare(Index(id))
    case Refused => Aborted
  }

  /**
   * What verification means to the aggregation: which bytes decode as a share, and which shares are
   * their signer's own under a public package and the commitments of a session.
   */
  datatype Check = Check(parses: Bytes -> bool, genuine: (Bytes, map<nat, Bytes>, nat, Bytes) -> bool)

  predicate OnlyBad(check: Check, pk: Bytes, c: map<nat, Bytes>, shares: map<nat, Bytes>, id: nat)
    requires id in shares
  {
    forall b <- shares :: check.parses(shares[b]) && (check.genuine(pk, c, b, shares[b]) <==> b != id)
  }

  /** In this session, `frost::aggregate` at operator `i` names the signer of a single bad share. */
  ghost predicate Attributes(g: Signing, i: nat, check: Check) {
    forall shares: map<nat, Bytes> {:trigger g.aggregate(g.pubPkg(i), Commitments(g), shares)} ::
      shares.Keys == QuorumIds(g) ==>
        forall id <- shares :: OnlyBad(check, g.pubPkg(i), Commitments(g), shares, id) ==>
          g.aggregate(g.pubPkg(i), Commitments(g), shares) == Culprit(id)
  }

  /** The one corrupt signer's tampered share decodes and is bad, and everybody else's share is genuine. */
  ghost predicate OneTampers(g: Signing, i: nat, check: Check, bad: nat) {
    && g.corrupt == {bad} && bad in g.quorum
    && (forall k <- g.quorum :: check.parses(BroadcastShare(g, k, Commitments(g))))
    && (forall k <- g.quorum ::
          check.genuine(g.pubPkg(i), Commitments(g), Num(k), BroadcastShare(g, k, Commitments(g))) <==> k != bad)
  }

  lemma CulpritNamed(g: Signing, i: nat, check: Check, bad: nat)
    requires Attributes(g, i, check) && OneTampers(g, i, check, bad)
    ensures g.corrupt == {bad} && g.aggregate(g.pubPkg(i), Commitments(g), Shares(g)) == Culprit(Num(bad))
  {
    var shares := Shares(g);
    hide Commitments, BroadcastShare;
    assert Num(bad) in shares;
    forall b <- shares
      ensures check.parses(shares[b])
              && (check.genuine(g.pubPkg(i), Commitments(g), b, shares[b]) <==> b != Num(bad))
    {
      assert shares[b] == BroadcastShare(g, Index(b), Commitments(g)) && Num(Index(b)) == b;
    }
  }

  /** One tampered share among genuine ones: every honest signer that finishes names its sender. */
  lemma EveryoneNamesTheCulprit(g: Signing, check: Check, bad: nat, s: State, i: nat, aggregator: nat)
    requires ValidSigning(g) && Reachable(SignConfig(g), s) && i in s && i != bad && s[i].pc.Finishing()
    requires Attributes(g, i, check) && OneTampers(g, i, check, bad)
    ensures Result(aggregator, i, s[i].pc.verdict) == BadShare(bad)
  {
    hide Reachable, Received, Encode, Commitments, Shares, Attributes, OneTampers, ValidSigning, SignConfig;
    CulpritNamed(g, i, check, bad);
    SameVerdict(g, s, i);
  }

  // An aggregation that decodes before it verifies, and a session in which the above comes to pass.

  function DecodeAndVerify(pk: Bytes, c: map<nat, Bytes>, shares: map<nat, Bytes>): Verdict {
    if pk != [9] || (exists id <- shares :: |shares[id]| != 1) then Refused
    else if 1 in shares && shares[1] != [0] then Culprit(1)
    else if 2 in shares && shares[2] != [0] then Culprit(2)
    else Produced([])
  }

  function Commit(i: nat): Bytes { [7] }
  function HonestShare(i: nat, view: map<nat, Bytes>): Bytes { [0] }
  function StoredPackage(i: nat): Bytes { [9] }
  predicate OneByte(b: Bytes) { |b| == 1 }
  predicate IsZero(pk: Bytes, c: map<nat, Bytes>, id: nat, share: Bytes) { share == [0] }

  const EXAMPLE := Signing({0, 1}, {1}, [], Commit, HonestShare, StoredPackage, DecodeAndVerify)

  /**
   * What `EveryoneNamesTheCulprit` asks for can be had from an aggregation that refuses undecodable
   * packages and shares without naming anybody: a session of two, run to its end, where the honest
   * signer names the other.
   */
  lemma CulpritIsNamedSomewhere() returns (check: Check, s: State)
    ensures forall c, shares :: EXAMPLE.aggregate([], c, shares) == Refused
    ensures forall c, shares: map<nat, Bytes>, id <- shares :: !check.parses(shares[id]) ==>
              EXAMPLE.aggregate([9], c, shares) == Refused
    ensures ValidSigning(EXAMPLE) && Attributes(EXAMPLE, 0, check) && OneTampers(EXAMPLE, 0, check, 1)
    ensures Reachable(SignConfig(EXAMPLE), s) && 0 in s && s[0].pc.Finishing()
    ensures Result(0, 0, s[0].pc.verdict) == BadShare(1)
  {
    check := Check(OneByte, IsZero);
    ExampleHolds(check);
    var cfg := SignConfig(EXAMPLE);
    ExampleIsSound(check);
    SignValid(EXAMPLE);
    assert EXAMPLE.quorum == {0, 1};
    hide Sound, Valid, SignConfig, Attributes, OneTampers, ValidSigning, Commitments, Shares, DecodeAndVerify, CalmReachable,
         Reachable, Final, NobodyQuit, Judged, Result, Roomy;
    StartIsCalm(cfg);
    s := CalmRunsEnd(cfg, Init(cfg));
    TwoNeverFail(cfg, s);
    CalmIsReachable(cfg, s);
    FinalMeansDone(cfg, s, 0);
    EveryoneNamesTheCulprit(EXAMPLE, check, 1, s, 0, 0);
  }

  lemma ExampleIsSound(check: Check)
    requires ValidSigning(EXAMPLE) && Attributes(EXAMPLE, 0, check) && OneTampers(EXAMPLE, 0, check, 1)
    ensures var cfg := SignConfig(EXAMPLE); Sound(cfg) && Roomy(cfg) && |cfg.ops| == 2 && 0 in cfg.ops
  {
    hide Attributes, OneTampers, ValidSigning, Commitments, Shares, DecodeAndVerify, Judged;
    var cfg := SignConfig(EXAMPLE);
    CulpritNamed(EXAMPLE, 0, check, 1);
    assert cfg.ops == {0, 1} && |cfg.ops| == 2;
    assert !Judged(cfg, 0).Refused? by {
      JudgedIs(EXAMPLE, 0);
    }
  }

  lemma JudgedIs(g: Signing, i: nat)
    requires i in g.quorum
    ensures Judged(SignConfig(g), i) == g.aggregate(g.pubPkg(i), Commitments(g), Shares(g))
  {
    SignView1(g, i);
    SignView2(g, i);
    hide View1, View2, Commitments, Shares;
  }

  lemma ExampleHolds(check: Check)
    requires check == Check(OneByte, IsZero)
    ensures ValidSigning(EXAMPLE) && Attributes(EXAMPLE, 0, check) && OneTampers(EXAMPLE, 0, check, 1)
  {
    assert QuorumIds(EXAMPLE) == {1, 2} by {
      assert Num(0) == 1 && Num(1) == 2;
    }
    hide Commitments;
    forall shares: map<nat, Bytes>, id | shares.Keys == QuorumIds(EXAMPLE) && id in shares
                                         && OnlyBad(check, [9], Commitments(EXAMPLE), shares, id)
      ensures EXAMPLE.aggregate([9], Commitments(EXAMPLE), shares) == Culprit(id)
    {
      assert 1 in shares && 2 in shares;
    }
  }

  /** Two honest signers: every calm run that stops leaves the signature with the aggregator alone. */
  lemma TwoSignersFinish(g: Signing, s: State, sig: Bytes, aggregator: nat, i: nat)
    requires ValidSigning(g) && |g.quorum| <= 2 && g.corrupt == {} && i in g.quorum
    requires CalmReachable(SignConfig(g), s) && Final(SignConfig(g), s)
    requires forall k <- g.quorum :: g.aggregate(g.pubPkg(k), Commitments(g), Shares(g)) == Produced(sig)
    ensures i in s && s[i].life == Closed(true) && s[i].pc.WaitFin?
    ensures Result(aggregator, i, s[i].pc.verdict) == if i == aggregator then Signature(sig) else NoSignature
  {
    var cfg := SignConfig(g);
    SignValid(g);
    forall k <- cfg.ops | k !in cfg.corrupt ensures !Judged(cfg, k).Refused? {
      SignView1(g, k);
      SignView2(g, k);
    }
    TwoNeverFail(cfg, s);
    CalmIsReachable(cfg, s);
    FinalMeansDone(cfg, s, i);
    SignView1(g, i);
    SignView2(g, i);
  }

  // ---- distributed key generation ------------------------------------------------------------------

  datatype KeyGen = KeyGen(
    ops: set<nat>,
    session: Bytes,
    part1: nat -> Bytes,
    part2: (nat, map<nat, Bytes>) -> map<nat, Bytes>,
    part3: (nat, map<nat, Bytes>, map<nat, Bytes>) -> Option<Bytes>)

  /** The second-round packages in the order of their recipients' identifiers, as Rust frames them. */
  function Ascending(packages: map<nat, Bytes>, n: nat): seq<Item> {
    if n == 0 then []
    else
      Ascending(packages, n - 1)
      + if n - 1 in packages then [Item(IdToU16(Le(32, n - 1)), packages[n - 1])] else []
  }

  /** What the Go driver sends to whom: it decodes the framed packages and subtracts one from each id. */
  function Routed(packages: map<nat, Bytes>): map<nat, Bytes> {
    match Decode(Encode(Ascending(packages, 0x1_0000)))
    case None => map[]
    case Some(items) =>
      var m := ToMap(items);
      map dest: nat | dest < 0xFFFF && Num(dest) in m :: m[Num(dest)]
  }

  /** Key generation names nobody: it has a key package, or an error. */
  function OrRefused(key: Option<Bytes>): Verdict {
    if key.Some? then Produced(key.value) else Refused
  }

  function KeygenConfig(g: KeyGen): Config {
    Config(g.ops, Keygen, g.session, {}, g.part1,
           (i: nat, view: map<nat, Bytes>) => Routed(g.part2(i, view)),
           (i: nat, view1: map<nat, Bytes>, view2: map<nat, Bytes>) => OrRefused(g.part3(i, view1, view2)))
  }

  function OtherIds(g: KeyGen, i: nat): set<nat> {
    set k | k in g.ops && k != i :: Num(k)
  }

  /** Everyone else's first-round package, by identifier. */
  function Opened(g: KeyGen, i: nat): map<nat, Bytes> {
    map id | id in OtherIds(g, i) :: g.part1(Index(id))
  }

  /** The second-round packages operator `i` produced, by recipient identifier. */
  function Dealt(g: KeyGen, i: nat): map<nat, Bytes> {
    g.part2(i, Opened(g, i))
  }

  /** The transpose: what every other operator dealt to `j`, by the dealer's identifier. */
  function Column(g: KeyGen, j: nat): map<nat, Bytes> {
    map id | id in OtherIds(g, j) :: At(Dealt(g, Index(id)), Num(j))
  }

  /** FROST's second part deals one package to each operator it has a first-round package from. */
  ghost predicate ValidKeygen(g: KeyGen) {
    && (forall i <- g.ops :: i < 0xFFFF)
    && (forall i <- g.ops :: |g.part1(i)| < 0x1_0000_0000)
    && (forall i <- g.ops :: Dealt(g, i).Keys == OtherIds(g, i))
    && (forall i <- g.ops, id <- Dealt(g, i) :: |Dealt(g, i)[id]| < 0x1_0000_0000)
  }

  /** The packages for identifiers below `n`. */
  ghost function Below(packages: map<nat, Bytes>, n: nat): map<nat, Bytes> {
    map id | id in packages && id < n :: packages[id]
  }

  lemma BelowSteps(packages: map<nat, Bytes>, n: nat)
    ensures Below(packages, 0) == map[] && Lists([], map[])
    ensures n !in Below(packages, n)
    ensures Below(packages, n + 1) == if n in packages then Below(packages, n)[n := packages[n]] else Below(packages, n)
  {}

  lemma {:induction false} AscendingLists(packages: map<nat, Bytes>, n: nat)
    requires n <= 0x1_0000
    ensures Lists(Ascending(packages, n), Below(packages, n))
  {
    hide Lists, Below, IdToU16, Le;
    if n == 0 {
      BelowSteps(packages, 0);
    } else {
      BelowSteps(packages, n - 1);
      AscendingLists(packages, n - 1);
      IdReadBack(n - 1);
      var front := Ascending(packages, n - 1);
      assert front + [] == front;
      if n - 1 in packages {
        FreshLast(front, Below(packages, n - 1), Item(IdToU16(Le(32, n - 1)), packages[n - 1]));
      }
    }
  }

  lemma FreshLast(front: seq<Item>, m: map<nat, Bytes>, last: Item)
    requires Lists(front, m) && last.id !in m
    ensures Lists(front + [last], m[last.id as nat := last.body])
  {
    var items := front + [last];
    forall x, y | 0 <= x < y < |items| ensures items[x].id != items[y].id {
      assert items[x] == front[x] && front[x] in front;
    }
    ListsOneMore(front, m, last);
  }

  /** Through the framing and the index shift each package reaches the operator it names. */
  lemma RoutedDelivers(packages: map<nat, Bytes>, dest: nat)
    requires forall id <- packages :: 1 <= id < 0x1_0000 && |packages[id]| < 0x1_0000_0000
    requires dest < 0xFFFF
    ensures At(Routed(packages), dest) == At(packages, Num(dest))
  {
    AscendingLists(packages, 0x1_0000);
    assert packages == Below(packages, 0x1_0000);
    var items := Ascending(packages, 0x1_0000);
    hide Ascending, Lists, Encode, Decode;
    ReceivedIsSent(items, packages);
  }

  lemma KeygenView1(g: KeyGen, i: nat)
    ensures View1(KeygenConfig(g), i) == Opened(g, i)
  {
    KeygenIds(g, i);
  }

  lemma KeygenOut(g: KeyGen, i: nat, j: nat)
    requires ValidKeygen(g) && i in g.ops && j in g.ops
    ensures At(Out(KeygenConfig(g), i), j) == At(Dealt(g, i), Num(j))
    ensures |At(Out(KeygenConfig(g), i), j)| < 0x1_0000_0000
  {
    KeygenView1(g, i);
    assert Out(KeygenConfig(g), i) == Routed(Dealt(g, i));
    assert forall id <- Dealt(g, i) :: id in OtherIds(g, i);
    hide Routed, Dealt, Out, KeygenConfig;
    RoutedDelivers(Dealt(g, i), j);
  }

  lemma KeygenIds(g: KeyGen, j: nat)
    ensures Ids(KeygenConfig(g), j) == OtherIds(g, j)
    ensures forall id <- OtherIds(g, j) :: Index(id) in g.ops
  {}

  lemma KeygenView2(g: KeyGen, j: nat)
    requires ValidKeygen(g) && j in g.ops
    ensures View2(KeygenConfig(g), j) == Column(g, j)
  {
    hide KeygenConfig, Out, At, Dealt, Ids, ValidKeygen, OtherIds, Index, Num;
    KeygenIds(g, j);
    forall id | id in OtherIds(g, j)
      ensures At(Out(KeygenConfig(g), Index(id)), j) == At(Dealt(g, Index(id)), Num(j))
    {
      KeygenOut(g, Index(id), j);
    }
  }

  lemma KeygenValid(g: KeyGen)
    requires ValidKeygen(g)
    ensures Valid(KeygenConfig(g))
  {
    forall i <- g.ops, j <- g.ops ensures |At(Out(KeygenConfig(g), i), j)| < 0x1_0000_0000 {
      KeygenOut(g, i, j);
    }
    hide Out, At, Dealt;
  }

  lemma ColumnEntries(g: KeyGen, j: nat)
    requires ValidKeygen(g) && j in g.ops
    ensures forall i <- g.ops :: i != j ==>
              Num(j) in Dealt(g, i) && Num(i) in Column(g, j) && Column(g, j)[Num(i)] == Dealt(g, i)[Num(j)]
  {
    Numbers();
    forall i | i in g.ops && i != j
      ensures Num(j) in Dealt(g, i) && Num(i) in Column(g, j) && Column(g, j)[Num(i)] == Dealt(g, i)[Num(j)]
    {
      assert Num(i) in OtherIds(g, j) && Num(j) in OtherIds(g, i) && Index(Num(i)) == i;
    }
  }

  /**
   * In every run in which operator `j` completes key generation, its last step received exactly the
   * package every other operator dealt to it, under that operator's identifier: none lost, repeated
   * or swapped on the way through framing, index shift, sending and collection.
   */
  lemma Transpose(g: KeyGen, s: State, j: nat)
    requires ValidKeygen(g) && Reachable(KeygenConfig(g), s) && j in s && s[j].pc.Finishing()
    ensures Received(Encode(s[j].pc.items1)) == Some(Opened(g, j))
    ensures Received(Encode(s[j].pc.items2)) == Some(Column(g, j))
    ensures g.part3(j, Opened(g, j), Column(g, j)).Some?
    ensures s[j].pc.verdict == Produced(g.part3(j, Opened(g, j), Column(g, j)).value)
    ensures forall i <- g.ops :: i != j ==>
              Num(j) in Dealt(g, i) && Num(i) in Column(g, j) && Column(g, j)[Num(i)] == Dealt(g, i)[Num(j)]
  {
    KeygenValid(g);
    hide Received, Encode, Valid, ValidKeygen, Reachable, View1, View2, Opened, Column, Dealt;
    SettledAt(KeygenConfig(g), s, j);
    KeygenView1(g, j);
    KeygenView2(g, j);
    ColumnEntries(g, j);
  }

  /** Two operators: every calm key generation that stops has dealt both their shares. */
  lemma TwoDealersFinish(g: KeyGen, s: State, j: nat)
    requires ValidKeygen(g) && |g.ops| <= 2 && j in g.ops
    requires CalmReachable(KeygenConfig(g), s) && Final(KeygenConfig(g), s)
    requires forall k <- g.ops :: g.part3(k, Opened(g, k), Column(g, k)).Some?
    ensures j in s && s[j].life == Closed(true) && s[j].pc.WaitFin?
    ensures s[j].pc.verdict == Produced(g.part3(j, Opened(g, j), Column(g, j)).value)
  {
    var cfg := KeygenConfig(g);
    KeygenValid(g);
    forall k <- cfg.ops ensures !Judged(cfg, k).Refused? {
      KeygenView1(g, k);
      KeygenView2(g, k);
    }
    TwoNeverFail(cfg, s);
    CalmIsReachable(cfg, s);
    FinalMeansDone(cfg, s, j);
    KeygenView1(g, j);
    KeygenView2(g, j);
  }
}

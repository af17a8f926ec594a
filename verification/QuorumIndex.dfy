/** Quorum-local party indices: the same at every operator, and back to the operators they stand for. */
module QuorumIndex {
  import opened Bytes

  datatype Peer = Peer(index: nat, moniker: Bytes)

  /** The fields tss-lib orders and names a party by. */
  datatype PartyId = PartyId(moniker: Bytes, key: nat)

  function PartyIdFor(p: Peer): PartyId {
    PartyId(p.moniker, p.index + 1)
  }

  // ---- the library's sort, by key --------------------------------------------------------------

  function Insert(p: PartyId, s: seq<PartyId>): (t: seq<PartyId>)
    ensures |t| == |s| + 1
    ensures forall x :: x in t <==> x == p || x in s
  {
    if s == [] || p.key <= s[0].key then [p] + s else [s[0]] + Insert(p, s[1..])
  }

  function SortPartyIds(s: seq<PartyId>): (t: seq<PartyId>)
    ensures |t| == |s|
    ensures forall x :: x in t <==> x in s
  {
    if s == [] then [] else Insert(s[0], SortPartyIds(s[1..]))
  }

  function Keys(s: seq<PartyId>): (k: seq<nat>)
    ensures |k| == |s|
    ensures forall i :: 0 <= i < |s| ==> k[i] == s[i].key
  {
    if s == [] then [] else [s[0].key] + Keys(s[1..])
  }

  /** The same sort on plain numbers. */
  function InsertNumber(x: nat, s: seq<nat>): seq<nat> {
    if s == [] || x <= s[0] then [x] + s else [s[0]] + InsertNumber(x, s[1..])
  }

  function Sort(s: seq<nat>): seq<nat> {
    if s == [] then [] else InsertNumber(s[0], Sort(s[1..]))
  }

  function Successors(s: seq<nat>): (t: seq<nat>)
    ensures |t| == |s|
    ensures forall i :: 0 <= i < |s| ==> t[i] == s[i] + 1
  {
    if s == [] then [] else [s[0] + 1] + Successors(s[1..])
  }

  lemma {:induction false} InsertKeys(p: PartyId, s: seq<PartyId>)
    ensures Keys(Insert(p, s)) == InsertNumber(p.key, Keys(s))
  {
    if s == [] || p.key <= s[0].key {
      assert ([p] + s)[1..] == s;
    } else {
      InsertKeys(p, s[1..]);
      assert ([s[0]] + Insert(p, s[1..]))[1..] == Insert(p, s[1..]);
      assert Keys(s)[1..] == Keys(s[1..]);
    }
  }

  lemma {:induction false} SortKeys(s: seq<PartyId>)
    ensures Keys(SortPartyIds(s)) == Sort(Keys(s))
  {
    if s != [] {
      SortKeys(s[1..]);
      InsertKeys(s[0], SortPartyIds(s[1..]));
      assert Keys(s)[1..] == Keys(s[1..]);
    }
  }

  lemma {:induction false} InsertSuccessor(x: nat, s: seq<nat>)
    ensures InsertNumber(x + 1, Successors(s)) == Successors(InsertNumber(x, s))
  {
    if s == [] || x <= s[0] {
      assert ([x] + s)[1..] == s;
    } else {
      InsertSuccessor(x, s[1..]);
      assert ([s[0]] + InsertNumber(x, s[1..]))[1..] == InsertNumber(x, s[1..]);
      assert Successors(s)[1..] == Successors(s[1..]);
    }
  }

  lemma {:induction false} SortSuccessors(s: seq<nat>)
    ensures Sort(Successors(s)) == Successors(Sort(s))
  {
    if s != [] {
      SortSuccessors(s[1..]);
      InsertSuccessor(s[0], Sort(s[1..]));
      assert Successors(s)[1..] == Successors(s[1..]);
    }
  }

  predicate Ascending(s: seq<nat>) {
    forall i, j :: 0 <= i < j < |s| ==> s[i] <= s[j]
  }

  lemma {:induction false} InsertKeeps(x: nat, s: seq<nat>)
    requires Ascending(s)
    ensures Ascending(InsertNumber(x, s)) && multiset(InsertNumber(x, s)) == multiset{x} + multiset(s)
    ensures forall y :: y in InsertNumber(x, s) <==> y == x || y in s
  {
    var t := InsertNumber(x, s);
    if s == [] || x <= s[0] {
      assert multiset([x] + s) == multiset([x]) + multiset(s);
    } else {
      assert s == [s[0]] + s[1..];
      InsertKeeps(x, s[1..]);
      AscendingCons(s[0], InsertNumber(x, s[1..]));
      assert multiset([s[0]] + s[1..]) == multiset([s[0]]) + multiset(s[1..]);
    }
  }

  lemma AscendingCons(x: nat, s: seq<nat>)
    requires Ascending(s) && forall y :: y in s ==> x <= y
    ensures Ascending([x] + s)
  {
    var t := [x] + s;
    forall i, j | 0 <= i < j < |t| ensures t[i] <= t[j] {
      assert t[j] == s[j - 1] && s[j - 1] in s;
    }
  }

  lemma {:induction false} SortSorts(s: seq<nat>)
    ensures Ascending(Sort(s)) && multiset(Sort(s)) == multiset(s)
  {
    if s != [] {
      SortSorts(s[1..]);
      InsertKeeps(s[0], Sort(s[1..]));
      assert s == [s[0]] + s[1..];
    }
  }

  // ---- the quorum's ordering ---------------------------------------------------------------------

  /** Every quorum member is stored at its own index in the peer directory. */
  predicate OwnIndex(peers: seq<Peer>, quorum: seq<nat>) {
    forall i :: 0 <= i < |quorum| ==> quorum[i] < |peers| && peers[quorum[i]].index == quorum[i]
  }

  /** `p` carries the moniker of some quorum member, and its index plus one as key. */
  ghost predicate IsParty(peers: seq<Peer>, quorum: seq<nat>, p: PartyId) {
    exists i :: 0 <= i < |quorum| && quorum[i] < |peers|
                && p == PartyId(peers[quorum[i]].moniker, peers[quorum[i]].index + 1)
  }

  lemma KeysAscend(ids: seq<PartyId>)
    ensures var t := SortPartyIds(ids); forall i, j :: 0 <= i < j < |t| ==> t[i].key <= t[j].key
  {
    SortKeys(ids);
    SortSorts(Keys(ids));
    var t := SortPartyIds(ids);
    hide SortPartyIds, Sort;
    assert forall i :: 0 <= i < |t| ==> Keys(t)[i] == t[i].key;
  }

  lemma SortsTheParties(peers: seq<Peer>, quorum: seq<nat>, unsorted: seq<PartyId>)
    requires |unsorted| == |quorum|
    requires forall k :: 0 <= k < |quorum| ==> quorum[k] < |peers| && unsorted[k] == PartyIdFor(peers[quorum[k]])
    ensures forall p <- SortPartyIds(unsorted) :: IsParty(peers, quorum, p)
    ensures forall i :: 0 <= i < |quorum| ==>
              PartyId(peers[quorum[i]].moniker, peers[quorum[i]].index + 1) in SortPartyIds(unsorted)
  {
    hide SortPartyIds;
    forall p <- SortPartyIds(unsorted) ensures IsParty(peers, quorum, p) {
      var k :| 0 <= k < |unsorted| && unsorted[k] == p;
    }
    forall i | 0 <= i < |quorum|
      ensures PartyId(peers[quorum[i]].moniker, peers[quorum[i]].index + 1) in SortPartyIds(unsorted)
    {
      assert unsorted[i] in unsorted;
    }
  }

  /** The parties in quorum order, and the operator each key came from. */
  method NumberedParties(peers: seq<Peer>, quorum: seq<nat>) returns (unsorted: seq<PartyId>, byKey: map<nat, nat>)
    requires forall i :: 0 <= i < |quorum| ==> quorum[i] < |peers|
    ensures |unsorted| == |quorum| && forall k :: 0 <= k < |quorum| ==> unsorted[k] == PartyIdFor(peers[quorum[k]])
    ensures forall p <- unsorted :: p.key in byKey
    ensures forall key <- byKey ::
              byKey[key] in quorum && byKey[key] < |peers| && peers[byKey[key]].index + 1 == key
  {
    unsorted, byKey := [], map[];
    for i := 0 to |quorum|
      invariant |unsorted| == i && forall k :: 0 <= k < i ==> unsorted[k] == PartyIdFor(peers[quorum[k]])
      invariant forall p <- unsorted :: p.key in byKey
      invariant forall key <- byKey ::
                  byKey[key] in quorum && byKey[key] < |peers| && peers[byKey[key]].index + 1 == key
    {
      var pid := PartyIdFor(peers[quorum[i]]);
      unsorted := unsorted + [pid];
      byKey := byKey[pid.key := quorum[i]];
    }
  }

  /** The operator behind each party's key. */
  method OperatorsOf(peers: seq<Peer>, quorum: seq<nat>, sorted: seq<PartyId>, byKey: map<nat, nat>)
    returns (globalForLocal: seq<nat>)
    requires forall p <- sorted :: p.key in byKey
    requires forall key <- byKey :: byKey[key] in quorum && byKey[key] < |peers| && peers[byKey[key]].index + 1 == key
    ensures |globalForLocal| == |sorted|
    ensures forall li :: 0 <= li < |sorted| ==>
              globalForLocal[li] in quorum && globalForLocal[li] < |peers|
              && sorted[li].key == peers[globalForLocal[li]].index + 1
  {
    globalForLocal := [];
    for li := 0 to |sorted|
      invariant |globalForLocal| == li
      invariant forall k :: 0 <= k < li ==>
                  globalForLocal[k] in quorum && globalForLocal[k] < |peers|
                  && sorted[k].key == peers[globalForLocal[k]].index + 1
    {
      assert sorted[li] in sorted;
      globalForLocal := globalForLocal + [byKey[sorted[li].key]];
    }
  }

  method QuorumPartyIds(peers: seq<Peer>, quorum: seq<nat>) returns (sorted: seq<PartyId>, globalForLocal: seq<nat>)
    requires forall i :: 0 <= i < |quorum| ==> quorum[i] < |peers|
    ensures |sorted| == |globalForLocal| == |quorum|
    ensures forall li :: 0 <= li < |quorum| ==>
              globalForLocal[li] in quorum && globalForLocal[li] < |peers|
              && sorted[li].key == peers[globalForLocal[li]].index + 1
    ensures OwnIndex(peers, quorum) ==> globalForLocal == Sort(quorum)
    ensures forall i, j :: 0 <= i < j < |quorum| ==> sorted[i].key <= sorted[j].key
    ensures forall p <- sorted :: IsParty(peers, quorum, p)
    ensures forall i :: 0 <= i < |quorum| ==> PartyId(peers[quorum[i]].moniker, peers[quorum[i]].index + 1) in sorted
  {
    var unsorted, byKey := NumberedParties(peers, quorum);
    sorted := SortPartyIds(unsorted);
    hide *;
    globalForLocal := OperatorsOf(peers, quorum, sorted, byKey);
    if OwnIndex(peers, quorum) {
      GlobalsSorted(peers, quorum, unsorted, sorted, globalForLocal);
    }
    KeysAscend(unsorted);
    SortsTheParties(peers, quorum, unsorted);
  }

  lemma AtOwnIndex(peers: seq<Peer>, quorum: seq<nat>, globals: seq<nat>)
    requires OwnIndex(peers, quorum) && forall k :: 0 <= k < |globals| ==> globals[k] in quorum && globals[k] < |peers|
    ensures forall k :: 0 <= k < |globals| ==> peers[globals[k]].index == globals[k]
  {
    forall k | 0 <= k < |globals| ensures peers[globals[k]].index == globals[k] {
      var i :| 0 <= i < |quorum| && quorum[i] == globals[k];
    }
  }

  lemma GlobalsSorted(peers: seq<Peer>, quorum: seq<nat>, unsorted: seq<PartyId>, sorted: seq<PartyId>, globals: seq<nat>)
    requires OwnIndex(peers, quorum) && |unsorted| == |quorum| && sorted == SortPartyIds(unsorted)
    requires forall k :: 0 <= k < |quorum| ==> unsorted[k] == PartyIdFor(peers[quorum[k]])
    requires |globals| == |quorum| && forall k :: 0 <= k < |quorum| ==>
               globals[k] in quorum && globals[k] < |peers|
               && sorted[k].key == peers[globals[k]].index + 1
    ensures globals == Sort(quorum)
  {
    AtOwnIndex(peers, quorum, globals);
    SortKeys(unsorted);
    SortSuccessors(quorum);
    hide SortPartyIds, Sort;
    AreSuccessors(unsorted, quorum, peers);
    AreSuccessors(sorted, globals, peers);
    SuccessorsInjective(globals, Sort(quorum));
  }

  lemma AreSuccessors(ids: seq<PartyId>, indices: seq<nat>, peers: seq<Peer>)
    requires |ids| == |indices|
    requires forall k :: 0 <= k < |ids| ==>
               indices[k] < |peers| && peers[indices[k]].index == indices[k]
               && ids[k].key == peers[indices[k]].index + 1
    ensures Keys(ids) == Successors(indices)
  {
    hide Keys, Successors;
  }

  lemma SuccessorsInjective(a: seq<nat>, b: seq<nat>)
    requires Successors(a) == Successors(b)
    ensures a == b
  {
    var s, t := Successors(a), Successors(b);
    hide Successors;
    forall k | 0 <= k < |a| ensures a[k] == b[k] {
      assert s[k] == a[k] + 1 && t[k] == b[k] + 1;
    }
  }

  predicate Strict(s: seq<nat>) {
    forall i, j :: 0 <= i < j < |s| ==> s[i] < s[j]
  }

  predicate Distinct(s: seq<nat>) {
    forall i, j :: 0 <= i < j < |s| ==> s[i] != s[j]
  }

  /** The local order enumerates the quorum, strictly increasingly exactly when nobody is listed twice. */
  lemma StrictIff(quorum: seq<nat>)
    ensures Strict(Sort(quorum)) <==> Distinct(quorum)
    ensures forall gi :: gi in Sort(quorum) <==> gi in quorum
  {
    SortSorts(quorum);
    DistinctCounts(Sort(quorum));
    DistinctCounts(quorum);
    assert forall gi :: gi in Sort(quorum) <==> gi in multiset(Sort(quorum));
    assert forall gi :: gi in quorum <==> gi in multiset(quorum);
  }

  lemma {:induction false} DistinctCounts(s: seq<nat>)
    ensures Distinct(s) <==> forall x: nat :: multiset(s)[x] <= 1
  {
    if s != [] {
      var head, tail := s[0], s[1..];
      assert s == [head] + tail;
      DistinctCounts(tail);
      if head in tail {
        assert head in multiset(tail);
        assert multiset(s)[head] >= 2;
        var k :| 0 <= k < |tail| && tail[k] == head;
        assert s[k + 1] == head;
      } else {
        assert head !in multiset(tail);
        assert Distinct(s) <==> Distinct(tail);
        assert forall x: nat :: multiset(s)[x] == if x == head then 1 else multiset(tail)[x];
      }
    }
  }

  /** Listing the quorum in another order changes nothing. */
  lemma SameEverywhere(quorum: seq<nat>, other: seq<nat>)
    requires multiset(quorum) == multiset(other)
    ensures Sort(quorum) == Sort(other)
  {
    SortSorts(quorum);
    SortSorts(other);
    OneAscendingOrder(Sort(quorum), Sort(other));
  }

  lemma {:induction false} OneAscendingOrder(a: seq<nat>, b: seq<nat>)
    requires Ascending(a) && Ascending(b) && multiset(a) == multiset(b)
    ensures a == b
    decreases |a|
  {
    assert |a| == |multiset(a)| && |b| == |multiset(b)|;
    if a != [] {
      SameHead(a, b);
      assert a == [a[0]] + a[1..] && b == [b[0]] + b[1..];
      assert multiset(a[1..]) == multiset(a) - multiset{a[0]};
      assert multiset(b[1..]) == multiset(b) - multiset{b[0]};
      OneAscendingOrder(a[1..], b[1..]);
    }
  }

  lemma SameHead(a: seq<nat>, b: seq<nat>)
    requires Ascending(a) && Ascending(b) && multiset(a) == multiset(b) && a != [] && b != []
    ensures a[0] == b[0]
  {
    assert a[0] in multiset(b) && b[0] in multiset(a);
    var i :| 0 <= i < |b| && b[i] == a[0];
    var j :| 0 <= j < |a| && a[j] == b[0];
  }

  // ---- from blamed parties back to operators ---------------------------------------------------------

  /** A protocol error; tss-lib may list a culprit more than once, or as nil. */
  datatype TssError = TssError(round: nat, culprits: seq<Option<nat>>)

  datatype FaultError = FaultError(round: nat, culpritLocal: seq<nat>)

  method FaultFromTssError(perr: Option<TssError>) returns (r: Option<FaultError>)
    ensures r.None? <==> perr.None? || forall c <- perr.value.culprits :: c.None?
    ensures r.Some? ==> r.value.round == perr.value.round && Distinct(r.value.culpritLocal)
    ensures r.Some? ==> forall c :: c in r.value.culpritLocal <==> Some(c) in perr.value.culprits
    ensures r.Some? ==> r.value.culpritLocal != []
                        && FirstNamed(perr.value.culprits, r.value.culpritLocal[0])
  {
    if perr.None? {
      return None;
    }
    var culprits := perr.value.culprits;
    var local: seq<nat> := [];
    var seen: set<nat> := {};
    for k := 0 to |culprits|
      invariant forall c :: c in seen <==> c in local
      invariant forall c :: c in local <==> Some(c) in culprits[..k]
      invariant Distinct(local)
      invariant local == [] ==> forall m :: 0 <= m < k ==> Nil(culprits, m)
      invariant local != [] ==> FirstNamed(culprits, local[0])
    {
      var c := culprits[k];
      assert culprits[..k + 1] == culprits[..k] + [c];
      if c.None? || c.value in seen {
        continue;
      }
      if local == [] {
        assert culprits[k] == Some(c.value);
      }
      seen := seen + {c.value};
      local := local + [c.value];
    }
    assert culprits[..|culprits|] == culprits;
    if local == [] {
      return None;
    }
    assert Some(local[0]) in culprits;
    return Some(FaultError(perr.value.round, local));
  }

  /** `c` is the first culprit that is not nil. */
  ghost predicate FirstNamed(culprits: seq<Option<nat>>, c: nat) {
    exists k :: 0 <= k < |culprits| && culprits[k] == Some(c) && forall m :: 0 <= m < k ==> Nil(culprits, m)
  }

  predicate Nil(culprits: seq<Option<nat>>, m: nat) {
    m < |culprits| && culprits[m].None?
  }

  /** The operators a list of local culprits stands for. */
  function Globals(globalForLocal: seq<nat>, local: seq<nat>): (g: seq<nat>)
    requires forall k :: 0 <= k < |local| ==> local[k] < |globalForLocal|
    ensures |g| == |local|
    ensures forall k :: 0 <= k < |local| ==> g[k] == globalForLocal[local[k]]
  {
    seq(|local|, k requires 0 <= k < |local| => globalForLocal[local[k]])
  }

  /**
   * The protocol blames the parties of the operators in `blamed`. Whatever order and repetition it
   * lists them in, the de-duplicated culprits stand for exactly those operators, each once.
   */
  lemma ExactlyTheBlamed(quorum: seq<nat>, globalForLocal: seq<nat>, local: seq<nat>, blamed: set<nat>)
    requires globalForLocal == Sort(quorum) && Distinct(quorum)
    requires Distinct(local) && (forall b <- blamed :: b in quorum)
    requires forall li :: li in local <==> 0 <= li < |globalForLocal| && globalForLocal[li] in blamed
    ensures forall k :: 0 <= k < |local| ==> local[k] < |globalForLocal|
    ensures Distinct(Globals(globalForLocal, local))
    ensures forall gi :: gi in Globals(globalForLocal, local) <==> gi in blamed
  {
    StrictIff(quorum);
    forall k | 0 <= k < |local| ensures local[k] < |globalForLocal| {
      assert local[k] in local;
    }
    var g := Globals(globalForLocal, local);
    forall b <- blamed ensures b in g {
      var li :| 0 <= li < |globalForLocal| && globalForLocal[li] == b;
      assert li in local;
      var k :| 0 <= k < |local| && local[k] == li;
      assert g[k] == b;
    }
    forall gi | gi in g ensures gi in blamed {
      var k :| 0 <= k < |g| && g[k] == gi;
      assert local[k] in local;
    }
    forall i, j | 0 <= i < j < |g| ensures g[i] != g[j] {
      assert local[i] in local && local[j] in local;
    }
  }
}

/** Which coins a Bitcoin payment spends: largest first, until amount and fee are covered. */
module CoinSelect {
  import opened Bytes
  import opened Varint
  import opened Btc

  /** An unspent output as the explorer reports it; the txid is in display order, reversed. */
  datatype Utxo = Utxo(txid: Bytes32, vout: U32, value: U64)

  const SEQUENCE_FINAL: U32 := 0xffff_ffff

  /** Unsigned 64-bit wrap-around. */
  function Wrap(v: int): U64 {
    v % 0x1_0000_0000_0000_0000
  }

  function Sum(us: seq<Utxo>): nat {
    if us == [] then 0 else Sum(us[..|us| - 1]) + us[|us| - 1].value
  }

  function Reversed(b: Bytes32): (r: Bytes32)
    ensures forall i :: 0 <= i < 32 ==> r[i] == b[31 - i]
  {
    seq(32, i requires 0 <= i < 32 => b[31 - i])
  }

  function Input(u: Utxo): TxIn {
    TxIn(Outpoint(Reversed(u.txid), u.vout), u.value, SEQUENCE_FINAL)
  }

  ghost predicate Descending(us: seq<Utxo>) {
    forall i, j :: 0 <= i < j < |us| ==> us[i].value >= us[j].value
  }

  ghost predicate Permutation(a: seq<Utxo>, b: seq<Utxo>) {
    multiset(a) == multiset(b)
  }

  // ---- the program -------------------------------------------------------------------------------

  /** The position of a largest coin from `i` on. */
  method Largest(a: array<Utxo>, i: nat) returns (best: nat)
    requires i < a.Length
    ensures i <= best < a.Length && forall q :: i <= q < a.Length ==> a[best].value >= a[q].value
  {
    best := i;
    for k := i + 1 to a.Length
      invariant i <= best < a.Length && forall q :: i <= q < k ==> a[best].value >= a[q].value
    {
      if a[k].value > a[best].value {
        best := k;
      }
    }
  }

  /** The first `i` coins are in place. */
  ghost predicate Placed(s: seq<Utxo>, i: nat) {
    forall p, q :: 0 <= p < q < |s| && p < i ==> s[p].value >= s[q].value
  }

  /** Sorts in place, largest value first; the order of equal values is left open. */
  method SortLargestFirst(a: array<Utxo>)
    modifies a
    ensures Descending(a[..]) && Permutation(a[..], old(a[..]))
  {
    hide Permutation, Placed;
    ghost var was := a[..];
    SortStarts(was);
    for i := 0 to a.Length
      invariant Permutation(a[..], was) && Placed(a[..], i)
    {
      ghost var before := a[..];
      var best := Largest(a, i);
      SwapSteps(before, i, best, was);
      a[i], a[best] := a[best], a[i];
      assert a[..] == before[i := before[best]][best := before[i]];
    }
    SortEnds(a[..], a.Length);
  }

  lemma SortStarts(s: seq<Utxo>)
    ensures Permutation(s, s) && Placed(s, 0)
  {}

  lemma SortEnds(s: seq<Utxo>, i: nat)
    requires Placed(s, i) && i == |s|
    ensures Descending(s)
  {}

  lemma SwapSteps(s: seq<Utxo>, i: nat, j: nat, was: seq<Utxo>)
    requires i <= j < |s| && Placed(s, i) && Permutation(s, was)
    requires forall q :: i <= q < |s| ==> s[j].value >= s[q].value
    ensures Permutation(s[i := s[j]][j := s[i]], was) && Placed(s[i := s[j]][j := s[i]], i + 1)
  {}

  datatype Spend = NotEnough(need: U64, have: U64) | Chosen(inputs: seq<TxIn>, outputs: seq<TxOut>)

  /** `m` coins of the sorted list: the fewest that reach `need`, or all; never none if there is one. */
  ghost predicate StopsAt(us: seq<Utxo>, need: U64, m: nat) {
    && m <= |us| && (us != [] ==> m > 0)
    && (forall k :: 0 < k < m ==> Wrap(Sum(us[..k])) < need)
    && (m < |us| ==> Wrap(Sum(us[..m])) >= need)
  }

  /** What happens, wrap-around included. */
  method SelectCoins(utxos: array<Utxo>, amount: U64, fee: U64, destScript: Bytes, changeScript: Bytes)
    returns (r: Spend, m: nat)
    modifies utxos
    ensures Permutation(utxos[..], old(utxos[..]))
    ensures r.NotEnough? <==> Wrap(Sum(old(utxos[..]))) < Wrap(amount + fee)
    ensures r.NotEnough? ==> utxos[..] == old(utxos[..])
    ensures r.Chosen? ==> Descending(utxos[..]) && StopsAt(utxos[..], Wrap(amount + fee), m)
    ensures r.Chosen? ==> |r.inputs| == m && forall i :: 0 <= i < m ==> r.inputs[i] == Input(utxos[i])
    ensures r.Chosen? ==> r.outputs == PaymentOutputs(amount, Change(utxos[..m], amount, fee), destScript, changeScript)
    ensures r.Chosen? ==> |r.inputs| == m <= utxos.Length && forall i {:trigger r.inputs[i]} :: 0 <= i < m ==>
              && r.inputs[i].outpoint.vout == utxos[i].vout && r.inputs[i].value == utxos[i].value
              && r.inputs[i].sequence == 0xffff_ffff
              && forall b :: 0 <= b < 32 ==> r.inputs[i].outpoint.txid[b] == utxos[i].txid[31 - b]
    ensures r.Chosen? ==>
              var change := ((Sum(utxos[..m]) as int) - amount - fee) % 0x1_0000_0000_0000_0000;
              && |r.outputs| == (if change > 0 then 2 else 1) && r.outputs[0] == TxOut(amount, destScript)
              && (change > 0 ==> r.outputs[1] == TxOut(change, changeScript))
  {
    m := 0;
    hide Sum, Descending, Permutation, Wrap, StopsAt;
    var total := TotalOf(utxos);
    var need := Wrap(amount + fee);
    if total < need {
      SamePermutation(utxos[..]);
      return NotEnough(need, total), m;
    }
    SortLargestFirst(utxos);
    var inputs: seq<TxIn>;
    var inTotal: U64;
    inputs, inTotal, m := PickUntil(utxos, need);
    var change := Wrap((inTotal as int) - amount - fee);
    var outputs := [TxOut(amount, destScript)];
    if change > 0 {
      outputs := outputs + [TxOut(change, changeScript)];
    }
    WrapDifference(Sum(utxos[..m]), amount, fee);
    return Chosen(inputs, outputs), m;
  }

  lemma SamePermutation(s: seq<Utxo>)
    ensures Permutation(s, s)
  {}

  method TotalOf(utxos: array<Utxo>) returns (total: U64)
    ensures total == Wrap(Sum(utxos[..]))
  {
    ghost var us := utxos[..];
    SumNothing(us);
    total := 0;
    hide Sum;
    for i := 0 to utxos.Length
      invariant total == Wrap(Sum(us[..i]))
    {
      SumStep(us, i);
      total := Wrap(total + utxos[i].value);
    }
    assert us[..utxos.Length] == us;
  }

  /** The loop of the program: one coin after the other, checking the running total after each. */
  method PickUntil(utxos: array<Utxo>, need: U64) returns (inputs: seq<TxIn>, inTotal: U64, m: nat)
    ensures StopsAt(utxos[..], need, m) && inTotal == Wrap(Sum(utxos[..m]))
    ensures |inputs| == m && forall i :: 0 <= i < m ==> inputs[i] == Input(utxos[i])
  {
    ghost var us := utxos[..];
    SumNothing(us);
    hide Sum, Wrap, Input;
    inputs, inTotal, m := [], 0, 0;
    while m < utxos.Length
      invariant m <= |us| && |inputs| == m && forall i :: 0 <= i < m ==> inputs[i] == Input(us[i])
      invariant inTotal == Wrap(Sum(us[..m]))
      invariant forall k :: 0 < k <= m ==> Wrap(Sum(us[..k])) < need
    {
      SumStep(us, m);
      inputs := inputs + [Input(utxos[m])];
      inTotal := Wrap(inTotal + utxos[m].value);
      m := m + 1;
      if inTotal >= need {
        break;
      }
    }
    assert utxos[..m] == us[..m];
  }

  lemma SumNothing(us: seq<Utxo>)
    ensures Sum(us[..0]) == 0 && Wrap(0) == 0
  {}

  function Change(picked: seq<Utxo>, amount: U64, fee: U64): U64 {
    Wrap((Sum(picked) as int) - amount - fee)
  }

  function PaymentOutputs(amount: U64, change: U64, destScript: Bytes, changeScript: Bytes): seq<TxOut> {
    [TxOut(amount, destScript)] + if change > 0 then [TxOut(change, changeScript)] else []
  }

  lemma SumStep(us: seq<Utxo>, i: nat)
    requires i < |us|
    ensures Sum(us[..i + 1]) == Sum(us[..i]) + us[i].value
    ensures Wrap(Sum(us[..i + 1])) == Wrap(Wrap(Sum(us[..i])) + us[i].value)
  {
    assert us[..i + 1][..i] == us[..i];
    WrapSum(Sum(us[..i]), us[i].value);
  }

  lemma WrapSmall(v: int)
    requires 0 <= v < 0x1_0000_0000_0000_0000
    ensures Wrap(v) == v
  {}

  lemma WrapSum(a: int, b: int)
    ensures Wrap(a + b) == Wrap(Wrap(a) + b)
  {}

  lemma WrapDifference(a: nat, amount: U64, fee: U64)
    ensures Wrap((a as int) - amount - fee) == Wrap((Wrap(a) as int) - amount - fee)
  {
    WrapSum(a, -((amount as int) + fee));
  }

  // ---- what it means ---------------------------------------------------------------------------------

  lemma {:induction false} SumSplits(a: seq<Utxo>, b: seq<Utxo>)
    ensures Sum(a + b) == Sum(a) + Sum(b)
  {
    if b == [] {
      assert a + b == a;
    } else {
      SumSplits(a, b[..|b| - 1]);
      assert (a + b)[..|a + b| - 1] == a + b[..|b| - 1];
    }
  }

  lemma SumPrefix(us: seq<Utxo>, k: nat)
    requires k <= |us|
    ensures Sum(us[..k]) <= Sum(us)
  {
    SumSplits(us[..k], us[k..]);
    assert us[..k] + us[k..] == us;
  }

  /** A list without one of its elements. */
  lemma Remove(p: seq<Utxo>, u: Utxo) returns (q: seq<Utxo>)
    requires u in p
    ensures |q| == |p| - 1 && Sum(p) == Sum(q) + u.value && multiset(p) == multiset(q) + multiset{u}
  {
    var k :| 0 <= k < |p| && p[k] == u;
    q := p[..k] + p[k + 1..];
    assert p == p[..k] + ([u] + p[k + 1..]);
    SumSplits(p[..k], [u] + p[k + 1..]);
    SumSplits([u], p[k + 1..]);
    SumSplits(p[..k], p[k + 1..]);
    assert [u][..0] == [];
  }

  /** The sum of a list of coins depends on which they are, not on their order. */
  lemma {:induction false} SumOfSame(a: seq<Utxo>, b: seq<Utxo>)
    requires multiset(a) == multiset(b)
    ensures Sum(a) == Sum(b)
    decreases |a|
  {
    assert |a| == |multiset(a)| == |multiset(b)| == |b|;
    if a != [] {
      var u := a[0];
      assert u in multiset(b);
      var a' := Remove(a, u);
      var b' := Remove(b, u);
      assert multiset(a') == multiset(a) - multiset{u} == multiset(b) - multiset{u} == multiset(b');
      SumOfSame(a', b');
    }
  }

  /** A choice without the last coin, if that was chosen, is a choice among the others. */
  lemma WithoutLast(us: seq<Utxo>, pick: seq<Utxo>) returns (rest: seq<Utxo>)
    requires us != [] && multiset(pick) <= multiset(us)
    ensures multiset(rest) <= multiset(us[..|us| - 1])
    ensures rest == pick || (|rest| == |pick| - 1 && Sum(pick) == Sum(rest) + us[|us| - 1].value)
  {
    hide Sum;
    var front, last := us[..|us| - 1], us[|us| - 1];
    assert us == front + [last];
    assert multiset(us) == multiset(front) + multiset{last};
    if last in pick {
      rest := Remove(pick, last);
      Without(multiset(rest), multiset(front), last);
    } else {
      rest := pick;
      assert last !in multiset(pick);
      NotNeeded(multiset(pick), multiset(front), last);
    }
  }

  /** Exchange: no choice of coins beats as many of the largest ones. */
  lemma {:induction false} LargestAreBest(us: seq<Utxo>, pick: seq<Utxo>)
    requires Descending(us) && multiset(pick) <= multiset(us)
    ensures |pick| <= |us| && Sum(pick) <= Sum(us[..|pick|])
    decreases |us|
  {
    Front(us);
    NoMore(us, pick);
    hide Sum, Descending;
    if us == [] {
      assert pick == us[..0];
    } else {
      var front := us[..|us| - 1];
      var rest := WithoutLast(us, pick);
      LargestAreBest(front, rest);
      assert front[..|rest|] == us[..|rest|];
      if rest != pick {
        OneMoreCoin(us, rest);
      }
    }
  }

  lemma NoMore(us: seq<Utxo>, pick: seq<Utxo>)
    requires multiset(pick) <= multiset(us)
    ensures |pick| <= |us|
  {
    assert |pick| == |multiset(pick)| && |us| == |multiset(us)|;
    Cardinality(multiset(pick), multiset(us));
  }

  lemma Front(us: seq<Utxo>)
    ensures Descending(us) && us != [] ==> Descending(us[..|us| - 1])
  {}

  lemma OneMoreCoin(us: seq<Utxo>, rest: seq<Utxo>)
    requires us != [] && Descending(us) && |rest| < |us| && Sum(rest) <= Sum(us[..|us| - 1][..|rest|])
    ensures Sum(rest) + us[|us| - 1].value <= Sum(us[..|rest| + 1])
  {
    assert us[..|us| - 1][..|rest|] == us[..|rest|];
    SumStep(us, |rest|);
  }

  lemma Without(a: multiset<Utxo>, b: multiset<Utxo>, u: Utxo)
    requires a + multiset{u} <= b + multiset{u}
    ensures a <= b
  {
    forall x ensures a[x] <= b[x] {
      assert (a + multiset{u})[x] <= (b + multiset{u})[x];
    }
  }

  lemma NotNeeded(a: multiset<Utxo>, b: multiset<Utxo>, u: Utxo)
    requires a <= b + multiset{u} && u !in a
    ensures a <= b
  {
    forall x ensures a[x] <= b[x] {
      assert a[x] <= (b + multiset{u})[x];
    }
  }

  lemma Cardinality(a: multiset<Utxo>, b: multiset<Utxo>)
    requires a <= b
    ensures |a| <= |b|
  {
    assert b == a + (b - a);
  }

  /** The coins are worth less than 2^64 together; then wrap-around can only come from amount and fee. */
  ghost predicate Bounded(us: seq<Utxo>) {
    Sum(us) < 0x1_0000_0000_0000_0000
  }

  lemma BoundedPrefixes(us: seq<Utxo>)
    requires Bounded(us)
    ensures forall k :: 0 <= k <= |us| ==> Wrap(Sum(us[..k])) == Sum(us[..k])
  {
    forall k | 0 <= k <= |us| ensures Wrap(Sum(us[..k])) == Sum(us[..k]) {
      SumPrefix(us, k);
    }
  }

  /** The picked coins reach the need. */
  lemma Covers(us: seq<Utxo>, need: U64, m: nat)
    requires Bounded(us) && Wrap(Sum(us)) >= need && StopsAt(us, need, m)
    ensures Sum(us[..m]) >= need
  {
    BoundedPrefixes(us);
    assert us[..|us|] == us;
  }

  const SPAN64: nat := 0x1_0000_0000_0000_0000

  lemma WrapOf(v: nat)
    ensures Wrap(v) == v - SPAN64 * (v / SPAN64)
  {}

  /** The running total is high enough when the loop ends. */
  lemma Stopped(us: seq<Utxo>, need: U64, m: nat)
    requires Wrap(Sum(us)) >= need && StopsAt(us, need, m)
    ensures Wrap(Sum(us[..m])) >= need
  {
    assert us[..|us|] == us;
  }

  /**
   * Inputs are exactly amount, fee and change, if and only if the coins picked wrap around as often as
   * amount and fee do; otherwise the program goes on with totals that differ by multiples of 2^64.
   */
  lemma ConservesIff(us: seq<Utxo>, amount: U64, fee: U64, m: nat)
    requires Wrap(Sum(us)) >= Wrap(amount + fee) && StopsAt(us, Wrap(amount + fee), m)
    ensures Sum(us[..m]) == amount + fee + Change(us[..m], amount, fee)
            <==> Sum(us[..m]) / SPAN64 == (amount + fee) / SPAN64
  {
    Stopped(us, Wrap(amount + fee), m);
    assert m <= |us|;
    hide StopsAt, Sum, Wrap;
    ChangeOf(Sum(us[..m]), amount, fee);
  }

  lemma ChangeOf(p: nat, amount: U64, fee: U64)
    requires Wrap(p) >= Wrap(amount + fee)
    ensures p == amount + fee + Wrap((p as int) - amount - fee) <==> p / SPAN64 == (amount + fee) / SPAN64
  {
    var s: nat := amount + fee;
    WrapOf(p);
    WrapOf(s);
    var q := p / SPAN64 - s / SPAN64;
    var rest := Wrap(p) as int - Wrap(s);
    assert (p as int) - amount - fee == rest + SPAN64 * q;
    WrapMultiple(rest, q);
  }

  lemma WrapMultiple(rest: int, q: int)
    requires 0 <= rest < SPAN64
    ensures Wrap(rest + SPAN64 * q) == rest
  {}

  /** For coins worth less than 2^64 together: if and only if amount and fee do not wrap. */
  lemma BoundedConservesIff(us: seq<Utxo>, amount: U64, fee: U64, m: nat)
    requires Bounded(us) && Wrap(Sum(us)) >= Wrap(amount + fee) && StopsAt(us, Wrap(amount + fee), m)
    ensures Sum(us[..m]) == amount + fee + Change(us[..m], amount, fee) <==> amount + fee < SPAN64
  {
    assert m <= |us|;
    SumPrefix(us, m);
    ConservesIff(us, amount, fee, m);
    hide StopsAt, Wrap, Sum, Change;
  }

  /** How many coins cover the need when nothing wraps. */
  lemma FirstCover(us: seq<Utxo>, need: U64) returns (k: nat)
    requires need > 0 && Sum(us) >= need
    ensures 0 < k <= |us| && Sum(us[..k]) >= need && forall j :: 0 <= j < k ==> Sum(us[..j]) < need
  {
    SumNothing(us);
    assert us[..|us|] == us;
    hide Sum;
    k := 0;
    while Sum(us[..k]) < need
      invariant k <= |us| && forall j :: 0 <= j < k ==> Sum(us[..j]) < need
      decreases |us| - k
    {
      k := k + 1;
    }
  }

  /** Told before the call: with an amount and fee that fit, if and only if the first coins that cover them fit too. */
  lemma CoverFitsIff(us: seq<Utxo>, amount: U64, fee: U64, m: nat) returns (k: nat)
    requires 0 < amount + fee < SPAN64 && Wrap(Sum(us)) >= amount + fee && StopsAt(us, amount + fee, m)
    ensures 0 < k <= |us| && Sum(us[..k]) >= amount + fee && forall j :: 0 <= j < k ==> Sum(us[..j]) < amount + fee
    ensures Sum(us[..m]) == amount + fee + Change(us[..m], amount, fee) <==> Sum(us[..k]) < SPAN64
  {
    WrapOf(Sum(us));
    k := FirstCover(us, amount + fee);
    WrapSmall(amount + fee);
    ConservesIff(us, amount, fee, m);
    NotBeforeCover(us, amount + fee, m, k);
    assert m <= |us|;
    SumPrefix(us[..m], k);
    assert us[..m][..k] == us[..k];
    hide Change, Wrap, StopsAt, Sum;
  }

  lemma NotBeforeCover(us: seq<Utxo>, need: U64, m: nat, k: nat)
    requires Wrap(Sum(us)) >= need > 0 && StopsAt(us, need, m)
    requires 0 < k <= |us| && Sum(us[..k]) >= need && forall j :: 0 <= j < k ==> Sum(us[..j]) < need
    ensures k <= m && (Sum(us[..k]) < SPAN64 ==> m == k)
  {
    Stopped(us, need, m);
    assert m <= |us|;
    if m < k {
      WrapSmall(Sum(us[..m]));
    } else if Sum(us[..k]) < SPAN64 {
      WrapSmall(Sum(us[..k]));
    }
  }

  /** No smaller choice covers the need, if and only if there is something to cover or nothing to pick. */
  lemma MinimalIff(us: seq<Utxo>, need: U64, m: nat)
    requires Bounded(us) && Descending(us) && Wrap(Sum(us)) >= need && StopsAt(us, need, m)
    ensures (forall pick: seq<Utxo> :: multiset(pick) <= multiset(us) && Sum(pick) >= need ==> |pick| >= m)
            <==> need > 0 || us == []
  {
    if need > 0 || us == [] {
      forall pick: seq<Utxo> | multiset(pick) <= multiset(us) && Sum(pick) >= need ensures |pick| >= m {
        LargestAreBest(us, pick);
        if |pick| < m {
          TooFew(us, need, m, |pick|);
        }
      }
    } else {
      var none: seq<Utxo> := [];
      assert multiset(none) <= multiset(us) && Sum(none) >= need && |none| < m;
    }
  }

  lemma TooFew(us: seq<Utxo>, need: U64, m: nat, k: nat)
    requires Bounded(us) && StopsAt(us, need, m) && k < m && need > 0
    ensures Sum(us[..k]) < need
  {
    BoundedPrefixes(us);
    SumNothing(us);
  }

  lemma ChangeIsExact(us: seq<Utxo>, amount: U64, fee: U64, m: nat)
    requires Bounded(us) && Sum(us) >= amount + fee && StopsAt(us, amount + fee, m)
    ensures Change(us[..m], amount, fee) == Sum(us[..m]) - (amount + fee)
  {
    assert m <= |us|;
    WrapSmall(Sum(us));
    Covers(us, amount + fee, m);
    SumPrefix(us, m);
    hide StopsAt, Wrap, Sum;
    WrapSmall((Sum(us[..m]) as int) - amount - fee);
  }

  /** The change is smaller than the last coin picked, so that coin was needed; same condition. */
  lemma ChangeIsSmall(us: seq<Utxo>, amount: U64, fee: U64, m: nat)
    requires Bounded(us) && Sum(us) >= amount + fee && StopsAt(us, Wrap(amount + fee), m) && m > 0
    ensures Change(us[..m], amount, fee) < us[m - 1].value <==> amount + fee > 0
  {
    WrapSmall((amount as int) + fee);
    assert m <= |us|;
    hide StopsAt, Wrap, Sum;
    ChangeIsExact(us, amount, fee, m);
    SumStep(us, m - 1);
    if amount + fee > 0 {
      TooFew(us, amount + fee, m, m - 1);
    } else {
      OneCoin(us, m);
    }
  }

  /** With nothing to cover, the loop still takes one coin. */
  lemma OneCoin(us: seq<Utxo>, m: nat)
    requires StopsAt(us, 0, m) && m > 0
    ensures m == 1 && Sum(us[..m - 1]) == 0
  {
    SumNothing(us);
    assert m <= 1 || Wrap(Sum(us[..1])) < 0;
  }

  /** For the coins as they were listed: exact, no coin too many, and no choice of fewer would do. */
  lemma ExactAndMinimal(listed: seq<Utxo>, us: seq<Utxo>, amount: U64, fee: U64, m: nat)
    requires Permutation(us, listed) && Descending(us) && Bounded(listed)
    requires 0 < amount + fee <= Sum(listed) && StopsAt(us, Wrap(amount + fee), m)
    ensures 0 < m <= |us| && Sum(us[..m]) == amount + fee + Change(us[..m], amount, fee)
    ensures Change(us[..m], amount, fee) < us[m - 1].value
    ensures forall pick: seq<Utxo> :: multiset(pick) <= multiset(listed) && Sum(pick) >= amount + fee ==> |pick| >= m
  {
    SumOfSame(us, listed);
    SumNothing(us);
    assert us[..0] == [];
    WrapSmall((amount as int) + fee);
    WrapSmall(Sum(us));
    hide Wrap, Sum, Descending, Change;
    BoundedConservesIff(us, amount, fee, m);
    MinimalIff(us, Wrap(amount + fee), m);
    ChangeIsSmall(us, amount, fee, m);
  }

  /** Coins of 1000 sat, an amount of 2^64 - 1 and the default fee: accepted, and paid out of nothing. */
  lemma WrappingIsAccepted(u: Utxo)
    requires u.value == 1000
    ensures var amount, fee := 0xffff_ffff_ffff_ffff, 500;
            && Wrap(Sum([u])) >= Wrap(amount + fee) && StopsAt([u], Wrap(amount + fee), 1)
            && Change([u], amount, fee) == 501 && amount + 501 > Sum([u])
  {
    assert [u][..0] == [] && [u][..1] == [u];
    assert Sum([u]) == 1000;
  }

  /**
   * The coins' total wraps although amount and fee do not: four coins of 2^63 - 1 and one of 3 towards
   * 2^64 - 1 are all spent, and the 2^64 they are worth beyond that come back as no change.
   */
  lemma WrappingCoinsAreSpent(u: Utxo, v: Utxo)
    requires u.value == 0x7fff_ffff_ffff_ffff && v.value == 3
    ensures var us, amount, fee := [u, u, u, u, v], 0xffff_ffff_ffff_fe0b, 500;
            && amount + fee < SPAN64 && Descending(us) && Wrap(Sum(us)) >= Wrap(amount + fee)
            && StopsAt(us, Wrap(amount + fee), 5)
            && Change(us, amount, fee) == 0 && Sum(us) == amount + fee + SPAN64
  {
    var us := [u, u, u, u, v];
    SumNothing(us);
    SumStep(us, 0);
    SumStep(us, 1);
    SumStep(us, 2);
    SumStep(us, 3);
    SumStep(us, 4);
    assert us[..5] == us;
    hide Sum;
  }
}

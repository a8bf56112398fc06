// Coin selection (packages/core/src/selection.ts).
module Selection {
  import opened Wrappers
  import opened Counting
  import opened Sorting
  import opened Pool
  import opened Receipts

  datatype SelectionError = InvalidInput | Insufficient | Unconstructable | Unconfirmed

  predicate IdBefore(a: Coin, b: Coin) { a.id <= b.id }

  // Smaller amount, then smaller id.
  predicate AmountBefore(a: Coin, b: Coin) {
    a.opening.amount < b.opening.amount || (a.opening.amount == b.opening.amount && a.id <= b.id)
  }

  // `confirmed`: available, seen at a checkpoint of the context's mode.
  predicate Settled(coin: Coin, context: Context) {
    coin.status == Available && coin.checkpoint.mode == context.finalityMode && coin.checkpoint.number >= context.deploymentBlock
  }

  predicate Matching(coin: Coin, context: Context, owner: nat) {
    coin.chainId == context.chainId && coin.pool == context.pool && coin.owner == owner
  }

  function Sum(coins: seq<Coin>): nat {
    if coins == [] then 0 else Sum(coins[..|coins| - 1]) + coins[|coins| - 1].opening.amount
  }

  predicate Feasible(coins: seq<Coin>, amount: int) {
    0 <= Sum(coins) - amount <= M
  }

  function Filter(coins: seq<Coin>, keep: Coin -> bool): seq<Coin> {
    if coins == [] then []
    else
      var last := coins[|coins| - 1];
      Filter(coins[..|coins| - 1], keep) + (if keep(last) then [last] else [])
  }

  predicate Ascending(coins: seq<Coin>) {
    forall i, j :: 0 <= i < j < |coins| ==> coins[i].id < coins[j].id
  }

  predicate InBounds(coins: seq<Coin>) {
    forall i :: 0 <= i < |coins| ==> 1 <= coins[i].opening.amount <= M
  }

  // ----- What selection is for -----

  // One coin, or two in the order of their ids, that pay the amount with at most M left over.
  ghost predicate Choice(coins: seq<Coin>, choice: seq<Coin>, amount: int) {
    && (|choice| == 1 || (|choice| == 2 && choice[0].id < choice[1].id))
    && (forall i :: 0 <= i < |choice| ==> choice[i] in coins)
    && Feasible(choice, amount)
  }

  // Fewer coins, then less change, then smaller ids.
  predicate PreferredTo(a: seq<Coin>, b: seq<Coin>) {
    |a| < |b| || (|a| == |b| && (Sum(a) < Sum(b) || (Sum(a) == Sum(b) && IdsBefore(a, b))))
  }

  predicate IdsBefore(a: seq<Coin>, b: seq<Coin>)
    requires |a| == |b|
  {
    a != [] && (a[0].id < b[0].id || (a[0].id == b[0].id && IdsBefore(a[1..], b[1..])))
  }

  ghost predicate Best(coins: seq<Coin>, choice: seq<Coin>, amount: int) {
    && Choice(coins, choice, amount)
    && (forall other: seq<Coin> :: Choice(coins, other, amount) ==> other == choice || PreferredTo(choice, other))
  }

  ghost predicate CanPay(coins: seq<Coin>, amount: int) {
    exists choice: seq<Coin> :: Choice(coins, choice, amount)
  }

  // ----- Sums -----

  lemma SumOne(a: Coin)
    ensures Sum([a]) == a.opening.amount
  {
    assert [a][..0] == [];
  }

  lemma SumTwo(a: Coin, b: Coin)
    ensures Sum([a, b]) == a.opening.amount + b.opening.amount
  {
    assert [a, b][..1] == [a];
    SumOne(a);
  }

  lemma {:induction false} SumRemove(coins: seq<Coin>, k: nat)
    requires k < |coins|
    ensures Sum(coins) == Sum(coins[..k] + coins[k + 1..]) + coins[k].opening.amount
  {
    var n := |coins| - 1;
    if k == n {
      assert coins[..k] + coins[k + 1..] == coins[..n];
    } else {
      var rest := coins[..k] + coins[k + 1..];
      SumRemove(coins[..n], k);
      assert coins[..n][..k] + coins[..n][k + 1..] == rest[..|rest| - 1];
    }
  }

  lemma RemoveSame(xs: seq<Coin>, ys: seq<Coin>, k: nat)
    requires xs != [] && k < |ys| && ys[k] == xs[|xs| - 1] && multiset(xs) == multiset(ys)
    ensures multiset(xs[..|xs| - 1]) == multiset(ys[..k] + ys[k + 1..])
  {
    var n := |xs| - 1;
    assert xs == xs[..n] + [xs[n]];
    assert ys == ys[..k] + [ys[k]] + ys[k + 1..];
    assert multiset(xs[..n]) == multiset(xs) - multiset{xs[n]};
  }

  // The order of the coins does not matter to their sum.
  lemma {:induction false} SumPermute(xs: seq<Coin>, ys: seq<Coin>)
    requires multiset(xs) == multiset(ys)
    ensures Sum(xs) == Sum(ys)
  {
    if xs == [] {
      assert |multiset(xs)| == |multiset(ys)|;
      assert ys == [];
    } else {
      var n := |xs| - 1;
      assert xs[n] in multiset(ys);
      var k :| 0 <= k < |ys| && ys[k] == xs[n];
      RemoveSame(xs, ys, k);
      SumPermute(xs[..n], ys[..k] + ys[k + 1..]);
      SumRemove(ys, k);
    }
  }

  // Coins that are among the coins sum to no more.
  lemma ChoiceWithinSum(coins: seq<Coin>, choice: seq<Coin>, amount: int)
    requires Choice(coins, choice, amount)
    ensures Sum(choice) <= Sum(coins)
  {
    var k :| 0 <= k < |coins| && coins[k] == choice[0];
    SumRemove(coins, k);
    if |choice| == 1 {
      assert choice == [choice[0]];
      SumOne(choice[0]);
    } else {
      var rest := coins[..k] + coins[k + 1..];
      var j :| 0 <= j < |coins| && coins[j] == choice[1];
      var l := if j < k then j else j - 1;
      assert rest[l] == choice[1];
      SumRemove(rest, l);
      assert choice == [choice[0], choice[1]];
      SumTwo(choice[0], choice[1]);
    }
  }

  // ----- Filters -----

  lemma {:induction false} FilterMembers(coins: seq<Coin>, keep: Coin -> bool)
    ensures forall coin :: coin in Filter(coins, keep) <==> coin in coins && keep(coin)
  {
    if coins != [] {
      FilterMembers(coins[..|coins| - 1], keep);
      assert coins == coins[..|coins| - 1] + [coins[|coins| - 1]];
    }
  }

  lemma {:induction false} FilterAscending(coins: seq<Coin>, keep: Coin -> bool)
    requires Ascending(coins)
    ensures Ascending(Filter(coins, keep))
  {
    if coins != [] {
      var n := |coins| - 1;
      FilterAscending(coins[..n], keep);
      FilterMembers(coins[..n], keep);
      var kept := Filter(coins[..n], keep);
      forall i | 0 <= i < |kept| ensures kept[i].id < coins[n].id {
        assert kept[i] in coins[..n];
        var k :| 0 <= k < n && coins[..n][k] == kept[i];
        assert coins[k] == kept[i];
      }
    }
  }

  lemma {:induction false} FilterCount(coins: seq<Coin>, keep: Coin -> bool)
    ensures forall coin :: multiset(Filter(coins, keep))[coin] == if keep(coin) then multiset(coins)[coin] else 0
  {
    if coins != [] {
      FilterCount(coins[..|coins| - 1], keep);
      assert coins == coins[..|coins| - 1] + [coins[|coins| - 1]];
    }
  }

  lemma IdOrderTotal()
    ensures TotalPreorder(IdBefore) && TotalPreorder(AmountBefore)
  {
  }

  // Sorted by id with no two alike: ascending.
  lemma SortedAscending(coins: seq<Coin>)
    requires SortedBy(coins, IdBefore) && forall i :: 1 <= i < |coins| ==> coins[i - 1].id != coins[i].id
    ensures Ascending(coins)
  {
    forall i, j | 0 <= i < j < |coins| ensures coins[i].id < coins[j].id {
      assert IdBefore(coins[i], coins[j - 1]) || i == j - 1;
      assert IdBefore(coins[j - 1], coins[j]);
    }
  }

  // ----- Singles and pairs -----

  lemma SingleChoice(coins: seq<Coin>, choice: seq<Coin>, amount: int)
    requires Choice(coins, choice, amount) && |choice| == 1
    ensures choice == [choice[0]] && choice[0] in coins && Feasible([choice[0]], amount)
  {
  }

  // The feasible single coin of least amount and id is the best choice there is.
  lemma BestSingle(coins: seq<Coin>, single: Coin, amount: int)
    requires Ascending(coins) && single in coins && Feasible([single], amount)
    requires forall coin :: coin in coins && Feasible([coin], amount) ==> AmountBefore(single, coin)
    ensures Best(coins, [single], amount)
  {
    forall other: seq<Coin> | Choice(coins, other, amount) ensures other == [single] || PreferredTo([single], other) {
      if |other| == 1 {
        SingleChoice(coins, other, amount);
        SumOne(single);
        SumOne(other[0]);
        if other[0].id == single.id {
          var i :| 0 <= i < |coins| && coins[i] == single;
          var j :| 0 <= j < |coins| && coins[j] == other[0];
          assert i == j;
        }
      }
    }
  }

  // No pair among the coins before (i, j) in the order of the loops is feasible with less change.
  ghost predicate NoneBetter(coins: seq<Coin>, amount: int, i: nat, j: nat, best: Option<seq<Coin>>) {
    forall k, l :: 0 <= k < l < |coins| && (k < i || (k == i && l < j)) && Feasible([coins[k], coins[l]], amount) ==>
      best.Some? && (best.value == [coins[k], coins[l]] || PreferredTo(best.value, [coins[k], coins[l]]))
  }

  ghost predicate PairOf(coins: seq<Coin>, amount: int, i: nat, j: nat, pair: seq<Coin>) {
    exists k, l :: 0 <= k < l < |coins| && (k < i || (k == i && l < j)) && pair == [coins[k], coins[l]] && Feasible(pair, amount)
  }

  // One pair of the nested loops against the best so far.
  method Compare(pair: seq<Coin>, amount: int, best: Option<seq<Coin>>, bestChange: Option<int>)
      returns (better: Option<seq<Coin>>, betterChange: Option<int>)
    requires bestChange == ChangeOf(best, amount)
    ensures better == Keep(best, pair, amount) && betterChange == ChangeOf(better, amount)
  {
    better, betterChange := best, bestChange;
    if Feasible(pair, amount) {
      var change := Sum(pair) - amount;
      if bestChange.None? || change < bestChange.value {
        better, betterChange := Some(pair), Some(change);
      }
    }
  }

  method BestPair(coins: seq<Coin>, amount: int) returns (best: Option<seq<Coin>>)
    requires Ascending(coins)
    ensures Least(coins, amount, |coins|, 0, best)
  {
    best := None;
    var bestChange := None;
    for i := 0 to |coins|
      invariant Least(coins, amount, i, 0, best)
      invariant bestChange == ChangeOf(best, amount)
    {
      RowStart(coins, amount, i, best);
      for j := i + 1 to |coins|
        invariant Least(coins, amount, i, j, best)
        invariant bestChange == ChangeOf(best, amount)
      {
        NextPair(coins, amount, i, j, best);
        best, bestChange := Compare([coins[i], coins[j]], amount, best, bestChange);
      }
      RowEnd(coins, amount, i, best);
    }
  }

  function ChangeOf(best: Option<seq<Coin>>, amount: int): Option<int> {
    if best.None? then None else Some(Sum(best.value) - amount)
  }

  // The best of the pairs met so far.
  ghost predicate Least(coins: seq<Coin>, amount: int, i: nat, j: nat, best: Option<seq<Coin>>) {
    (best.Some? ==> PairOf(coins, amount, i, j, best.value)) && NoneBetter(coins, amount, i, j, best)
  }

  lemma RowStart(coins: seq<Coin>, amount: int, i: nat, best: Option<seq<Coin>>)
    requires Least(coins, amount, i, 0, best)
    ensures Least(coins, amount, i, i + 1, best)
  {
  }

  lemma RowEnd(coins: seq<Coin>, amount: int, i: nat, best: Option<seq<Coin>>)
    requires Least(coins, amount, i, |coins|, best) && i < |coins|
    ensures Least(coins, amount, i + 1, 0, best)
  {
  }

  function Keep(best: Option<seq<Coin>>, pair: seq<Coin>, amount: int): Option<seq<Coin>> {
    if Feasible(pair, amount) && (best.None? || Sum(pair) < Sum(best.value)) then Some(pair) else best
  }

  lemma NextPair(coins: seq<Coin>, amount: int, i: nat, j: nat, best: Option<seq<Coin>>)
    requires Ascending(coins) && i < j < |coins| && Least(coins, amount, i, j, best)
    ensures Least(coins, amount, i, j + 1, Keep(best, [coins[i], coins[j]], amount))
  {
    var pair := [coins[i], coins[j]];
    if best.Some? { EarlierPreferred(coins, amount, i, j, best.value); }
    if Feasible(pair, amount) && (best.None? || Sum(pair) < Sum(best.value)) {
      forall k, l | 0 <= k < l < |coins| && (k < i || (k == i && l < j + 1)) && Feasible([coins[k], coins[l]], amount)
        ensures pair == [coins[k], coins[l]] || PreferredTo(pair, [coins[k], coins[l]])
      {
        if k < i || l < j { assert best.Some?; }
      }
    }
  }

  // On equal change the pair met first has the smaller ids.
  lemma EarlierPreferred(coins: seq<Coin>, amount: int, i: nat, j: nat, pair: seq<Coin>)
    requires Ascending(coins) && i < j < |coins| && PairOf(coins, amount, i, j, pair)
    ensures Sum(pair) <= Sum([coins[i], coins[j]]) ==> PreferredTo(pair, [coins[i], coins[j]])
    ensures |pair| == 2
    ensures Sum([coins[i], coins[j]]) < Sum(pair) ==> PreferredTo([coins[i], coins[j]], pair)
  {
    var k, l :| 0 <= k < l < |coins| && (k < i || (k == i && l < j)) && pair == [coins[k], coins[l]];
    var other := [coins[i], coins[j]];
    assert pair[1..] == [coins[l]] && other[1..] == [coins[j]];
    if k < i { assert coins[k].id < coins[i].id; } else { assert coins[l].id < coins[j].id; }
    assert IdsBefore(pair, other);
  }

  lemma PairChoice(coins: seq<Coin>, choice: seq<Coin>, amount: int) returns (k: nat, l: nat)
    requires Ascending(coins) && Choice(coins, choice, amount) && |choice| == 2
    ensures k < l < |coins| && choice == [coins[k], coins[l]]
  {
    k :| 0 <= k < |coins| && coins[k] == choice[0];
    l :| 0 <= l < |coins| && coins[l] == choice[1];
    assert coins[k].id < coins[l].id;
  }

  // When no single coin will do, the best pair is the best choice, and without one there is none.
  lemma BestPairIsBest(coins: seq<Coin>, amount: int, best: Option<seq<Coin>>)
    requires Ascending(coins) && Least(coins, amount, |coins|, 0, best)
    requires forall coin :: coin in coins ==> !Feasible([coin], amount)
    ensures best.Some? ==> Best(coins, best.value, amount)
    ensures best.None? ==> !CanPay(coins, amount)
  {
    forall other: seq<Coin> | Choice(coins, other, amount)
      ensures best.Some? && (other == best.value || PreferredTo(best.value, other))
    {
      if |other| == 1 {
        SingleChoice(coins, other, amount);
      } else {
        var k, l := PairChoice(coins, other, amount);
        assert Feasible([coins[k], coins[l]], amount);
      }
    }
  }

  lemma {:induction false} IdsBeforeStrict(a: seq<Coin>, b: seq<Coin>)
    requires |a| == |b| && IdsBefore(a, b)
    ensures !IdsBefore(b, a)
  {
    if a[0].id == b[0].id { IdsBeforeStrict(a[1..], b[1..]); }
  }

  // There is one best choice.
  lemma BestUnique(coins: seq<Coin>, a: seq<Coin>, b: seq<Coin>, amount: int)
    requires Best(coins, a, amount) && Best(coins, b, amount)
    ensures a == b
  {
    if a != b && |a| == |b| && IdsBefore(a, b) { IdsBeforeStrict(a, b); }
  }

  // ----- Automatic selection -----

  function AvailableOf(candidates: seq<Coin>, context: Context, owner: nat): seq<Coin> {
    Filter(candidates, coin => Matching(coin, context, owner) && Settled(coin, context))
  }

  // What may be the owner's to spend, settled or not.
  function PossibleOf(candidates: seq<Coin>, context: Context, owner: nat): seq<Coin> {
    Filter(candidates, coin => Matching(coin, context, owner) && coin.status != Spent)
  }

  function UncertainOf(candidates: seq<Coin>, context: Context, owner: nat): seq<Coin> {
    Filter(candidates, coin => Matching(coin, context, owner) && coin.status != Spent && !Settled(coin, context))
  }

  lemma PossibleIsBoth(candidates: seq<Coin>, context: Context, owner: nat)
    ensures multiset(AvailableOf(candidates, context, owner) + UncertainOf(candidates, context, owner))
      == multiset(PossibleOf(candidates, context, owner))
  {
    var available, uncertain := AvailableOf(candidates, context, owner), UncertainOf(candidates, context, owner);
    FilterCount(candidates, coin => Matching(coin, context, owner) && Settled(coin, context));
    FilterCount(candidates, coin => Matching(coin, context, owner) && coin.status != Spent);
    FilterCount(candidates, coin => Matching(coin, context, owner) && coin.status != Spent && !Settled(coin, context));
    assert multiset(available + uncertain) == multiset(available) + multiset(uncertain);
  }

  ghost predicate DistinctIds(coins: seq<Coin>) {
    forall i, j :: 0 <= i < j < |coins| ==> coins[i].id != coins[j].id
  }

  lemma DistinctIdsPermute(xs: seq<Coin>, ys: seq<Coin>)
    requires DistinctIds(xs) && multiset(xs) == multiset(ys)
    ensures DistinctIds(ys)
  {
    assert Distinct(xs);
    DistinctPermute(xs, ys);
    forall i, j | 0 <= i < j < |ys| ensures ys[i].id != ys[j].id {
      assert ys[i] in multiset(xs) && ys[j] in multiset(xs);
      var k :| 0 <= k < |xs| && xs[k] == ys[i];
      var l :| 0 <= l < |xs| && xs[l] == ys[j];
      assert k != l;
    }
  }

  lemma SortById(coins: seq<Coin>)
    ensures SortedBy(Sort(coins, IdBefore), IdBefore)
    ensures multiset(Sort(coins, IdBefore)) == multiset(coins)
    ensures DistinctIds(coins) <==> Ascending(Sort(coins, IdBefore))
  {
    IdOrderTotal();
    SortSorted(coins, IdBefore);
    SortPermutes(coins, IdBefore);
    var sorted := Sort(coins, IdBefore);
    if DistinctIds(coins) {
      DistinctIdsPermute(coins, sorted);
      SortedAscending(sorted);
    }
    if Ascending(sorted) {
      assert DistinctIds(sorted);
      DistinctIdsPermute(sorted, coins);
    }
  }

  // The best choice depends on which coins there are, not on their order.
  lemma SameCoinsSameChoices(xs: seq<Coin>, ys: seq<Coin>, amount: int)
    requires forall coin :: coin in xs <==> coin in ys
    ensures forall choice: seq<Coin> :: Choice(xs, choice, amount) <==> Choice(ys, choice, amount)
    ensures CanPay(xs, amount) <==> CanPay(ys, amount)
    ensures forall choice: seq<Coin> :: Best(xs, choice, amount) <==> Best(ys, choice, amount)
  {
  }

  // Any choice among the coins shows up as a single coin or as a pair.
  method Search(coins: seq<Coin>, amount: int) returns (best: Option<seq<Coin>>)
    requires Ascending(coins)
    ensures best.Some? ==> Best(coins, best.value, amount)
    ensures best.None? ==> !CanPay(coins, amount)
  {
    var singles := Filter(coins, coin => Feasible([coin], amount));
    FilterMembers(coins, coin => Feasible([coin], amount));
    if |singles| > 0 {
      var sorted := Sort(singles, AmountBefore);
      IdOrderTotal();
      SortSorted(singles, AmountBefore);
      SortMembers(singles, AmountBefore);
      LeastFirst(singles, sorted);
      assert sorted[0] in sorted;
      BestSingle(coins, sorted[0], amount);
      return Some([sorted[0]]);
    }
    forall coin | coin in coins ensures !Feasible([coin], amount) {
      assert coin !in singles;
    }
    best := BestPair(coins, amount);
    BestPairIsBest(coins, amount, best);
  }

  lemma LeastFirst(singles: seq<Coin>, sorted: seq<Coin>)
    requires SortedBy(sorted, AmountBefore) && |sorted| > 0 && forall coin :: coin in singles ==> coin in sorted
    ensures forall coin :: coin in singles ==> AmountBefore(sorted[0], coin)
  {
    forall coin | coin in singles ensures AmountBefore(sorted[0], coin) {
      var i :| 0 <= i < |sorted| && sorted[i] == coin;
      assert i > 0 ==> AmountBefore(sorted[0], sorted[i]);
    }
  }

  // What automatic selection returns, and each failure exactly.
  ghost predicate Selects(candidates: seq<Coin>, context: Context, owner: nat, amount: int, r: Result<seq<Coin>, SelectionError>) {
    var available, possible := AvailableOf(candidates, context, owner), PossibleOf(candidates, context, owner);
    && (r.Ok? <==> CanPay(available, amount))
    && (r.Ok? ==> Best(available, r.value, amount))
    && (r == Err(Unconfirmed) <==> !CanPay(available, amount) && CanPay(possible, amount))
    && (r == Err(Insufficient) <==> Sum(possible) < amount)
    && (r == Err(Unconstructable) <==> !CanPay(possible, amount) && Sum(possible) >= amount)
    && r != Err(InvalidInput)
  }

  lemma PayingIsPossible(candidates: seq<Coin>, context: Context, owner: nat, amount: int)
    ensures CanPay(AvailableOf(candidates, context, owner), amount) ==> CanPay(PossibleOf(candidates, context, owner), amount)
    ensures CanPay(PossibleOf(candidates, context, owner), amount) ==> Sum(PossibleOf(candidates, context, owner)) >= amount
  {
    var available, possible := AvailableOf(candidates, context, owner), PossibleOf(candidates, context, owner);
    FilterMembers(candidates, coin => Matching(coin, context, owner) && Settled(coin, context));
    FilterMembers(candidates, coin => Matching(coin, context, owner) && coin.status != Spent);
    if choice: seq<Coin> :| Choice(available, choice, amount) {
      assert Choice(possible, choice, amount);
    }
    if choice: seq<Coin> :| Choice(possible, choice, amount) {
      ChoiceWithinSum(possible, choice, amount);
    }
  }

  lemma FilterOfSorted(candidates: seq<Coin>, ordered: seq<Coin>, keep: Coin -> bool)
    requires multiset(ordered) == multiset(candidates)
    ensures multiset(Filter(ordered, keep)) == multiset(Filter(candidates, keep))
  {
    FilterCount(ordered, keep);
    FilterCount(candidates, keep);
  }

  lemma SameMultisetMembers(xs: seq<Coin>, ys: seq<Coin>)
    requires multiset(xs) == multiset(ys)
    ensures forall coin :: coin in xs <==> coin in ys
  {
    forall coin ensures coin in xs <==> coin in ys {
      assert coin in xs <==> coin in multiset(xs);
    }
  }

  method SelectAutomatically(context: Context, ordered: seq<Coin>, owner: nat, amount: int) returns (r: Result<seq<Coin>, SelectionError>)
    requires Ascending(ordered)
    ensures Selects(ordered, context, owner, amount, r)
  {
    var available := AvailableOf(ordered, context, owner);
    FilterAscending(ordered, coin => Matching(coin, context, owner) && Settled(coin, context));
    PayingIsPossible(ordered, context, owner, amount);
    var best := Search(available, amount);
    if best.Some? { return Ok(best.value); }
    var uncertain := UncertainOf(ordered, context, owner);
    var possiblyAvailable := Sort(available + uncertain, IdBefore);
    PossibleSorted(ordered, context, owner, possiblyAvailable);
    var possible := Search(possiblyAvailable, amount);
    SameCoinsSameChoices(possiblyAvailable, PossibleOf(ordered, context, owner), amount);
    if uncertain == [] { NoneUncertain(ordered, context, owner, amount); }
    if |uncertain| > 0 && possible.Some? { return Err(Unconfirmed); }
    r := Err(if Sum(possiblyAvailable) < amount then Insufficient else Unconstructable);
  }

  lemma NoneUncertain(ordered: seq<Coin>, context: Context, owner: nat, amount: int)
    requires UncertainOf(ordered, context, owner) == []
    ensures CanPay(AvailableOf(ordered, context, owner), amount) <==> CanPay(PossibleOf(ordered, context, owner), amount)
  {
    PossibleIsBoth(ordered, context, owner);
    var available := AvailableOf(ordered, context, owner);
    assert available + [] == available;
    SameMultisetMembers(available, PossibleOf(ordered, context, owner));
    SameCoinsSameChoices(available, PossibleOf(ordered, context, owner), amount);
  }

  lemma PossibleSorted(ordered: seq<Coin>, context: Context, owner: nat, sorted: seq<Coin>)
    requires Ascending(ordered)
    requires sorted == Sort(AvailableOf(ordered, context, owner) + UncertainOf(ordered, context, owner), IdBefore)
    ensures Ascending(sorted)
    ensures Sum(sorted) == Sum(PossibleOf(ordered, context, owner))
    ensures forall coin :: coin in sorted <==> coin in PossibleOf(ordered, context, owner)
  {
    var both, possible := AvailableOf(ordered, context, owner) + UncertainOf(ordered, context, owner), PossibleOf(ordered, context, owner);
    PossibleIsBoth(ordered, context, owner);
    FilterAscending(ordered, coin => Matching(coin, context, owner) && coin.status != Spent);
    assert DistinctIds(possible);
    DistinctIdsPermute(possible, both);
    SortById(both);
    SumPermute(sorted, possible);
    SameMultisetMembers(sorted, possible);
  }

  lemma SelectsPermute(xs: seq<Coin>, ys: seq<Coin>, context: Context, owner: nat, amount: int, r: Result<seq<Coin>, SelectionError>)
    requires multiset(xs) == multiset(ys) && Selects(xs, context, owner, amount, r)
    ensures Selects(ys, context, owner, amount, r)
  {
    FilterOfSorted(xs, ys, coin => Matching(coin, context, owner) && Settled(coin, context));
    FilterOfSorted(xs, ys, coin => Matching(coin, context, owner) && coin.status != Spent);
    assert multiset(AvailableOf(ys, context, owner)) == multiset(AvailableOf(xs, context, owner));
    assert multiset(PossibleOf(ys, context, owner)) == multiset(PossibleOf(xs, context, owner));
    SameMultisetMembers(AvailableOf(xs, context, owner), AvailableOf(ys, context, owner));
    SameMultisetMembers(PossibleOf(xs, context, owner), PossibleOf(ys, context, owner));
    SumPermute(PossibleOf(xs, context, owner), PossibleOf(ys, context, owner));
    SameCoinsSameChoices(AvailableOf(xs, context, owner), AvailableOf(ys, context, owner), amount);
    SameCoinsSameChoices(PossibleOf(xs, context, owner), PossibleOf(ys, context, owner), amount);
  }

  // ----- Explicit selection -----

  // One or two different well-formed ids.
  predicate ExplicitOk(ids: seq<nat>) {
    1 <= |ids| <= 2 && (forall i :: 0 <= i < |ids| ==> ids[i] < WORD_LIMIT) && (|ids| == 2 ==> ids[0] != ids[1])
  }

  function Find(coins: seq<Coin>, id: nat): (r: Option<Coin>)
    ensures r.Some? ==> r.value in coins && r.value.id == id
    ensures r.None? ==> forall coin :: coin in coins ==> coin.id != id
  {
    if coins == [] then None
    else if coins[0].id == id then Some(coins[0])
    else
      assert coins == [coins[0]] + coins[1..];
      Find(coins[1..], id)
  }

  ghost predicate HasId(coins: seq<Coin>, id: nat) {
    exists coin :: coin in coins && coin.id == id
  }

  // The coins with these ids, in the order of their ids.
  ghost predicate Named(candidates: seq<Coin>, chosen: seq<Coin>, ids: seq<nat>) {
    && Ascending(chosen) && |chosen| == |ids|
    && (forall i :: 0 <= i < |ids| ==> HasId(chosen, ids[i]))
    && (forall coin :: coin in chosen ==> coin in candidates)
  }

  // The coins named, or the first thing wrong with them.
  ghost predicate SelectsExplicitly(candidates: seq<Coin>, context: Context, owner: nat, amount: int, ids: seq<nat>,
      r: Result<seq<Coin>, SelectionError>)
  {
    if exists i :: 0 <= i < |ids| && !HasId(candidates, ids[i]) then r == Err(Unconfirmed)
    else exists chosen: seq<Coin> :: Named(candidates, chosen, ids) && r == ExplicitResult(chosen, context, owner, amount)
  }

  function ExplicitResult(chosen: seq<Coin>, context: Context, owner: nat, amount: int): Result<seq<Coin>, SelectionError> {
    if exists coin :: coin in chosen && !Matching(coin, context, owner) then Err(InvalidInput)
    else if exists coin :: coin in chosen && !Settled(coin, context) then Err(Unconfirmed)
    else if !Feasible(chosen, amount) then Err(if Sum(chosen) < amount then Insufficient else Unconstructable)
    else Ok(chosen)
  }

  method SelectExplicitly(context: Context, ordered: seq<Coin>, owner: nat, amount: int, ids: seq<nat>)
      returns (r: Result<seq<Coin>, SelectionError>)
    requires ExplicitOk(ids)
    ensures SelectsExplicitly(ordered, context, owner, amount, ids, r)
  {
    var first := Find(ordered, ids[0]);
    if first.None? {
      assert !HasId(ordered, ids[0]);
      return Err(Unconfirmed);
    }
    var chosen := [first.value];
    if |ids| == 2 {
      var second := Find(ordered, ids[1]);
      if second.None? {
        assert !HasId(ordered, ids[1]);
        return Err(Unconfirmed);
      }
      chosen := if ids[0] <= ids[1] then [first.value, second.value] else [second.value, first.value];
      assert second.value in chosen;
    }
    assert first.value in chosen;
    r := ExplicitResult(chosen, context, owner, amount);
    assert Named(ordered, chosen, ids);
  }

  // ----- selectInputs -----

  predicate ValidAmount(kind: int, amount: int) {
    (kind == 1 && 1 <= amount <= M) || (kind == 2 && 1 <= amount <= 2 * M)
  }

  // An id of the wrong length fails as soon as two ids are compared.
  ghost predicate ValidCandidates(candidates: seq<Coin>) {
    && (|candidates| >= 2 ==> WellFormedIds(candidates))
    && DistinctIds(candidates) && InBounds(candidates)
  }

  predicate WellFormedIds(candidates: seq<Coin>) {
    forall i :: 0 <= i < |candidates| ==> candidates[i].id < WORD_LIMIT
  }

  // The first n coins are in bounds and no two neighbours share an id.
  ghost predicate CheckedTo(coins: seq<Coin>, n: nat)
    requires n <= |coins|
  {
    && (forall j :: 1 <= j < n ==> coins[j - 1].id != coins[j].id)
    && (forall j :: 0 <= j < n ==> 1 <= coins[j].opening.amount <= M)
  }

  // Sorts the candidates by id and refuses repeated ids and amounts out of bounds.
  method OrderCandidates(candidates: seq<Coin>) returns (ordered: Option<seq<Coin>>)
    ensures ordered.Some? <==> ValidCandidates(candidates)
    ensures ordered.Some? ==> Ascending(ordered.value) && multiset(ordered.value) == multiset(candidates)
  {
    if |candidates| >= 2 && !WellFormedIds(candidates) { return None; }
    var sorted := Sort(candidates, IdBefore);
    for i := 0 to |sorted|
      invariant CheckedTo(sorted, i)
    {
      if (i > 0 && sorted[i - 1].id == sorted[i].id) || !(1 <= sorted[i].opening.amount <= M) {
        InvalidAt(candidates, sorted, i);
        return None;
      }
    }
    AllChecked(candidates, sorted);
    ordered := Some(sorted);
  }

  lemma AllChecked(candidates: seq<Coin>, sorted: seq<Coin>)
    requires sorted == Sort(candidates, IdBefore) && CheckedTo(sorted, |sorted|)
    ensures Ascending(sorted) && multiset(sorted) == multiset(candidates) && DistinctIds(candidates) && InBounds(candidates)
  {
    SortById(candidates);
    SortedAscending(sorted);
    SameMultisetMembers(candidates, sorted);
    forall i | 0 <= i < |candidates| ensures 1 <= candidates[i].opening.amount <= M {
      assert candidates[i] in sorted;
    }
  }

  ghost predicate SelectionResult(context: Context, candidates: seq<Coin>, kind: int, owner: nat, amount: int,
      explicitIds: Option<seq<nat>>, r: Result<seq<Coin>, SelectionError>)
  {
    if !ValidAmount(kind, amount) || !ValidCandidates(candidates) then r == Err(InvalidInput)
    else if explicitIds.None? then Selects(candidates, context, owner, amount, r)
    else if ExplicitOk(explicitIds.value) && WellFormedIds(candidates) then
      SelectsExplicitly(candidates, context, owner, amount, explicitIds.value, r)
    else r == Err(InvalidInput)
  }

  method SelectInputs(context: Context, candidates: seq<Coin>, kind: int, owner: nat, amount: int, explicitIds: Option<seq<nat>>)
      returns (r: Result<seq<Coin>, SelectionError>)
    ensures SelectionResult(context, candidates, kind, owner, amount, explicitIds, r)
  {
    if !ValidAmount(kind, amount) { return Err(InvalidInput); }
    var ordered := OrderCandidates(candidates);
    if ordered.None? { return Err(InvalidInput); }
    SameMultisetMembers(candidates, ordered.value);
    if explicitIds.Some? {
      if !ExplicitOk(explicitIds.value) || !WellFormedIds(candidates) { return Err(InvalidInput); }
      r := SelectExplicitly(context, ordered.value, owner, amount, explicitIds.value);
      ExplicitPermute(candidates, ordered.value, context, owner, amount, explicitIds.value, r);
    } else {
      r := SelectAutomatically(context, ordered.value, owner, amount);
      SelectsPermute(ordered.value, candidates, context, owner, amount, r);
    }
  }

  lemma ExplicitPermute(candidates: seq<Coin>, ordered: seq<Coin>, context: Context, owner: nat, amount: int, ids: seq<nat>,
      r: Result<seq<Coin>, SelectionError>)
    requires (forall coin :: coin in candidates <==> coin in ordered) && SelectsExplicitly(ordered, context, owner, amount, ids, r)
    ensures SelectsExplicitly(candidates, context, owner, amount, ids, r)
  {
    assert forall id :: HasId(candidates, id) <==> HasId(ordered, id);
    if !exists i :: 0 <= i < |ids| && !HasId(ordered, ids[i]) {
      var chosen: seq<Coin> :| Named(ordered, chosen, ids) && r == ExplicitResult(chosen, context, owner, amount);
      assert Named(candidates, chosen, ids);
    }
  }

  lemma InvalidAt(candidates: seq<Coin>, ordered: seq<Coin>, i: nat)
    requires ordered == Sort(candidates, IdBefore) && i < |ordered|
    requires (i > 0 && ordered[i - 1].id == ordered[i].id) || !(1 <= ordered[i].opening.amount <= M)
    ensures !DistinctIds(candidates) || !InBounds(candidates)
  {
    SortById(candidates);
    SameMultisetMembers(candidates, ordered);
    if i > 0 && ordered[i - 1].id == ordered[i].id {
      assert !Ascending(ordered);
    } else {
      assert ordered[i] in candidates;
    }
  }

  // ----- UNCONSTRUCTABLE, exactly -----

  // The bound on change never stands in the way: coins can pay exactly when one or two of them
  // reach the amount.
  lemma CanPayIff(coins: seq<Coin>, amount: int)
    requires DistinctIds(coins) && InBounds(coins) && amount >= 1
    ensures CanPay(coins, amount) <==>
      || (exists i :: 0 <= i < |coins| && coins[i].opening.amount >= amount)
      || (exists i, j :: 0 <= i < j < |coins| && coins[i].opening.amount + coins[j].opening.amount >= amount)
  {
    if i :| 0 <= i < |coins| && coins[i].opening.amount >= amount {
      SumOne(coins[i]);
      assert Choice(coins, [coins[i]], amount);
    } else if i, j :| 0 <= i < j < |coins| && coins[i].opening.amount + coins[j].opening.amount >= amount {
      var a, b := if coins[i].id < coins[j].id then coins[i] else coins[j], if coins[i].id < coins[j].id then coins[j] else coins[i];
      SumTwo(a, b);
      assert Choice(coins, [a, b], amount);
    }
    if choice: seq<Coin> :| Choice(coins, choice, amount) {
      var i :| 0 <= i < |coins| && coins[i] == choice[0];
      if |choice| == 1 {
        assert choice == [coins[i]];
        SumOne(coins[i]);
      } else {
        var j :| 0 <= j < |coins| && coins[j] == choice[1];
        assert choice == [coins[i], coins[j]];
        SumTwo(coins[i], coins[j]);
        var k, l := if i < j then i else j, if i < j then j else i;
        assert coins[k].opening.amount + coins[l].opening.amount >= amount;
      }
    }
  }
}

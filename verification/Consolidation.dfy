// Reward dispatch: selection, and the merging of coins when no two of them suffice
// (apps/uniswap-service/src/rewards/production.ts, apps/uniswap-service/src/rewards/consolidation.ts).
module Consolidation {
  import opened Wrappers
  import opened Sorting
  import opened Pool
  import opened Receipts
  import opened Selection
  import opened Building

  // Larger amount, then smaller id.
  predicate LargestFirst(a: Coin, b: Coin) {
    a.opening.amount > b.opening.amount || (a.opening.amount == b.opening.amount && a.id <= b.id)
  }

  function Pair(available: seq<Coin>): seq<Coin>
    requires |available| >= 2
  {
    Sort(available, LargestFirst)[..2]
  }

  function Rest(available: seq<Coin>): seq<Coin>
    requires |available| >= 2
  {
    Sort(available, LargestFirst)[2..]
  }

  function MergeAmount(available: seq<Coin>): nat
    requires |available| >= 2
  {
    if Sum(Pair(available)) > M then M else Sum(Pair(available))
  }

  // The funds a consolidation starts from: the owner's settled coins.
  ghost predicate Funds(context: Context, owner: nat, available: seq<Coin>) {
    && DistinctIds(available) && InBounds(available) && WellFormedIds(available)
    && (forall i :: 0 <= i < |available| ==> Matching(available[i], context, owner) && Settled(available[i], context))
  }

  lemma PairAndRest(available: seq<Coin>)
    requires |available| >= 2
    ensures multiset(Pair(available)) + multiset(Rest(available)) == multiset(available)
    ensures Sum(Pair(available)) + Sum(Rest(available)) == Sum(available)
    ensures DistinctIds(available) ==> DistinctIds(Pair(available))
    ensures forall coin :: coin in Pair(available) ==> coin in available
  {
    var sorted := Sort(available, LargestFirst);
    SortPermutes(available, LargestFirst);
    assert sorted == Pair(available) + Rest(available);
    SumPermute(sorted, available);
    SumConcat(Pair(available), Rest(available));
    if DistinctIds(available) { DistinctIdsPermute(available, sorted); }
    SameMultisetMembers(sorted, available);
    forall coin | coin in Pair(available) ensures coin in available { assert coin in sorted; }
  }

  lemma {:induction false} SumConcat(xs: seq<Coin>, ys: seq<Coin>)
    ensures Sum(xs + ys) == Sum(xs) + Sum(ys)
  {
    if ys == [] {
      assert xs + ys == xs;
    } else {
      SumConcat(xs, ys[..|ys| - 1]);
      assert (xs + ys)[..|xs + ys| - 1] == xs + ys[..|ys| - 1];
    }
  }

  lemma PairSum(available: seq<Coin>)
    requires |available| >= 2
    ensures Sum(Pair(available)) == Pair(available)[0].opening.amount + Pair(available)[1].opening.amount
  {
    assert Pair(available) == [Pair(available)[0], Pair(available)[1]];
    SumTwo(Pair(available)[0], Pair(available)[1]);
  }

  // The pair is never outdone: no two coins are worth more.
  lemma PairIsLargest(available: seq<Coin>, i: nat, j: nat)
    requires i < j < |available|
    ensures available[i].opening.amount + available[j].opening.amount <= Sum(Pair(available))
  {
    var sorted := Sort(available, LargestFirst);
    LargestFirstTotal();
    SortSorted(available, LargestFirst);
    SortPermutes(available, LargestFirst);
    PairSum(available);
    var k, l := TwoPlaces(available, sorted, i, j);
    assert sorted[0] == sorted[k] || LargestFirst(sorted[0], sorted[k]);
    assert sorted[0] == sorted[l] || LargestFirst(sorted[0], sorted[l]);
    if k < l {
      assert sorted[1] == sorted[l] || LargestFirst(sorted[1], sorted[l]);
    } else {
      assert sorted[1] == sorted[k] || LargestFirst(sorted[1], sorted[k]);
    }
  }

  lemma LargestFirstTotal()
    ensures TotalPreorder(LargestFirst)
  {
  }

  lemma RemoveAt(xs: seq<Coin>, i: nat)
    requires i < |xs|
    ensures multiset(xs[..i] + xs[i + 1..]) == multiset(xs) - multiset{xs[i]}
  {
    assert xs == xs[..i] + [xs[i]] + xs[i + 1..];
  }

  // Two places of a list have two different places in any rearrangement of it.
  lemma TwoPlaces(xs: seq<Coin>, ys: seq<Coin>, i: nat, j: nat) returns (k: nat, l: nat)
    requires i < j < |xs| && multiset(xs) == multiset(ys)
    ensures k < |ys| && l < |ys| && k != l && ys[k] == xs[i] && ys[l] == xs[j]
  {
    assert xs[i] in multiset(ys);
    k :| 0 <= k < |ys| && ys[k] == xs[i];
    RemoveAt(xs, i);
    RemoveAt(ys, k);
    assert (xs[..i] + xs[i + 1..])[j - 1] == xs[j];
    l := PlaceIn(multiset(xs[..i] + xs[i + 1..]), ys, k, xs[j]);
  }

  lemma PlaceIn(others: multiset<Coin>, ys: seq<Coin>, k: nat, coin: Coin) returns (l: nat)
    requires k < |ys| && others == multiset(ys[..k] + ys[k + 1..]) && coin in others
    ensures l < |ys| && l != k && ys[l] == coin
  {
    var rest := ys[..k] + ys[k + 1..];
    var m :| 0 <= m < |rest| && rest[m] == coin;
    l := if m < k then m else m + 1;
  }

  // ----- A merge always builds -----

  // The two named coins are all the candidates, so they are what is selected, and the amount
  // leaves at most M.
  lemma MergeSelects(context: Context, owner: nat, available: seq<Coin>, r: Result<seq<Coin>, SelectionError>)
    requires Funds(context, owner, available) && |available| >= 2
    requires SelectionResult(context, Pair(available), 1, owner, MergeAmount(available), Some(InputIds(Pair(available))), r)
    ensures r.Ok? && Sum(r.value) == Sum(Pair(available))
  {
    var pair, ids := Pair(available), InputIds(Pair(available));
    PairInOrder(context, owner, available);
    forall i | 0 <= i < |ids| ensures HasId(pair, ids[i]) { assert pair[i] in pair; }
    assert SelectsExplicitly(pair, context, owner, MergeAmount(available), ids, r);
    var chosen: seq<Coin> :| Named(pair, chosen, ids) && r == ExplicitResult(chosen, context, owner, MergeAmount(available));
    NamedPair(pair, chosen, ids);
    PairSum(available);
  }

  lemma PairInOrder(context: Context, owner: nat, available: seq<Coin>)
    requires Funds(context, owner, available) && |available| >= 2
    ensures Funds(context, owner, Pair(available)) && ExplicitOk(InputIds(Pair(available)))
    ensures ValidAmount(1, MergeAmount(available)) && Sum(Pair(available)) <= 2 * M
    ensures forall coin :: coin in Pair(available) ==> Matching(coin, context, owner) && Settled(coin, context)
  {
    var pair := Pair(available);
    PairAndRest(available);
    PairSum(available);
    forall i | 0 <= i < |pair| ensures pair[i] in available { assert pair[i] in pair; }
  }

  lemma NamedPair(pair: seq<Coin>, chosen: seq<Coin>, ids: seq<nat>)
    requires |pair| == 2 && DistinctIds(pair) && ids == InputIds(pair) && Named(pair, chosen, ids)
    ensures Sum(chosen) == Sum(pair) && multiset(chosen) == multiset(pair)
  {
    assert chosen[0] in chosen && chosen[1] in chosen;
    assert chosen[0].id < chosen[1].id;
    assert pair == [pair[0], pair[1]] && chosen == [chosen[0], chosen[1]];
    assert multiset(chosen) == multiset(pair);
    SumPermute(chosen, pair);
  }

  lemma PairTrue(t: Tools, available: seq<Coin>)
    requires |available| >= 2
    ensures CommitmentsTrue(t, available) ==> CommitmentsTrue(t, Pair(available))
  {
    PairAndRest(available);
    forall i | 0 <= i < |Pair(available)| ensures Pair(available)[i] in available { assert Pair(available)[i] in Pair(available); }
  }

  // The intent of a merge: the two largest coins, back to their owner.
  function MergeIntent(owner: nat, self: Recipient, available: seq<Coin>): Intent
    requires |available| >= 2
  {
    Transfer(owner, MergeAmount(available), self, Some(self), Some(InputIds(Pair(available))))
  }

  // A draft that was fixed for that intent from the pair.
  ghost predicate Built(t: Tools, context: Context, owner: nat, self: Recipient, available: seq<Coin>, f: Fixed) {
    && |available| >= 2
    && exists coins, plans ::
         && CoinsFor(MergeIntent(owner, self, available), context, Pair(available), coins)
         && FixedFor(t, context, MergeIntent(owner, self, available), coins, plans, f)
  }

  // What such a draft spends and makes: the pair; one coin of the merged amount, and change only
  // above the cap.
  ghost predicate MergeDraft(t: Tools, self: Recipient, available: seq<Coin>, f: Fixed) {
    && |available| >= 2
    && |f.request.inputIds| == 2 && (forall id :: id in f.request.inputIds <==> id in InputIds(Pair(available)))
    && |f.openings| == |f.request.outputs| == |f.outputIds| == (if Sum(Pair(available)) > M then 2 else 1)
    && f.openings[0].amount == MergeAmount(available) && Amounts(f.openings) == Sum(Pair(available))
    && (forall i :: 0 <= i < |f.openings| ==>
          && 1 <= f.openings[i].amount <= M && f.request.outputs[i].owner == self.owner
          && t.commit(f.openings[i]) == Some(f.request.outputs[i].commitment))
  }

  lemma NamedIds(pair: seq<Coin>, chosen: seq<Coin>)
    requires |pair| == 2 && DistinctIds(pair) && Named(pair, chosen, InputIds(pair))
    ensures Sum(chosen) == Sum(pair) && |InputIds(chosen)| == 2
    ensures forall id :: id in InputIds(chosen) <==> id in InputIds(pair)
  {
    NamedPair(pair, chosen, InputIds(pair));
    SameMultisetMembers(pair, chosen);
    forall id ensures id in InputIds(chosen) <==> id in InputIds(pair) {
      if id in InputIds(chosen) {
        var i :| 0 <= i < |chosen| && InputIds(chosen)[i] == id;
        assert chosen[i] in pair;
        var j :| 0 <= j < |pair| && pair[j] == chosen[i];
        assert InputIds(pair)[j] == id;
      }
      if id in InputIds(pair) {
        var i :| 0 <= i < |pair| && InputIds(pair)[i] == id;
        assert pair[i] in chosen;
        var j :| 0 <= j < |chosen| && chosen[j] == pair[i];
        assert InputIds(chosen)[j] == id;
      }
    }
  }

  lemma MergePlans(owner: nat, self: Recipient, available: seq<Coin>, coins: seq<Coin>, plans: seq<Plan>)
    requires |available| >= 2 && Sum(coins) == Sum(Pair(available))
    requires PlansOf(MergeIntent(owner, self, available), coins) == Some(plans)
    ensures |plans| == (if Sum(Pair(available)) > M then 2 else 1) && plans[0].amount == MergeAmount(available)
    ensures forall i :: 0 <= i < |plans| ==> plans[i].recipient == self
  {
  }

  lemma BuiltIsMerge(t: Tools, context: Context, owner: nat, self: Recipient, available: seq<Coin>, f: Fixed)
    requires Built(t, context, owner, self, available, f)
    ensures MergeDraft(t, self, available, f)
  {
    var intent, pair := MergeIntent(owner, self, available), Pair(available);
    var coins, plans :| CoinsFor(intent, context, pair, coins) && FixedFor(t, context, intent, coins, plans, f);
    NamedIds(pair, coins);
    MergeFixed(t, context, owner, self, available, coins, plans, f);
  }

  lemma MergeFixed(t: Tools, context: Context, owner: nat, self: Recipient, available: seq<Coin>, coins: seq<Coin>,
      plans: seq<Plan>, f: Fixed)
    requires |available| >= 2 && CoinsFor(MergeIntent(owner, self, available), context, Pair(available), coins)
    requires FixedFor(t, context, MergeIntent(owner, self, available), coins, plans, f)
    requires Sum(coins) == Sum(Pair(available)) && |InputIds(coins)| == 2
    requires forall id :: id in InputIds(coins) <==> id in InputIds(Pair(available))
    ensures MergeDraft(t, self, available, f)
  {
    MergePlans(owner, self, available, coins, plans);
    FixedConserves(t, context, MergeIntent(owner, self, available), Pair(available), coins, plans, f);
    InputAmounts(coins);
  }

  // With these in order a merge is always built.
  ghost predicate BuildReady(t: Tools, context: Context, owner: nat, self: Recipient, available: seq<Coin>, draws: Draws) {
    && |available| >= 2 && FundsReady(t, context, owner, self, available)
    && DrawsReady(draws)
  }

  ghost predicate DrawsReady(draws: Draws) {
    draws.salt.Some? && draws.salt.value < WORD_LIMIT && forall i :: draws.blindings(i) < Field.Q
  }

  ghost predicate FundsReady(t: Tools, context: Context, owner: nat, self: Recipient, available: seq<Coin>) {
    && Funds(context, owner, available) && CommitmentsTrue(t, available)
    && Encrypts(t) && Commits(t) && 0 < owner < ADDRESS_LIMIT && VerifyRecipient(context, self, owner)
  }

  lemma MergeInOrder(t: Tools, context: Context, owner: nat, self: Recipient, available: seq<Coin>, draws: Draws)
    requires BuildReady(t, context, owner, self, available, draws)
    ensures InOrder(t, context, MergeIntent(owner, self, available), Pair(available), draws)
  {
    var pair, amount := Pair(available), MergeAmount(available);
    PairInOrder(context, owner, available);
    PairTrue(t, available);
    forall s | SelectionResult(context, pair, 1, owner, amount, Some(InputIds(pair)), s) ensures s.Ok? {
      MergeSelects(context, owner, available, s);
    }
  }

  // buildConsolidationDraft up to proving; None where it throws. Both outputs return to the owner.
  method BuildConsolidation(t: Tools, context: Context, owner: nat, self: Recipient, available: seq<Coin>, draws: Draws)
      returns (r: Option<Fixed>)
    ensures r.Some? ==> Built(t, context, owner, self, available, r.value) && MergeDraft(t, self, available, r.value)
    ensures BuildReady(t, context, owner, self, available, draws) ==> r.Some?
  {
    if |available| < 2 { return None; }
    if BuildReady(t, context, owner, self, available, draws) { MergeInOrder(t, context, owner, self, available, draws); }
    var fixed, coins, plans := FixOperation(t, context, MergeIntent(owner, self, available), Pair(available), draws);
    if fixed.Err? { return None; }
    BuiltIsMerge(t, context, owner, self, available, fixed.value);
    r := Some(fixed.value);
  }

  // ----- Rounds -----

  // After a merge is final: the rest, a coin of the merged amount, and change if there is any.
  ghost predicate Merged(before: seq<Coin>, after: seq<Coin>) {
    && |before| >= 2 && DistinctIds(after) && InBounds(after)
    && exists made: seq<Coin> ::
         && multiset(after) == multiset(Rest(before)) + multiset(made)
         && made != [] && made[0].opening.amount == MergeAmount(before) && Sum(made) == Sum(Pair(before))
         && |made| == (if Sum(Pair(before)) > M then 2 else 1)
  }

  lemma MergedSum(before: seq<Coin>, after: seq<Coin>)
    requires Merged(before, after)
    ensures Sum(after) == Sum(before)
    ensures |after| == |before| - (if Sum(Pair(before)) > M then 0 else 1)
  {
    var made: seq<Coin> :|
      && multiset(after) == multiset(Rest(before)) + multiset(made)
      && made != [] && made[0].opening.amount == MergeAmount(before) && Sum(made) == Sum(Pair(before))
      && |made| == (if Sum(Pair(before)) > M then 2 else 1);
    PairAndRest(before);
    assert multiset(after) == multiset(Rest(before) + made);
    SumPermute(after, Rest(before) + made);
    SumConcat(Rest(before), made);
    assert |multiset(after)| == |after| && |multiset(Rest(before) + made)| == |Rest(before) + made|;
  }

  // Dispatch merges exactly when selection reports UNCONSTRUCTABLE on settled coins.
  ghost predicate Unpayable(coins: seq<Coin>, amount: nat) {
    !CanPay(coins, amount) && Sum(coins) >= amount
  }

  // Coins that cannot pay although they are worth enough: at least three of them, and even the two
  // largest together are worth less than the amount, so the cap at M is not taken.
  lemma UnpayableShape(coins: seq<Coin>, amount: nat)
    requires DistinctIds(coins) && InBounds(coins) && 1 <= amount <= M && Unpayable(coins, amount)
    ensures |coins| >= 3 && Sum(Pair(coins)) < amount && MergeAmount(coins) == Sum(Pair(coins))
  {
    CanPayIff(coins, amount);
    if |coins| == 0 {
    } else if |coins| == 1 {
      assert coins == [coins[0]];
      SumOne(coins[0]);
    } else {
      if |coins| == 2 {
        assert coins == [coins[0], coins[1]];
        SumTwo(coins[0], coins[1]);
      }
      PairSum(coins);
      SortPermutes(coins, LargestFirst);
      var i, j := TwoPlaces(Sort(coins, LargestFirst), coins, 0, 1);
      var k, l := if i < j then i else j, if i < j then j else i;
      assert coins[k].opening.amount + coins[l].opening.amount == Sum(Pair(coins));
    }
  }

  // The coins before each dispatch, as long as dispatch keeps merging.
  ghost predicate Rounds(trace: seq<seq<Coin>>, amount: nat) {
    && trace != [] && DistinctIds(trace[0]) && InBounds(trace[0])
    && (forall i :: 0 <= i < |trace| - 1 ==> Unpayable(trace[i], amount) && Merged(trace[i], trace[i + 1]))
  }

  lemma {:induction false} RoundsKeep(trace: seq<seq<Coin>>, amount: nat, i: nat)
    requires Rounds(trace, amount) && 1 <= amount <= M && i < |trace|
    ensures DistinctIds(trace[i]) && InBounds(trace[i])
    ensures Sum(trace[i]) == Sum(trace[0]) && |trace[i]| == |trace[0]| - i
  {
    if i > 0 {
      RoundsKeep(trace, amount, i - 1);
      UnpayableShape(trace[i - 1], amount);
      MergedSum(trace[i - 1], trace[i]);
    }
  }

  // Liveness: funds worth the amount can pay after at most n - 2 merges, whichever coins the
  // merges make; every merge keeps the total, never meets the cap, and leaves enough to go on.
  lemma ConsolidationLive(trace: seq<seq<Coin>>, amount: nat)
    requires Rounds(trace, amount) && 1 <= amount <= M && Sum(trace[0]) >= amount
    ensures |trace| - 1 <= if |trace[0]| >= 2 then |trace[0]| - 2 else 0
    ensures forall i :: 0 <= i < |trace| ==> Sum(trace[i]) == Sum(trace[0])
    ensures forall i :: 0 <= i < |trace| - 1 ==> |trace[i]| >= 3 && MergeAmount(trace[i]) == Sum(Pair(trace[i])) < amount
    ensures var last := trace[|trace| - 1];
      CanPay(last, amount) || (Unpayable(last, amount) && |last| >= 3 && |trace| - 1 < |trace[0]| - 2)
  {
    forall i | 0 <= i < |trace| ensures Sum(trace[i]) == Sum(trace[0]) {
      RoundsKeep(trace, amount, i);
    }
    forall i | 0 <= i < |trace| - 1 ensures |trace[i]| >= 3 && MergeAmount(trace[i]) == Sum(Pair(trace[i])) < amount {
      RoundsKeep(trace, amount, i);
      UnpayableShape(trace[i], amount);
    }
    var n := |trace| - 1;
    RoundsKeep(trace, amount, n);
    if !CanPay(trace[n], amount) { UnpayableShape(trace[n], amount); }
    if n > 0 { RoundsKeep(trace, amount, n - 1); }
  }

  // Settled coins of the owner: selection reports UNCONSTRUCTABLE exactly when they are unpayable.
  lemma DispatchMergesWhenUnpayable(context: Context, owner: nat, available: seq<Coin>, amount: nat, r: Result<seq<Coin>, SelectionError>)
    requires Funds(context, owner, available) && 1 <= amount <= M
    requires SelectionResult(context, available, 1, owner, amount, None, r)
    ensures r == Err(Unconstructable) <==> Unpayable(available, amount)
    ensures r.Ok? <==> CanPay(available, amount)
  {
    AllKept(available, coin => Matching(coin, context, owner) && Settled(coin, context));
    AllKept(available, coin => Matching(coin, context, owner) && coin.status != Spent);
  }

  lemma {:induction false} AllKept(coins: seq<Coin>, keep: Coin -> bool)
    requires forall i :: 0 <= i < |coins| ==> keep(coins[i])
    ensures Filter(coins, keep) == coins
  {
    if coins != [] {
      AllKept(coins[..|coins| - 1], keep);
    }
  }

  // ----- The coins a merge makes -----

  // The draft's outputs as synchronization lists them once the operation is final at `point`.
  function MadeCoins(context: Context, f: Fixed, point: Checkpoint): seq<Coin>
    requires |f.openings| == |f.request.outputs| == |f.outputIds|
  {
    seq(|f.openings|, i requires 0 <= i < |f.openings| =>
      Coin(f.outputIds[i], f.request.outputs[i].owner, f.openings[i], f.request.outputs[i].commitment, point, Available,
           context.chainId, context.pool))
  }

  // The available funds then: the coins that were not merged, and those.
  function AfterMerge(context: Context, available: seq<Coin>, f: Fixed, point: Checkpoint): seq<Coin>
    requires |available| >= 2 && |f.openings| == |f.request.outputs| == |f.outputIds|
  {
    Rest(available) + MadeCoins(context, f, point)
  }

  lemma {:induction false} SumIsAmounts(coins: seq<Coin>, openings: seq<Opening>)
    requires |coins| == |openings| && forall i :: 0 <= i < |coins| ==> coins[i].opening == openings[i]
    ensures Sum(coins) == Amounts(openings)
  {
    if coins != [] { SumIsAmounts(coins[..|coins| - 1], openings[..|coins| - 1]); }
  }

  lemma RestMembers(available: seq<Coin>)
    requires |available| >= 2
    ensures forall coin :: coin in Rest(available) ==> coin in available
  {
    SortMembers(available, LargestFirst);
    forall coin | coin in Rest(available) ensures coin in available { assert coin in Sort(available, LargestFirst); }
  }

  // What a built draft leaves behind is exactly a merge.
  lemma BuiltMerges(t: Tools, context: Context, self: Recipient, available: seq<Coin>, f: Fixed, point: Checkpoint)
    requires MergeDraft(t, self, available, f) && InBounds(available)
    requires DistinctIds(AfterMerge(context, available, f, point))
    ensures Merged(available, AfterMerge(context, available, f, point))
  {
    var made, rest, after := MadeCoins(context, f, point), Rest(available), AfterMerge(context, available, f, point);
    SumIsAmounts(made, f.openings);
    RestMembers(available);
    forall i | 0 <= i < |after| ensures 1 <= after[i].opening.amount <= M {
      if i < |rest| { assert after[i] in available; }
    }
    assert multiset(after) == multiset(rest) + multiset(made);
  }

  ghost predicate PointReady(context: Context, point: Checkpoint) {
    point.mode == context.finalityMode && point.number >= context.deploymentBlock
  }

  // The coins made are the owner's and settled, and their commitments are true, so with new
  // well-formed ids the funds are as before.
  lemma BuiltKeepsFunds(t: Tools, context: Context, owner: nat, self: Recipient, available: seq<Coin>, f: Fixed, point: Checkpoint)
    requires FundsReady(t, context, owner, self, available) && MergeDraft(t, self, available, f) && PointReady(context, point)
    requires DistinctIds(AfterMerge(context, available, f, point)) && WellFormedIds(AfterMerge(context, available, f, point))
    ensures FundsReady(t, context, owner, self, AfterMerge(context, available, f, point))
  {
    var rest, after := Rest(available), AfterMerge(context, available, f, point);
    BuiltMerges(t, context, self, available, f, point);
    RestMembers(available);
    forall i | 0 <= i < |after|
      ensures Matching(after[i], context, owner) && Settled(after[i], context)
      ensures t.commit(after[i].opening) == Some(after[i].commitment)
    {
      if i < |rest| { assert after[i] in available; }
    }
  }

  // ----- Dispatch -----

  datatype Dispatched = Paying(inputs: seq<Coin>) | Merging(draft: Fixed) | Refused(error: Option<SelectionError>)

  ghost predicate DispatchedFor(t: Tools, context: Context, owner: nat, self: Recipient, available: seq<Coin>, amount: int, d: Dispatched) {
    match d
    case Paying(inputs) => SelectionResult(context, available, 1, owner, amount, None, Ok(inputs))
    case Merging(draft) =>
      && SelectionResult(context, available, 1, owner, amount, None, Err(Unconstructable))
      && Built(t, context, owner, self, available, draft) && MergeDraft(t, self, available, draft)
    case Refused(Some(error)) => error != Unconstructable && SelectionResult(context, available, 1, owner, amount, None, Err(error))
    case Refused(None) => SelectionResult(context, available, 1, owner, amount, None, Err(Unconstructable))
  }

  // One dispatch on complete funds: pay if selection succeeds, merge if it is UNCONSTRUCTABLE. On
  // funds in order worth the amount it always does one of the two.
  method Dispatch(t: Tools, context: Context, owner: nat, self: Recipient, available: seq<Coin>, amount: int, draws: Draws)
      returns (d: Dispatched)
    ensures DispatchedFor(t, context, owner, self, available, amount, d)
    ensures FundsReady(t, context, owner, self, available) && DrawsReady(draws) && 1 <= amount <= M && Sum(available) >= amount ==>
      !d.Refused? && (d.Paying? <==> CanPay(available, amount))
  {
    var selection := SelectInputs(context, available, 1, owner, amount, None);
    ghost var ready := FundsReady(t, context, owner, self, available) && 1 <= amount <= M && Sum(available) >= amount;
    if ready {
      DispatchMergesWhenUnpayable(context, owner, available, amount, selection);
      if Unpayable(available, amount) { UnpayableShape(available, amount); }
    }
    if selection.Ok? { return Paying(selection.value); }
    if selection.error != Unconstructable { return Refused(Some(selection.error)); }
    var draft := BuildConsolidation(t, context, owner, self, available, draws);
    d := if draft.None? then Refused(None) else Merging(draft.value);
  }

  // A dispatch that merges, and the funds once its draft is final, under new well-formed ids.
  ghost predicate MergeStep(t: Tools, context: Context, owner: nat, self: Recipient, amount: nat,
      before: seq<Coin>, draft: Fixed, point: Checkpoint, after: seq<Coin>)
  {
    && DispatchedFor(t, context, owner, self, before, amount, Merging(draft)) && PointReady(context, point)
    && after == AfterMerge(context, before, draft, point)
    && DistinctIds(after) && WellFormedIds(after)
  }

  // The funds before each dispatch of one reward, where every one but the last merged.
  ghost predicate RewardRounds(t: Tools, context: Context, owner: nat, self: Recipient, amount: nat,
      trace: seq<seq<Coin>>, drafts: seq<Fixed>, points: seq<Checkpoint>)
  {
    && |trace| == |drafts| + 1 == |points| + 1 && FundsReady(t, context, owner, self, trace[0])
    && (forall i :: 0 <= i < |drafts| ==> MergeStep(t, context, owner, self, amount, trace[i], drafts[i], points[i], trace[i + 1]))
  }

  lemma {:induction false} RewardFunds(t: Tools, context: Context, owner: nat, self: Recipient, amount: nat,
      trace: seq<seq<Coin>>, drafts: seq<Fixed>, points: seq<Checkpoint>, i: nat)
    requires RewardRounds(t, context, owner, self, amount, trace, drafts, points) && i < |trace|
    ensures FundsReady(t, context, owner, self, trace[i])
  {
    if i > 0 {
      RewardFunds(t, context, owner, self, amount, trace, drafts, points, i - 1);
      assert MergeStep(t, context, owner, self, amount, trace[i - 1], drafts[i - 1], points[i - 1], trace[i]);
      BuiltKeepsFunds(t, context, owner, self, trace[i - 1], drafts[i - 1], points[i - 1]);
    }
  }

  // Dispatches that merge are rounds in the sense above.
  lemma RewardRoundsAreRounds(t: Tools, context: Context, owner: nat, self: Recipient, amount: nat,
      trace: seq<seq<Coin>>, drafts: seq<Fixed>, points: seq<Checkpoint>)
    requires RewardRounds(t, context, owner, self, amount, trace, drafts, points) && 1 <= amount <= M
    ensures Rounds(trace, amount)
  {
    forall i | 0 <= i < |trace| - 1 ensures Unpayable(trace[i], amount) && Merged(trace[i], trace[i + 1]) {
      RewardFunds(t, context, owner, self, amount, trace, drafts, points, i);
      assert MergeStep(t, context, owner, self, amount, trace[i], drafts[i], points[i], trace[i + 1]);
      DispatchMergesWhenUnpayable(context, owner, trace[i], amount, Err(Unconstructable));
      BuiltMerges(t, context, self, trace[i], drafts[i], points[i]);
    }
  }

  // Liveness of the program: along its own rounds the funds stay in order, so every merge can be
  // built; and after n - 2 merges at the latest selection succeeds.
  lemma RewardsLive(t: Tools, context: Context, owner: nat, self: Recipient, amount: nat,
      trace: seq<seq<Coin>>, drafts: seq<Fixed>, points: seq<Checkpoint>)
    requires RewardRounds(t, context, owner, self, amount, trace, drafts, points)
    requires 1 <= amount <= M && Sum(trace[0]) >= amount
    ensures |drafts| <= if |trace[0]| >= 2 then |trace[0]| - 2 else 0
    ensures forall i :: 0 <= i < |trace| ==> FundsReady(t, context, owner, self, trace[i]) && Sum(trace[i]) == Sum(trace[0])
    ensures forall r :: SelectionResult(context, trace[|drafts|], 1, owner, amount, None, r) ==>
      r.Ok? || (r == Err(Unconstructable) && |drafts| < |trace[0]| - 2 && |trace[|drafts|]| >= 3)
  {
    RewardRoundsAreRounds(t, context, owner, self, amount, trace, drafts, points);
    ConsolidationLive(trace, amount);
    forall i | 0 <= i < |trace| ensures FundsReady(t, context, owner, self, trace[i]) {
      RewardFunds(t, context, owner, self, amount, trace, drafts, points, i);
    }
    forall r | SelectionResult(context, trace[|drafts|], 1, owner, amount, None, r)
      ensures r.Ok? || (r == Err(Unconstructable) && |drafts| < |trace[0]| - 2 && |trace[|drafts|]| >= 3)
    {
      DispatchMergesWhenUnpayable(context, owner, trace[|drafts|], amount, r);
    }
  }
}

// What a completed synchronization means: its result does not depend on the order in which the
// adapter lists the operations, its coins are the owner's unspent outputs, and a wallet that can
// open everything holds exactly what was deposited less what was withdrawn.
module SyncLaws {
  import opened Counting
  import opened Sorting
  import opened Pool
  import opened OperationOrder
  import opened Ledger
  import opened LedgerLaws
  import opened LedgerValue
  import opened Receipts
  import opened Synchronizer

  lemma AcceptedSucceeded(s: Setting, xs: seq<Observed>)
    requires Accepts(s, Sort(xs, OperationBefore))
    ensures AllSucceeded(xs)
  {
    SortMembers(xs, OperationBefore);
    forall i | 0 <= i < |xs| ensures xs[i].success.Some? {
      assert xs[i] in Sort(xs, OperationBefore);
      AcceptedMember(s, Sort(xs, OperationBefore), xs[i]);
    }
  }

  // What the replay accepts is in chain order.
  lemma AcceptedSorted(s: Setting, xs: seq<Observed>)
    requires Accepts(s, Sort(xs, OperationBefore))
    ensures SortedBy(Sort(xs, OperationBefore), OperationBefore)
  {
    AcceptedSucceeded(s, xs);
    SortSame(xs);
    TotalBeforeIsPreorder();
    SortSorted(xs, TotalBefore);
    var sorted := Sort(xs, OperationBefore);
    forall i, j | 0 <= i < j < |sorted| ensures OperationBefore(sorted[i], sorted[j]) {
      assert TotalBefore(sorted[i], sorted[j]);
    }
  }

  lemma SuccessLast(op: Observed)
    requires op.success.Some?
    ensures LogsOf(op)[|LogsOf(op)| - 1] == op.success.value && op.success.value in LogsOf(op)
  {
  }

  // No two accepted operations stand at the same place of the chain.
  lemma AcceptedStrict(s: Setting, ops: seq<Observed>)
    requires Accepts(s, ops)
    ensures Strict(ops, TotalBefore)
  {
    forall i, j | 0 <= i < |ops| && 0 <= j < |ops| && TotalBefore(ops[i], ops[j]) && TotalBefore(ops[j], ops[i])
      ensures i == j
    {
      if i < j { PlacesDiffer(s, ops, i, j); }
      if j < i { PlacesDiffer(s, ops, j, i); }
    }
  }

  lemma PlacesDiffer(s: Setting, ops: seq<Observed>, i: nat, j: nat)
    requires Accepts(s, ops) && i < j < |ops|
    ensures ops[i].success.Some? && ops[j].success.Some? && PlaceOf(ops[i].success.value) != PlaceOf(ops[j].success.value)
  {
    AcceptedAt(s, ops, i);
    AcceptedAt(s, ops, j);
    SuccessLast(ops[i]);
    SuccessLast(ops[j]);
    assert ops[..j][i] == ops[i];
    assert ops[i] in ops[..j];
    assert LogsNew(ops[..j], ops[j]);
    assert !HasLogAt(ops[i], PlaceOf(LogsOf(ops[j])[|LogsOf(ops[j])| - 1]));
  }

  // An accepted list of operations has one chain order, whatever order it arrived in.
  lemma SortAnyOrder(s: Setting, xs: seq<Observed>, ys: seq<Observed>)
    requires multiset(xs) == multiset(ys) && Accepts(s, Sort(xs, OperationBefore))
    ensures Sort(ys, OperationBefore) == Sort(xs, OperationBefore)
  {
    AcceptedSucceeded(s, xs);
    forall i | 0 <= i < |ys| ensures ys[i].success.Some? {
      assert ys[i] in multiset(xs);
    }
    SortSame(xs);
    SortSame(ys);
    TotalBeforeIsPreorder();
    AcceptedStrict(s, Sort(xs, OperationBefore));
    SortOrderIndependent(xs, ys, TotalBefore);
  }

  // The same answers, with the operations listed in another order.
  ghost predicate Reordered(context: Context, a: Ports, b: Ports) {
    && b == a.(operations := b.operations)
    && Ready(context, a)
    && AnsweredOperations(context, a).Complete? && AnsweredOperations(context, b).Complete?
    && AnsweredOperations(context, a).blockHash == AnsweredOperations(context, b).blockHash
    && multiset(AnsweredOperations(context, a).value) == multiset(AnsweredOperations(context, b).value)
  }

  // Order independence: a synchronization completes for one listing of the operations exactly
  // when it completes for every other, with the same coins, failures and total.
  lemma OrderIndependence(crypto: Crypto, context: Context, a: Ports, b: Ports)
    requires Reordered(context, a, b)
    ensures Completes(crypto, context, a) <==> Completes(crypto, context, b)
    ensures Completes(crypto, context, a) ==> Snapshot(crypto, context, a) == Snapshot(crypto, context, b)
  {
    var xs, ys := AnsweredOperations(context, a).value, AnsweredOperations(context, b).value;
    var s := SettingOf(crypto, context, a);
    if Accepts(s, Sort(xs, OperationBefore)) { SortAnyOrder(s, xs, ys); }
    if Accepts(s, Sort(ys, OperationBefore)) { SortAnyOrder(s, ys, xs); }
    assert SettingOf(crypto, context, b) == s;
  }

  // ----- The coins of a snapshot -----

  lemma {:induction false} CoinsMembers(s: Setting, created: map<nat, Entry>, owners: set<nat>, keys: KeyPort, ids: seq<nat>, coin: Coin)
    requires Listed(created, ids)
    ensures coin in Coins(s, created, owners, keys, ids) <==>
      exists i :: 0 <= i < |ids| && CoinPart(s, owners, keys, ids[i], created[ids[i]]) == [coin]
  {
    if ids != [] {
      var n := |ids| - 1;
      CoinsMembers(s, created, owners, keys, ids[..n], coin);
      if i :| 0 <= i < n && CoinPart(s, owners, keys, ids[..n][i], created[ids[..n][i]]) == [coin] {
        assert ids[i] == ids[..n][i];
      }
      if i :| 0 <= i < |ids| && CoinPart(s, owners, keys, ids[i], created[ids[i]]) == [coin] {
        if i < n { assert ids[..n][i] == ids[i]; }
      }
    }
  }

  // The available coins of a snapshot are exactly the unspent outputs of the ledger fold that
  // belong to one of the owners and open under one of their keys.
  lemma AvailableCoinsAreUnspent(s: Setting, ops: seq<Observed>, ports: Ports, id: nat)
    requires Confirmed(s, ops, ports)
    ensures (exists coin :: coin in CoinsOf(s, ops, ports) && coin.id == id && coin.status == Available) <==>
      && id in Unspent(s, ops) && id in Created(s, ops)
      && Created(s, ops)[id].index < |Created(s, ops)[id].observed.request.outputs|
      && OutputOf(Created(s, ops)[id]).owner in ports.owners
      && OpeningOf(s, ports.keys, Created(s, ops)[id]).Some?
  {
    var created, order := Created(s, ops), CreationOrder(s, ops);
    AcceptedLedger(s, ops);
    EntriesRefineFold(s, ops, id);
    OrderMembers(s, ops, id);
    if coin :| coin in CoinsOf(s, ops, ports) && coin.id == id && coin.status == Available {
      CoinsMembers(s, created, ports.owners, ports.keys, order, coin);
    }
    if && id in Unspent(s, ops) && id in created && created[id].index < |created[id].observed.request.outputs|
       && OutputOf(created[id]).owner in ports.owners && OpeningOf(s, ports.keys, created[id]).Some?
    {
      var coin := CoinOf(s, ports.keys, id, created[id]);
      var i :| 0 <= i < |order| && order[i] == id;
      assert CoinPart(s, ports.owners, ports.keys, order[i], created[order[i]]) == [coin];
      CoinsMembers(s, created, ports.owners, ports.keys, order, coin);
      assert coin.id == id && coin.status == Available;
    }
  }

  // ----- Conservation, seen from the wallet -----

  function UnspentAmong(created: map<nat, Entry>, ids: seq<nat>): set<nat> {
    set id | id in ids && id in created && created[id].consumedBy.None?
  }

  // Every output is owned and opens to its amount.
  ghost predicate OpensAll(s: Setting, created: map<nat, Entry>, ports: Ports, ids: seq<nat>, amount: nat -> int)
    requires Listed(created, ids)
  {
    forall i :: 0 <= i < |ids| ==>
      && OutputOf(created[ids[i]]).owner in ports.owners
      && OpeningOf(s, ports.keys, created[ids[i]]).Some?
      && OpeningOf(s, ports.keys, created[ids[i]]).value.amount == amount(ids[i])
  }

  lemma AvailableAppend(coins: seq<Coin>, part: seq<Coin>)
    requires |part| == 1
    ensures AvailableWei(coins + part) == AvailableWei(coins) + if part[0].status == Available then part[0].opening.amount else 0
  {
    assert (coins + part)[..|coins|] == coins;
  }

  lemma OpensPrefix(s: Setting, created: map<nat, Entry>, ports: Ports, ids: seq<nat>, n: nat, amount: nat -> int)
    requires n <= |ids| && Listed(created, ids) && Distinct(ids) && OpensAll(s, created, ports, ids, amount)
    ensures Listed(created, ids[..n]) && Distinct(ids[..n]) && OpensAll(s, created, ports, ids[..n], amount)
  {
    var rest := ids[..n];
    forall i, j | 0 <= i < j < |rest| ensures rest[i] != rest[j] { assert rest[i] == ids[i] && rest[j] == ids[j]; }
    forall i | 0 <= i < |rest|
      ensures OutputOf(created[rest[i]]).owner in ports.owners
      ensures OpeningOf(s, ports.keys, created[rest[i]]).Some?
      ensures OpeningOf(s, ports.keys, created[rest[i]]).value.amount == amount(rest[i])
    {
      assert rest[i] == ids[i];
    }
  }

  // The last listed entry adds its amount to the unspent total exactly when it is not consumed.
  lemma UnspentSumNext(created: map<nat, Entry>, ids: seq<nat>, amount: nat -> int)
    requires Listed(created, ids) && Distinct(ids) && ids != []
    ensures var n := |ids| - 1;
      SumSet(UnspentAmong(created, ids), amount)
        == SumSet(UnspentAmong(created, ids[..n]), amount) + if created[ids[n]].consumedBy.None? then amount(ids[n]) else 0
  {
    var n := |ids| - 1;
    var id, rest := ids[n], ids[..n];
    assert id !in rest by {
      forall i | 0 <= i < |rest| ensures rest[i] != id { assert rest[i] == ids[i]; }
    }
    assert ids == rest + [id];
    if created[id].consumedBy.None? {
      assert UnspentAmong(created, ids) - {id} == UnspentAmong(created, rest);
      SumSetAny(UnspentAmong(created, ids), amount, id);
    } else {
      assert UnspentAmong(created, ids) == UnspentAmong(created, rest);
    }
  }

  lemma {:induction false} AvailableIsSum(s: Setting, created: map<nat, Entry>, ports: Ports, ids: seq<nat>, amount: nat -> int)
    requires Listed(created, ids) && Distinct(ids) && OpensAll(s, created, ports, ids, amount)
    ensures AvailableWei(Coins(s, created, ports.owners, ports.keys, ids)) == SumSet(UnspentAmong(created, ids), amount)
  {
    if ids != [] {
      var n := |ids| - 1;
      var id, e, rest := ids[n], created[ids[n]], ids[..n];
      OpensPrefix(s, created, ports, ids, n, amount);
      AvailableIsSum(s, created, ports, rest, amount);
      AvailableAppend(Coins(s, created, ports.owners, ports.keys, rest), CoinPart(s, ports.owners, ports.keys, id, e));
      UnspentSumNext(created, ids, amount);
    }
  }

  // The listed entries without a consumer are the unspent set of the fold.
  lemma UnspentListed(s: Setting, ops: seq<Observed>)
    requires LedgerOk(s, ops) && forall id :: id in CreationOrder(s, ops) <==> id in Created(s, ops)
    ensures UnspentAmong(Created(s, ops), CreationOrder(s, ops)) == Unspent(s, ops)
  {
    forall id ensures id in UnspentAmong(Created(s, ops), CreationOrder(s, ops)) <==> id in Unspent(s, ops) {
      EntriesRefineFold(s, ops, id);
    }
  }

  lemma InputsAscend(s: Setting, ops: seq<Observed>)
    requires Accepts(s, ops)
    ensures forall k :: 0 <= k < |ops| ==> Ascending(ops[k].request.inputIds)
  {
    forall k | 0 <= k < |ops| ensures Ascending(ops[k].request.inputIds) {
      AcceptedMember(s, ops, ops[k]);
    }
  }

  // A wallet that owns and opens every output, in a history whose operations balance, has
  // available exactly what the pool holds: all deposits less all withdrawals.
  lemma AvailableIsSupply(s: Setting, ops: seq<Observed>, ports: Ports, amount: nat -> int)
    requires Confirmed(s, ops, ports)
    requires OpensAll(s, Created(s, ops), ports, CreationOrder(s, ops), amount)
    requires forall k :: 0 <= k < |ops| ==> Balanced(s, ops[k], amount)
    ensures AvailableWei(CoinsOf(s, ops, ports)) == Deposited(ops) - Withdrawn(ops)
  {
    AcceptedLedger(s, ops);
    OrderListed(s, ops);
    InputsAscend(s, ops);
    Conservation(s, ops, amount);
    AvailableIsSum(s, Created(s, ops), ports, CreationOrder(s, ops), amount);
    UnspentListed(s, ops);
  }
}

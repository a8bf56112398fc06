// What a snapshot holds, coin by coin and failure by failure, and what a failed synchronization
// keeps of the one before.
module SnapshotLaws {
  import opened Wrappers
  import opened Counting
  import opened Pool
  import opened Ledger
  import opened Receipts
  import opened Replay
  import opened Synchronizer
  import opened SyncLaws

  // The entry is an output of one of the owners.
  predicate Owned(owners: set<nat>, e: Entry) {
    e.index < |e.observed.request.outputs| && OutputOf(e).owner in owners
  }

  // The keys the wallet has retained for the owner of an output.
  function KeysFor(keys: KeyPort, e: Entry): seq<nat>
    requires e.index < |e.observed.request.outputs|
  {
    keys.keysOf(OutputOf(e).owner).GetOr([])
  }

  predicate SomeKeyOpens(s: Setting, keys: KeyPort, e: Entry)
    requires e.index < |e.observed.request.outputs|
  {
    exists k :: k in KeysFor(keys, e) && keys.open(k, s.context, e.observed.request, e.index).Some?
  }

  lemma OpensIff(s: Setting, keys: KeyPort, e: Entry)
    requires e.index < |e.observed.request.outputs|
    ensures OpeningOf(s, keys, e).Some? <==> SomeKeyOpens(s, keys, e)
    ensures OpeningOf(s, keys, e).Some? ==> exists k ::
      && FirstOpens(keys, KeysFor(keys, e), k, s.context, e.observed.request, e.index)
      && OpeningOf(s, keys, e) == keys.open(KeysFor(keys, e)[k], s.context, e.observed.request, e.index)
  {
    OpenWithFirst(keys, KeysFor(keys, e), s.context, e.observed.request, e.index);
  }

  // The coin an entry becomes: its output, the opening of the first key that opens it, and spent
  // exactly when the history spends it.
  ghost predicate CoinFor(s: Setting, keys: KeyPort, id: nat, e: Entry, coin: Coin)
    requires e.index < |e.observed.request.outputs|
  {
    && coin.id == id && coin.owner == OutputOf(e).owner && coin.commitment == OutputOf(e).commitment
    && coin.checkpoint == s.point && coin.chainId == s.context.chainId && coin.pool == s.context.pool
    && coin.status == (if e.consumedBy.Some? then Spent else Available)
    && exists k ::
      && FirstOpens(keys, KeysFor(keys, e), k, s.context, e.observed.request, e.index)
      && keys.open(KeysFor(keys, e)[k], s.context, e.observed.request, e.index) == Some(coin.opening)
  }

  // What one listed entry adds to the coins, if anything.
  lemma PartCoin(s: Setting, owners: set<nat>, keys: KeyPort, id: nat, e: Entry, coin: Coin)
    requires e.index < |e.observed.request.outputs|
    ensures CoinPart(s, owners, keys, id, e) == [coin] ==> Owned(owners, e) && SomeKeyOpens(s, keys, e) && CoinFor(s, keys, id, e, coin)
  {
    OpensIff(s, keys, e);
  }

  lemma OpenedHasPart(s: Setting, owners: set<nat>, keys: KeyPort, id: nat, e: Entry)
    requires Owned(owners, e) && SomeKeyOpens(s, keys, e)
    ensures exists coin :: CoinPart(s, owners, keys, id, e) == [coin] && coin.id == id
  {
    OpensIff(s, keys, e);
    assert CoinPart(s, owners, keys, id, e) == [CoinOf(s, keys, id, e)];
  }

  lemma CoinsAre(s: Setting, created: map<nat, Entry>, owners: set<nat>, keys: KeyPort, ids: seq<nat>, coin: Coin)
    requires Listed(created, ids) && coin in Coins(s, created, owners, keys, ids)
    ensures coin.id in created && Owned(owners, created[coin.id]) && SomeKeyOpens(s, keys, created[coin.id])
    ensures CoinFor(s, keys, coin.id, created[coin.id], coin)
  {
    CoinsMembers(s, created, owners, keys, ids, coin);
    var i :| 0 <= i < |ids| && CoinPart(s, owners, keys, ids[i], created[ids[i]]) == [coin];
    PartCoin(s, owners, keys, ids[i], created[ids[i]], coin);
  }

  lemma OpenedAreCoins(s: Setting, created: map<nat, Entry>, owners: set<nat>, keys: KeyPort, ids: seq<nat>, id: nat)
    requires Listed(created, ids) && id in ids && id in created && Owned(owners, created[id]) && SomeKeyOpens(s, keys, created[id])
    ensures exists coin :: coin in Coins(s, created, owners, keys, ids) && coin.id == id
  {
    OpenedHasPart(s, owners, keys, id, created[id]);
    var coin :| CoinPart(s, owners, keys, id, created[id]) == [coin] && coin.id == id;
    var i :| 0 <= i < |ids| && ids[i] == id;
    assert CoinPart(s, owners, keys, ids[i], created[ids[i]]) == [coin];
    CoinsMembers(s, created, owners, keys, ids, coin);
  }

  // The coins of a snapshot are exactly those of the owned outputs that some retained key opens.
  lemma SnapshotCoins(s: Setting, ops: seq<Observed>, ports: Ports, id: nat)
    requires Confirmed(s, ops, ports)
    ensures (exists coin :: coin in CoinsOf(s, ops, ports) && coin.id == id) <==>
      && id in Created(s, ops) && Owned(ports.owners, Created(s, ops)[id]) && SomeKeyOpens(s, ports.keys, Created(s, ops)[id])
    ensures forall coin :: coin in CoinsOf(s, ops, ports) && coin.id == id ==>
      && id in Created(s, ops) && Owned(ports.owners, Created(s, ops)[id])
      && CoinFor(s, ports.keys, id, Created(s, ops)[id], coin)
  {
    var created, order := Created(s, ops), CreationOrder(s, ops);
    OrderListed(s, ops);
    forall coin | coin in CoinsOf(s, ops, ports) && coin.id == id
      ensures id in created && Owned(ports.owners, created[id]) && CoinFor(s, ports.keys, id, created[id], coin)
        && SomeKeyOpens(s, ports.keys, created[id])
    {
      CoinsAre(s, created, ports.owners, ports.keys, order, coin);
    }
    if id in created && Owned(ports.owners, created[id]) && SomeKeyOpens(s, ports.keys, created[id]) {
      OpenedAreCoins(s, created, ports.owners, ports.keys, order, id);
    }
  }

  // No two coins are of one output.
  ghost predicate CoinsApart(coins: seq<Coin>) {
    forall i, j :: 0 <= i < j < |coins| ==> coins[i].id != coins[j].id
  }

  lemma ApartMore(coins: seq<Coin>, part: seq<Coin>, id: nat)
    requires CoinsApart(coins) && |part| <= 1 && (part != [] ==> part[0].id == id)
    requires forall coin :: coin in coins ==> coin.id != id
    ensures CoinsApart(coins + part)
  {
  }

  lemma {:induction false} CoinsListed(s: Setting, created: map<nat, Entry>, owners: set<nat>, keys: KeyPort, ids: seq<nat>)
    requires Listed(created, ids)
    ensures forall coin :: coin in Coins(s, created, owners, keys, ids) ==> coin.id in ids
  {
    if ids != [] {
      var n := |ids| - 1;
      CoinsListed(s, created, owners, keys, ids[..n]);
      assert forall id :: id in ids[..n] ==> id in ids;
    }
  }

  lemma {:induction false} CoinsDiffer(s: Setting, created: map<nat, Entry>, owners: set<nat>, keys: KeyPort, ids: seq<nat>)
    requires Listed(created, ids) && Distinct(ids)
    ensures CoinsApart(Coins(s, created, owners, keys, ids))
  {
    if ids != [] {
      var n := |ids| - 1;
      CoinsDiffer(s, created, owners, keys, ids[..n]);
      CoinsListed(s, created, owners, keys, ids[..n]);
      assert ids[n] !in ids[..n];
      ApartMore(Coins(s, created, owners, keys, ids[..n]), CoinPart(s, owners, keys, ids[n], created[ids[n]]), ids[n]);
    }
  }

  ghost predicate ListedBefore(ids: seq<nat>, x: nat, y: nat) {
    exists a, b :: 0 <= a < b < |ids| && ids[a] == x && ids[b] == y
  }

  // The coins stand in the order in which their outputs were created.
  ghost predicate InOrderOf(coins: seq<Coin>, ids: seq<nat>) {
    forall i, j :: 0 <= i < j < |coins| ==> ListedBefore(ids, coins[i].id, coins[j].id)
  }

  lemma {:induction false} CoinsInOrder(s: Setting, created: map<nat, Entry>, owners: set<nat>, keys: KeyPort, ids: seq<nat>)
    requires Listed(created, ids)
    ensures InOrderOf(Coins(s, created, owners, keys, ids), ids)
  {
    if ids != [] {
      var n := |ids| - 1;
      var before := Coins(s, created, owners, keys, ids[..n]);
      CoinsInOrder(s, created, owners, keys, ids[..n]);
      CoinsListed(s, created, owners, keys, ids[..n]);
      OrderMore(before, CoinPart(s, owners, keys, ids[n], created[ids[n]]), ids);
    }
  }

  lemma OrderMore(coins: seq<Coin>, part: seq<Coin>, ids: seq<nat>)
    requires ids != [] && InOrderOf(coins, ids[..|ids| - 1]) && (forall coin :: coin in coins ==> coin.id in ids[..|ids| - 1])
    requires |part| <= 1 && (part != [] ==> part[0].id == ids[|ids| - 1])
    ensures InOrderOf(coins + part, ids)
  {
    var n, more := |ids| - 1, coins + part;
    forall i, j | 0 <= i < j < |more| ensures ListedBefore(ids, more[i].id, more[j].id) {
      if j < |coins| {
        assert ListedBefore(ids[..n], coins[i].id, coins[j].id);
        var a, b :| 0 <= a < b < n && ids[..n][a] == coins[i].id && ids[..n][b] == coins[j].id;
        assert ids[a] == more[i].id && ids[b] == more[j].id;
        assert ListedBefore(ids, more[i].id, more[j].id);
      } else {
        assert coins[i] in coins;
        var a :| 0 <= a < n && ids[..n][a] == coins[i].id;
        assert ids[a] == more[i].id && ids[n] == more[j].id;
      }
    }
  }

  lemma SnapshotCoinsOrdered(s: Setting, ops: seq<Observed>, ports: Ports)
    requires Confirmed(s, ops, ports)
    ensures InOrderOf(CoinsOf(s, ops, ports), CreationOrder(s, ops))
  {
    OrderListed(s, ops);
    CoinsInOrder(s, Created(s, ops), ports.owners, ports.keys, CreationOrder(s, ops));
  }

  // No output is counted twice.
  lemma SnapshotCoinsDiffer(s: Setting, ops: seq<Observed>, ports: Ports)
    requires Confirmed(s, ops, ports)
    ensures CoinsApart(CoinsOf(s, ops, ports))
  {
    OrderListed(s, ops);
    CoinsDiffer(s, Created(s, ops), ports.owners, ports.keys, CreationOrder(s, ops));
  }

  lemma {:induction false} FailuresMembers(s: Setting, created: map<nat, Entry>, owners: set<nat>, keys: KeyPort, ids: seq<nat>,
      f: (nat, ReceiptFailure))
    requires Listed(created, ids)
    ensures f in Failures(s, created, owners, keys, ids) <==>
      exists i :: 0 <= i < |ids| && FailurePart(s, owners, keys, ids[i], created[ids[i]]) == [f]
  {
    if ids != [] {
      var n := |ids| - 1;
      FailuresMembers(s, created, owners, keys, ids[..n], f);
      if i :| 0 <= i < n && FailurePart(s, owners, keys, ids[..n][i], created[ids[..n][i]]) == [f] {
        assert ids[i] == ids[..n][i];
      }
      if i :| 0 <= i < |ids| && FailurePart(s, owners, keys, ids[i], created[ids[i]]) == [f] {
        if i < n { assert ids[..n][i] == ids[i]; }
      }
    }
  }

  lemma PartFailure(s: Setting, owners: set<nat>, keys: KeyPort, id: nat, e: Entry, f: (nat, ReceiptFailure))
    requires e.index < |e.observed.request.outputs|
    ensures FailurePart(s, owners, keys, id, e) == [f] <==>
      Owned(owners, e) && !SomeKeyOpens(s, keys, e) && f == (id, ReceiptFailure(true, DecryptFailed))
  {
    OpensIff(s, keys, e);
  }

  lemma FailuresAre(s: Setting, created: map<nat, Entry>, owners: set<nat>, keys: KeyPort, ids: seq<nat>, f: (nat, ReceiptFailure))
    requires Listed(created, ids) && forall id :: id in ids <==> id in created
    ensures f in Failures(s, created, owners, keys, ids) <==>
      && f.1 == ReceiptFailure(true, DecryptFailed)
      && f.0 in created && Owned(owners, created[f.0]) && !SomeKeyOpens(s, keys, created[f.0])
  {
    FailuresMembers(s, created, owners, keys, ids, f);
    if i :| 0 <= i < |ids| && FailurePart(s, owners, keys, ids[i], created[ids[i]]) == [f] {
      PartFailure(s, owners, keys, ids[i], created[ids[i]], f);
    }
    if f.0 in created && Owned(owners, created[f.0]) && !SomeKeyOpens(s, keys, created[f.0]) && f.1 == ReceiptFailure(true, DecryptFailed) {
      var i :| 0 <= i < |ids| && ids[i] == f.0;
      PartFailure(s, owners, keys, ids[i], created[ids[i]], f);
    }
  }

  // The failures of a snapshot are exactly the owned outputs that no retained key opens.
  lemma SnapshotFailures(s: Setting, ops: seq<Observed>, ports: Ports, id: nat, f: ReceiptFailure)
    requires Confirmed(s, ops, ports)
    ensures (id, f) in FailuresOf(s, ops, ports) <==>
      && f == ReceiptFailure(true, DecryptFailed)
      && id in Created(s, ops) && Owned(ports.owners, Created(s, ops)[id]) && !SomeKeyOpens(s, ports.keys, Created(s, ops)[id])
  {
    OrderListed(s, ops);
    FailuresAre(s, Created(s, ops), ports.owners, ports.keys, CreationOrder(s, ops), (id, f));
  }

  // ----- Why a synchronization fails -----

  // An answer that cannot be used: RPC when the port threw, and an incomplete history otherwise.
  predicate AnswerFault<T>(a: Answer<T>, point: Checkpoint, fault: Fault) {
    !Bound(a, point) && fault == if a.Unavailable? then Rpc else IncompleteHistory
  }

  // The success event of an operation names it, for the first time, in a canonical block of the range.
  ghost predicate EventInOrder(s: Setting, prior: seq<Observed>, op: Observed)
    requires op.success.Some?
  {
    && IdOf(s, op) == op.success.value.operationId && IdNew(s, prior, op)
    && s.context.deploymentBlock <= op.success.value.blockNumber <= s.point.number
  }

  predicate CountsAgree(op: Observed) {
    |InputsOf(op)| == |op.request.inputIds| && |op.outputLogs| == |op.request.outputs|
  }

  // The effect of the operation on the coins, and the places of its logs.
  ghost predicate EffectInOrder(s: Setting, prior: seq<Observed>, op: Observed)
    requires op.success.Some? && CountsAgree(op)
  {
    PlacesAccepted(prior, op) && InputsAccepted(Created(s, prior), op) && OutputsAccepted(s, Created(s, prior), op)
  }

  // The fault of one operation. RPC is a request of no shape or a port that threw; the history is
  // incomplete without the success event, with the wrong number of logs, or where an answer is; and
  // everything else that is wrong is an inconsistency.
  lemma StepFaultMeans(s: Setting, prior: seq<Observed>, op: Observed)
    ensures var fault := StepFault(s, prior, Created(s, prior), op);
      var shape := ValidShape(s.crypto, op.request);
      && (!shape ==> fault == Some(Rpc))
      && (shape && op.success.None? ==> fault == Some(IncompleteHistory))
      && (shape && op.success.Some? && !EventInOrder(s, prior, op) ==> fault == Some(InconsistentHistory))
      && (shape && op.success.Some? && EventInOrder(s, prior, op) ==>
            var event := op.success.value;
            var header := s.history.header(event.blockNumber, s.point);
            && (!Bound(header, s.point) ==> fault.Some? && AnswerFault(header, s.point, fault.value))
            && (Bound(header, s.point) && !HeaderOk(s, event) ==> fault == Some(InconsistentHistory))
            && (HeaderOk(s, event) && !CountsAgree(op) ==> fault == Some(IncompleteHistory))
            && (HeaderOk(s, event) && CountsAgree(op) && !EffectInOrder(s, prior, op) ==> fault == Some(InconsistentHistory))
            && (HeaderOk(s, event) && CountsAgree(op) && EffectInOrder(s, prior, op) ==>
                  var state := s.history.operationSuccess(IdOf(s, op), s.point);
                  && (!Bound(state, s.point) ==> fault.Some? && AnswerFault(state, s.point, fault.value))
                  && (Bound(state, s.point) && !ExecutedAs(s, IdOf(s, op)) ==> fault == Some(InconsistentHistory))
                  && (ExecutedAs(s, IdOf(s, op)) ==> fault.None?)))
  {
    ExecutedKeys(s, prior, IdOf(s, op));
    IdNewIff(s, prior, op);
  }

  lemma IdNewIff(s: Setting, prior: seq<Observed>, op: Observed)
    ensures IdNew(s, prior, op) <==> !exists k :: 0 <= k < |prior| && IdOf(s, prior[k]) == IdOf(s, op)
  {
    if IdNew(s, prior, op) {
      forall k | 0 <= k < |prior| ensures IdOf(s, prior[k]) != IdOf(s, op) { assert prior[k] in prior; }
    }
  }

  // Some accepted part of the history is followed by an operation with this fault.
  ghost predicate OperationFails(s: Setting, ops: seq<Observed>, fault: Fault) {
    exists k :: 0 <= k < |ops| && FailsAfter(s, ops[..k], ops[k], fault)
  }

  ghost predicate FailsAfter(s: Setting, prior: seq<Observed>, op: Observed, fault: Fault) {
    Accepts(s, prior) && StepFault(s, prior, Created(s, prior), op) == Some(fault)
  }

  // The first output in the order of creation that does not pass is the i-th.
  ghost predicate FirstBad(s: Setting, ops: seq<Observed>, ports: Ports, i: int)
    requires Listed(Created(s, ops), CreationOrder(s, ops))
  {
    var created, order := Created(s, ops), CreationOrder(s, ops);
    && 0 <= i < |order| && !OutputOk(s, ports.owners, ports.keys, order[i], created[order[i]])
    && forall j :: 0 <= j < i ==> OutputOk(s, ports.owners, ports.keys, order[j], created[order[j]])
  }

  // The reason of one output that does not pass: its state cannot be read, is not the history's, or
  // there is no key of its owner.
  ghost predicate OutputFails(s: Setting, ports: Ports, id: nat, e: Entry, reason: Reason)
    requires e.index < |e.observed.request.outputs|
  {
    var state := s.history.utxo(id, s.point);
    if !Bound(state, s.point) then reason.Faulty? && AnswerFault(state, s.point, reason.fault)
    else if !UtxoOk(s, id, e) then reason == Faulty(InconsistentHistory)
    else reason == ReceiptRejected && OutputOf(e).owner in ports.owners && !HasKeys(ports.keys, OutputOf(e).owner)
  }

  ghost predicate HistoryFails(s: Setting, ops: seq<Observed>, ports: Ports, reason: Reason) {
    if !Accepts(s, ops) then reason.Faulty? && OperationFails(s, ops, reason.fault)
    else
      && Listed(Created(s, ops), CreationOrder(s, ops))
      && exists i :: FirstBad(s, ops, ports, i)
           && OutputFails(s, ports, CreationOrder(s, ops)[i], Created(s, ops)[CreationOrder(s, ops)[i]], reason)
  }

  lemma TakeTake<T>(xs: seq<T>, n: nat, k: nat)
    requires k < n <= |xs|
    ensures xs[..n][..k] == xs[..k] && xs[..n][k] == xs[k]
  {
  }

  lemma FirstFaultAt(s: Setting, ops: seq<Observed>)
    requires FirstFault(s, ops).Some?
    ensures OperationFails(s, ops, FirstFault(s, ops).value)
  {
    var n := FaultIndex(s, ops);
    assert FailsAfter(s, ops[..n], ops[n], FirstFault(s, ops).value);
  }

  lemma {:induction false} FaultIndex(s: Setting, ops: seq<Observed>) returns (k: nat)
    requires FirstFault(s, ops).Some?
    ensures k < |ops| && FailsAfter(s, ops[..k], ops[k], FirstFault(s, ops).value)
  {
    var n := |ops| - 1;
    if FirstFault(s, ops[..n]).Some? {
      k := FaultIndex(s, ops[..n]);
      TakeTake(ops, n, k);
    } else {
      k := n;
      NoFaultAccepts(s, ops[..n]);
    }
  }

  lemma {:induction false} FirstOutputFaultAt(s: Setting, created: map<nat, Entry>, owners: set<nat>, keys: KeyPort, ids: seq<nat>)
      returns (i: nat)
    requires Listed(created, ids) && FirstOutputFault(s, created, owners, keys, ids).Some?
    ensures i < |ids| && !OutputOk(s, owners, keys, ids[i], created[ids[i]])
    ensures forall j :: 0 <= j < i ==> OutputOk(s, owners, keys, ids[j], created[ids[j]])
    ensures FirstOutputFault(s, created, owners, keys, ids) == OutputFault(s, owners, keys, ids[i], created[ids[i]])
  {
    var n := |ids| - 1;
    if FirstOutputFault(s, created, owners, keys, ids[..n]).Some? {
      i := FirstOutputFaultAt(s, created, owners, keys, ids[..n]);
      assert forall j :: 0 <= j <= i ==> ids[..n][j] == ids[j];
    } else {
      i := n;
      NoOutputFaultIff(s, created, owners, keys, ids[..n]);
      forall j | 0 <= j < n ensures OutputOk(s, owners, keys, ids[j], created[ids[j]]) { assert ids[..n][j] == ids[j]; }
    }
  }

  lemma HistoryReasonMeans(s: Setting, ops: seq<Observed>, ports: Ports)
    requires HistoryReason(s, ops, ports).Some?
    ensures HistoryFails(s, ops, ports, HistoryReason(s, ops, ports).value)
  {
    if FirstFault(s, ops).Some? {
      NoFaultAccepts(s, ops);
      FirstFaultAt(s, ops);
    } else {
      NoFaultAccepts(s, ops);
      OrderListed(s, ops);
      var i := FirstOutputFaultAt(s, Created(s, ops), ports.owners, ports.keys, CreationOrder(s, ops));
      assert FirstBad(s, ops, ports, i);
    }
  }

  // What a failed synchronization reports, from the first thing that went wrong on.
  lemma ReasonMeans(crypto: Crypto, context: Context, ports: Ports)
    ensures var reason := ReasonOf(crypto, context, ports);
      && (ports.owners == {} ==> reason == Some(WrongContext))
      && (ports.owners != {} && ports.finalized.None? ==> reason == Some(Faulty(Rpc)))
      && (ports.owners != {} && ports.finalized.Some? && ports.finalized.value.None? ==> reason == Some(NoFinality))
      && (ports.owners != {} && ports.finalized.Some? && ports.finalized.value.Some?
          && (ports.finalized.value.value.mode != context.finalityMode || ports.finalized.value.value.number < context.deploymentBlock)
          ==> reason == Some(NoFinality))
      && (Ready(context, ports) ==>
            var point := ports.finalized.value.value;
            var reported, listed := ports.context(point), AnsweredOperations(context, ports);
            && (!Bound(reported, point) ==> reason.Some? && reason.value.Faulty? && AnswerFault(reported, point, reason.value.fault))
            && (Bound(reported, point) && reported.value != context ==> reason == Some(WrongContext))
            && (Bound(reported, point) && reported.value == context && !Bound(listed, point) ==>
                  reason.Some? && reason.value.Faulty? && AnswerFault(listed, point, reason.value.fault)))
      && (Answered(context, ports) ==>
            var s, ops := SettingOf(crypto, context, ports), Replayed(context, ports);
            && (!Confirmed(s, ops, ports) ==> reason.Some? && HistoryFails(s, ops, ports, reason.value))
            && (Confirmed(s, ops, ports) && !Bound(ports.headerAtEnd, s.point) ==>
                  reason.Some? && reason.value.Faulty? && AnswerFault(ports.headerAtEnd, s.point, reason.value.fault))
            && (Confirmed(s, ops, ports) && Bound(ports.headerAtEnd, s.point) && !EndOk(s.point, ports) ==>
                  reason == Some(Faulty(InconsistentHistory))))
  {
    if Answered(context, ports) {
      var s, ops := SettingOf(crypto, context, ports), Replayed(context, ports);
      NoHistoryReasonIff(s, ops, ports);
      if !Confirmed(s, ops, ports) { HistoryReasonMeans(s, ops, ports); }
    }
  }
}

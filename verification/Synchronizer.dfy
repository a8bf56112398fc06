// Synchronization (packages/core/src/sync.ts): sort, replay, then the owned outputs.
module Synchronizer {
  import opened Wrappers
  import opened Counting
  import opened Sorting
  import opened Pool
  import opened Ledger
  import opened LedgerLaws
  import opened LogLayout
  import opened Receipts
  import opened Replay

  // What one call reads. `finalized` is None when that port throws.
  datatype Ports = Ports(
    finalized: Option<Option<Checkpoint>>,
    context: Checkpoint -> Answer<Context>,
    operations: (nat, Checkpoint) -> Answer<seq<Observed>>,
    history: History,
    headerAtEnd: Answer<Header>,
    keys: KeyPort,
    owners: set<nat>)

  datatype Reason = NoFinality | WrongContext | ReceiptRejected | Faulty(fault: Fault)

  datatype Stale = Stale(checkpoint: Checkpoint, coins: seq<Coin>)

  datatype SyncResult =
    | Synchronized(checkpoint: Checkpoint, coins: seq<Coin>, failures: seq<(nat, ReceiptFailure)>, availableWei: nat)
    | Unconfirmed(known: Option<Checkpoint>, previous: Option<Stale>, reason: Reason)

  function StaleOf(previous: Option<SyncResult>): Option<Stale> {
    match previous
    case None => None
    case Some(Unconfirmed(_, older, _)) =>
      if older.None? then None else Some(Stale(older.value.checkpoint, Forgotten(older.value.coins)))
    case Some(Synchronized(checkpoint, coins, _, _)) => Some(Stale(checkpoint, Forgotten(coins)))
  }

  function Forgotten(coins: seq<Coin>): seq<Coin> {
    seq(|coins|, i requires 0 <= i < |coins| => coins[i].(status := StatusUnknown))
  }

  // The last snapshot there was, however many failures ago.
  function LastKnown(previous: Option<SyncResult>): Option<Stale> {
    match previous
    case None => None
    case Some(Unconfirmed(_, older, _)) => older
    case Some(Synchronized(checkpoint, coins, _, _)) => Some(Stale(checkpoint, coins))
  }

  // It is kept with its checkpoint and its coins, whose status alone is no longer known.
  predicate Remembers(previous: Option<SyncResult>, kept: Option<Stale>) {
    var last := LastKnown(previous);
    && (kept.Some? <==> last.Some?)
    && (kept.Some? ==>
          && kept.value.checkpoint == last.value.checkpoint && |kept.value.coins| == |last.value.coins|
          && forall i :: 0 <= i < |kept.value.coins| ==>
               kept.value.coins[i].status == StatusUnknown
               && kept.value.coins[i].(status := last.value.coins[i].status) == last.value.coins[i])
  }

  // Everything was read at one finalized checkpoint of the context's own mode and range: the contract's
  // context is the expected one, and the checkpoint's block is still canonical at the end.
  predicate ReadAt(context: Context, ports: Ports, point: Checkpoint) {
    && ports.owners != {} && ports.finalized == Some(Some(point))
    && point.mode == context.finalityMode && point.number >= context.deploymentBlock
    && ports.context(point) == Complete(point.hash, context)
    && ports.operations(context.deploymentBlock, point).Complete? && ports.operations(context.deploymentBlock, point).blockHash == point.hash
    && ports.headerAtEnd == Complete(point.hash, Header(point.number, point.hash))
  }

  lemma StaleRemembers(previous: Option<SyncResult>)
    ensures Remembers(previous, StaleOf(previous))
  {
  }

  // ----- What the outputs are checked against -----

  function OutputOf(e: Entry): Output
    requires e.index < |e.observed.request.outputs|
  {
    e.observed.request.outputs[e.index]
  }

  predicate UtxoOk(s: Setting, id: nat, e: Entry)
    requires e.index < |e.observed.request.outputs|
  {
    var a := s.history.utxo(id, s.point);
    && Bound(a, s.point)
    && a.value == UtxoState(true, Some(OutputOf(e).owner), Some(OutputOf(e).commitment), e.consumedBy)
  }

  function SuccessOf(executed: map<nat, Request>, id: nat, point: Checkpoint): Answer<OperationSuccess> {
    Complete(point.hash, OperationSuccess(true, if id in executed then Some(executed[id]) else None))
  }

  // What synchronize hands to inspectReceipt for one entry.
  function StateFor(s: Setting, executed: map<nat, Request>, id: nat, e: Entry): ReceiptState
    requires e.observed.success.Some?
  {
    ReceiptState(
      s.context,
      s.history.header(e.observed.success.value.blockNumber, s.point),
      SuccessOf(executed, e.observed.success.value.operationId, s.point),
      s.history.utxo(id, s.point),
      if e.consumedBy.None? then None else Some(SuccessOf(executed, e.consumedBy.value, s.point)))
  }

  // ----- The two validators agree -----

  lemma AcceptedMember(s: Setting, ops: seq<Observed>, op: Observed)
    requires Accepts(s, ops) && op in ops
    ensures LocalOk(s, op)
  {
    var k :| 0 <= k < |ops| && ops[k] == op;
    AcceptedAt(s, ops, k);
  }

  // Later operations of an accepted history have other ids.
  lemma LaterIdsNew(s: Setting, ops: seq<Observed>, k: nat, i: nat)
    requires Accepts(s, ops) && k < i < |ops|
    ensures IdOf(s, ops[k]) != IdOf(s, ops[i])
  {
    AcceptedAt(s, ops, i);
    assert ops[..i][k] == ops[k];
    assert IdNew(s, ops[..i], ops[i]);
  }

  lemma {:induction false} ExecutedLast(s: Setting, ops: seq<Observed>, k: nat)
    requires k < |ops| && forall i :: k < i < |ops| ==> IdOf(s, ops[i]) != IdOf(s, ops[k])
    ensures IdOf(s, ops[k]) in Executed(s, ops) && Executed(s, ops)[IdOf(s, ops[k])] == ops[k].request
  {
    if k < |ops| - 1 { ExecutedLast(s, ops[..|ops| - 1], k); }
  }

  lemma ExecutedRequest(s: Setting, ops: seq<Observed>, k: nat)
    requires Accepts(s, ops) && k < |ops|
    ensures IdOf(s, ops[k]) in Executed(s, ops) && Executed(s, ops)[IdOf(s, ops[k])] == ops[k].request
  {
    forall i | k < i < |ops| ensures IdOf(s, ops[i]) != IdOf(s, ops[k]) { LaterIdsNew(s, ops, k, i); }
    ExecutedLast(s, ops, k);
  }

  lemma {:induction false} LogsInPlacePass(s: Setting, op: Observed, index: nat, previous: int)
    requires LocalOk(s, op) && index <= |op.request.outputs|
    requires previous < FirstLog(op) + |InputsOf(op)| + index
    ensures LogsFailure(s.crypto, IdOf(s, op), op.request, op.success.value, op.outputLogs, index, previous).None?
    decreases |op.request.outputs| - index
  {
    if index < |op.request.outputs| {
      assert OutputInPlace(s, op, index);
      OutputConsecutive(s, op, index);
      var log := MatchesOf(op.outputLogs, index)[0];
      var j :| 0 <= j < |LogsOf(op)| && LogsOf(op)[j] == log.at;
      assert LogOf(LogsOf(op)[j], op.success.value);
      LogsInPlacePass(s, op, index + 1, log.at.logIndex);
    }
  }

  lemma FirstLogNonNegative(s: Setting, op: Observed)
    requires LocalOk(s, op)
    ensures FirstLog(op) >= 0 && PositionNumber(op.success.value.transactionIndex) && PositionNumber(op.success.value.logIndex)
  {
    var n := |LogsOf(op)| - 1;
    assert LogOf(LogsOf(op)[n], op.success.value);
    assert |ChainOrder(op)| > 0;
    ChainOrderConsecutive(s, op, 0);
    var j :| 0 <= j < |LogsOf(op)| && LogsOf(op)[j] == ChainOrder(op)[0];
    assert LogOf(LogsOf(op)[j], op.success.value);
  }

  // The operation that spends an entry is its owner's.
  lemma SpenderOwns(s: Setting, ops: seq<Observed>, id: nat) returns (k: nat)
    requires Accepts(s, ops) && id in Created(s, ops) && Created(s, ops)[id].consumedBy.Some?
    ensures k < |ops| && IdOf(s, ops[k]) == Created(s, ops)[id].consumedBy.value && id in ops[k].request.inputIds
    ensures var e := Created(s, ops)[id];
      e.index < |e.observed.request.outputs| && ops[k].request.owner == OutputOf(e).owner
  {
    AcceptedLedger(s, ops);
    EntriesTrue(s, ops, id);
    LedgerIffCustody(s, ops);
    var e := Created(s, ops)[id];
    k :| 0 <= k < |ops| && id in ops[k].request.inputIds && e.consumedBy.value == IdOf(s, ops[k]);
    var i :| 0 <= i < |ops[k].request.inputIds| && ops[k].request.inputIds[i] == id;
    assert EarnedFrom(s, ops, k, ops[k].request.inputIds[i], ops[k].request.owner);
    var j, t :| 0 <= j < k && j < |ops| && 0 <= t < |ops[j].request.outputs|
      && CreatesAt(s, ops[j], t, id) && ops[j].request.outputs[t].owner == ops[k].request.owner;
    var m :| 0 <= m < |ops| && ops[m] == e.observed && CreatesAt(s, ops[m], e.index, id);
    assert CreatesAt(s, ops[j], t, id) && CreatesAt(s, ops[m], e.index, id);
  }

  lemma ConsumptionPasses(s: Setting, ops: seq<Observed>, id: nat)
    requires Accepts(s, ops) && id in Created(s, ops) && Created(s, ops)[id].consumedBy.Some?
    ensures var e := Created(s, ops)[id];
      && e.observed.success.Some? && e.index < |e.observed.request.outputs|
      && ConsumptionFailure(s.crypto, s.context, e.consumedBy.value, StateFor(s, Executed(s, ops), id, e).consuming,
           OutputOf(e).owner, id, s.point).None?
  {
    var k := SpenderOwns(s, ops, id);
    ExecutedRequest(s, ops, k);
    AcceptedMember(s, ops, ops[k]);
    var j := EntryFacts(s, ops, id);
  }

  lemma EntryFacts(s: Setting, ops: seq<Observed>, id: nat) returns (j: nat)
    requires Accepts(s, ops) && id in Created(s, ops)
    ensures var e := Created(s, ops)[id];
      && j < |ops| && ops[j] == e.observed && LocalOk(s, ops[j])
      && e.index < |e.observed.request.outputs| && s.crypto.outputId(IdOf(s, e.observed), e.index) == id
  {
    AcceptedLedger(s, ops);
    EntriesTrue(s, ops, id);
    var e := Created(s, ops)[id];
    j :| 0 <= j < |ops| && ops[j] == e.observed && CreatesAt(s, ops[j], e.index, id);
    AcceptedMember(s, ops, ops[j]);
  }

  // The states of the operation, of the output and of its spender pass.
  lemma StatePasses(s: Setting, ops: seq<Observed>, id: nat)
    requires Accepts(s, ops) && id in Created(s, ops)
    requires var e := Created(s, ops)[id]; e.index < |e.observed.request.outputs| && UtxoOk(s, id, e)
    ensures var e := Created(s, ops)[id];
      && e.observed.success.Some?
      && StateFailure(s.crypto, s.crypto.OperationId(s.context, e.observed.request), e.observed.request, e.index, OutputOf(e).owner,
           StateFor(s, Executed(s, ops), id, e), s.point).None?
  {
    var j := EntryFacts(s, ops, id);
    ExecutedRequest(s, ops, j);
    if Created(s, ops)[id].consumedBy.Some? { ConsumptionPasses(s, ops, id); }
  }

  // Once the replay has accepted the history and the output's state agrees with it, nothing that
  // inspectReceipt checks before it asks for keys can fail.
  lemma ValidatorsAgree(s: Setting, ops: seq<Observed>, id: nat)
    requires Accepts(s, ops) && s.point.mode == s.context.finalityMode
    requires id in Created(s, ops)
    requires var e := Created(s, ops)[id]; e.index < |e.observed.request.outputs| && UtxoOk(s, id, e)
    ensures var e := Created(s, ops)[id];
      && e.observed.success.Some?
      && BindingFailure(s.crypto, e.observed, e.index, OutputOf(e).owner, StateFor(s, Executed(s, ops), id, e), s.point).None?
  {
    var e := Created(s, ops)[id];
    var j := EntryFacts(s, ops, id);
    var op := ops[j];
    FirstLogNonNegative(s, op);
    OutputIndicesExact(s, op);
    LogsInPlacePass(s, op, 0, -1);
    StatePasses(s, ops, id);
    assert |op.request.outputs| <= 2;
  }

  // ----- The outputs of an accepted history -----

  ghost predicate Listed(created: map<nat, Entry>, ids: seq<nat>) {
    forall i :: 0 <= i < |ids| ==> ids[i] in created && created[ids[i]].index < |created[ids[i]].observed.request.outputs|
  }

  predicate HasKeys(keys: KeyPort, owner: nat) {
    keys.keysOf(owner).Some? && keys.keysOf(owner).value != []
  }

  function OpeningOf(s: Setting, keys: KeyPort, e: Entry): Option<Opening>
    requires e.index < |e.observed.request.outputs|
  {
    OpenWith(keys, keys.keysOf(OutputOf(e).owner).GetOr([]), s.context, e.observed.request, e.index)
  }

  function StatusOf(e: Entry): CoinStatus {
    if e.consumedBy.Some? then Spent else Available
  }

  function CoinOf(s: Setting, keys: KeyPort, id: nat, e: Entry): Coin
    requires e.index < |e.observed.request.outputs| && OpeningOf(s, keys, e).Some?
  {
    Coin(id, OutputOf(e).owner, OpeningOf(s, keys, e).value, OutputOf(e).commitment, s.point, StatusOf(e),
         s.context.chainId, s.context.pool)
  }

  // The wallet's coins among the listed outputs: owned, and opened by one of the owner's keys.
  function Coins(s: Setting, created: map<nat, Entry>, owners: set<nat>, keys: KeyPort, ids: seq<nat>): seq<Coin>
    requires Listed(created, ids)
  {
    if ids == [] then []
    else
      var n := |ids| - 1;
      Coins(s, created, owners, keys, ids[..n]) + CoinPart(s, owners, keys, ids[n], created[ids[n]])
  }

  function Failures(s: Setting, created: map<nat, Entry>, owners: set<nat>, keys: KeyPort, ids: seq<nat>): seq<(nat, ReceiptFailure)>
    requires Listed(created, ids)
  {
    if ids == [] then []
    else
      var n := |ids| - 1;
      Failures(s, created, owners, keys, ids[..n]) + FailurePart(s, owners, keys, ids[n], created[ids[n]])
  }

  // The output is as the chain has it and, if it is owned, there are keys to try.
  predicate OutputOk(s: Setting, owners: set<nat>, keys: KeyPort, id: nat, e: Entry)
    requires e.index < |e.observed.request.outputs|
  {
    UtxoOk(s, id, e) && (OutputOf(e).owner in owners ==> HasKeys(keys, OutputOf(e).owner))
  }

  ghost predicate OutputsOk(s: Setting, created: map<nat, Entry>, owners: set<nat>, keys: KeyPort, ids: seq<nat>)
    requires Listed(created, ids)
  {
    forall i :: 0 <= i < |ids| ==> OutputOk(s, owners, keys, ids[i], created[ids[i]])
  }

  ghost predicate KeysMissing(created: map<nat, Entry>, owners: set<nat>, keys: KeyPort, ids: seq<nat>)
    requires Listed(created, ids)
  {
    exists i :: 0 <= i < |ids| && OutputOf(created[ids[i]]).owner in owners && !HasKeys(keys, OutputOf(created[ids[i]]).owner)
  }

  lemma {:induction false} OrderMembers(s: Setting, ops: seq<Observed>, id: nat)
    ensures id in CreationOrder(s, ops) <==> id in Created(s, ops)
  {
    if ops != [] {
      var n := |ops| - 1;
      var prior, op := ops[..n], ops[n];
      OrderMembers(s, prior, id);
      CreateKeys(s, Consume(Created(s, prior), op.request.inputIds, IdOf(s, op)), op, |op.request.outputs|, id);
      assert OutputIds(s, op)[..|op.request.outputs|] == OutputIds(s, op);
    }
  }

  lemma DistinctConcat(xs: seq<nat>, ys: seq<nat>)
    requires Distinct(xs) && Distinct(ys) && forall i :: 0 <= i < |ys| ==> ys[i] !in xs
    ensures Distinct(xs + ys)
  {
    forall i, j | 0 <= i < j < |xs + ys| ensures (xs + ys)[i] != (xs + ys)[j] {
      if i < |xs| <= j { assert ys[j - |xs|] !in xs; }
    }
  }

  lemma {:induction false} OrderDistinct(s: Setting, ops: seq<Observed>)
    requires LedgerOk(s, ops)
    ensures Distinct(CreationOrder(s, ops))
  {
    if ops != [] {
      var prior, op := ops[..|ops| - 1], ops[|ops| - 1];
      OrderDistinct(s, prior);
      forall i | 0 <= i < |OutputIds(s, op)| ensures OutputIds(s, op)[i] !in CreationOrder(s, prior) {
        OrderMembers(s, prior, OutputIds(s, op)[i]);
      }
      DistinctConcat(CreationOrder(s, prior), OutputIds(s, op));
    }
  }

  // The outputs are visited once each.
  lemma OrderListed(s: Setting, ops: seq<Observed>)
    requires Accepts(s, ops)
    ensures forall id :: id in CreationOrder(s, ops) <==> id in Created(s, ops)
    ensures Distinct(CreationOrder(s, ops))
    ensures Listed(Created(s, ops), CreationOrder(s, ops))
  {
    EntriesInRange(s, ops);
    AcceptedLedger(s, ops);
    OrderDistinct(s, ops);
    forall id ensures id in CreationOrder(s, ops) <==> id in Created(s, ops) {
      OrderMembers(s, ops, id);
    }
  }

  // Why an output stops the synchronization, if it does.
  function OutputFault(s: Setting, owners: set<nat>, keys: KeyPort, id: nat, e: Entry): Option<Reason>
    requires e.index < |e.observed.request.outputs|
  {
    match Value(s.history.utxo(id, s.point), s.point)
    case Err(fault) => Some(Faulty(fault))
    case Ok(_) =>
      if !UtxoOk(s, id, e) then Some(Faulty(InconsistentHistory))
      else if OutputOf(e).owner in owners && !HasKeys(keys, OutputOf(e).owner) then Some(ReceiptRejected)
      else None
  }

  function FirstOutputFault(s: Setting, created: map<nat, Entry>, owners: set<nat>, keys: KeyPort, ids: seq<nat>): Option<Reason>
    requires Listed(created, ids)
  {
    if ids == [] then None
    else
      var n := |ids| - 1;
      var before := FirstOutputFault(s, created, owners, keys, ids[..n]);
      if before.Some? then before else OutputFault(s, owners, keys, ids[n], created[ids[n]])
  }

  lemma {:induction false} FirstOutputFaultStays(s: Setting, created: map<nat, Entry>, owners: set<nat>, keys: KeyPort, ids: seq<nat>, n: nat)
    requires Listed(created, ids) && n <= |ids| && FirstOutputFault(s, created, owners, keys, ids[..n]).Some?
    ensures FirstOutputFault(s, created, owners, keys, ids) == FirstOutputFault(s, created, owners, keys, ids[..n])
    decreases |ids|
  {
    if n == |ids| {
      assert ids[..n] == ids;
    } else {
      assert ids[..|ids| - 1][..n] == ids[..n];
      FirstOutputFaultStays(s, created, owners, keys, ids[..|ids| - 1], n);
    }
  }

  lemma {:induction false} NoOutputFaultIff(s: Setting, created: map<nat, Entry>, owners: set<nat>, keys: KeyPort, ids: seq<nat>)
    requires Listed(created, ids)
    ensures FirstOutputFault(s, created, owners, keys, ids).None? <==> OutputsOk(s, created, owners, keys, ids)
    ensures FirstOutputFault(s, created, owners, keys, ids) == Some(ReceiptRejected) ==> KeysMissing(created, owners, keys, ids)
  {
    if ids != [] {
      var n := |ids| - 1;
      NoOutputFaultIff(s, created, owners, keys, ids[..n]);
      assert OutputsOk(s, created, owners, keys, ids) ==> OutputOk(s, owners, keys, ids[n], created[ids[n]]);
      if i :| 0 <= i < n && OutputOf(created[ids[..n][i]]).owner in owners && !HasKeys(keys, OutputOf(created[ids[..n][i]]).owner) {
        assert ids[i] == ids[..n][i];
      }
    }
  }

  lemma FirstOutputFaultNext(s: Setting, created: map<nat, Entry>, owners: set<nat>, keys: KeyPort, ids: seq<nat>, i: nat)
    requires Listed(created, ids) && i < |ids| && FirstOutputFault(s, created, owners, keys, ids[..i]).None?
    ensures FirstOutputFault(s, created, owners, keys, ids[..i + 1]) == OutputFault(s, owners, keys, ids[i], created[ids[i]])
  {
    assert ids[..i + 1][..i] == ids[..i];
  }

  // What the receipt of an output adds to the snapshot.
  function CoinPart(s: Setting, owners: set<nat>, keys: KeyPort, id: nat, e: Entry): seq<Coin>
    requires e.index < |e.observed.request.outputs|
  {
    if OutputOf(e).owner in owners && OpeningOf(s, keys, e).Some? then [CoinOf(s, keys, id, e)] else []
  }

  function FailurePart(s: Setting, owners: set<nat>, keys: KeyPort, id: nat, e: Entry): seq<(nat, ReceiptFailure)>
    requires e.index < |e.observed.request.outputs|
  {
    if OutputOf(e).owner in owners && OpeningOf(s, keys, e).None? then [(id, ReceiptFailure(true, DecryptFailed))] else []
  }

  ghost predicate ReceiptIs(s: Setting, owners: set<nat>, keys: KeyPort, id: nat, e: Entry, receipt: Option<ReceiptResult>)
    requires e.index < |e.observed.request.outputs|
  {
    match receipt
    case None => CoinPart(s, owners, keys, id, e) == [] && FailurePart(s, owners, keys, id, e) == []
    case Some(Failed(failure)) => CoinPart(s, owners, keys, id, e) == [] && FailurePart(s, owners, keys, id, e) == [(id, failure)]
    case Some(Received(_, _, coin, _)) => CoinPart(s, owners, keys, id, e) == [coin] && FailurePart(s, owners, keys, id, e) == []
  }

  // With the history accepted and the output's state as the chain has it, only keys and openings
  // decide the receipt.
  lemma OwnedVerdict(s: Setting, ops: seq<Observed>, keys: KeyPort, id: nat)
    requires Accepts(s, ops) && s.point.mode == s.context.finalityMode && id in Created(s, ops)
    requires var e := Created(s, ops)[id]; e.index < |e.observed.request.outputs| && UtxoOk(s, id, e)
    ensures var e := Created(s, ops)[id];
      && e.observed.success.Some?
      && var receipt := Verdict(s.crypto, e.observed, e.index, OutputOf(e).owner, keys, StateFor(s, Executed(s, ops), id, e), s.point);
      && (receipt.Failed? && receipt.failure.reason != DecryptFailed <==> !HasKeys(keys, OutputOf(e).owner))
      && (HasKeys(keys, OutputOf(e).owner) ==> ReceiptIs(s, {OutputOf(e).owner}, keys, id, e, Some(receipt)))
  {
    ValidatorsAgree(s, ops, id);
    var j := EntryFacts(s, ops, id);
  }

  // The replay's maps hold what the receipt is to be checked against.
  lemma MapsGiveState(s: Setting, ops: seq<Observed>, headers: map<nat, Header>, id: nat)
    requires Accepts(s, ops) && id in Created(s, ops) && HeadersTrue(s, headers) && HeadersKept(ops, headers)
    ensures var e := Created(s, ops)[id];
      && e.observed.success.Some? && e.observed.success.value.blockNumber in headers
      && s.history.header(e.observed.success.value.blockNumber, s.point)
         == Complete(s.point.hash, headers[e.observed.success.value.blockNumber])
  {
    var j := EntryFacts(s, ops, id);
    HeaderKept(ops, headers, j);
  }

  // The receipt of an output whose state on the chain is as the replay has it.
  method InspectOwned(replay: Replay, keys: KeyPort, id: nat) returns (r: Result<Option<ReceiptResult>, Reason>)
    requires replay.Valid() && replay.s.point.mode == replay.s.context.finalityMode
    requires id in replay.created && replay.created[id].index < |replay.created[id].observed.request.outputs|
    requires UtxoOk(replay.s, id, replay.created[id])
    ensures r.Ok? <==> HasKeys(keys, OutputOf(replay.created[id]).owner)
    ensures r.Ok? ==> ReceiptIs(replay.s, {OutputOf(replay.created[id]).owner}, keys, id, replay.created[id], r.value)
    ensures r.Err? ==> r.error == ReceiptRejected
  {
    var s, e := replay.s, replay.created[id];
    MapsGiveState(s, replay.done, replay.headers, id);
    OwnedVerdict(s, replay.done, keys, id);
    var success := e.observed.success.value;
    var receiptState := ReceiptState(
      s.context,
      Complete(s.point.hash, replay.headers[success.blockNumber]),
      SuccessOf(replay.successes, success.operationId, s.point),
      s.history.utxo(id, s.point),
      if e.consumedBy.None? then None else Some(SuccessOf(replay.successes, e.consumedBy.value, s.point)));
    var receipt := InspectReceipt(s.crypto, e.observed, e.index, OutputOf(e).owner, keys, receiptState, s.point);
    if receipt.Failed? && receipt.failure.reason != DecryptFailed { return Err(ReceiptRejected); }
    r := Ok(Some(receipt));
  }

  // One output: its state on the chain, then its receipt.
  method InspectOutput(replay: Replay, owners: set<nat>, keys: KeyPort, id: nat) returns (r: Result<Option<ReceiptResult>, Reason>)
    requires replay.Valid() && replay.s.point.mode == replay.s.context.finalityMode
    requires id in replay.created && replay.created[id].index < |replay.created[id].observed.request.outputs|
    ensures OutputFault(replay.s, owners, keys, id, replay.created[id]) == if r.Err? then Some(r.error) else None
    ensures r.Ok? ==> ReceiptIs(replay.s, owners, keys, id, replay.created[id], r.value)
  {
    var s, e := replay.s, replay.created[id];
    var output := e.observed.request.outputs[e.index];
    var state := Value(s.history.utxo(id, s.point), s.point);
    if state.Err? { return Err(Faulty(state.error)); }
    if !state.value.exists_ || state.value.owner != Some(output.owner) || state.value.commitment != Some(output.commitment)
      || state.value.consumedBy != e.consumedBy {
      return Err(Faulty(InconsistentHistory));
    }
    if output.owner !in owners { return Ok(None); }
    r := InspectOwned(replay, keys, id);
  }

  lemma OneMore(s: Setting, created: map<nat, Entry>, owners: set<nat>, keys: KeyPort, ids: seq<nat>, i: nat)
    requires Listed(created, ids) && i < |ids|
    ensures var e := created[ids[i]];
      && Coins(s, created, owners, keys, ids[..i + 1])
         == Coins(s, created, owners, keys, ids[..i]) + CoinPart(s, owners, keys, ids[i], e)
      && Failures(s, created, owners, keys, ids[..i + 1])
         == Failures(s, created, owners, keys, ids[..i]) + FailurePart(s, owners, keys, ids[i], e)
  {
    assert ids[..i + 1][..i] == ids[..i];
  }

  // The coin or the failure of one receipt joins the others.
  method Record(s: Setting, owners: set<nat>, keys: KeyPort, id: nat, e: Entry, receipt: Option<ReceiptResult>,
      coins: seq<Coin>, failures: seq<(nat, ReceiptFailure)>) returns (moreCoins: seq<Coin>, moreFailures: seq<(nat, ReceiptFailure)>)
    requires e.index < |e.observed.request.outputs| && ReceiptIs(s, owners, keys, id, e, receipt)
    ensures moreCoins == coins + CoinPart(s, owners, keys, id, e)
    ensures moreFailures == failures + FailurePart(s, owners, keys, id, e)
  {
    moreCoins, moreFailures := coins, failures;
    if receipt.Some? {
      match receipt.value
      case Failed(failure) => moreFailures := moreFailures + [(id, failure)];
      case Received(_, _, coin, _) => moreCoins := moreCoins + [coin];
    }
  }

  // The outputs before position n have no fault, and these are their coins and failures.
  ghost predicate CollectedTo(s: Setting, created: map<nat, Entry>, owners: set<nat>, keys: KeyPort, ids: seq<nat>, n: nat,
      coins: seq<Coin>, failures: seq<(nat, ReceiptFailure)>)
    requires Listed(created, ids) && n <= |ids|
  {
    && FirstOutputFault(s, created, owners, keys, ids[..n]).None?
    && coins == Coins(s, created, owners, keys, ids[..n])
    && failures == Failures(s, created, owners, keys, ids[..n])
  }

  lemma CollectedNext(s: Setting, created: map<nat, Entry>, owners: set<nat>, keys: KeyPort, ids: seq<nat>, i: nat,
      coins: seq<Coin>, failures: seq<(nat, ReceiptFailure)>)
    requires Listed(created, ids) && i < |ids| && CollectedTo(s, created, owners, keys, ids, i, coins, failures)
    requires OutputFault(s, owners, keys, ids[i], created[ids[i]]).None?
    ensures CollectedTo(s, created, owners, keys, ids, i + 1, coins + CoinPart(s, owners, keys, ids[i], created[ids[i]]),
                        failures + FailurePart(s, owners, keys, ids[i], created[ids[i]]))
  {
    FirstOutputFaultNext(s, created, owners, keys, ids, i);
    OneMore(s, created, owners, keys, ids, i);
  }

  lemma CollectedFails(s: Setting, created: map<nat, Entry>, owners: set<nat>, keys: KeyPort, ids: seq<nat>, i: nat)
    requires Listed(created, ids) && i < |ids| && FirstOutputFault(s, created, owners, keys, ids[..i]).None?
    requires OutputFault(s, owners, keys, ids[i], created[ids[i]]).Some?
    ensures FirstOutputFault(s, created, owners, keys, ids) == OutputFault(s, owners, keys, ids[i], created[ids[i]])
  {
    FirstOutputFaultNext(s, created, owners, keys, ids, i);
    FirstOutputFaultStays(s, created, owners, keys, ids, i + 1);
  }

  lemma CollectedAll(s: Setting, created: map<nat, Entry>, owners: set<nat>, keys: KeyPort, ids: seq<nat>,
      coins: seq<Coin>, failures: seq<(nat, ReceiptFailure)>)
    requires Listed(created, ids) && CollectedTo(s, created, owners, keys, ids, |ids|, coins, failures)
    ensures FirstOutputFault(s, created, owners, keys, ids).None?
    ensures coins == Coins(s, created, owners, keys, ids) && failures == Failures(s, created, owners, keys, ids)
  {
    assert ids[..|ids|] == ids;
  }

  // One output and what it adds.
  method Collect(replay: Replay, owners: set<nat>, keys: KeyPort, id: nat, coins: seq<Coin>, failures: seq<(nat, ReceiptFailure)>)
      returns (r: Result<(seq<Coin>, seq<(nat, ReceiptFailure)>), Reason>)
    requires replay.Valid() && replay.s.point.mode == replay.s.context.finalityMode
    requires id in replay.created && replay.created[id].index < |replay.created[id].observed.request.outputs|
    ensures OutputFault(replay.s, owners, keys, id, replay.created[id]) == if r.Err? then Some(r.error) else None
    ensures r.Ok? ==>
      && r.value.0 == coins + CoinPart(replay.s, owners, keys, id, replay.created[id])
      && r.value.1 == failures + FailurePart(replay.s, owners, keys, id, replay.created[id])
  {
    var receipt := InspectOutput(replay, owners, keys, id);
    if receipt.Err? { return Err(receipt.error); }
    var moreCoins, moreFailures := Record(replay.s, owners, keys, id, replay.created[id], receipt.value, coins, failures);
    r := Ok((moreCoins, moreFailures));
  }

  // Every output in the order of creation.
  method InspectOutputs(replay: Replay, owners: set<nat>, keys: KeyPort)
      returns (r: Result<(seq<Coin>, seq<(nat, ReceiptFailure)>), Reason>)
    requires replay.Valid() && replay.s.point.mode == replay.s.context.finalityMode
    requires Listed(replay.created, replay.order)
    ensures FirstOutputFault(replay.s, replay.created, owners, keys, replay.order) == if r.Err? then Some(r.error) else None
    ensures r.Ok? ==>
      && r.value.0 == Coins(replay.s, replay.created, owners, keys, replay.order)
      && r.value.1 == Failures(replay.s, replay.created, owners, keys, replay.order)
  {
    var s, created, order := replay.s, replay.created, replay.order;
    var coins, failures := [], [];
    for i := 0 to |order|
      invariant CollectedTo(s, created, owners, keys, order, i, coins, failures)
    {
      var more := Collect(replay, owners, keys, order[i], coins, failures);
      if more.Err? {
        CollectedFails(s, created, owners, keys, order, i);
        return Err(more.error);
      }
      CollectedNext(s, created, owners, keys, order, i, coins, failures);
      coins, failures := more.value.0, more.value.1;
    }
    CollectedAll(s, created, owners, keys, order, coins, failures);
    r := Ok((coins, failures));
  }

  // ----- The whole synchronization -----

  function AvailableWei(coins: seq<Coin>): nat {
    if coins == [] then 0
    else
      var last := coins[|coins| - 1];
      AvailableWei(coins[..|coins| - 1]) + (if last.status == Available then last.opening.amount else 0)
  }

  predicate Ready(context: Context, ports: Ports) {
    && ports.owners != {}
    && ports.finalized.Some? && ports.finalized.value.Some?
    && ports.finalized.value.value.mode == context.finalityMode
    && ports.finalized.value.value.number >= context.deploymentBlock
  }

  function SettingOf(crypto: Crypto, context: Context, ports: Ports): Setting
    requires Ready(context, ports)
  {
    Setting(crypto, context, ports.history, ports.finalized.value.value)
  }

  function AnsweredOperations(context: Context, ports: Ports): Answer<seq<Observed>>
    requires Ready(context, ports)
  {
    ports.operations(context.deploymentBlock, ports.finalized.value.value)
  }

  predicate EndOk(point: Checkpoint, ports: Ports) {
    Bound(ports.headerAtEnd, point) && ports.headerAtEnd.value == Header(point.number, point.hash)
  }

  // The operations a synchronization replays.
  function Replayed(context: Context, ports: Ports): seq<Observed>
    requires Ready(context, ports) && AnsweredOperations(context, ports).Complete?
  {
    Sort(AnsweredOperations(context, ports).value, OperationBefore)
  }

  predicate Answered(context: Context, ports: Ports) {
    && Ready(context, ports)
    && var point := ports.finalized.value.value;
    && Bound(ports.context(point), point) && ports.context(point).value == context
    && Bound(AnsweredOperations(context, ports), point)
  }

  // When a synchronization completes, said without the loops.
  ghost predicate Completes(crypto: Crypto, context: Context, ports: Ports) {
    && Answered(context, ports)
    && Confirmed(SettingOf(crypto, context, ports), Replayed(context, ports), ports)
    && EndOk(ports.finalized.value.value, ports)
  }

  // The history is accepted and every output of it is as the chain has it.
  ghost predicate Confirmed(s: Setting, ops: seq<Observed>, ports: Ports) {
    && Accepts(s, ops)
    && Listed(Created(s, ops), CreationOrder(s, ops))
    && OutputsOk(s, Created(s, ops), ports.owners, ports.keys, CreationOrder(s, ops))
  }

  ghost function CoinsOf(s: Setting, ops: seq<Observed>, ports: Ports): seq<Coin>
    requires Confirmed(s, ops, ports)
  {
    Coins(s, Created(s, ops), ports.owners, ports.keys, CreationOrder(s, ops))
  }

  ghost function FailuresOf(s: Setting, ops: seq<Observed>, ports: Ports): seq<(nat, ReceiptFailure)>
    requires Confirmed(s, ops, ports)
  {
    Failures(s, Created(s, ops), ports.owners, ports.keys, CreationOrder(s, ops))
  }

  // What a synchronization that completes returns.
  ghost function Snapshot(crypto: Crypto, context: Context, ports: Ports): SyncResult
    requires Completes(crypto, context, ports)
  {
    var s, ops := SettingOf(crypto, context, ports), Replayed(context, ports);
    Synchronized(s.point, CoinsOf(s, ops, ports), FailuresOf(s, ops, ports), AvailableWei(CoinsOf(s, ops, ports)))
  }

  ghost predicate SomeKeysMissing(s: Setting, ops: seq<Observed>, ports: Ports) {
    && Accepts(s, ops)
    && Listed(Created(s, ops), CreationOrder(s, ops))
    && KeysMissing(Created(s, ops), ports.owners, ports.keys, CreationOrder(s, ops))
  }

  // ----- Why a synchronization does not complete -----

  // The fault of the first operation that has one.
  ghost function FirstFault(s: Setting, ops: seq<Observed>): Option<Fault> {
    if ops == [] then None
    else
      var prior, op := ops[..|ops| - 1], ops[|ops| - 1];
      var before := FirstFault(s, prior);
      if before.Some? then before else StepFault(s, prior, Created(s, prior), op)
  }

  lemma {:induction false} FirstFaultStays(s: Setting, ops: seq<Observed>, n: nat)
    requires n <= |ops| && FirstFault(s, ops[..n]).Some?
    ensures FirstFault(s, ops) == FirstFault(s, ops[..n])
    decreases |ops|
  {
    if n == |ops| {
      assert ops[..n] == ops;
    } else {
      assert ops[..|ops| - 1][..n] == ops[..n];
      FirstFaultStays(s, ops[..|ops| - 1], n);
    }
  }

  lemma FirstFaultNext(s: Setting, ops: seq<Observed>, i: nat)
    requires i < |ops| && FirstFault(s, ops[..i]).None?
    ensures FirstFault(s, ops[..i + 1]) == StepFault(s, ops[..i], Created(s, ops[..i]), ops[i])
    ensures ops[..i + 1] == ops[..i] + [ops[i]]
  {
    assert ops[..i + 1][..i] == ops[..i];
  }

  lemma {:induction false} NoFaultAccepts(s: Setting, ops: seq<Observed>)
    ensures FirstFault(s, ops).None? <==> Accepts(s, ops)
  {
    if ops != [] {
      var prior, op := ops[..|ops| - 1], ops[|ops| - 1];
      NoFaultAccepts(s, prior);
      NoFaultIff(s, prior, op);
    }
  }

  function ReadReason(context: Context, ports: Ports): Option<Reason>
    requires Ready(context, ports)
  {
    var point := ports.finalized.value.value;
    match Value(ports.context(point), point)
    case Err(fault) => Some(Faulty(fault))
    case Ok(reported) =>
      if reported != context then Some(WrongContext)
      else
        match Value(AnsweredOperations(context, ports), point)
        case Err(fault) => Some(Faulty(fault))
        case Ok(_) => None
  }

  ghost function HistoryReason(s: Setting, ops: seq<Observed>, ports: Ports): Option<Reason> {
    var fault := FirstFault(s, ops);
    if fault.Some? then Some(Faulty(fault.value))
    else
      NoFaultAccepts(s, ops);
      OrderListed(s, ops);
      FirstOutputFault(s, Created(s, ops), ports.owners, ports.keys, CreationOrder(s, ops))
  }

  function EndReason(point: Checkpoint, ports: Ports): Option<Reason> {
    match Value(ports.headerAtEnd, point)
    case Err(fault) => Some(Faulty(fault))
    case Ok(_) => if EndOk(point, ports) then None else Some(Faulty(InconsistentHistory))
  }

  // The first thing that stops a synchronization.
  ghost function ReasonOf(crypto: Crypto, context: Context, ports: Ports): Option<Reason> {
    if ports.owners == {} then Some(WrongContext)
    else if ports.finalized.None? then Some(Faulty(Rpc))
    else if !Ready(context, ports) then Some(NoFinality)
    else if ReadReason(context, ports).Some? then ReadReason(context, ports)
    else
      var s, ops := SettingOf(crypto, context, ports), Replayed(context, ports);
      if HistoryReason(s, ops, ports).Some? then HistoryReason(s, ops, ports) else EndReason(s.point, ports)
  }

  lemma NoHistoryReasonIff(s: Setting, ops: seq<Observed>, ports: Ports)
    ensures HistoryReason(s, ops, ports).None? <==> Confirmed(s, ops, ports)
    ensures HistoryReason(s, ops, ports) == Some(ReceiptRejected) ==> SomeKeysMissing(s, ops, ports)
  {
    NoFaultAccepts(s, ops);
    if Accepts(s, ops) {
      OrderListed(s, ops);
      NoOutputFaultIff(s, Created(s, ops), ports.owners, ports.keys, CreationOrder(s, ops));
    }
  }

  // Nothing stops a synchronization exactly when its history is a consistent one, every output is
  // as the chain has it and every owned one has keys; and it is refused as RECEIPT only when some
  // owned output of an accepted history has no keys.
  lemma NoReasonIff(crypto: Crypto, context: Context, ports: Ports)
    ensures ReasonOf(crypto, context, ports).None? <==> Completes(crypto, context, ports)
    ensures ReasonOf(crypto, context, ports) == Some(ReceiptRejected) ==>
      Answered(context, ports) && SomeKeysMissing(SettingOf(crypto, context, ports), Replayed(context, ports), ports)
  {
    if Answered(context, ports) {
      NoHistoryReasonIff(SettingOf(crypto, context, ports), Replayed(context, ports), ports);
    }
  }

  // The loop over the sorted operations.
  method ReplayAll(s: Setting, operations: seq<Observed>) returns (replay: Replay, fault: Option<Fault>)
    ensures replay.s == s
    ensures fault == FirstFault(s, operations)
    ensures fault.None? ==> replay.Valid() && replay.done == operations
  {
    replay := new Replay(s);
    for i := 0 to |operations|
      invariant replay.s == s && replay.Valid() && replay.done == operations[..i]
      invariant FirstFault(s, operations[..i]).None?
    {
      FirstFaultNext(s, operations, i);
      fault := replay.Apply(operations[i]);
      if fault.Some? {
        FirstFaultStays(s, operations, i + 1);
        return;
      }
    }
    assert operations[..|operations|] == operations;
    fault := None;
  }

  // Replay, then the outputs.
  method Confirm(s: Setting, operations: seq<Observed>, ports: Ports)
      returns (r: Result<(seq<Coin>, seq<(nat, ReceiptFailure)>), Reason>)
    requires s.point.mode == s.context.finalityMode
    ensures HistoryReason(s, operations, ports) == if r.Err? then Some(r.error) else None
    ensures r.Ok? ==> Confirmed(s, operations, ports) && r.value == (CoinsOf(s, operations, ports), FailuresOf(s, operations, ports))
  {
    var replay, fault := ReplayAll(s, operations);
    if fault.Some? { return Err(Faulty(fault.value)); }
    NoFaultAccepts(s, operations);
    OrderListed(s, operations);
    NoHistoryReasonIff(s, operations, ports);
    r := InspectOutputs(replay, ports.owners, ports.keys);
  }

  // The contract's own context, then all operations up to the checkpoint.
  method ReadOperations(context: Context, ports: Ports) returns (r: Result<seq<Observed>, Reason>)
    requires Ready(context, ports)
    ensures ReadReason(context, ports) == if r.Err? then Some(r.error) else None
    ensures r.Ok? ==> Answered(context, ports) && r.value == AnsweredOperations(context, ports).value
  {
    var point := ports.finalized.value.value;
    var reported := Value(ports.context(point), point);
    if reported.Err? { return Err(Faulty(reported.error)); }
    if reported.value != context { return Err(WrongContext); }
    var answer := Value(ports.operations(context.deploymentBlock, point), point);
    r := if answer.Err? then Err(Faulty(answer.error)) else Ok(answer.value);
  }

  lemma CompletesAt(crypto: Crypto, context: Context, ports: Ports)
    requires Completes(crypto, context, ports)
    ensures ReadAt(context, ports, ports.finalized.value.value)
  {
  }

  // synchronize: the reason is the first thing that stops it; when nothing does, the snapshot is
  // that of the accepted history.
  method Synchronize(crypto: Crypto, context: Context, ports: Ports, previous: Option<SyncResult>) returns (r: SyncResult)
    ensures ReasonOf(crypto, context, ports) == if r.Unconfirmed? then Some(r.reason) else None
    ensures r.Synchronized? <==> Completes(crypto, context, ports)
    ensures r.Synchronized? ==> r == Snapshot(crypto, context, ports)
    ensures r.Synchronized? ==> ReadAt(context, ports, r.checkpoint)
    ensures r.Unconfirmed? ==> r.previous == StaleOf(previous) && Remembers(previous, r.previous)
    ensures r.Unconfirmed? ==> r.known == if Ready(context, ports) then ports.finalized.value else None
  {
    NoReasonIff(crypto, context, ports);
    StaleRemembers(previous);
    if Completes(crypto, context, ports) { CompletesAt(crypto, context, ports); }
    var stale := StaleOf(previous);
    if ports.owners == {} { return Unconfirmed(None, stale, WrongContext); }
    if ports.finalized.None? { return Unconfirmed(None, stale, Faulty(Rpc)); }
    var finalized := ports.finalized.value;
    if finalized.None? || finalized.value.mode != context.finalityMode || finalized.value.number < context.deploymentBlock {
      return Unconfirmed(None, stale, NoFinality);
    }
    var point := finalized.value;
    var operations := ReadOperations(context, ports);
    if operations.Err? { return Unconfirmed(Some(point), stale, operations.error); }
    var outputs := Confirm(Setting(crypto, context, ports.history, point), Sort(operations.value, OperationBefore), ports);
    if outputs.Err? { return Unconfirmed(Some(point), stale, outputs.error); }
    var end := Value(ports.headerAtEnd, point);
    if end.Err? { return Unconfirmed(Some(point), stale, Faulty(end.error)); }
    if end.value.number != point.number || end.value.hash != point.hash {
      return Unconfirmed(Some(point), stale, Faulty(InconsistentHistory));
    }
    var (coins, failures) := outputs.value;
    r := Synchronized(point, coins, failures, AvailableWei(coins));
  }
}

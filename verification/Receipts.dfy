// Receipt inspection: the validation chain of packages/core/src/receipt.ts.
module Receipts {
  import opened Wrappers
  import opened Pool
  import opened Ledger

  datatype ReceiptReason =
    | InvalidRequest | OutputIndex | MissingSuccess | MissingOutput | OperationBinding | LogPosition | WrongCheckpoint
    | HistoryUnavailable | WrongOwner | WrongUtxoState | WrongConsumption | KeyUnavailable | DecryptFailed

  datatype ReceiptFailure = ReceiptFailure(inconsistent: bool, reason: ReceiptReason)

  datatype ReceiptState = ReceiptState(
    context: Context, creationBlock: Answer<Header>, operation: Answer<OperationSuccess>,
    utxo: Answer<UtxoState>, consuming: Option<Answer<OperationSuccess>>)

  datatype CoinStatus = Available | Spent | Pending | StatusUnknown

  datatype Coin = Coin(
    id: nat, owner: nat, opening: Opening, commitment: Point, checkpoint: Checkpoint, status: CoinStatus,
    chainId: nat, pool: nat)

  datatype ReceiptResult =
    | Received(status: CoinStatus, operationId: nat, coin: Coin, creation: Checkpoint)
    | Failed(failure: ReceiptFailure)

  // `keysOf` is None when the port throws or returns a key of the wrong form. `open` decrypts
  // the packet of an output with one key and checks the opening against its commitment.
  datatype KeyPort = KeyPort(
    keysOf: nat -> Option<seq<nat>>,
    open: (nat, Context, Request, nat) -> Option<Opening>)

  function Inconsistent(reason: ReceiptReason): Option<ReceiptFailure> { Some(ReceiptFailure(true, reason)) }

  function Unsettled(reason: ReceiptReason): Option<ReceiptFailure> { Some(ReceiptFailure(false, reason)) }

  function ObservationFailure<T>(a: Answer<T>, point: Checkpoint): Option<ReceiptFailure> {
    if !a.Complete? then Unsettled(HistoryUnavailable)
    else if a.blockHash != point.hash then Unsettled(WrongCheckpoint)
    else None
  }

  predicate StrayIndex(log: OutputLog, outputs: nat) {
    !PositionNumber(log.outputIndex) || log.outputIndex >= outputs
  }

  // The checks of output `index` against its log; `previous` is the log index of the output before.
  function LogFailure(c: Crypto, id: nat, request: Request, success: Position, logs: seq<OutputLog>, index: nat, previous: int)
    : Option<ReceiptFailure>
    requires index < |request.outputs|
  {
    var matches := MatchesOf(logs, index);
    if |matches| == 0 then Unsettled(MissingOutput)
    else if |matches| != 1 then Inconsistent(OperationBinding)
    else
      var log := matches[0];
      if log.at.operationId != id || log.output != request.outputs[index] then Inconsistent(OperationBinding)
      else if log.outputId != c.outputId(id, index) then Inconsistent(OperationBinding)
      else if log.at.blockNumber != success.blockNumber || log.at.blockHash != success.blockHash
        || log.at.transactionHash != success.transactionHash || log.at.transactionIndex != success.transactionIndex
        || !PositionNumber(log.at.logIndex) || log.at.logIndex <= previous
        || log.at.logIndex != success.logIndex - |request.outputs| + index
      then Inconsistent(LogPosition)
      else None
  }

  function LogsFailure(c: Crypto, id: nat, request: Request, success: Position, logs: seq<OutputLog>, index: nat, previous: int)
    : Option<ReceiptFailure>
    requires index <= |request.outputs|
    decreases |request.outputs| - index
  {
    if index == |request.outputs| then None
    else
      var failure := LogFailure(c, id, request, success, logs, index, previous);
      if failure.Some? then failure
      else LogsFailure(c, id, request, success, logs, index + 1, MatchesOf(logs, index)[0].at.logIndex)
  }

  function ConsumptionFailure(c: Crypto, context: Context, consumedBy: nat, consuming: Option<Answer<OperationSuccess>>,
      owner: nat, receivedId: nat, point: Checkpoint): Option<ReceiptFailure>
  {
    if consuming.None? || !consuming.value.Complete? then Unsettled(HistoryUnavailable)
    else if consuming.value.blockHash != point.hash then Unsettled(WrongCheckpoint)
    else if consuming.value.value.operation.None? then Unsettled(HistoryUnavailable)
    else
      var operation := consuming.value.value.operation.value;
      if !ValidShape(c, operation) || !consuming.value.value.executed || c.OperationId(context, operation) != consumedBy
        || operation.owner != owner || receivedId !in operation.inputIds
      then Inconsistent(WrongConsumption)
      else None
  }

  function StateFailure(c: Crypto, id: nat, request: Request, outputIndex: nat, expectedOwner: nat, state: ReceiptState, point: Checkpoint)
    : Option<ReceiptFailure>
    requires outputIndex < |request.outputs| && state.operation.Complete? && state.utxo.Complete?
  {
    var executed, utxo := state.operation.value, state.utxo.value;
    var output := request.outputs[outputIndex];
    if !executed.executed then Inconsistent(WrongUtxoState)
    else if executed.operation.Some? && c.OperationId(state.context, executed.operation.value) != id then Inconsistent(OperationBinding)
    else if output.owner != expectedOwner then Inconsistent(WrongOwner)
    else if !utxo.exists_ then Inconsistent(WrongUtxoState)
    else if utxo.owner.None? || utxo.commitment.None? then Unsettled(HistoryUnavailable)
    else if utxo.owner.value != expectedOwner then Inconsistent(WrongOwner)
    else if utxo.commitment.value != output.commitment then Inconsistent(WrongUtxoState)
    else if utxo.consumedBy.Some? then
      ConsumptionFailure(c, state.context, utxo.consumedBy.value, state.consuming, expectedOwner, c.outputId(id, outputIndex), point)
    else None
  }

  // Everything inspectReceipt checks before it asks for a key.
  function BindingFailure(c: Crypto, observed: Observed, outputIndex: int, expectedOwner: nat, state: ReceiptState, point: Checkpoint)
    : Option<ReceiptFailure>
  {
    var request := observed.request;
    if !ValidShape(c, request) then Inconsistent(InvalidRequest)
    else if !PositionNumber(outputIndex) || outputIndex >= |request.outputs| then Inconsistent(OutputIndex)
    else if observed.success.None? then Unsettled(MissingSuccess)
    else
      var success := observed.success.value;
      var id := c.OperationId(state.context, request);
      if id != success.operationId then Inconsistent(OperationBinding)
      else if point.mode != state.context.finalityMode || success.blockNumber < state.context.deploymentBlock
        || success.blockNumber > point.number then Unsettled(WrongCheckpoint)
      else if ObservationFailure(state.creationBlock, point).Some? then ObservationFailure(state.creationBlock, point)
      else if ObservationFailure(state.operation, point).Some? then ObservationFailure(state.operation, point)
      else if ObservationFailure(state.utxo, point).Some? then ObservationFailure(state.utxo, point)
      else if state.creationBlock.value.number != success.blockNumber || state.creationBlock.value.hash != success.blockHash
        || (success.blockNumber == point.number && success.blockHash != point.hash) then Inconsistent(WrongCheckpoint)
      else if !PositionNumber(success.transactionIndex) || !PositionNumber(success.logIndex) then Inconsistent(LogPosition)
      else if exists log :: log in observed.outputLogs && StrayIndex(log, |request.outputs|) then Inconsistent(OperationBinding)
      else
        var logs := LogsFailure(c, id, request, success, observed.outputLogs, 0, -1);
        if logs.Some? then logs
        else StateFailure(c, id, request, outputIndex, expectedOwner, state, point)
  }

  // The opening under the first retained key that decrypts the packet.
  function OpenWith(keys: KeyPort, candidates: seq<nat>, context: Context, request: Request, outputIndex: nat): Option<Opening> {
    if candidates == [] then None
    else
      var opening := keys.open(candidates[0], context, request, outputIndex);
      if opening.Some? then opening else OpenWith(keys, candidates[1..], context, request, outputIndex)
  }

  // Key k is the first of the list that opens the output.
  predicate FirstOpens(keys: KeyPort, candidates: seq<nat>, k: int, context: Context, request: Request, outputIndex: nat) {
    && 0 <= k < |candidates| && keys.open(candidates[k], context, request, outputIndex).Some?
    && forall j :: 0 <= j < k ==> keys.open(candidates[j], context, request, outputIndex).None?
  }

  predicate NoneOpens(keys: KeyPort, candidates: seq<nat>, context: Context, request: Request, outputIndex: nat) {
    forall k :: k in candidates ==> keys.open(k, context, request, outputIndex).None?
  }

  // Every key is tried: the opening is that of the first one that opens, and there is none exactly
  // when no key does.
  lemma {:induction false} OpenWithFirst(keys: KeyPort, candidates: seq<nat>, context: Context, request: Request, outputIndex: nat)
    ensures var o := OpenWith(keys, candidates, context, request, outputIndex);
      && (o.None? <==> NoneOpens(keys, candidates, context, request, outputIndex))
      && (o.Some? ==> exists k :: FirstOpens(keys, candidates, k, context, request, outputIndex)
                                  && o == keys.open(candidates[k], context, request, outputIndex))
  {
    if candidates != [] {
      OpenWithFirst(keys, candidates[1..], context, request, outputIndex);
      if keys.open(candidates[0], context, request, outputIndex).Some? {
        assert FirstOpens(keys, candidates, 0, context, request, outputIndex);
      } else if OpenWith(keys, candidates, context, request, outputIndex).Some? {
        var k :| FirstOpens(keys, candidates[1..], k, context, request, outputIndex)
          && OpenWith(keys, candidates, context, request, outputIndex) == keys.open(candidates[1..][k], context, request, outputIndex);
        forall j | 0 <= j < k + 1 ensures keys.open(candidates[j], context, request, outputIndex).None? {
          if j > 0 { assert candidates[j] == candidates[1..][j - 1]; }
        }
        assert candidates[k + 1] == candidates[1..][k];
        assert FirstOpens(keys, candidates, k + 1, context, request, outputIndex);
      }
    }
  }

  function Verdict(c: Crypto, observed: Observed, outputIndex: int, expectedOwner: nat, keys: KeyPort, state: ReceiptState, point: Checkpoint)
    : ReceiptResult
  {
    var failure := BindingFailure(c, observed, outputIndex, expectedOwner, state, point);
    if failure.Some? then Failed(failure.value)
    else
      var candidates := keys.keysOf(expectedOwner);
      if candidates.None? || candidates.value == [] then Failed(ReceiptFailure(false, KeyUnavailable))
      else
        var opening := OpenWith(keys, candidates.value, state.context, observed.request, outputIndex);
        if opening.None? then Failed(ReceiptFailure(true, DecryptFailed))
        else
          var output, success := observed.request.outputs[outputIndex], observed.success.value;
          var id := c.OperationId(state.context, observed.request);
          var status := if state.utxo.value.consumedBy.Some? then Spent else Available;
          Received(status, id,
            Coin(c.outputId(id, outputIndex), output.owner, opening.value, output.commitment, point, status,
                 state.context.chainId, state.context.pool),
            Checkpoint(success.blockNumber, success.blockHash, point.mode))
  }

  // The coin an output becomes under an opening.
  predicate IsCoin(c: Crypto, observed: Observed, outputIndex: nat, state: ReceiptState, point: Checkpoint, opening: Opening, coin: Coin)
    requires outputIndex < |observed.request.outputs| && observed.success.Some? && state.utxo.Complete?
  {
    && coin.id == c.outputId(observed.success.value.operationId, outputIndex)
    && coin.owner == observed.request.outputs[outputIndex].owner
    && coin.commitment == observed.request.outputs[outputIndex].commitment
    && coin.opening == opening && coin.checkpoint == point
    && coin.chainId == state.context.chainId && coin.pool == state.context.pool
    && (coin.status == Spent <==> state.utxo.value.consumedBy.Some?) && (coin.status == Spent || coin.status == Available)
  }

  // What an inspection comes to: the first thing wrong; without one, no keys, no key that opens, or
  // the coin under the opening of the first key that does.
  ghost predicate Judged(c: Crypto, observed: Observed, outputIndex: int, expectedOwner: nat, keys: KeyPort, state: ReceiptState,
      point: Checkpoint, r: ReceiptResult)
  {
    var failure, candidates := BindingFailure(c, observed, outputIndex, expectedOwner, state, point), keys.keysOf(expectedOwner);
    if failure.Some? then r == Failed(failure.value)
    else if candidates.None? || candidates.value == [] then r == Failed(ReceiptFailure(false, KeyUnavailable))
    else
      && (r.Received? <==> exists k :: k in candidates.value && keys.open(k, state.context, observed.request, outputIndex).Some?)
      && (r.Failed? ==> r.failure == ReceiptFailure(true, DecryptFailed))
      && (r.Received? ==>
            && r.status == r.coin.status && r.operationId == observed.success.value.operationId
            && r.creation == Checkpoint(observed.success.value.blockNumber, observed.success.value.blockHash, point.mode)
            && exists k :: FirstOpens(keys, candidates.value, k, state.context, observed.request, outputIndex)
                 && IsCoin(c, observed, outputIndex, state, point,
                           keys.open(candidates.value[k], state.context, observed.request, outputIndex).value, r.coin))
  }

  lemma VerdictJudged(c: Crypto, observed: Observed, outputIndex: int, expectedOwner: nat, keys: KeyPort, state: ReceiptState,
      point: Checkpoint)
    ensures Judged(c, observed, outputIndex, expectedOwner, keys, state, point,
                   Verdict(c, observed, outputIndex, expectedOwner, keys, state, point))
  {
    var candidates := keys.keysOf(expectedOwner);
    if BindingFailure(c, observed, outputIndex, expectedOwner, state, point).None? && candidates.Some? && candidates.value != [] {
      OpenWithFirst(keys, candidates.value, state.context, observed.request, outputIndex);
    }
  }

  // inspectReceipt as it runs: early returns, a pass over the outputs, then one key at a time.
  method InspectReceipt(c: Crypto, observed: Observed, outputIndex: int, expectedOwner: nat, keys: KeyPort, state: ReceiptState, point: Checkpoint)
      returns (r: ReceiptResult)
    ensures r == Verdict(c, observed, outputIndex, expectedOwner, keys, state, point)
    ensures Judged(c, observed, outputIndex, expectedOwner, keys, state, point, r)
  {
    VerdictJudged(c, observed, outputIndex, expectedOwner, keys, state, point);
    var request := observed.request;
    if !ValidShape(c, request) { return Failed(ReceiptFailure(true, InvalidRequest)); }
    if !PositionNumber(outputIndex) || outputIndex >= |request.outputs| { return Failed(ReceiptFailure(true, OutputIndex)); }
    if observed.success.None? { return Failed(ReceiptFailure(false, MissingSuccess)); }
    var success := observed.success.value;
    var id := c.OperationId(state.context, request);
    if id != success.operationId { return Failed(ReceiptFailure(true, OperationBinding)); }
    if point.mode != state.context.finalityMode || success.blockNumber < state.context.deploymentBlock
      || success.blockNumber > point.number {
      return Failed(ReceiptFailure(false, WrongCheckpoint));
    }
    var failure := ObservationFailure(state.creationBlock, point);
    if failure.Some? { return Failed(failure.value); }
    failure := ObservationFailure(state.operation, point);
    if failure.Some? { return Failed(failure.value); }
    failure := ObservationFailure(state.utxo, point);
    if failure.Some? { return Failed(failure.value); }
    if state.creationBlock.value.number != success.blockNumber || state.creationBlock.value.hash != success.blockHash
      || (success.blockNumber == point.number && success.blockHash != point.hash) {
      return Failed(ReceiptFailure(true, WrongCheckpoint));
    }
    if !PositionNumber(success.transactionIndex) || !PositionNumber(success.logIndex) {
      return Failed(ReceiptFailure(true, LogPosition));
    }
    if exists log :: log in observed.outputLogs && StrayIndex(log, |request.outputs|) {
      return Failed(ReceiptFailure(true, OperationBinding));
    }
    var previous := -1;
    for index := 0 to |request.outputs|
      invariant LogsFailure(c, id, request, success, observed.outputLogs, 0, -1)
        == LogsFailure(c, id, request, success, observed.outputLogs, index, previous)
    {
      failure := LogFailure(c, id, request, success, observed.outputLogs, index, previous);
      if failure.Some? { return Failed(failure.value); }
      previous := MatchesOf(observed.outputLogs, index)[0].at.logIndex;
    }
    failure := StateFailure(c, id, request, outputIndex, expectedOwner, state, point);
    if failure.Some? { return Failed(failure.value); }
    var candidates := keys.keysOf(expectedOwner);
    if candidates.None? || candidates.value == [] { return Failed(ReceiptFailure(false, KeyUnavailable)); }
    var output := request.outputs[outputIndex];
    for k := 0 to |candidates.value|
      invariant OpenWith(keys, candidates.value, state.context, request, outputIndex)
        == OpenWith(keys, candidates.value[k..], state.context, request, outputIndex)
    {
      assert candidates.value[k..][1..] == candidates.value[k + 1..];
      var opening := keys.open(candidates.value[k], state.context, request, outputIndex);
      if opening.Some? {
        var status := if state.utxo.value.consumedBy.Some? then Spent else Available;
        return Received(status, id,
          Coin(c.outputId(id, outputIndex), output.owner, opening.value, output.commitment, point, status,
               state.context.chainId, state.context.pool),
          Checkpoint(success.blockNumber, success.blockHash, point.mode));
      }
    }
    r := Failed(ReceiptFailure(true, DecryptFailed));
  }
}

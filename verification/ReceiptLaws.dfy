// What the receipt check accepts, said without its order of checks.
module ReceiptLaws {
  import opened Wrappers
  import opened Pool
  import opened Ledger
  import opened Receipts

  // Output i has exactly one log: the one the Pool emits for it, in its place before the success event.
  predicate LoggedInPlace(c: Crypto, id: nat, observed: Observed, i: nat)
    requires i < |observed.request.outputs| && observed.success.Some?
  {
    var success := observed.success.value;
    var place := success.logIndex - |observed.request.outputs| + i;
    && PositionNumber(place)
    && MatchesOf(observed.outputLogs, i) == [OutputLog(
         Position(id, success.blockNumber, success.blockHash, success.transactionHash, success.transactionIndex, place),
         c.outputId(id, i), i, observed.request.outputs[i])]
  }

  // The spender of the output, as the chain records it, is an operation of its owner that consumes it.
  predicate SpentByOwner(c: Crypto, context: Context, consumedBy: nat, consuming: Option<Answer<OperationSuccess>>, owner: nat,
      receivedId: nat, point: Checkpoint)
  {
    && consuming.Some? && Bound(consuming.value, point) && consuming.value.value.executed
    && consuming.value.value.operation.Some?
    && var operation := consuming.value.value.operation.value;
    && ValidShape(c, operation) && c.OperationId(context, operation) == consumedBy && operation.owner == owner
    && receivedId in operation.inputIds
  }

  // A receipt bound to the chain: a well-formed request, executed in a canonical block of the
  // observed range with exactly the logs it should have, and an output the chain holds for its owner.
  ghost predicate ReceiptBound(c: Crypto, observed: Observed, index: int, owner: nat, state: ReceiptState, point: Checkpoint) {
    && ValidShape(c, observed.request) && 0 <= index < |observed.request.outputs|
    && observed.success.Some?
    && var request, success := observed.request, observed.success.value;
    && var id := c.OperationId(state.context, request);
    && id == success.operationId
    && point.mode == state.context.finalityMode && state.context.deploymentBlock <= success.blockNumber <= point.number
    && Bound(state.creationBlock, point) && Bound(state.operation, point) && Bound(state.utxo, point)
    && state.creationBlock.value == Header(success.blockNumber, success.blockHash)
    && (success.blockNumber == point.number ==> success.blockHash == point.hash)
    && PositionNumber(success.transactionIndex) && PositionNumber(success.logIndex)
    && (forall log :: log in observed.outputLogs ==> 0 <= log.outputIndex < |request.outputs|)
    && (forall i :: 0 <= i < |request.outputs| ==> LoggedInPlace(c, id, observed, i))
    && state.operation.value.executed
    && (state.operation.value.operation.Some? ==> c.OperationId(state.context, state.operation.value.operation.value) == id)
    && request.outputs[index].owner == owner
    && state.utxo.value.exists_ && state.utxo.value.owner == Some(owner)
    && state.utxo.value.commitment == Some(request.outputs[index].commitment)
    && (state.utxo.value.consumedBy.Some? ==>
          SpentByOwner(c, state.context, state.utxo.value.consumedBy.value, state.consuming, owner, c.outputId(id, index), point))
  }

  lemma LogInPlace(c: Crypto, id: nat, observed: Observed, i: nat, previous: int)
    requires i < |observed.request.outputs| && observed.success.Some? && id == observed.success.value.operationId
    requires previous < observed.success.value.logIndex - |observed.request.outputs| + i || previous == -1
    ensures LogFailure(c, id, observed.request, observed.success.value, observed.outputLogs, i, previous).None?
      <==> LoggedInPlace(c, id, observed, i)
  {
    var matches := MatchesOf(observed.outputLogs, i);
    MatchIndex(observed.outputLogs, i);
    if |matches| == 1 { assert matches == [matches[0]]; }
  }

  lemma {:induction false} MatchIndex(logs: seq<OutputLog>, i: int)
    ensures forall j :: 0 <= j < |MatchesOf(logs, i)| ==> MatchesOf(logs, i)[j].outputIndex == i
  {
    if logs != [] { MatchIndex(logs[1..], i); }
  }

  // The comparison with the log before it is implied by each log's own place.
  lemma {:induction false} LogsInPlace(c: Crypto, id: nat, observed: Observed, index: nat, previous: int)
    requires index <= |observed.request.outputs| && observed.success.Some? && id == observed.success.value.operationId
    requires previous < observed.success.value.logIndex - |observed.request.outputs| + index || previous == -1
    ensures LogsFailure(c, id, observed.request, observed.success.value, observed.outputLogs, index, previous).None?
      <==> forall i :: index <= i < |observed.request.outputs| ==> LoggedInPlace(c, id, observed, i)
    decreases |observed.request.outputs| - index
  {
    if index < |observed.request.outputs| {
      LogInPlace(c, id, observed, index, previous);
      if LoggedInPlace(c, id, observed, index) {
        LogsInPlace(c, id, observed, index + 1, MatchesOf(observed.outputLogs, index)[0].at.logIndex);
      }
    }
  }

  lemma StateInOrder(c: Crypto, id: nat, request: Request, index: nat, owner: nat, state: ReceiptState, point: Checkpoint)
    requires index < |request.outputs| && Bound(state.operation, point) && Bound(state.utxo, point)
    ensures StateFailure(c, id, request, index, owner, state, point).None? <==>
      && state.operation.value.executed
      && (state.operation.value.operation.Some? ==> c.OperationId(state.context, state.operation.value.operation.value) == id)
      && request.outputs[index].owner == owner
      && state.utxo.value.exists_ && state.utxo.value.owner == Some(owner)
      && state.utxo.value.commitment == Some(request.outputs[index].commitment)
      && (state.utxo.value.consumedBy.Some? ==>
            SpentByOwner(c, state.context, state.utxo.value.consumedBy.value, state.consuming, owner, c.outputId(id, index), point))
  {
  }

  // Everything before the keys passes exactly when the receipt is bound to the chain.
  lemma BindingExact(c: Crypto, observed: Observed, index: int, owner: nat, state: ReceiptState, point: Checkpoint)
    ensures BindingFailure(c, observed, index, owner, state, point).None? <==> ReceiptBound(c, observed, index, owner, state, point)
  {
    if observed.success.Some? && 0 <= index < |observed.request.outputs| && ValidShape(c, observed.request)
      && c.OperationId(state.context, observed.request) == observed.success.value.operationId {
      LogsInPlace(c, observed.success.value.operationId, observed, 0, -1);
      if Bound(state.operation, point) && Bound(state.utxo, point) {
        StateInOrder(c, observed.success.value.operationId, observed.request, index, owner, state, point);
      }
    }
  }

  // What an inconsistency means: a receipt is called unsettled only for what an adapter may still
  // deliver, and inconsistent for everything else that is wrong with it.
  lemma UnsettledMeans(c: Crypto, observed: Observed, index: int, owner: nat, state: ReceiptState, point: Checkpoint)
    requires var f := BindingFailure(c, observed, index, owner, state, point); f.Some? && !f.value.inconsistent
    ensures
      || observed.success.None?
      || point.mode != state.context.finalityMode || observed.success.value.blockNumber < state.context.deploymentBlock
      || observed.success.value.blockNumber > point.number
      || !Bound(state.creationBlock, point) || !Bound(state.operation, point) || !Bound(state.utxo, point)
      || (exists i :: 0 <= i < |observed.request.outputs| && MatchesOf(observed.outputLogs, i) == [])
      || state.utxo.value.owner.None? || state.utxo.value.commitment.None?
      || (state.utxo.value.consumedBy.Some?
          && (state.consuming.None? || !Bound(state.consuming.value, point) || state.consuming.value.value.operation.None?))
  {
    if observed.success.Some? && 0 <= index < |observed.request.outputs| {
      UnsettledLogs(c, c.OperationId(state.context, observed.request), observed.request, observed.success.value, observed.outputLogs, 0, -1);
    }
  }

  lemma {:induction false} UnsettledLogs(c: Crypto, id: nat, request: Request, success: Position, logs: seq<OutputLog>, index: nat,
      previous: int)
    requires index <= |request.outputs|
    ensures var f := LogsFailure(c, id, request, success, logs, index, previous);
      f.Some? && !f.value.inconsistent ==> exists i :: 0 <= i < |request.outputs| && MatchesOf(logs, i) == []
    decreases |request.outputs| - index
  {
    if index < |request.outputs| && LogFailure(c, id, request, success, logs, index, previous).None? {
      UnsettledLogs(c, id, request, success, logs, index + 1, MatchesOf(logs, index)[0].at.logIndex);
    }
  }
}

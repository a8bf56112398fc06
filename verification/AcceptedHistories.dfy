// Which histories the replay accepts, said all at once: each operation by itself, any two of them,
// and the ledger of all; no operation-by-operation bookkeeping.
module AcceptedHistories {
  import opened Sorting
  import opened Pool
  import opened Ledger
  import opened LedgerLaws
  import opened LogLayout
  import opened ReceiptLaws

  // Every log of the operation is of its own transaction, at a place that can be one.
  predicate OwnLogs(op: Observed)
    requires op.success.Some?
  {
    var event := op.success.value;
    forall at :: at in LogsOf(op) ==>
      && 0 <= at.transactionIndex <= MAX_SAFE_INTEGER && 0 <= at.logIndex <= MAX_SAFE_INTEGER
      && at == Position(event.operationId, event.blockNumber, event.blockHash, event.transactionHash, event.transactionIndex, at.logIndex)
  }

  // An operation by itself: a well-formed request, executed in a canonical block of the range, as
  // the contract records it, with one log for each input and output, in their order before the
  // success event.
  ghost predicate Stands(s: Setting, op: Observed) {
    && ValidShape(s.crypto, op.request) && op.success.Some?
    && var event, inputs := op.success.value, op.inputLogs.GetOr([]);
    && var id := s.crypto.OperationId(s.context, op.request);
    && event.operationId == id
    && s.context.deploymentBlock <= event.blockNumber <= s.point.number
    && s.history.header(event.blockNumber, s.point) == Complete(s.point.hash, Header(event.blockNumber, event.blockHash))
    && (event.blockNumber == s.point.number ==> event.blockHash == s.point.hash)
    && OwnLogs(op)
    && |inputs| == |op.request.inputIds| && |op.outputLogs| == |op.request.outputs|
    && (forall i :: 0 <= i < |inputs| ==>
          var log := Sort(inputs, InputLogBefore)[i];
          log.inputId == op.request.inputIds[i] && log.at.logIndex == event.logIndex - |op.request.outputs| - |inputs| + i)
    && (forall i :: 0 <= i < |op.request.outputs| ==> LoggedInPlace(s.crypto, id, op, i))
    && var state := s.history.operationSuccess(id, s.point);
    && state.Complete? && state.blockHash == s.point.hash && state.value.executed
    && (state.value.operation.Some? ==> s.crypto.OperationId(s.context, state.value.operation.value) == id)
  }

  // Two operations: different ids, no log in the same place, and the same transaction exactly when
  // at the same place of the chain.
  ghost predicate Apart(s: Setting, p: Observed, op: Observed) {
    && s.crypto.OperationId(s.context, p.request) != s.crypto.OperationId(s.context, op.request)
    && (p.success.Some? && op.success.Some? ==>
          && (forall a, b :: a in LogsOf(p) && b in LogsOf(op) ==> !(a.blockNumber == b.blockNumber && a.logIndex == b.logIndex))
          && (p.success.value.transactionHash == op.success.value.transactionHash <==>
                p.success.value.blockNumber == op.success.value.blockNumber
                && p.success.value.transactionIndex == op.success.value.transactionIndex))
  }

  // The logs of an operation start after the success event before it, in one block.
  predicate StartsAfter(p: Observed, op: Observed) {
    p.success.Some? && op.success.Some? && p.success.value.blockNumber == op.success.value.blockNumber ==>
      p.success.value.logIndex < op.success.value.logIndex - |op.inputLogs.GetOr([])| - |op.request.outputs|
  }

  ghost predicate Consistent(s: Setting, ops: seq<Observed>) {
    && (forall k :: 0 <= k < |ops| ==> Stands(s, ops[k]))
    && (forall j, k :: 0 <= j < k < |ops| ==> Apart(s, ops[j], ops[k]))
    && (forall k :: 1 <= k < |ops| ==> StartsAfter(ops[k - 1], ops[k]))
    && Custody(s, ops)
  }

  // ----- One operation -----

  lemma OwnLogsIff(op: Observed)
    requires op.success.Some?
    ensures LogsOk(op) <==> OwnLogs(op)
  {
    if LogsOk(op) {
      forall at | at in LogsOf(op)
        ensures 0 <= at.transactionIndex <= MAX_SAFE_INTEGER && 0 <= at.logIndex <= MAX_SAFE_INTEGER && LogOf(at, op.success.value)
      {
        var i :| 0 <= i < |LogsOf(op)| && LogsOf(op)[i] == at;
      }
    }
    if OwnLogs(op) {
      forall i | 0 <= i < |LogsOf(op)| ensures LogOf(LogsOf(op)[i], op.success.value) {
        assert LogsOf(op)[i] in LogsOf(op);
      }
    }
  }

  lemma PlacedIff(s: Setting, op: Observed, i: nat)
    requires op.success.Some? && i < |op.request.outputs| && OwnLogs(op) && op.success.value.operationId == IdOf(s, op)
    ensures OutputInPlace(s, op, i) <==> LoggedInPlace(s.crypto, IdOf(s, op), op, i)
  {
    var matches := MatchesOf(op.outputLogs, i);
    MatchIndex(op.outputLogs, i);
    MatchesMembers(op.outputLogs, i);
    if |matches| == 1 {
      assert matches[0] in matches;
      var j :| 0 <= j < |op.outputLogs| && op.outputLogs[j] == matches[0];
      assert LogsOf(op)[|InputsOf(op)| + j] == matches[0].at;
      assert matches == [matches[0]];
    }
  }

  lemma HeaderIff(s: Setting, event: Position)
    ensures HeaderOk(s, event) <==>
      && s.history.header(event.blockNumber, s.point) == Complete(s.point.hash, Header(event.blockNumber, event.blockHash))
      && (event.blockNumber == s.point.number ==> event.blockHash == s.point.hash)
  {
  }

  lemma StandsIff(s: Setting, op: Observed)
    ensures Stands(s, op) <==> LocalOk(s, op)
  {
    if op.success.Some? {
      OwnLogsIff(op);
      HeaderIff(s, op.success.value);
      if OwnLogs(op) && op.success.value.operationId == IdOf(s, op) {
        forall i | 0 <= i < |op.request.outputs| ensures OutputInPlace(s, op, i) <==> LoggedInPlace(s.crypto, IdOf(s, op), op, i) {
          PlacedIff(s, op, i);
        }
        if LocalOk(s, op) { LocalStands(s, op); } else if Stands(s, op) { StandsLocal(s, op); }
      }
    }
  }

  lemma LocalStands(s: Setting, op: Observed)
    requires LocalOk(s, op) && OwnLogs(op)
    requires forall i :: 0 <= i < |op.request.outputs| ==> LoggedInPlace(s.crypto, IdOf(s, op), op, i)
    ensures Stands(s, op)
  {
    HeaderIff(s, op.success.value);
    forall i | 0 <= i < |InputsOf(op)|
      ensures var log := Sort(InputsOf(op), InputLogBefore)[i];
        log.inputId == op.request.inputIds[i]
        && log.at.logIndex == op.success.value.logIndex - |op.request.outputs| - |InputsOf(op)| + i
    {
      assert InputInPlace(op, i);
    }
  }

  lemma StandsLocal(s: Setting, op: Observed)
    requires Stands(s, op) && LogsOk(op)
    requires forall i :: 0 <= i < |op.request.outputs| ==> OutputInPlace(s, op, i)
    ensures LocalOk(s, op)
  {
    HeaderIff(s, op.success.value);
    forall i | 0 <= i < |op.request.inputIds| ensures InputInPlace(op, i) {
      assert Sort(InputsOf(op), InputLogBefore)[i] == SortedInputs(op)[i];
    }
  }

  // ----- All operations -----

  ghost predicate StepsTo(s: Setting, ops: seq<Observed>, n: nat)
    requires n <= |ops|
  {
    forall k :: 0 <= k < n ==> AcceptStep(s, ops[..k], ops[k])
  }

  lemma PrefixNext<T>(xs: seq<T>, n: nat)
    requires n < |xs|
    ensures xs[..n + 1] != [] && xs[..n + 1][..|xs[..n + 1]| - 1] == xs[..n] && xs[..n + 1][|xs[..n + 1]| - 1] == xs[n]
  {
  }

  lemma AcceptsNext(s: Setting, prior: seq<Observed>, op: Observed, longer: seq<Observed>)
    requires longer != [] && longer[..|longer| - 1] == prior && longer[|longer| - 1] == op
    ensures Accepts(s, longer) <==> Accepts(s, prior) && AcceptStep(s, prior, op)
  {
  }

  lemma StepsNext(s: Setting, ops: seq<Observed>, n: nat)
    requires n < |ops|
    ensures StepsTo(s, ops, n + 1) <==> StepsTo(s, ops, n) && AcceptStep(s, ops[..n], ops[n])
  {
  }

  lemma AcceptsSteps(s: Setting, ops: seq<Observed>)
    ensures Accepts(s, ops) <==> StepsTo(s, ops, |ops|)
  {
    assert ops[..0] == [];
    for n := 0 to |ops|
      invariant Accepts(s, ops[..n]) <==> StepsTo(s, ops, n)
    {
      PrefixNext(ops, n);
      AcceptsNext(s, ops[..n], ops[n], ops[..n + 1]);
      StepsNext(s, ops, n);
    }
    assert ops[..|ops|] == ops;
  }

  ghost predicate LedgerTo(s: Setting, ops: seq<Observed>, n: nat)
    requires n <= |ops|
  {
    forall k :: 0 <= k < n ==> LedgerStep(s, ops[..k], ops[k])
  }

  lemma LedgerNext(s: Setting, prior: seq<Observed>, op: Observed, longer: seq<Observed>)
    requires longer != [] && longer[..|longer| - 1] == prior && longer[|longer| - 1] == op
    ensures LedgerOk(s, longer) <==> LedgerOk(s, prior) && LedgerStep(s, prior, op)
  {
  }

  lemma LedgerToNext(s: Setting, ops: seq<Observed>, n: nat)
    requires n < |ops|
    ensures LedgerTo(s, ops, n + 1) <==> LedgerTo(s, ops, n) && LedgerStep(s, ops[..n], ops[n])
  {
  }

  lemma LedgerSteps(s: Setting, ops: seq<Observed>)
    ensures LedgerOk(s, ops) <==> LedgerTo(s, ops, |ops|)
  {
    assert ops[..0] == [];
    for n := 0 to |ops|
      invariant LedgerOk(s, ops[..n]) <==> LedgerTo(s, ops, n)
    {
      PrefixNext(ops, n);
      LedgerNext(s, ops[..n], ops[n], ops[..n + 1]);
      LedgerToNext(s, ops, n);
    }
    assert ops[..|ops|] == ops;
  }

  // What one step asks of the operations before it.
  ghost predicate StepApart(s: Setting, ops: seq<Observed>, k: nat)
    requires k < |ops|
  {
    && (forall j :: 0 <= j < k ==> Apart(s, ops[j], ops[k]))
    && (k >= 1 ==> StartsAfter(ops[k - 1], ops[k]))
  }

  lemma ApartIff(s: Setting, p: Observed, op: Observed)
    requires p.success.Some? && op.success.Some?
    ensures Apart(s, p, op) <==>
      && IdOf(s, p) != IdOf(s, op) && SameTransactions(p, op)
      && (forall i :: 0 <= i < |LogsOf(op)| ==> !HasLogAt(p, PlaceOf(LogsOf(op)[i])))
  {
    if Apart(s, p, op) {
      forall i | 0 <= i < |LogsOf(op)| ensures !HasLogAt(p, PlaceOf(LogsOf(op)[i])) {
        assert LogsOf(op)[i] in LogsOf(op);
      }
    }
    if forall i :: 0 <= i < |LogsOf(op)| ==> !HasLogAt(p, PlaceOf(LogsOf(op)[i])) {
      forall a, b | a in LogsOf(p) && b in LogsOf(op) ensures !(a.blockNumber == b.blockNumber && a.logIndex == b.logIndex) {
        var i :| 0 <= i < |LogsOf(op)| && LogsOf(op)[i] == b;
        assert !HasLogAt(p, PlaceOf(LogsOf(op)[i]));
      }
    }
  }

  // The parts of one step that speak of the operations before it.
  ghost predicate PriorOk(s: Setting, ops: seq<Observed>, k: nat)
    requires k < |ops| && ops[k].success.Some?
  {
    && IdNew(s, ops[..k], ops[k]) && LogsNew(ops[..k], ops[k]) && AfterLast(ops[..k], ops[k])
    && forall p :: p in ops[..k] ==> SameTransactions(p, ops[k])
  }

  lemma PriorIff(s: Setting, ops: seq<Observed>, k: nat)
    requires k < |ops| && LocalOk(s, ops[k]) && forall j :: 0 <= j < k ==> LocalOk(s, ops[j])
    ensures PriorOk(s, ops, k) <==> StepApart(s, ops, k)
  {
    LogsFillInterval(s, ops[k]);
    if PriorOk(s, ops, k) { PriorApart(s, ops, k); }
    if StepApart(s, ops, k) { ApartPrior(s, ops, k); }
  }

  lemma PriorApart(s: Setting, ops: seq<Observed>, k: nat)
    requires k < |ops| && LocalOk(s, ops[k]) && (forall j :: 0 <= j < k ==> LocalOk(s, ops[j])) && PriorOk(s, ops, k)
    ensures StepApart(s, ops, k)
  {
    forall j | 0 <= j < k ensures Apart(s, ops[j], ops[k]) {
      assert ops[..k][j] == ops[j] && ops[j] in ops[..k];
      ApartIff(s, ops[j], ops[k]);
    }
    if k >= 1 { assert ops[..k][|ops[..k]| - 1] == ops[k - 1]; }
  }

  lemma ApartPrior(s: Setting, ops: seq<Observed>, k: nat)
    requires k < |ops| && LocalOk(s, ops[k]) && (forall j :: 0 <= j < k ==> LocalOk(s, ops[j])) && StepApart(s, ops, k)
    requires forall i, j :: 0 <= i < j < |LogsOf(ops[k])| ==> PlaceOf(LogsOf(ops[k])[i]) != PlaceOf(LogsOf(ops[k])[j])
    ensures PriorOk(s, ops, k)
  {
    forall p | p in ops[..k]
      ensures IdOf(s, p) != IdOf(s, ops[k]) && SameTransactions(p, ops[k])
        && forall i :: 0 <= i < |LogsOf(ops[k])| ==> !HasLogAt(p, PlaceOf(LogsOf(ops[k])[i]))
    {
      var j :| 0 <= j < k && ops[j] == p;
      ApartIff(s, ops[j], ops[k]);
    }
    if k >= 1 { assert ops[..k][|ops[..k]| - 1] == ops[k - 1]; }
  }

  lemma StepIff(s: Setting, ops: seq<Observed>, k: nat)
    requires k < |ops|
    ensures AcceptStep(s, ops[..k], ops[k]) <==>
      LocalOk(s, ops[k]) && PriorOk(s, ops, k) && LedgerStep(s, ops[..k], ops[k])
  {
  }

  // The replay accepts a history exactly when it is consistent.
  lemma AcceptsIff(s: Setting, ops: seq<Observed>)
    ensures Accepts(s, ops) <==> Consistent(s, ops)
  {
    AcceptsSteps(s, ops);
    LedgerSteps(s, ops);
    LedgerIffCustody(s, ops);
    if Accepts(s, ops) { AcceptedConsistent(s, ops); }
    if Consistent(s, ops) { ConsistentAccepted(s, ops); }
  }

  lemma AcceptedConsistent(s: Setting, ops: seq<Observed>)
    requires StepsTo(s, ops, |ops|) && (LedgerTo(s, ops, |ops|) ==> Custody(s, ops))
    ensures Consistent(s, ops)
  {
    forall k | 0 <= k < |ops| ensures LocalOk(s, ops[k]) && Stands(s, ops[k]) && LedgerStep(s, ops[..k], ops[k]) {
      StepIff(s, ops, k);
      StandsIff(s, ops[k]);
    }
    forall k | 0 <= k < |ops| ensures StepApart(s, ops, k) {
      StepIff(s, ops, k);
      PriorIff(s, ops, k);
    }
    StepsApart(s, ops);
  }

  lemma StepsApart(s: Setting, ops: seq<Observed>)
    requires forall k :: 0 <= k < |ops| ==> StepApart(s, ops, k)
    ensures forall j, k :: 0 <= j < k < |ops| ==> Apart(s, ops[j], ops[k])
    ensures forall k :: 1 <= k < |ops| ==> StartsAfter(ops[k - 1], ops[k])
  {
    forall k | 1 <= k < |ops| ensures StartsAfter(ops[k - 1], ops[k]) { assert StepApart(s, ops, k); }
    forall j, k | 0 <= j < k < |ops| ensures Apart(s, ops[j], ops[k]) { assert StepApart(s, ops, k); }
  }

  lemma ConsistentAccepted(s: Setting, ops: seq<Observed>)
    requires Consistent(s, ops) && LedgerTo(s, ops, |ops|)
    ensures StepsTo(s, ops, |ops|)
  {
    forall k | 0 <= k < |ops| ensures LocalOk(s, ops[k]) { StandsIff(s, ops[k]); }
    forall k | 0 <= k < |ops| ensures AcceptStep(s, ops[..k], ops[k]) {
      PriorIff(s, ops, k);
      StepIff(s, ops, k);
    }
  }
}

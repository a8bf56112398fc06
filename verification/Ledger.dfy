// What it means for the operations of a Pool, in chain order, to be a consistent history: the
// acceptance of packages/core/src/sync.ts said one operation at a time, and the ledger behind
// it. The loop that decides it is in Synchronizer; this module is its specification.
module Ledger {
  import opened Wrappers
  import opened Sorting
  import opened Pool

  // What the history adapter answers about the state at a checkpoint, fixed for one
  // synchronization.
  datatype History = History(
    header: (nat, Checkpoint) -> Answer<Header>,
    operationSuccess: (nat, Checkpoint) -> Answer<OperationSuccess>,
    utxo: (nat, Checkpoint) -> Answer<UtxoState>)

  // Everything the replay of one synchronization refers to.
  datatype Setting = Setting(crypto: Crypto, context: Context, history: History, point: Checkpoint)

  predicate Bound<T>(a: Answer<T>, point: Checkpoint) {
    a.Complete? && a.blockHash == point.hash
  }

  function IdOf(s: Setting, op: Observed): nat {
    s.crypto.OperationId(s.context, op.request)
  }

  function InputsOf(op: Observed): seq<InputLog> {
    op.inputLogs.GetOr([])
  }

  function SortedInputs(op: Observed): seq<InputLog> {
    Sort(InputsOf(op), InputLogBefore)
  }

  // ----- One operation by itself -----

  predicate HeaderOk(s: Setting, event: Position) {
    var a := s.history.header(event.blockNumber, s.point);
    && Bound(a, s.point)
    && a.value.number == event.blockNumber && a.value.hash == event.blockHash
    && (a.value.number == s.point.number ==> a.value.hash == s.point.hash)
  }

  predicate EventOk(s: Setting, op: Observed) {
    && ValidShape(s.crypto, op.request)
    && op.success.Some?
    && var event := op.success.value;
    && event.operationId == IdOf(s, op)
    && s.context.deploymentBlock <= event.blockNumber <= s.point.number
    && HeaderOk(s, event)
    && |InputsOf(op)| == |op.request.inputIds| && |op.outputLogs| == |op.request.outputs|
  }

  // A log of the operation's own transaction.
  predicate LogOf(at: Position, event: Position) {
    && PositionNumber(at.transactionIndex) && PositionNumber(at.logIndex)
    && at.blockNumber == event.blockNumber && at.blockHash == event.blockHash
    && at.transactionHash == event.transactionHash && at.transactionIndex == event.transactionIndex
    && at.operationId == event.operationId
  }

  // Positions of all logs: inputs, outputs, success, as the adapter lists them.
  function LogsOf(op: Observed): seq<Position>
    requires op.success.Some?
  {
    seq(|InputsOf(op)|, i requires 0 <= i < |InputsOf(op)| => InputsOf(op)[i].at)
    + seq(|op.outputLogs|, i requires 0 <= i < |op.outputLogs| => op.outputLogs[i].at)
    + [op.success.value]
  }

  predicate LogsOk(op: Observed)
    requires op.success.Some?
  {
    forall i :: 0 <= i < |LogsOf(op)| ==> LogOf(LogsOf(op)[i], op.success.value)
  }

  function FirstLog(op: Observed): int
    requires op.success.Some?
  {
    op.success.value.logIndex - |InputsOf(op)| - |op.request.outputs|
  }

  predicate InputInPlace(op: Observed, i: nat)
    requires op.success.Some? && |InputsOf(op)| == |op.request.inputIds| && i < |op.request.inputIds|
  {
    SortedInputs(op)[i].inputId == op.request.inputIds[i] && SortedInputs(op)[i].at.logIndex == FirstLog(op) + i
  }

  // Output i has exactly one log, in its place and with its content.
  predicate OutputInPlace(s: Setting, op: Observed, i: nat)
    requires op.success.Some? && i < |op.request.outputs|
  {
    var matches := MatchesOf(op.outputLogs, i);
    && |matches| == 1
    && matches[0].outputId == s.crypto.outputId(IdOf(s, op), i)
    && matches[0].at.logIndex == op.success.value.logIndex - |op.request.outputs| + i
    && matches[0].output == op.request.outputs[i]
  }

  function MatchesOf(logs: seq<OutputLog>, i: int): seq<OutputLog> {
    if logs == [] then []
    else (if logs[0].outputIndex == i then [logs[0]] else []) + MatchesOf(logs[1..], i)
  }

  // The contract's own record says that operation `id` was executed.
  predicate ExecutedAs(s: Setting, id: nat) {
    var a := s.history.operationSuccess(id, s.point);
    && Bound(a, s.point) && a.value.executed
    && (a.value.operation.Some? ==> s.crypto.OperationId(s.context, a.value.operation.value) == id)
  }

  // Everything the replay asks of one operation, whatever came before it.
  predicate LocalOk(s: Setting, op: Observed) {
    && EventOk(s, op) && LogsOk(op)
    && (forall i :: 0 <= i < |op.request.inputIds| ==> InputInPlace(op, i))
    && (forall i :: 0 <= i < |op.request.outputs| ==> OutputInPlace(s, op, i))
    && ExecutedAs(s, IdOf(s, op))
  }

  // ----- The ledger -----

  // One created output; `consumedBy` names the operation that spent it.
  datatype Entry = Entry(observed: Observed, index: nat, consumedBy: Option<nat>)

  function Consume(created: map<nat, Entry>, ids: seq<nat>, spender: nat): map<nat, Entry> {
    map id | id in created :: if id in ids then created[id].(consumedBy := Some(spender)) else created[id]
  }

  // The first n outputs of op become entries.
  function Create(s: Setting, created: map<nat, Entry>, op: Observed, n: nat): map<nat, Entry>
    requires n <= |op.request.outputs|
  {
    if n == 0 then created
    else Create(s, created, op, n - 1)[s.crypto.outputId(IdOf(s, op), n - 1) := Entry(op, n - 1, None)]
  }

  function Created(s: Setting, ops: seq<Observed>): map<nat, Entry> {
    if ops == [] then map[]
    else
      var op := ops[|ops| - 1];
      Create(s, Consume(Created(s, ops[..|ops| - 1]), op.request.inputIds, IdOf(s, op)), op, |op.request.outputs|)
  }

  function OutputIds(s: Setting, op: Observed): seq<nat> {
    seq<nat>(|op.request.outputs|, i requires 0 <= i < |op.request.outputs| => s.crypto.outputId(IdOf(s, op), i))
  }

  // Created ids in the order of their creation.
  function CreationOrder(s: Setting, ops: seq<Observed>): seq<nat> {
    if ops == [] then [] else CreationOrder(s, ops[..|ops| - 1]) + OutputIds(s, ops[|ops| - 1])
  }

  // Input i names an unspent output of the spender.
  predicate Spendable(created: map<nat, Entry>, op: Observed, i: nat)
    requires i < |op.request.inputIds|
  {
    var id := op.request.inputIds[i];
    && id in created && created[id].consumedBy.None?
    && created[id].index < |created[id].observed.request.outputs|
    && created[id].observed.request.outputs[created[id].index].owner == op.request.owner
  }

  predicate OutputsNew(s: Setting, created: map<nat, Entry>, op: Observed) {
    var ids := OutputIds(s, op);
    && (forall i :: 0 <= i < |ids| ==> ids[i] !in created)
    && (forall i, j :: 0 <= i < j < |ids| ==> ids[i] != ids[j])
  }

  predicate LedgerStep(s: Setting, prior: seq<Observed>, op: Observed) {
    && (forall i :: 0 <= i < |op.request.inputIds| ==> Spendable(Created(s, prior), op, i))
    && OutputsNew(s, Created(s, prior), op)
  }

  predicate LedgerOk(s: Setting, ops: seq<Observed>) {
    ops == [] || (LedgerOk(s, ops[..|ops| - 1]) && LedgerStep(s, ops[..|ops| - 1], ops[|ops| - 1]))
  }

  // ----- One operation after the others -----

  function PlaceOf(at: Position): (nat, int) { (at.blockNumber, at.logIndex) }

  function TransactionOf(at: Position): (nat, int) { (at.blockNumber, at.transactionIndex) }

  predicate HasLogAt(op: Observed, place: (nat, int)) {
    op.success.Some? && exists at :: at in LogsOf(op) && PlaceOf(at) == place
  }

  predicate LogsNew(prior: seq<Observed>, op: Observed)
    requires op.success.Some?
  {
    var logs := LogsOf(op);
    && (forall i, j :: 0 <= i < j < |logs| ==> PlaceOf(logs[i]) != PlaceOf(logs[j]))
    && (forall p, i :: p in prior && 0 <= i < |logs| ==> !HasLogAt(p, PlaceOf(logs[i])))
  }

  predicate AfterLast(prior: seq<Observed>, op: Observed)
    requires op.success.Some?
  {
    prior != [] && prior[|prior| - 1].success.Some? ==>
      var last := prior[|prior| - 1].success.value;
      last.blockNumber == op.success.value.blockNumber ==> last.logIndex < FirstLog(op)
  }

  // Transactions and their places correspond one to one.
  predicate SameTransactions(p: Observed, op: Observed) {
    p.success.Some? && op.success.Some? ==>
      var a, b := p.success.value, op.success.value;
      a.transactionHash == b.transactionHash <==> TransactionOf(a) == TransactionOf(b)
  }

  predicate IdNew(s: Setting, prior: seq<Observed>, op: Observed) {
    forall p :: p in prior ==> IdOf(s, p) != IdOf(s, op)
  }

  predicate AcceptStep(s: Setting, prior: seq<Observed>, op: Observed) {
    && LocalOk(s, op)
    && IdNew(s, prior, op)
    && LogsNew(prior, op) && AfterLast(prior, op)
    && (forall p :: p in prior ==> SameTransactions(p, op))
    && LedgerStep(s, prior, op)
  }

  predicate Accepts(s: Setting, ops: seq<Observed>) {
    ops == [] || (Accepts(s, ops[..|ops| - 1]) && AcceptStep(s, ops[..|ops| - 1], ops[|ops| - 1]))
  }

  lemma {:induction false} AcceptsPrefix(s: Setting, ops: seq<Observed>, n: nat)
    requires Accepts(s, ops) && n <= |ops|
    ensures Accepts(s, ops[..n])
    decreases |ops|
  {
    if n < |ops| {
      AcceptsPrefix(s, ops[..|ops| - 1], n);
      assert ops[..|ops| - 1][..n] == ops[..n];
    } else {
      assert ops[..n] == ops;
    }
  }

  lemma AcceptedAt(s: Setting, ops: seq<Observed>, k: nat)
    requires Accepts(s, ops) && k < |ops|
    ensures AcceptStep(s, ops[..k], ops[k]) && Accepts(s, ops[..k])
  {
    AcceptsPrefix(s, ops, k + 1);
    assert ops[..k + 1][..k] == ops[..k];
  }

  lemma {:induction false} AcceptedLedger(s: Setting, ops: seq<Observed>)
    requires Accepts(s, ops)
    ensures LedgerOk(s, ops)
  {
    if ops != [] {
      AcceptedLedger(s, ops[..|ops| - 1]);
    }
  }
}

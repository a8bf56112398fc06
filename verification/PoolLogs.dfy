// From raw Pool logs to operations (packages/ethereum/src/history.ts): duplicates dropped, logs
// decoded, grouped by operation and checked against the operation's success event.
module PoolLogs {
  import opened Wrappers
  import opened Sorting
  import opened Pool

  // Topics and data of a log, as the Pool's events spell them.
  datatype Payload =
    | InputConsumed(operationId: nat, inputId: nat)
    | OutputCreated(operationId: nat, outputId: nat, outputIndex: nat, output: Output)
    | OperationSucceeded(operationId: nat, terms: Terms)
    | Unreadable(data: nat)

  datatype Terms = Terms(
    kind: nat, owner: nat, salt: nat, inputIds: seq<nat>, outputIds: seq<nat>, d: nat, w: nat, destination: nat)

  // Metadata a node leaves out (or that is not an integer) is None.
  datatype RawLog = RawLog(
    address: nat, blockNumber: Option<nat>, blockHash: Option<nat>, transactionHash: Option<nat>,
    transactionIndex: Option<int>, logIndex: Option<int>, removed: bool, payload: Payload)

  datatype Event =
    | InputEvent(input: InputLog)
    | OutputEvent(output: OutputLog)
    | SuccessEvent(success: Position, terms: Terms)
  {
    function At(): Position {
      match this
      case InputEvent(log) => log.at
      case OutputEvent(log) => log.at
      case SuccessEvent(at, _) => at
    }
  }

  // Why a read is incomplete.
  datatype Gap = RpcFailed | Missing | HashMismatch

  // What getTransaction reports: the callee, and the decoded call if it is one of the Pool's three.
  datatype Call = Call(kind: nat, request: Request)

  datatype Transaction = Transaction(to: Option<nat>, call: Option<Call>)

  // The node's transactions; an error is the reason its failure turns into.
  type Transactions = nat -> Result<Transaction, Gap>

  // ----- Duplicates -----

  predicate HasKey(log: RawLog) {
    log.blockHash.Some? && log.transactionHash.Some? && log.logIndex.Some?
  }

  function LogKey(log: RawLog): (nat, nat, int)
    requires HasKey(log)
  {
    (log.blockHash.value, log.transactionHash.value, log.logIndex.value)
  }

  // The later copy replaces the earlier one in its place; copies with different contents are refused.
  function Dedupe(logs: seq<RawLog>): (r: Option<seq<RawLog>>)
    ensures r.Some? ==> forall i :: 0 <= i < |r.value| ==> HasKey(r.value[i])
  {
    if logs == [] then Some([])
    else
      DedupeOne(Dedupe(logs[..|logs| - 1]), logs[|logs| - 1])
  }

  function DedupeOne(before: Option<seq<RawLog>>, log: RawLog): (r: Option<seq<RawLog>>)
    requires before.Some? ==> forall i :: 0 <= i < |before.value| ==> HasKey(before.value[i])
    ensures r.Some? ==> forall i :: 0 <= i < |r.value| ==> HasKey(r.value[i])
  {
    if before.None? || !HasKey(log) then None
    else
      var k := KeyIndex(before.value, LogKey(log));
      if k == |before.value| then Some(before.value + [log])
      else if before.value[k].payload != log.payload then None
      else Some(before.value[k := log])
  }

  function KeyIndex(logs: seq<RawLog>, key: (nat, nat, int)): (k: nat)
    requires forall i :: 0 <= i < |logs| ==> HasKey(logs[i])
    ensures k <= |logs| && (k < |logs| ==> LogKey(logs[k]) == key)
    ensures forall i :: 0 <= i < k ==> LogKey(logs[i]) != key
  {
    if logs == [] then 0
    else if LogKey(logs[0]) == key then 0
    else
      var k := KeyIndex(logs[1..], key);
      assert forall i :: 1 <= i < k + 1 ==> logs[i] == logs[1..][i - 1];
      k + 1
  }

  // ----- Decoding -----

  function Decode(log: RawLog): Option<Event> {
    if log.blockNumber.None? || !HasKey(log) || log.transactionIndex.None? || log.removed
      || !PositionNumber(log.transactionIndex.value) || !PositionNumber(log.logIndex.value) then None
    else
      var at := (id: nat) =>
        Position(id, log.blockNumber.value, log.blockHash.value, log.transactionHash.value, log.transactionIndex.value, log.logIndex.value);
      match log.payload
      case InputConsumed(id, inputId) => Some(InputEvent(InputLog(at(id), inputId)))
      case OutputCreated(id, outputId, index, output) => Some(OutputEvent(OutputLog(at(id), outputId, index, output)))
      case OperationSucceeded(id, terms) => Some(SuccessEvent(at(id), terms))
      case Unreadable(_) => None
  }

  function DecodeAll(logs: seq<RawLog>): Option<seq<Event>> {
    if logs == [] then Some([])
    else
      var before, last := DecodeAll(logs[..|logs| - 1]), Decode(logs[|logs| - 1]);
      if before.None? || last.None? then None else Some(before.value + [last.value])
  }

  // ----- Grouping -----

  function GroupKey(at: Position): (nat, nat, nat) {
    (at.blockHash, at.transactionHash, at.operationId)
  }

  // Keys in the order in which they first appear.
  function Keys(events: seq<Event>): seq<(nat, nat, nat)> {
    if events == [] then []
    else
      var before, key := Keys(events[..|events| - 1]), GroupKey(events[|events| - 1].At());
      if key in before then before else before + [key]
  }

  function GroupOf(events: seq<Event>, key: (nat, nat, nat)): seq<Event> {
    if events == [] then []
    else
      var last := events[|events| - 1];
      GroupOf(events[..|events| - 1], key) + (if GroupKey(last.At()) == key then [last] else [])
  }

  function InputsIn(group: seq<Event>): seq<InputLog> {
    if group == [] then []
    else
      var last := group[|group| - 1];
      InputsIn(group[..|group| - 1]) + (if last.InputEvent? then [last.input] else [])
  }

  function OutputsIn(group: seq<Event>): seq<OutputLog> {
    if group == [] then []
    else
      var last := group[|group| - 1];
      OutputsIn(group[..|group| - 1]) + (if last.OutputEvent? then [last.output] else [])
  }

  function SuccessesIn(group: seq<Event>): (r: seq<Event>)
    ensures forall i :: 0 <= i < |r| ==> r[i].SuccessEvent?
  {
    if group == [] then []
    else
      var last := group[|group| - 1];
      SuccessesIn(group[..|group| - 1]) + (if last.SuccessEvent? then [last] else [])
  }

  // ----- One operation -----

  function RequestOf(terms: Terms, outputs: seq<OutputLog>): Request {
    Request(terms.kind, terms.owner, terms.salt, terms.inputIds,
            seq(|outputs|, i requires 0 <= i < |outputs| => outputs[i].output), terms.d, terms.w, terms.destination)
  }

  predicate InputsMatch(inputs: seq<InputLog>, terms: Terms, first: int) {
    && |inputs| == |terms.inputIds|
    && (forall i :: 0 <= i < |inputs| ==> inputs[i].inputId == terms.inputIds[i] && inputs[i].at.logIndex == first + i)
  }

  predicate OutputsMatch(outputs: seq<OutputLog>, terms: Terms, first: int) {
    && |outputs| == |terms.outputIds|
    && (forall i :: 0 <= i < |outputs| ==>
          outputs[i].outputIndex == i && outputs[i].outputId == terms.outputIds[i] && outputs[i].at.logIndex == first + i)
  }

  predicate SameTransaction(at: Position, success: Position) {
    && at.blockNumber == success.blockNumber && at.blockHash == success.blockHash
    && at.transactionHash == success.transactionHash && at.transactionIndex == success.transactionIndex
  }

  // A call made directly to the Pool must be the operation it reports.
  predicate CallMatches(c: Crypto, context: Context, transaction: Transaction, kind: nat, id: nat) {
    transaction.to == Some(context.pool) ==>
      && transaction.call.Some? && transaction.call.value.kind == kind
      && c.OperationId(context, transaction.call.value.request) == id
  }

  // The checks of one group before its transaction is read.
  predicate GroupMatches(c: Crypto, context: Context, group: seq<Event>) {
    && |SuccessesIn(group)| == 1
    && var SuccessEvent(success, terms) := SuccessesIn(group)[0];
    && var inputs, outputs := Sort(InputsIn(group), InputLogBefore), Sort(OutputsIn(group), OutputLogBefore);
    && var first := success.logIndex - |inputs| - |outputs|;
    && InputsMatch(inputs, terms, first)
    && OutputsMatch(outputs, terms, first + |inputs|)
    && var request := RequestOf(terms, outputs);
    && ValidShape(c, request)
    && c.OperationId(context, request) == success.operationId
    && (forall i :: 0 <= i < |outputs| ==> outputs[i].outputId == c.outputId(success.operationId, i))
    && (forall i :: 0 <= i < |group| ==> SameTransaction(group[i].At(), success))
  }

  function AssembleGroup(c: Crypto, context: Context, transactions: Transactions, group: seq<Event>): Result<Observed, Gap> {
    if |SuccessesIn(group)| != 1 then Err(Missing)
    else
      var SuccessEvent(success, terms) := SuccessesIn(group)[0];
      if !GroupMatches(c, context, group) then Err(Missing)
      else
        match transactions(success.transactionHash)
        case Err(reason) => Err(reason)
        case Ok(transaction) =>
          if !CallMatches(c, context, transaction, terms.kind, success.operationId) then Err(Missing)
          else
            var inputs, outputs := Sort(InputsIn(group), InputLogBefore), Sort(OutputsIn(group), OutputLogBefore);
            Ok(Observed(RequestOf(terms, outputs), Some(success), Some(inputs), outputs))
  }

  function Results(c: Crypto, context: Context, transactions: Transactions, events: seq<Event>): seq<Result<Observed, Gap>> {
    seq(|Keys(events)|, i requires 0 <= i < |Keys(events)| =>
      AssembleGroup(c, context, transactions, GroupOf(events, Keys(events)[i])))
  }

  // The groups one after another; the first failure ends it.
  function Collect(results: seq<Result<Observed, Gap>>): Result<seq<Observed>, Gap> {
    if results == [] then Ok([])
    else
      var before, last := Collect(results[..|results| - 1]), results[|results| - 1];
      if before.Err? then before else if last.Err? then Err(last.error) else Ok(before.value + [last.value])
  }

  function Assembled(c: Crypto, context: Context, transactions: Transactions, events: seq<Event>): Result<seq<Observed>, Gap> {
    match Collect(Results(c, context, transactions, events))
    case Err(reason) => Err(reason)
    case Ok(ops) => Ok(Sort(ops, OperationBefore))
  }

  // From the fetched logs to the operations.
  function Reconstructed(c: Crypto, context: Context, transactions: Transactions, logs: seq<RawLog>): Result<seq<Observed>, Gap> {
    var kept := Dedupe(logs);
    if kept.None? then Err(Missing)
    else
      var events := DecodeAll(kept.value);
      if events.None? then Err(Missing) else Assembled(c, context, transactions, events.value)
  }

  // ----- The loops -----

  method DropDuplicates(logs: seq<RawLog>) returns (r: Option<seq<RawLog>>)
    ensures r == Dedupe(logs)
  {
    var seen: map<(nat, nat, int), nat>, kept: seq<RawLog> := map[], [];
    for i := 0 to |logs|
      invariant Dedupe(logs[..i]) == Some(kept)
      invariant Indexed(kept, seen)
    {
      DedupeNext(logs, i);
      if !HasKey(logs[i]) {
        NoneStays(logs, i + 1);
        return None;
      }
      var key := LogKey(logs[i]);
      if key in seen {
        if kept[seen[key]].payload != logs[i].payload {
          NoneStays(logs, i + 1);
          return None;
        }
        kept := kept[seen[key] := logs[i]];
      } else {
        seen := seen[key := |kept|];
        kept := kept + [logs[i]];
      }
    }
    DedupeWhole(logs);
    r := Some(kept);
  }

  // `seen` says where each key is kept.
  ghost predicate Indexed(kept: seq<RawLog>, seen: map<(nat, nat, int), nat>) {
    && (forall j :: 0 <= j < |kept| ==> HasKey(kept[j]) && LogKey(kept[j]) in seen && seen[LogKey(kept[j])] == j)
    && (forall key :: key in seen ==> seen[key] < |kept| && HasKey(kept[seen[key]]) && LogKey(kept[seen[key]]) == key)
  }

  lemma DedupeNext(logs: seq<RawLog>, i: nat)
    requires i < |logs|
    ensures Dedupe(logs[..i + 1]) == DedupeOne(Dedupe(logs[..i]), logs[i])
  {
    assert logs[..i + 1][..i] == logs[..i];
  }

  lemma DedupeWhole(logs: seq<RawLog>)
    ensures Dedupe(logs[..|logs|]) == Dedupe(logs)
  {
    assert logs[..|logs|] == logs;
  }

  lemma {:induction false} NoneStays(logs: seq<RawLog>, n: nat)
    requires n <= |logs| && Dedupe(logs[..n]).None?
    ensures Dedupe(logs).None?
    decreases |logs|
  {
    if n == |logs| {
      assert logs[..n] == logs;
    } else {
      assert logs[..|logs| - 1][..n] == logs[..n];
      NoneStays(logs[..|logs| - 1], n);
    }
  }

  method GroupEvents(events: seq<Event>) returns (keys: seq<(nat, nat, nat)>, groups: map<(nat, nat, nat), seq<Event>>)
    ensures keys == Keys(events)
    ensures forall key :: key in keys ==> key in groups && groups[key] == GroupOf(events, key)
  {
    keys, groups := [], map[];
    for i := 0 to |events|
      invariant keys == Keys(events[..i])
      invariant forall key :: key in keys <==> key in groups
      invariant forall key :: key in groups ==> groups[key] == GroupOf(events[..i], key)
      invariant forall key :: key !in groups ==> GroupOf(events[..i], key) == []
    {
      assert events[..i + 1][..i] == events[..i];
      var key := GroupKey(events[i].At());
      if key in groups {
        groups := groups[key := groups[key] + [events[i]]];
      } else {
        keys := keys + [key];
        groups := groups[key := [events[i]]];
      }
    }
    assert events[..|events|] == events;
  }

  method Assemble(c: Crypto, context: Context, transactions: Transactions, events: seq<Event>) returns (r: Result<seq<Observed>, Gap>)
    ensures r == Assembled(c, context, transactions, events)
  {
    var keys, groups := GroupEvents(events);
    ghost var results := Results(c, context, transactions, events);
    var operations := [];
    for i := 0 to |keys|
      invariant Collect(results[..i]) == Ok(operations)
    {
      CollectNext(results, i);
      assert keys[i] in keys;
      var operation := AssembleGroup(c, context, transactions, groups[keys[i]]);
      assert operation == results[i];
      if operation.Err? {
        FailureStays(results, i + 1);
        return Err(operation.error);
      }
      operations := operations + [operation.value];
    }
    CollectWhole(results);
    r := Ok(Sort(operations, OperationBefore));
  }

  lemma CollectNext(results: seq<Result<Observed, Gap>>, i: nat)
    requires i < |results| && Collect(results[..i]).Ok?
    ensures Collect(results[..i + 1])
      == if results[i].Err? then Err(results[i].error) else Ok(Collect(results[..i]).value + [results[i].value])
  {
    assert results[..i + 1][..i] == results[..i];
  }

  lemma CollectWhole(results: seq<Result<Observed, Gap>>)
    ensures Collect(results[..|results|]) == Collect(results)
  {
    assert results[..|results|] == results;
  }

  lemma {:induction false} FailureStays(results: seq<Result<Observed, Gap>>, n: nat)
    requires n <= |results| && Collect(results[..n]).Err?
    ensures Collect(results) == Collect(results[..n])
    decreases |results|
  {
    if n == |results| {
      assert results[..n] == results;
    } else {
      assert results[..|results| - 1][..n] == results[..n];
      FailureStays(results[..|results| - 1], n);
    }
  }
}

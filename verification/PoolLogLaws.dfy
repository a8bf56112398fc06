// Emission and reconstruction of Pool logs are inverse to one another, and every operation that is
// reconstructed passes the checks synchronize makes on an operation's logs.
module PoolLogLaws {
  import opened Wrappers
  import opened Counting
  import opened Sorting
  import opened Pool
  import opened Ledger
  import opened PoolLogs
  import opened OperationOrder

  // ----- Lists of the same distinct things -----

  lemma PrefixDistinct<T>(xs: seq<T>)
    requires Distinct(xs) && xs != []
    ensures Distinct(xs[..|xs| - 1]) && xs[|xs| - 1] !in xs[..|xs| - 1]
  {
    var rest := xs[..|xs| - 1];
    forall i, j | 0 <= i < j < |rest| ensures rest[i] != rest[j] { assert rest[i] == xs[i] && rest[j] == xs[j]; }
    forall i | 0 <= i < |rest| ensures rest[i] != xs[|xs| - 1] { assert rest[i] == xs[i]; }
  }

  lemma {:induction false} DistinctCount<T>(xs: seq<T>, x: T)
    requires Distinct(xs)
    ensures multiset(xs)[x] == if x in xs then 1 else 0
  {
    if xs != [] {
      var rest, last := xs[..|xs| - 1], xs[|xs| - 1];
      assert xs == rest + [last];
      PrefixDistinct(xs);
      DistinctCount(rest, x);
    }
  }

  lemma DistinctSame<T>(xs: seq<T>, ys: seq<T>)
    requires Distinct(xs) && Distinct(ys) && forall x :: x in xs <==> x in ys
    ensures multiset(xs) == multiset(ys)
  {
    forall x ensures multiset(xs)[x] == multiset(ys)[x] {
      DistinctCount(xs, x);
      DistinctCount(ys, x);
    }
  }

  // ----- Filters -----

  lemma {:induction false} GroupMembers(events: seq<Event>, key: (nat, nat, nat))
    ensures forall e :: e in GroupOf(events, key) <==> e in events && GroupKey(e.At()) == key
  {
    if events != [] {
      GroupMembers(events[..|events| - 1], key);
      assert events == events[..|events| - 1] + [events[|events| - 1]];
    }
  }

  lemma {:induction false} GroupDistinct(events: seq<Event>, key: (nat, nat, nat))
    requires Distinct(events)
    ensures Distinct(GroupOf(events, key))
  {
    if events != [] {
      PrefixDistinct(events);
      GroupDistinct(events[..|events| - 1], key);
      GroupMembers(events[..|events| - 1], key);
    }
  }

  lemma {:induction false} InputsMembers(group: seq<Event>)
    ensures forall log :: log in InputsIn(group) <==> InputEvent(log) in group
  {
    if group != [] {
      InputsMembers(group[..|group| - 1]);
      assert group == group[..|group| - 1] + [group[|group| - 1]];
    }
  }

  lemma {:induction false} OutputsMembers(group: seq<Event>)
    ensures forall log :: log in OutputsIn(group) <==> OutputEvent(log) in group
  {
    if group != [] {
      OutputsMembers(group[..|group| - 1]);
      assert group == group[..|group| - 1] + [group[|group| - 1]];
    }
  }

  lemma {:induction false} SuccessesMembers(group: seq<Event>)
    ensures forall e :: e in SuccessesIn(group) <==> e in group && e.SuccessEvent?
  {
    if group != [] {
      SuccessesMembers(group[..|group| - 1]);
      assert group == group[..|group| - 1] + [group[|group| - 1]];
    }
  }

  lemma {:induction false} FiltersDistinct(group: seq<Event>)
    requires Distinct(group)
    ensures Distinct(InputsIn(group)) && Distinct(OutputsIn(group)) && Distinct(SuccessesIn(group))
  {
    if group != [] {
      var rest := group[..|group| - 1];
      PrefixDistinct(group);
      FiltersDistinct(rest);
      InputsMembers(rest);
      OutputsMembers(rest);
      SuccessesMembers(rest);
    }
  }

  lemma {:induction false} KeysMembers(events: seq<Event>)
    ensures forall key :: key in Keys(events) <==> exists i :: 0 <= i < |events| && GroupKey(events[i].At()) == key
    ensures Distinct(Keys(events))
  {
    if events != [] {
      var rest := events[..|events| - 1];
      KeysMembers(rest);
      forall key ensures key in Keys(events) <==> exists i :: 0 <= i < |events| && GroupKey(events[i].At()) == key {
        if i :| 0 <= i < |rest| && GroupKey(rest[i].At()) == key { assert events[i] == rest[i]; }
        if i :| 0 <= i < |events| && GroupKey(events[i].At()) == key {
          if i < |rest| { assert rest[i] == events[i]; }
        }
        assert GroupKey(events[|rest|].At()) == GroupKey(events[|events| - 1].At());
      }
    }
  }

  // ----- What the Pool emits -----

  // An executed request and where its success event stands.
  datatype Execution = Execution(request: Request, at: Position)

  function First(x: Execution): int {
    x.at.logIndex - |x.request.inputIds| - |x.request.outputs|
  }

  function InputLogsOf(x: Execution): seq<InputLog> {
    seq(|x.request.inputIds|, i requires 0 <= i < |x.request.inputIds| =>
      InputLog(x.at.(logIndex := First(x) + i), x.request.inputIds[i]))
  }

  function OutputLogsOf(c: Crypto, x: Execution): seq<OutputLog> {
    seq(|x.request.outputs|, i requires 0 <= i < |x.request.outputs| =>
      OutputLog(x.at.(logIndex := First(x) + |x.request.inputIds| + i), c.outputId(x.at.operationId, i), i, x.request.outputs[i]))
  }

  function OutputIdsOf(c: Crypto, x: Execution): seq<nat> {
    seq<nat>(|x.request.outputs|, i requires 0 <= i < |x.request.outputs| => c.outputId(x.at.operationId, i))
  }

  function TermsOf(c: Crypto, x: Execution): Terms {
    Terms(x.request.kind, x.request.owner, x.request.salt, x.request.inputIds, OutputIdsOf(c, x), x.request.d, x.request.w,
          x.request.destination)
  }

  // One log for each input, then for each output, then for the success, at consecutive indices.
  ghost predicate Emits(c: Crypto, x: Execution, e: Event) {
    match e
    case InputEvent(log) => log in InputLogsOf(x)
    case OutputEvent(log) => log in OutputLogsOf(c, x)
    case SuccessEvent(at, terms) => at == x.at && terms == TermsOf(c, x)
  }

  function PayloadOf(e: Event): Payload {
    match e
    case InputEvent(log) => InputConsumed(log.at.operationId, log.inputId)
    case OutputEvent(log) =>
      OutputCreated(log.at.operationId, log.outputId, if log.outputIndex >= 0 then log.outputIndex else 0, log.output)
    case SuccessEvent(at, terms) => OperationSucceeded(at.operationId, terms)
  }

  function Encode(pool: nat, e: Event): RawLog {
    RawLog(pool, Some(e.At().blockNumber), Some(e.At().blockHash), Some(e.At().transactionHash),
           Some(e.At().transactionIndex), Some(e.At().logIndex), false, PayloadOf(e))
  }

  // The logs are those the executions emitted, in any order and any number of copies.
  ghost predicate CopiesOf(c: Crypto, pool: nat, xs: seq<Execution>, logs: seq<RawLog>) {
    && (forall log :: log in logs ==> exists k, e :: 0 <= k < |xs| && Emits(c, xs[k], e) && Encode(pool, e) == log)
    && (forall k, e :: 0 <= k < |xs| && Emits(c, xs[k], e) ==> Encode(pool, e) in logs)
  }

  function ObservedOf(c: Crypto, x: Execution): Observed {
    Observed(x.request, Some(x.at), Some(InputLogsOf(x)), OutputLogsOf(c, x))
  }

  function ObservedAll(c: Crypto, xs: seq<Execution>): seq<Observed> {
    seq(|xs|, i requires 0 <= i < |xs| => ObservedOf(c, xs[i]))
  }

  // A request the Pool can have executed there.
  ghost predicate Executable(c: Crypto, context: Context, transactions: Transactions, x: Execution) {
    && ValidShape(c, x.request) && x.at.operationId == c.OperationId(context, x.request)
    && First(x) >= 0 && PositionNumber(x.at.logIndex) && PositionNumber(x.at.transactionIndex)
    && transactions(x.at.transactionHash).Ok?
    && CallMatches(c, context, transactions(x.at.transactionHash).value, x.request.kind, x.at.operationId)
  }

  // Later operations lie in later blocks, or later in the same block.
  ghost predicate Follows(x: Execution, y: Execution) {
    || (x.at.blockNumber < y.at.blockNumber && x.at.blockHash != y.at.blockHash)
    || (x.at.blockNumber == y.at.blockNumber && x.at.blockHash == y.at.blockHash
        && x.at.transactionIndex <= y.at.transactionIndex && x.at.logIndex < First(y))
  }

  ghost predicate Chain(xs: seq<Execution>) {
    forall j, k :: 0 <= j < k < |xs| ==> Follows(xs[j], xs[k]) && xs[j].at.operationId != xs[k].at.operationId
  }

  // ----- An emitted event -----

  lemma EmittedPlace(c: Crypto, x: Execution, e: Event)
    requires Emits(c, x, e)
    ensures e.At() == x.at.(logIndex := e.At().logIndex) && First(x) <= e.At().logIndex <= x.at.logIndex
  {
  }

  lemma DecodeEncode(c: Crypto, context: Context, transactions: Transactions, pool: nat, x: Execution, e: Event)
    requires Executable(c, context, transactions, x) && Emits(c, x, e)
    ensures Decode(Encode(pool, e)) == Some(e)
  {
    EmittedPlace(c, x, e);
  }

  function EventAt(c: Crypto, x: Execution, n: nat): Event {
    var inputs, outputs := InputLogsOf(x), OutputLogsOf(c, x);
    if n < |inputs| then InputEvent(inputs[n])
    else if n < |inputs| + |outputs| then OutputEvent(outputs[n - |inputs|])
    else SuccessEvent(x.at, TermsOf(c, x))
  }

  // Within one execution the index of a log determines the log.
  lemma EmittedOnce(c: Crypto, x: Execution, e: Event)
    requires Emits(c, x, e)
    ensures e.At().logIndex >= First(x) && e == EventAt(c, x, e.At().logIndex - First(x))
  {
  }

  // Over a whole chain, block and index do.
  lemma KeysApart(c: Crypto, xs: seq<Execution>, j: nat, k: nat, e: Event, f: Event)
    requires Chain(xs) && j < |xs| && k < |xs| && Emits(c, xs[j], e) && Emits(c, xs[k], f)
    requires e.At().blockHash == f.At().blockHash && e.At().logIndex == f.At().logIndex
    ensures j == k && e == f
  {
    assert j < k ==> Follows(xs[j], xs[k]);
    assert k < j ==> Follows(xs[k], xs[j]);
    EmittedPlace(c, xs[j], e);
    EmittedPlace(c, xs[k], f);
    EmittedOnce(c, xs[j], e);
    EmittedOnce(c, xs[k], f);
  }

  // ----- Duplicates -----

  ghost predicate SameKeySameLog(logs: seq<RawLog>) {
    && (forall i :: 0 <= i < |logs| ==> HasKey(logs[i]))
    && (forall i, j :: 0 <= i < |logs| && 0 <= j < |logs| && LogKey(logs[i]) == LogKey(logs[j]) ==> logs[i] == logs[j])
  }

  // When copies agree, each log is kept once and nothing is lost.
  lemma {:induction false} DedupeExact(logs: seq<RawLog>)
    requires SameKeySameLog(logs)
    ensures Dedupe(logs).Some? && Distinct(Dedupe(logs).value)
    ensures forall log :: log in Dedupe(logs).value <==> log in logs
  {
    if logs != [] {
      var rest, log := logs[..|logs| - 1], logs[|logs| - 1];
      DedupeExact(rest);
      assert logs == rest + [log];
      var before := Dedupe(rest).value;
      var k := KeyIndex(before, LogKey(log));
      if k < |before| {
        assert before[k] in logs;
        assert before[k] == log;
        assert before[k := log] == before;
      } else {
        forall i | 0 <= i < |before| ensures before[i] != log { assert LogKey(before[i]) != LogKey(log); }
      }
    }
  }

  lemma CopiesAgree(c: Crypto, context: Context, transactions: Transactions, xs: seq<Execution>, logs: seq<RawLog>)
    requires Chain(xs) && (forall k :: 0 <= k < |xs| ==> Executable(c, context, transactions, xs[k]))
    requires CopiesOf(c, context.pool, xs, logs)
    ensures SameKeySameLog(logs)
  {
    forall i, j | 0 <= i < |logs| && 0 <= j < |logs|
      ensures HasKey(logs[i]) && HasKey(logs[j]) && (LogKey(logs[i]) == LogKey(logs[j]) ==> logs[i] == logs[j])
    {
      assert logs[i] in logs && logs[j] in logs;
      var k, e :| 0 <= k < |xs| && Emits(c, xs[k], e) && Encode(context.pool, e) == logs[i];
      var l, f :| 0 <= l < |xs| && Emits(c, xs[l], f) && Encode(context.pool, f) == logs[j];
      if LogKey(logs[i]) == LogKey(logs[j]) { KeysApart(c, xs, k, l, e, f); }
    }
  }

  // ----- Decoding -----

  ghost predicate EventsOf(c: Crypto, xs: seq<Execution>, events: seq<Event>) {
    && Distinct(events)
    && (forall e :: e in events <==> exists k :: 0 <= k < |xs| && Emits(c, xs[k], e))
  }

  lemma {:induction false} DecodeEach(pool: nat, logs: seq<RawLog>)
    requires Distinct(logs)
    requires forall log :: log in logs ==> Decode(log).Some? && Encode(pool, Decode(log).value) == log
    ensures DecodeAll(logs).Some? && Distinct(DecodeAll(logs).value)
    ensures forall e :: e in DecodeAll(logs).value <==> Encode(pool, e) in logs && Decode(Encode(pool, e)) == Some(e)
  {
    if logs != [] {
      var rest, log := logs[..|logs| - 1], logs[|logs| - 1];
      assert logs == rest + [log];
      PrefixDistinct(logs);
      DecodeEach(pool, rest);
    }
  }

  lemma DecodeCopies(c: Crypto, context: Context, transactions: Transactions, xs: seq<Execution>, logs: seq<RawLog>)
    requires Chain(xs) && (forall k :: 0 <= k < |xs| ==> Executable(c, context, transactions, xs[k]))
    requires Distinct(logs) && CopiesOf(c, context.pool, xs, logs)
    ensures DecodeAll(logs).Some? && EventsOf(c, xs, DecodeAll(logs).value)
  {
    forall log | log in logs ensures Decode(log).Some? && Encode(context.pool, Decode(log).value) == log {
      var k, e :| 0 <= k < |xs| && Emits(c, xs[k], e) && Encode(context.pool, e) == log;
      DecodeEncode(c, context, transactions, context.pool, xs[k], e);
    }
    DecodeEach(context.pool, logs);
    var events := DecodeAll(logs).value;
    forall e ensures e in events <==> exists k :: 0 <= k < |xs| && Emits(c, xs[k], e) {
      if e in events {
        var k, f :| 0 <= k < |xs| && Emits(c, xs[k], f) && Encode(context.pool, f) == Encode(context.pool, e);
        DecodeEncode(c, context, transactions, context.pool, xs[k], f);
      }
      if k :| 0 <= k < |xs| && Emits(c, xs[k], e) {
        DecodeEncode(c, context, transactions, context.pool, xs[k], e);
      }
    }
  }

  // ----- One group -----

  ghost predicate GroupIs(c: Crypto, x: Execution, group: seq<Event>) {
    Distinct(group) && forall e :: e in group <==> Emits(c, x, e)
  }

  lemma KeyOfEmitted(c: Crypto, x: Execution, e: Event)
    requires Emits(c, x, e)
    ensures GroupKey(e.At()) == GroupKey(x.at)
  {
    EmittedPlace(c, x, e);
  }

  lemma GroupIsExecution(c: Crypto, xs: seq<Execution>, events: seq<Event>, k: nat)
    requires Chain(xs) && EventsOf(c, xs, events) && k < |xs|
    ensures GroupIs(c, xs[k], GroupOf(events, GroupKey(xs[k].at)))
  {
    var group := GroupOf(events, GroupKey(xs[k].at));
    GroupDistinct(events, GroupKey(xs[k].at));
    GroupMembers(events, GroupKey(xs[k].at));
    forall e ensures e in group <==> Emits(c, xs[k], e) {
      if e in group {
        var j :| 0 <= j < |xs| && Emits(c, xs[j], e);
        KeyOfEmitted(c, xs[j], e);
        assert j == k;
      }
      if Emits(c, xs[k], e) { KeyOfEmitted(c, xs[k], e); }
    }
  }

  lemma InputOrderTotal()
    ensures TotalPreorder(InputLogBefore) && TotalPreorder(OutputLogBefore)
  {
  }

  lemma InputsInOrder(x: Execution)
    ensures var inputs := InputLogsOf(x);
      Distinct(inputs) && SortedBy(inputs, InputLogBefore) && Strict(inputs, InputLogBefore)
  {
    var inputs := InputLogsOf(x);
    assert forall i, j :: 0 <= i < j < |inputs| ==> inputs[i].at.logIndex < inputs[j].at.logIndex;
  }

  lemma OutputsInOrder(c: Crypto, x: Execution)
    ensures var outputs := OutputLogsOf(c, x);
      Distinct(outputs) && SortedBy(outputs, OutputLogBefore) && Strict(outputs, OutputLogBefore)
  {
    var outputs := OutputLogsOf(c, x);
    assert forall i, j :: 0 <= i < j < |outputs| ==> outputs[i].at.logIndex < outputs[j].at.logIndex;
  }

  lemma InputsOfGroup(c: Crypto, x: Execution, group: seq<Event>)
    requires GroupIs(c, x, group)
    ensures Distinct(InputsIn(group)) && forall log :: log in InputsIn(group) <==> log in InputLogsOf(x)
  {
    FiltersDistinct(group);
    InputsMembers(group);
    forall log ensures log in InputsIn(group) <==> log in InputLogsOf(x) {
      assert Emits(c, x, InputEvent(log)) <==> log in InputLogsOf(x);
    }
  }

  lemma OutputsOfGroup(c: Crypto, x: Execution, group: seq<Event>)
    requires GroupIs(c, x, group)
    ensures Distinct(OutputsIn(group)) && forall log :: log in OutputsIn(group) <==> log in OutputLogsOf(c, x)
  {
    FiltersDistinct(group);
    OutputsMembers(group);
    forall log ensures log in OutputsIn(group) <==> log in OutputLogsOf(c, x) {
      assert Emits(c, x, OutputEvent(log)) <==> log in OutputLogsOf(c, x);
    }
  }

  // Sorting a rearrangement of a strictly sorted list gives the list.
  lemma SortGives<T(!new)>(xs: seq<T>, ys: seq<T>, le: (T, T) -> bool)
    requires TotalPreorder(le) && Distinct(xs) && SortedBy(xs, le) && Strict(xs, le)
    requires Distinct(ys) && forall x :: x in ys <==> x in xs
    ensures Sort(ys, le) == xs
  {
    DistinctSame(xs, ys);
    SortKeepsSorted(xs, le);
    SortOrderIndependent(xs, ys, le);
  }

  lemma SortedInputsAre(c: Crypto, x: Execution, group: seq<Event>)
    requires GroupIs(c, x, group)
    ensures Sort(InputsIn(group), InputLogBefore) == InputLogsOf(x)
  {
    InputsInOrder(x);
    InputsOfGroup(c, x, group);
    InputOrderTotal();
    SortGives(InputLogsOf(x), InputsIn(group), InputLogBefore);
  }

  lemma SortedOutputsAre(c: Crypto, x: Execution, group: seq<Event>)
    requires GroupIs(c, x, group)
    ensures Sort(OutputsIn(group), OutputLogBefore) == OutputLogsOf(c, x)
  {
    OutputsInOrder(c, x);
    OutputsOfGroup(c, x, group);
    InputOrderTotal();
    SortGives(OutputLogsOf(c, x), OutputsIn(group), OutputLogBefore);
  }

  lemma SuccessIs(c: Crypto, x: Execution, group: seq<Event>)
    requires GroupIs(c, x, group)
    ensures SuccessesIn(group) == [SuccessEvent(x.at, TermsOf(c, x))]
  {
    FiltersDistinct(group);
    SuccessesMembers(group);
    var e, found := SuccessEvent(x.at, TermsOf(c, x)), SuccessesIn(group);
    assert Emits(c, x, e);
    assert e in found;
    assert |found| > 1 ==> found[0] != found[1];
    forall i | 0 <= i < |found| ensures found[i] == e {
      assert found[i] in found && Emits(c, x, found[i]);
    }
  }

  lemma RequestIs(c: Crypto, x: Execution)
    ensures RequestOf(TermsOf(c, x), OutputLogsOf(c, x)) == x.request
  {
    var outputs := OutputLogsOf(c, x);
    assert seq(|outputs|, i requires 0 <= i < |outputs| => outputs[i].output) == x.request.outputs;
  }

  lemma EmittedMatch(c: Crypto, x: Execution)
    ensures InputsMatch(InputLogsOf(x), TermsOf(c, x), First(x))
    ensures OutputsMatch(OutputLogsOf(c, x), TermsOf(c, x), First(x) + |x.request.inputIds|)
    ensures forall i :: 0 <= i < |OutputLogsOf(c, x)| ==> OutputLogsOf(c, x)[i].outputId == c.outputId(x.at.operationId, i)
  {
  }

  lemma SameTransactionAll(c: Crypto, x: Execution, group: seq<Event>)
    requires GroupIs(c, x, group)
    ensures forall i :: 0 <= i < |group| ==> SameTransaction(group[i].At(), x.at)
  {
    forall i | 0 <= i < |group| ensures SameTransaction(group[i].At(), x.at) {
      assert group[i] in group;
      EmittedPlace(c, x, group[i]);
    }
  }

  lemma ExecutionMatches(c: Crypto, context: Context, x: Execution, group: seq<Event>)
    requires GroupIs(c, x, group) && ValidShape(c, x.request) && x.at.operationId == c.OperationId(context, x.request)
    ensures GroupMatches(c, context, group)
  {
    SuccessIs(c, x, group);
    EmittedMatch(c, x);
    RequestIs(c, x);
    SameTransactionAll(c, x, group);
    SortedInputsAre(c, x, group);
    SortedOutputsAre(c, x, group);
  }

  // The events of one execution, in any order, assemble into that execution.
  lemma GroupAssembles(c: Crypto, context: Context, transactions: Transactions, x: Execution, group: seq<Event>)
    requires GroupIs(c, x, group) && Executable(c, context, transactions, x)
    ensures AssembleGroup(c, context, transactions, group) == Ok(ObservedOf(c, x))
  {
    ExecutionMatches(c, context, x, group);
    SuccessIs(c, x, group);
    RequestIs(c, x);
    SortedInputsAre(c, x, group);
    SortedOutputsAre(c, x, group);
  }

  // ----- All groups -----

  lemma {:induction false} CollectAll(results: seq<Result<Observed, Gap>>, ops: seq<Observed>)
    requires |ops| == |results| && forall i :: 0 <= i < |results| ==> results[i] == Ok(ops[i])
    ensures Collect(results) == Ok(ops)
  {
    if results != [] {
      var n := |results| - 1;
      CollectAll(results[..n], ops[..n]);
      assert ops == ops[..n] + [ops[n]];
    }
  }

  ghost predicate ExecutionWithKey(xs: seq<Execution>, key: (nat, nat, nat), k: int) {
    0 <= k < |xs| && GroupKey(xs[k].at) == key
  }

  ghost predicate ExecutionExists(xs: seq<Execution>, key: (nat, nat, nat)) {
    exists k :: ExecutionWithKey(xs, key, k)
  }

  // The keys of the groups are the executions' keys.
  lemma KeysAreExecutions(c: Crypto, xs: seq<Execution>, events: seq<Event>)
    requires EventsOf(c, xs, events)
    ensures forall key :: key in Keys(events) <==> ExecutionExists(xs, key)
  {
    KeysMembers(events);
    forall key ensures key in Keys(events) <==> ExecutionExists(xs, key) {
      if i :| 0 <= i < |events| && GroupKey(events[i].At()) == key {
        assert events[i] in events;
        var k :| 0 <= k < |xs| && Emits(c, xs[k], events[i]);
        KeyOfEmitted(c, xs[k], events[i]);
        assert ExecutionWithKey(xs, key, k);
      }
      if k :| ExecutionWithKey(xs, key, k) {
        var e := SuccessEvent(xs[k].at, TermsOf(c, xs[k]));
        assert Emits(c, xs[k], e);
        assert e in events;
        var i :| 0 <= i < |events| && events[i] == e;
        assert GroupKey(events[i].At()) == key;
      }
    }
  }

  function FindKey(xs: seq<Execution>, key: (nat, nat, nat)): (k: nat)
    requires ExecutionExists(xs, key)
    ensures ExecutionWithKey(xs, key, k)
  {
    if GroupKey(xs[0].at) == key then 0
    else
      assert ExecutionExists(xs[1..], key) by {
        var k :| ExecutionWithKey(xs, key, k);
        assert ExecutionWithKey(xs[1..], key, k - 1);
      }
      FindKey(xs[1..], key) + 1
  }

  // The operations in the order of the keys.
  function ObservedByKey(c: Crypto, xs: seq<Execution>, keys: seq<(nat, nat, nat)>): seq<Observed>
    requires forall i :: 0 <= i < |keys| ==> ExecutionExists(xs, keys[i])
  {
    seq(|keys|, i requires 0 <= i < |keys| => ObservedOf(c, xs[FindKey(xs, keys[i])]))
  }

  lemma ByKeyDistinct(c: Crypto, xs: seq<Execution>, keys: seq<(nat, nat, nat)>)
    requires Distinct(keys) && forall key :: key in keys ==> ExecutionExists(xs, key)
    ensures Distinct(ObservedByKey(c, xs, keys))
  {
    var ops := ObservedByKey(c, xs, keys);
    forall i, j | 0 <= i < j < |ops| ensures ops[i] != ops[j] {
      assert ExecutionWithKey(xs, keys[i], FindKey(xs, keys[i])) && ExecutionWithKey(xs, keys[j], FindKey(xs, keys[j]));
    }
  }

  lemma AllDistinct(c: Crypto, xs: seq<Execution>)
    requires Chain(xs)
    ensures Distinct(ObservedAll(c, xs))
  {
    var all := ObservedAll(c, xs);
    forall i, j | 0 <= i < j < |all| ensures all[i] != all[j] {
      assert xs[i].at.operationId != xs[j].at.operationId;
    }
  }

  // The operation of an execution is found under its key.
  lemma FoundByKey(c: Crypto, xs: seq<Execution>, keys: seq<(nat, nat, nat)>, k: nat)
    requires Chain(xs) && k < |xs|
    requires forall key :: key in keys <==> ExecutionExists(xs, key)
    ensures ObservedOf(c, xs[k]) in ObservedByKey(c, xs, keys)
  {
    var key := GroupKey(xs[k].at);
    assert ExecutionWithKey(xs, key, k);
    assert key in keys;
    var i :| 0 <= i < |keys| && keys[i] == key;
    var l := FindKey(xs, key);
    assert xs[l].at.operationId == xs[k].at.operationId;
    assert ObservedByKey(c, xs, keys)[i] == ObservedOf(c, xs[k]);
  }

  lemma ByKeyPermutes(c: Crypto, xs: seq<Execution>, keys: seq<(nat, nat, nat)>)
    requires Chain(xs) && Distinct(keys)
    requires forall key :: key in keys <==> ExecutionExists(xs, key)
    ensures multiset(ObservedByKey(c, xs, keys)) == multiset(ObservedAll(c, xs))
  {
    var ops, all := ObservedByKey(c, xs, keys), ObservedAll(c, xs);
    ByKeyDistinct(c, xs, keys);
    AllDistinct(c, xs);
    forall op ensures op in ops <==> op in all {
      if op in ops {
        var i :| 0 <= i < |ops| && ops[i] == op;
        assert all[FindKey(xs, keys[i])] == op;
      }
      if op in all {
        var k :| 0 <= k < |all| && all[k] == op;
        FoundByKey(c, xs, keys, k);
      }
    }
    DistinctSame(ops, all);
  }

  lemma ChainSorted(c: Crypto, xs: seq<Execution>)
    requires Chain(xs)
    ensures AllSucceeded(ObservedAll(c, xs))
    ensures forall i, j :: 0 <= i < j < |xs| ==> StrictlyBefore(ObservedAll(c, xs)[i], ObservedAll(c, xs)[j])
  {
    forall i, j | 0 <= i < j < |xs| ensures StrictlyBefore(ObservedAll(c, xs)[i], ObservedAll(c, xs)[j]) {
      assert Follows(xs[i], xs[j]);
    }
  }

  lemma EventsAssemble(c: Crypto, context: Context, transactions: Transactions, xs: seq<Execution>, events: seq<Event>)
    requires Chain(xs) && (forall k :: 0 <= k < |xs| ==> Executable(c, context, transactions, xs[k]))
    requires EventsOf(c, xs, events)
    ensures Assembled(c, context, transactions, events) == Ok(ObservedAll(c, xs))
  {
    var keys := Keys(events);
    KeysMembers(events);
    KeysAreExecutions(c, xs, events);
    assert forall i :: 0 <= i < |keys| ==> keys[i] in keys && ExecutionExists(xs, keys[i]);
    var ops := ObservedByKey(c, xs, keys);
    var results := Results(c, context, transactions, events);
    forall i | 0 <= i < |results| ensures results[i] == Ok(ops[i]) {
      var k := FindKey(xs, keys[i]);
      GroupIsExecution(c, xs, events, k);
      GroupAssembles(c, context, transactions, xs[k], GroupOf(events, keys[i]));
    }
    CollectAll(results, ops);
    ByKeyPermutes(c, xs, keys);
    ChainSorted(c, xs);
    SortRestores(ObservedAll(c, xs), ops);
  }

  // Round trip: whatever order and number of copies the logs of a chain of operations come in,
  // reconstruction returns exactly those operations, in chain order.
  lemma LogRoundTrip(c: Crypto, context: Context, transactions: Transactions, xs: seq<Execution>, logs: seq<RawLog>)
    requires Chain(xs) && (forall k :: 0 <= k < |xs| ==> Executable(c, context, transactions, xs[k]))
    requires CopiesOf(c, context.pool, xs, logs)
    ensures Reconstructed(c, context, transactions, logs) == Ok(ObservedAll(c, xs))
  {
    CopiesAgree(c, context, transactions, xs, logs);
    DedupeExact(logs);
    DecodeCopies(c, context, transactions, xs, Dedupe(logs).value);
    EventsAssemble(c, context, transactions, xs, DecodeAll(Dedupe(logs).value).value);
  }

  // ----- What is reconstructed passes synchronize's checks on an operation's logs -----

  predicate PassesLogChecks(s: Setting, op: Observed) {
    && ValidShape(s.crypto, op.request)
    && op.success.Some? && op.success.value.operationId == IdOf(s, op)
    && |InputsOf(op)| == |op.request.inputIds| && |op.outputLogs| == |op.request.outputs|
    && LogsOk(op)
    && (forall i :: 0 <= i < |op.request.inputIds| ==> InputInPlace(op, i))
    && (forall i :: 0 <= i < |op.request.outputs| ==> OutputInPlace(s, op, i))
  }

  // Log indices are numbers, and all events name one operation.
  ghost predicate OneOperation(group: seq<Event>, key: (nat, nat, nat)) {
    forall e :: e in group ==>
      GroupKey(e.At()) == key && PositionNumber(e.At().transactionIndex) && PositionNumber(e.At().logIndex)
  }

  lemma {:induction false} MatchesAscending(logs: seq<OutputLog>, base: nat, i: nat)
    requires forall j :: 0 <= j < |logs| ==> logs[j].outputIndex == base + j
    ensures MatchesOf(logs, i) == if base <= i < base + |logs| then [logs[i - base]] else []
  {
    if logs != [] { MatchesAscending(logs[1..], base + 1, i); }
  }

  lemma AssembledLogs(group: seq<Event>, key: (nat, nat, nat), op: Observed, e: Event)
    requires OneOperation(group, key) && e in SuccessesIn(group) && e.SuccessEvent? && OneTransaction(group, e.success)
    requires op.success == Some(e.success) && op.inputLogs == Some(Sort(InputsIn(group), InputLogBefore))
    requires op.outputLogs == Sort(OutputsIn(group), OutputLogBefore)
    ensures LogsOk(op)
  {
    SuccessesMembers(group);
    forall log | log in InputsOf(op) ensures InputEvent(log) in group { SortedInputIn(group, log); }
    forall log | log in op.outputLogs ensures OutputEvent(log) in group { SortedOutputIn(group, log); }
    GroupLogsOk(group, key, op, e);
  }

  // An operation whose logs are all events of one group has its logs in one transaction.
  lemma GroupLogsOk(group: seq<Event>, key: (nat, nat, nat), op: Observed, e: Event)
    requires OneOperation(group, key) && e in group && e.SuccessEvent? && OneTransaction(group, e.success)
    requires op.success == Some(e.success)
    requires forall log :: log in InputsOf(op) ==> InputEvent(log) in group
    requires forall log :: log in op.outputLogs ==> OutputEvent(log) in group
    ensures LogsOk(op)
  {
    var logs, m := LogsOf(op), |InputsOf(op)|;
    forall i | 0 <= i < |logs| ensures LogOf(logs[i], op.success.value) {
      if i < m {
        EventIn(group, key, InputEvent(InputsOf(op)[i]), e);
      } else if i < m + |op.outputLogs| {
        EventIn(group, key, OutputEvent(op.outputLogs[i - m]), e);
      } else {
        EventIn(group, key, e, e);
      }
    }
  }

  lemma SortedInputIn(group: seq<Event>, log: InputLog)
    requires log in Sort(InputsIn(group), InputLogBefore)
    ensures InputEvent(log) in group
  {
    SortMembers(InputsIn(group), InputLogBefore);
    InputsMembers(group);
  }

  lemma SortedOutputIn(group: seq<Event>, log: OutputLog)
    requires log in Sort(OutputsIn(group), OutputLogBefore)
    ensures OutputEvent(log) in group
  {
    SortMembers(OutputsIn(group), OutputLogBefore);
    OutputsMembers(group);
  }

  ghost predicate OneTransaction(group: seq<Event>, success: Position) {
    forall i :: 0 <= i < |group| ==> SameTransaction(group[i].At(), success)
  }

  lemma EventIn(group: seq<Event>, key: (nat, nat, nat), f: Event, e: Event)
    requires OneOperation(group, key) && f in group && e in group && e.SuccessEvent? && OneTransaction(group, e.success)
    ensures LogOf(f.At(), e.success)
  {
    var i :| 0 <= i < |group| && group[i] == f;
    assert SameTransaction(group[i].At(), e.success);
  }

  lemma OutputsPlaced(s: Setting, op: Observed, terms: Terms)
    requires op.success.Some? && op.success.value.operationId == IdOf(s, op)
    requires op.request == RequestOf(terms, op.outputLogs)
    requires OutputsMatch(op.outputLogs, terms, op.success.value.logIndex - |op.outputLogs|)
    requires forall i :: 0 <= i < |op.outputLogs| ==> op.outputLogs[i].outputId == s.crypto.outputId(IdOf(s, op), i)
    ensures forall i :: 0 <= i < |op.request.outputs| ==> OutputInPlace(s, op, i)
  {
    forall i | 0 <= i < |op.request.outputs| ensures OutputInPlace(s, op, i) {
      MatchesAscending(op.outputLogs, 0, i);
    }
  }

  lemma InputsPlaced(op: Observed, terms: Terms)
    requires op.success.Some? && op.inputLogs.Some?
    requires op.request == RequestOf(terms, op.outputLogs)
    requires InputsMatch(op.inputLogs.value, terms, op.success.value.logIndex - |op.inputLogs.value| - |op.outputLogs|)
    ensures |InputsOf(op)| == |op.request.inputIds|
    ensures forall i :: 0 <= i < |op.request.inputIds| ==> InputInPlace(op, i)
  {
    SortKeepsSorted(op.inputLogs.value, InputLogBefore);
  }

  lemma GroupPasses(s: Setting, transactions: Transactions, group: seq<Event>, key: (nat, nat, nat), op: Observed)
    requires OneOperation(group, key) && AssembleGroup(s.crypto, s.context, transactions, group) == Ok(op)
    ensures PassesLogChecks(s, op)
  {
    var e := SuccessesIn(group)[0];
    AssembledLogs(group, key, op, e);
    InputsPlaced(op, e.terms);
    OutputsPlaced(s, op, e.terms);
  }

  lemma {:induction false} DecodedNumbers(logs: seq<RawLog>)
    requires DecodeAll(logs).Some?
    ensures forall e :: e in DecodeAll(logs).value ==>
      PositionNumber(e.At().transactionIndex) && PositionNumber(e.At().logIndex)
  {
    if logs != [] { DecodedNumbers(logs[..|logs| - 1]); }
  }

  lemma {:induction false} CollectedFrom(results: seq<Result<Observed, Gap>>, op: Observed)
    requires Collect(results).Ok? && op in Collect(results).value
    ensures exists i :: 0 <= i < |results| && results[i] == Ok(op)
  {
    var n := |results| - 1;
    if op in Collect(results[..n]).value {
      CollectedFrom(results[..n], op);
      var i :| 0 <= i < n && results[..n][i] == Ok(op);
      assert results[i] == Ok(op);
    } else {
      assert results[n] == Ok(op);
    }
  }

  // Whatever logs a node returns, an operation that is reconstructed from them passes every check
  // synchronize makes on that operation's logs.
  lemma ReconstructedPasses(s: Setting, transactions: Transactions, logs: seq<RawLog>)
    requires Reconstructed(s.crypto, s.context, transactions, logs).Ok?
    ensures forall op :: op in Reconstructed(s.crypto, s.context, transactions, logs).value ==> PassesLogChecks(s, op)
  {
    var kept := Dedupe(logs).value;
    DecodedNumbers(kept);
    var events := DecodeAll(kept).value;
    var results, keys := Results(s.crypto, s.context, transactions, events), Keys(events);
    var ops := Collect(results).value;
    SortMembers(ops, OperationBefore);
    forall op | op in ops ensures PassesLogChecks(s, op) {
      CollectedFrom(results, op);
      var i :| 0 <= i < |results| && results[i] == Ok(op);
      GroupMembers(events, keys[i]);
      GroupPasses(s, transactions, GroupOf(events, keys[i]), keys[i], op);
    }
  }

  // A log of block `number` under `hash`.
  predicate OfBlock(log: RawLog, at: Position) {
    log.blockNumber == Some(at.blockNumber) && log.blockHash == Some(at.blockHash)
  }

  lemma {:induction false} DecodedFrom(logs: seq<RawLog>, e: Event)
    requires DecodeAll(logs).Some? && e in DecodeAll(logs).value
    ensures exists log :: log in logs && OfBlock(log, e.At())
  {
    var n := |logs| - 1;
    if e in DecodeAll(logs[..n]).value {
      DecodedFrom(logs[..n], e);
      var log :| log in logs[..n] && OfBlock(log, e.At());
      assert log in logs;
    } else {
      assert OfBlock(logs[n], e.At());
    }
  }

  // An operation is never made up: its success event stands in the block of a log that was kept.
  lemma ReconstructedFrom(c: Crypto, context: Context, transactions: Transactions, logs: seq<RawLog>)
    requires Reconstructed(c, context, transactions, logs).Ok?
    ensures Dedupe(logs).Some?
    ensures forall op :: op in Reconstructed(c, context, transactions, logs).value ==>
      op.success.Some? && exists log :: log in Dedupe(logs).value && OfBlock(log, op.success.value)
  {
    var events := DecodeAll(Dedupe(logs).value).value;
    var results, keys := Results(c, context, transactions, events), Keys(events);
    var ops := Collect(results).value;
    SortMembers(ops, OperationBefore);
    forall op | op in ops
      ensures op.success.Some? && exists log :: log in Dedupe(logs).value && OfBlock(log, op.success.value)
    {
      CollectedFrom(results, op);
      var i :| 0 <= i < |results| && results[i] == Ok(op);
      var group := GroupOf(events, keys[i]);
      SuccessesMembers(group);
      GroupMembers(events, keys[i]);
      assert SuccessesIn(group)[0] in SuccessesIn(group);
      DecodedFrom(Dedupe(logs).value, SuccessesIn(group)[0]);
    }
  }
}

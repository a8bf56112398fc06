// What reconstruction refuses, and what it never leaves out.
module PoolLogChecks {
  import opened Wrappers
  import opened Sorting
  import opened Pool
  import opened PoolLogs
  import opened PoolLogLaws

  // ----- Duplicates -----

  // Every log can be told apart, and copies of one log say the same.
  predicate Agreeing(logs: seq<RawLog>) {
    && (forall i :: 0 <= i < |logs| ==> HasKey(logs[i]))
    && (forall i, j :: 0 <= i < j < |logs| && LogKey(logs[i]) == LogKey(logs[j]) ==> logs[i].payload == logs[j].payload)
  }

  // Log m is the last one with its key.
  predicate LastCopy(logs: seq<RawLog>, m: int) {
    && 0 <= m < |logs| && HasKey(logs[m])
    && forall n :: m < n < |logs| && HasKey(logs[n]) ==> LogKey(logs[n]) != LogKey(logs[m])
  }

  ghost predicate IsLastCopy(logs: seq<RawLog>, log: RawLog) {
    exists m :: LastCopy(logs, m) && logs[m] == log
  }

  predicate KeptFor(kept: seq<RawLog>, log: RawLog) {
    HasKey(log) && exists i :: 0 <= i < |kept| && HasKey(kept[i]) && LogKey(kept[i]) == LogKey(log) && kept[i].payload == log.payload
  }

  predicate KeysApart(kept: seq<RawLog>) {
    && (forall i :: 0 <= i < |kept| ==> HasKey(kept[i]))
    && (forall i, j :: 0 <= i < j < |kept| ==> LogKey(kept[i]) != LogKey(kept[j]))
  }

  // What is kept: the last copy of each log, once.
  ghost predicate Kept(logs: seq<RawLog>, kept: seq<RawLog>) {
    && KeysApart(kept)
    && (forall i :: 0 <= i < |kept| ==> IsLastCopy(logs, kept[i]))
    && (forall m :: 0 <= m < |logs| ==> KeptFor(kept, logs[m]))
  }

  lemma LastCopyMore(logs: seq<RawLog>, log: RawLog, m: int)
    requires LastCopy(logs, m) && (HasKey(log) ==> LogKey(log) != LogKey(logs[m]))
    ensures LastCopy(logs + [log], m) && (logs + [log])[m] == logs[m]
  {
  }

  // A log with a key that is not there is added; one with a key that is there replaces its copy.
  lemma KeptAdds(logs: seq<RawLog>, kept: seq<RawLog>, log: RawLog)
    requires Kept(logs, kept) && HasKey(log) && forall i :: 0 <= i < |kept| ==> LogKey(kept[i]) != LogKey(log)
    ensures Kept(logs + [log], kept + [log])
  {
    var more, longer := kept + [log], logs + [log];
    assert LastCopy(longer, |logs|);
    forall i | 0 <= i < |more| ensures IsLastCopy(longer, more[i]) {
      if i < |kept| {
        assert IsLastCopy(logs, kept[i]);
        var m :| LastCopy(logs, m) && logs[m] == kept[i];
        LastCopyMore(logs, log, m);
      } else {
        assert longer[|logs|] == more[i];
      }
    }
    forall m | 0 <= m < |longer| ensures KeptFor(more, longer[m]) {
      if m < |logs| {
        assert KeptFor(kept, logs[m]);
        var i :| 0 <= i < |kept| && HasKey(kept[i]) && LogKey(kept[i]) == LogKey(logs[m]) && kept[i].payload == logs[m].payload;
        assert more[i] == kept[i];
      } else {
        assert more[|kept|] == log;
      }
    }
  }

  lemma KeptReplaces(logs: seq<RawLog>, kept: seq<RawLog>, log: RawLog, k: nat)
    requires Kept(logs, kept) && HasKey(log) && k < |kept| && LogKey(kept[k]) == LogKey(log) && kept[k].payload == log.payload
    ensures Kept(logs + [log], kept[k := log])
  {
    var more, longer := kept[k := log], logs + [log];
    assert LastCopy(longer, |logs|);
    forall i | 0 <= i < |more| ensures IsLastCopy(longer, more[i]) {
      if i != k {
        assert IsLastCopy(logs, kept[i]);
        var m :| LastCopy(logs, m) && logs[m] == kept[i];
        LastCopyMore(logs, log, m);
      } else {
        assert longer[|logs|] == more[i];
      }
    }
    forall m | 0 <= m < |longer| ensures KeptFor(more, longer[m]) {
      if m < |logs| {
        assert KeptFor(kept, logs[m]);
        var i :| 0 <= i < |kept| && HasKey(kept[i]) && LogKey(kept[i]) == LogKey(logs[m]) && kept[i].payload == logs[m].payload;
        assert LogKey(more[i]) == LogKey(kept[i]) && more[i].payload == kept[i].payload;
      } else {
        assert more[k] == log;
      }
    }
  }

  // One more log, on top of logs that were taken.
  lemma DedupeStep(logs: seq<RawLog>, kept: seq<RawLog>, log: RawLog)
    requires Kept(logs, kept) && Agreeing(logs)
    ensures var r := DedupeOne(Some(kept), log);
      && (r.Some? <==> Agreeing(logs + [log])) && (r.Some? ==> Kept(logs + [log], r.value))
  {
    if HasKey(log) {
      var k := KeyIndex(kept, LogKey(log));
      if k == |kept| {
        KeptAdds(logs, kept, log);
        NewKeyAgrees(logs, kept, log, logs + [log]);
      } else {
        OldKeyAgrees(logs, kept, log, k, logs + [log]);
        if kept[k].payload == log.payload { KeptReplaces(logs, kept, log, k); }
      }
    } else {
      assert !HasKey((logs + [log])[|logs|]);
    }
  }

  // `longer` is the logs with one more.
  predicate OneMore(logs: seq<RawLog>, log: RawLog, longer: seq<RawLog>) {
    |longer| == |logs| + 1 && longer[|logs|] == log && forall i :: 0 <= i < |logs| ==> longer[i] == logs[i]
  }

  lemma NewKeyAgrees(logs: seq<RawLog>, kept: seq<RawLog>, log: RawLog, longer: seq<RawLog>)
    requires Kept(logs, kept) && Agreeing(logs) && HasKey(log) && forall i :: 0 <= i < |kept| ==> LogKey(kept[i]) != LogKey(log)
    requires OneMore(logs, log, longer)
    ensures Agreeing(longer)
  {
    forall i | 0 <= i < |logs| ensures LogKey(logs[i]) != LogKey(log) { assert KeptFor(kept, logs[i]); }
  }

  lemma OldKeyAgrees(logs: seq<RawLog>, kept: seq<RawLog>, log: RawLog, k: nat, longer: seq<RawLog>)
    requires Kept(logs, kept) && Agreeing(logs) && HasKey(log) && k < |kept| && LogKey(kept[k]) == LogKey(log)
    requires OneMore(logs, log, longer)
    ensures Agreeing(longer) <==> kept[k].payload == log.payload
  {
    assert IsLastCopy(logs, kept[k]);
    var m :| LastCopy(logs, m) && logs[m] == kept[k];
    assert longer[m] == logs[m] && longer[|logs|] == log;
    if kept[k].payload == log.payload { CopyAgrees(logs, log, m, longer); }
  }

  lemma CopyAgrees(logs: seq<RawLog>, log: RawLog, m: int, longer: seq<RawLog>)
    requires Agreeing(logs) && HasKey(log) && LastCopy(logs, m) && LogKey(logs[m]) == LogKey(log) && logs[m].payload == log.payload
    requires OneMore(logs, log, longer)
    ensures Agreeing(longer)
  {
    forall i, j | 0 <= i < j < |longer| && LogKey(longer[i]) == LogKey(longer[j]) ensures longer[i].payload == longer[j].payload {
      if j == |logs| {
        assert LogKey(logs[i]) == LogKey(logs[m]);
        assert i <= m;
      }
    }
  }

  // Logs are taken exactly when copies agree; then the last copy of each is kept, once.
  lemma {:induction false} DedupeIff(logs: seq<RawLog>)
    ensures Dedupe(logs).Some? <==> Agreeing(logs)
    ensures Dedupe(logs).Some? ==> Kept(logs, Dedupe(logs).value)
  {
    if logs != [] {
      var n := |logs| - 1;
      DedupeIff(logs[..n]);
      assert logs == logs[..n] + [logs[n]];
      if Dedupe(logs[..n]).Some? {
        DedupeStep(logs[..n], Dedupe(logs[..n]).value, logs[n]);
      } else {
        PrefixAgrees(logs, n);
      }
    }
  }

  lemma PrefixAgrees(logs: seq<RawLog>, n: nat)
    requires n <= |logs|
    ensures Agreeing(logs) ==> Agreeing(logs[..n])
  {
  }

  // ----- Decoding -----

  // A log that can be an event: not removed, with all its metadata, and spelled as one of the Pool's events.
  predicate Readable(log: RawLog) {
    && !log.removed && log.blockNumber.Some? && HasKey(log) && log.transactionIndex.Some?
    && 0 <= log.transactionIndex.value <= MAX_SAFE_INTEGER && 0 <= log.logIndex.value <= MAX_SAFE_INTEGER
    && !log.payload.Unreadable?
  }

  lemma DecodeIff(log: RawLog)
    ensures Decode(log).Some? <==> Readable(log)
    ensures Decode(log).Some? ==>
      var at := Decode(log).value.At();
      && at.blockNumber == log.blockNumber.value && at.blockHash == log.blockHash.value
      && at.transactionHash == log.transactionHash.value && at.transactionIndex == log.transactionIndex.value
      && at.logIndex == log.logIndex.value
      && at.operationId == match log.payload
                           case InputConsumed(id, _) => id
                           case OutputCreated(id, _, _, _) => id
                           case OperationSucceeded(id, _) => id
                           case Unreadable(_) => 0
  {
  }

  lemma {:induction false} DecodeAllIff(logs: seq<RawLog>)
    ensures DecodeAll(logs).Some? <==> forall i :: 0 <= i < |logs| ==> Readable(logs[i])
    ensures DecodeAll(logs).Some? ==>
      |DecodeAll(logs).value| == |logs| && forall i :: 0 <= i < |logs| ==> Decode(logs[i]) == Some(DecodeAll(logs).value[i])
  {
    if logs != [] {
      var n := |logs| - 1;
      DecodeAllIff(logs[..n]);
      DecodeIff(logs[n]);
    }
  }

  // ----- Operations -----

  lemma {:induction false} CollectIff(results: seq<Result<Observed, Gap>>)
    ensures Collect(results).Ok? <==> forall i :: 0 <= i < |results| ==> results[i].Ok?
    ensures Collect(results).Ok? ==>
      |Collect(results).value| == |results| && forall i :: 0 <= i < |results| ==> results[i] == Ok(Collect(results).value[i])
  {
    if results != [] { CollectIff(results[..|results| - 1]); }
  }

  // An operation accounts for all events of its group, and its transaction is the one it says: a
  // direct call to the Pool is a call of its kind, for the same operation.
  ghost predicate AccountsFor(c: Crypto, context: Context, transactions: Transactions, events: seq<Event>, op: Observed) {
    && op.success.Some? && op.inputLogs.Some?
    && var event := op.success.value;
    && (forall e :: e in events && GroupKey(e.At()) == GroupKey(event) ==>
          match e
          case InputEvent(log) => log in op.inputLogs.value
          case OutputEvent(log) => log in op.outputLogs
          case SuccessEvent(at, _) => at == event)
    && (forall log :: log in op.inputLogs.value ==> InputEvent(log) in events)
    && (forall log :: log in op.outputLogs ==> OutputEvent(log) in events)
    && transactions(event.transactionHash).Ok?
    && var transaction := transactions(event.transactionHash).value;
    && (transaction.to == Some(context.pool) ==>
          && transaction.call.Some? && transaction.call.value.kind == op.request.kind
          && c.OperationId(context, transaction.call.value.request) == event.operationId)
  }

  lemma GroupAccounts(c: Crypto, context: Context, transactions: Transactions, events: seq<Event>, key: (nat, nat, nat), op: Observed)
    requires AssembleGroup(c, context, transactions, GroupOf(events, key)) == Ok(op)
    ensures op.success.Some? && GroupKey(op.success.value) == key && AccountsFor(c, context, transactions, events, op)
  {
    var group := GroupOf(events, key);
    GroupMembers(events, key);
    SuccessesMembers(group);
    InputsMembers(group);
    OutputsMembers(group);
    SortMembers(InputsIn(group), InputLogBefore);
    SortMembers(OutputsIn(group), OutputLogBefore);
    assert SuccessesIn(group)[0] in SuccessesIn(group);
    GroupSuccess(group);
  }

  // A group with one success event has no other.
  lemma GroupSuccess(group: seq<Event>)
    requires |SuccessesIn(group)| == 1
    ensures forall e :: e in group && e.SuccessEvent? ==> e == SuccessesIn(group)[0]
  {
    SuccessesMembers(group);
    assert SuccessesIn(group) == [SuccessesIn(group)[0]];
  }

  // What a reconstruction that succeeds has checked, and that it left nothing out: copies agree,
  // every log is readable, every operation accounts for its events, and every event is accounted for
  // by an operation.
  lemma ReconstructedChecks(c: Crypto, context: Context, transactions: Transactions, logs: seq<RawLog>)
    requires Reconstructed(c, context, transactions, logs).Ok?
    ensures Agreeing(logs) && Dedupe(logs).Some? && Kept(logs, Dedupe(logs).value)
    ensures forall log :: log in Dedupe(logs).value ==> Readable(log)
    ensures DecodeAll(Dedupe(logs).value).Some?
    ensures var ops, events := Reconstructed(c, context, transactions, logs).value, DecodeAll(Dedupe(logs).value).value;
      && (forall op :: op in ops ==> AccountsFor(c, context, transactions, events, op))
      && (forall e :: e in events ==> exists op :: op in ops && op.success.Some? && GroupKey(op.success.value) == GroupKey(e.At()))
  {
    DedupeIff(logs);
    DecodeAllIff(Dedupe(logs).value);
    AssembledChecks(c, context, transactions, DecodeAll(Dedupe(logs).value).value);
  }

  lemma AssembledChecks(c: Crypto, context: Context, transactions: Transactions, events: seq<Event>)
    requires Assembled(c, context, transactions, events).Ok?
    ensures var ops := Assembled(c, context, transactions, events).value;
      && (forall op :: op in ops ==> AccountsFor(c, context, transactions, events, op))
      && (forall e :: e in events ==> exists op :: op in ops && op.success.Some? && GroupKey(op.success.value) == GroupKey(e.At()))
  {
    var results, keys := Results(c, context, transactions, events), Keys(events);
    CollectIff(results);
    var ops := Collect(results).value;
    SortMembers(ops, OperationBefore);
    forall op | op in ops ensures AccountsFor(c, context, transactions, events, op) {
      var i :| 0 <= i < |ops| && ops[i] == op;
      assert results[i] == Ok(op);
      GroupAccounts(c, context, transactions, events, keys[i], op);
    }
    KeysMembers(events);
    forall e | e in events ensures exists op :: op in ops && op.success.Some? && GroupKey(op.success.value) == GroupKey(e.At()) {
      var j :| 0 <= j < |events| && events[j] == e;
      assert GroupKey(e.At()) in keys;
      var i :| 0 <= i < |keys| && keys[i] == GroupKey(e.At());
      assert results[i] == Ok(ops[i]);
      GroupAccounts(c, context, transactions, events, keys[i], ops[i]);
      assert ops[i] in ops;
    }
  }
}

// How the logs of an accepted history lie along the chain.
module LogLayout {
  import opened Counting
  import opened Sorting
  import opened Pool
  import opened Ledger

  // ----- One operation: its logs fill one interval -----

  lemma {:induction false} MatchesMembers(logs: seq<OutputLog>, i: int)
    ensures forall log :: log in MatchesOf(logs, i) <==> log in logs && log.outputIndex == i
  {
    if logs != [] {
      MatchesMembers(logs[1..], i);
      assert logs == [logs[0]] + logs[1..];
    }
  }

  function OutputIndices(logs: seq<OutputLog>): seq<int> {
    seq(|logs|, i requires 0 <= i < |logs| => logs[i].outputIndex)
  }

  function UpTo(n: nat): set<int> {
    if n == 0 then {} else UpTo(n - 1) + {n - 1}
  }

  lemma {:induction false} UpToSize(n: nat)
    ensures |UpTo(n)| == n && forall i :: i in UpTo(n) <==> 0 <= i < n
  {
    if n > 0 { UpToSize(n - 1); }
  }

  // As many logs as outputs, and one for each: so none for anything else.
  lemma OutputIndicesExact(s: Setting, op: Observed)
    requires op.success.Some? && |op.outputLogs| == |op.request.outputs|
    requires forall i :: 0 <= i < |op.request.outputs| ==> OutputInPlace(s, op, i)
    ensures Distinct(OutputIndices(op.outputLogs))
    ensures forall log :: log in op.outputLogs ==> 0 <= log.outputIndex < |op.request.outputs|
  {
    var n := |op.request.outputs|;
    var indices := OutputIndices(op.outputLogs);
    var seen := set x | x in indices;
    forall i | 0 <= i < n ensures i in seen {
      MatchesMembers(op.outputLogs, i);
      assert OutputInPlace(s, op, i);
      var log := MatchesOf(op.outputLogs, i)[0];
      var j :| 0 <= j < |op.outputLogs| && op.outputLogs[j] == log;
      assert indices[j] == i;
    }
    CountBoundsSet(indices);
    UpToSize(n);
    assert UpTo(n) <= seen;
    SubsetSize(UpTo(n), seen);
    SubsetOfEqualSize(UpTo(n), seen);
    forall log | log in op.outputLogs ensures 0 <= log.outputIndex < n {
      var j :| 0 <= j < |op.outputLogs| && op.outputLogs[j] == log;
      assert indices[j] in seen;
    }
  }

  lemma InputLogWithin(op: Observed, log: InputLog) returns (i: nat)
    requires op.success.Some? && |InputsOf(op)| == |op.request.inputIds| && log in InputsOf(op)
    requires forall i :: 0 <= i < |op.request.inputIds| ==> InputInPlace(op, i)
    ensures i < |op.request.inputIds| && SortedInputs(op)[i] == log && log.at.logIndex == FirstLog(op) + i
  {
    SortMembers(InputsOf(op), InputLogBefore);
    assert log in SortedInputs(op);
    i :| 0 <= i < |SortedInputs(op)| && SortedInputs(op)[i] == log;
    assert InputInPlace(op, i);
  }

  lemma InputLogsDistinct(op: Observed)
    requires op.success.Some? && |InputsOf(op)| == |op.request.inputIds|
    requires forall i :: 0 <= i < |op.request.inputIds| ==> InputInPlace(op, i)
    ensures Distinct(InputsOf(op))
  {
    var sorted, inputs := SortedInputs(op), InputsOf(op);
    assert Distinct(sorted) by {
      forall i, j | 0 <= i < j < |sorted| ensures sorted[i] != sorted[j] {
        assert InputInPlace(op, i) && InputInPlace(op, j);
      }
    }
    SortMembers(inputs, InputLogBefore);
    CountBoundsSet(sorted);
    CountBoundsSet(inputs);
    assert (set x | x in sorted) == (set x | x in inputs);
  }

  lemma OutputLogWithin(s: Setting, op: Observed, log: OutputLog)
    requires op.success.Some? && |op.outputLogs| == |op.request.outputs| && log in op.outputLogs
    requires forall i :: 0 <= i < |op.request.outputs| ==> OutputInPlace(s, op, i)
    ensures 0 <= log.outputIndex < |op.request.outputs|
    ensures log.at.logIndex == op.success.value.logIndex - |op.request.outputs| + log.outputIndex
  {
    OutputIndicesExact(s, op);
    MatchesMembers(op.outputLogs, log.outputIndex);
    assert OutputInPlace(s, op, log.outputIndex);
    assert log in MatchesOf(op.outputLogs, log.outputIndex);
  }

  // The logs of an operation that passes its own checks lie in one interval of one block, from
  // its first input to its success event, no two in the same place.
  lemma LogsFillInterval(s: Setting, op: Observed)
    requires LocalOk(s, op)
    ensures forall at :: at in LogsOf(op) ==>
      at.blockNumber == op.success.value.blockNumber && FirstLog(op) <= at.logIndex <= op.success.value.logIndex
    ensures forall i, j :: 0 <= i < j < |LogsOf(op)| ==> PlaceOf(LogsOf(op)[i]) != PlaceOf(LogsOf(op)[j])
  {
    var logs, m, n := LogsOf(op), |InputsOf(op)|, |op.outputLogs|;
    forall i | 0 <= i < |logs|
      ensures logs[i].blockNumber == op.success.value.blockNumber
      ensures i < m ==> FirstLog(op) <= logs[i].logIndex < FirstLog(op) + m
      ensures m <= i < m + n ==> FirstLog(op) + m <= logs[i].logIndex < op.success.value.logIndex
    {
      assert LogOf(logs[i], op.success.value);
      if i < m {
        var k := InputLogWithin(op, InputsOf(op)[i]);
      } else if i < m + n {
        OutputLogWithin(s, op, op.outputLogs[i - m]);
      }
    }
    InputLogsDistinct(op);
    OutputIndicesExact(s, op);
    forall i, j | 0 <= i < j < |logs| ensures PlaceOf(logs[i]) != PlaceOf(logs[j]) {
      if j < m {
        var k := InputLogWithin(op, InputsOf(op)[i]);
        var l := InputLogWithin(op, InputsOf(op)[j]);
        assert InputsOf(op)[i] != InputsOf(op)[j];
      } else if m <= i && j < m + n {
        OutputLogWithin(s, op, op.outputLogs[i - m]);
        OutputLogWithin(s, op, op.outputLogs[j - m]);
        assert OutputIndices(op.outputLogs)[i - m] != OutputIndices(op.outputLogs)[j - m];
      }
    }
  }

  // ----- A whole history: the intervals follow one another -----

  ghost predicate Before(a: Observed, b: Observed)
    requires a.success.Some? && b.success.Some?
  {
    var x, y := a.success.value, b.success.value;
    x.blockNumber < y.blockNumber || (x.blockNumber == y.blockNumber && x.logIndex < FirstLog(b))
  }

  // Every operation passes its own checks and starts after the success event before it.
  ghost predicate LocalAndAfter(s: Setting, ops: seq<Observed>) {
    forall i :: 0 <= i < |ops| ==> LocalOk(s, ops[i]) && AfterLast(ops[..i], ops[i])
  }

  ghost predicate EachAfterLast(ops: seq<Observed>) {
    forall i :: 0 <= i < |ops| ==> ops[i].success.Some? && AfterLast(ops[..i], ops[i])
  }

  lemma {:induction false} IntervalsFollow(ops: seq<Observed>, j: nat, k: nat)
    requires SortedBy(ops, OperationBefore) && EachAfterLast(ops)
    requires j < k < |ops|
    ensures Before(ops[j], ops[k])
    decreases k
  {
    assert OperationBefore(ops[k - 1], ops[k]) && OperationBefore(ops[j], ops[k]);
    assert AfterLast(ops[..k], ops[k]);
    assert ops[..k][|ops[..k]| - 1] == ops[k - 1];
    if j < k - 1 {
      IntervalsFollow(ops, j, k - 1);
      assert Before(ops[j], ops[k - 1]) && FirstLog(ops[k - 1]) <= ops[k - 1].success.value.logIndex;
    }
  }

  // For operations in chain order, comparing each first log with the preceding success event is
  // enough: the set of positions the replay also keeps never rejects anything more.
  lemma PositionSetImplied(s: Setting, ops: seq<Observed>, k: nat)
    requires SortedBy(ops, OperationBefore) && LocalAndAfter(s, ops)
    requires k < |ops| && ops[k].success.Some?
    ensures LogsNew(ops[..k], ops[k])
  {
    var prior, logs := ops[..k], LogsOf(ops[k]);
    assert EachAfterLast(ops);
    assert LocalOk(s, ops[k]);
    LogsFillInterval(s, ops[k]);
    forall p, i | p in prior && 0 <= i < |logs| ensures !HasLogAt(p, PlaceOf(logs[i])) {
      var j :| 0 <= j < |prior| && prior[j] == p;
      assert ops[j] == p && LocalOk(s, ops[j]);
      IntervalsFollow(ops, j, k);
      LogsFillInterval(s, p);
      assert logs[i] in logs;
    }
  }

  // The logs of the whole history, operation after operation in their own order: success last.
  function ChainOrder(op: Observed): seq<Position> {
    if op.success.None? then [] else
    seq(|SortedInputs(op)|, i requires 0 <= i < |SortedInputs(op)| => SortedInputs(op)[i].at)
    + seq(|op.request.outputs|, i requires 0 <= i < |op.request.outputs| => OutputPlace(op, i))
    + [op.success.value]
  }

  function OutputPlace(op: Observed, i: nat): Position
    requires op.success.Some?
  {
    var matches := MatchesOf(op.outputLogs, i);
    if |matches| == 1 then matches[0].at else op.success.value
  }

  lemma InputConsecutive(s: Setting, op: Observed, i: nat)
    requires LocalOk(s, op) && i < |SortedInputs(op)|
    ensures SortedInputs(op)[i].at.logIndex == FirstLog(op) + i
    ensures SortedInputs(op)[i].at in LogsOf(op)
  {
    assert InputInPlace(op, i);
    SortMembers(InputsOf(op), InputLogBefore);
    var log := SortedInputs(op)[i];
    assert log in InputsOf(op);
    var j :| 0 <= j < |InputsOf(op)| && InputsOf(op)[j] == log;
    assert LogsOf(op)[j] == log.at;
  }

  lemma OutputConsecutive(s: Setting, op: Observed, i: nat)
    requires LocalOk(s, op) && i < |op.request.outputs|
    ensures OutputPlace(op, i).logIndex == FirstLog(op) + |InputsOf(op)| + i
    ensures OutputPlace(op, i) in LogsOf(op)
  {
    assert OutputInPlace(s, op, i);
    MatchesMembers(op.outputLogs, i);
    var log := MatchesOf(op.outputLogs, i)[0];
    assert log in op.outputLogs;
    var j :| 0 <= j < |op.outputLogs| && op.outputLogs[j] == log;
    assert LogsOf(op)[|InputsOf(op)| + j] == log.at;
  }

  // Log i of an operation in chain order stands exactly i places after its first.
  lemma ChainOrderConsecutive(s: Setting, op: Observed, i: nat)
    requires LocalOk(s, op) && i < |ChainOrder(op)|
    ensures ChainOrder(op)[i].logIndex == FirstLog(op) + i
    ensures ChainOrder(op)[i].blockNumber == op.success.value.blockNumber
    ensures ChainOrder(op)[i] in LogsOf(op)
  {
    var m, n := |InputsOf(op)|, |op.request.outputs|;
    if i < m {
      InputConsecutive(s, op, i);
    } else if i < m + n {
      OutputConsecutive(s, op, i - m);
    } else {
      assert LogsOf(op)[m + |op.outputLogs|] == op.success.value;
    }
    var j :| 0 <= j < |LogsOf(op)| && LogsOf(op)[j] == ChainOrder(op)[i];
    assert LogOf(LogsOf(op)[j], op.success.value);
  }

  // Laid end to end, the logs of an accepted, sorted history have strictly increasing places.
  lemma LogsIncrease(s: Setting, ops: seq<Observed>, j: nat, a: nat, k: nat, b: nat)
    requires Accepts(s, ops) && SortedBy(ops, OperationBefore)
    requires j < |ops| && k < |ops|
    requires a < |ChainOrder(ops[j])| && b < |ChainOrder(ops[k])|
    requires j < k || (j == k && a < b)
    ensures var x, y := ChainOrder(ops[j])[a], ChainOrder(ops[k])[b];
      x.blockNumber < y.blockNumber || (x.blockNumber == y.blockNumber && x.logIndex < y.logIndex)
  {
    AcceptedAt(s, ops, j);
    AcceptedAt(s, ops, k);
    ChainOrderConsecutive(s, ops[j], a);
    ChainOrderConsecutive(s, ops[k], b);
    if j < k {
      forall i | 0 <= i < |ops| ensures LocalOk(s, ops[i]) && AfterLast(ops[..i], ops[i]) {
        AcceptedAt(s, ops, i);
      }
      assert EachAfterLast(ops);
      IntervalsFollow(ops, j, k);
    }
  }
}

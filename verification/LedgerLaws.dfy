// The laws of accepted histories: the ledger is a chain of custody, its unspent entries are a
// simple fold, value is conserved, and the logs lie end to end along the chain.
module LedgerLaws {
  import opened Wrappers
  import opened Pool
  import opened Ledger

  // ----- Custody: the ledger without any bookkeeping -----

  ghost predicate CreatesAt(s: Setting, op: Observed, t: nat, id: nat) {
    t < |op.request.outputs| && s.crypto.outputId(IdOf(s, op), t) == id
  }

  ghost predicate EarnedFrom(s: Setting, ops: seq<Observed>, k: nat, id: nat, owner: nat) {
    exists j, t :: 0 <= j < k && j < |ops| && 0 <= t < |ops[j].request.outputs|
      && CreatesAt(s, ops[j], t, id) && ops[j].request.outputs[t].owner == owner
  }

  // Every input is an output of an earlier operation, owned by the spender.
  ghost predicate AllEarned(s: Setting, ops: seq<Observed>) {
    forall k, i :: 0 <= k < |ops| && 0 <= i < |ops[k].request.inputIds| ==>
      EarnedFrom(s, ops, k, ops[k].request.inputIds[i], ops[k].request.owner)
  }

  // No output is spent by two operations.
  ghost predicate SpentOnce(ops: seq<Observed>) {
    forall j, k, id ::
      && 0 <= j < |ops| && 0 <= k < |ops|
      && id in ops[j].request.inputIds && id in ops[k].request.inputIds
      ==> j == k
  }

  // No two outputs share an id.
  ghost predicate OutputsDistinct(s: Setting, ops: seq<Observed>) {
    forall j, t, k, u, id ::
      && 0 <= j < |ops| && 0 <= k < |ops|
      && CreatesAt(s, ops[j], t, id) && CreatesAt(s, ops[k], u, id)
      ==> j == k && t == u
  }

  ghost predicate Custody(s: Setting, ops: seq<Observed>) {
    AllEarned(s, ops) && SpentOnce(ops) && OutputsDistinct(s, ops)
  }

  // ----- What the entries of a history are -----

  ghost predicate SpentIn(ops: seq<Observed>, id: nat) {
    exists k :: 0 <= k < |ops| && id in ops[k].request.inputIds
  }

  lemma {:induction false} CreateAt(s: Setting, created: map<nat, Entry>, op: Observed, n: nat, id: nat)
    requires n <= |op.request.outputs|
    requires forall t: nat, u: nat :: CreatesAt(s, op, t, id) && CreatesAt(s, op, u, id) ==> t == u
    ensures id in Create(s, created, op, n) <==> id in created || exists t :: 0 <= t < n && CreatesAt(s, op, t, id)
    ensures forall t: nat :: t < n && CreatesAt(s, op, t, id) ==> Create(s, created, op, n)[id] == Entry(op, t, None)
    ensures (forall t: nat :: t < n ==> !CreatesAt(s, op, t, id)) && id in created
            ==> Create(s, created, op, n)[id] == created[id]
  {
    if n > 0 {
      CreateAt(s, created, op, n - 1, id);
      var last := s.crypto.outputId(IdOf(s, op), n - 1);
      assert CreatesAt(s, op, n - 1, id) <==> id == last;
      assert Create(s, created, op, n) == Create(s, created, op, n - 1)[last := Entry(op, n - 1, None)];
      if id == last {
        assert CreatesAt(s, op, n - 1, id);
      } else if id in Create(s, created, op, n) && id !in created {
        var t :| 0 <= t < n - 1 && CreatesAt(s, op, t, id);
      }
    }
  }

  // An entry is an output of the history, and it is marked as spent exactly when some
  // operation of the history spends it.
  ghost predicate EntryTrue(s: Setting, ops: seq<Observed>, id: nat, e: Entry) {
    && (exists j :: 0 <= j < |ops| && ops[j] == e.observed && CreatesAt(s, ops[j], e.index, id))
    && (e.consumedBy.Some? <==> SpentIn(ops, id))
    && (e.consumedBy.Some? ==> exists k :: 0 <= k < |ops| && id in ops[k].request.inputIds && e.consumedBy.value == IdOf(s, ops[k]))
  }

  lemma OutputsNewAt(s: Setting, created: map<nat, Entry>, op: Observed)
    requires OutputsNew(s, created, op)
    ensures forall t: nat, id: nat :: CreatesAt(s, op, t, id) ==> id !in created
    ensures forall t: nat, u: nat, id: nat :: CreatesAt(s, op, t, id) && CreatesAt(s, op, u, id) ==> t == u
  {
    var ids := OutputIds(s, op);
    forall t: nat, id: nat | CreatesAt(s, op, t, id) ensures id !in created {
      assert ids[t] == id;
    }
    forall t: nat, u: nat, id: nat | CreatesAt(s, op, t, id) && CreatesAt(s, op, u, id) ensures t == u {
      assert ids[t] == id && ids[u] == id;
    }
  }

  lemma {:induction false} EntriesTrue(s: Setting, ops: seq<Observed>, id: nat)
    requires LedgerOk(s, ops)
    ensures id in Created(s, ops) ==> EntryTrue(s, ops, id, Created(s, ops)[id])
    ensures id in Created(s, ops) <==> exists j, t :: 0 <= j < |ops| && CreatesAt(s, ops[j], t, id)
    ensures SpentIn(ops, id) ==> id in Created(s, ops)
  {
    if ops != [] {
      var n := |ops| - 1;
      var prior, op := ops[..n], ops[n];
      EntriesTrue(s, prior, id);
      var consumed := Consume(Created(s, prior), op.request.inputIds, IdOf(s, op));
      OutputsNewAt(s, Created(s, prior), op);
      CreateAt(s, consumed, op, |op.request.outputs|, id);
      if id in op.request.inputIds {
        var i :| 0 <= i < |op.request.inputIds| && op.request.inputIds[i] == id;
        assert Spendable(Created(s, prior), op, i);
        assert ops[n] == op && id in ops[n].request.inputIds;
      }
      EntriesTrueStep(s, ops, id, consumed);
    }
  }

  lemma EntriesTrueStep(s: Setting, ops: seq<Observed>, id: nat, consumed: map<nat, Entry>)
    requires ops != []
    requires var prior, op := ops[..|ops| - 1], ops[|ops| - 1];
      && consumed == Consume(Created(s, prior), op.request.inputIds, IdOf(s, op))
      && (id in Created(s, prior) ==> EntryTrue(s, prior, id, Created(s, prior)[id]))
      && (id in Created(s, prior) <==> exists j, t :: 0 <= j < |prior| && CreatesAt(s, prior[j], t, id))
      && (SpentIn(prior, id) ==> id in Created(s, prior))
      && (forall t, other :: CreatesAt(s, op, t, other) ==> other !in Created(s, prior))
      && (forall t, u :: CreatesAt(s, op, t, id) && CreatesAt(s, op, u, id) ==> t == u)
      && (id in op.request.inputIds ==> id in Created(s, prior))
    ensures id in Created(s, ops) ==> EntryTrue(s, ops, id, Created(s, ops)[id])
    ensures id in Created(s, ops) <==> exists j, t :: 0 <= j < |ops| && CreatesAt(s, ops[j], t, id)
    ensures SpentIn(ops, id) ==> id in Created(s, ops)
  {
    var n := |ops| - 1;
    var prior, op := ops[..n], ops[n];
    CreateAt(s, consumed, op, |op.request.outputs|, id);
    assert Created(s, ops) == Create(s, consumed, op, |op.request.outputs|);
    assert SpentIn(ops, id) <==> SpentIn(prior, id) || id in op.request.inputIds by {
      if SpentIn(prior, id) {
        var k :| 0 <= k < |prior| && id in prior[k].request.inputIds;
        assert ops[k] == prior[k];
      }
      if SpentIn(ops, id) {
        var k :| 0 <= k < |ops| && id in ops[k].request.inputIds;
        if k < n { assert ops[k] == prior[k]; }
      }
      if id in op.request.inputIds { assert id in ops[n].request.inputIds; }
    }
    if id in Created(s, prior) {
      var e := Created(s, prior)[id];
      var j :| 0 <= j < |prior| && prior[j] == e.observed && CreatesAt(s, prior[j], e.index, id);
      assert ops[j] == prior[j];
      if e.consumedBy.Some? && id !in op.request.inputIds {
        var k :| 0 <= k < |prior| && id in prior[k].request.inputIds && e.consumedBy.value == IdOf(s, prior[k]);
        assert ops[k] == prior[k];
      }
      if id in op.request.inputIds { assert id in ops[n].request.inputIds; }
    } else if id in Created(s, ops) {
      var t :| 0 <= t < |op.request.outputs| && CreatesAt(s, op, t, id);
      assert ops[n] == op && CreatesAt(s, ops[n], t, id);
    }
    if j, t :| 0 <= j < |ops| && CreatesAt(s, ops[j], t, id) {
      if j < n { assert ops[j] == prior[j] && CreatesAt(s, prior[j], t, id); }
    }
  }

  // ----- Acceptance of the ledger is custody -----

  ghost predicate Ascending(ids: seq<nat>) {
    forall i :: 1 <= i < |ids| ==> ids[i - 1] < ids[i]
  }

  lemma {:induction false} AscendingDistinct(ids: seq<nat>, i: nat, j: nat)
    requires Ascending(ids) && i < j < |ids|
    ensures ids[i] < ids[j]
    decreases j
  {
    if i + 1 < j { AscendingDistinct(ids, i, j - 1); }
  }

  lemma {:induction false} LedgerIsCustody(s: Setting, ops: seq<Observed>)
    requires LedgerOk(s, ops)
    ensures Custody(s, ops)
  {
    if ops != [] {
      var n := |ops| - 1;
      var prior, op := ops[..n], ops[n];
      LedgerIsCustody(s, prior);
      forall id { EntriesTrue(s, prior, id); }
      OutputsNewAt(s, Created(s, prior), op);
      EarnedStep(s, ops);
      assert SpentOnce(ops) by {
        forall j, k, id | 0 <= j < |ops| && 0 <= k < |ops| && id in ops[j].request.inputIds && id in ops[k].request.inputIds
          ensures j == k
        {
          SpentOnceStep(s, ops, j, k, id);
        }
      }
      assert OutputsDistinct(s, ops) by {
        forall j, t, k, u, id | 0 <= j < |ops| && 0 <= k < |ops| && CreatesAt(s, ops[j], t, id) && CreatesAt(s, ops[k], u, id)
          ensures j == k && t == u
        {
          if j < n { assert prior[j] == ops[j] && CreatesAt(s, prior[j], t, id); }
          if k < n { assert prior[k] == ops[k] && CreatesAt(s, prior[k], u, id); }
        }
      }
    }
  }

  lemma EarnedStep(s: Setting, ops: seq<Observed>)
    requires ops != [] && LedgerOk(s, ops) && AllEarned(s, ops[..|ops| - 1])
    ensures AllEarned(s, ops)
  {
    var n := |ops| - 1;
    var prior, op := ops[..n], ops[n];
    forall k, i | 0 <= k < |ops| && 0 <= i < |ops[k].request.inputIds|
      ensures EarnedFrom(s, ops, k, ops[k].request.inputIds[i], ops[k].request.owner)
    {
      var id := ops[k].request.inputIds[i];
      if k < n {
        assert prior[k] == ops[k];
        var j, t :| 0 <= j < k && j < |prior| && 0 <= t < |prior[j].request.outputs|
          && CreatesAt(s, prior[j], t, id) && prior[j].request.outputs[t].owner == ops[k].request.owner;
        assert ops[j] == prior[j];
      } else {
        assert Spendable(Created(s, prior), op, i);
        EntriesTrue(s, prior, id);
        var e := Created(s, prior)[id];
        var j :| 0 <= j < |prior| && prior[j] == e.observed && CreatesAt(s, prior[j], e.index, id);
        assert ops[j] == prior[j] && CreatesAt(s, ops[j], e.index, id);
      }
    }
  }

  lemma SpentOnceStep(s: Setting, ops: seq<Observed>, j: nat, k: nat, id: nat)
    requires ops != [] && LedgerOk(s, ops) && SpentOnce(ops[..|ops| - 1])
    requires j < |ops| && k < |ops| && id in ops[j].request.inputIds && id in ops[k].request.inputIds
    ensures j == k
  {
    var n := |ops| - 1;
    var prior, op := ops[..n], ops[n];
    if j < n && k < n {
      assert prior[j] == ops[j] && prior[k] == ops[k];
    } else {
      if id in op.request.inputIds {
        var i :| 0 <= i < |op.request.inputIds| && op.request.inputIds[i] == id;
        assert Spendable(Created(s, prior), op, i);
        EntriesTrue(s, prior, id);
        assert !SpentIn(prior, id);
      }
      assert forall m :: 0 <= m < n ==> prior[m] == ops[m];
    }
  }

  lemma {:induction false} CustodyIsLedger(s: Setting, ops: seq<Observed>)
    requires Custody(s, ops)
    ensures LedgerOk(s, ops)
  {
    if ops != [] {
      var n := |ops| - 1;
      var prior, op := ops[..n], ops[n];
      CustodyPrefix(s, ops);
      CustodyIsLedger(s, prior);
      forall i | 0 <= i < |op.request.inputIds| ensures Spendable(Created(s, prior), op, i) {
        CustodySpendable(s, ops, i);
      }
      var ids := OutputIds(s, op);
      forall i | 0 <= i < |ids| ensures ids[i] !in Created(s, prior) {
        EntriesTrue(s, prior, ids[i]);
        assert CreatesAt(s, ops[n], i, ids[i]);
        forall j, t | 0 <= j < |prior| ensures !CreatesAt(s, prior[j], t, ids[i]) {
          assert prior[j] == ops[j];
        }
      }
      forall i, j | 0 <= i < j < |ids| ensures ids[i] != ids[j] {
        assert CreatesAt(s, ops[n], i, ids[i]) && CreatesAt(s, ops[n], j, ids[j]);
      }
    }
  }

  lemma CustodyPrefix(s: Setting, ops: seq<Observed>)
    requires Custody(s, ops) && ops != []
    ensures Custody(s, ops[..|ops| - 1])
  {
    var prior := ops[..|ops| - 1];
    forall k, i | 0 <= k < |prior| && 0 <= i < |prior[k].request.inputIds|
      ensures EarnedFrom(s, prior, k, prior[k].request.inputIds[i], prior[k].request.owner)
    {
      assert prior[k] == ops[k];
      var id := ops[k].request.inputIds[i];
      assert EarnedFrom(s, ops, k, id, ops[k].request.owner);
      var j, t :| 0 <= j < k && j < |ops| && 0 <= t < |ops[j].request.outputs|
        && CreatesAt(s, ops[j], t, id) && ops[j].request.outputs[t].owner == ops[k].request.owner;
      assert prior[j] == ops[j];
    }
    forall j, k, id | 0 <= j < |prior| && 0 <= k < |prior| && id in prior[j].request.inputIds && id in prior[k].request.inputIds
      ensures j == k
    {
      assert id in ops[j].request.inputIds && id in ops[k].request.inputIds;
    }
    forall j, t, k, u, id | 0 <= j < |prior| && 0 <= k < |prior| && CreatesAt(s, prior[j], t, id) && CreatesAt(s, prior[k], u, id)
      ensures j == k && t == u
    {
      assert CreatesAt(s, ops[j], t, id) && CreatesAt(s, ops[k], u, id);
    }
  }

  lemma CustodySpendable(s: Setting, ops: seq<Observed>, i: nat)
    requires Custody(s, ops) && ops != [] && LedgerOk(s, ops[..|ops| - 1]) && i < |ops[|ops| - 1].request.inputIds|
    ensures Spendable(Created(s, ops[..|ops| - 1]), ops[|ops| - 1], i)
  {
    var n := |ops| - 1;
    var prior, op := ops[..n], ops[n];
    var id := op.request.inputIds[i];
    assert EarnedFrom(s, ops, n, ops[n].request.inputIds[i], ops[n].request.owner);
    var j, t :| 0 <= j < n && j < |ops| && 0 <= t < |ops[j].request.outputs|
      && CreatesAt(s, ops[j], t, id) && ops[j].request.outputs[t].owner == op.request.owner;
    assert prior[j] == ops[j] && CreatesAt(s, prior[j], t, id);
    EntriesTrue(s, prior, id);
    var e := Created(s, prior)[id];
    var m :| 0 <= m < |prior| && prior[m] == e.observed && CreatesAt(s, prior[m], e.index, id);
    assert CreatesAt(s, ops[m], e.index, id);
    assert id in ops[n].request.inputIds;
    forall k | 0 <= k < |prior| ensures id !in prior[k].request.inputIds {
      assert prior[k] == ops[k];
    }
  }

  // The bookkeeping of the replay accepts a history exactly when it is a chain of custody:
  // every input created by an earlier operation for this spender, spent once, and no id reused.
  lemma LedgerIffCustody(s: Setting, ops: seq<Observed>)
    ensures LedgerOk(s, ops) <==> Custody(s, ops)
  {
    if LedgerOk(s, ops) { LedgerIsCustody(s, ops); }
    if Custody(s, ops) { CustodyIsLedger(s, ops); }
  }
}

// The unspent outputs of an accepted history as a simple fold, and the value they carry.
module LedgerValue {
  import opened Counting
  import opened Pool
  import opened Ledger
  import opened LedgerLaws

  function SetOf(ids: seq<nat>): set<nat> {
    set id | id in ids
  }

  // The ledger with no entries: spend the inputs, add the outputs.
  function Unspent(s: Setting, ops: seq<Observed>): set<nat> {
    if ops == [] then {}
    else
      var op := ops[|ops| - 1];
      Unspent(s, ops[..|ops| - 1]) - SetOf(op.request.inputIds) + SetOf(OutputIds(s, op))
  }

  ghost predicate InUnspent(created: map<nat, Entry>, id: nat) {
    id in created && created[id].consumedBy.None?
  }

  // The replay's entries without `consumedBy` are exactly the unspent set of the fold.
  lemma {:induction false} EntriesRefineFold(s: Setting, ops: seq<Observed>, id: nat)
    requires LedgerOk(s, ops)
    ensures id in Unspent(s, ops) <==> InUnspent(Created(s, ops), id)
  {
    if ops != [] {
      var n := |ops| - 1;
      var prior, op := ops[..n], ops[n];
      EntriesRefineFold(s, prior, id);
      OutputsNewAt(s, Created(s, prior), op);
      var consumed := Consume(Created(s, prior), op.request.inputIds, IdOf(s, op));
      CreateAt(s, consumed, op, |op.request.outputs|, id);
      assert id in SetOf(OutputIds(s, op)) <==> exists t :: 0 <= t < |op.request.outputs| && CreatesAt(s, op, t, id) by {
        if id in SetOf(OutputIds(s, op)) {
          var t :| 0 <= t < |OutputIds(s, op)| && OutputIds(s, op)[t] == id;
          assert CreatesAt(s, op, t, id);
        }
        if t :| 0 <= t < |op.request.outputs| && CreatesAt(s, op, t, id) {
          assert OutputIds(s, op)[t] == id;
        }
      }
    }
  }

  // ----- Sums over ids -----

  ghost function SumOf(ids: seq<nat>, amount: nat -> int): int {
    if ids == [] then 0 else SumOf(ids[..|ids| - 1], amount) + amount(ids[|ids| - 1])
  }

  ghost function SumSet(ids: set<nat>, amount: nat -> int): int {
    if ids == {} then 0
    else
      var id :| id in ids;
      amount(id) + SumSet(ids - {id}, amount)
  }

  lemma {:induction false} SumSetAny(ids: set<nat>, amount: nat -> int, x: nat)
    requires x in ids
    ensures SumSet(ids, amount) == amount(x) + SumSet(ids - {x}, amount)
    decreases |ids|
  {
    var id :| id in ids && SumSet(ids, amount) == amount(id) + SumSet(ids - {id}, amount);
    if id != x {
      SumSetAny(ids - {id}, amount, x);
      SumSetAny(ids - {x}, amount, id);
      assert ids - {id} - {x} == ids - {x} - {id};
    }
  }

  lemma {:induction false} SumSetAdd(base: set<nat>, ids: seq<nat>, amount: nat -> int)
    requires Distinct(ids) && forall id :: id in ids ==> id !in base
    ensures SumSet(base + SetOf(ids), amount) == SumSet(base, amount) + SumOf(ids, amount)
  {
    if ids == [] {
      assert base + SetOf(ids) == base;
    } else {
      var rest, last := ids[..|ids| - 1], ids[|ids| - 1];
      SumSetAdd(base, rest, amount);
      assert last !in rest by {
        forall i | 0 <= i < |rest| ensures rest[i] != last { assert rest[i] == ids[i]; }
      }
      assert base + SetOf(ids) - {last} == base + SetOf(rest);
      SumSetAny(base + SetOf(ids), amount, last);
    }
  }

  lemma SumSetRemove(base: set<nat>, ids: seq<nat>, amount: nat -> int)
    requires Distinct(ids) && forall id :: id in ids ==> id in base
    ensures SumSet(base - SetOf(ids), amount) == SumSet(base, amount) - SumOf(ids, amount)
  {
    SumSetAdd(base - SetOf(ids), ids, amount);
    assert base - SetOf(ids) + SetOf(ids) == base;
  }

  // ----- Conservation -----

  // An assignment of amounts under which the operation neither makes nor loses value.
  ghost predicate Balanced(s: Setting, op: Observed, amount: nat -> int) {
    SumOf(op.request.inputIds, amount) + op.request.d == SumOf(OutputIds(s, op), amount) + op.request.w
  }

  function Deposited(ops: seq<Observed>): nat {
    if ops == [] then 0 else Deposited(ops[..|ops| - 1]) + ops[|ops| - 1].request.d
  }

  function Withdrawn(ops: seq<Observed>): nat {
    if ops == [] then 0 else Withdrawn(ops[..|ops| - 1]) + ops[|ops| - 1].request.w
  }

  // Conservation: whatever amounts the commitments hide, if every operation balances, the
  // unspent outputs are worth what was deposited less what was withdrawn.
  lemma {:induction false} Conservation(s: Setting, ops: seq<Observed>, amount: nat -> int)
    requires LedgerOk(s, ops)
    requires forall k :: 0 <= k < |ops| ==> Ascending(ops[k].request.inputIds) && Balanced(s, ops[k], amount)
    ensures SumSet(Unspent(s, ops), amount) == Deposited(ops) - Withdrawn(ops)
  {
    if ops != [] {
      var n := |ops| - 1;
      var prior, op := ops[..n], ops[n];
      forall k | 0 <= k < |prior| ensures Ascending(prior[k].request.inputIds) && Balanced(s, prior[k], amount) {
        assert prior[k] == ops[k];
      }
      Conservation(s, prior, amount);
      var before := Unspent(s, prior);
      var ids, made := op.request.inputIds, OutputIds(s, op);
      assert Distinct(ids) by {
        forall i, j | 0 <= i < j < |ids| ensures ids[i] != ids[j] { AscendingDistinct(ids, i, j); }
      }
      forall id | id in ids ensures id in before {
        var i :| 0 <= i < |ids| && ids[i] == id;
        assert Spendable(Created(s, prior), op, i);
        EntriesRefineFold(s, prior, id);
      }
      SumSetRemove(before, ids, amount);
      forall id | id in made ensures id !in before - SetOf(ids) {
        EntriesRefineFold(s, prior, id);
      }
      SumSetAdd(before - SetOf(ids), made, amount);
    }
  }
}

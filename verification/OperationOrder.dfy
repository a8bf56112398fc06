// Chain order on operations that have a success event, where the sort's comparison is an order.
module OperationOrder {
  import opened Sorting
  import opened Pool

  // Chain order made total: operations without an event come first.
  predicate TotalBefore(a: Observed, b: Observed) {
    a.success.None? || (b.success.Some? && OperationBefore(a, b))
  }

  predicate AllSucceeded(ops: seq<Observed>) {
    forall i :: 0 <= i < |ops| ==> ops[i].success.Some?
  }

  lemma {:induction false} InsertSame(x: Observed, ops: seq<Observed>)
    requires x.success.Some? && AllSucceeded(ops)
    ensures Insert(x, ops, OperationBefore) == Insert(x, ops, TotalBefore)
  {
    if ops != [] { InsertSame(x, ops[1..]); }
  }

  lemma {:induction false} SortSame(ops: seq<Observed>)
    requires AllSucceeded(ops)
    ensures Sort(ops, OperationBefore) == Sort(ops, TotalBefore)
  {
    if ops != [] {
      SortSame(ops[1..]);
      SortMembers(ops[1..], OperationBefore);
      var rest := Sort(ops[1..], OperationBefore);
      forall i | 0 <= i < |rest| ensures rest[i].success.Some? {
        assert rest[i] in ops[1..];
      }
      InsertSame(ops[0], rest);
    }
  }

  lemma TotalBeforeIsPreorder()
    ensures TotalPreorder(TotalBefore)
  {
  }

  ghost predicate StrictlyBefore(a: Observed, b: Observed) {
    OperationBefore(a, b) && !OperationBefore(b, a)
  }

  // A list in strict chain order is what sorting any rearrangement of it gives.
  lemma SortRestores(xs: seq<Observed>, ys: seq<Observed>)
    requires AllSucceeded(xs) && multiset(xs) == multiset(ys)
    requires forall i, j :: 0 <= i < j < |xs| ==> StrictlyBefore(xs[i], xs[j])
    ensures Sort(ys, OperationBefore) == xs
  {
    forall i | 0 <= i < |ys| ensures ys[i].success.Some? {
      assert ys[i] in multiset(xs);
    }
    SortSame(ys);
    TotalBeforeIsPreorder();
    assert SortedBy(xs, TotalBefore);
    assert forall i, j :: 0 <= i < j < |xs| ==> !TotalBefore(xs[j], xs[i]);
    forall i, j | 0 <= i < |xs| && 0 <= j < |xs| && TotalBefore(xs[i], xs[j]) && TotalBefore(xs[j], xs[i])
      ensures i == j
    {
    }
    SortPermutes(ys, TotalBefore);
    SortSorted(ys, TotalBefore);
    SortedUnique(xs, Sort(ys, TotalBefore), TotalBefore);
  }
}

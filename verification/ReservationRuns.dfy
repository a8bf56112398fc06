// All runs of the reservation service: any interleaving of requests, where every await
// (the input reader of putOperation, the finalized reader of reconcileOperation) is a point at
// which other requests may run.
module ReservationRuns {
  import opened Wrappers
  import opened ReservationStore

  // putOperation suspended on the input reader; `existed` is what it saw before the await.
  datatype PendingPut = PendingPut(record: Record, expected: nat, existed: bool)

  // reconcileOperation suspended on the finalized reader.
  datatype PendingReconcile = PendingReconcile(key: Key, before: Row)

  datatype Server = Server(
    tables: Tables, puts: map<nat, PendingPut>, reconciles: map<nat, PendingReconcile>)

  datatype Label =
    | BeginPut(task: nat, scope: Scope, request: Record, expected: nat)
    | CommitPut(task: nat, input: InputState, putGate: Option<Gate>)
    | Release(scope: Scope, request: Record, expected: nat, checkpoint: Checkpoint, releaseGate: Option<Gate>)
    | BeginReconcile(task: nat, scope: Scope, recordId: string)
    | CommitReconcile(task: nat, view: Option<View>, reconcileGate: Option<Gate>)
    | Initialize(gate: Gate)
    | BeginRestore(gate: Gate)
    | CompleteRestore(gate: Gate, recordsComplete: bool, chainReconciled: bool)

  function Init(): Server {
    Server(Tables(map[], map[], None), map[], map[])
  }

  // The reply of a committed put, when the step is one.
  function PutReply(s: Server, l: Label): Option<Result<Row, Error>> {
    if l.CommitPut? && l.task in s.puts then
      var p := s.puts[l.task];
      var verdict := if p.existed then None else InputVerdict(l.input);
      if verdict.Some? then Some(Err(verdict.value))
      else Some(PutTx(s.tables, p.record, p.expected, l.putGate).1)
    else None
  }

  // A label that is not enabled leaves the server as it is.
  function Next(s: Server, l: Label): Server {
    match l
    case BeginPut(task, scope, request, expected) =>
      var begun := PutBegin(s.tables, scope, request);
      if task in s.puts || begun.Err? then s
      else s.(puts := s.puts[task := PendingPut(Normalized(request), expected, begun.value)])
    case CommitPut(task, input, gate) =>
      if task !in s.puts then s
      else
        var p := s.puts[task];
        var rest := s.(puts := s.puts - {task});
        if !p.existed && InputVerdict(input).Some? then rest
        else rest.(tables := PutTx(s.tables, p.record, p.expected, gate).0)
    case Release(scope, request, expected, checkpoint, gate) =>
      s.(tables := ReleaseTx(s.tables, scope, request, expected, checkpoint, gate).0)
    case BeginReconcile(task, scope, recordId) =>
      var key := RecordKey(scope, recordId);
      if task in s.reconciles || key !in s.tables.operations then s
      else s.(reconciles := s.reconciles[task := PendingReconcile(key, s.tables.operations[key])])
    case CommitReconcile(task, view, gate) =>
      if task !in s.reconciles then s
      else
        var p := s.reconciles[task];
        s.(tables := ReconcileTx(s.tables, p.key, p.before, view, gate).0, reconciles := s.reconciles - {task})
    case Initialize(gate) =>
      var r := InitializeTx(s.tables, gate);
      if r.Ok? then s.(tables := r.value) else s
    case BeginRestore(gate) =>
      var r := BeginRestoreTx(s.tables, gate);
      if r.Ok? then s.(tables := r.value) else s
    case CompleteRestore(gate, recordsComplete, chainReconciled) =>
      var r := CompleteRestoreTx(s.tables, gate, recordsComplete, chainReconciled);
      if r.Ok? then s.(tables := r.value) else s
  }

  function Run(s: Server, labels: seq<Label>): Server
    decreases |labels|
  {
    if labels == [] then s else Next(Run(s, labels[..|labels| - 1]), labels[|labels| - 1])
  }

  lemma {:induction false} RunConcat(s: Server, a: seq<Label>, b: seq<Label>)
    ensures Run(s, a + b) == Run(Run(s, a), b)
    decreases |b|
  {
    if b == [] {
      assert a + b == a;
    } else {
      RunConcat(s, a, b[..|b| - 1]);
      assert (a + b)[..|a + b| - 1] == a + b[..|b| - 1];
    }
  }

  lemma OneStep(s: Server, a: Label)
    ensures Run(s, [a]) == Next(s, a)
  {
    assert [a][..0] == [];
  }

  lemma TwoSteps(s: Server, a: Label, b: Label)
    ensures Run(s, [a, b]) == Next(Next(s, a), b)
  {
    OneStep(s, a);
    assert [a, b][..1] == [a];
  }

  // ----- The invariant of every reachable state -----

  predicate Inv(s: Server) {
    TablesInv(s.tables) && PutsKnown(s.tables.operations, s.puts)
  }

  predicate PutsKnown(operations: map<Key, Row>, puts: map<nat, PendingPut>) {
    forall task :: task in puts ==>
      var p := puts[task];
      && (p.existed ==> Key(p.record.scope, p.record.recordId) in operations)
      && (!p.existed ==> !p.record.signatureStarted && p.record.attemptIds == [])
  }

  lemma BeginPutKeeps(s: Server, l: Label)
    requires Inv(s) && l.BeginPut?
    ensures PutsKnown(s.tables.operations, Next(s, l).puts) && Next(s, l).tables == s.tables
  {
    var begun := PutBegin(s.tables, l.scope, l.request);
    if !(l.task in s.puts || begun.Err?) {
      var p := PendingPut(Normalized(l.request), l.expected, begun.value);
      assert Key(p.record.scope, p.record.recordId) == RecordKey(l.scope, l.request.recordId);
      forall task | task in Next(s, l).puts
        ensures var q := Next(s, l).puts[task];
          && (q.existed ==> Key(q.record.scope, q.record.recordId) in s.tables.operations)
          && (!q.existed ==> !q.record.signatureStarted && q.record.attemptIds == [])
      {
        if task != l.task { assert task in s.puts; }
      }
    }
  }

  // What one step keeps; `restored` when it completes a restore.
  predicate StepKeeps(t: Tables, u: Tables, restored: bool) {
    && TablesInv(u) && StepEvolves(t, u)
    && (!restored && IsStopped(t.environment) ==> IsStopped(u.environment))
    && (!restored && !IsStopped(u.environment) && LiveHolds(t) ==> LiveHolds(u))
  }

  lemma CommitPutStep(s: Server, l: Label)
    requires Inv(s) && l.CommitPut?
    ensures StepKeeps(s.tables, Next(s, l).tables, false)
  {
    StepKeepsSame(s.tables);
    CommitPutTables(s, l);
    if l.task in s.puts {
      PutTxKeeps(s.tables, s.puts[l.task].record, s.puts[l.task].expected, l.putGate);
    }
  }

  lemma CommitPutTables(s: Server, l: Label)
    requires l.CommitPut?
    ensures Next(s, l).tables == s.tables
      || (l.task in s.puts && Next(s, l).tables == PutTx(s.tables, s.puts[l.task].record, s.puts[l.task].expected, l.putGate).0)
  {
  }

  lemma StepKeepsSame(t: Tables)
    requires TablesInv(t)
    ensures StepKeeps(t, t, false)
  {
  }

  lemma CommitReconcileStep(s: Server, l: Label)
    requires Inv(s) && l.CommitReconcile?
    ensures StepKeeps(s.tables, Next(s, l).tables, false)
  {
    if l.task in s.reconciles {
      ReconcileTxKeeps(s.tables, s.reconciles[l.task].key, s.reconciles[l.task].before, l.view, l.reconcileGate);
    }
  }

  lemma ReleaseStep(s: Server, l: Label)
    requires Inv(s) && l.Release?
    ensures StepKeeps(s.tables, Next(s, l).tables, false)
  {
    ReleaseTxKeeps(s.tables, l.scope, l.request, l.expected, l.checkpoint, l.releaseGate);
  }

  // Every other step leaves operations and rows alone, and only a completed restore ends a stop.
  lemma EnvironmentStep(s: Server, l: Label)
    requires !l.CommitPut? && !l.CommitReconcile? && !l.Release?
    ensures Next(s, l).tables.operations == s.tables.operations && Next(s, l).tables.active == s.tables.active
    ensures !l.CompleteRestore? && IsStopped(s.tables.environment) ==> IsStopped(Next(s, l).tables.environment)
  {
  }

  lemma TablesStep(s: Server, l: Label)
    requires Inv(s)
    ensures StepKeeps(s.tables, Next(s, l).tables, l.CompleteRestore?)
  {
    if l.CommitPut? {
      CommitPutStep(s, l);
    } else if l.CommitReconcile? {
      CommitReconcileStep(s, l);
    } else if l.Release? {
      ReleaseStep(s, l);
    } else {
      EnvironmentStep(s, l);
      SameRows(s.tables, Next(s, l).tables);
    }
  }

  lemma SameRows(t: Tables, u: Tables)
    requires u.operations == t.operations && u.active == t.active
    ensures TablesInv(t) ==> TablesInv(u) && StepEvolves(t, u)
    ensures LiveHolds(t) <==> LiveHolds(u)
  {
    if LiveHolds(t) {
      forall k | k in u.operations && u.operations[k].status.Live() ensures HoldsInput(u, k) {
        assert HoldsInput(t, k);
      }
    }
    if LiveHolds(u) {
      forall k | k in t.operations && t.operations[k].status.Live() ensures HoldsInput(t, k) {
        assert HoldsInput(u, k);
      }
    }
  }

  lemma NextKeeps(s: Server, l: Label)
    requires Inv(s)
    ensures var s' := Next(s, l);
      && Inv(s') && StepEvolves(s.tables, s'.tables)
      && (!l.CompleteRestore? && IsStopped(s.tables.environment) ==> IsStopped(s'.tables.environment))
      && (!l.CompleteRestore? && !IsStopped(s'.tables.environment) && LiveHolds(s.tables) ==> LiveHolds(s'.tables))
  {
    TablesStep(s, l);
    var s' := Next(s, l);
    if l.BeginPut? {
      BeginPutKeeps(s, l);
    } else {
      PutsStay(s, s', l);
    }
  }

  lemma PutsStay(s: Server, s': Server, l: Label)
    requires Inv(s) && !l.BeginPut? && s' == Next(s, l) && StepEvolves(s.tables, s'.tables)
    ensures PutsKnown(s'.tables.operations, s'.puts)
  {
    forall task | task in s'.puts
      ensures var p := s'.puts[task];
        && (p.existed ==> Key(p.record.scope, p.record.recordId) in s'.tables.operations)
        && (!p.existed ==> !p.record.signatureStarted && p.record.attemptIds == [])
    {
      assert task in s.puts && s'.puts[task] == s.puts[task];
    }
  }

  lemma {:induction false} InvHolds(labels: seq<Label>)
    ensures Inv(Run(Init(), labels))
  {
    if labels != [] {
      InvHolds(labels[..|labels| - 1]);
      NextKeeps(Run(Init(), labels[..|labels| - 1]), labels[|labels| - 1]);
    }
  }

  // In every reachable state a reservation row points to a live operation of its own scope and
  // input, whatever restores took place.
  lemma ReservationRowsSound(labels: seq<Label>)
    ensures ActiveSound(Run(Init(), labels).tables)
  {
    InvHolds(labels);
  }

  // ----- Exclusion of inputs -----

  // Each restore that completes finds every live operation holding its row. With no restore in
  // the run this is vacuous; an operator can check it on the tables before completing one.
  predicate RestoresClean(s: Server, labels: seq<Label>)
    decreases |labels|
  {
    labels == [] ||
    var before := Run(s, labels[..|labels| - 1]);
    && RestoresClean(s, labels[..|labels| - 1])
    && (labels[|labels| - 1].CompleteRestore? && Next(before, labels[|labels| - 1]) != before
        ==> LiveHolds(before.tables))
  }

  predicate NoRestore(labels: seq<Label>) {
    forall i :: 0 <= i < |labels| ==> !labels[i].CompleteRestore?
  }

  lemma {:induction false} NoRestoreIsClean(s: Server, labels: seq<Label>)
    requires NoRestore(labels)
    ensures RestoresClean(s, labels)
    decreases |labels|
  {
    if labels != [] {
      NoRestoreIsClean(s, labels[..|labels| - 1]);
    }
  }

  // Live operations that all hold their rows go on doing so while the environment runs.
  lemma {:induction false} LiveHoldsFrom(s: Server, labels: seq<Label>)
    requires Inv(s) && LiveHolds(s.tables) && RestoresClean(s, labels)
    ensures Inv(Run(s, labels))
    ensures IsStopped(Run(s, labels).tables.environment) || LiveHolds(Run(s, labels).tables)
    decreases |labels|
  {
    if labels != [] {
      var before, l := labels[..|labels| - 1], labels[|labels| - 1];
      LiveHoldsFrom(s, before);
      var mid := Run(s, before);
      NextKeeps(mid, l);
      if l.CompleteRestore? && Next(mid, l) != mid {
        EnvironmentStep(mid, l);
        SameRows(mid.tables, Next(mid, l).tables);
      }
    }
  }

  // The exclusion of inputs: while the environment is not stopped, an operation is reserved or
  // unknown exactly when it holds the reservation row of its input, so no two such operations
  // of one scope share an input.
  lemma InputExclusion(labels: seq<Label>)
    requires RestoresClean(Init(), labels)
    ensures var t := Run(Init(), labels).tables;
      !IsStopped(t.environment) ==>
        && (forall k :: k in t.operations ==> (t.operations[k].status.Live() <==> HoldsInput(t, k)))
        && Exclusive(t)
  {
    LiveHoldsFrom(Init(), labels);
    var t := Run(Init(), labels).tables;
    if !IsStopped(t.environment) { LiveExactlyHolds(t); }
  }

  // ----- What a completed restore leaves open -----

  // Scope and input of every record, stored or suspended, are spelled the normal way.
  predicate NormalRecord(record: Record) {
    NormalScope(record.scope) == record.scope && Lower(record.inputId) == record.inputId
  }

  ghost predicate Normal(s: Server) {
    && (forall k :: k in s.tables.operations ==> NormalRecord(s.tables.operations[k].record))
    && (forall task :: task in s.puts ==> NormalRecord(s.puts[task].record))
  }

  lemma NormalizedIsNormal(request: Record)
    ensures NormalRecord(Normalized(request))
  {
    LowerIdempotent(request.scope.owner);
    LowerIdempotent(request.inputId);
  }

  lemma PutsNormal(s: Server, l: Label)
    requires Normal(s)
    ensures forall task :: task in Next(s, l).puts ==> NormalRecord(Next(s, l).puts[task].record)
  {
    if l.BeginPut? { NormalizedIsNormal(l.request); }
  }

  // A record that a step adds is a suspended one, added as it was found missing before the await.
  lemma AddedRow(s: Server, l: Label, k: Key)
    requires PutsKnown(s.tables.operations, s.puts)
    requires k in Next(s, l).tables.operations && k !in s.tables.operations
    ensures l.CommitPut? && l.task in s.puts && l.input == OwnedUnspent && !s.puts[l.task].existed
    ensures Next(s, l).tables.operations[k] == Row(s.puts[l.task].record, 1, 1, Reserved, None)
  {
    if l.Release? {
      ReleaseTxAdds(s.tables, l);
    } else if l.CommitReconcile? && l.task in s.reconciles {
      ReconcileTxAdds(s.tables, s.reconciles[l.task], l);
    } else if l.CommitPut? && l.task in s.puts {
      CommitPutTables(s, l);
      PutTxAdds(s.tables, s.puts[l.task], l.putGate, k);
    } else {
      EnvironmentStep(s, l);
    }
  }

  lemma ReleaseTxAdds(t: Tables, l: Label)
    requires l.Release?
    ensures ReleaseTx(t, l.scope, l.request, l.expected, l.checkpoint, l.releaseGate).0.operations.Keys == t.operations.Keys
  {
  }

  lemma ReconcileTxAdds(t: Tables, p: PendingReconcile, l: Label)
    requires l.CommitReconcile?
    ensures ReconcileTx(t, p.key, p.before, l.view, l.reconcileGate).0.operations.Keys == t.operations.Keys
  {
  }

  lemma PutTxAdds(t: Tables, p: PendingPut, gate: Option<Gate>, k: Key)
    requires k !in t.operations && k in PutTx(t, p.record, p.expected, gate).0.operations
    ensures k == Key(p.record.scope, p.record.recordId)
    ensures PutTx(t, p.record, p.expected, gate).0.operations[k] == Row(p.record, 1, 1, Reserved, None)
  {
  }

  lemma NormalStep(s: Server, l: Label)
    requires Inv(s) && Normal(s)
    ensures Normal(Next(s, l))
  {
    PutsNormal(s, l);
    NextKeeps(s, l);
    var t, u := s.tables.operations, Next(s, l).tables.operations;
    forall k | k in u ensures NormalRecord(u[k].record) {
      if k in t {
        assert Evolves(t[k], u[k]);
      } else {
        AddedRow(s, l, k);
      }
    }
  }

  lemma {:induction false} NormalHolds(labels: seq<Label>)
    ensures Normal(Run(Init(), labels))
  {
    if labels != [] {
      var before := labels[..|labels| - 1];
      InvHolds(before);
      NormalHolds(before);
      NormalStep(Run(Init(), before), labels[|labels| - 1]);
    }
  }

  lemma {:induction false} FreshNat(used: set<nat>) returns (n: nat)
    ensures forall m :: m in used ==> m < n
  {
    if used == {} {
      n := 0;
    } else {
      var m :| m in used;
      var rest := FreshNat(used - {m});
      n := if rest <= m then m + 1 else rest;
      forall k | k in used ensures k < n {
        if k != m { assert k in used - {m}; }
      }
    }
  }

  function Letters(n: nat): (r: string)
    ensures |r| == n
  {
    if n == 0 then "" else "a" + Letters(n - 1)
  }

  lemma {:induction false} LettersNormal(n: nat)
    ensures Lower(Letters(n)) == Letters(n)
  {
    if n > 0 { LettersNormal(n - 1); }
  }

  // A record on the given input that no operation has the name of.
  lemma UnusedRecord(operations: map<Key, Row>, scope: Scope, inputId: string) returns (r: Record)
    requires NormalScope(scope) == scope && Lower(inputId) == inputId
    ensures r.scope == scope && r.inputId == inputId && Normalized(r) == r && !r.signatureStarted && r.attemptIds == []
    ensures Key(scope, r.recordId) !in operations
  {
    var lengths := set k | k in operations :: |k.id|;
    var n := FreshNat(lengths);
    LettersNormal(n);
    r := Record(scope, Letters(n), inputId, "", "", Withdraw, Bundle("", 0, ""), false, []);
    assert forall k :: k in operations ==> |k.id| in lengths && |k.id| < n;
  }

  // One put, begun and committed under a gate with nothing in between.
  function PutSteps(r: Record, task: nat, gate: Option<Gate>): seq<Label> {
    [BeginPut(task, r.scope, r, 0), CommitPut(task, OwnedUnspent, gate)]
  }

  // A live operation without its row: once the environment runs, the state has two live operations
  // on one input, or a single put of an unused record, under any gate that lets it write, leads to one.
  lemma OrphanLosesExclusion(s: Server, gate: Option<Gate>) returns (more: seq<Label>)
    requires Inv(s) && Normal(s) && !IsStopped(s.tables.environment) && !LiveHolds(s.tables)
    requires Writable(s.tables.environment, gate)
    ensures more == [] || exists r, task ::
      more == PutSteps(r, task, gate) && Key(r.scope, r.recordId) !in s.tables.operations
    ensures var t := Run(s, more).tables; !IsStopped(t.environment) && !Exclusive(t)
  {
    var k :| k in s.tables.operations && s.tables.operations[k].status.Live() && !HoldsInput(s.tables, k);
    var hold := Key(k.scope, s.tables.operations[k].record.inputId);
    if hold in s.tables.active {
      more := [];
      HeldByAnother(s.tables, k);
    } else {
      var row := s.tables.operations[k];
      var r := UnusedRecord(s.tables.operations, k.scope, row.record.inputId);
      var task := FreshNat(s.puts.Keys);
      assert task !in s.puts.Keys;
      more := PutSteps(r, task, gate);
      PutOnOrphan(s, k, r, task, gate);
    }
  }

  lemma PutOnOrphan(s: Server, k: Key, r: Record, task: nat, gate: Option<Gate>)
    requires WellKeyed(s.tables) && !IsStopped(s.tables.environment) && Writable(s.tables.environment, gate)
    requires k in s.tables.operations && s.tables.operations[k].status.Live()
    requires r.scope == k.scope && r.inputId == s.tables.operations[k].record.inputId
    requires Normalized(r) == r && !r.signatureStarted && r.attemptIds == [] && task !in s.puts
    requires Key(r.scope, r.recordId) !in s.tables.operations && Key(r.scope, r.inputId) !in s.tables.active
    ensures var t := Run(s, PutSteps(r, task, gate)).tables; !IsStopped(t.environment) && !Exclusive(t)
  {
    ReserveRun(s, r, task, gate);
    SharedInput(Run(s, PutSteps(r, task, gate)).tables, k, Key(r.scope, r.recordId));
  }

  lemma SharedInput(t: Tables, j: Key, k: Key)
    requires j in t.operations && k in t.operations && j != k && j.scope == k.scope
    requires t.operations[j].status.Live() && t.operations[k].status.Live()
    requires t.operations[j].record.inputId == t.operations[k].record.inputId
    ensures !Exclusive(t)
  {
  }

  // The row of an input whose live operation does not hold it belongs to another live operation.
  lemma HeldByAnother(t: Tables, k: Key)
    requires TablesInv(t) && k in t.operations && t.operations[k].status.Live() && !HoldsInput(t, k)
    requires Key(k.scope, t.operations[k].record.inputId) in t.active
    ensures !Exclusive(t)
  {
    var hold := Key(k.scope, t.operations[k].record.inputId);
    var j := Key(hold.scope, t.active[hold]);
    assert j in t.operations && j != k;
  }

  // Each write of the step is let in by a gate, as it is on every route of the service.
  predicate Guarded(l: Label) {
    && (l.CommitPut? ==> l.putGate.Some?)
    && (l.Release? ==> l.releaseGate.Some?)
    && (l.CommitReconcile? ==> l.reconcileGate.Some?)
  }

  // Whatever follows, no two live operations share an input while the environment runs, provided
  // that every further restore is clean and, if so asked, every write is guarded.
  ghost predicate StaysExclusive(s: Server, guarded: bool) {
    forall more :: RestoresClean(s, more) && (guarded ==> forall l :: l in more ==> Guarded(l))
      ==> ExclusiveWhileRunning(Run(s, more).tables)
  }

  ghost predicate ExclusiveWhileRunning(t: Tables) {
    !IsStopped(t.environment) ==> Exclusive(t)
  }

  // In any reachable state, completing a restore keeps inputs exclusive, now and in everything that
  // follows up to a restore that is not clean, exactly when every live operation holds its row
  // beforehand. The transaction compares no rows itself, so this is what its caller has to check.
  // Under a gate the service accepts, guarded writes are enough to break it.
  lemma RestoreKeepsExclusionExactly(labels: seq<Label>, gate: Gate)
    requires Run(Init(), labels).tables.environment.Some? && gate.stopped
    ensures var s := Run(Init(), labels);
      var u := Next(s, CompleteRestore(gate, true, true));
      && (StaysExclusive(u, false) <==> LiveHolds(s.tables))
      && (gate.generation != "" ==> (StaysExclusive(u, true) <==> LiveHolds(s.tables)))
  {
    InvHolds(labels);
    NormalHolds(labels);
    var s := Run(Init(), labels);
    var u := Next(s, CompleteRestore(gate, true, true));
    RestoredExclusion(s, u, None, false);
    if gate.generation != "" { RestoredExclusion(s, u, Some(Gate(gate.generation, false, false)), true); }
  }

  lemma RestoredExclusion(s: Server, u: Server, open: Option<Gate>, guarded: bool)
    requires Inv(s) && Normal(s)
    requires u.tables.operations == s.tables.operations && u.tables.active == s.tables.active && u.puts == s.puts
    requires !IsStopped(u.tables.environment) && Writable(u.tables.environment, open) && (guarded ==> open.Some?)
    ensures StaysExclusive(u, guarded) <==> LiveHolds(s.tables)
  {
    SameRows(s.tables, u.tables);
    if LiveHolds(s.tables) {
      forall more | RestoresClean(u, more) ensures ExclusiveWhileRunning(Run(u, more).tables) {
        CleanStaysExclusive(u, more);
      }
    } else {
      OrphanBreaks(u, open, guarded);
    }
  }

  lemma CleanStaysExclusive(s: Server, labels: seq<Label>)
    requires Inv(s) && LiveHolds(s.tables) && RestoresClean(s, labels)
    ensures ExclusiveWhileRunning(Run(s, labels).tables)
  {
    LiveHoldsFrom(s, labels);
    if LiveHolds(Run(s, labels).tables) { LiveExactlyHolds(Run(s, labels).tables); }
  }

  lemma OrphanBreaks(s: Server, open: Option<Gate>, guarded: bool)
    requires Inv(s) && Normal(s) && !IsStopped(s.tables.environment) && !LiveHolds(s.tables)
    requires Writable(s.tables.environment, open) && (guarded ==> open.Some?)
    ensures !StaysExclusive(s, guarded)
  {
    var more := OrphanLosesExclusion(s, open);
    NoRestoreIsClean(s, more);
    assert guarded ==> forall l :: l in more ==> Guarded(l);
    assert !ExclusiveWhileRunning(Run(s, more).tables);
  }

  lemma ReserveRun(s: Server, r: Record, task: nat, gate: Option<Gate>)
    requires task !in s.puts && Normalized(r) == r && !r.signatureStarted && r.attemptIds == []
    requires !IsStopped(s.tables.environment) && Writable(s.tables.environment, gate)
    requires Key(r.scope, r.recordId) !in s.tables.operations && Key(r.scope, r.inputId) !in s.tables.active
    ensures Run(s, PutSteps(r, task, gate)) == s.(tables := s.tables.(
      operations := s.tables.operations[Key(r.scope, r.recordId) := Row(r, 1, 1, Reserved, None)],
      active := s.tables.active[Key(r.scope, r.inputId) := r.recordId]))
  {
    var begin, commit := BeginPut(task, r.scope, r, 0), CommitPut(task, OwnedUnspent, gate);
    TwoSteps(s, begin, commit);
    var s1 := Next(s, begin);
    assert s1 == s.(puts := s.puts[task := PendingPut(r, 0, false)]);
    assert s1.puts - {task} == s.puts;
  }

  // One reconcile of a stored record, with nothing in between.
  function ReconcileSteps(k: Key, view: View, gate: Gate): seq<Label> {
    [BeginReconcile(0, k.scope, k.id), CommitReconcile(0, Some(view), Some(gate))]
  }

  lemma ReconcileRun(s: Server, k: Key, view: View, gate: Gate)
    requires 0 !in s.reconciles && k in s.tables.operations
    requires NormalScope(k.scope) == k.scope && Lower(k.id) == k.id
    ensures Run(s, ReconcileSteps(k, view, gate))
      == s.(tables := ReconcileTx(s.tables, k, s.tables.operations[k], Some(view), Some(gate)).0)
  {
    var begin, commit := BeginReconcile(0, k.scope, k.id), CommitReconcile(0, Some(view), Some(gate));
    TwoSteps(s, begin, commit);
    var s1 := Next(s, begin);
    assert s1 == s.(reconciles := s.reconciles[0 := PendingReconcile(k, s.tables.operations[k])]);
    assert s1.reconciles - {0} == s.reconciles;
  }

  // The finalized view of one block, in which nothing of the operation succeeded.
  function ViewAt(height: nat, hash: string, spent: bool): View {
    View(Checkpoint(height, hash, 0), hash, spent, hash, false, None)
  }

  function RestoreSteps(g: string): seq<Label> {
    [BeginRestore(Gate(g, true, false)), CompleteRestore(Gate(g, true, false), true, true)]
  }

  // A withdrawal is reserved and found consumed at a block; the chain then finalizes another block
  // of that height, in which its input is unspent, and the environment stops. The operator begins
  // and completes a restore.
  function ReorgUntilRestored(first: Record, g: string, height: nat, before: string, after: string): seq<Label> {
    var k, open := Key(first.scope, first.recordId), Gate(g, false, false);
    [Initialize(Gate(g, false, true))] + PutSteps(first, 0, Some(open))
    + ReconcileSteps(k, ViewAt(height, before, true), open)
    + ReconcileSteps(k, ViewAt(height, after, false), open)
    + RestoreSteps(g)
  }

  // Followed by one put, that run loses the exclusion, for any two withdrawals of one input: the
  // reopened operation is live without a row, and the second one reserves the same input. Every
  // write passes the gate of a running service.
  lemma RestoreCanLoseExclusion(first: Record, second: Record, g: string, height: nat, before: string, after: string)
    requires Normalized(first) == first && Normalized(second) == second
    requires first.scope == second.scope && first.inputId == second.inputId && first.recordId != second.recordId
    requires first.kind.Withdraw? && !first.signatureStarted && first.attemptIds == []
    requires !second.signatureStarted && second.attemptIds == []
    requires g != "" && Lower(before) != Lower(after)
    ensures var labels := ReorgUntilRestored(first, g, height, before, after) + PutSteps(second, 0, Some(Gate(g, false, false)));
      var t := Run(Init(), labels).tables;
      !IsStopped(t.environment) && !Exclusive(t) && forall l :: l in labels ==> Guarded(l)
  {
    var open := Gate(g, false, false);
    var labels := ReorgUntilRestored(first, g, height, before, after);
    UntilRestored(first, g, height, before, after);
    RunConcat(Init(), labels, PutSteps(second, 0, Some(open)));
    var s := Run(Init(), labels);
    PutOnOrphan(s, Key(first.scope, first.recordId), second, 0, Some(open));
    forall l | l in labels + PutSteps(second, 0, Some(open)) ensures Guarded(l) {
      ReorgGuarded(first, g, height, before, after, l);
    }
  }

  lemma ReorgGuarded(first: Record, g: string, height: nat, before: string, after: string, l: Label)
    ensures l in ReorgUntilRestored(first, g, height, before, after) ==> Guarded(l)
  {
  }

  // Up to the completed restore: the operation is live again, and no row is left.
  lemma UntilRestored(first: Record, g: string, height: nat, before: string, after: string)
    requires Normalized(first) == first && first.kind.Withdraw? && !first.signatureStarted && first.attemptIds == []
    requires g != "" && Lower(before) != Lower(after)
    ensures Holding(Run(Init(), ReorgUntilRestored(first, g, height, before, after)),
      Row(first, 1, 3, Unknown, None), map[], Environment(Healthy, g))
  {
    var k, open := Key(first.scope, first.recordId), Gate(g, false, false);
    var put := PutSteps(first, 0, Some(open));
    var consume := ReconcileSteps(k, ViewAt(height, before, true), open);
    var reopen := ReconcileSteps(k, ViewAt(height, after, false), open);
    FirstReserved(first, g);
    RunConcat(Init(), [Initialize(Gate(g, false, true))] + put, consume);
    Consumed(Run(Init(), [Initialize(Gate(g, false, true))] + put), first, g, height, before);
    RunConcat(Init(), [Initialize(Gate(g, false, true))] + put + consume, reopen);
    Reopened(Run(Init(), [Initialize(Gate(g, false, true))] + put + consume), first, g, height, before, after);
    RunConcat(Init(), [Initialize(Gate(g, false, true))] + put + consume + reopen, RestoreSteps(g));
    Restored(Run(Init(), [Initialize(Gate(g, false, true))] + put + consume + reopen), g);
  }

  lemma FirstReserved(first: Record, g: string)
    requires Normalized(first) == first && !first.signatureStarted && first.attemptIds == [] && g != ""
    ensures Holding(Run(Init(), [Initialize(Gate(g, false, true))] + PutSteps(first, 0, Some(Gate(g, false, false)))),
      Row(first, 1, 1, Reserved, None), map[Key(first.scope, first.inputId) := first.recordId], Environment(Healthy, g))
  {
    var start, put := [Initialize(Gate(g, false, true))], PutSteps(first, 0, Some(Gate(g, false, false)));
    RunConcat(Init(), start, put);
    OneStep(Init(), start[0]);
    ReserveRun(Run(Init(), start), first, 0, Some(Gate(g, false, false)));
  }

  // The state of that run: no suspended request, one operation, and the rows given.
  predicate Holding(s: Server, row: Row, active: map<Key, string>, environment: Environment) {
    && s.puts == map[] && s.reconciles == map[]
    && s.tables == Tables(map[Key(row.record.scope, row.record.recordId) := row], active, Some(environment))
  }

  lemma Consumed(s: Server, first: Record, g: string, height: nat, before: string)
    requires Normalized(first) == first && first.kind.Withdraw? && g != ""
    requires Holding(s, Row(first, 1, 1, Reserved, None),
      map[Key(first.scope, first.inputId) := first.recordId], Environment(Healthy, g))
    ensures Holding(
      Run(s, ReconcileSteps(Key(first.scope, first.recordId), ViewAt(height, before, true), Gate(g, false, false))),
      Row(first, 1, 2, Status.Consumed, Some(Checkpoint(height, before, 0))), map[], Environment(Healthy, g))
  {
    ReconcileRun(s, Key(first.scope, first.recordId), ViewAt(height, before, true), Gate(g, false, false));
  }

  lemma Reopened(s: Server, first: Record, g: string, height: nat, before: string, after: string)
    requires Normalized(first) == first && first.kind.Withdraw? && g != "" && Lower(before) != Lower(after)
    requires Holding(s, Row(first, 1, 2, Status.Consumed, Some(Checkpoint(height, before, 0))), map[], Environment(Healthy, g))
    ensures Holding(
      Run(s, ReconcileSteps(Key(first.scope, first.recordId), ViewAt(height, after, false), Gate(g, false, false))),
      Row(first, 1, 3, Unknown, None), map[], Environment(Stopped, g))
  {
    ReconcileRun(s, Key(first.scope, first.recordId), ViewAt(height, after, false), Gate(g, false, false));
  }

  lemma Restored(s: Server, g: string)
    requires s.tables.environment.Some? && g != ""
    ensures Run(s, RestoreSteps(g))
      == s.(tables := s.tables.(environment := Some(Environment(Healthy, g))))
  {
    TwoSteps(s, BeginRestore(Gate(g, true, false)), CompleteRestore(Gate(g, true, false), true, true));
  }

  // ----- Records over a run -----

  // Whatever inserts an operation is a put that read its input as owned and unspent, and the
  // operation starts at revision 1 with no signature and no attempt. The check made before the
  // await still stands at the insert, since operations are never deleted.
  lemma InsertedAfterInputCheck(labels: seq<Label>, l: Label, k: Key)
    requires k !in Run(Init(), labels).tables.operations
    requires k in Next(Run(Init(), labels), l).tables.operations
    ensures l.CommitPut? && l.input == OwnedUnspent
    ensures var row := Next(Run(Init(), labels), l).tables.operations[k];
      row.revision == 1 && row.status == Reserved && !row.record.signatureStarted && row.record.attemptIds == []
  {
    InvHolds(labels);
    AddedRow(Run(Init(), labels), l, k);
  }

  lemma {:induction false} RunEvolves(s: Server, labels: seq<Label>, k: Key)
    requires Inv(s) && k in s.tables.operations
    ensures var t := Run(s, labels).tables;
      Inv(Run(s, labels)) && k in t.operations && Evolves(s.tables.operations[k], t.operations[k])
    decreases |labels|
  {
    if labels != [] {
      var mid := Run(s, labels[..|labels| - 1]);
      RunEvolves(s, labels[..|labels| - 1], k);
      NextKeeps(mid, labels[|labels| - 1]);
      EvolvesTransitive(s.tables.operations[k], mid.tables.operations[k], Run(s, labels).tables.operations[k]);
    }
  }

  // Between any two moments of any run, an operation keeps its identity, terms and place; its
  // revision only rises, its attempts only grow at the end, and a started signature stays so.
  lemma RecordsMonotone(earlier: seq<Label>, later: seq<Label>, k: Key)
    requires k in Run(Init(), earlier).tables.operations
    ensures var t := Run(Run(Init(), earlier), later).tables;
      k in t.operations && Evolves(Run(Init(), earlier).tables.operations[k], t.operations[k])
  {
    InvHolds(earlier);
    RunEvolves(Run(Init(), earlier), later, k);
  }

  // One step raises the revision of an operation by at most one, and when it stays the whole
  // record stays.
  lemma RevisionCountsWrites(labels: seq<Label>, l: Label, k: Key)
    requires k in Run(Init(), labels).tables.operations
    ensures var a, b := Run(Init(), labels).tables.operations, Next(Run(Init(), labels), l).tables.operations;
      k in b && (b[k].record == a[k].record || b[k].revision == a[k].revision + 1)
  {
    InvHolds(labels);
    NextKeeps(Run(Init(), labels), l);
  }

  // A terminal operation changes only in a step that stops the environment.
  lemma TerminalChangeStops(labels: seq<Label>, l: Label, k: Key)
    requires k in Run(Init(), labels).tables.operations && Run(Init(), labels).tables.operations[k].status.Terminal()
    ensures var after := Next(Run(Init(), labels), l).tables;
      k in after.operations
      && (after.operations[k] == Run(Init(), labels).tables.operations[k] || IsStopped(after.environment))
  {
    InvHolds(labels);
    NextKeeps(Run(Init(), labels), l);
  }

  // Released, consumed and finalized-success absorb: as long as no restore completes and the
  // environment has not been stopped, a terminal operation never changes again.
  lemma {:induction false} TerminalAbsorbs(s: Server, labels: seq<Label>, k: Key)
    requires Inv(s) && k in s.tables.operations && s.tables.operations[k].status.Terminal()
    requires NoRestore(labels)
    requires !IsStopped(Run(s, labels).tables.environment)
    ensures Inv(Run(s, labels)) && k in Run(s, labels).tables.operations
    ensures Run(s, labels).tables.operations[k] == s.tables.operations[k]
    decreases |labels|
  {
    if labels != [] {
      var ls, l := labels[..|labels| - 1], labels[|labels| - 1];
      assert forall i :: 0 <= i < |ls| ==> ls[i] == labels[i];
      RunEvolves(s, ls, k);
      NextKeeps(Run(s, ls), l);
      TerminalAbsorbs(s, ls, k);
    }
  }
}

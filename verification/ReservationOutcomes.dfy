// What the reservation transactions decide, said of the tables and the request alone.
module ReservationOutcomes {
  import opened Wrappers
  import opened ReservationStore

  // ----- Spelling -----

  // The same character, or the same letter in the other case.
  predicate SameLetter(a: char, b: char) {
    || a == b
    || ('A' <= a <= 'Z' && b as int == a as int + 32)
    || ('A' <= b <= 'Z' && a as int == b as int + 32)
  }

  predicate SameSpelling(a: string, b: string) {
    |a| == |b| && forall i :: 0 <= i < |a| ==> SameLetter(a[i], b[i])
  }

  // Names compare equal exactly when they differ in the case of letters at most.
  lemma {:induction false} LowerIff(a: string, b: string)
    ensures Lower(a) == Lower(b) <==> SameSpelling(a, b)
  {
    if |a| == |b| && a != "" {
      LowerIff(a[1..], b[1..]);
      LowerCharIff(a[0], b[0]);
      assert Lower(a) == [LowerChar(a[0])] + Lower(a[1..]) && Lower(b) == [LowerChar(b[0])] + Lower(b[1..]);
      assert Lower(a) == Lower(b) <==> LowerChar(a[0]) == LowerChar(b[0]) && Lower(a[1..]) == Lower(b[1..]) by {
        assert Lower(a)[0] == LowerChar(a[0]) && Lower(b)[0] == LowerChar(b[0]);
        assert Lower(a)[1..] == Lower(a[1..]) && Lower(b)[1..] == Lower(b[1..]);
      }
      if SameSpelling(a, b) { assert SameSpelling(a[1..], b[1..]); }
      if SameLetter(a[0], b[0]) && SameSpelling(a[1..], b[1..]) {
        forall i | 0 <= i < |a| ensures SameLetter(a[i], b[i]) {
          if i > 0 { assert a[i] == a[1..][i - 1] && b[i] == b[1..][i - 1]; }
        }
      }
    }
  }

  lemma LowerCharIff(a: char, b: char)
    ensures LowerChar(a) == LowerChar(b) <==> SameLetter(a, b)
  {
  }

  // Two spellings of one record.
  predicate SameRecord(a: Record, b: Record) {
    && a.scope.deploymentId == b.scope.deploymentId && SameSpelling(a.scope.owner, b.scope.owner)
    && SameSpelling(a.recordId, b.recordId) && SameSpelling(a.inputId, b.inputId)
    && SameSpelling(a.operationId, b.operationId) && SameSpelling(a.contentHash, b.contentHash)
    && a.bundle == b.bundle && a.signatureStarted == b.signatureStarted && a.attemptIds == b.attemptIds
    && match (a.kind, b.kind)
       case (Withdraw, Withdraw) => true
       case (Pay(p, d), Pay(q, e)) => SameSpelling(p, q) && d == e
       case _ => false
  }

  // The service stores one record for all its spellings, and only for those.
  lemma NormalizedIff(a: Record, b: Record)
    ensures Normalized(a) == Normalized(b) <==> SameRecord(a, b)
  {
    LowerIff(a.scope.owner, b.scope.owner);
    LowerIff(a.recordId, b.recordId);
    LowerIff(a.inputId, b.inputId);
    LowerIff(a.operationId, b.operationId);
    LowerIff(a.contentHash, b.contentHash);
    if a.kind.Pay? && b.kind.Pay? { LowerIff(a.kind.paymentId, b.kind.paymentId); }
  }

  // ----- Reconciling -----

  // The view is of one block: every part of it was read at the checkpoint.
  predicate OneBlock(view: View) {
    && Lower(view.inputHash) == Lower(view.checkpoint.blockHash) && Lower(view.payHash) == Lower(view.checkpoint.blockHash)
    && (view.operation.Some? ==> Lower(view.operation.value.0) == Lower(view.checkpoint.blockHash))
  }

  // The payment, or the withdrawal's operation, succeeded.
  predicate Succeeded(kind: Kind, view: View) {
    if kind.Pay? then view.paySucceeded else view.operation.Some? && view.operation.value.1
  }

  predicate PastDeadline(kind: Kind, view: View) {
    kind.Pay? && view.checkpoint.blockTimestamp > kind.deadline
  }

  // A reconcile that writes: the environment runs, and the row is the one read before the view.
  predicate Reconcilable(t: Tables, key: Key, before: Row, gate: Option<Gate>) {
    && Writable(t.environment, gate) && !IsStopped(t.environment) && key in t.operations
    && t.operations[key].stateVersion == before.stateVersion && t.operations[key].revision == before.revision
    && t.operations[key].record == before.record
  }

  // The status a live reservation is left with, by what the view shows. A success counts whatever
  // the state of the input, since paying spends it.
  predicate Decides(kind: Kind, view: Option<View>, status: Status) {
    && (status == Unknown <==> view.None? || !OneBlock(view.value))
    && (status == FinalizedSuccess <==> view.Some? && OneBlock(view.value) && Succeeded(kind, view.value))
    && (status == Consumed <==> view.Some? && OneBlock(view.value) && !Succeeded(kind, view.value) && view.value.inputSpent)
    && (status == Released <==>
          view.Some? && OneBlock(view.value) && !Succeeded(kind, view.value) && !view.value.inputSpent && PastDeadline(kind, view.value))
    && (status == Reserved <==>
          view.Some? && OneBlock(view.value) && !Succeeded(kind, view.value) && !view.value.inputSpent && !PastDeadline(kind, view.value))
  }

  lemma ReconcileDecides(t: Tables, key: Key, before: Row, view: Option<View>, gate: Option<Gate>)
    requires Reconcilable(t, key, before, gate) && t.operations[key].status.Live()
    ensures var u := ReconcileTx(t, key, before, view, gate).0;
      key in u.operations && Decides(before.record.kind, view, u.operations[key].status)
  {
  }

  // What else it leaves: the record and its revision, the checkpoint it was decided at, and the
  // reservation row, which goes exactly when the operation is over. Nothing else changes.
  lemma ReconcileWrites(t: Tables, key: Key, before: Row, view: Option<View>, gate: Option<Gate>)
    requires Reconcilable(t, key, before, gate) && t.operations[key].status.Live()
    ensures var (u, r) := ReconcileTx(t, key, before, view, gate);
      && key in u.operations && r == Ok(u.operations[key])
      && var row, after := t.operations[key], u.operations[key];
      && u.operations == t.operations[key := after] && u.environment == t.environment
      && after.record == row.record && after.revision == row.revision
      && (after == row || after.stateVersion == row.stateVersion + 1)
      && (after == row ==> u == t)
      && (after.stateVersion != row.stateVersion ==>
            after.checkpoint == if after.status == Unknown || view.None? then None else Some(view.value.checkpoint))
      && (after.status == row.status && after.status != Unknown ==>
            view.Some? && after.checkpoint.Some? && after.checkpoint.value.blockHash == view.value.checkpoint.blockHash)
      && (after.status.Live() ==> u.active == t.active)
      && (after.status.Terminal() ==>
            var hold := Key(key.scope, row.record.inputId);
            u.active == if hold in t.active && t.active[hold] == key.id then t.active - {hold} else t.active)
  {
  }

  // An operation that is over is reopened, and the environment stopped, exactly by a view that
  // contradicts it: another block at the height it was decided at, or another outcome.
  lemma ReconcileReopens(t: Tables, key: Key, before: Row, view: Option<View>, gate: Option<Gate>)
    requires Reconcilable(t, key, before, gate) && t.operations[key].status.Terminal()
    ensures var u, row := ReconcileTx(t, key, before, view, gate).0, t.operations[key];
      && (IsStopped(u.environment) <==> view.Some? && Contradicts(row, view.value))
      && (!IsStopped(u.environment) ==> u == t)
      && (IsStopped(u.environment) ==>
            && u.operations == t.operations[key := row.(status := Unknown, stateVersion := row.stateVersion + 1, checkpoint := None)]
            && u.active == t.active)
  {
    if view.Some? { ReconcileDecides(Live(t, key), key, before, view, gate); }
  }

  // The same row, were it still live.
  function Live(t: Tables, key: Key): Tables
    requires key in t.operations
  {
    t.(operations := t.operations[key := t.operations[key].(status := Unknown, checkpoint := None)])
  }

  predicate Contradicts(row: Row, view: View) {
    || (row.checkpoint.Some? && row.checkpoint.value.blockNumber == view.checkpoint.blockNumber
        && Lower(row.checkpoint.value.blockHash) != Lower(view.checkpoint.blockHash))
    || (OneBlock(view) && !Shows(row.record.kind, view, row.status))
  }

  // The view of one block shows this outcome.
  predicate Shows(kind: Kind, view: View, status: Status) {
    match status
    case FinalizedSuccess => Succeeded(kind, view)
    case Consumed => !Succeeded(kind, view) && view.inputSpent
    case Released => !Succeeded(kind, view) && !view.inputSpent && PastDeadline(kind, view)
    case Reserved => !Succeeded(kind, view) && !view.inputSpent && !PastDeadline(kind, view)
    case Unknown => false
  }

  // ----- Putting -----

  // A rewriting the service takes: nothing of the operation itself, never a signature or an attempt
  // taken back, and a fresh encryption.
  predicate Rewriting(row: Row, record: Record, expected: nat) {
    && SameImmutable(row.record, record) && row.status.Live() && row.revision == expected
    && (row.record.signatureStarted ==> record.signatureStarted)
    && row.record.attemptIds <= record.attemptIds && row.record.bundle.nonce != record.bundle.nonce
  }

  // A put of a stored record is accepted exactly when it repeats what is stored or rewrites it so;
  // and then the record put is what is stored, one revision on.
  lemma PutRewrites(t: Tables, record: Record, expected: nat, gate: Option<Gate>)
    requires var key := Key(record.scope, record.recordId);
      && key in t.operations && t.operations[key].record.scope == record.scope && t.operations[key].record.recordId == record.recordId
    ensures var (u, r) := PutTx(t, record, expected, gate);
      var key := Key(record.scope, record.recordId);
      var row := t.operations[key];
      && (r.Ok? <==> Writable(t.environment, gate) && !IsStopped(t.environment)
                     && (row.record == record || Rewriting(row, record, expected)))
      && (r.Ok? ==> r.value == if row.record == record then row else row.(record := record, revision := row.revision + 1))
      && u == if r.Ok? then t.(operations := t.operations[key := r.value]) else t
  {
    var key := Key(record.scope, record.recordId);
    if SameImmutable(t.operations[key].record, record) && SameMutable(t.operations[key].record, record) {
      assert t.operations[key].record == record;
    }
  }

  // Why one is refused: no writing now; another operation, or one that is over; or a stale rewriting.
  lemma PutRefuses(t: Tables, record: Record, expected: nat, gate: Option<Gate>)
    requires Key(record.scope, record.recordId) in t.operations && PutTx(t, record, expected, gate).1.Err?
    ensures var row, e := t.operations[Key(record.scope, record.recordId)], PutTx(t, record, expected, gate).1.error;
      && (e == ServiceUnavailable <==> !Writable(t.environment, gate) || IsStopped(t.environment))
      && (e == ReservationConflict <==>
            && Writable(t.environment, gate) && !IsStopped(t.environment)
            && (!SameImmutable(row.record, record) || row.status.Terminal()))
      && (e == ServiceUnavailable || e == ReservationConflict || e == RevisionConflict)
  {
  }

  // A put of a new record is accepted exactly when it starts from nothing on an input no one holds.
  lemma PutReserves(t: Tables, record: Record, expected: nat, gate: Option<Gate>)
    requires Key(record.scope, record.recordId) !in t.operations
    ensures var (u, r) := PutTx(t, record, expected, gate);
      var key, hold := Key(record.scope, record.recordId), Key(record.scope, record.inputId);
      && (r.Ok? <==> Writable(t.environment, gate) && !IsStopped(t.environment) && expected == 0 && hold !in t.active)
      && (r.Ok? ==>
            && r.value == Row(record, 1, 1, Reserved, None)
            && u == t.(operations := t.operations[key := r.value], active := t.active[hold := record.recordId]))
      && (r.Err? ==> u == t)
      && (r == Err(ReservationConflict) <==> Writable(t.environment, gate) && !IsStopped(t.environment) && expected == 0 && hold in t.active)
      && (r == Err(RevisionConflict) <==> Writable(t.environment, gate) && !IsStopped(t.environment) && expected != 0)
  {
  }

  // ----- Releasing -----

  // A payment that is released: live, holding its input, under a fresh encryption at the expected revision.
  predicate Releasing(t: Tables, key: Key, record: Record, expected: nat) {
    && key in t.operations
    && var row := t.operations[key];
    && row.status.Live() && record.kind.Pay? && SameImmutable(row.record, record)
    && row.record.signatureStarted == record.signatureStarted && row.record.attemptIds == record.attemptIds
    && row.revision == expected && row.record.bundle.nonce != record.bundle.nonce
    && HoldsInput(t, key)
  }

  // The same release once more: it finds its own result.
  predicate ReleasedBefore(t: Tables, key: Key, record: Record, expected: nat, checkpoint: Checkpoint) {
    && key in t.operations
    && var row := t.operations[key];
    && row.status == Released && row.record == record && row.revision == expected + 1
    && row.checkpoint.Some? && Lower(row.checkpoint.value.blockHash) == Lower(checkpoint.blockHash)
  }

  lemma ReleaseDecides(t: Tables, scope: Scope, record: Record, expected: nat, checkpoint: Checkpoint, gate: Option<Gate>)
    requires WellKeyed(t) && Normalized(record) == record && NormalScope(scope) == scope
    ensures var (u, r) := ReleaseTx(t, scope, record, expected, checkpoint, gate);
      var key := Key(record.scope, record.recordId);
      && (r.Ok? <==> record.scope == scope && Writable(t.environment, gate)
                     && (ReleasedBefore(t, key, record, expected, checkpoint) || Releasing(t, key, record, expected)))
      && (r.Err? || ReleasedBefore(t, key, record, expected, checkpoint) ==> u == t)
      && (r.Ok? && Releasing(t, key, record, expected) ==>
            var row := t.operations[key];
            && r.value == row.(record := record, revision := row.revision + 1, stateVersion := row.stateVersion + 1,
                               status := Released, checkpoint := Some(checkpoint))
            && u == t.(operations := t.operations[key := r.value], active := t.active - {Key(key.scope, record.inputId)}))
  {
  }

  // ----- Before a put -----

  // A put begins on a stored record, or on a new one that has not started; scope and names are
  // compared without regard to case.
  lemma PutBegins(t: Tables, scope: Scope, record: Record)
    ensures var begun := PutBegin(t, scope, record);
      var same := record.scope.deploymentId == scope.deploymentId && Lower(record.scope.owner) == Lower(scope.owner);
      var stored := Key(Scope(scope.deploymentId, Lower(scope.owner)), Lower(record.recordId)) in t.operations;
      && (begun == Err(ScopeMismatch) <==> !same)
      && (begun == Ok(true) <==> same && stored)
      && (begun == Ok(false) <==> same && !stored && !record.signatureStarted && record.attemptIds == [])
      && (begun == Err(RevisionConflict) <==> same && !stored && (record.signatureStarted || record.attemptIds != []))
  {
  }

  lemma InputDecides(input: InputState)
    ensures InputVerdict(input).None? <==> input == OwnedUnspent
    ensures InputVerdict(input) == Some(ServiceUnavailable) <==> input == InputUnknown
    ensures InputVerdict(input) == Some(ReservationConflict) <==> input == Spent || input == OtherOwner
  {
  }

  // ----- The environment -----

  // An environment is opened once, by a gate that says so; stopped by a gate that is; and opened
  // again, under the gate's generation, only with all evidence. None of these touches a row.
  lemma EnvironmentChanges(t: Tables, gate: Gate, recordsComplete: bool, chainReconciled: bool)
    ensures var begun, stopped := InitializeTx(t, gate), BeginRestoreTx(t, gate);
      var restored := CompleteRestoreTx(t, gate, recordsComplete, chainReconciled);
      && (begun.Ok? <==> t.environment.None? && !gate.stopped && gate.initialize && gate.generation != "")
      && (begun.Ok? ==> begun.value == t.(environment := Some(Environment(Healthy, gate.generation))))
      && (stopped.Ok? <==> gate.stopped && gate.generation != "")
      && (stopped.Ok? ==>
            && stopped.value.operations == t.operations && stopped.value.active == t.active && IsStopped(stopped.value.environment)
            && (t.environment.Some? ==> stopped.value.environment.value.generation == t.environment.value.generation))
      && (restored.Ok? <==> gate.stopped && recordsComplete && chainReconciled)
      && (restored.Ok? ==>
            restored.value == if t.environment.None? then t else t.(environment := Some(Environment(Healthy, gate.generation))))
  {
  }

  // Writing is let in exactly by an open gate of the generation the environment runs under.
  lemma WritableExactly(environment: Option<Environment>, gate: Gate)
    ensures Writable(environment, Some(gate)) <==>
      && !gate.stopped && gate.generation != "" && environment == Some(Environment(Healthy, gate.generation))
    ensures Writable(environment, Some(gate)) ==> !IsStopped(environment)
  {
  }
}

// The reservation transactions as the service runs them, one statement after another over the
// tables of a Durable Object. Each method is proved equal to its transaction function.
module ReservationDatabase {
  import opened Wrappers
  import opened ReservationStore
  import opened ReservationOutcomes

  class Database {
    var operations: map<Key, Row>
    var active: map<Key, string>
    var environment: Option<Environment>

    ghost function State(): Tables
      reads this
    {
      Tables(operations, active, environment)
    }

    // Every reservation row points to a live operation of its own scope and input.
    ghost predicate Valid()
      reads this
    {
      TablesInv(State())
    }

    constructor ()
      ensures Valid() && State() == Tables(map[], map[], None)
    {
      operations, active, environment := map[], map[], None;
    }

    // INSERT INTO operation_attempts, one row for each id from position `from` on.
    method AppendAttempts(key: Key, attemptIds: seq<string>, from: nat)
      requires key in operations && from <= |attemptIds|
      modifies this
      ensures active == old(active) && environment == old(environment)
      ensures key in old(operations)
      ensures var row := old(operations)[key];
        operations == old(operations)[key :=
          row.(record := row.record.(attemptIds := row.record.attemptIds + attemptIds[from..]))]
    {
      var row := operations[key];
      var stored := row.record.attemptIds;
      for i := from to |attemptIds|
        invariant active == old(active) && environment == old(environment)
        invariant stored == row.record.attemptIds + attemptIds[from..i]
        invariant operations == old(operations)[key := row.(record := row.record.(attemptIds := stored))]
      {
        stored := stored + [attemptIds[i]];
        operations := operations[key := row.(record := row.record.(attemptIds := stored))];
      }
      assert attemptIds[from..|attemptIds|] == attemptIds[from..];
    }

    // The branch of putOperation for a record that is there.
    method UpdateOperation(key: Key, record: Record, expected: nat) returns (r: Result<Row, Error>)
      requires key in operations
      modifies this
      ensures r == PutUpdate(old(operations)[key], record, expected)
      ensures State() == old(State()).(operations := if r.Ok? then old(operations)[key := r.value] else old(operations))
    {
      var current := operations[key];
      if !SameImmutable(current.record, record) { return Err(ReservationConflict); }
      if SameMutable(current.record, record) { return Ok(current); }
      if current.status.Terminal() { return Err(ReservationConflict); }
      if current.revision != expected { return Err(RevisionConflict); }
      if current.record.signatureStarted && !record.signatureStarted { return Err(RevisionConflict); }
      if !(current.record.attemptIds <= record.attemptIds) { return Err(RevisionConflict); }
      if current.record.bundle.nonce == record.bundle.nonce { return Err(RevisionConflict); }
      operations := operations[key := current.(
        record := current.record.(bundle := record.bundle, signatureStarted := record.signatureStarted),
        revision := current.revision + 1)];
      AppendAttempts(key, record.attemptIds, |current.record.attemptIds|);
      assert current.record.attemptIds + record.attemptIds[|current.record.attemptIds|..] == record.attemptIds;
      r := Ok(operations[key]);
    }

    // The transaction of putOperation: its statements compute the table function, and what that
    // function keeps is kept.
    method CommitPut(record: Record, expected: nat, gate: Option<Gate>) returns (r: Result<Row, Error>)
      modifies this
      ensures State() == PutTx(old(State()), record, expected, gate).0
      ensures r == PutTx(old(State()), record, expected, gate).1
      ensures old(Valid()) ==> Valid()
      ensures Keeps(old(State()), State())
    {
      PutKeeps(State(), record, expected, gate);
      r := PutStatements(record, expected, gate);
    }

    method PutStatements(record: Record, expected: nat, gate: Option<Gate>) returns (r: Result<Row, Error>)
      modifies this
      ensures State() == PutTx(old(State()), record, expected, gate).0
      ensures r == PutTx(old(State()), record, expected, gate).1
    {
      if !Writable(environment, gate) { return Err(ServiceUnavailable); }
      if environment.Some? && environment.value.status == Stopped { return Err(ServiceUnavailable); }
      var key := Key(record.scope, record.recordId);
      if key in operations {
        r := UpdateOperation(key, record, expected);
        return;
      }
      if expected != 0 { return Err(RevisionConflict); }
      var hold := Key(record.scope, record.inputId);
      if hold in active { return Err(ReservationConflict); }
      operations := operations[key := Row(record.(attemptIds := []), 1, 1, Reserved, None)];
      AppendAttempts(key, record.attemptIds, 0);
      assert [] + record.attemptIds[0..] == record.attemptIds;
      active := active[hold := record.recordId];
      r := Ok(operations[key]);
    }

    // putOperation with nothing interleaved; `input` is what the input reader would answer.
    method PutOperation(scope: Scope, request: Record, expected: nat, input: InputState, gate: Option<Gate>)
        returns (r: Result<Row, Error>)
      modifies this
      ensures var begun := PutBegin(old(State()), scope, request);
        if begun.Err? then r == Err(begun.error) && State() == old(State())
        else if !begun.value && InputVerdict(input).Some? then
          r == Err(InputVerdict(input).value) && State() == old(State())
        else
          State() == PutTx(old(State()), Normalized(request), expected, gate).0
          && r == PutTx(old(State()), Normalized(request), expected, gate).1
      ensures old(Valid()) ==> Valid()
      ensures Keeps(old(State()), State())
    {
      EnvironmentKeeps(State(), environment);
      var record := Normalized(request);
      if record.scope != NormalScope(scope) { return Err(ScopeMismatch); }
      if Key(record.scope, record.recordId) !in operations {
        if record.signatureStarted || record.attemptIds != [] { return Err(RevisionConflict); }
        match input {
          case InputUnknown => return Err(ServiceUnavailable);
          case OwnedUnspent =>
          case _ => return Err(ReservationConflict);
        }
      }
      r := CommitPut(record, expected, gate);
    }

    method DeleteReservation(key: Key, inputId: string)
      modifies this`active
      ensures active == FreeInput(old(active), key, inputId)
    {
      var hold := Key(key.scope, inputId);
      if hold in active && active[hold] == key.id {
        active := active - {hold};
      }
    }

    method ReleaseOperation(scope: Scope, request: Record, expected: nat, checkpoint: Checkpoint, gate: Option<Gate>)
        returns (r: Result<Row, Error>)
      modifies this
      ensures State() == ReleaseTx(old(State()), scope, request, expected, checkpoint, gate).0
      ensures r == ReleaseTx(old(State()), scope, request, expected, checkpoint, gate).1
      ensures old(Valid()) ==> Valid()
      ensures Keeps(old(State()), State())
    {
      ReleaseKeeps(State(), scope, request, expected, checkpoint, gate);
      r := ReleaseStatements(scope, request, expected, checkpoint, gate);
    }

    method ReleaseStatements(scope: Scope, request: Record, expected: nat, checkpoint: Checkpoint, gate: Option<Gate>)
        returns (r: Result<Row, Error>)
      modifies this
      ensures State() == ReleaseTx(old(State()), scope, request, expected, checkpoint, gate).0
      ensures r == ReleaseTx(old(State()), scope, request, expected, checkpoint, gate).1
    {
      var record := Normalized(request);
      if record.scope != NormalScope(scope) { return Err(ScopeMismatch); }
      if !Writable(environment, gate) { return Err(ServiceUnavailable); }
      var key := Key(record.scope, record.recordId);
      if key !in operations { return Err(NotFound); }
      var current := operations[key];
      if current.status == Released && SameImmutable(current.record, record) && SameMutable(current.record, record) {
        if current.revision != expected + 1 || current.checkpoint.None?
          || Lower(current.checkpoint.value.blockHash) != Lower(checkpoint.blockHash) {
          return Err(RevisionConflict);
        }
        return Ok(current);
      }
      if current.status != Reserved && current.status != Unknown { return Err(ReservationConflict); }
      if !record.kind.Pay? || !SameImmutable(current.record, record)
        || current.record.signatureStarted != record.signatureStarted
        || current.record.attemptIds != record.attemptIds {
        return Err(ReservationConflict);
      }
      if current.revision != expected || SameMutable(current.record, record)
        || current.record.bundle.nonce == record.bundle.nonce {
        return Err(RevisionConflict);
      }
      var hold := Key(record.scope, record.inputId);
      if hold !in active || active[hold] != record.recordId { return Err(ReservationConflict); }
      operations := operations[key := current.(
        record := current.record.(bundle := record.bundle), revision := current.revision + 1,
        stateVersion := current.stateVersion + 1, status := Released, checkpoint := Some(checkpoint))];
      DeleteReservation(key, current.record.inputId);
      return Ok(operations[key]);
    }

    // The transaction of reconcileOperation, given the row and the view read before it.
    method CommitReconcile(key: Key, before: Row, view: Option<View>, gate: Option<Gate>) returns (r: Result<Row, Error>)
      modifies this
      ensures State() == ReconcileTx(old(State()), key, before, view, gate).0
      ensures r == ReconcileTx(old(State()), key, before, view, gate).1
      ensures old(Valid()) ==> Valid()
      ensures Keeps(old(State()), State())
      ensures old(Reconcilable(State(), key, before, gate) && State().operations[key].status.Live()) ==>
        key in operations && Decides(before.record.kind, view, operations[key].status)
    {
      if Reconcilable(State(), key, before, gate) && operations[key].status.Live() {
        ReconcileDecides(State(), key, before, view, gate);
      }
      ReconcileKeeps(State(), key, before, view, gate);
      r := ReconcileStatements(key, before, view, gate);
    }

    method ReconcileStatements(key: Key, before: Row, view: Option<View>, gate: Option<Gate>) returns (r: Result<Row, Error>)
      modifies this
      ensures State() == ReconcileTx(old(State()), key, before, view, gate).0
      ensures r == ReconcileTx(old(State()), key, before, view, gate).1
    {
      var next := if view.None? then Unknown else Classify(before.record, view.value);
      if !Writable(environment, gate) { return Err(ServiceUnavailable); }
      if IsStopped(environment) {
        if key in operations { return Ok(operations[key]); }
        return Err(NotFound);
      }
      if key !in operations { return Err(NotFound); }
      var current := operations[key];
      if current.stateVersion != before.stateVersion || current.revision != before.revision { return Ok(current); }
      if current.status == Released || current.status == Consumed || current.status == FinalizedSuccess {
        if !Conflicting(current, view, next) { return Ok(current); }
        environment := StopEnvironment(environment, "");
        operations := operations[key := current.(
          status := Unknown, stateVersion := current.stateVersion + 1, checkpoint := None)];
        return Ok(operations[key]);
      }
      if next == current.status
        && (view.None? || (current.checkpoint.Some? && current.checkpoint.value.blockHash == view.value.checkpoint.blockHash)) {
        return Ok(current);
      }
      var checkpoint := if next == Unknown || view.None? then None else Some(view.value.checkpoint);
      operations := operations[key := current.(
        status := next, stateVersion := current.stateVersion + 1, checkpoint := checkpoint)];
      if next == Released || next == Consumed || next == FinalizedSuccess {
        DeleteReservation(key, current.record.inputId);
      }
      return Ok(operations[key]);
    }

    // beginRestore: once it succeeds nothing writes an operation before a restore is completed.
    method BeginRestore(gate: Gate) returns (r: Option<Error>)
      modifies this`environment
      ensures var u := BeginRestoreTx(old(State()), gate);
        if u.Ok? then r.None? && State() == u.value else r == Some(u.error) && State() == old(State())
      ensures old(Valid()) ==> Valid()
      ensures Keeps(old(State()), State())
      ensures r.None? ==> IsStopped(environment)
      ensures IsStopped(environment) ==>
        (forall record, expected, put :: PutTx(State(), record, expected, put) == (State(), Err(ServiceUnavailable)))
        && (forall key, before, view, reconcile :: ReconcileTx(State(), key, before, view, reconcile).0 == State())
    {
      if gate.stopped && gate.generation != "" { EnvironmentKeeps(State(), StopEnvironment(environment, gate.generation)); }
      EnvironmentKeeps(State(), environment);
      if !gate.stopped || gate.generation == "" { return Some(ExternalStopRequired); }
      environment := StopEnvironment(environment, gate.generation);
      r := None;
    }

    // completeRestore: records and rows stay as they are, so inputs are exclusive afterwards when
    // every live operation held its row before.
    method CompleteRestore(gate: Gate, recordsComplete: bool, chainReconciled: bool) returns (r: Option<Error>)
      modifies this`environment
      ensures var u := CompleteRestoreTx(old(State()), gate, recordsComplete, chainReconciled);
        if u.Ok? then r.None? && State() == u.value else r == Some(u.error) && State() == old(State())
      ensures old(Valid()) ==> Valid()
      ensures Keeps(old(State()), State())
      ensures r.None? ==> !IsStopped(environment)
      ensures old(Valid() && LiveHolds(State())) ==> LiveHolds(State()) && Exclusive(State())
    {
      EnvironmentKeeps(State(), Some(Environment(Healthy, gate.generation)));
      EnvironmentKeeps(State(), environment);
      if !gate.stopped { return Some(ExternalStopRequired); }
      if !recordsComplete || !chainReconciled { return Some(RestoreEvidenceIncomplete); }
      if environment.Some? {
        environment := Some(Environment(Healthy, gate.generation));
      }
      r := None;
    }
  }
}

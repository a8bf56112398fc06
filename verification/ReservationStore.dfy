// The service's reservation tables: the transactions of apps/uniswap-service/src/store.ts,
// reconcile.ts and recovery.ts over the tables `operations` (with `operation_attempts`),
// `active_reservations` and `environment_state`.
//
// Each `transactionSync` body is one function from tables to tables. The class Database runs
// the same transactions statement by statement and is proved equal to those functions.
module ReservationStore {
  import opened Wrappers

  // ----- Records -----

  datatype Scope = Scope(deploymentId: string, owner: string)

  // Two encryptions are told apart by their nonce, kept as a number.
  datatype Bundle = Bundle(ciphertext: string, nonce: nat, tag: string)

  datatype Kind = Pay(paymentId: string, deadline: int) | Withdraw

  datatype Record = Record(
    scope: Scope, recordId: string, inputId: string, operationId: string, contentHash: string,
    kind: Kind, bundle: Bundle, signatureStarted: bool, attemptIds: seq<string>)

  datatype Status = Reserved | Unknown | Released | Consumed | FinalizedSuccess {
    predicate Live() { this == Reserved || this == Unknown }
    predicate Terminal() { !Live() }
  }

  datatype Checkpoint = Checkpoint(blockNumber: nat, blockHash: string, blockTimestamp: int)

  datatype Row = Row(
    record: Record, revision: nat, stateVersion: nat, status: Status, checkpoint: Option<Checkpoint>)

  datatype EnvStatus = Healthy | Stopped

  datatype Environment = Environment(status: EnvStatus, generation: string)

  // The external recovery gate of a deployment.
  datatype Gate = Gate(generation: string, stopped: bool, initialize: bool)

  // Both `operations` (by record id) and `active_reservations` (by input id) are keyed this way.
  datatype Key = Key(scope: Scope, id: string)

  datatype Tables = Tables(
    operations: map<Key, Row>, active: map<Key, string>, environment: Option<Environment>)

  datatype Error =
    | ScopeMismatch | RevisionConflict | ReservationConflict | ServiceUnavailable | NotFound
    | InitializationNotAllowed | ExternalStopRequired | RestoreEvidenceIncomplete

  datatype InputState = OwnedUnspent | Spent | OtherOwner | InputUnknown

  // ----- Normalisation -----

  function LowerChar(c: char): char {
    if 'A' <= c <= 'Z' then (c as int + 32) as char else c
  }

  function Lower(s: string): (r: string)
    ensures |r| == |s|
  {
    if s == "" then "" else [LowerChar(s[0])] + Lower(s[1..])
  }

  function NormalScope(scope: Scope): Scope {
    scope.(owner := Lower(scope.owner))
  }

  function Normalized(record: Record): Record {
    record.(
      scope := NormalScope(record.scope),
      recordId := Lower(record.recordId),
      inputId := Lower(record.inputId),
      operationId := Lower(record.operationId),
      contentHash := Lower(record.contentHash),
      kind := match record.kind
        case Pay(paymentId, deadline) => Pay(Lower(paymentId), deadline)
        case Withdraw => Withdraw)
  }

  function RecordKey(scope: Scope, recordId: string): Key {
    Key(NormalScope(scope), Lower(recordId))
  }

  lemma {:induction false} LowerIdempotent(s: string)
    ensures Lower(Lower(s)) == Lower(s)
  {
    if s != "" {
      LowerIdempotent(s[1..]);
      assert Lower(s)[1..] == Lower(s[1..]);
    }
  }

  // ----- Comparing records -----

  predicate SameImmutable(a: Record, b: Record) {
    a.kind == b.kind && a.recordId == b.recordId && a.inputId == b.inputId
    && a.operationId == b.operationId && a.contentHash == b.contentHash
  }

  predicate SameMutable(a: Record, b: Record) {
    a.bundle == b.bundle && a.signatureStarted == b.signatureStarted && a.attemptIds == b.attemptIds
  }

  // ----- The environment stop flag -----

  predicate IsStopped(environment: Option<Environment>) {
    environment.Some? && environment.value.status == Stopped
  }

  predicate Available(environment: Option<Environment>, gate: Gate) {
    && !gate.stopped && gate.generation != ""
    && environment.Some? && environment.value == Environment(Healthy, gate.generation)
  }

  // `assertWritable` is optional in every transaction; None models a caller that passes none.
  predicate Writable(environment: Option<Environment>, gate: Option<Gate>) {
    gate.None? || Available(environment, gate.value)
  }

  function StopEnvironment(environment: Option<Environment>, generation: string): Option<Environment> {
    match environment
    case None => Some(Environment(Stopped, generation))
    case Some(e) => Some(e.(status := Stopped))
  }

  function InitializeTx(t: Tables, gate: Gate): Result<Tables, Error> {
    if gate.stopped || !gate.initialize || gate.generation == "" || t.environment.Some?
    then Err(InitializationNotAllowed)
    else Ok(t.(environment := Some(Environment(Healthy, gate.generation))))
  }

  function BeginRestoreTx(t: Tables, gate: Gate): Result<Tables, Error> {
    if !gate.stopped || gate.generation == "" then Err(ExternalStopRequired)
    else Ok(t.(environment := StopEnvironment(t.environment, gate.generation)))
  }

  function CompleteRestoreTx(t: Tables, gate: Gate, recordsComplete: bool, chainReconciled: bool): Result<Tables, Error> {
    if !gate.stopped then Err(ExternalStopRequired)
    else if !recordsComplete || !chainReconciled then Err(RestoreEvidenceIncomplete)
    else Ok(t.(environment :=
      if t.environment.None? then None else Some(Environment(Healthy, gate.generation))))
  }

  // ----- putOperation -----

  // Before the first await: Ok(true) when the record exists already, Ok(false) when its input
  // must be read first.
  function PutBegin(t: Tables, scope: Scope, record: Record): Result<bool, Error> {
    if NormalScope(record.scope) != NormalScope(scope) then Err(ScopeMismatch)
    else if RecordKey(scope, record.recordId) in t.operations then Ok(true)
    else if record.signatureStarted || record.attemptIds != [] then Err(RevisionConflict)
    else Ok(false)
  }

  // After the await on the input reader, before the transaction.
  function InputVerdict(input: InputState): Option<Error> {
    match input
    case OwnedUnspent => None
    case InputUnknown => Some(ServiceUnavailable)
    case _ => Some(ReservationConflict)
  }

  function PutUpdate(row: Row, record: Record, expected: nat): Result<Row, Error> {
    if !SameImmutable(row.record, record) then Err(ReservationConflict)
    else if SameMutable(row.record, record) then Ok(row)
    else if row.status.Terminal() then Err(ReservationConflict)
    else if row.revision != expected then Err(RevisionConflict)
    else if row.record.signatureStarted && !record.signatureStarted then Err(RevisionConflict)
    else if !(row.record.attemptIds <= record.attemptIds) then Err(RevisionConflict)
    else if row.record.bundle.nonce == record.bundle.nonce then Err(RevisionConflict)
    else Ok(row.(
      record := row.record.(bundle := record.bundle, signatureStarted := record.signatureStarted,
                            attemptIds := record.attemptIds),
      revision := row.revision + 1))
  }

  // The transaction of putOperation on a normalised record.
  function PutTx(t: Tables, record: Record, expected: nat, gate: Option<Gate>): (Tables, Result<Row, Error>) {
    var key := Key(record.scope, record.recordId);
    var hold := Key(record.scope, record.inputId);
    if !Writable(t.environment, gate) || IsStopped(t.environment) then (t, Err(ServiceUnavailable))
    else if key in t.operations then
      var updated := PutUpdate(t.operations[key], record, expected);
      (if updated.Ok? then t.(operations := t.operations[key := updated.value]) else t, updated)
    else if expected != 0 then (t, Err(RevisionConflict))
    else if hold in t.active then (t, Err(ReservationConflict))
    else
      var row := Row(record, 1, 1, Reserved, None);
      (t.(operations := t.operations[key := row], active := t.active[hold := record.recordId]), Ok(row))
  }

  // DELETE FROM active_reservations for this scope, input and record.
  function FreeInput(active: map<Key, string>, key: Key, inputId: string): map<Key, string> {
    var hold := Key(key.scope, inputId);
    if hold in active && active[hold] == key.id then active - {hold} else active
  }

  // ----- releaseOperation -----

  function ReleaseTx(t: Tables, scope: Scope, request: Record, expected: nat, checkpoint: Checkpoint, gate: Option<Gate>)
    : (Tables, Result<Row, Error>)
  {
    var record := Normalized(request);
    var key := Key(record.scope, record.recordId);
    var hold := Key(record.scope, record.inputId);
    if NormalScope(request.scope) != NormalScope(scope) then (t, Err(ScopeMismatch))
    else if !Writable(t.environment, gate) then (t, Err(ServiceUnavailable))
    else if key !in t.operations then (t, Err(NotFound))
    else
      var row := t.operations[key];
      if row.status == Released && SameImmutable(row.record, record) && SameMutable(row.record, record) then
        if row.revision != expected + 1 || row.checkpoint.None?
          || Lower(row.checkpoint.value.blockHash) != Lower(checkpoint.blockHash)
        then (t, Err(RevisionConflict))
        else (t, Ok(row))
      else if row.status.Terminal() then (t, Err(ReservationConflict))
      else if !record.kind.Pay? || !SameImmutable(row.record, record)
        || row.record.signatureStarted != record.signatureStarted || row.record.attemptIds != record.attemptIds
      then (t, Err(ReservationConflict))
      else if row.revision != expected || SameMutable(row.record, record)
        || row.record.bundle.nonce == record.bundle.nonce
      then (t, Err(RevisionConflict))
      else if hold !in t.active || t.active[hold] != record.recordId then (t, Err(ReservationConflict))
      else
        var released := row.(
          record := row.record.(bundle := record.bundle), revision := row.revision + 1,
          stateVersion := row.stateVersion + 1, status := Released, checkpoint := Some(checkpoint));
        (t.(operations := t.operations[key := released], active := FreeInput(t.active, key, row.record.inputId)), Ok(released))
  }

  // ----- reconcileOperation -----

  datatype View = View(
    checkpoint: Checkpoint, inputHash: string, inputSpent: bool, payHash: string, paySucceeded: bool,
    operation: Option<(string, bool)>)

  function Classify(record: Record, view: View): Status {
    var hash := Lower(view.checkpoint.blockHash);
    if Lower(view.inputHash) != hash || Lower(view.payHash) != hash
      || (view.operation.Some? && Lower(view.operation.value.0) != hash) then Unknown
    else if record.kind.Pay? && view.paySucceeded then FinalizedSuccess
    else if record.kind.Withdraw? && view.operation.Some? && view.operation.value.1 then FinalizedSuccess
    else if view.inputSpent then Consumed
    else if record.kind.Pay? && view.checkpoint.blockTimestamp > record.kind.deadline then Released
    else Reserved
  }

  function NextStatus(record: Record, view: Option<View>): Status {
    if view.None? then Unknown else Classify(record, view.value)
  }

  // A finalized view that contradicts a terminal row: evidence of a reorganised chain.
  predicate Conflicting(row: Row, view: Option<View>, next: Status) {
    && view.Some?
    && (|| (row.checkpoint.Some? && row.checkpoint.value.blockNumber == view.value.checkpoint.blockNumber
            && Lower(row.checkpoint.value.blockHash) != Lower(view.value.checkpoint.blockHash))
        || (next != Unknown && next != row.status))
  }

  // The transaction of reconcileOperation; `before` is the row read ahead of the await.
  function ReconcileTx(t: Tables, key: Key, before: Row, view: Option<View>, gate: Option<Gate>)
    : (Tables, Result<Row, Error>)
  {
    var next := NextStatus(before.record, view);
    if !Writable(t.environment, gate) then (t, Err(ServiceUnavailable))
    else if key !in t.operations then (t, Err(NotFound))
    else
      var row := t.operations[key];
      if IsStopped(t.environment) then (t, Ok(row))
      else if row.stateVersion != before.stateVersion || row.revision != before.revision then (t, Ok(row))
      else if row.status.Terminal() then
        if !Conflicting(row, view, next) then (t, Ok(row))
        else
          var reopened := row.(status := Unknown, stateVersion := row.stateVersion + 1, checkpoint := None);
          (t.(operations := t.operations[key := reopened], environment := StopEnvironment(t.environment, "")),
           Ok(reopened))
      else if next == row.status
        && (view.None? || (row.checkpoint.Some? && row.checkpoint.value.blockHash == view.value.checkpoint.blockHash))
      then (t, Ok(row))
      else
        var moved := row.(
          status := next, stateVersion := row.stateVersion + 1,
          checkpoint := if next == Unknown || view.None? then None else Some(view.value.checkpoint));
        (t.(operations := t.operations[key := moved],
            active := if next.Terminal() then FreeInput(t.active, key, row.record.inputId) else t.active),
         Ok(moved))
  }

  // ----- What the tables keep -----

  predicate WellKeyed(t: Tables) {
    forall k :: k in t.operations ==>
      t.operations[k].record.scope == k.scope && t.operations[k].record.recordId == k.id
      && t.operations[k].revision >= 1
  }

  // Every reservation row points to a live operation of the same scope and input.
  predicate ActiveSound(t: Tables) {
    forall a :: a in t.active ==>
      var k := Key(a.scope, t.active[a]);
      k in t.operations && t.operations[k].record.inputId == a.id && t.operations[k].status.Live()
  }

  predicate HoldsInput(t: Tables, k: Key)
    requires k in t.operations
  {
    var hold := Key(k.scope, t.operations[k].record.inputId);
    hold in t.active && t.active[hold] == k.id
  }

  // A live operation has its row; with ActiveSound, an operation is live exactly when it has one.
  predicate LiveHolds(t: Tables) {
    forall k :: k in t.operations && t.operations[k].status.Live() ==> HoldsInput(t, k)
  }

  predicate TablesInv(t: Tables) {
    WellKeyed(t) && ActiveSound(t)
  }

  // No two live operations of a scope reserve the same input.
  predicate Exclusive(t: Tables) {
    forall j, k ::
      && j in t.operations && k in t.operations && j.scope == k.scope
      && t.operations[j].status.Live() && t.operations[k].status.Live()
      && t.operations[j].record.inputId == t.operations[k].record.inputId
      ==> j == k
  }

  lemma LiveExactlyHolds(t: Tables)
    requires TablesInv(t) && LiveHolds(t)
    ensures forall k :: k in t.operations ==> (t.operations[k].status.Live() <==> HoldsInput(t, k))
    ensures Exclusive(t)
  {
    forall k | k in t.operations && HoldsInput(t, k)
      ensures t.operations[k].status.Live()
    {
      var hold := Key(k.scope, t.operations[k].record.inputId);
      assert Key(hold.scope, t.active[hold]) == k;
    }
    forall j, k | j in t.operations && k in t.operations && j.scope == k.scope
      && t.operations[j].status.Live() && t.operations[k].status.Live()
      && t.operations[j].record.inputId == t.operations[k].record.inputId
      ensures j == k
    {
      assert HoldsInput(t, j) && HoldsInput(t, k);
    }
  }

  // ----- How one transaction changes one operation -----

  // What may happen to a stored operation between two moments; `stopped` is the later state of
  // the environment.
  predicate Evolves(a: Row, b: Row) {
    && SameImmutable(a.record, b.record) && a.record.scope == b.record.scope
    && a.revision <= b.revision && a.stateVersion <= b.stateVersion
    && (a.revision == b.revision ==> a.record == b.record)
    && a.record.attemptIds <= b.record.attemptIds
    && (a.record.signatureStarted ==> b.record.signatureStarted)
  }

  lemma EvolvesTransitive(a: Row, b: Row, c: Row)
    requires Evolves(a, b) && Evolves(b, c)
    ensures Evolves(a, c)
  {
    assert a.record.attemptIds <= c.record.attemptIds by {
      assert b.record.attemptIds == c.record.attemptIds[..|b.record.attemptIds|];
      assert a.record.attemptIds == b.record.attemptIds[..|a.record.attemptIds|];
    }
  }

  // One transaction: nothing is deleted, a write raises the revision by exactly one, and a
  // terminal row changes only together with a stop of the environment.
  predicate StepEvolves(t: Tables, u: Tables) {
    && t.operations.Keys <= u.operations.Keys
    && forall k :: k in t.operations ==>
      && Evolves(t.operations[k], u.operations[k])
      && u.operations[k].revision <= t.operations[k].revision + 1
      && (t.operations[k].status.Terminal() && u.operations[k] != t.operations[k] ==> IsStopped(u.environment))
  }

  // What every transaction keeps of the tables it starts from: their invariant, every record, and
  // the rows of live operations unless it stops the environment.
  ghost predicate Keeps(t: Tables, u: Tables) {
    TablesInv(t) ==>
      TablesInv(u) && StepEvolves(t, u) && (LiveHolds(t) && !IsStopped(u.environment) ==> LiveHolds(u))
  }

  // A change of the environment alone keeps the tables.
  lemma EnvironmentKeeps(t: Tables, environment: Option<Environment>)
    ensures Keeps(t, t.(environment := environment))
    ensures TablesInv(t) && LiveHolds(t) ==> LiveHolds(t.(environment := environment)) && Exclusive(t.(environment := environment))
  {
    var u := t.(environment := environment);
    if LiveHolds(t) {
      forall k | k in u.operations && u.operations[k].status.Live() ensures HoldsInput(u, k) {
        assert HoldsInput(t, k);
      }
      if TablesInv(t) { LiveExactlyHolds(u); }
    }
  }

  // The three shapes of edit the transactions make, each with what it keeps.

  // A new live operation together with its reservation row.
  lemma InsertKeeps(t: Tables, u: Tables, key: Key, row: Row)
    requires TablesInv(t) && key !in t.operations
    requires row.record.scope == key.scope && row.record.recordId == key.id && row.revision == 1 && row.status.Live()
    requires Key(key.scope, row.record.inputId) !in t.active
    requires u == t.(operations := t.operations[key := row],
                     active := t.active[Key(key.scope, row.record.inputId) := key.id])
    ensures TablesInv(u) && StepEvolves(t, u) && (LiveHolds(t) ==> LiveHolds(u))
  {
    InsertEvolves(t, u, key, row);
    InsertRows(t, u, key, row);
    if LiveHolds(t) { InsertHolds(t, u, key, row); }
  }

  lemma InsertEvolves(t: Tables, u: Tables, key: Key, row: Row)
    requires WellKeyed(t) && key !in t.operations && u.operations == t.operations[key := row]
    requires row.record.scope == key.scope && row.record.recordId == key.id && row.revision == 1
    ensures WellKeyed(u) && StepEvolves(t, u)
  {
  }

  lemma InsertRows(t: Tables, u: Tables, key: Key, row: Row)
    requires ActiveSound(t) && key !in t.operations && row.status.Live()
    requires u == t.(operations := t.operations[key := row],
                     active := t.active[Key(key.scope, row.record.inputId) := key.id])
    ensures ActiveSound(u)
  {
    forall a | a in u.active
      ensures var k := Key(a.scope, u.active[a]);
        k in u.operations && u.operations[k].record.inputId == a.id && u.operations[k].status.Live()
    {
      if a != Key(key.scope, row.record.inputId) {
        assert a in t.active;
      }
    }
  }

  lemma InsertHolds(t: Tables, u: Tables, key: Key, row: Row)
    requires LiveHolds(t) && key !in t.operations && Key(key.scope, row.record.inputId) !in t.active
    requires u == t.(operations := t.operations[key := row],
                     active := t.active[Key(key.scope, row.record.inputId) := key.id])
    ensures LiveHolds(u)
  {
    forall k | k in u.operations && u.operations[k].status.Live()
      ensures HoldsInput(u, k)
    {
      if k != key { assert HoldsInput(t, k); }
    }
  }

  // A live operation is rewritten and stays live.
  lemma RewriteKeeps(t: Tables, u: Tables, key: Key, row: Row)
    requires TablesInv(t) && key in t.operations
    requires Evolves(t.operations[key], row) && row.revision <= t.operations[key].revision + 1
    requires t.operations[key].status.Live() && row.status.Live()
    requires u == t.(operations := t.operations[key := row])
    ensures TablesInv(u) && StepEvolves(t, u) && (LiveHolds(t) ==> LiveHolds(u))
  {
    ReplaceEvolves(t, u, key, row);
    ReplaceRows(t, u, key, row);
    if LiveHolds(t) { RewriteHolds(t, u, key, row); }
  }

  // One row is replaced by a later version of itself.
  lemma ReplaceEvolves(t: Tables, u: Tables, key: Key, row: Row)
    requires WellKeyed(t) && key in t.operations && u.operations == t.operations[key := row]
    requires Evolves(t.operations[key], row) && row.revision <= t.operations[key].revision + 1
    requires t.operations[key].status.Terminal() ==> IsStopped(u.environment)
    ensures WellKeyed(u) && StepEvolves(t, u)
  {
  }

  // Rows stay sound when those of a replaced operation that is no longer live are gone.
  lemma ReplaceRows(t: Tables, u: Tables, key: Key, row: Row)
    requires ActiveSound(t) && key in t.operations && u.operations == t.operations[key := row]
    requires row.record.inputId == t.operations[key].record.inputId
    requires forall a :: a in u.active ==> a in t.active && u.active[a] == t.active[a]
    requires row.status.Terminal() && t.operations[key].status.Live() ==>
      forall a :: a in u.active ==> Key(a.scope, u.active[a]) != key
    ensures ActiveSound(u)
  {
    forall a | a in u.active
      ensures var k := Key(a.scope, u.active[a]);
        k in u.operations && u.operations[k].record.inputId == a.id && u.operations[k].status.Live()
    {
      assert a in t.active;
    }
  }

  lemma RewriteHolds(t: Tables, u: Tables, key: Key, row: Row)
    requires LiveHolds(t) && key in t.operations && row.record.inputId == t.operations[key].record.inputId
    requires t.operations[key].status.Live() && u == t.(operations := t.operations[key := row])
    ensures LiveHolds(u)
  {
    forall k | k in u.operations && u.operations[k].status.Live() ensures HoldsInput(u, k) {
      assert HoldsInput(t, k);
    }
  }

  // A live operation becomes terminal and gives up its reservation row, if it holds one.
  lemma RetireKeeps(t: Tables, u: Tables, key: Key, row: Row)
    requires TablesInv(t) && key in t.operations
    requires Evolves(t.operations[key], row) && row.revision <= t.operations[key].revision + 1
    requires t.operations[key].status.Live()
    requires u == t.(operations := t.operations[key := row], active := FreeInput(t.active, key, row.record.inputId))
    ensures TablesInv(u) && StepEvolves(t, u) && (LiveHolds(t) && row.status.Terminal() ==> LiveHolds(u))
  {
    ReplaceEvolves(t, u, key, row);
    FreedRows(t, key);
    ReplaceRows(t, u, key, row);
    if LiveHolds(t) && row.status.Terminal() { RetireHolds(t, u, key, row); }
  }

  // Freeing its input leaves no row of an operation.
  lemma FreedRows(t: Tables, key: Key)
    requires ActiveSound(t) && key in t.operations
    ensures var active := FreeInput(t.active, key, t.operations[key].record.inputId);
      forall a :: a in active ==> a in t.active && active[a] == t.active[a] && Key(a.scope, active[a]) != key
  {
    var active := FreeInput(t.active, key, t.operations[key].record.inputId);
    forall a | a in active ensures Key(a.scope, active[a]) != key {
      assert a in t.active;
    }
  }

  lemma RetireHolds(t: Tables, u: Tables, key: Key, row: Row)
    requires LiveHolds(t) && key in t.operations && row.status.Terminal() && SameImmutable(t.operations[key].record, row.record)
    requires u == t.(operations := t.operations[key := row], active := FreeInput(t.active, key, row.record.inputId))
    ensures LiveHolds(u)
  {
    forall k | k in u.operations && u.operations[k].status.Live()
      ensures HoldsInput(u, k)
    {
      assert HoldsInput(t, k);
    }
  }

  // A terminal operation is reopened while the environment stops.
  lemma ReopenKeeps(t: Tables, u: Tables, key: Key, row: Row)
    requires TablesInv(t) && key in t.operations
    requires Evolves(t.operations[key], row) && row.revision <= t.operations[key].revision + 1
    requires t.operations[key].status.Terminal()
    requires u == t.(operations := t.operations[key := row], environment := StopEnvironment(t.environment, ""))
    ensures TablesInv(u) && StepEvolves(t, u) && IsStopped(u.environment)
  {
    ReplaceEvolves(t, u, key, row);
    ReplaceRows(t, u, key, row);
  }

  lemma PutTxKeeps(t: Tables, record: Record, expected: nat, gate: Option<Gate>)
    requires TablesInv(t)
    ensures var u := PutTx(t, record, expected, gate).0;
      TablesInv(u) && StepEvolves(t, u) && u.environment == t.environment
      && (LiveHolds(t) ==> LiveHolds(u))
  {
    var key := Key(record.scope, record.recordId);
    var (u, r) := PutTx(t, record, expected, gate);
    if key in t.operations {
      if r.Ok? && r.value != t.operations[key] {
        RewriteKeeps(t, u, key, r.value);
      } else {
        assert u == t;
      }
    } else if r.Ok? {
      InsertKeeps(t, u, key, r.value);
    }
  }

  lemma ReleaseTxKeeps(t: Tables, scope: Scope, request: Record, expected: nat, checkpoint: Checkpoint, gate: Option<Gate>)
    requires TablesInv(t)
    ensures var u := ReleaseTx(t, scope, request, expected, checkpoint, gate).0;
      TablesInv(u) && StepEvolves(t, u) && u.environment == t.environment
      && (LiveHolds(t) ==> LiveHolds(u))
  {
    var record := Normalized(request);
    var key := Key(record.scope, record.recordId);
    var (u, r) := ReleaseTx(t, scope, request, expected, checkpoint, gate);
    if u != t {
      RetireKeeps(t, u, key, r.value);
    }
  }

  lemma ReconcileTxKeeps(t: Tables, key: Key, before: Row, view: Option<View>, gate: Option<Gate>)
    requires TablesInv(t)
    ensures var u := ReconcileTx(t, key, before, view, gate).0;
      TablesInv(u) && StepEvolves(t, u)
      && (IsStopped(t.environment) ==> u == t)
      && (LiveHolds(t) && !IsStopped(u.environment) ==> LiveHolds(u))
  {
    var (u, r) := ReconcileTx(t, key, before, view, gate);
    if u != t {
      var row := t.operations[key];
      if row.status.Terminal() {
        ReopenKeeps(t, u, key, r.value);
      } else if r.value.status.Live() {
        RewriteKeeps(t, u, key, r.value);
      } else {
        RetireKeeps(t, u, key, r.value);
      }
    }
  }

  lemma PutKeeps(t: Tables, record: Record, expected: nat, gate: Option<Gate>)
    ensures Keeps(t, PutTx(t, record, expected, gate).0)
  {
    if TablesInv(t) { PutTxKeeps(t, record, expected, gate); }
  }

  lemma ReleaseKeeps(t: Tables, scope: Scope, request: Record, expected: nat, checkpoint: Checkpoint, gate: Option<Gate>)
    ensures Keeps(t, ReleaseTx(t, scope, request, expected, checkpoint, gate).0)
  {
    if TablesInv(t) { ReleaseTxKeeps(t, scope, request, expected, checkpoint, gate); }
  }

  lemma ReconcileKeeps(t: Tables, key: Key, before: Row, view: Option<View>, gate: Option<Gate>)
    ensures Keeps(t, ReconcileTx(t, key, before, view, gate).0)
  {
    if TablesInv(t) { ReconcileTxKeeps(t, key, before, view, gate); }
  }
}

// The replay loop of synchronize (packages/core/src/sync.ts): mutable maps filled operation by
// operation, proved to accept exactly the histories of Ledger.Accepts.
module Replay {
  import opened Wrappers
  import opened Pool
  import opened Ledger
  import opened LedgerLaws

  datatype Fault = IncompleteHistory | InconsistentHistory | Rpc

  // value(): a complete observation bound to the checkpoint, or a failure.
  function Value<T>(a: Answer<T>, point: Checkpoint): Result<T, Fault> {
    match a
    case Unavailable => Err(Rpc)
    case Incomplete => Err(IncompleteHistory)
    case Complete(hash, v) => if hash == point.hash then Ok(v) else Err(IncompleteHistory)
  }

  // The request of each executed operation, by id.
  function Executed(s: Setting, ops: seq<Observed>): map<nat, Request> {
    if ops == [] then map[]
    else Executed(s, ops[..|ops| - 1])[IdOf(s, ops[|ops| - 1]) := ops[|ops| - 1].request]
  }

  lemma {:induction false} ExecutedKeys(s: Setting, ops: seq<Observed>, id: nat)
    ensures id in Executed(s, ops) <==> exists k :: 0 <= k < |ops| && IdOf(s, ops[k]) == id
  {
    if ops != [] {
      var prior := ops[..|ops| - 1];
      ExecutedKeys(s, prior, id);
      if k :| 0 <= k < |prior| && IdOf(s, prior[k]) == id { assert ops[k] == prior[k]; }
      if k :| 0 <= k < |ops| && IdOf(s, ops[k]) == id {
        if k < |prior| { assert prior[k] == ops[k]; }
      }
    }
  }

  lemma {:induction false} CreateKeys(s: Setting, created: map<nat, Entry>, op: Observed, n: nat, id: nat)
    requires n <= |op.request.outputs|
    ensures id in Create(s, created, op, n) <==> id in created || id in OutputIds(s, op)[..n]
  {
    if n > 0 {
      CreateKeys(s, created, op, n - 1, id);
      assert OutputIds(s, op)[..n] == OutputIds(s, op)[..n - 1] + [s.crypto.outputId(IdOf(s, op), n - 1)];
    }
  }

  ghost predicate HeadersTrue(s: Setting, headers: map<nat, Header>) {
    forall b :: b in headers ==>
      Bound(s.history.header(b, s.point), s.point) && headers[b] == s.history.header(b, s.point).value
  }

  // The header of every operation's block has been read.
  ghost predicate HeadersKept(ops: seq<Observed>, headers: map<nat, Header>) {
    ops == [] ||
    var last := ops[|ops| - 1].success;
    HeadersKept(ops[..|ops| - 1], headers) && (last.Some? ==> last.value.blockNumber in headers)
  }

  lemma {:induction false} HeaderKept(ops: seq<Observed>, headers: map<nat, Header>, k: nat)
    requires HeadersKept(ops, headers) && k < |ops| && ops[k].success.Some?
    ensures ops[k].success.value.blockNumber in headers
  {
    if k < |ops| - 1 { HeaderKept(ops[..|ops| - 1], headers, k); }
  }

  lemma {:induction false} HeadersKeptMore(ops: seq<Observed>, headers: map<nat, Header>, more: map<nat, Header>)
    requires HeadersKept(ops, headers) && headers.Keys <= more.Keys
    ensures HeadersKept(ops, more)
  {
    if ops != [] { HeadersKeptMore(ops[..|ops| - 1], headers, more); }
  }

  // ----- The positions of all logs -----

  function PlacesIn(logs: seq<Position>): set<(nat, int)> {
    set at | at in logs :: PlaceOf(at)
  }

  function PlacesOf(ops: seq<Observed>): set<(nat, int)> {
    if ops == [] then {}
    else PlacesOf(ops[..|ops| - 1]) + (if ops[|ops| - 1].success.Some? then PlacesIn(LogsOf(ops[|ops| - 1])) else {})
  }

  lemma {:induction false} PlacesTrue(ops: seq<Observed>, place: (nat, int))
    ensures place in PlacesOf(ops) <==> exists p :: p in ops && HasLogAt(p, place)
  {
    if ops != [] {
      var prior, op := ops[..|ops| - 1], ops[|ops| - 1];
      PlacesTrue(prior, place);
      assert ops == prior + [op];
      if place in PlacesOf(prior) {
        var p :| p in prior && HasLogAt(p, place);
        assert p in ops;
      }
      if op.success.Some? && place in PlacesIn(LogsOf(op)) {
        assert HasLogAt(op, place);
      }
    }
  }

  // ----- Transactions and their places -----

  function PlaceByHash(ops: seq<Observed>): map<nat, (nat, int)> {
    if ops == [] then map[]
    else
      var prior, last := PlaceByHash(ops[..|ops| - 1]), ops[|ops| - 1].success;
      if last.None? then prior else prior[last.value.transactionHash := TransactionOf(last.value)]
  }

  function HashByPlace(ops: seq<Observed>): map<(nat, int), nat> {
    if ops == [] then map[]
    else
      var prior, last := HashByPlace(ops[..|ops| - 1]), ops[|ops| - 1].success;
      if last.None? then prior else prior[TransactionOf(last.value) := last.value.transactionHash]
  }

  ghost predicate HasTransaction(p: Observed, hash: nat, place: (nat, int)) {
    p.success.Some? && p.success.value.transactionHash == hash && TransactionOf(p.success.value) == place
  }

  ghost predicate ConflictFree(ops: seq<Observed>) {
    ops == [] || (ConflictFree(ops[..|ops| - 1]) && NoConflict(ops[..|ops| - 1], ops[|ops| - 1]))
  }

  lemma {:induction false} AcceptedConflictFree(s: Setting, ops: seq<Observed>)
    requires Accepts(s, ops)
    ensures ConflictFree(ops)
  {
    if ops != [] {
      AcceptedConflictFree(s, ops[..|ops| - 1]);
      assert AcceptStep(s, ops[..|ops| - 1], ops[|ops| - 1]);
    }
  }

  ghost predicate Holds(ops: seq<Observed>, hash: nat, place: (nat, int)) {
    exists k :: 0 <= k < |ops| && HasTransaction(ops[k], hash, place)
  }

  lemma HoldsNext(ops: seq<Observed>, hash: nat, place: (nat, int))
    requires ops != []
    ensures Holds(ops, hash, place) <==>
      Holds(ops[..|ops| - 1], hash, place) || HasTransaction(ops[|ops| - 1], hash, place)
  {
    var prior := ops[..|ops| - 1];
    if k :| 0 <= k < |prior| && HasTransaction(prior[k], hash, place) {
      assert HasTransaction(ops[k], hash, place);
    }
    if k :| 0 <= k < |ops| && HasTransaction(ops[k], hash, place) {
      if k < |prior| { assert HasTransaction(prior[k], hash, place); }
    }
  }

  // In a history without conflicts the two maps are inverse to one another and hold exactly the
  // transactions of its operations: hashes and places correspond one to one.
  lemma {:induction false} TransactionsBijective(ops: seq<Observed>, hash: nat, place: (nat, int))
    requires ConflictFree(ops)
    ensures hash in PlaceByHash(ops) && PlaceByHash(ops)[hash] == place <==> Holds(ops, hash, place)
    ensures place in HashByPlace(ops) && HashByPlace(ops)[place] == hash <==> Holds(ops, hash, place)
  {
    if ops != [] {
      var prior, op := ops[..|ops| - 1], ops[|ops| - 1];
      TransactionsBijective(prior, hash, place);
      HoldsNext(ops, hash, place);
      if k :| 0 <= k < |prior| && HasTransaction(prior[k], hash, place) {
        assert SameTransactions(prior[k], op);
      }
    }
  }

  ghost predicate MapsAgree(hashes: map<nat, (nat, int)>, places: map<(nat, int), nat>, event: Position) {
    && (event.transactionHash in hashes ==> hashes[event.transactionHash] == TransactionOf(event))
    && (TransactionOf(event) in places ==> places[TransactionOf(event)] == event.transactionHash)
  }

  // The two maps show no conflict exactly when no earlier operation conflicts.
  lemma NoConflictIff(prior: seq<Observed>, op: Observed)
    requires ConflictFree(prior) && op.success.Some?
    ensures NoConflict(prior, op) <==> MapsAgree(PlaceByHash(prior), HashByPlace(prior), op.success.value)
  {
    var e := op.success.value;
    var hashes, places := PlaceByHash(prior), HashByPlace(prior);
    if e.transactionHash in hashes {
      TransactionsBijective(prior, e.transactionHash, hashes[e.transactionHash]);
      var k :| 0 <= k < |prior| && HasTransaction(prior[k], e.transactionHash, hashes[e.transactionHash]);
      assert NoConflict(prior, op) ==> SameTransactions(prior[k], op);
    }
    if TransactionOf(e) in places {
      TransactionsBijective(prior, places[TransactionOf(e)], TransactionOf(e));
      var k :| 0 <= k < |prior| && HasTransaction(prior[k], places[TransactionOf(e)], TransactionOf(e));
      assert NoConflict(prior, op) ==> SameTransactions(prior[k], op);
    }
    if MapsAgree(hashes, places, e) {
      forall p | p in prior ensures SameTransactions(p, op) {
        if p.success.Some? {
          var hash, place := p.success.value.transactionHash, TransactionOf(p.success.value);
          var k :| 0 <= k < |prior| && prior[k] == p;
          assert HasTransaction(prior[k], hash, place);
          TransactionsBijective(prior, hash, place);
        }
      }
    }
  }

  ghost predicate NoConflict(prior: seq<Observed>, op: Observed) {
    forall p :: p in prior ==> SameTransactions(p, op)
  }

  function LastEvent(ops: seq<Observed>): Option<Position> {
    if ops == [] then None else ops[|ops| - 1].success
  }

  ghost predicate InputsAccepted(created: map<nat, Entry>, op: Observed)
    requires op.success.Some? && |InputsOf(op)| == |op.request.inputIds|
  {
    forall i :: 0 <= i < |op.request.inputIds| ==> InputInPlace(op, i) && Spendable(created, op, i)
  }

  ghost predicate OutputsAccepted(s: Setting, created: map<nat, Entry>, op: Observed)
    requires op.success.Some?
  {
    (forall i :: 0 <= i < |op.request.outputs| ==> OutputInPlace(s, op, i)) && OutputsNew(s, created, op)
  }

  ghost predicate PlacesAccepted(prior: seq<Observed>, op: Observed)
    requires op.success.Some?
  {
    LogsOk(op) && LogsNew(prior, op) && AfterLast(prior, op) && NoConflict(prior, op)
  }

  function Moved(s: Setting, created: map<nat, Entry>, op: Observed): map<nat, Entry> {
    Create(s, Consume(created, op.request.inputIds, IdOf(s, op)), op, |op.request.outputs|)
  }

  ghost predicate InRange(created: map<nat, Entry>) {
    forall id :: id in created ==> created[id].index < |created[id].observed.request.outputs|
  }

  // ----- The first fault of an operation -----

  function HeaderFault(s: Setting, event: Position): Option<Fault> {
    match Value(s.history.header(event.blockNumber, s.point), s.point)
    case Err(fault) => Some(fault)
    case Ok(header) => if HeaderOk(s, event) then None else Some(InconsistentHistory)
  }

  function EventFault(s: Setting, executed: map<nat, Request>, op: Observed): (r: Option<Fault>)
    ensures r.None? ==> op.success.Some? && |InputsOf(op)| == |op.request.inputIds|
  {
    if !ValidShape(s.crypto, op.request) then Some(Rpc)
    else if op.success.None? then Some(IncompleteHistory)
    else
      var event := op.success.value;
      if IdOf(s, op) != event.operationId || IdOf(s, op) in executed then Some(InconsistentHistory)
      else if !(s.context.deploymentBlock <= event.blockNumber <= s.point.number) then Some(InconsistentHistory)
      else if HeaderFault(s, event).Some? then HeaderFault(s, event)
      else if |InputsOf(op)| != |op.request.inputIds| || |op.outputLogs| != |op.request.outputs| then Some(IncompleteHistory)
      else None
  }

  function StateFault(s: Setting, id: nat): Option<Fault> {
    match Value(s.history.operationSuccess(id, s.point), s.point)
    case Err(fault) => Some(fault)
    case Ok(_) => if ExecutedAs(s, id) then None else Some(InconsistentHistory)
  }

  ghost function ScreenFault(s: Setting, prior: seq<Observed>, op: Observed): (r: Option<Fault>)
    ensures r.None? ==> op.success.Some? && |InputsOf(op)| == |op.request.inputIds|
  {
    var event := EventFault(s, Executed(s, prior), op);
    if event.Some? then event
    else if !PlacesAccepted(prior, op) then Some(InconsistentHistory) else None
  }

  ghost function SettleFault(s: Setting, created: map<nat, Entry>, op: Observed): Option<Fault>
    requires op.success.Some? && |InputsOf(op)| == |op.request.inputIds|
  {
    if !InputsAccepted(created, op) || !OutputsAccepted(s, created, op) then Some(InconsistentHistory)
    else StateFault(s, IdOf(s, op))
  }

  // Faults of the event come first, then those of logs and coins, then the contract's own record.
  ghost function StepFault(s: Setting, prior: seq<Observed>, created: map<nat, Entry>, op: Observed): Option<Fault> {
    if ScreenFault(s, prior, op).Some? then ScreenFault(s, prior, op) else SettleFault(s, created, op)
  }

  lemma EventFaultIff(s: Setting, prior: seq<Observed>, op: Observed)
    ensures EventFault(s, Executed(s, prior), op).None? <==> EventOk(s, op) && IdNew(s, prior, op)
  {
    ExecutedKeys(s, prior, IdOf(s, op));
  }

  lemma ScreenGives(s: Setting, prior: seq<Observed>, op: Observed)
    requires ScreenFault(s, prior, op).None?
    ensures op.success.Some? && |InputsOf(op)| == |op.request.inputIds| && Ascending(op.request.inputIds)
  {
  }

  // There is no fault exactly when the specification accepts the step.
  lemma NoFaultIff(s: Setting, prior: seq<Observed>, op: Observed)
    ensures StepFault(s, prior, Created(s, prior), op).None? <==> AcceptStep(s, prior, op)
  {
    EventFaultIff(s, prior, op);
    AcceptStepParts(s, prior, op);
  }

  // The parts of AcceptStep in the order the loop decides them.
  lemma AcceptStepParts(s: Setting, prior: seq<Observed>, op: Observed)
    ensures AcceptStep(s, prior, op) <==>
      && EventOk(s, op) && IdNew(s, prior, op)
      && PlacesAccepted(prior, op)
      && InputsAccepted(Created(s, prior), op)
      && OutputsAccepted(s, Created(s, prior), op)
      && ExecutedAs(s, IdOf(s, op))
  {
  }

  // Spending inputs adds and removes no entry.
  lemma ConsumedKeysSame(s: Setting, created: map<nat, Entry>, ids: seq<nat>, id: nat, op: Observed)
    ensures OutputsNew(s, Consume(created, ids, id), op) <==> OutputsNew(s, created, op)
  {
    assert Consume(created, ids, id).Keys == created.Keys;
  }

  // The first n logs stand where no earlier log of the history stands, nor two of them together.
  ghost predicate FreshUpTo(prior: seq<Observed>, logs: seq<Position>, n: nat)
    requires n <= |logs|
  {
    && (forall i, j :: 0 <= i < j < n ==> PlaceOf(logs[i]) != PlaceOf(logs[j]))
    && (forall p, i :: p in prior && 0 <= i < n ==> !HasLogAt(p, PlaceOf(logs[i])))
  }

  lemma FreshNext(prior: seq<Observed>, logs: seq<Position>, i: nat)
    requires i < |logs| && FreshUpTo(prior, logs, i)
    ensures FreshUpTo(prior, logs, i + 1) <==> PlaceOf(logs[i]) !in PlacesOf(prior) + PlacesIn(logs[..i])
  {
    var place := PlaceOf(logs[i]);
    PlacesTrue(prior, place);
    if place in PlacesIn(logs[..i]) {
      var at :| at in logs[..i] && PlaceOf(at) == place;
      var j :| 0 <= j < i && logs[..i][j] == at;
      assert PlaceOf(logs[j]) == PlaceOf(logs[i]);
    } else {
      forall j | 0 <= j < i ensures PlaceOf(logs[j]) != place {
        assert logs[..i][j] in logs[..i];
      }
    }
  }

  lemma NotNew(prior: seq<Observed>, op: Observed, i: nat)
    requires op.success.Some? && i < |LogsOf(op)| && !FreshUpTo(prior, LogsOf(op), i + 1)
    ensures !LogsNew(prior, op)
  {
  }

  ghost predicate OutputsUpTo(s: Setting, created: map<nat, Entry>, op: Observed, n: nat)
    requires op.success.Some? && n <= |op.request.outputs|
  {
    && (forall i :: 0 <= i < n ==> OutputInPlace(s, op, i) && OutputIds(s, op)[i] !in created)
    && (forall i, j :: 0 <= i < j < n ==> OutputIds(s, op)[i] != OutputIds(s, op)[j])
  }

  // The next output is accepted exactly when its log is in place and its id is not there yet.
  lemma OutputsNext(s: Setting, created: map<nat, Entry>, op: Observed, i: nat)
    requires op.success.Some? && i < |op.request.outputs| && OutputsUpTo(s, created, op, i)
    ensures var isNew := OutputInPlace(s, op, i) && OutputIds(s, op)[i] !in Create(s, created, op, i);
      (isNew ==> OutputsUpTo(s, created, op, i + 1)) && (!isNew ==> !OutputsAccepted(s, created, op))
  {
    var ids := OutputIds(s, op);
    CreateKeys(s, created, op, i, ids[i]);
    if ids[i] in ids[..i] {
      var j :| 0 <= j < i && ids[..i][j] == ids[i];
      assert ids[j] == ids[i];
    } else {
      forall j | 0 <= j < i ensures ids[j] != ids[i] { assert ids[..i][j] == ids[j]; }
    }
  }

  // ----- What the maps hold -----

  // The headers read, the requests executed and the outputs created, in order, by an accepted history.
  ghost predicate Books(s: Setting, ops: seq<Observed>, headers: map<nat, Header>, successes: map<nat, Request>,
      created: map<nat, Entry>, order: seq<nat>)
  {
    && Accepts(s, ops)
    && HeadersTrue(s, headers) && HeadersKept(ops, headers)
    && successes == Executed(s, ops)
    && created == Created(s, ops) && order == CreationOrder(s, ops)
  }

  // Its log positions, its transactions and its last event.
  ghost predicate Tracks(ops: seq<Observed>, positions: set<(nat, int)>, transactions: map<nat, (nat, int)>,
      transactionPlaces: map<(nat, int), nat>, preceding: Option<Position>)
  {
    && positions == PlacesOf(ops)
    && transactions == PlaceByHash(ops) && transactionPlaces == HashByPlace(ops)
    && preceding == LastEvent(ops)
  }

  // `longer` is the history with op at its end.
  ghost predicate Grown(longer: seq<Observed>, ops: seq<Observed>, op: Observed) {
    longer != [] && longer[..|longer| - 1] == ops && longer[|longer| - 1] == op
  }

  lemma TracksMore(longer: seq<Observed>, ops: seq<Observed>, op: Observed, positions: set<(nat, int)>,
      transactions: map<nat, (nat, int)>, transactionPlaces: map<(nat, int), nat>, preceding: Option<Position>)
    requires Grown(longer, ops, op) && op.success.Some? && preceding == op.success
    requires positions == PlacesOf(ops) + PlacesIn(LogsOf(op))
    requires transactions == PlaceByHash(ops)[op.success.value.transactionHash := TransactionOf(op.success.value)]
    requires transactionPlaces == HashByPlace(ops)[TransactionOf(op.success.value) := op.success.value.transactionHash]
    ensures Tracks(longer, positions, transactions, transactionPlaces, preceding)
  {
  }

  lemma BooksMore(longer: seq<Observed>, s: Setting, ops: seq<Observed>, op: Observed, headers: map<nat, Header>)
    requires Grown(longer, ops, op) && Accepts(s, ops) && StepFault(s, ops, Created(s, ops), op).None?
    requires HeadersTrue(s, headers) && HeadersKept(longer, headers)
    ensures Books(s, longer, headers, Executed(s, ops)[IdOf(s, op) := op.request], Moved(s, Created(s, ops), op),
                  CreationOrder(s, ops) + OutputIds(s, op))
  {
    NoFaultIff(s, ops, op);
    Appended(longer, s, ops, op);
  }

  // Everything that grows with the history, one operation later.
  lemma Appended(longer: seq<Observed>, s: Setting, ops: seq<Observed>, op: Observed)
    requires Grown(longer, ops, op)
    ensures Executed(s, longer) == Executed(s, ops)[IdOf(s, op) := op.request]
    ensures Created(s, longer) == Moved(s, Created(s, ops), op)
    ensures CreationOrder(s, longer) == CreationOrder(s, ops) + OutputIds(s, op)
  {
  }

  class Replay {
    const s: Setting
    var headers: map<nat, Header>
    var successes: map<nat, Request>
    var created: map<nat, Entry>
    var order: seq<nat>
    var positions: set<(nat, int)>
    var transactions: map<nat, (nat, int)>
    var transactionPlaces: map<(nat, int), nat>
    var preceding: Option<Position>
    ghost var done: seq<Observed>

    ghost predicate Valid()
      reads this
    {
      && Books(s, done, headers, successes, created, order)
      && Tracks(done, positions, transactions, transactionPlaces, preceding)
    }

    constructor (s: Setting)
      ensures Valid() && done == [] && this.s == s
    {
      this.s := s;
      headers, successes, created, order := map[], map[], map[], [];
      positions, transactions, transactionPlaces, preceding := {}, map[], map[], None;
      done := [];
    }

    method CheckHeader(event: Position) returns (r: Option<Fault>)
      requires HeadersTrue(s, headers)
      modifies this`headers
      ensures r == HeaderFault(s, event)
      ensures headers.Keys >= old(headers).Keys
      ensures r.None? ==> event.blockNumber in headers
      ensures HeadersTrue(s, headers)
    {
      if event.blockNumber !in headers {
        var header := Value(s.history.header(event.blockNumber, s.point), s.point);
        if header.Err? { return Some(header.error); }
        headers := headers[event.blockNumber := header.value];
      }
      var header := headers[event.blockNumber];
      if header.number != event.blockNumber || header.hash != event.blockHash
        || (header.number == s.point.number && header.hash != s.point.hash) {
        return Some(InconsistentHistory);
      }
      r := None;
    }

    // Every log must be one of the operation's transaction, at a position no log has had.
    method CheckLogs(op: Observed, event: Position) returns (ok: bool)
      requires op.success == Some(event) && positions == PlacesOf(done)
      modifies this`positions
      ensures ok <==> LogsOk(op) && LogsNew(done, op)
      ensures ok ==> positions == PlacesOf(done) + PlacesIn(LogsOf(op))
    {
      var logs := LogsOf(op);
      for i := 0 to |logs|
        invariant forall j :: 0 <= j < i ==> LogOf(logs[j], event)
        invariant FreshUpTo(done, logs, i)
        invariant positions == PlacesOf(done) + PlacesIn(logs[..i])
      {
        if !LogOf(logs[i], event) { return false; }
        FreshNext(done, logs, i);
        if PlaceOf(logs[i]) in positions {
          NotNew(done, op, i);
          return false;
        }
        positions := positions + {PlaceOf(logs[i])};
        assert logs[..i + 1] == logs[..i] + [logs[i]];
      }
      assert logs[..|logs|] == logs;
      ok := true;
    }

    // The operation's logs start after the success event before it.
    method CheckOrder(op: Observed, event: Position) returns (ok: bool)
      requires op.success == Some(event)
      requires preceding == LastEvent(done)
      modifies this`preceding
      ensures ok <==> AfterLast(done, op)
      ensures ok ==> preceding == Some(event)
    {
      var firstLog := event.logIndex - |InputsOf(op)| - |op.request.outputs|;
      if preceding.Some? && preceding.value.blockNumber == event.blockNumber && firstLog <= preceding.value.logIndex {
        return false;
      }
      preceding := Some(event);
      ok := true;
    }

    // Its transaction and that transaction's place belong to each other.
    method CheckTransaction(op: Observed, event: Position) returns (ok: bool)
      requires Accepts(s, done) && op.success == Some(event)
      requires transactions == PlaceByHash(done) && transactionPlaces == HashByPlace(done)
      modifies this`transactions, this`transactionPlaces
      ensures ok <==> NoConflict(done, op)
      ensures ok ==> transactions == PlaceByHash(done)[event.transactionHash := TransactionOf(event)]
      ensures ok ==> transactionPlaces == HashByPlace(done)[TransactionOf(event) := event.transactionHash]
    {
      var place, hash := TransactionOf(event), event.transactionHash;
      AcceptedConflictFree(s, done);
      NoConflictIff(done, op);
      if (hash in transactions && transactions[hash] != place)
        || (place in transactionPlaces && transactionPlaces[place] != hash) {
        return false;
      }
      transactions := transactions[hash := place];
      transactionPlaces := transactionPlaces[place := hash];
      ok := true;
    }

    // Each input log in its place, spending an unspent output of the owner.
    method SpendInputs(op: Observed, id: nat) returns (ok: bool)
      requires op.success.Some? && |InputsOf(op)| == |op.request.inputIds| && Ascending(op.request.inputIds)
      requires InRange(created)
      modifies this`created
      ensures ok <==> InputsAccepted(old(created), op)
      ensures ok ==> created == Consume(old(created), op.request.inputIds, id)
    {
      var inputs, ids := SortedInputs(op), op.request.inputIds;
      assert Consume(created, ids[..0], id) == created;
      for i := 0 to |inputs|
        invariant created == Consume(old(created), ids[..i], id)
        invariant forall j :: 0 <= j < i ==> InputInPlace(op, j) && Spendable(old(created), op, j)
      {
        var inputId := ids[i];
        assert inputId !in ids[..i] by {
          forall j | 0 <= j < i ensures ids[..i][j] != inputId { AscendingDistinct(ids, j, i); }
        }
        if inputs[i].inputId != inputId
          || inputs[i].at.logIndex != op.success.value.logIndex - |op.request.outputs| - |inputs| + i {
          assert !InputInPlace(op, i);
          return false;
        }
        if inputId !in created || created[inputId].consumedBy.Some? {
          assert !Spendable(old(created), op, i);
          return false;
        }
        var input := created[inputId];
        if input.observed.request.outputs[input.index].owner != op.request.owner {
          assert !Spendable(old(created), op, i);
          return false;
        }
        created := created[inputId := input.(consumedBy := Some(id))];
        assert ids[..i + 1] == ids[..i] + [inputId];
      }
      assert ids[..|inputs|] == ids;
      ok := true;
    }

    // Each output with exactly one log in its place, under an id not created before.
    method CreateOutputs(op: Observed) returns (ok: bool)
      requires op.success.Some?
      modifies this`created, this`order
      ensures ok <==> OutputsAccepted(s, old(created), op)
      ensures ok ==> created == Create(s, old(created), op, |op.request.outputs|)
      ensures ok ==> order == old(order) + OutputIds(s, op)
    {
      var ids := OutputIds(s, op);
      for i := 0 to |op.request.outputs|
        invariant created == Create(s, old(created), op, i)
        invariant order == old(order) + ids[..i]
        invariant OutputsUpTo(s, old(created), op, i)
      {
        OutputsNext(s, old(created), op, i);
        if !OutputInPlace(s, op, i) { return false; }
        var key := s.crypto.outputId(IdOf(s, op), i);
        if key in created { return false; }
        created := created[key := Entry(op, i, None)];
        order := order + [key];
        assert ids[..i + 1] == ids[..i] + [key];
      }
      assert ids[..|op.request.outputs|] == ids;
      ok := true;
    }

    method CheckState(id: nat) returns (r: Option<Fault>)
      ensures r == StateFault(s, id)
    {
      var state := Value(s.history.operationSuccess(id, s.point), s.point);
      if state.Err? { return Some(state.error); }
      if !state.value.executed { return Some(InconsistentHistory); }
      if state.value.operation.Some? && s.crypto.OperationId(s.context, state.value.operation.value) != id {
        return Some(InconsistentHistory);
      }
      r := None;
    }

    // The checks before the logs, in their order. Here and below `longer` is the history with op.
    method CheckEvent(op: Observed, ghost longer: seq<Observed>) returns (r: Option<Fault>)
      requires Grown(longer, done, op)
      requires HeadersTrue(s, headers) && HeadersKept(done, headers) && successes == Executed(s, done)
      modifies this`headers
      ensures r == EventFault(s, Executed(s, done), op)
      ensures r.None? ==> HeadersTrue(s, headers) && HeadersKept(longer, headers)
    {
      if !ValidShape(s.crypto, op.request) { return Some(Rpc); }
      if op.success.None? { return Some(IncompleteHistory); }
      var event, id := op.success.value, IdOf(s, op);
      if id != event.operationId || id in successes { return Some(InconsistentHistory); }
      if event.blockNumber < s.context.deploymentBlock || event.blockNumber > s.point.number { return Some(InconsistentHistory); }
      ghost var before := headers;
      r := CheckHeader(event);
      if r.Some? { return; }
      HeadersKeptMore(done, before, headers);
      if |InputsOf(op)| != |op.request.inputIds| || |op.outputLogs| != |op.request.outputs| { return Some(IncompleteHistory); }
      r := None;
    }

    // The checks of an operation's logs against the logs before them.
    method CheckPlaces(op: Observed, ghost longer: seq<Observed>) returns (ok: bool)
      requires op.success.Some? && |InputsOf(op)| == |op.request.inputIds| && Grown(longer, done, op)
      requires Accepts(s, done) && Tracks(done, positions, transactions, transactionPlaces, preceding)
      modifies this`positions, this`preceding, this`transactions, this`transactionPlaces
      ensures ok <==> PlacesAccepted(done, op)
      ensures ok ==> Tracks(longer, positions, transactions, transactionPlaces, preceding)
    {
      ok := CheckLogs(op, op.success.value);
      if !ok { return; }
      ok := CheckOrder(op, op.success.value);
      if !ok { return; }
      ok := CheckTransaction(op, op.success.value);
      if !ok { return; }
      TracksMore(longer, done, op, positions, transactions, transactionPlaces, preceding);
    }

    // Spend the inputs, create the outputs.
    method Move(op: Observed) returns (ok: bool)
      requires op.success.Some? && |InputsOf(op)| == |op.request.inputIds| && Ascending(op.request.inputIds)
      requires InRange(created)
      modifies this`created, this`order
      ensures ok <==> InputsAccepted(old(created), op) && OutputsAccepted(s, old(created), op)
      ensures ok ==> created == Moved(s, old(created), op) && order == old(order) + OutputIds(s, op)
    {
      ConsumedKeysSame(s, created, op.request.inputIds, IdOf(s, op), op);
      ok := SpendInputs(op, IdOf(s, op));
      if !ok { return; }
      ok := CreateOutputs(op);
    }

    // The checks of the operation itself and of its place in the chain.
    method Screen(op: Observed, ghost longer: seq<Observed>) returns (r: Option<Fault>)
      requires Grown(longer, done, op)
      requires HeadersTrue(s, headers) && HeadersKept(done, headers) && successes == Executed(s, done)
      requires Accepts(s, done) && Tracks(done, positions, transactions, transactionPlaces, preceding)
      modifies this`headers, this`positions, this`preceding, this`transactions, this`transactionPlaces
      ensures r == ScreenFault(s, done, op)
      ensures r.None? ==> HeadersTrue(s, headers) && HeadersKept(longer, headers)
      ensures r.None? ==> Tracks(longer, positions, transactions, transactionPlaces, preceding)
    {
      r := CheckEvent(op, longer);
      if r.Some? { return; }
      var ok := CheckPlaces(op, longer);
      if !ok { return Some(InconsistentHistory); }
    }

    // Its effect on the coins, then the contract's record of it.
    method Settle(op: Observed) returns (r: Option<Fault>)
      requires op.success.Some? && |InputsOf(op)| == |op.request.inputIds| && Ascending(op.request.inputIds)
      requires InRange(created)
      modifies this`created, this`order
      ensures r == SettleFault(s, old(created), op)
      ensures r.None? ==> created == Moved(s, old(created), op) && order == old(order) + OutputIds(s, op)
    {
      var ok := Move(op);
      if !ok { return Some(InconsistentHistory); }
      r := CheckState(IdOf(s, op));
    }

    // The checks of one turn and their effects on the maps, in order.
    method Process(op: Observed, ghost longer: seq<Observed>) returns (r: Option<Fault>)
      requires Grown(longer, done, op)
      requires HeadersTrue(s, headers) && HeadersKept(done, headers) && successes == Executed(s, done)
      requires InRange(created)
      requires Accepts(s, done) && Tracks(done, positions, transactions, transactionPlaces, preceding)
      modifies this`headers, this`positions, this`preceding, this`transactions, this`transactionPlaces,
        this`created, this`order
      ensures r == StepFault(s, done, old(created), op)
      ensures r.None? ==> HeadersTrue(s, headers) && HeadersKept(longer, headers)
      ensures r.None? ==> created == Moved(s, old(created), op) && order == old(order) + OutputIds(s, op)
      ensures r.None? ==> Tracks(longer, positions, transactions, transactionPlaces, preceding)
    {
      r := Screen(op, longer);
      if r.Some? { return; }
      ScreenGives(s, done, op);
      r := Settle(op);
    }

    // One turn of the replay loop: refused with the first fault there is, accepted without one.
    method Apply(op: Observed) returns (r: Option<Fault>)
      requires Valid()
      modifies this
      ensures done == old(done) + (if r.None? then [op] else [])
      ensures r == StepFault(s, old(done), Created(s, old(done)), op)
      ensures r.None? ==> Valid()
    {
      ghost var longer := done + [op];
      r := Advance(op, longer);
    }

    method Advance(op: Observed, ghost longer: seq<Observed>) returns (r: Option<Fault>)
      requires Valid() && Grown(longer, done, op)
      modifies this
      ensures done == if r.None? then longer else old(done)
      ensures r == StepFault(s, old(done), Created(s, old(done)), op)
      ensures r.None? ==> Valid()
    {
      EntriesInRange(s, done);
      r := Process(op, longer);
      if r.Some? { return; }
      BooksMore(longer, s, done, op, headers);
      Accept(op, longer);
    }

    // The operation joins the history; the maps describe the longer one already.
    method Accept(op: Observed, ghost longer: seq<Observed>)
      requires Books(s, longer, headers, successes[IdOf(s, op) := op.request], created, order)
      requires Tracks(longer, positions, transactions, transactionPlaces, preceding)
      modifies this`successes, this`done
      ensures Valid() && done == longer
    {
      successes := successes[IdOf(s, op) := op.request];
      done := longer;
    }
  }

  lemma EntriesInRange(s: Setting, ops: seq<Observed>)
    requires Accepts(s, ops)
    ensures InRange(Created(s, ops))
  {
    AcceptedLedger(s, ops);
    forall id | id in Created(s, ops)
      ensures Created(s, ops)[id].index < |Created(s, ops)[id].observed.request.outputs|
    {
      EntriesTrue(s, ops, id);
    }
  }
}

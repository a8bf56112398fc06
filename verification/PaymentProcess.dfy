// The payment client of packages/uniswap/src/process.ts against the reservation service: any
// number of racing clients, requests that are lost, delayed or delivered twice, replies that
// never arrive, and crashes at any point.
//
// A client is a step machine; each of its port calls is a step of its own, so anything may
// happen between two of them. The service side is ReservationRuns, unchanged.
module PaymentProcess {
  import opened Wrappers
  import opened ReservationStore
  import opened AttemptRecovery
  import Runs = ReservationRuns

  // ----- Clients -----

  datatype Flow = Authorize(exportOnly: bool) | Resume | Retry

  // What a flow does next. Reserve, StartSignature, StoreSigned, Append and StoreHash are
  // durable writes; Release is the write of prepareChangedTerms.
  datatype Todo =
    | Reserve | StartSignature | Sign | StoreSigned | CreateAttempt | Append(attempt: string)
    | Submit(attempt: string) | StoreHash | Finish | Release

  // The evidence a recovery flow checked, with the saved reservation it was read for.
  datatype Proof = Proof(saved: Row, evidence: Evidence, input: CurrentInput)

  // A write request on its way to the service. `expected` is the revision it replaces.
  datatype Message = Message(client: nat, todo: Todo, record: Record, expected: nat, proof: Option<Proof>) {
    function Target(): Key { Key(record.scope, record.recordId) }
  }

  datatype Stage =
    | Prepared(record: Record)
    | Listed(saved: Row)
    | Evidenced(evidenced: Proof)
    | Idle(todo: Todo, known: Row)
    | Writing(message: Message)
    | Checking(message: Message)
    | Answered(message: Message, row: Row, viaGet: bool)
    | Ended

  datatype Client = Client(flow: Flow, key: Key, stage: Stage, proof: Option<Proof>)

  // ----- The comparisons a client makes -----

  function IsActive(row: Row): bool { row.status.Live() }

  // assertSaved: the reply is the record this client just wrote, at the revision it expects.
  predicate AssertSaved(saved: Row, expected: Record, revision: nat) {
    && IsActive(saved) && saved.revision == revision
    && saved.record.scope == expected.scope && SameImmutable(saved.record, expected)
    && saved.record.signatureStarted == expected.signatureStarted
    && saved.record.attemptIds == expected.attemptIds
    && saved.record.bundle == expected.bundle
  }

  // recoverAck: what a client requires of a record it reads back after a failed write.
  predicate AckMatches(found: Row, expected: Record, revision: nat) {
    && IsActive(found) && found.revision == revision
    && found.record.contentHash == expected.contentHash
    && found.record.signatureStarted == expected.signatureStarted
    && found.record.attemptIds == expected.attemptIds
    && found.record.bundle == expected.bundle
  }

  // recover: the reservation is still the one the evidence was read for.
  predicate StillSaved(latest: Row, saved: Row) {
    && latest.revision == saved.revision && IsActive(latest) == IsActive(saved)
    && latest.record.contentHash == saved.record.contentHash
    && latest.record.attemptIds == saved.record.attemptIds
  }

  function After(flow: Flow, todo: Todo): Todo {
    match todo
    case Reserve => StartSignature
    case StartSignature => Sign
    case Sign => StoreSigned
    case StoreSigned => if flow == Authorize(true) then Finish else CreateAttempt
    case Append(attempt) => Submit(attempt)
    case _ => Finish
  }

  // Where a recovery flow starts once its evidence is confirmed.
  function RecoveryStart(flow: Flow, proof: Proof, signaturesRestored: bool): Option<Todo> {
    var decision := InspectOperation(proof.saved.record, IsActive(proof.saved), proof.evidence, proof.input);
    match flow
    case Retry =>
      if decision.RetryAttempt? && proof.saved.record.signatureStarted then Some(CreateAttempt) else None
    case Resume =>
      if !decision.ResumeOriginal? then None
      else if proof.saved.record.signatureStarted then
        if signaturesRestored then Some(CreateAttempt) else Some(Sign)
      else if signaturesRestored then None else Some(StartSignature)
    case Authorize(_) => None
  }

  // The write a client sends from Idle, if its next action is one.
  function WriteTodo(todo: Todo, attempt: string): Option<Todo> {
    match todo
    case StartSignature => Some(StartSignature)
    case StoreSigned => Some(StoreSigned)
    case CreateAttempt => Some(Append(attempt))
    case StoreHash => Some(StoreHash)
    case _ => None
  }

  function Rewritten(todo: Todo, record: Record, bundle: Bundle): Record {
    match todo
    case StartSignature => record.(signatureStarted := true, bundle := bundle)
    case Append(attempt) => record.(attemptIds := record.attemptIds + [attempt], bundle := bundle)
    case _ => record.(bundle := bundle)
  }

  // ----- The world -----

  datatype Submission = Submission(client: nat, key: Key, attempt: string, revision: nat)

  // One accepted write of a record, as revision i + 1 at index i of the record's history.
  datatype Entry = Entry(message: Message, record: Record)

  datatype World = World(
    server: Runs.Server,
    origins: map<nat, Message>,            // the request behind each suspended put
    sent: set<Message>,                    // every write ever sent; the network may repeat or drop them
    replies: set<(Message, Row)>,
    nextNonce: nat,                        // every encryption takes a nonce never used before
    clients: map<nat, Client>,
    history: map<Key, seq<Entry>>,
    submits: seq<Submission>,
    signings: seq<(nat, Key)>)

  datatype Step =
    | StartAuthorize(client: nat, request: Record, exportOnly: bool)
    | StartRecover(client: nat, scope: Scope, recordId: string, flow: Flow, gate: Gate)
    | ReadEvidence(client: nat, evidence: Evidence, input: CurrentInput)
    | Confirm(client: nat, signaturesRestored: bool)
    | SendWrite(client: nat, ciphertext: string, tag: string, attempt: string)
    | SendRelease(client: nat, request: Record, expected: nat, ciphertext: string, tag: string)
    | Acknowledge(client: nat, row: Row)
    | LoseReply(client: nat)
    | ReadBack(client: nat)
    | Adopt(client: nat)
    | SignPool(client: nat)
    | SubmitAttempt(client: nat, hashKnown: bool)
    | Crash(client: nat)
    | DeliverPut(task: nat, message: Message)
    | DeliverRelease(message: Message, checkpoint: Checkpoint, releaseGate: Option<Gate>)
    | Serve(transition: Runs.Label)

  function Init(): World {
    World(Runs.Init(), map[], {}, {}, 0, map[], map[], [], [])
  }

  function SetStage(w: World, c: nat, stage: Stage): World
    requires c in w.clients
  {
    w.(clients := w.clients[c := w.clients[c].(stage := stage)])
  }

  // The client puts a freshly encrypted write on the network and waits.
  function Post(w: World, c: nat, todo: Todo, record: Record, expected: nat): World
    requires c in w.clients
  {
    var message := Message(c, todo, record, expected, w.clients[c].proof);
    SetStage(w.(sent := w.sent + {message}, nextNonce := w.nextNonce + 1), c, Writing(message))
  }

  // The service moves; an accepted write is entered in the history of its record.
  function Recorded(history: map<Key, seq<Entry>>, operations: map<Key, Row>, message: Message): map<Key, seq<Entry>> {
    var k := message.Target();
    if k !in operations then history
    else if k !in history then history[k := [Entry(message, operations[k].record)]]
    else if operations[k].revision == |history[k]| + 1 then history[k := history[k] + [Entry(message, operations[k].record)]]
    else history
  }

  function ServeLabel(w: World, l: Runs.Label): World {
    var s := Runs.Next(w.server, l);
    match l
    case CommitPut(task, _, _) =>
      if task !in w.origins || task !in w.server.puts then w
      else
        var message := w.origins[task];
        var reply := Runs.PutReply(w.server, l);
        w.(server := s,
           history := Recorded(w.history, s.tables.operations, message),
           replies := if reply.Some? && reply.value.Ok? then w.replies + {(message, reply.value.value)} else w.replies)
    case BeginPut(_, _, _, _) => w
    case Release(_, _, _, _, _) => w
    case _ => w.(server := s)
  }

  // ----- The actions of one client -----

  // recover, after the second read: the gate decides, on the reservation as it still stands.
  function ConfirmEvidence(w: World, c: nat, restored: bool): World
    requires c in w.clients && w.clients[c].stage.Evidenced?
  {
    var cl := w.clients[c];
    var proof := cl.stage.evidenced;
    var start := RecoveryStart(cl.flow, proof, restored);
    if cl.key in w.server.tables.operations && StillSaved(w.server.tables.operations[cl.key], proof.saved) && start.Some?
    then w.(clients := w.clients[c := cl.(stage := Idle(start.value, proof.saved), proof := Some(proof))])
    else SetStage(w, c, Ended)
  }

  function Write(w: World, c: nat, ciphertext: string, tag: string, attempt: string): World
    requires c in w.clients && w.clients[c].stage.Idle?
  {
    var cl := w.clients[c];
    var known := cl.stage.known;
    var write := WriteTodo(cl.stage.todo, attempt);
    if write.None? then w
    else if write.value.Append? && !cl.flow.Authorize? && attempt in known.record.attemptIds then SetStage(w, c, Ended)
    else Post(w, c, write.value, Rewritten(write.value, known.record, Bundle(ciphertext, w.nextNonce, tag)), known.revision)
  }

  function ReadRecord(w: World, c: nat): World
    requires c in w.clients && w.clients[c].stage.Checking?
  {
    var cl := w.clients[c];
    if cl.key in w.server.tables.operations
    then SetStage(w, c, Answered(cl.stage.message, w.server.tables.operations[cl.key], true))
    else SetStage(w, c, Ended)
  }

  // recoverAck and assertSaved: the client goes on only with a record it accepts as its own write.
  function AdoptAnswer(w: World, c: nat): World
    requires c in w.clients && w.clients[c].stage.Answered?
  {
    var cl := w.clients[c];
    var Answered(message, row, viaGet) := cl.stage;
    if (viaGet ==> AckMatches(row, message.record, message.expected + 1))
      && AssertSaved(row, message.record, message.expected + 1)
    then SetStage(w, c, Idle(After(cl.flow, message.todo), row))
    else SetStage(w, c, Ended)
  }

  function SubmitNow(w: World, c: nat, hashKnown: bool): World
    requires c in w.clients && w.clients[c].stage.Idle? && w.clients[c].stage.todo.Submit?
  {
    var cl := w.clients[c];
    var Idle(todo, known) := cl.stage;
    SetStage(w.(submits := w.submits + [Submission(c, cl.key, todo.attempt, known.revision)]), c,
             if hashKnown then Idle(StoreHash, known) else Ended)
  }

  function ClientStep(w: World, step: Step, c: nat): World
    requires c in w.clients
  {
    var cl := w.clients[c];
    match (step, cl.stage)
    case (ReadEvidence(_, evidence, input), Listed(saved)) =>
      SetStage(w, c, Evidenced(Proof(saved, evidence, input)))
    case (Confirm(_, restored), Evidenced(_)) => ConfirmEvidence(w, c, restored)
    case (SendWrite(_, ciphertext, tag, _), Prepared(record)) =>
      Post(w, c, Reserve, record.(bundle := Bundle(ciphertext, w.nextNonce, tag)), 0)
    case (SendWrite(_, ciphertext, tag, attempt), Idle(_, _)) => Write(w, c, ciphertext, tag, attempt)
    case (Acknowledge(_, row), Writing(message)) =>
      if (message, row) in w.replies then SetStage(w, c, Answered(message, row, false)) else w
    case (LoseReply(_), Writing(message)) => SetStage(w, c, Checking(message))
    case (ReadBack(_), Checking(_)) => ReadRecord(w, c)
    case (Adopt(_), Answered(_, _, _)) => AdoptAnswer(w, c)
    case (SignPool(_), Idle(Sign, known)) =>
      SetStage(w.(signings := w.signings + [(c, cl.key)]), c, Idle(StoreSigned, known))
    case (SubmitAttempt(_, hashKnown), Idle(Submit(_), _)) => SubmitNow(w, c, hashKnown)
    case (Crash(_), _) => SetStage(w, c, Ended)
    case _ => w
  }

  // One step of the world; a step that is not enabled changes nothing.
  function Next(w: World, step: Step): World {
    match step
    case StartAuthorize(c, request, exportOnly) =>
      if c in w.clients || request.signatureStarted || request.attemptIds != [] then w
      else
        var record := Normalized(request);
        w.(clients := w.clients[c := Client(Authorize(exportOnly), Key(record.scope, record.recordId), Prepared(record), None)])
    case StartRecover(c, scope, recordId, flow, gate) =>
      var key := RecordKey(scope, recordId);
      if c in w.clients || flow.Authorize? || key !in w.server.tables.operations || !Available(w.server.tables.environment, gate) then w
      else w.(clients := w.clients[c := Client(flow, key, Listed(w.server.tables.operations[key]), None)])
    case SendRelease(c, request, expected, ciphertext, tag) =>
      var record := Normalized(request).(bundle := Bundle(ciphertext, w.nextNonce, tag));
      w.(sent := w.sent + {Message(c, Release, record, expected, None)}, nextNonce := w.nextNonce + 1)
    case DeliverPut(task, message) =>
      if message !in w.sent || message.todo == Release || task in w.server.puts then w
      else
        w.(server := Runs.Next(w.server, Runs.BeginPut(task, message.record.scope, message.record, message.expected)),
           origins := w.origins[task := message])
    case DeliverRelease(message, checkpoint, gate) =>
      if message !in w.sent || message.todo != Release then w
      else
        var s := Runs.Next(w.server, Runs.Release(message.record.scope, message.record, message.expected, checkpoint, gate));
        w.(server := s, history := Recorded(w.history, s.tables.operations, message))
    case Serve(l) => ServeLabel(w, l)
    case _ =>
      if step.client in w.clients then ClientStep(w, step, step.client) else w
  }

  function Run(steps: seq<Step>): World
    decreases |steps|
  {
    if steps == [] then Init() else Next(Run(steps[..|steps| - 1]), steps[|steps| - 1])
  }
}

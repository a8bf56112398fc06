// What the flows of PaymentProcess come to: an authorization for export never submits, and every
// flow that nobody disturbs reaches the end it was started for.
module PaymentFlows {
  import opened Wrappers
  import opened ReservationStore
  import opened AttemptRecovery
  import opened PaymentProcess
  import opened PaymentSafety

  // ----- Exports never submit -----

  // Where an authorization for export can be.
  predicate ExportStage(stage: Stage) {
    match stage
    case Prepared(_) => true
    case Idle(todo, _) => todo.StartSignature? || todo.Sign? || todo.StoreSigned? || todo.Finish?
    case Writing(m) => ExportWrite(m.todo)
    case Checking(m) => ExportWrite(m.todo)
    case Answered(m, _, _) => ExportWrite(m.todo)
    case Ended => true
    case _ => false
  }

  predicate ExportWrite(todo: Todo) { todo.Reserve? || todo.StartSignature? || todo.StoreSigned? }

  predicate IsExport(clients: map<nat, Client>, c: nat) {
    c in clients && clients[c].flow == Authorize(true)
  }

  ghost predicate ExportsOk(w: World) {
    && (forall c :: IsExport(w.clients, c) ==> ExportStage(w.clients[c].stage))
    && (forall m :: m in w.sent && m.todo.Append? ==> !IsExport(w.clients, m.client))
  }

  // A step of a client changes its stage and its proof, and nothing of the others.
  predicate Local(w: World, v: World, c: nat)
    requires c in w.clients
  {
    c in v.clients && v.clients == w.clients[c := v.clients[c]] && v.clients[c].flow == w.clients[c].flow
  }

  lemma ClientStepLocal(w: World, step: Step, c: nat)
    requires c in w.clients
    ensures Local(w, ClientStep(w, step, c), c)
  {
    var stage := w.clients[c].stage;
    if step.Confirm? && stage.Evidenced? {
      ConfirmIs(w, c, step.signaturesRestored);
    } else if step.SendWrite? && stage.Idle? {
      WriteIs(w, c, step.ciphertext, step.tag, step.attempt);
    } else if step.SubmitAttempt? && stage.Idle? && stage.todo.Submit? {
      SubmitNowIs(w, c, step.hashKnown);
    } else {
      PlainStepLocal(w, step, c);
    }
  }

  lemma PlainStepLocal(w: World, step: Step, c: nat)
    requires c in w.clients && !(step.Confirm? && w.clients[c].stage.Evidenced?)
    requires !(step.SubmitAttempt? && w.clients[c].stage.Idle? && w.clients[c].stage.todo.Submit?)
    requires !(step.SendWrite? && w.clients[c].stage.Idle?)
    ensures Local(w, ClientStep(w, step, c), c)
  {
  }

  lemma OtherStepsLocal(w: World, step: Step)
    requires !OfClient(step) && !step.StartAuthorize? && !step.StartRecover?
    ensures Next(w, step).clients == w.clients
  {
    if step.Serve? { ServeIs(w, step.transition); }
  }

  // A client that has started keeps its flow.
  lemma FlowStays(w: World, step: Step, c: nat)
    requires c in w.clients
    ensures c in Next(w, step).clients && Next(w, step).clients[c].flow == w.clients[c].flow
  {
    if OfClient(step) {
      ClientNextIs(w, step);
      if step.client in w.clients { ClientStepLocal(w, step, step.client); }
    } else if !step.StartAuthorize? && !step.StartRecover? {
      OtherStepsLocal(w, step);
    }
  }

  lemma NewClient(w: World, step: Step, c: nat)
    requires c !in w.clients && IsExport(Next(w, step).clients, c)
    ensures Next(w, step).clients[c].stage.Prepared?
  {
    if OfClient(step) {
      ClientNextIs(w, step);
      if step.client in w.clients { ClientStepLocal(w, step, step.client); }
    } else if !step.StartAuthorize? && !step.StartRecover? {
      OtherStepsLocal(w, step);
    }
  }

  // Only a client about to create an attempt sends an append.
  lemma NewAppend(w: World, step: Step, m: Message)
    requires m in Next(w, step).sent && m !in w.sent && m.todo.Append?
    ensures m.client in w.clients && w.clients[m.client].stage.Idle? && w.clients[m.client].stage.todo.CreateAttempt?
  {
    if step.Serve? { ServeIs(w, step.transition); }
  }

  lemma OtherStage(w: World, step: Step, c: nat)
    requires c in w.clients && (OfClient(step) ==> step.client != c)
    ensures c in Next(w, step).clients && Next(w, step).clients[c] == w.clients[c]
  {
    if OfClient(step) {
      ClientNextIs(w, step);
      if step.client in w.clients { ClientStepLocal(w, step, step.client); }
    } else if !step.StartAuthorize? && !step.StartRecover? {
      OtherStepsLocal(w, step);
    }
  }

  lemma ExportMoves(w: World, step: Step, c: nat)
    requires OfClient(step) && step.client == c && IsExport(w.clients, c) && ExportStage(w.clients[c].stage)
    ensures ExportStage(Next(w, step).clients[c].stage)
  {
    ClientNextIs(w, step);
    if step.SendWrite? && w.clients[c].stage.Idle? {
      WriteIs(w, c, step.ciphertext, step.tag, step.attempt);
    } else if step.Adopt? && w.clients[c].stage.Answered? {
      AdoptIs(w, c);
    } else if step.ReadBack? && w.clients[c].stage.Checking? {
      ReadRecordIs(w, c);
    }
  }

  lemma ExportStep(w: World, step: Step)
    requires Inv(w) && ExportsOk(w)
    ensures ExportsOk(Next(w, step))
  {
    var v := Next(w, step);
    forall c | IsExport(v.clients, c) ensures ExportStage(v.clients[c].stage) {
      if c !in w.clients {
        NewClient(w, step, c);
      } else {
        FlowStays(w, step, c);
        if OfClient(step) && step.client == c { ExportMoves(w, step, c); } else { OtherStage(w, step, c); }
      }
    }
    forall m | m in v.sent && m.todo.Append? ensures !IsExport(v.clients, m.client) {
      if m !in w.sent { NewAppend(w, step, m); }
      assert m.client in w.clients;
      FlowStays(w, step, m.client);
    }
  }

  lemma {:induction false} ExportsHold(steps: seq<Step>)
    ensures ExportsOk(Run(steps))
    decreases |steps|
  {
    if steps != [] {
      ExportsHold(steps[..|steps| - 1]);
      InvHolds(steps[..|steps| - 1]);
      ExportStep(Run(steps[..|steps| - 1]), steps[|steps| - 1]);
    }
  }

  lemma {:induction false} FlowForever(steps: seq<Step>, n: nat, c: nat)
    requires n <= |steps| && c in Run(steps[..n]).clients
    ensures c in Run(steps).clients && Run(steps).clients[c].flow == Run(steps[..n]).clients[c].flow
    decreases |steps|
  {
    if n == |steps| {
      assert steps[..n] == steps;
    } else {
      var before := steps[..|steps| - 1];
      assert before[..n] == steps[..n];
      FlowForever(before, n, c);
      FlowStays(Run(before), steps[|steps| - 1], c);
    }
  }

  ghost predicate NeverSubmitted(w: World, c: nat) {
    NeverAppended(w.history, c) && forall e :: e in w.submits ==> e.client != c
  }

  ghost predicate NeverAppended(history: map<Key, seq<Entry>>, c: nat) {
    forall k, i :: k in history && 0 <= i < |history[k]| && history[k][i].message.todo.Append? ==> history[k][i].message.client != c
  }

  lemma AppendsSent(history: map<Key, seq<Entry>>, sent: set<Message>, c: nat)
    requires EntriesOk(history, sent) && forall m :: m in sent && m.todo.Append? ==> m.client != c
    ensures NeverAppended(history, c)
  {
    forall k, i | k in history && 0 <= i < |history[k]| && history[k][i].message.todo.Append?
      ensures history[k][i].message.client != c
    {
      assert EntryOk(sent, k, history[k], i);
    }
  }

  lemma SubmitsAppended(history: map<Key, seq<Entry>>, clients: map<nat, Client>, submits: seq<Submission>, c: nat)
    requires SubmitsOk(history, clients, submits) && NeverAppended(history, c)
    ensures forall e :: e in submits ==> e.client != c
  {
    forall e | e in submits ensures e.client != c {
      var i :| 0 <= i < |submits| && submits[i] == e;
      assert SubmissionOk(history, clients, submits[i]);
    }
  }

  lemma ExportSilent(w: World, c: nat)
    requires Inv(w) && ExportsOk(w) && IsExport(w.clients, c)
    ensures NeverSubmitted(w, c)
  {
    AppendsSent(w.history, w.sent, c);
    SubmitsAppended(w.history, w.clients, w.submits, c);
  }

  // Over all runs: a client started to authorize for export never submits, and no record ever
  // takes an attempt from it.
  lemma ExportNeverSubmits(steps: seq<Step>, n: nat)
    requires n < |steps| && steps[n].StartAuthorize? && steps[n].exportOnly
    requires steps[n].client !in Run(steps[..n]).clients && steps[n].client in Next(Run(steps[..n]), steps[n]).clients
    ensures NeverSubmitted(Run(steps), steps[n].client)
  {
    RunNext(steps, n);
    FlowForever(steps, n + 1, steps[n].client);
    ExportsHold(steps);
    InvHolds(steps);
    ExportSilent(Run(steps), steps[n].client);
  }

  lemma RunNext(steps: seq<Step>, n: nat)
    requires n < |steps|
    ensures Run(steps[..n + 1]) == Next(Run(steps[..n]), steps[n])
  {
    assert steps[..n + 1][..n] == steps[..n];
  }

  // ----- Flows that nobody disturbs -----

  function Continue(w: World, steps: seq<Step>): World
    decreases |steps|
  {
    if steps == [] then w else Next(Continue(w, steps[..|steps| - 1]), steps[|steps| - 1])
  }

  lemma {:induction false} ContinueConcat(w: World, a: seq<Step>, b: seq<Step>)
    ensures Continue(w, a + b) == Continue(Continue(w, a), b)
    decreases |b|
  {
    if b == [] {
      assert a + b == a;
    } else {
      ContinueConcat(w, a, b[..|b| - 1]);
      assert (a + b)[..|a + b| - 1] == a + b[..|b| - 1];
    }
  }

  lemma ContinueOne(w: World, a: Step)
    ensures Continue(w, [a]) == Next(w, a)
  {
    assert [a][..0] == [];
  }

  lemma ContinueTwo(w: World, a: Step, b: Step)
    ensures Continue(w, [a, b]) == Next(Next(w, a), b)
  {
    ContinueOne(w, a);
    assert [a, b][..1] == [a];
  }

  lemma {:induction false} ContinueKeeps(w: World, steps: seq<Step>)
    requires Inv(w)
    ensures Inv(Continue(w, steps))
    decreases |steps|
  {
    if steps != [] {
      ContinueKeeps(w, steps[..|steps| - 1]);
      NextKeeps(Continue(w, steps[..|steps| - 1]), steps[|steps| - 1]);
    }
  }

  // The environment lets the service write.
  predicate Running(w: World, gate: Option<Gate>) {
    !IsStopped(w.server.tables.environment) && Writable(w.server.tables.environment, gate)
  }

  // The client stands idle with the record as it is stored, and the reservation is live.
  ghost predicate Holds(w: World, c: nat, key: Key, todo: Todo, row: Row, gate: Option<Gate>) {
    && Inv(w) && Running(w, gate)
    && c in w.clients && w.clients[c].key == key && w.clients[c].stage == Idle(todo, row)
    && key in w.server.tables.operations && w.server.tables.operations[key] == row && row.status.Live()
  }

  // What one client's round changes of the world: the tables, its stage, and nothing it did before.
  predicate Moved(w: World, v: World, c: nat, tables: Tables, stage: Stage)
    requires c in w.clients
  {
    && v.server.tables == tables && v.clients == w.clients[c := w.clients[c].(stage := stage)]
    && v.submits == w.submits && v.signings == w.signings
  }

  // The service takes a request in and commits it, with nothing in between.
  lemma ServerPut(s: Runs.Server, task: nat, m: Message, gate: Option<Gate>, u: Tables, row: Row)
    requires task !in s.puts && Normalized(m.record) == m.record
    requires m.Target() in s.tables.operations || (!m.record.signatureStarted && m.record.attemptIds == [])
    requires PutTx(s.tables, m.record, m.expected, gate) == (u, Ok(row))
    ensures var s1 := Runs.Next(s, BeginLabel(task, m));
      && task in s1.puts && Runs.Next(s1, Runs.CommitPut(task, OwnedUnspent, gate)).tables == u
      && Runs.PutReply(s1, Runs.CommitPut(task, OwnedUnspent, gate)) == Some(Ok(row))
  {
    var s1 := Runs.Next(s, BeginLabel(task, m));
    assert s1 == s.(puts := s.puts[task := Runs.PendingPut(m.record, m.expected, m.Target() in s.tables.operations)]);
  }

  lemma DeliveredPut(w: World, task: nat, m: Message, gate: Option<Gate>, u: Tables, row: Row)
    requires m in w.sent && m.todo != Release && task !in w.server.puts && Normalized(m.record) == m.record
    requires m.Target() in w.server.tables.operations || (!m.record.signatureStarted && m.record.attemptIds == [])
    requires PutTx(w.server.tables, m.record, m.expected, gate) == (u, Ok(row))
    ensures var v := Continue(w, [DeliverPut(task, m), Serve(Runs.CommitPut(task, OwnedUnspent, gate))]);
      && v.server.tables == u && v.clients == w.clients && v.submits == w.submits && v.signings == w.signings
      && (m, row) in v.replies
  {
    ContinueTwo(w, DeliverPut(task, m), Serve(Runs.CommitPut(task, OwnedUnspent, gate)));
    ServerPut(w.server, task, m, gate, u, row);
    DeliverPutIs(w, task, m);
    ServeIs(Next(w, DeliverPut(task, m)), Runs.CommitPut(task, OwnedUnspent, gate));
  }

  lemma AnswerTaken(w: World, c: nat, m: Message, row: Row)
    requires c in w.clients && w.clients[c].stage == Writing(m) && (m, row) in w.replies
    ensures Next(w, Acknowledge(c, row)) == SetStage(w, c, Answered(m, row, false))
  {
    ClientNextIs(w, Acknowledge(c, row));
    WaitStepIs(w, Acknowledge(c, row), c);
  }

  lemma AnswerAdopted(w: World, c: nat, m: Message, row: Row)
    requires c in w.clients && w.clients[c].stage == Answered(m, row, false) && AssertSaved(row, m.record, m.expected + 1)
    ensures Next(w, Adopt(c)) == SetStage(w, c, Idle(After(w.clients[c].flow, m.todo), row))
  {
    ClientNextIs(w, Adopt(c));
    AdoptIs(w, c);
  }

  lemma Acknowledged(w: World, c: nat, m: Message, row: Row)
    requires c in w.clients && w.clients[c].stage == Writing(m) && (m, row) in w.replies
    requires AssertSaved(row, m.record, m.expected + 1)
    ensures Moved(w, Continue(w, [Acknowledge(c, row), Adopt(c)]), c, w.server.tables, Idle(After(w.clients[c].flow, m.todo), row))
  {
    ContinueTwo(w, Acknowledge(c, row), Adopt(c));
    AnswerTaken(w, c, m, row);
    AnswerAdopted(SetStage(w, c, Answered(m, row, false)), c, m, row);
  }

  // A write on the network is accepted, and the client adopts the reply.
  lemma PutRound(w: World, c: nat, m: Message, gate: Option<Gate>, u: Tables, row: Row) returns (steps: seq<Step>)
    requires c in w.clients && w.clients[c].stage == Writing(m)
    requires m in w.sent && m.todo != Release && Normalized(m.record) == m.record
    requires m.Target() in w.server.tables.operations || (!m.record.signatureStarted && m.record.attemptIds == [])
    requires PutTx(w.server.tables, m.record, m.expected, gate) == (u, Ok(row)) && AssertSaved(row, m.record, m.expected + 1)
    ensures Moved(w, Continue(w, steps), c, u, Idle(After(w.clients[c].flow, m.todo), row))
  {
    var task := Runs.FreshNat(w.server.puts.Keys);
    assert task !in w.server.puts.Keys;
    var put := [DeliverPut(task, m), Serve(Runs.CommitPut(task, OwnedUnspent, gate))];
    DeliveredPut(w, task, m, gate, u, row);
    Acknowledged(Continue(w, put), c, m, row);
    steps := put + [Acknowledge(c, row), Adopt(c)];
    ContinueConcat(w, put, [Acknowledge(c, row), Adopt(c)]);
  }

  function Updated(row: Row, write: Todo, bundle: Bundle): Row {
    row.(record := Rewritten(write, row.record, bundle), revision := row.revision + 1)
  }

  predicate Rewrites(write: Todo) { write.StartSignature? || write.StoreSigned? || write.Append? || write.StoreHash? }

  lemma UpdatePut(t: Tables, key: Key, row: Row, write: Todo, bundle: Bundle, gate: Option<Gate>)
    requires key in t.operations && t.operations[key] == row && row.status.Live() && Rewrites(write)
    requires key == Key(row.record.scope, row.record.recordId)
    requires !IsStopped(t.environment) && Writable(t.environment, gate) && bundle.nonce != row.record.bundle.nonce
    ensures PutTx(t, Rewritten(write, row.record, bundle), row.revision, gate)
      == (t.(operations := t.operations[key := Updated(row, write, bundle)]), Ok(Updated(row, write, bundle)))
    ensures AssertSaved(Updated(row, write, bundle), Rewritten(write, row.record, bundle), row.revision + 1)
  {
  }

  // A stored record carries a nonce that was drawn before, and is spelled the normal way.
  lemma StoredIsOld(w: World, key: Key)
    requires Inv(w) && key in w.server.tables.operations
    ensures var r := w.server.tables.operations[key].record;
      r.bundle.nonce < w.nextNonce && Normalized(r) == r && Key(r.scope, r.recordId) == key
  {
    RecordMatches(w.history, w.server.tables.operations, key);
    var n := |w.history[key]| - 1;
    assert EntryOk(w.sent, key, w.history[key], n);
    assert w.history[key][n].message in w.sent;
  }

  // One durable write from idle to idle.
  // The client has put its write on the network.
  predicate Posted(w: World, v: World, c: nat, m: Message)
    requires c in w.clients
  {
    && v.server == w.server && v.submits == w.submits && v.signings == w.signings
    && m in v.sent && v.clients == w.clients[c := w.clients[c].(stage := Writing(m))]
  }

  lemma WritePosted(w: World, c: nat, todo: Todo, write: Todo, row: Row, ciphertext: string, tag: string, attempt: string)
    requires c in w.clients && w.clients[c].stage == Idle(todo, row) && WriteTodo(todo, attempt) == Some(write)
    requires write.Append? ==> attempt !in row.record.attemptIds
    ensures Posted(w, Next(w, SendWrite(c, ciphertext, tag, attempt)), c,
      Message(c, write, Rewritten(write, row.record, Bundle(ciphertext, w.nextNonce, tag)), row.revision, w.clients[c].proof))
  {
    ClientNextIs(w, SendWrite(c, ciphertext, tag, attempt));
    WriteIs(w, c, ciphertext, tag, attempt);
  }

  // Both halves of a round: sending, and everything until the reply is adopted.
  lemma RoundMoves(w: World, send: Step, c: nat, m: Message, gate: Option<Gate>, u: Tables, row: Row) returns (steps: seq<Step>)
    requires c in w.clients && Posted(w, Next(w, send), c, m)
    requires m.todo != Release && Normalized(m.record) == m.record
    requires m.Target() in w.server.tables.operations || (!m.record.signatureStarted && m.record.attemptIds == [])
    requires PutTx(w.server.tables, m.record, m.expected, gate) == (u, Ok(row)) && AssertSaved(row, m.record, m.expected + 1)
    ensures Moved(w, Continue(w, steps), c, u, Idle(After(w.clients[c].flow, m.todo), row))
  {
    var rest := PutRound(Next(w, send), c, m, gate, u, row);
    steps := [send] + rest;
    ContinueOne(w, send);
    ContinueConcat(w, [send], rest);
  }

  lemma WriteRound(w: World, c: nat, key: Key, todo: Todo, write: Todo, row: Row, gate: Option<Gate>, ciphertext: string, tag: string,
      attempt: string) returns (steps: seq<Step>)
    requires Holds(w, c, key, todo, row, gate) && WriteTodo(todo, attempt) == Some(write)
    requires write.Append? ==> attempt !in row.record.attemptIds
    ensures var v := Continue(w, steps);
      var after := Updated(row, write, Bundle(ciphertext, w.nextNonce, tag));
      && Holds(v, c, key, After(w.clients[c].flow, write), after, gate)
      && Moved(w, v, c, w.server.tables.(operations := w.server.tables.operations[key := after]), v.clients[c].stage)
  {
    var bundle := Bundle(ciphertext, w.nextNonce, tag);
    var after := Updated(row, write, bundle);
    var m := Message(c, write, Rewritten(write, row.record, bundle), row.revision, w.clients[c].proof);
    var u := w.server.tables.(operations := w.server.tables.operations[key := after]);
    StoredIsOld(w, key);
    RewrittenNormal(write, row.record, bundle);
    UpdatePut(w.server.tables, key, row, write, bundle, gate);
    WritePosted(w, c, todo, write, row, ciphertext, tag, attempt);
    steps := RoundMoves(w, SendWrite(c, ciphertext, tag, attempt), c, m, gate, u, after);
    ContinueKeeps(w, steps);
    MovedHolds(w, Continue(w, steps), c, key, row, after, gate, After(w.clients[c].flow, write));
  }

  lemma MovedHolds(w: World, v: World, c: nat, key: Key, row: Row, after: Row, gate: Option<Gate>, todo: Todo)
    requires Running(w, gate) && c in w.clients && w.clients[c].key == key && row.status.Live() && after.status == row.status
    requires Inv(v) && Moved(w, v, c, w.server.tables.(operations := w.server.tables.operations[key := after]), Idle(todo, after))
    ensures Holds(v, c, key, todo, after, gate)
  {
  }

  // The submission a flow comes to, with what is stored by then.
  ghost predicate Submitted(w: World, v: World, c: nat, key: Key, row: Row, attempt: string, signed: bool, writes: nat, hashKnown: bool) {
    && key in v.server.tables.operations
    && var after := v.server.tables.operations[key];
    && after.record.attemptIds == row.record.attemptIds + [attempt] && after.record.signatureStarted && after.status == row.status
    && after.revision == row.revision + writes && SameImmutable(after.record, row.record)
    && v.submits == w.submits + [Submission(c, key, attempt, after.revision)]
    && v.signings == w.signings + (if signed then [(c, key)] else [])
    && c in v.clients && v.clients[c].stage == if hashKnown then Idle(StoreHash, after) else Ended
  }

  // From a signed record on: the attempt is made durable, then submitted.
  lemma SubmitMoves(v: World, c: nat, key: Key, attempt: string, row: Row, gate: Option<Gate>, hashKnown: bool)
    requires Holds(v, c, key, Submit(attempt), row, gate)
    ensures var u := Next(v, SubmitAttempt(c, hashKnown));
      && u.server == v.server && u.submits == v.submits + [Submission(c, key, attempt, row.revision)] && u.signings == v.signings
      && c in u.clients && u.clients[c].stage == if hashKnown then Idle(StoreHash, row) else Ended
  {
    var submit := SubmitAttempt(c, hashKnown);
    ClientNextIs(v, submit);
    SubmitStepIs(v, submit, c);
    SubmitNowIs(v, c, hashKnown);
  }

  lemma CreateSigned(w: World, c: nat, key: Key, row: Row, gate: Option<Gate>)
    requires Holds(w, c, key, CreateAttempt, row, gate)
    ensures row.record.signatureStarted
  {
    ClientIsOk(w, c);
  }

  lemma ContinueSnoc(w: World, a: seq<Step>, step: Step)
    ensures Continue(w, a + [step]) == Next(Continue(w, a), step)
  {
    assert (a + [step])[..|a|] == a;
  }

  lemma AppendedSubmits(w: World, v: World, c: nat, key: Key, row: Row, gate: Option<Gate>, attempt: string, hashKnown: bool,
      bundle: Bundle)
    requires row.record.signatureStarted && Holds(v, c, key, Submit(attempt), Updated(row, Append(attempt), bundle), gate)
    requires v.submits == w.submits && v.signings == w.signings
    ensures Submitted(w, Next(v, SubmitAttempt(c, hashKnown)), c, key, row, attempt, false, 1, hashKnown)
  {
    SubmitMoves(v, c, key, attempt, Updated(row, Append(attempt), bundle), gate, hashKnown);
    SubmittedRow(w, Next(v, SubmitAttempt(c, hashKnown)), c, key, row, attempt, hashKnown, bundle);
  }

  lemma SubmittedRow(w: World, u: World, c: nat, key: Key, row: Row, attempt: string, hashKnown: bool, bundle: Bundle)
    requires row.record.signatureStarted && key in u.server.tables.operations && c in u.clients
    requires var after := Updated(row, Append(attempt), bundle);
      && u.server.tables.operations[key] == after && u.submits == w.submits + [Submission(c, key, attempt, after.revision)]
      && u.signings == w.signings && u.clients[c].stage == if hashKnown then Idle(StoreHash, after) else Ended
    ensures Submitted(w, u, c, key, row, attempt, false, 1, hashKnown)
  {
  }

  lemma SubmitLast(w: World, stored: seq<Step>, c: nat, key: Key, row: Row, gate: Option<Gate>, attempt: string, hashKnown: bool)
    requires c in w.clients && key in w.server.tables.operations && row.record.signatureStarted
    requires var v := Continue(w, stored);
      && Holds(v, c, key, After(w.clients[c].flow, Append(attempt)), Updated(row, Append(attempt), Bundle("", w.nextNonce, "")), gate)
      && v.submits == w.submits && v.signings == w.signings
    ensures Submitted(w, Continue(w, stored + [SubmitAttempt(c, hashKnown)]), c, key, row, attempt, false, 1, hashKnown)
  {
    AppendedSubmits(w, Continue(w, stored), c, key, row, gate, attempt, hashKnown, Bundle("", w.nextNonce, ""));
    ContinueSnoc(w, stored, SubmitAttempt(c, hashKnown));
  }

  lemma FromCreate(w: World, c: nat, key: Key, row: Row, gate: Option<Gate>, attempt: string, hashKnown: bool) returns (steps: seq<Step>)
    requires Holds(w, c, key, CreateAttempt, row, gate) && attempt !in row.record.attemptIds
    ensures Submitted(w, Continue(w, steps), c, key, row, attempt, false, 1, hashKnown)
  {
    CreateSigned(w, c, key, row, gate);
    var stored := WriteRound(w, c, key, CreateAttempt, Append(attempt), row, gate, "", "", attempt);
    SubmitLast(w, stored, c, key, row, gate, attempt, hashKnown);
    steps := stored + [SubmitAttempt(c, hashKnown)];
  }

  lemma FromStoreSigned(w: World, c: nat, key: Key, row: Row, gate: Option<Gate>, attempt: string, hashKnown: bool) returns (steps: seq<Step>)
    requires Holds(w, c, key, StoreSigned, row, gate) && attempt !in row.record.attemptIds && !IsExport(w.clients, c)
    ensures Submitted(w, Continue(w, steps), c, key, row, attempt, false, 2, hashKnown)
  {
    var store := WriteRound(w, c, key, StoreSigned, StoreSigned, row, gate, "", "", "");
    var v := Continue(w, store);
    var rest := FromCreate(v, c, key, v.clients[c].stage.known, gate, attempt, hashKnown);
    steps := store + rest;
    ContinueConcat(w, store, rest);
  }

  lemma SignOnce(w: World, c: nat, key: Key, row: Row, gate: Option<Gate>)
    requires Holds(w, c, key, Sign, row, gate)
    ensures var v := Next(w, SignPool(c));
      && Holds(v, c, key, StoreSigned, row, gate) && v.submits == w.submits && v.signings == w.signings + [(c, key)]
      && v.clients[c].flow == w.clients[c].flow && v.server == w.server && v.nextNonce == w.nextNonce
  {
    ClientNextIs(w, SignPool(c));
    SignStepIs(w, SignPool(c), c);
    NextKeeps(w, SignPool(c));
  }

  lemma FromSign(w: World, c: nat, key: Key, row: Row, gate: Option<Gate>, attempt: string, hashKnown: bool) returns (steps: seq<Step>)
    requires Holds(w, c, key, Sign, row, gate) && attempt !in row.record.attemptIds && !IsExport(w.clients, c)
    ensures Submitted(w, Continue(w, steps), c, key, row, attempt, true, 2, hashKnown)
  {
    SignOnce(w, c, key, row, gate);
    var rest := FromStoreSigned(Next(w, SignPool(c)), c, key, row, gate, attempt, hashKnown);
    steps := [SignPool(c)] + rest;
    ContinueOne(w, SignPool(c));
    ContinueConcat(w, [SignPool(c)], rest);
  }

  lemma FromStart(w: World, c: nat, key: Key, row: Row, gate: Option<Gate>, attempt: string, hashKnown: bool) returns (steps: seq<Step>)
    requires Holds(w, c, key, StartSignature, row, gate) && attempt !in row.record.attemptIds && !IsExport(w.clients, c)
    ensures Submitted(w, Continue(w, steps), c, key, row, attempt, true, 3, hashKnown)
  {
    var start := WriteRound(w, c, key, StartSignature, StartSignature, row, gate, "", "", "");
    var v := Continue(w, start);
    var rest := FromSign(v, c, key, v.clients[c].stage.known, gate, attempt, hashKnown);
    steps := start + rest;
    ContinueConcat(w, start, rest);
  }

  // ----- From the beginning -----

  lemma ReserveOnce(t: Tables, record: Record, gate: Option<Gate>)
    requires Key(record.scope, record.recordId) !in t.operations && Key(record.scope, record.inputId) !in t.active
    requires !IsStopped(t.environment) && Writable(t.environment, gate)
    ensures var row := Row(record, 1, 1, Status.Reserved, None);
      && PutTx(t, record, 0, gate) == (t.(operations := t.operations[Key(record.scope, record.recordId) := row],
                                          active := t.active[Key(record.scope, record.inputId) := record.recordId]), Ok(row))
      && AssertSaved(row, record, 1)
  {
  }

  lemma Authorized(w: World, c: nat, request: Record, exportOnly: bool)
    requires c !in w.clients && !request.signatureStarted && request.attemptIds == []
    ensures var r := Normalized(request);
      Next(w, StartAuthorize(c, request, exportOnly))
        == w.(clients := w.clients[c := Client(Authorize(exportOnly), Key(r.scope, r.recordId), Prepared(r), None)])
  {
  }

  lemma ReservePosted(w: World, c: nat, record: Record)
    requires c in w.clients && w.clients[c].stage == Prepared(record)
    ensures Posted(w, Next(w, SendWrite(c, "", "", "")), c,
      Message(c, Reserve, record.(bundle := Bundle("", w.nextNonce, "")), 0, w.clients[c].proof))
  {
    ClientNextIs(w, SendWrite(c, "", "", ""));
  }

  // A new request on a free input is reserved and adopted.
  lemma Reserves(w: World, c: nat, request: Record, exportOnly: bool, gate: Option<Gate>) returns (steps: seq<Step>)
    requires Inv(w) && Running(w, gate) && c !in w.clients && !request.signatureStarted && request.attemptIds == []
    requires var r := Normalized(request);
      Key(r.scope, r.recordId) !in w.server.tables.operations && Key(r.scope, r.inputId) !in w.server.tables.active
    ensures var v, r := Continue(w, steps), Normalized(request);
      var row := Row(r.(bundle := Bundle("", w.nextNonce, "")), 1, 1, Status.Reserved, None);
      && Holds(v, c, Key(r.scope, r.recordId), StartSignature, row, gate) && v.clients[c].flow == Authorize(exportOnly)
      && v.submits == w.submits && v.signings == w.signings
  {
    var r := Normalized(request);
    var record := r.(bundle := Bundle("", w.nextNonce, ""));
    NormalizedKept(r, request);
    var start := StartAuthorize(c, request, exportOnly);
    Authorized(w, c, request, exportOnly);
    var w1 := Next(w, start);
    ReservePosted(w1, c, r);
    ReserveOnce(w.server.tables, record, gate);
    var row := Row(record, 1, 1, Status.Reserved, None);
    var u := PutTx(w.server.tables, record, 0, gate).0;
    var rest := RoundMoves(w1, SendWrite(c, "", "", ""), c, Message(c, Reserve, record, 0, None), gate, u, row);
    steps := [start] + rest;
    ContinueOne(w, start);
    ContinueConcat(w, [start], rest);
    ContinueKeeps(w, steps);
  }

  // An authorization that nobody disturbs signs once, makes its attempt durable and submits it, in
  // four writes.
  lemma AuthorizeSubmits(w: World, c: nat, request: Record, gate: Option<Gate>, attempt: string, hashKnown: bool)
      returns (steps: seq<Step>)
    requires Inv(w) && Running(w, gate) && c !in w.clients && !request.signatureStarted && request.attemptIds == []
    requires var r := Normalized(request);
      Key(r.scope, r.recordId) !in w.server.tables.operations && Key(r.scope, r.inputId) !in w.server.tables.active
    ensures var v, r := Continue(w, steps), Normalized(request);
      var key := Key(r.scope, r.recordId);
      && key in v.server.tables.operations && SameImmutable(v.server.tables.operations[key].record, r)
      && v.server.tables.operations[key].record.attemptIds == [attempt] && v.server.tables.operations[key].record.signatureStarted
      && v.server.tables.operations[key].revision == 4 && v.server.tables.operations[key].status == Status.Reserved
      && v.submits == w.submits + [Submission(c, key, attempt, 4)] && v.signings == w.signings + [(c, key)]
      && c in v.clients && v.clients[c].stage == if hashKnown then Idle(StoreHash, v.server.tables.operations[key]) else Ended
  {
    var r := Normalized(request);
    var key := Key(r.scope, r.recordId);
    var reserve := Reserves(w, c, request, false, gate);
    var v := Continue(w, reserve);
    var rest := FromStart(v, c, key, v.clients[c].stage.known, gate, attempt, hashKnown);
    steps := reserve + rest;
    ContinueConcat(w, reserve, rest);
  }

  // An export signs once and stores the signature, in three writes, and has nothing left to do.
  lemma ExportFinishes(w: World, c: nat, request: Record, gate: Option<Gate>) returns (steps: seq<Step>)
    requires Inv(w) && Running(w, gate) && c !in w.clients && !request.signatureStarted && request.attemptIds == []
    requires var r := Normalized(request);
      Key(r.scope, r.recordId) !in w.server.tables.operations && Key(r.scope, r.inputId) !in w.server.tables.active
    ensures var v, r := Continue(w, steps), Normalized(request);
      var key := Key(r.scope, r.recordId);
      && key in v.server.tables.operations && SameImmutable(v.server.tables.operations[key].record, r)
      && v.server.tables.operations[key].record.attemptIds == [] && v.server.tables.operations[key].record.signatureStarted
      && v.server.tables.operations[key].revision == 3 && v.server.tables.operations[key].status == Status.Reserved
      && v.submits == w.submits && v.signings == w.signings + [(c, key)]
      && c in v.clients && v.clients[c].stage == Idle(Finish, v.server.tables.operations[key])
  {
    var r := Normalized(request);
    var key := Key(r.scope, r.recordId);
    var reserve := Reserves(w, c, request, true, gate);
    var rest, after := ExportSigns(Continue(w, reserve), c, key, Continue(w, reserve).clients[c].stage.known, gate);
    steps := reserve + rest;
    ContinueConcat(w, reserve, rest);
  }

  lemma ExportStores(w: World, c: nat, key: Key, row: Row, gate: Option<Gate>) returns (steps: seq<Step>)
    requires Holds(w, c, key, StoreSigned, row, gate) && IsExport(w.clients, c)
    ensures var v := Continue(w, steps);
      && Holds(v, c, key, Finish, Updated(row, StoreSigned, Bundle("", w.nextNonce, "")), gate)
      && v.submits == w.submits && v.signings == w.signings
  {
    steps := WriteRound(w, c, key, StoreSigned, StoreSigned, row, gate, "", "", "");
  }

  lemma ExportSigned(w: World, c: nat, key: Key, row: Row, gate: Option<Gate>) returns (steps: seq<Step>)
    requires Holds(w, c, key, Sign, row, gate) && IsExport(w.clients, c)
    ensures var v := Continue(w, steps);
      && Holds(v, c, key, Finish, Updated(row, StoreSigned, Bundle("", w.nextNonce, "")), gate)
      && v.submits == w.submits && v.signings == w.signings + [(c, key)]
  {
    SignOnce(w, c, key, row, gate);
    var v := Next(w, SignPool(c));
    var store := ExportStores(v, c, key, row, gate);
    steps := [SignPool(c)] + store;
    ContinueOne(w, SignPool(c));
    ContinueConcat(w, [SignPool(c)], store);
  }

  // A signature started and stored, and no attempt.
  predicate Exported(row: Row, after: Row) {
    && after.record.attemptIds == row.record.attemptIds && after.record.signatureStarted && after.status == row.status
    && after.revision == row.revision + 2 && SameImmutable(after.record, row.record)
  }

  lemma UpdatedTwice(row: Row, a: Bundle, b: Bundle)
    ensures Exported(row, Updated(Updated(row, StartSignature, a), StoreSigned, b))
  {
  }

  lemma ExportSigns(w: World, c: nat, key: Key, row: Row, gate: Option<Gate>) returns (steps: seq<Step>, after: Row)
    requires Holds(w, c, key, StartSignature, row, gate) && IsExport(w.clients, c)
    ensures var v := Continue(w, steps);
      && Holds(v, c, key, Finish, after, gate) && v.submits == w.submits && v.signings == w.signings + [(c, key)]
    ensures Exported(row, after)
  {
    var start := WriteRound(w, c, key, StartSignature, StartSignature, row, gate, "", "", "");
    var v := Continue(w, start);
    var started := Updated(row, StartSignature, Bundle("", w.nextNonce, ""));
    var rest := ExportSigned(v, c, key, started, gate);
    after := Updated(started, StoreSigned, Bundle("", v.nextNonce, ""));
    UpdatedTwice(row, Bundle("", w.nextNonce, ""), Bundle("", v.nextNonce, ""));
    steps := start + rest;
    ContinueConcat(w, start, rest);
  }

  // ----- Recoveries -----

  // Evidence on which a recovery of a live reservation may go on: finalized and healthy, the input
  // unspent, no success, every recorded attempt settled, and the deadline not passed.
  ghost predicate Sound(row: Row, evidence: Evidence) {
    && evidence.storage == StorageHealthy && evidence.finalized && !evidence.paymentSucceeded
    && EvidenceExact(row.record.attemptIds, evidence.attempts)
    && (row.record.kind.Pay? ==> evidence.blockTime <= row.record.kind.deadline)
  }

  ghost predicate SomeFailed(evidence: Evidence) {
    exists e :: e in evidence.attempts && e.outcome == FailedFinally
  }

  // What the recovery was asked for fits the evidence.
  ghost predicate Fits(flow: Flow, row: Row, evidence: Evidence, restored: bool) {
    && Sound(row, evidence)
    && match flow
       case Retry => SomeFailed(evidence) && row.record.signatureStarted
       case Resume => !SomeFailed(evidence) && evidence.submissionKnownAbsent && (row.record.signatureStarted || !restored)
       case Authorize(_) => false
  }

  // Where such a recovery goes on: with the attempt, with the signature, or from the start of it.
  function Begins(flow: Flow, row: Row, restored: bool): Todo {
    if !row.record.signatureStarted then StartSignature
    else if flow.Resume? && !restored then Sign
    else CreateAttempt
  }

  lemma RecoveryBegins(flow: Flow, row: Row, evidence: Evidence, restored: bool)
    requires row.status.Live() && Fits(flow, row, evidence, restored)
    ensures RecoveryStart(flow, Proof(row, evidence, InputUnspent), restored) == Some(Begins(flow, row, restored))
  {
    CoversIffExact(row.record.attemptIds, evidence.attempts);
    if SomeFailed(evidence) {
      var e :| e in evidence.attempts && e.outcome == FailedFinally;
      var i :| 0 <= i < |evidence.attempts| && evidence.attempts[i] == e;
      assert IdsOf(evidence.attempts)[i] == e.id;
      assert e.id in row.record.attemptIds;
    }
  }

  lemma Recovers(w: World, c: nat, scope: Scope, recordId: string, flow: Flow, gate: Gate, evidence: Evidence, restored: bool)
      returns (steps: seq<Step>)
    requires var key := RecordKey(scope, recordId);
      && Inv(w) && Available(w.server.tables.environment, gate) && c !in w.clients
      && key in w.server.tables.operations && w.server.tables.operations[key].status.Live()
      && Fits(flow, w.server.tables.operations[key], evidence, restored)
    ensures var v, key := Continue(w, steps), RecordKey(scope, recordId);
      var row := w.server.tables.operations[key];
      && Holds(v, c, key, Begins(flow, row, restored), row, Some(gate)) && v.clients[c].flow == flow
      && v.submits == w.submits && v.signings == w.signings && v.server == w.server
  {
    var key := RecordKey(scope, recordId);
    var row := w.server.tables.operations[key];
    var start, read, confirm := StartRecover(c, scope, recordId, flow, gate), ReadEvidence(c, evidence, InputUnspent), Confirm(c, restored);
    RecoveryBegins(flow, row, evidence, restored);
    RecoverSteps(w, c, scope, recordId, flow, gate, evidence, restored);
    steps := [start, read] + [confirm];
    ContinueTwo(w, start, read);
    ContinueSnoc(w, [start, read], confirm);
    ContinueKeeps(w, steps);
  }

  lemma RecoverSteps(w: World, c: nat, scope: Scope, recordId: string, flow: Flow, gate: Gate, evidence: Evidence, restored: bool)
    requires var key := RecordKey(scope, recordId);
      && Available(w.server.tables.environment, gate) && c !in w.clients && !flow.Authorize? && key in w.server.tables.operations
      && RecoveryStart(flow, Proof(w.server.tables.operations[key], evidence, InputUnspent), restored).Some?
    ensures var key := RecordKey(scope, recordId);
      var proof := Proof(w.server.tables.operations[key], evidence, InputUnspent);
      Next(Next(Next(w, StartRecover(c, scope, recordId, flow, gate)), ReadEvidence(c, evidence, InputUnspent)), Confirm(c, restored))
        == w.(clients := w.clients[c :=
              Client(flow, key, Idle(RecoveryStart(flow, proof, restored).value, proof.saved), Some(proof))])
  {
    var key := RecordKey(scope, recordId);
    var row := w.server.tables.operations[key];
    var w1 := Next(w, StartRecover(c, scope, recordId, flow, gate));
    assert w1 == w.(clients := w.clients[c := Client(flow, key, Listed(row), None)]);
    ClientNextIs(w1, ReadEvidence(c, evidence, InputUnspent));
    RecoverStepIs(w1, ReadEvidence(c, evidence, InputUnspent), c);
    var w2 := Next(w1, ReadEvidence(c, evidence, InputUnspent));
    ClientNextIs(w2, Confirm(c, restored));
    RecoverStepIs(w2, Confirm(c, restored), c);
    ConfirmIs(w2, c, restored);
  }

  // A recovery that nobody disturbs, on evidence it fits, submits one new attempt after those on
  // record. It signs again exactly when there is no signature to go on with.
  lemma RecoverSubmits(w: World, c: nat, scope: Scope, recordId: string, flow: Flow, gate: Gate, evidence: Evidence, restored: bool,
      attempt: string, hashKnown: bool) returns (steps: seq<Step>)
    requires var key := RecordKey(scope, recordId);
      && Inv(w) && Available(w.server.tables.environment, gate) && c !in w.clients
      && key in w.server.tables.operations && w.server.tables.operations[key].status.Live()
      && Fits(flow, w.server.tables.operations[key], evidence, restored)
      && attempt !in w.server.tables.operations[key].record.attemptIds
    ensures var key := RecordKey(scope, recordId);
      var row := w.server.tables.operations[key];
      var signs := flow.Resume? && !restored;
      Submitted(w, Continue(w, steps), c, key, row, attempt, signs,
        if !row.record.signatureStarted then 3 else if signs then 2 else 1, hashKnown)
  {
    var key := RecordKey(scope, recordId);
    var row := w.server.tables.operations[key];
    var begin := Recovers(w, c, scope, recordId, flow, gate, evidence, restored);
    var v := Continue(w, begin);
    var rest;
    match Begins(flow, row, restored) {
      case StartSignature => rest := FromStart(v, c, key, row, Some(gate), attempt, hashKnown);
      case Sign => rest := FromSign(v, c, key, row, Some(gate), attempt, hashKnown);
      case _ => rest := FromCreate(v, c, key, row, Some(gate), attempt, hashKnown);
    }
    steps := begin + rest;
    ContinueConcat(w, begin, rest);
  }

  // ----- When a client goes on -----

  // A recovery goes on exactly when the reservation is still the one the evidence was read for, is
  // live, and the evidence fits what was asked; and then where the record calls for it.
  lemma ConfirmGoesOn(w: World, c: nat, restored: bool)
    requires c in w.clients && w.clients[c].stage.Evidenced? && !w.clients[c].flow.Authorize?
    ensures var cl := w.clients[c];
      var Proof(saved, evidence, input) := cl.stage.evidenced;
      var after := Next(w, Confirm(c, restored)).clients[c].stage;
      && (after == Ended || after == Idle(Begins(cl.flow, saved, restored), saved))
      && (after.Idle? <==>
            && cl.key in w.server.tables.operations
            && var latest := w.server.tables.operations[cl.key];
            && latest.revision == saved.revision && latest.status.Live() && saved.status.Live()
            && latest.record.contentHash == saved.record.contentHash && latest.record.attemptIds == saved.record.attemptIds
            && input == InputUnspent && Fits(cl.flow, saved, evidence, restored))
  {
    ClientNextIs(w, Confirm(c, restored));
    RecoverStepIs(w, Confirm(c, restored), c);
    ConfirmIs(w, c, restored);
    var p := w.clients[c].stage.evidenced;
    if RecoveryStart(w.clients[c].flow, p, restored).Some? {
      StartFits(w.clients[c].flow, p, restored);
    }
    if p.saved.status.Live() && p.input == InputUnspent && Fits(w.clients[c].flow, p.saved, p.evidence, restored) {
      RecoveryBegins(w.clients[c].flow, p.saved, p.evidence, restored);
    }
  }

  lemma StartFits(flow: Flow, p: Proof, restored: bool)
    requires RecoveryStart(flow, p, restored).Some?
    ensures p.saved.status.Live() && p.input == InputUnspent && Fits(flow, p.saved, p.evidence, restored)
    ensures RecoveryStart(flow, p, restored) == Some(Begins(flow, p.saved, restored))
  {
    CoversIffExact(p.saved.record.attemptIds, p.evidence.attempts);
    if SomeFailed(p.evidence) {
      var e :| e in p.evidence.attempts && e.outcome == FailedFinally;
      var i :| 0 <= i < |p.evidence.attempts| && p.evidence.attempts[i] == e;
      assert IdsOf(p.evidence.attempts)[i] == e.id;
      assert e.id in p.saved.record.attemptIds;
    }
  }

  // A client adopts a reply exactly when it is live and is the record it wrote, one revision on.
  lemma AdoptsExactly(w: World, c: nat)
    requires c in w.clients && w.clients[c].stage.Answered?
    ensures var Answered(m, row, _) := w.clients[c].stage;
      var after := Next(w, Adopt(c)).clients[c].stage;
      && (after.Idle? ==> after.known == row) && (!after.Idle? ==> after == Ended)
      && (after.Idle? <==> row.status.Live() && row.revision == m.expected + 1 && row.record == m.record)
  {
    ClientNextIs(w, Adopt(c));
    AdoptIs(w, c);
  }

  // A recovery starts exactly on a record that is there, in an environment open to its gate.
  lemma RecoverStartsExactly(w: World, c: nat, scope: Scope, recordId: string, flow: Flow, gate: Gate)
    requires c !in w.clients && !flow.Authorize?
    ensures var v, key := Next(w, StartRecover(c, scope, recordId, flow, gate)), RecordKey(scope, recordId);
      && (c in v.clients <==>
            && key in w.server.tables.operations && !gate.stopped && gate.generation != ""
            && w.server.tables.environment == Some(Environment(Healthy, gate.generation)))
      && (c in v.clients ==> v.clients[c] == Client(flow, key, Listed(w.server.tables.operations[key]), None))
  {
  }
}

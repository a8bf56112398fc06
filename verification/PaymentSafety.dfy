// What every run of PaymentProcess keeps, and the safety of submission that follows.
module PaymentSafety {
  import opened Wrappers
  import opened ReservationStore
  import opened AttemptRecovery
  import opened PaymentProcess

  // ----- The invariant -----

  // `row` is what the record really was at its revision.
  predicate KnownTrue(history: map<Key, seq<Entry>>, k: Key, row: Row) {
    k in history && 1 <= row.revision <= |history[k]| && history[k][row.revision - 1].record == row.record
  }

  // Every revision after `from` up to `to` was written by client c.
  predicate Chain(entries: seq<Entry>, c: nat, from: nat, to: nat) {
    forall i :: from <= i < to && i < |entries| ==> entries[i].message.client == c
  }

  // At revision `rev` the record still carries the attempts the flow started from: none when it
  // authorizes, those of the evidence when it recovers, with no foreign write in between.
  predicate BaseOk(history: map<Key, seq<Entry>>, c: nat, k: Key, proof: Option<Proof>, rev: nat) {
    && k in history && 1 <= rev <= |history[k]|
    && match proof
       case None => history[k][rev - 1].record.attemptIds == []
       case Some(p) =>
         && KnownTrue(history, k, p.saved) && p.saved.revision <= rev
         && history[k][rev - 1].record.attemptIds == p.saved.record.attemptIds
         && Chain(history[k], c, p.saved.revision, rev)
         && EvidenceAllows(p)
  }

  predicate EvidenceAllows(p: Proof) {
    var d := InspectOperation(p.saved.record, IsActive(p.saved), p.evidence, p.input);
    d.ResumeOriginal? || d.RetryAttempt?
  }

  predicate MessageOk(history: map<Key, seq<Entry>>, m: Message) {
    && Normalized(m.record) == m.record
    && match m.todo
       case Release => true
       case Reserve => m.expected == 0 && !m.record.signatureStarted && m.record.attemptIds == []
       case _ =>
         && m.todo == WriteOf(m.todo)
         && m.Target() in history && 1 <= m.expected <= |history[m.Target()]|
         && var previous := history[m.Target()][m.expected - 1].record;
         && m.record == Rewritten(m.todo, previous, m.record.bundle)
         && m.record.signatureStarted
         && (m.todo.Append? ==>
               m.todo.attempt !in previous.attemptIds && BaseOk(history, m.client, m.Target(), m.proof, m.expected))
  }

  // Itself for the four rewriting writes, something else otherwise.
  function WriteOf(todo: Todo): Todo {
    match todo
    case StartSignature => StartSignature
    case StoreSigned => StoreSigned
    case Append(a) => Append(a)
    case StoreHash => StoreHash
    case _ => if todo == Finish then Sign else Finish
  }

  // Entry i of a history: written by a sent message that expected revision i, from the record
  // at revision i.
  predicate EntryOk(sent: set<Message>, k: Key, entries: seq<Entry>, i: nat)
    requires i < |entries|
  {
    var e := entries[i];
    && e.message in sent && e.message.expected == i && e.message.Target() == k
    && e.record.scope == k.scope && e.record.recordId == k.id && Normalized(e.record) == e.record
    && e.record.bundle == e.message.record.bundle
    && if i == 0 then !e.record.signatureStarted && e.record.attemptIds == [] && e.message.todo == Reserve
       else
         var previous := entries[i - 1].record;
         && (previous.signatureStarted ==> e.record.signatureStarted)
         && match e.message.todo
            case Append(a) => a !in previous.attemptIds && e.record.attemptIds == previous.attemptIds + [a]
            case _ => e.record.attemptIds == previous.attemptIds
  }

  predicate EntriesOk(history: map<Key, seq<Entry>>, sent: set<Message>) {
    forall k, i :: k in history && 0 <= i < |history[k]| ==> EntryOk(sent, k, history[k], i)
  }

  predicate HistoryMatches(history: map<Key, seq<Entry>>, operations: map<Key, Row>) {
    && history.Keys == operations.Keys
    && forall k :: k in history ==>
      && |history[k]| == operations[k].revision >= 1
      && history[k][|history[k]| - 1].record == operations[k].record
  }

  predicate SentOk(history: map<Key, seq<Entry>>, sent: set<Message>, nextNonce: nat) {
    && (forall m :: m in sent ==> MessageOk(history, m) && m.record.bundle.nonce < nextNonce)
    && (forall m, n :: m in sent && n in sent && m.record.bundle.nonce == n.record.bundle.nonce ==> m == n)
  }

  predicate PutsOk(puts: map<nat, Runs.PendingPut>, origins: map<nat, Message>, sent: set<Message>) {
    forall task :: task in puts ==>
      && task in origins && origins[task] in sent && origins[task].todo != Release
      && puts[task].record == origins[task].record && puts[task].expected == origins[task].expected
  }

  predicate RepliesOk(history: map<Key, seq<Entry>>, replies: set<(Message, Row)>) {
    forall r :: r in replies ==> KnownTrue(history, r.0.Target(), r.1)
  }

  predicate Rewriting(todo: Todo) { todo.StartSignature? || todo.StoreSigned? || todo.Append? }

  predicate BeforeAppend(todo: Todo) {
    todo.StartSignature? || todo.Sign? || todo.StoreSigned? || todo.CreateAttempt?
  }

  predicate WaitingOk(history: map<Key, seq<Entry>>, sent: set<Message>, c: nat, cl: Client, m: Message) {
    && m in sent && m.client == c && m.Target() == cl.key && m.proof == cl.proof && m.todo != Release
    && (Rewriting(m.todo) ==> BaseOk(history, c, cl.key, cl.proof, m.expected))
    && (m.todo.Reserve? ==> cl.flow.Authorize?)
  }

  predicate ClientOk(history: map<Key, seq<Entry>>, sent: set<Message>, c: nat, cl: Client) {
    match cl.stage
    case Prepared(record) =>
      cl.proof.None? && cl.flow.Authorize? && Normalized(record) == record
      && Key(record.scope, record.recordId) == cl.key && !record.signatureStarted && record.attemptIds == []
    case Listed(saved) => cl.proof.None? && !cl.flow.Authorize? && KnownTrue(history, cl.key, saved)
    case Evidenced(p) => cl.proof.None? && !cl.flow.Authorize? && KnownTrue(history, cl.key, p.saved)
    case Idle(todo, known) =>
      && (cl.proof.None? <==> cl.flow.Authorize?)
      && KnownTrue(history, cl.key, known)
      && (BeforeAppend(todo) ==> BaseOk(history, c, cl.key, cl.proof, known.revision))
      && (!todo.StartSignature? ==> known.record.signatureStarted)
      && (todo.Submit? ==>
            var e := history[cl.key][known.revision - 1];
            e.message.client == c && e.message.todo == Append(todo.attempt))
    case Writing(m) => (cl.proof.None? <==> cl.flow.Authorize?) && WaitingOk(history, sent, c, cl, m)
    case Checking(m) => (cl.proof.None? <==> cl.flow.Authorize?) && WaitingOk(history, sent, c, cl, m)
    case Answered(m, row, _) =>
      (cl.proof.None? <==> cl.flow.Authorize?) && WaitingOk(history, sent, c, cl, m) && KnownTrue(history, cl.key, row)
    case Ended => true
  }

  predicate ClientsOk(history: map<Key, seq<Entry>>, sent: set<Message>, clients: map<nat, Client>) {
    forall c :: c in clients ==> ClientOk(history, sent, c, clients[c])
  }

  predicate AfterSubmit(stage: Stage) {
    match stage
    case Idle(todo, _) => todo.StoreHash? || todo.Finish?
    case Writing(m) => m.todo.StoreHash?
    case Checking(m) => m.todo.StoreHash?
    case Answered(m, _, _) => m.todo.StoreHash?
    case Ended => true
    case _ => false
  }

  predicate SubmissionOk(history: map<Key, seq<Entry>>, clients: map<nat, Client>, e: Submission) {
    && e.key in history && 1 <= e.revision <= |history[e.key]|
    && history[e.key][e.revision - 1].message.client == e.client
    && history[e.key][e.revision - 1].message.todo == Append(e.attempt)
    && e.client in clients && AfterSubmit(clients[e.client].stage)
  }

  predicate SubmitsOk(history: map<Key, seq<Entry>>, clients: map<nat, Client>, submits: seq<Submission>) {
    && (forall i :: 0 <= i < |submits| ==> SubmissionOk(history, clients, submits[i]))
    && (forall i, j :: 0 <= i < j < |submits| ==> submits[i].client != submits[j].client)
  }

  predicate Inv(w: World) {
    && Runs.Inv(w.server)
    && HistoryMatches(w.history, w.server.tables.operations)
    && EntriesOk(w.history, w.sent)
    && SentOk(w.history, w.sent, w.nextNonce)
    && PutsOk(w.server.puts, w.origins, w.sent)
    && RepliesOk(w.history, w.replies)
    && ClientsOk(w.history, w.sent, w.clients)
    && SubmitsOk(w.history, w.clients, w.submits)
    && SendersOk(w.clients, w.sent)
  }

  // A recovery flow sends its evidence along with every write; an authorization has none.
  predicate SendersOk(clients: map<nat, Client>, sent: set<Message>) {
    forall m :: m in sent && !m.todo.Release? ==>
      m.client in clients && (m.proof.None? <==> clients[m.client].flow.Authorize?)
  }

  // ----- Histories only grow -----

  predicate Grows(h: map<Key, seq<Entry>>, g: map<Key, seq<Entry>>) {
    forall k :: k in h ==> k in g && h[k] <= g[k]
  }

  lemma BaseOkGrows(h: map<Key, seq<Entry>>, g: map<Key, seq<Entry>>, c: nat, k: Key, proof: Option<Proof>, rev: nat)
    requires Grows(h, g) && BaseOk(h, c, k, proof, rev)
    ensures BaseOk(g, c, k, proof, rev)
  {
    assert h[k] <= g[k];
  }

  lemma MessageOkGrows(h: map<Key, seq<Entry>>, g: map<Key, seq<Entry>>, m: Message)
    requires Grows(h, g) && MessageOk(h, m)
    ensures MessageOk(g, m)
  {
    if m.todo.Append? { BaseOkGrows(h, g, m.client, m.Target(), m.proof, m.expected); }
  }

  lemma WaitingOkGrows(h: map<Key, seq<Entry>>, g: map<Key, seq<Entry>>, sent: set<Message>, more: set<Message>, c: nat, cl: Client, m: Message)
    requires Grows(h, g) && sent <= more && WaitingOk(h, sent, c, cl, m)
    ensures WaitingOk(g, more, c, cl, m)
  {
    if Rewriting(m.todo) { BaseOkGrows(h, g, c, cl.key, cl.proof, m.expected); }
  }

  lemma ClientOkGrows(h: map<Key, seq<Entry>>, g: map<Key, seq<Entry>>, sent: set<Message>, more: set<Message>, c: nat, cl: Client)
    requires Grows(h, g) && sent <= more && ClientOk(h, sent, c, cl)
    ensures ClientOk(g, more, c, cl)
  {
    match cl.stage
    case Idle(todo, known) =>
      if BeforeAppend(todo) { BaseOkGrows(h, g, c, cl.key, cl.proof, known.revision); }
    case Writing(m) => WaitingOkGrows(h, g, sent, more, c, cl, m);
    case Checking(m) => WaitingOkGrows(h, g, sent, more, c, cl, m);
    case Answered(m, row, _) => WaitingOkGrows(h, g, sent, more, c, cl, m);
    case _ =>
  }

  lemma ClientsOkGrow(h: map<Key, seq<Entry>>, g: map<Key, seq<Entry>>, sent: set<Message>, more: set<Message>, clients: map<nat, Client>)
    requires Grows(h, g) && sent <= more && ClientsOk(h, sent, clients)
    ensures ClientsOk(g, more, clients)
  {
    forall c | c in clients ensures ClientOk(g, more, c, clients[c]) {
      ClientOkGrows(h, g, sent, more, c, clients[c]);
    }
  }

  lemma EntriesOkMore(h: map<Key, seq<Entry>>, sent: set<Message>, more: set<Message>)
    requires EntriesOk(h, sent) && sent <= more
    ensures EntriesOk(h, more)
  {
    forall k, i | k in h && 0 <= i < |h[k]| ensures EntryOk(more, k, h[k], i) {
      assert EntryOk(sent, k, h[k], i);
    }
  }

  lemma SentOkGrows(h: map<Key, seq<Entry>>, g: map<Key, seq<Entry>>, sent: set<Message>, nextNonce: nat)
    requires Grows(h, g) && SentOk(h, sent, nextNonce)
    ensures SentOk(g, sent, nextNonce)
  {
    forall m | m in sent ensures MessageOk(g, m) {
      MessageOkGrows(h, g, m);
    }
  }

  lemma SubmitsOkGrow(h: map<Key, seq<Entry>>, g: map<Key, seq<Entry>>, clients: map<nat, Client>, submits: seq<Submission>)
    requires Grows(h, g) && SubmitsOk(h, clients, submits)
    ensures SubmitsOk(g, clients, submits)
  {
    forall i | 0 <= i < |submits| ensures SubmissionOk(g, clients, submits[i]) {
      assert SubmissionOk(h, clients, submits[i]);
    }
  }

  // ----- Service steps -----

  // The tables accepted message m, or left its record alone; other records are untouched.
  predicate Accepts(t: Tables, u: Tables, m: Message) {
    var k := m.Target();
    && t.operations.Keys <= u.operations.Keys && WellKeyed(u)
    && (forall j :: j in u.operations && j != k ==> j in t.operations && u.operations[j].record == t.operations[j].record
                                                    && u.operations[j].revision == t.operations[j].revision)
    && (k in u.operations ==>
          if k !in t.operations then
            m.todo == Reserve && m.expected == 0 && u.operations[k].record == m.record && u.operations[k].revision == 1
          else if u.operations[k].revision == t.operations[k].revision then
            u.operations[k].record == t.operations[k].record
          else
            && m.expected == t.operations[k].revision && u.operations[k].revision == m.expected + 1 && !m.todo.Reserve?
            && u.operations[k].record ==
                 if m.todo.Release? then t.operations[k].record.(bundle := m.record.bundle) else m.record)
  }

  // A service step enters at most one write, at the end of one history.
  lemma RecordedAt(h: map<Key, seq<Entry>>, t: Tables, u: Tables, m: Message, k: Key)
    requires HistoryMatches(h, t.operations) && Accepts(t, u, m)
    ensures var g := Recorded(h, u.operations, m);
      && (k in g <==> k in u.operations)
      && (k in g ==> |g[k]| == u.operations[k].revision >= 1 && g[k][|g[k]| - 1].record == u.operations[k].record)
      && (k in h ==> k in g && h[k] <= g[k])
  {
    assert k in h <==> k in t.operations;
    assert k in h ==> |h[k]| == t.operations[k].revision >= 1 && h[k][|h[k]| - 1].record == t.operations[k].record;
    if k != m.Target() {
      assert k in u.operations <==> k in t.operations;
    }
  }

  lemma RecordedMatches(h: map<Key, seq<Entry>>, t: Tables, u: Tables, m: Message)
    requires HistoryMatches(h, t.operations) && Accepts(t, u, m)
    ensures Grows(h, Recorded(h, u.operations, m)) && HistoryMatches(Recorded(h, u.operations, m), u.operations)
  {
    forall k
      ensures var g := Recorded(h, u.operations, m);
        && (k in g <==> k in u.operations)
        && (k in g ==> |g[k]| == u.operations[k].revision >= 1 && g[k][|g[k]| - 1].record == u.operations[k].record)
        && (k in h ==> k in g && h[k] <= g[k])
    {
      RecordedAt(h, t, u, m, k);
    }
  }

  // What the acceptance of a message makes of the row before.
  predicate NewRow(before: Option<Row>, after: Row, m: Message) {
    if before.None? then m.todo == Reserve && m.expected == 0 && after.record == m.record && after.revision == 1
    else
      && m.expected == before.value.revision && after.revision == m.expected + 1 && !m.todo.Reserve?
      && after.record == if m.todo.Release? then before.value.record.(bundle := m.record.bundle) else m.record
  }

  lemma AcceptedRow(t: Tables, u: Tables, m: Message)
    requires Accepts(t, u, m) && m.Target() in u.operations
    requires m.Target() in t.operations ==> u.operations[m.Target()].revision != t.operations[m.Target()].revision
    ensures NewRow(if m.Target() in t.operations then Some(t.operations[m.Target()]) else None, u.operations[m.Target()], m)
  {
  }

  lemma NewEntryOk(h: map<Key, seq<Entry>>, sent: set<Message>, operations: map<Key, Row>, m: Message, before: Option<Row>)
    requires m in sent && MessageOk(h, m) && m.Target() in operations && NewRow(before, operations[m.Target()], m)
    requires before.Some? <==> m.Target() in h
    requires before.Some? ==>
      && |h[m.Target()]| == before.value.revision >= 1 && h[m.Target()][before.value.revision - 1].record == before.value.record
      && EntryOk(sent, m.Target(), h[m.Target()], before.value.revision - 1)
    ensures var g := Recorded(h, operations, m);
      m.Target() in g && |g[m.Target()]| >= 1 && EntryOk(sent, m.Target(), g[m.Target()], |g[m.Target()]| - 1)
  {
    RecordedIs(h, operations, m);
    if before.Some? { NextEntryOk(h, sent, operations[m.Target()].record, m); } else { FirstEntryOk(sent, m); }
  }

  lemma RecordedIs(h: map<Key, seq<Entry>>, operations: map<Key, Row>, m: Message)
    requires m.Target() in operations
    requires m.Target() in h ==> operations[m.Target()].revision == |h[m.Target()]| + 1
    ensures var k := m.Target();
      var e := Entry(m, operations[k].record);
      k in Recorded(h, operations, m) && Recorded(h, operations, m)[k] == if k in h then h[k] + [e] else [e]
  {
  }

  // The first write of a record reserves its input.
  lemma FirstEntryOk(sent: set<Message>, m: Message)
    requires m in sent && m.todo == Reserve && m.expected == 0 && Normalized(m.record) == m.record
    requires !m.record.signatureStarted && m.record.attemptIds == []
    ensures EntryOk(sent, m.Target(), [Entry(m, m.record)], 0)
  {
  }

  // An accepted rewriting of the latest record makes an entry that follows the one before it.
  lemma NextEntryOk(h: map<Key, seq<Entry>>, sent: set<Message>, record: Record, m: Message)
    requires m.Target() in h && |h[m.Target()]| == m.expected >= 1 && m in sent && MessageOk(h, m) && !m.todo.Reserve?
    requires EntryOk(sent, m.Target(), h[m.Target()], m.expected - 1)
    requires var previous := h[m.Target()][m.expected - 1].record;
      record == if m.todo.Release? then previous.(bundle := m.record.bundle) else m.record
    ensures EntryOk(sent, m.Target(), h[m.Target()] + [Entry(m, record)], m.expected)
  {
  }

  lemma RecordedKeeps(h: map<Key, seq<Entry>>, sent: set<Message>, t: Tables, u: Tables, m: Message)
    requires HistoryMatches(h, t.operations) && EntriesOk(h, sent) && m in sent && MessageOk(h, m) && Accepts(t, u, m)
    ensures var g := Recorded(h, u.operations, m);
      Grows(h, g) && HistoryMatches(g, u.operations) && EntriesOk(g, sent)
  {
    RecordedMatches(h, t, u, m);
    var g := Recorded(h, u.operations, m);
    forall k, i | k in g && 0 <= i < |g[k]| ensures EntryOk(sent, k, g[k], i) {
      RecordedEntryOk(h, sent, t, u, m, k, i);
    }
  }

  lemma AddedEntryOk(h: map<Key, seq<Entry>>, sent: set<Message>, t: Tables, u: Tables, m: Message)
    requires HistoryMatches(h, t.operations) && EntriesOk(h, sent) && m in sent && MessageOk(h, m) && Accepts(t, u, m)
    requires m.Target() in u.operations
    requires m.Target() in t.operations ==> u.operations[m.Target()].revision != t.operations[m.Target()].revision
    ensures var g := Recorded(h, u.operations, m);
      m.Target() in g && |g[m.Target()]| >= 1 && EntryOk(sent, m.Target(), g[m.Target()], |g[m.Target()]| - 1)
  {
    var k := m.Target();
    RecordMatches(h, t.operations, k);
    AcceptedRow(t, u, m);
    if k in h { assert EntryOk(sent, k, h[k], |h[k]| - 1); }
    NewEntryOk(h, sent, u.operations, m, if k in t.operations then Some(t.operations[k]) else None);
  }

  // An entry beyond the earlier history is the last one, of the message's own record.
  lemma AddedIsLast(h: map<Key, seq<Entry>>, t: Tables, u: Tables, m: Message, k: Key, i: nat)
    requires HistoryMatches(h, t.operations) && Accepts(t, u, m)
    requires k in Recorded(h, u.operations, m) && i < |Recorded(h, u.operations, m)[k]| && (k in h ==> i >= |h[k]|)
    ensures k == m.Target() && k in u.operations && i == |Recorded(h, u.operations, m)[k]| - 1
    ensures k in t.operations ==> u.operations[k].revision != t.operations[k].revision
  {
    RecordMatches(h, t.operations, k);
    RecordedOther(h, u.operations, m, k);
  }

  lemma RecordedEntryOk(h: map<Key, seq<Entry>>, sent: set<Message>, t: Tables, u: Tables, m: Message, k: Key, i: nat)
    requires HistoryMatches(h, t.operations) && EntriesOk(h, sent) && m in sent && MessageOk(h, m) && Accepts(t, u, m)
    requires var g := Recorded(h, u.operations, m); k in g && i < |g[k]|
    ensures EntryOk(sent, k, Recorded(h, u.operations, m)[k], i)
  {
    if k in h && i < |h[k]| {
      RecordedAt(h, t, u, m, k);
      EntryOkPrefix(sent, k, h[k], Recorded(h, u.operations, m)[k], i);
    } else {
      AddedIsLast(h, t, u, m, k, i);
      AddedEntryOk(h, sent, t, u, m);
    }
  }

  // Nothing is entered for any other record.
  lemma RecordedOther(h: map<Key, seq<Entry>>, operations: map<Key, Row>, m: Message, k: Key)
    requires k in Recorded(h, operations, m) && (k in h ==> Recorded(h, operations, m)[k] != h[k])
    ensures k == m.Target()
  {
  }

  lemma EntryOkPrefix(sent: set<Message>, k: Key, short: seq<Entry>, long: seq<Entry>, i: nat)
    requires short <= long && i < |short| && EntryOk(sent, k, short, i)
    ensures EntryOk(sent, k, long, i)
  {
    if i > 0 { assert short[i - 1] == long[i - 1]; }
  }

  lemma UpdateAccepted(row: Row, m: Message)
    requires PutUpdate(row, m.record, m.expected).Ok?
    requires row.record.scope == m.record.scope && row.record.recordId == m.record.recordId
    ensures var r := PutUpdate(row, m.record, m.expected).value;
      || (r.revision == row.revision && r.record == row.record)
      || (m.expected == row.revision && r.revision == m.expected + 1 && r.record == m.record)
  {
  }

  // A put leaves the tables alone, or writes the one row it replies with.
  lemma PutWrites(t: Tables, m: Message, gate: Option<Gate>)
    ensures var (u, r) := PutTx(t, m.record, m.expected, gate);
      || (u == t && r.Err?)
      || (r.Ok? && u.operations == t.operations[m.Target() := r.value]
          && if m.Target() in t.operations then PutUpdate(t.operations[m.Target()], m.record, m.expected) == r
             else m.expected == 0 && r.value == Row(m.record, 1, 1, Reserved, None))
  {
  }

  lemma PutAccepted(t: Tables, m: Message, gate: Option<Gate>)
    requires WellKeyed(t) && !m.todo.Release? && (m.todo.Reserve? <==> m.expected == 0)
    requires WellKeyed(PutTx(t, m.record, m.expected, gate).0)
    ensures var (u, r) := PutTx(t, m.record, m.expected, gate);
      Accepts(t, u, m) && (r.Ok? ==> m.Target() in u.operations && u.operations[m.Target()] == r.value)
  {
    PutWrites(t, m, gate);
    var k := m.Target();
    if k in t.operations && PutUpdate(t.operations[k], m.record, m.expected).Ok? { UpdateAccepted(t.operations[k], m); }
  }

  // A release leaves the tables' records alone, or writes one row with the new bundle.
  lemma ReleaseWrites(t: Tables, m: Message, checkpoint: Checkpoint, gate: Option<Gate>)
    requires Normalized(m.record) == m.record
    ensures var u := ReleaseTx(t, m.record.scope, m.record, m.expected, checkpoint, gate).0;
      || u == t
      || (m.Target() in t.operations && m.Target() in u.operations
          && u.operations == t.operations[m.Target() := u.operations[m.Target()]]
          && m.expected == t.operations[m.Target()].revision && u.operations[m.Target()].revision == m.expected + 1
          && u.operations[m.Target()].record == t.operations[m.Target()].record.(bundle := m.record.bundle))
  {
  }

  lemma ReleaseAccepted(t: Tables, m: Message, checkpoint: Checkpoint, gate: Option<Gate>)
    requires WellKeyed(t) && m.todo.Release? && Normalized(m.record) == m.record
    requires WellKeyed(ReleaseTx(t, m.record.scope, m.record, m.expected, checkpoint, gate).0)
    ensures Accepts(t, ReleaseTx(t, m.record.scope, m.record, m.expected, checkpoint, gate).0, m)
  {
    ReleaseWrites(t, m, checkpoint, gate);
  }

  // Everything but a put or a release leaves records and revisions alone.
  lemma OtherLabelsKeepRecords(s: Runs.Server, l: Runs.Label)
    requires !l.CommitPut? && !l.Release? && !l.BeginPut?
    ensures var a, b := s.tables.operations, Runs.Next(s, l).tables.operations;
      && a.Keys == b.Keys && Runs.Next(s, l).puts == s.puts
      && forall k :: k in a ==> b[k].record == a[k].record && b[k].revision == a[k].revision
  {
    if l.CommitReconcile? && l.task in s.reconciles {
      var p := s.reconciles[l.task];
      var u := ReconcileTx(s.tables, p.key, p.before, l.view, l.reconcileGate).0;
      assert u.operations == s.tables.operations
        || (p.key in s.tables.operations && u.operations == s.tables.operations[p.key := u.operations[p.key]]
            && u.operations[p.key].record == s.tables.operations[p.key].record
            && u.operations[p.key].revision == s.tables.operations[p.key].revision);
    }
  }

  // A step of the service that leaves its records alone.
  lemma SameRecordsKeep(w: World, v: World)
    requires Inv(w) && Runs.Inv(v.server)
    requires v.history == w.history && v.sent == w.sent && v.nextNonce == w.nextNonce && v.replies == w.replies
    requires v.clients == w.clients && v.submits == w.submits
    requires HistoryMatches(w.history, v.server.tables.operations) && PutsOk(v.server.puts, v.origins, v.sent)
    ensures Inv(v)
  {
  }

  lemma PutAdded(puts: map<nat, Runs.PendingPut>, more: map<nat, Runs.PendingPut>, origins: map<nat, Message>, sent: set<Message>,
      task: nat, m: Message)
    requires PutsOk(puts, origins, sent) && m in sent && m.todo != Release && task !in puts
    requires task in more ==> more[task].record == m.record && more[task].expected == m.expected
    requires forall other :: other in more && other != task ==> other in puts && more[other] == puts[other]
    ensures PutsOk(more, origins[task := m], sent)
  {
  }

  lemma BeginPutAdds(s: Runs.Server, task: nat, m: Message)
    requires task !in s.puts && Normalized(m.record) == m.record
    ensures var t := Runs.Next(s, Runs.BeginPut(task, m.record.scope, m.record, m.expected));
      && t.tables == s.tables
      && (task in t.puts ==> t.puts[task].record == m.record && t.puts[task].expected == m.expected)
      && (forall other :: other in t.puts && other != task ==> other in s.puts && t.puts[other] == s.puts[other])
  {
  }

  lemma SentNormalized(w: World, m: Message)
    requires Inv(w) && m in w.sent
    ensures MessageOk(w.history, m)
  {
  }

  function BeginLabel(task: nat, m: Message): Runs.Label {
    Runs.BeginPut(task, m.record.scope, m.record, m.expected)
  }

  lemma DeliverPutIs(w: World, task: nat, m: Message)
    ensures Next(w, DeliverPut(task, m)) ==
      if m !in w.sent || m.todo == Release || task in w.server.puts then w
      else w.(server := Runs.Next(w.server, BeginLabel(task, m)), origins := w.origins[task := m])
  {
  }

  lemma DeliverPutKeeps(w: World, task: nat, m: Message)
    requires Inv(w)
    ensures Inv(Next(w, DeliverPut(task, m)))
  {
    DeliverPutIs(w, task, m);
    if m in w.sent && m.todo != Release && task !in w.server.puts { BegunPutKeeps(w, task, m); }
  }

  lemma BegunPutKeeps(w: World, task: nat, m: Message)
    requires Inv(w) && m in w.sent && m.todo != Release && task !in w.server.puts
    ensures Inv(w.(server := Runs.Next(w.server, BeginLabel(task, m)), origins := w.origins[task := m]))
  {
    var v := w.(server := Runs.Next(w.server, BeginLabel(task, m)), origins := w.origins[task := m]);
    Runs.NextKeeps(w.server, BeginLabel(task, m));
    SentNormalized(w, m);
    BeginPutAdds(w.server, task, m);
    PutAdded(w.server.puts, v.server.puts, w.origins, w.sent, task, m);
    SameRecordsKeep(w, v);
  }

  // The service has accepted a message, or refused it; what the rest of the world keeps.
  lemma AcceptKeeps(w: World, v: World, m: Message)
    requires Inv(w) && m in w.sent && MessageOk(w.history, m)
    requires Accepts(w.server.tables, v.server.tables, m)
    requires v.history == Recorded(w.history, v.server.tables.operations, m)
    requires v.sent == w.sent && v.nextNonce == w.nextNonce && v.clients == w.clients && v.submits == w.submits
    ensures HistoryMatches(v.history, v.server.tables.operations) && Grows(w.history, v.history)
    ensures EntriesOk(v.history, v.sent)
    ensures SentOk(v.history, v.sent, v.nextNonce)
    ensures ClientsOk(v.history, v.sent, v.clients)
    ensures SubmitsOk(v.history, v.clients, v.submits)
    ensures RepliesOk(v.history, w.replies)
  {
    RecordedKeeps(w.history, w.sent, w.server.tables, v.server.tables, m);
    SentOkGrows(w.history, v.history, w.sent, w.nextNonce);
    ClientsOkGrow(w.history, v.history, w.sent, w.sent, w.clients);
    SubmitsOkGrow(w.history, v.history, w.clients, w.submits);
    RepliesOkGrow(w.history, v.history, w.replies);
  }

  lemma RepliesOkGrow(h: map<Key, seq<Entry>>, g: map<Key, seq<Entry>>, replies: set<(Message, Row)>)
    requires Grows(h, g) && RepliesOk(h, replies)
    ensures RepliesOk(g, replies)
  {
    forall r | r in replies ensures KnownTrue(g, r.0.Target(), r.1) {
      assert KnownTrue(h, r.0.Target(), r.1);
    }
  }

  function RepliesAfter(w: World, l: Runs.Label, m: Message): set<(Message, Row)> {
    var reply := Runs.PutReply(w.server, l);
    if reply.Some? && reply.value.Ok? then w.replies + {(m, reply.value.value)} else w.replies
  }

  lemma CommitPutIs(w: World, l: Runs.Label)
    requires l.CommitPut? && l.task in w.origins && l.task in w.server.puts
    ensures var s, m := Runs.Next(w.server, l), w.origins[l.task];
      && ServeLabel(w, l) == w.(server := s, history := Recorded(w.history, s.tables.operations, m), replies := RepliesAfter(w, l, m))
      && (forall task :: task in s.puts ==> task in w.server.puts && s.puts[task] == w.server.puts[task])
  {
  }

  lemma CommitPutKeeps(w: World, l: Runs.Label)
    requires Inv(w) && l.CommitPut? && l.task in w.origins && l.task in w.server.puts
    ensures Inv(ServeLabel(w, l))
  {
    var s, m := Runs.Next(w.server, l), w.origins[l.task];
    var v := w.(server := s, history := Recorded(w.history, s.tables.operations, m), replies := RepliesAfter(w, l, m));
    CommitPutIs(w, l);
    Runs.NextKeeps(w.server, l);
    OriginSent(w.server.puts, w.origins, w.sent, l.task);
    SentNormalized(w, m);
    ReserveExpects(w.history, m);
    CommitAccepted(w.server, l, m);
    AcceptKeeps(w, v, m);
    PutsShrink(w.server.puts, s.puts, w.origins, w.sent);
    var reply := Runs.PutReply(w.server, l);
    if reply.Some? && reply.value.Ok? {
      ReplyTrue(v.history, s.tables.operations, w.replies, m, reply.value.value);
    }
    InvFrom(v);
  }

  lemma OriginSent(puts: map<nat, Runs.PendingPut>, origins: map<nat, Message>, sent: set<Message>, task: nat)
    requires PutsOk(puts, origins, sent) && task in puts
    ensures task in origins && origins[task] in sent && !origins[task].todo.Release?
    ensures puts[task].record == origins[task].record && puts[task].expected == origins[task].expected
  {
  }

  lemma ReserveExpects(history: map<Key, seq<Entry>>, m: Message)
    requires MessageOk(history, m) && !m.todo.Release?
    ensures m.todo.Reserve? <==> m.expected == 0
  {
  }

  lemma PutsShrink(puts: map<nat, Runs.PendingPut>, fewer: map<nat, Runs.PendingPut>, origins: map<nat, Message>, sent: set<Message>)
    requires PutsOk(puts, origins, sent)
    requires forall task :: task in fewer ==> task in puts && fewer[task] == puts[task]
    ensures PutsOk(fewer, origins, sent)
  {
  }

  // The reply of an accepted put is the record as it now stands.
  lemma ReplyTrue(history: map<Key, seq<Entry>>, operations: map<Key, Row>, replies: set<(Message, Row)>, m: Message, row: Row)
    requires HistoryMatches(history, operations) && m.Target() in operations && operations[m.Target()] == row
    requires RepliesOk(history, replies)
    ensures RepliesOk(history, replies + {(m, row)})
  {
    assert KnownTrue(history, m.Target(), row);
  }

  lemma CommitAccepted(s: Runs.Server, l: Runs.Label, m: Message)
    requires Runs.Inv(s) && Runs.Inv(Runs.Next(s, l)) && l.CommitPut? && l.task in s.puts
    requires s.puts[l.task].record == m.record && s.puts[l.task].expected == m.expected
    requires !m.todo.Release? && (m.todo.Reserve? <==> m.expected == 0)
    ensures var u, reply := Runs.Next(s, l).tables, Runs.PutReply(s, l);
      Accepts(s.tables, u, m)
      && (reply.Some? && reply.value.Ok? ==> m.Target() in u.operations && u.operations[m.Target()] == reply.value.value)
  {
    var p := s.puts[l.task];
    if p.existed || InputVerdict(l.input).None? {
      PutAccepted(s.tables, m, l.putGate);
    }
  }

  lemma InvFrom(v: World)
    requires Runs.Inv(v.server) && HistoryMatches(v.history, v.server.tables.operations) && EntriesOk(v.history, v.sent)
    requires SentOk(v.history, v.sent, v.nextNonce) && PutsOk(v.server.puts, v.origins, v.sent) && RepliesOk(v.history, v.replies)
    requires ClientsOk(v.history, v.sent, v.clients) && SubmitsOk(v.history, v.clients, v.submits) && SendersOk(v.clients, v.sent)
    ensures Inv(v)
  {
  }

  lemma ReleaseKeepsPuts(s: Runs.Server, m: Message, checkpoint: Checkpoint, gate: Option<Gate>)
    ensures Runs.Next(s, Runs.Release(m.record.scope, m.record, m.expected, checkpoint, gate)).puts == s.puts
    ensures Runs.Next(s, Runs.Release(m.record.scope, m.record, m.expected, checkpoint, gate)).tables
      == ReleaseTx(s.tables, m.record.scope, m.record, m.expected, checkpoint, gate).0
  {
  }

  lemma DeliverReleaseIs(w: World, m: Message, checkpoint: Checkpoint, gate: Option<Gate>)
    requires m in w.sent && m.todo == Release
    ensures var s := Runs.Next(w.server, Runs.Release(m.record.scope, m.record, m.expected, checkpoint, gate));
      Next(w, DeliverRelease(m, checkpoint, gate)) == w.(server := s, history := Recorded(w.history, s.tables.operations, m))
  {
  }

  lemma DeliverReleaseKeeps(w: World, m: Message, checkpoint: Checkpoint, gate: Option<Gate>)
    requires Inv(w) && m in w.sent && m.todo == Release
    ensures Inv(Next(w, DeliverRelease(m, checkpoint, gate)))
  {
    var l := Runs.Release(m.record.scope, m.record, m.expected, checkpoint, gate);
    var s := Runs.Next(w.server, l);
    var v := w.(server := s, history := Recorded(w.history, s.tables.operations, m));
    DeliverReleaseIs(w, m, checkpoint, gate);
    Runs.NextKeeps(w.server, l);
    ReleaseKeepsPuts(w.server, m, checkpoint, gate);
    SentNormalized(w, m);
    ReleaseAccepted(w.server.tables, m, checkpoint, gate);
    AcceptKeeps(w, v, m);
    InvFrom(v);
  }

  lemma ServeIs(w: World, l: Runs.Label)
    ensures Next(w, Serve(l)) ==
      if l.CommitPut? && l.task in w.origins && l.task in w.server.puts then ServeLabel(w, l)
      else if l.CommitPut? || l.BeginPut? || l.Release? then w
      else w.(server := Runs.Next(w.server, l))
  {
  }

  lemma ServeKeeps(w: World, l: Runs.Label)
    requires Inv(w)
    ensures Inv(Next(w, Serve(l)))
  {
    ServeIs(w, l);
    if l.CommitPut? {
      if l.task in w.origins && l.task in w.server.puts { CommitPutKeeps(w, l); }
    } else if !l.BeginPut? && !l.Release? {
      OtherKeeps(w, l);
    }
  }

  lemma OtherKeeps(w: World, l: Runs.Label)
    requires Inv(w) && !l.CommitPut? && !l.BeginPut? && !l.Release?
    ensures Inv(w.(server := Runs.Next(w.server, l)))
  {
    Runs.NextKeeps(w.server, l);
    OtherLabelsKeepRecords(w.server, l);
    var v := w.(server := Runs.Next(w.server, l));
    MatchesKept(w.history, w.server.tables.operations, v.server.tables.operations);
    SameRecordsKeep(w, v);
  }

  lemma MatchesKept(history: map<Key, seq<Entry>>, a: map<Key, Row>, b: map<Key, Row>)
    requires HistoryMatches(history, a) && a.Keys == b.Keys
    requires forall k :: k in a ==> b[k].record == a[k].record && b[k].revision == a[k].revision
    ensures HistoryMatches(history, b)
  {
  }

  // ----- Client steps -----

  lemma ClientReplaced(history: map<Key, seq<Entry>>, sent: set<Message>, clients: map<nat, Client>, c: nat, cl: Client)
    requires ClientsOk(history, sent, clients) && ClientOk(history, sent, c, cl)
    ensures ClientsOk(history, sent, clients[c := cl])
  {
  }

  lemma SubmitsReplaced(history: map<Key, seq<Entry>>, clients: map<nat, Client>, submits: seq<Submission>, c: nat, cl: Client)
    requires SubmitsOk(history, clients, submits)
    requires c in clients && AfterSubmit(clients[c].stage) ==> AfterSubmit(cl.stage)
    ensures SubmitsOk(history, clients[c := cl], submits)
  {
    forall i | 0 <= i < |submits| ensures SubmissionOk(history, clients[c := cl], submits[i]) {
      assert SubmissionOk(history, clients, submits[i]);
    }
  }

  lemma SendersReplaced(clients: map<nat, Client>, sent: set<Message>, c: nat, cl: Client)
    requires SendersOk(clients, sent) && (c in clients ==> cl.flow == clients[c].flow)
    ensures SendersOk(clients[c := cl], sent)
  {
  }

  lemma SetStageKeeps(w: World, c: nat, cl: Client)
    requires Inv(w) && c in w.clients && ClientOk(w.history, w.sent, c, cl)
    requires AfterSubmit(w.clients[c].stage) ==> AfterSubmit(cl.stage)
    requires cl.flow == w.clients[c].flow
    ensures Inv(w.(clients := w.clients[c := cl]))
  {
    ClientReplaced(w.history, w.sent, w.clients, c, cl);
    SubmitsReplaced(w.history, w.clients, w.submits, c, cl);
    SendersReplaced(w.clients, w.sent, c, cl);
    InvFrom(w.(clients := w.clients[c := cl]));
  }

  lemma NewClientKeeps(w: World, c: nat, cl: Client)
    requires Inv(w) && c !in w.clients && ClientOk(w.history, w.sent, c, cl)
    ensures Inv(w.(clients := w.clients[c := cl]))
  {
    ClientReplaced(w.history, w.sent, w.clients, c, cl);
    SubmitsReplaced(w.history, w.clients, w.submits, c, cl);
    SendersReplaced(w.clients, w.sent, c, cl);
    InvFrom(w.(clients := w.clients[c := cl]));
  }

  lemma ClientIsOk(w: World, c: nat)
    requires Inv(w) && c in w.clients
    ensures ClientOk(w.history, w.sent, c, w.clients[c])
  {
  }

  lemma SentAdded(history: map<Key, seq<Entry>>, sent: set<Message>, nextNonce: nat, m: Message)
    requires SentOk(history, sent, nextNonce) && MessageOk(history, m) && m.record.bundle.nonce == nextNonce
    ensures SentOk(history, sent + {m}, nextNonce + 1)
  {
  }

  lemma PutsSentMore(puts: map<nat, Runs.PendingPut>, origins: map<nat, Message>, sent: set<Message>, more: set<Message>)
    requires PutsOk(puts, origins, sent) && sent <= more
    ensures PutsOk(puts, origins, more)
  {
  }

  lemma SendersAdded(clients: map<nat, Client>, sent: set<Message>, m: Message)
    requires SendersOk(clients, sent)
    requires !m.todo.Release? ==> m.client in clients && (m.proof.None? <==> clients[m.client].flow.Authorize?)
    ensures SendersOk(clients, sent + {m})
  {
  }

  lemma GrowsSame(h: map<Key, seq<Entry>>)
    ensures Grows(h, h)
  {
  }

  // A message with a new nonce may always be sent.
  lemma SendKeeps(w: World, m: Message)
    requires Inv(w) && MessageOk(w.history, m) && m.record.bundle.nonce == w.nextNonce
    requires !m.todo.Release? ==> m.client in w.clients && (m.proof.None? <==> w.clients[m.client].flow.Authorize?)
    ensures Inv(w.(sent := w.sent + {m}, nextNonce := w.nextNonce + 1))
  {
    var v := w.(sent := w.sent + {m}, nextNonce := w.nextNonce + 1);
    EntriesOkMore(w.history, w.sent, v.sent);
    GrowsSame(w.history);
    ClientsOkGrow(w.history, w.history, w.sent, v.sent, w.clients);
    SentAdded(w.history, w.sent, w.nextNonce, m);
    PutsSentMore(w.server.puts, w.origins, w.sent, v.sent);
    SendersAdded(w.clients, w.sent, m);
    InvFrom(v);
  }

  lemma NormalizedKept(record: Record, request: Record)
    requires record == Normalized(request)
    ensures Normalized(record) == record
  {
    LowerIdempotent(request.scope.owner);
    LowerIdempotent(request.recordId);
    LowerIdempotent(request.inputId);
    LowerIdempotent(request.operationId);
    LowerIdempotent(request.contentHash);
    if request.kind.Pay? { LowerIdempotent(request.kind.paymentId); }
  }

  // What lets a client send a message and wait for it.
  predicate Postable(history: map<Key, seq<Entry>>, sent: set<Message>, nextNonce: nat, c: nat, cl: Client, m: Message) {
    && m.client == c && m.proof == cl.proof && m.record.bundle.nonce == nextNonce && MessageOk(history, m)
    && (AfterSubmit(cl.stage) ==> m.todo.StoreHash?)
    && WaitingOk(history, sent + {m}, c, cl, m)
    && (cl.proof.None? <==> cl.flow.Authorize?)
  }

  lemma PostKeeps(w: World, c: nat, m: Message)
    requires Inv(w) && c in w.clients && Postable(w.history, w.sent, w.nextNonce, c, w.clients[c], m)
    ensures Inv(Post(w, c, m.todo, m.record, m.expected))
  {
    SendKeeps(w, m);
    var v := w.(sent := w.sent + {m}, nextNonce := w.nextNonce + 1);
    WritingOk(v.history, v.sent, c, w.clients[c], m);
    SetStageKeeps(v, c, w.clients[c].(stage := Writing(m)));
  }

  lemma WritingOk(history: map<Key, seq<Entry>>, sent: set<Message>, c: nat, cl: Client, m: Message)
    requires WaitingOk(history, sent, c, cl, m) && (cl.proof.None? <==> cl.flow.Authorize?)
    ensures ClientOk(history, sent, c, cl.(stage := Writing(m)))
  {
  }

  lemma ReserveKeeps(w: World, c: nat, bundle: Bundle)
    requires Inv(w) && c in w.clients && w.clients[c].stage.Prepared? && bundle.nonce == w.nextNonce
    ensures Inv(Post(w, c, Reserve, w.clients[c].stage.record.(bundle := bundle), 0))
  {
    ClientIsOk(w, c);
    PostKeeps(w, c, Message(c, Reserve, w.clients[c].stage.record.(bundle := bundle), 0, w.clients[c].proof));
  }

  // The write derived from a reservation the client truly holds is a well-formed message.
  lemma DerivedOk(history: map<Key, seq<Entry>>, sent: set<Message>, c: nat, cl: Client, attempt: string, bundle: Bundle)
    requires EntriesOk(history, sent) && ClientOk(history, sent, c, cl) && cl.stage.Idle?
    requires WriteTodo(cl.stage.todo, attempt).Some?
    requires cl.stage.todo.CreateAttempt? && !cl.flow.Authorize? ==> attempt !in cl.stage.known.record.attemptIds
    ensures var known, todo := cl.stage.known, WriteTodo(cl.stage.todo, attempt).value;
      var m := Message(c, todo, Rewritten(todo, known.record, bundle), known.revision, cl.proof);
      MessageOk(history, m) && WaitingOk(history, sent + {m}, c, cl, m)
  {
    var known, todo := cl.stage.known, WriteTodo(cl.stage.todo, attempt).value;
    assert EntryOk(sent, cl.key, history[cl.key], known.revision - 1);
    DerivedMessageOk(history, c, cl, attempt, bundle);
  }

  lemma RewrittenNormal(todo: Todo, record: Record, bundle: Bundle)
    requires Normalized(record) == record
    ensures Normalized(Rewritten(todo, record, bundle)) == Rewritten(todo, record, bundle)
  {
  }

  lemma DerivedMessageOk(history: map<Key, seq<Entry>>, c: nat, cl: Client, attempt: string, bundle: Bundle)
    requires cl.stage.Idle? && WriteTodo(cl.stage.todo, attempt).Some?
    requires cl.stage.todo.CreateAttempt? && !cl.flow.Authorize? ==> attempt !in cl.stage.known.record.attemptIds
    requires KnownTrue(history, cl.key, cl.stage.known) && Normalized(cl.stage.known.record) == cl.stage.known.record
    requires Key(cl.stage.known.record.scope, cl.stage.known.record.recordId) == cl.key
    requires cl.proof.None? <==> cl.flow.Authorize?
    requires BeforeAppend(cl.stage.todo) ==> BaseOk(history, c, cl.key, cl.proof, cl.stage.known.revision)
    requires !cl.stage.todo.StartSignature? ==> cl.stage.known.record.signatureStarted
    ensures var known, todo := cl.stage.known, WriteTodo(cl.stage.todo, attempt).value;
      MessageOk(history, Message(c, todo, Rewritten(todo, known.record, bundle), known.revision, cl.proof))
  {
    RewrittenNormal(WriteTodo(cl.stage.todo, attempt).value, cl.stage.known.record, bundle);
  }

  lemma WriteIs(w: World, c: nat, ciphertext: string, tag: string, attempt: string)
    requires c in w.clients && w.clients[c].stage.Idle?
    ensures var cl := w.clients[c];
      var write, known := WriteTodo(cl.stage.todo, attempt), cl.stage.known;
      Write(w, c, ciphertext, tag, attempt) ==
        if write.None? then w
        else if cl.stage.todo.CreateAttempt? && !cl.flow.Authorize? && attempt in known.record.attemptIds then SetStage(w, c, Ended)
        else Post(w, c, write.value, Rewritten(write.value, known.record, Bundle(ciphertext, w.nextNonce, tag)), known.revision)
  {
  }

  lemma WriteKeeps(w: World, c: nat, ciphertext: string, tag: string, attempt: string)
    requires Inv(w) && c in w.clients && w.clients[c].stage.Idle?
    ensures Inv(Write(w, c, ciphertext, tag, attempt))
  {
    var cl := w.clients[c];
    WriteIs(w, c, ciphertext, tag, attempt);
    if WriteTodo(cl.stage.todo, attempt).None? {
    } else if cl.stage.todo.CreateAttempt? && !cl.flow.Authorize? && attempt in cl.stage.known.record.attemptIds {
      MoveKeeps(w, c, Ended);
    } else {
      PostDerivedKeeps(w, c, attempt, Bundle(ciphertext, w.nextNonce, tag));
    }
  }

  lemma ProofMatchesFlow(history: map<Key, seq<Entry>>, sent: set<Message>, c: nat, cl: Client)
    requires ClientOk(history, sent, c, cl) && cl.stage.Idle?
    ensures cl.proof.None? <==> cl.flow.Authorize?
    ensures !AfterSubmit(cl.stage) || cl.stage.todo.StoreHash? || cl.stage.todo.Finish?
  {
  }

  lemma DerivedPostable(history: map<Key, seq<Entry>>, sent: set<Message>, c: nat, cl: Client, attempt: string, bundle: Bundle)
    requires EntriesOk(history, sent) && ClientOk(history, sent, c, cl) && cl.stage.Idle?
    requires WriteTodo(cl.stage.todo, attempt).Some?
    requires cl.stage.todo.CreateAttempt? && !cl.flow.Authorize? ==> attempt !in cl.stage.known.record.attemptIds
    ensures Postable(history, sent, bundle.nonce, c, cl, Derived(c, cl, attempt, bundle))
  {
    ProofMatchesFlow(history, sent, c, cl);
    DerivedOk(history, sent, c, cl, attempt, bundle);
  }

  function Derived(c: nat, cl: Client, attempt: string, bundle: Bundle): Message
    requires cl.stage.Idle? && WriteTodo(cl.stage.todo, attempt).Some?
  {
    var todo, known := WriteTodo(cl.stage.todo, attempt).value, cl.stage.known;
    Message(c, todo, Rewritten(todo, known.record, bundle), known.revision, cl.proof)
  }

  lemma PostDerivedKeeps(w: World, c: nat, attempt: string, bundle: Bundle)
    requires Inv(w) && c in w.clients && w.clients[c].stage.Idle? && bundle.nonce == w.nextNonce
    requires WriteTodo(w.clients[c].stage.todo, attempt).Some?
    requires var cl := w.clients[c];
      cl.stage.todo.CreateAttempt? && !cl.flow.Authorize? ==> attempt !in cl.stage.known.record.attemptIds
    ensures var todo, known := WriteTodo(w.clients[c].stage.todo, attempt).value, w.clients[c].stage.known;
      Inv(Post(w, c, todo, Rewritten(todo, known.record, bundle), known.revision))
  {
    ClientIsOk(w, c);
    DerivedPostable(w.history, w.sent, c, w.clients[c], attempt, bundle);
    PostKeeps(w, c, Derived(c, w.clients[c], attempt, bundle));
  }

  // A client adopts a reply only when it is its own write, entered at the revision it expected.
  lemma AdoptedIsOwn(w: World, c: nat, m: Message, row: Row)
    requires Inv(w) && c in w.clients && m in w.sent && m.Target() == w.clients[c].key
    requires KnownTrue(w.history, m.Target(), row) && AssertSaved(row, m.record, m.expected + 1)
    ensures w.history[m.Target()][m.expected].message == m && row.record == m.record
  {
    var k := m.Target();
    assert EntryOk(w.sent, k, w.history[k], m.expected);
  }

  lemma AdoptedOk(history: map<Key, seq<Entry>>, sent: set<Message>, c: nat, cl: Client)
    requires EntriesOk(history, sent) && ClientOk(history, sent, c, cl) && cl.stage.Answered?
    requires MessageOk(history, cl.stage.message)
    requires var m := cl.stage.message;
      AssertSaved(cl.stage.row, m.record, m.expected + 1) && history[m.Target()][m.expected].message == m
    ensures ClientOk(history, sent, c, cl.(stage := Idle(After(cl.flow, cl.stage.message.todo), cl.stage.row)))
  {
    var m := cl.stage.message;
    assert EntryOk(sent, cl.key, history[cl.key], m.expected);
  }

  lemma AdoptFacts(w: World, c: nat)
    requires Inv(w) && c in w.clients && w.clients[c].stage.Answered?
    ensures ClientOk(w.history, w.sent, c, w.clients[c]) && MessageOk(w.history, w.clients[c].stage.message)
  {
  }

  predicate Adopts(cl: Client)
    requires cl.stage.Answered?
  {
    var Answered(m, row, viaGet) := cl.stage;
    (viaGet ==> AckMatches(row, m.record, m.expected + 1)) && AssertSaved(row, m.record, m.expected + 1)
  }

  lemma AdoptIs(w: World, c: nat)
    requires c in w.clients && w.clients[c].stage.Answered?
    ensures var cl := w.clients[c];
      AdoptAnswer(w, c) ==
        SetStage(w, c, if Adopts(cl) then Idle(After(cl.flow, cl.stage.message.todo), cl.stage.row) else Ended)
  {
  }

  lemma AdoptedClient(history: map<Key, seq<Entry>>, sent: set<Message>, c: nat, cl: Client)
    requires ClientOk(history, sent, c, cl) && cl.stage.Answered?
    ensures cl.stage.message in sent && cl.stage.message.Target() == cl.key && KnownTrue(history, cl.key, cl.stage.row)
    ensures AfterSubmit(cl.stage) ==> cl.stage.message.todo.StoreHash?
  {
  }

  lemma AdoptKeeps(w: World, c: nat)
    requires Inv(w) && c in w.clients && w.clients[c].stage.Answered?
    ensures Inv(AdoptAnswer(w, c))
  {
    var cl := w.clients[c];
    AdoptIs(w, c);
    if Adopts(cl) {
      AdoptFacts(w, c);
      AdoptedClient(w.history, w.sent, c, cl);
      AdoptedIsOwn(w, c, cl.stage.message, cl.stage.row);
      AdoptedOk(w.history, w.sent, c, cl);
      SetStageKeeps(w, c, cl.(stage := Idle(After(cl.flow, cl.stage.message.todo), cl.stage.row)));
    } else {
      MoveKeeps(w, c, Ended);
    }
  }

  // The client that evidence leaves, when the gate lets it go on and when it does not.
  function Confirmed(w: World, c: nat, restored: bool): Client
    requires c in w.clients && w.clients[c].stage.Evidenced?
  {
    var cl, p := w.clients[c], w.clients[c].stage.evidenced;
    var start := RecoveryStart(cl.flow, p, restored);
    if cl.key in w.server.tables.operations && StillSaved(w.server.tables.operations[cl.key], p.saved) && start.Some?
    then cl.(stage := Idle(start.value, p.saved), proof := Some(p)) else cl.(stage := Ended)
  }

  lemma ConfirmIs(w: World, c: nat, restored: bool)
    requires c in w.clients && w.clients[c].stage.Evidenced?
    ensures ConfirmEvidence(w, c, restored) == w.(clients := w.clients[c := Confirmed(w, c, restored)])
  {
  }

  // A recovery starts from what its evidence was read for.
  lemma StartOk(history: map<Key, seq<Entry>>, sent: set<Message>, c: nat, cl: Client, restored: bool)
    requires ClientOk(history, sent, c, cl) && cl.stage.Evidenced?
    requires RecoveryStart(cl.flow, cl.stage.evidenced, restored).Some?
    ensures var p := cl.stage.evidenced;
      ClientOk(history, sent, c, cl.(stage := Idle(RecoveryStart(cl.flow, p, restored).value, p.saved), proof := Some(p)))
  {
    var p := cl.stage.evidenced;
    assert BaseOk(history, c, cl.key, Some(p), p.saved.revision);
  }

  lemma ConfirmedOk(w: World, c: nat, restored: bool)
    requires c in w.clients && w.clients[c].stage.Evidenced? && ClientOk(w.history, w.sent, c, w.clients[c])
    ensures ClientOk(w.history, w.sent, c, Confirmed(w, c, restored))
  {
    var cl := w.clients[c];
    if RecoveryStart(cl.flow, cl.stage.evidenced, restored).Some? { StartOk(w.history, w.sent, c, cl, restored); }
  }

  lemma ConfirmKeeps(w: World, c: nat, restored: bool)
    requires Inv(w) && c in w.clients && w.clients[c].stage.Evidenced?
    ensures Inv(ConfirmEvidence(w, c, restored))
  {
    ClientIsOk(w, c);
    ConfirmIs(w, c, restored);
    ConfirmedOk(w, c, restored);
    SetStageKeeps(w, c, Confirmed(w, c, restored));
  }

  lemma SubmissionAdded(history: map<Key, seq<Entry>>, clients: map<nat, Client>, submits: seq<Submission>, e: Submission)
    requires SubmitsOk(history, clients, submits) && SubmissionOk(history, clients, e)
    requires forall i :: 0 <= i < |submits| ==> submits[i].client != e.client
    ensures SubmitsOk(history, clients, submits + [e])
  {
  }

  // A client about to submit is not among the submitters.
  lemma NotYetSubmitted(history: map<Key, seq<Entry>>, clients: map<nat, Client>, submits: seq<Submission>, c: nat)
    requires SubmitsOk(history, clients, submits) && c in clients && !AfterSubmit(clients[c].stage)
    ensures forall i :: 0 <= i < |submits| ==> submits[i].client != c
  {
    forall i | 0 <= i < |submits| ensures submits[i].client != c {
      assert SubmissionOk(history, clients, submits[i]);
    }
  }

  lemma SubmitFacts(history: map<Key, seq<Entry>>, sent: set<Message>, clients: map<nat, Client>, c: nat, cl: Client, stage: Stage)
    requires ClientOk(history, sent, c, cl) && cl.stage.Idle? && cl.stage.todo.Submit?
    requires stage == Ended || stage == Idle(StoreHash, cl.stage.known)
    ensures ClientOk(history, sent, c, cl.(stage := stage)) && AfterSubmit(stage)
    ensures SubmissionOk(history, clients[c := cl.(stage := stage)], Submission(c, cl.key, cl.stage.todo.attempt, cl.stage.known.revision))
  {
  }

  lemma SubmitsSet(v: World, submits: seq<Submission>)
    requires Inv(v) && SubmitsOk(v.history, v.clients, submits)
    ensures Inv(v.(submits := submits))
  {
    InvFrom(v.(submits := submits));
  }

  lemma SubmitNowIs(w: World, c: nat, hashKnown: bool)
    requires c in w.clients && w.clients[c].stage.Idle? && w.clients[c].stage.todo.Submit?
    ensures var cl := w.clients[c];
      SubmitNow(w, c, hashKnown) == w.(
        clients := w.clients[c := cl.(stage := if hashKnown then Idle(StoreHash, cl.stage.known) else Ended)],
        submits := w.submits + [Submission(c, cl.key, cl.stage.todo.attempt, cl.stage.known.revision)])
  {
  }

  // The client leaves the stage, and the submission to be entered is sound.
  lemma SubmitLeaves(w: World, c: nat, stage: Stage)
    requires Inv(w) && c in w.clients && w.clients[c].stage.Idle? && w.clients[c].stage.todo.Submit?
    requires stage == Ended || stage == Idle(StoreHash, w.clients[c].stage.known)
    ensures var cl := w.clients[c];
      var clients := w.clients[c := cl.(stage := stage)];
      && Inv(w.(clients := clients))
      && SubmitsOk(w.history, clients, w.submits + [Submission(c, cl.key, cl.stage.todo.attempt, cl.stage.known.revision)])
  {
    var cl := w.clients[c];
    ClientIsOk(w, c);
    SubmitFacts(w.history, w.sent, w.clients, c, cl, stage);
    SetStageKeeps(w, c, cl.(stage := stage));
    NotYetSubmitted(w.history, w.clients, w.submits, c);
    SubmissionAdded(w.history, w.clients[c := cl.(stage := stage)], w.submits,
                    Submission(c, cl.key, cl.stage.todo.attempt, cl.stage.known.revision));
  }

  lemma SubmitKeeps(w: World, c: nat, hashKnown: bool)
    requires Inv(w) && c in w.clients && w.clients[c].stage.Idle? && w.clients[c].stage.todo.Submit?
    ensures Inv(SubmitNow(w, c, hashKnown))
  {
    var cl := w.clients[c];
    var stage := if hashKnown then Idle(StoreHash, cl.stage.known) else Ended;
    SubmitNowIs(w, c, hashKnown);
    SubmitLeaves(w, c, stage);
    SubmitsSet(w.(clients := w.clients[c := cl.(stage := stage)]),
               w.submits + [Submission(c, cl.key, cl.stage.todo.attempt, cl.stage.known.revision)]);
  }

  lemma ReadRecordIs(w: World, c: nat)
    requires c in w.clients && w.clients[c].stage.Checking?
    ensures var cl := w.clients[c];
      ReadRecord(w, c) == SetStage(w, c,
        if cl.key in w.server.tables.operations then Answered(cl.stage.message, w.server.tables.operations[cl.key], true) else Ended)
  {
  }

  lemma ReadAnswerOk(history: map<Key, seq<Entry>>, operations: map<Key, Row>, sent: set<Message>, c: nat, cl: Client)
    requires HistoryMatches(history, operations) && ClientOk(history, sent, c, cl) && cl.stage.Checking? && cl.key in operations
    ensures ClientOk(history, sent, c, cl.(stage := Answered(cl.stage.message, operations[cl.key], true)))
  {
    RecordMatches(history, operations, cl.key);
  }

  lemma ReadBackKeeps(w: World, c: nat)
    requires Inv(w) && c in w.clients && w.clients[c].stage.Checking?
    ensures Inv(ReadRecord(w, c))
  {
    var cl := w.clients[c];
    ReadRecordIs(w, c);
    if cl.key in w.server.tables.operations {
      ClientIsOk(w, c);
      ReadAnswerOk(w.history, w.server.tables.operations, w.sent, c, cl);
      SetStageKeeps(w, c, cl.(stage := Answered(cl.stage.message, w.server.tables.operations[cl.key], true)));
    } else {
      MoveKeeps(w, c, Ended);
    }
  }

  lemma SignedClientOk(history: map<Key, seq<Entry>>, sent: set<Message>, c: nat, cl: Client)
    requires ClientOk(history, sent, c, cl) && cl.stage.Idle? && cl.stage.todo.Sign?
    ensures ClientOk(history, sent, c, cl.(stage := Idle(StoreSigned, cl.stage.known)))
  {
  }

  lemma SigningsSet(v: World, signings: seq<(nat, Key)>)
    requires Inv(v)
    ensures Inv(v.(signings := signings))
  {
    InvFrom(v.(signings := signings));
  }

  lemma SignKeeps(w: World, c: nat, known: Row)
    requires Inv(w) && c in w.clients && w.clients[c].stage == Idle(Sign, known)
    ensures Inv(SetStage(w.(signings := w.signings + [(c, w.clients[c].key)]), c, Idle(StoreSigned, known)))
  {
    var cl := w.clients[c];
    ClientIsOk(w, c);
    SignedClientOk(w.history, w.sent, c, cl);
    SetStageKeeps(w, c, cl.(stage := Idle(StoreSigned, known)));
    SigningsSet(w.(clients := w.clients[c := cl.(stage := Idle(StoreSigned, known))]), w.signings + [(c, cl.key)]);
  }

  // The remaining steps only move the stage along.
  lemma MoveKeeps(w: World, c: nat, stage: Stage)
    requires Inv(w) && c in w.clients
    requires match stage
      case Evidenced(p) => w.clients[c].stage == Listed(p.saved)
      case Answered(m, row, viaGet) => w.clients[c].stage == Writing(m) && (m, row) in w.replies
      case Checking(m) => w.clients[c].stage == Writing(m)
      case Ended => true
      case _ => false
    ensures Inv(SetStage(w, c, stage))
  {
    var cl := w.clients[c];
    assert ClientOk(w.history, w.sent, c, cl);
    SetStageKeeps(w, c, cl.(stage := stage));
  }

  lemma RecoverStepIs(w: World, step: Step, c: nat)
    requires c in w.clients && (step.ReadEvidence? || step.Confirm?)
    ensures var stage := w.clients[c].stage;
      ClientStep(w, step, c) ==
        if step.ReadEvidence? && stage.Listed? then SetStage(w, c, Evidenced(Proof(stage.saved, step.evidence, step.input)))
        else if step.Confirm? && stage.Evidenced? then ConfirmEvidence(w, c, step.signaturesRestored)
        else w
  {
  }

  lemma RecoverStepKeeps(w: World, step: Step, c: nat)
    requires Inv(w) && c in w.clients && (step.ReadEvidence? || step.Confirm?)
    ensures Inv(ClientStep(w, step, c))
  {
    var stage := w.clients[c].stage;
    RecoverStepIs(w, step, c);
    if step.ReadEvidence? && stage.Listed? {
      MoveKeeps(w, c, Evidenced(Proof(stage.saved, step.evidence, step.input)));
    } else if step.Confirm? && stage.Evidenced? {
      ConfirmKeeps(w, c, step.signaturesRestored);
    }
  }

  lemma SendStepKeeps(w: World, step: Step, c: nat)
    requires Inv(w) && c in w.clients && step.SendWrite?
    ensures Inv(ClientStep(w, step, c))
  {
    match (step, w.clients[c].stage)
    case (SendWrite(_, ciphertext, tag, _), Prepared(_)) => ReserveKeeps(w, c, Bundle(ciphertext, w.nextNonce, tag));
    case (SendWrite(_, ciphertext, tag, attempt), Idle(_, _)) => WriteKeeps(w, c, ciphertext, tag, attempt);
    case _ =>
  }

  lemma WaitStepIs(w: World, step: Step, c: nat)
    requires c in w.clients && (step.Acknowledge? || step.LoseReply?)
    ensures var stage := w.clients[c].stage;
      ClientStep(w, step, c) ==
        if step.Acknowledge? && stage.Writing? && (stage.message, step.row) in w.replies
        then SetStage(w, c, Answered(stage.message, step.row, false))
        else if step.LoseReply? && stage.Writing? then SetStage(w, c, Checking(stage.message))
        else w
  {
  }

  lemma WaitStepKeeps(w: World, step: Step, c: nat)
    requires Inv(w) && c in w.clients && (step.Acknowledge? || step.LoseReply?)
    ensures Inv(ClientStep(w, step, c))
  {
    var stage := w.clients[c].stage;
    WaitStepIs(w, step, c);
    if step.Acknowledge? && stage.Writing? && (stage.message, step.row) in w.replies {
      MoveKeeps(w, c, Answered(stage.message, step.row, false));
    } else if step.LoseReply? && stage.Writing? {
      MoveKeeps(w, c, Checking(stage.message));
    }
  }

  lemma AnswerStepKeeps(w: World, step: Step, c: nat)
    requires Inv(w) && c in w.clients && (step.ReadBack? || step.Adopt?)
    ensures Inv(ClientStep(w, step, c))
  {
    match (step, w.clients[c].stage)
    case (ReadBack(_), Checking(_)) => ReadBackKeeps(w, c);
    case (Adopt(_), Answered(_, _, _)) => AdoptKeeps(w, c);
    case _ =>
  }

  lemma SignStepKeeps(w: World, step: Step, c: nat)
    requires Inv(w) && c in w.clients && step.SignPool?
    ensures Inv(ClientStep(w, step, c))
  {
    SignStepIs(w, step, c);
    if w.clients[c].stage.Idle? && w.clients[c].stage.todo.Sign? { SignKeeps(w, c, w.clients[c].stage.known); }
  }

  lemma SignStepIs(w: World, step: Step, c: nat)
    requires c in w.clients && step.SignPool?
    ensures var stage := w.clients[c].stage;
      ClientStep(w, step, c) ==
        if stage.Idle? && stage.todo.Sign?
        then SetStage(w.(signings := w.signings + [(c, w.clients[c].key)]), c, Idle(StoreSigned, stage.known)) else w
  {
  }

  lemma SubmitStepIs(w: World, step: Step, c: nat)
    requires c in w.clients && step.SubmitAttempt?
    ensures var stage := w.clients[c].stage;
      ClientStep(w, step, c) == if stage.Idle? && stage.todo.Submit? then SubmitNow(w, c, step.hashKnown) else w
  {
  }

  lemma SubmitStepKeeps(w: World, step: Step, c: nat)
    requires Inv(w) && c in w.clients && step.SubmitAttempt?
    ensures Inv(ClientStep(w, step, c))
  {
    SubmitStepIs(w, step, c);
    if w.clients[c].stage.Idle? && w.clients[c].stage.todo.Submit? { SubmitKeeps(w, c, step.hashKnown); }
  }

  // The steps of a client that has started.
  predicate OfClient(step: Step) {
    !step.StartAuthorize? && !step.StartRecover? && !step.SendRelease? && !step.DeliverPut? && !step.DeliverRelease? && !step.Serve?
  }

  lemma ClientStepKeeps(w: World, step: Step, c: nat)
    requires Inv(w) && c in w.clients && OfClient(step)
    ensures Inv(ClientStep(w, step, c))
  {
    if step.ReadEvidence? || step.Confirm? {
      RecoverStepKeeps(w, step, c);
    } else if step.SendWrite? {
      SendStepKeeps(w, step, c);
    } else if step.Acknowledge? || step.LoseReply? {
      WaitStepKeeps(w, step, c);
    } else if step.ReadBack? || step.Adopt? {
      AnswerStepKeeps(w, step, c);
    } else if step.SignPool? {
      SignStepKeeps(w, step, c);
    } else if step.SubmitAttempt? {
      SubmitStepKeeps(w, step, c);
    } else {
      MoveKeeps(w, c, Ended);
    }
  }

  lemma StartAuthorizeKeeps(w: World, c: nat, request: Record, exportOnly: bool)
    requires Inv(w)
    ensures Inv(Next(w, StartAuthorize(c, request, exportOnly)))
  {
    var record := Normalized(request);
    NormalizedKept(record, request);
    var cl := Client(Authorize(exportOnly), Key(record.scope, record.recordId), Prepared(record), None);
    if c !in w.clients && !request.signatureStarted && request.attemptIds == [] { NewClientKeeps(w, c, cl); }
  }

  // A recovery starts from a record read from the service.
  lemma ReadClientOk(history: map<Key, seq<Entry>>, operations: map<Key, Row>, sent: set<Message>, c: nat, key: Key, flow: Flow)
    requires HistoryMatches(history, operations) && key in operations && !flow.Authorize?
    ensures ClientOk(history, sent, c, Client(flow, key, Listed(operations[key]), None))
  {
    RecordMatches(history, operations, key);
  }

  lemma StartRecoverKeeps(w: World, c: nat, scope: Scope, recordId: string, flow: Flow, gate: Gate)
    requires Inv(w)
    ensures Inv(Next(w, StartRecover(c, scope, recordId, flow, gate)))
  {
    var key := RecordKey(scope, recordId);
    if c !in w.clients && !flow.Authorize? && key in w.server.tables.operations {
      ReadClientOk(w.history, w.server.tables.operations, w.sent, c, key, flow);
      NewClientKeeps(w, c, Client(flow, key, Listed(w.server.tables.operations[key]), None));
    }
  }

  lemma SendReleaseKeeps(w: World, c: nat, request: Record, expected: nat, ciphertext: string, tag: string)
    requires Inv(w)
    ensures Inv(Next(w, SendRelease(c, request, expected, ciphertext, tag)))
  {
    NormalizedKept(Normalized(request), request);
    var record := Normalized(request).(bundle := Bundle(ciphertext, w.nextNonce, tag));
    SendKeeps(w, Message(c, Release, record, expected, None));
  }

  lemma StartsKeep(w: World, step: Step)
    requires Inv(w) && (step.StartAuthorize? || step.StartRecover? || step.SendRelease?)
    ensures Inv(Next(w, step))
  {
    match step
    case StartAuthorize(c, request, exportOnly) => StartAuthorizeKeeps(w, c, request, exportOnly);
    case StartRecover(c, scope, recordId, flow, gate) => StartRecoverKeeps(w, c, scope, recordId, flow, gate);
    case SendRelease(c, request, expected, ciphertext, tag) => SendReleaseKeeps(w, c, request, expected, ciphertext, tag);
  }

  lemma ClientNextIs(w: World, step: Step)
    requires OfClient(step)
    ensures Next(w, step) == if step.client in w.clients then ClientStep(w, step, step.client) else w
  {
  }

  lemma ReleaseNextIs(w: World, message: Message, checkpoint: Checkpoint, gate: Option<Gate>)
    requires message !in w.sent || message.todo != Release
    ensures Next(w, DeliverRelease(message, checkpoint, gate)) == w
  {
  }

  lemma NextKeeps(w: World, step: Step)
    requires Inv(w)
    ensures Inv(Next(w, step))
  {
    if OfClient(step) {
      ClientNextIs(w, step);
      if step.client in w.clients { ClientStepKeeps(w, step, step.client); }
    } else if step.DeliverPut? {
      DeliverPutKeeps(w, step.task, step.message);
    } else if step.DeliverRelease? {
      if step.message in w.sent && step.message.todo == Release {
        DeliverReleaseKeeps(w, step.message, step.checkpoint, step.releaseGate);
      } else {
        ReleaseNextIs(w, step.message, step.checkpoint, step.releaseGate);
      }
    } else if step.Serve? {
      ServeKeeps(w, step.transition);
    } else {
      StartsKeep(w, step);
    }
  }

  lemma {:induction false} InvHolds(steps: seq<Step>)
    ensures Inv(Run(steps))
    decreases |steps|
  {
    if steps != [] {
      InvHolds(steps[..|steps| - 1]);
      NextKeeps(Run(steps[..|steps| - 1]), steps[|steps| - 1]);
    }
  }

  // ----- Attempts on a record -----

  lemma {:induction false} AttemptsGrow(history: map<Key, seq<Entry>>, sent: set<Message>, k: Key, i: nat, j: nat)
    requires EntriesOk(history, sent) && k in history && i <= j < |history[k]|
    ensures history[k][i].record.attemptIds <= history[k][j].record.attemptIds
    ensures history[k][i].record.signatureStarted ==> history[k][j].record.signatureStarted
    decreases j
  {
    if i < j {
      AttemptsGrow(history, sent, k, i, j - 1);
      assert EntryOk(sent, k, history[k], j);
      var a, b, c := history[k][i].record.attemptIds, history[k][j - 1].record.attemptIds, history[k][j].record.attemptIds;
      assert a == b[..|a|] && b == c[..|b|];
    }
  }

  // An attempt id enters a record once: a second append of it would find it there already.
  lemma AppendedOnce(history: map<Key, seq<Entry>>, sent: set<Message>, k: Key, i: nat, j: nat, attempt: string)
    requires EntriesOk(history, sent) && k in history && i < |history[k]| && j < |history[k]|
    requires history[k][i].message.todo == Append(attempt) && history[k][j].message.todo == Append(attempt)
    ensures i == j
  {
    assert EntryOk(sent, k, history[k], i) && EntryOk(sent, k, history[k], j);
    assert attempt in history[k][i].record.attemptIds && attempt in history[k][j].record.attemptIds;
    if i < j {
      AttemptsGrow(history, sent, k, i, j - 1);
    } else if j < i {
      AttemptsGrow(history, sent, k, j, i - 1);
    }
  }

  // What a client truly holds is carried by the durable record from then on.
  lemma KnownIsDurable(w: World, k: Key, row: Row)
    requires Inv(w) && KnownTrue(w.history, k, row)
    ensures k in w.server.tables.operations
    ensures var record := w.server.tables.operations[k].record;
      row.record.attemptIds <= record.attemptIds && (row.record.signatureStarted ==> record.signatureStarted)
  {
    AttemptsGrow(w.history, w.sent, k, row.revision - 1, |w.history[k]| - 1);
  }

  // ----- Safety over all runs -----

  predicate SubmittedOnce(submits: seq<Submission>) {
    forall i, j :: 0 <= i < j < |submits| ==> submits[i].key != submits[j].key || submits[i].attempt != submits[j].attempt
  }

  predicate Durable(operations: map<Key, Row>, e: Submission) {
    e.key in operations && e.attempt in operations[e.key].record.attemptIds
  }

  lemma SubmissionsDiffer(history: map<Key, seq<Entry>>, sent: set<Message>, clients: map<nat, Client>, submits: seq<Submission>)
    requires EntriesOk(history, sent) && SubmitsOk(history, clients, submits)
    ensures SubmittedOnce(submits)
  {
    forall i, j | 0 <= i < j < |submits|
      ensures submits[i].key != submits[j].key || submits[i].attempt != submits[j].attempt
    {
      var a, b := submits[i], submits[j];
      assert SubmissionOk(history, clients, a) && SubmissionOk(history, clients, b);
      if a.key == b.key && a.attempt == b.attempt {
        AppendedOnce(history, sent, a.key, a.revision - 1, b.revision - 1, a.attempt);
      }
    }
  }

  lemma SubmissionDurable(w: World, e: Submission)
    requires Inv(w) && SubmissionOk(w.history, w.clients, e)
    ensures Durable(w.server.tables.operations, e)
  {
    SubmittedInHistory(w.history, w.sent, w.clients, e);
    RecordMatches(w.history, w.server.tables.operations, e.key);
  }

  lemma SubmittedInHistory(history: map<Key, seq<Entry>>, sent: set<Message>, clients: map<nat, Client>, e: Submission)
    requires EntriesOk(history, sent) && SubmissionOk(history, clients, e)
    ensures e.attempt in history[e.key][|history[e.key]| - 1].record.attemptIds
  {
    var entries := history[e.key];
    assert EntryOk(sent, e.key, entries, e.revision - 1);
    AttemptsGrow(history, sent, e.key, e.revision - 1, |entries| - 1);
    assert e.attempt in entries[e.revision - 1].record.attemptIds;
  }

  // Whatever clients race, crash or lose acknowledgements: an attempt id of a record is
  // submitted at most once, and the durable record carries every id that was submitted.
  lemma SubmittedAtMostOnce(steps: seq<Step>)
    ensures SubmittedOnce(Run(steps).submits)
    ensures forall e :: e in Run(steps).submits ==> Durable(Run(steps).server.tables.operations, e)
  {
    InvHolds(steps);
    var w := Run(steps);
    SubmissionsDiffer(w.history, w.sent, w.clients, w.submits);
    forall e | e in w.submits ensures Durable(w.server.tables.operations, e) {
      var i :| 0 <= i < |w.submits| && w.submits[i] == e;
      SubmissionDurable(w, e);
    }
  }

  lemma ReadyIsDurable(w: World, c: nat)
    requires Inv(w) && c in w.clients && w.clients[c].stage.Idle? && w.clients[c].stage.todo.Submit?
    ensures Durable(w.server.tables.operations,
      Submission(c, w.clients[c].key, w.clients[c].stage.todo.attempt, w.clients[c].stage.known.revision))
  {
    ClientIsOk(w, c);
    ReadyInHistory(w.history, w.sent, c, w.clients[c]);
    RecordMatches(w.history, w.server.tables.operations, w.clients[c].key);
  }

  lemma ReadyInHistory(history: map<Key, seq<Entry>>, sent: set<Message>, c: nat, cl: Client)
    requires EntriesOk(history, sent) && ClientOk(history, sent, c, cl) && cl.stage.Idle? && cl.stage.todo.Submit?
    ensures cl.key in history && |history[cl.key]| >= 1
    ensures cl.stage.todo.attempt in history[cl.key][|history[cl.key]| - 1].record.attemptIds
  {
    var known := cl.stage.known;
    var i := known.revision - 1;
    assert EntryOk(sent, cl.key, history[cl.key], i);
    assert cl.stage.todo.attempt in history[cl.key][i].record.attemptIds;
    AttemptsGrow(history, sent, cl.key, i, |history[cl.key]| - 1);
  }

  // At the very moment of a submission, the durable record already contains its attempt id.
  lemma SubmitAfterDurable(steps: seq<Step>, step: Step)
    ensures var before, after := Run(steps), Next(Run(steps), step);
      after.submits == before.submits
      || (exists e :: after.submits == before.submits + [e] && Durable(before.server.tables.operations, e))
  {
    InvHolds(steps);
    var w := Run(steps);
    if Next(w, step).submits != w.submits {
      var e := SubmitsChange(w, step);
      ReadyIsDurable(w, e.client);
    }
  }

  lemma SubmitsChange(w: World, step: Step) returns (e: Submission)
    requires Next(w, step).submits != w.submits
    ensures e.client in w.clients && w.clients[e.client].stage.Idle? && w.clients[e.client].stage.todo.Submit?
    ensures e == Submission(e.client, w.clients[e.client].key, w.clients[e.client].stage.todo.attempt,
                            w.clients[e.client].stage.known.revision)
    ensures Next(w, step).submits == w.submits + [e]
  {
    assert step.SubmitAttempt?;
    var cl := w.clients[step.client];
    e := Submission(step.client, cl.key, cl.stage.todo.attempt, cl.stage.known.revision);
  }

  // The pool signature is asked for only after the durable record says it has been started.
  lemma SignAfterStarted(steps: seq<Step>, step: Step)
    ensures var before, after := Run(steps), Next(Run(steps), step);
      after.signings == before.signings
      || (exists s: (nat, Key) :: after.signings == before.signings + [s]
            && s.1 in before.server.tables.operations && before.server.tables.operations[s.1].record.signatureStarted)
  {
    InvHolds(steps);
    var w := Run(steps);
    if Next(w, step).signings != w.signings {
      var c := SigningsChange(w, step);
      SignerReady(w, c);
    }
  }

  lemma SigningsChange(w: World, step: Step) returns (c: nat)
    requires Next(w, step).signings != w.signings
    ensures c in w.clients && w.clients[c].stage.Idle? && w.clients[c].stage.todo.Sign?
    ensures Next(w, step).signings == w.signings + [(c, w.clients[c].key)]
  {
    assert step.SignPool?;
    c := step.client;
  }

  lemma SignerReady(w: World, c: nat)
    requires Inv(w) && c in w.clients && w.clients[c].stage.Idle? && w.clients[c].stage.todo.Sign?
    ensures w.clients[c].key in w.server.tables.operations
    ensures w.server.tables.operations[w.clients[c].key].record.signatureStarted
  {
    var cl := w.clients[c];
    assert ClientOk(w.history, w.sent, c, cl);
    KnownIsDurable(w, cl.key, cl.stage.known);
  }

  // Revision i + 1 of a record is an attempt appended by a recovery flow on evidence that was
  // exact: the attempts the record carried just before correspond one to one to the evidence,
  // each of those outcomes is settled, and no one else wrote the record between the revision
  // the evidence was read for and the append.
  ghost predicate AppendedOnExactEvidence(entries: seq<Entry>, i: nat)
    requires i < |entries|
  {
    var m := entries[i].message;
    && m.proof.Some?
    && var p := m.proof.value;
    && 1 <= p.saved.revision <= i
    && entries[p.saved.revision - 1].record == p.saved.record
    && entries[i - 1].record.attemptIds == p.saved.record.attemptIds
    && EvidenceExact(entries[i - 1].record.attemptIds, p.evidence.attempts)
    && p.evidence.finalized && !p.evidence.paymentSucceeded && p.input == InputUnspent
    && (forall j :: p.saved.revision <= j < i ==> entries[j].message.client == m.client)
  }

  lemma EntryExact(w: World, k: Key, i: nat)
    requires Inv(w) && k in w.history && i < |w.history[k]| && w.history[k][i].message.todo.Append?
    requires w.history[k][i].message.proof.Some?
    ensures AppendedOnExactEvidence(w.history[k], i)
  {
    var m := w.history[k][i].message;
    assert EntryOk(w.sent, k, w.history[k], i);
    assert MessageOk(w.history, m);
    var p := m.proof.value;
    ActionNeedsExactEvidence(p.saved.record, IsActive(p.saved), p.evidence, p.input);
  }

  // Recovery exactness, for every attempt in the history of every record.
  lemma RecoveryExact(steps: seq<Step>, k: Key, i: nat)
    requires k in Run(steps).history && i < |Run(steps).history[k]|
    requires var m := Run(steps).history[k][i].message;
      m.todo.Append? && m.client in Run(steps).clients && !Run(steps).clients[m.client].flow.Authorize?
    ensures AppendedOnExactEvidence(Run(steps).history[k], i)
  {
    InvHolds(steps);
    var w := Run(steps);
    var m := w.history[k][i].message;
    assert EntryOk(w.sent, k, w.history[k], i);
    EntryExact(w, k, i);
  }

  // A record's history: one entry for each revision, the last of them what the service stores,
  // every entry but a release written by a client of the run.
  ghost predicate IsRecordOf(history: map<Key, seq<Entry>>, operations: map<Key, Row>, clients: map<nat, Client>, k: Key) {
    && (k in history <==> k in operations)
    && (k in history ==>
          && |history[k]| == operations[k].revision >= 1
          && history[k][|history[k]| - 1].record == operations[k].record
          && forall i :: 0 <= i < |history[k]| && !history[k][i].message.todo.Release? ==> history[k][i].message.client in clients)
  }

  // The history the statements speak of is the record's own.
  lemma HistoryIsRecord(steps: seq<Step>, k: Key)
    ensures var w := Run(steps); IsRecordOf(w.history, w.server.tables.operations, w.clients, k)
  {
    InvHolds(steps);
    var w := Run(steps);
    HistoryRecord(w.history, w.server.tables.operations, w.sent, w.clients, k);
  }

  lemma HistoryRecord(history: map<Key, seq<Entry>>, operations: map<Key, Row>, sent: set<Message>, clients: map<nat, Client>, k: Key)
    requires HistoryMatches(history, operations) && EntriesOk(history, sent) && SendersOk(clients, sent)
    ensures IsRecordOf(history, operations, clients, k)
  {
    RecordMatches(history, operations, k);
    WritersKnown(history, sent, clients, k);
  }

  lemma RecordMatches(history: map<Key, seq<Entry>>, operations: map<Key, Row>, k: Key)
    requires HistoryMatches(history, operations)
    ensures k in history <==> k in operations
    ensures k in history ==> |history[k]| == operations[k].revision >= 1 && history[k][|history[k]| - 1].record == operations[k].record
  {
  }

  lemma WritersKnown(history: map<Key, seq<Entry>>, sent: set<Message>, clients: map<nat, Client>, k: Key)
    requires EntriesOk(history, sent) && SendersOk(clients, sent)
    ensures k in history ==> forall i :: 0 <= i < |history[k]| && !history[k][i].message.todo.Release? ==>
      history[k][i].message.client in clients
  {
    if k in history {
      forall i | 0 <= i < |history[k]| && !history[k][i].message.todo.Release?
        ensures history[k][i].message.client in clients
      {
        assert EntryOk(sent, k, history[k], i);
      }
    }
  }
}

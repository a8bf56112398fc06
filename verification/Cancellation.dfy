// Cancelling a signed reward (apps/uniswap-service/src/rewards/operator.ts) while other calls of the
// same functions, the finalising transaction of apps/uniswap-service/src/rewards/production.ts and
// the rest of the service run in between.
//
// One request of one deployment. Everything between two awaits is one step; a call can stop at any
// of them (a crash, or a port that throws). Encryption is the identity: what is stored is what is
// read back.
module Cancellation {
  import opened Wrappers

  datatype Status = Accepted | Queued | Processing | Pending | Unsettled | Finalized | Received | Ended

  datatype DraftPhase = Claimed | Saved | SigningStarted

  datatype Phase = DraftSaved | SignatureStarted | Signed | RawSaved
  {
    function Rank(): nat {
      match this
      case DraftSaved => 0
      case SignatureStarted => 1
      case Signed => 2
      case RawSaved => 3
    }
  }

  datatype Draft = Draft(operationId: nat, signature: Option<nat>)

  datatype Row = Row(
    phase: Phase, operationId: nat, inputId: nat, draft: Draft, raw: Option<nat>, txHash: Option<nat>, checkpoint: Option<nat>)

  datatype InputStatus = InputReserved | InputConsumed | InputReleased | InputUnknown

  // The request with its reservation, its inputs, its draft and its cancellation. `attempted` says
  // that a submission was recorded, `maintaining` that a consolidation is between signature and
  // finality; `others` are the inputs held for other requests.
  datatype Db = Db(
    status: Status, version: nat, operationId: Option<nat>, draft: Option<DraftPhase>, attempted: bool, maintaining: bool,
    released: bool, inputs: map<nat, InputStatus>, others: map<nat, InputStatus>, cancellation: Option<Row>)

  // What a call of advanceSignedCancellation, or of reconcile, holds while it waits.
  datatype Call =
    | Building(original: nat)
    | Signing(original: nat, row: Row)
    | Preparing(original: nat, row: Row)
    | Observing(original: nat, row: Row)
    | Broadcasting(original: nat, row: Row)
    | Reconciling(version: nat)
    | Done

  // `sent` lists the raw transactions broadcast so far, `seen` the statuses the request has had.
  datatype World = World(db: Db, calls: map<nat, Call>, sent: seq<nat>, seen: set<Status>)

  datatype Prepared = Prepared(raw: nat, hash: nat, nonce: int)

  datatype Observation = NothingFinal | CancellationFinal(checkpoint: nat)

  datatype Label =
    | Advance(call: nat)
    | Built(call: nat, operationId: nat, inputId: nat, draft: Draft)
    | SignedBy(call: nat, draft: Draft)
    | PreparedBy(call: nat, prepared: Prepared)
    | Observed(call: nat, observation: Observation)
    | Broadcast(call: nat)
    | Stop(call: nat)
    | EndUndistributed
    | Reconcile(call: nat)
    | FoundFinal(call: nat)
    | Elsewhere(db: Db)
    | Reorg(cancelled: bool)

  predicate Live(s: Status) {
    s == Accepted || s == Queued || s == Processing || s == Pending || s == Unsettled
  }

  function Update(w: World, db: Db): World {
    w.(db := db, seen := w.seen + {db.status})
  }

  function Put(w: World, call: nat, c: Call): World {
    w.(calls := w.calls[call := c])
  }

  // Where a call goes once it has read the row, until its next await.
  function Resume(w: World, call: nat, original: nat): World {
    if w.db.cancellation.None? then Put(w, call, Done)
    else
      var row := w.db.cancellation.value;
      match row.phase
      case DraftSaved =>
        var started := row.(phase := SignatureStarted);
        Put(Update(w, w.db.(cancellation := Some(started))), call,
            if row.draft.operationId != row.operationId then Done else Signing(original, started))
      case SignatureStarted => Put(w, call, if row.draft.operationId != row.operationId then Done else Signing(original, row))
      case Signed => Put(w, call, Preparing(original, row))
      case RawSaved => Put(w, call, if row.raw.None? || row.txHash.None? then Done else Observing(original, row))
  }

  // After a guarded update: later phases go on, anything else is a conflict.
  function ResumeFrom(w: World, call: nat, original: nat, phase: Phase): World {
    if w.db.cancellation.None? || w.db.cancellation.value.phase.Rank() < phase.Rank() then Put(w, call, Done)
    else Resume(w, call, original)
  }

  // The service hashes what it is about to send; `hash` is that function.
  datatype Chain = Chain(hash: nat -> nat)

  // A call that waits where it must not, or a label that does not fit, changes nothing.
  function Next(chain: Chain, w: World, l: Label): World {
    match l
    case Advance(call) =>
      if call in w.calls || !Live(w.db.status) || w.db.draft != Some(SigningStarted) || w.db.operationId.None? then w
      else if w.db.cancellation.None? then Put(w, call, Building(w.db.operationId.value))
      else Resume(w, call, w.db.operationId.value)
    case Built(call, operationId, inputId, draft) =>
      if call !in w.calls || !w.calls[call].Building? then w
      else if w.db.cancellation.Some? then Put(w, call, Done)
      else
        var row := Row(DraftSaved, operationId, inputId, draft, None, None, None);
        Resume(Update(w, w.db.(cancellation := Some(row))), call, w.calls[call].original)
    case SignedBy(call, draft) =>
      if call !in w.calls || !w.calls[call].Signing? then w
      else if draft.operationId != w.calls[call].row.operationId || draft.signature.None? || w.db.cancellation.None? then Put(w, call, Done)
      else
        var row := w.db.cancellation.value;
        var saved := if row.phase == SignatureStarted then row.(phase := Signed, draft := draft) else row;
        ResumeFrom(Update(w, w.db.(cancellation := Some(saved))), call, w.calls[call].original, Signed)
    case PreparedBy(call, prepared) =>
      if call !in w.calls || !w.calls[call].Preparing? then w
      else
        var held := w.calls[call].row;
        if held.draft.operationId != held.operationId || held.draft.signature.None? || chain.hash(prepared.raw) != prepared.hash
          || !(0 <= prepared.nonce <= 0x1F_FFFF_FFFF_FFFF) || w.db.cancellation.None? then Put(w, call, Done)
        else
          var row := w.db.cancellation.value;
          var saved := if row.phase == Signed then row.(phase := RawSaved, raw := Some(prepared.raw), txHash := Some(prepared.hash)) else row;
          ResumeFrom(Update(w, w.db.(cancellation := Some(saved))), call, w.calls[call].original, RawSaved)
    case Observed(call, observation) =>
      if call !in w.calls || !w.calls[call].Observing? then w
      else
        (match observation
         case NothingFinal => Put(w, call, Broadcasting(w.calls[call].original, w.calls[call].row))
         case CancellationFinal(checkpoint) => Put(Finish(w, w.calls[call].original, w.calls[call].row, checkpoint), call, Done))
    case Broadcast(call) =>
      if call !in w.calls || !w.calls[call].Broadcasting? then w
      else
        var row := w.calls[call].row;
        if row.raw.None? || row.txHash.None? || chain.hash(row.raw.value) != row.txHash.value then Put(w, call, Done)
        else Put(w.(sent := w.sent + [row.raw.value]), call, Done)
    case Stop(call) => if call in w.calls then Put(w, call, Done) else w
    case EndUndistributed => if MayEnd(w.db) then Update(w, EndDb(w.db)) else w
    case Reconcile(call) => if call in w.calls || w.db.operationId.None? then w else Put(w, call, Reconciling(w.db.version))
    case FoundFinal(call) =>
      if call !in w.calls || !w.calls[call].Reconciling? then w
      else Put(if w.db.version == w.calls[call].version && (w.db.status == Pending || w.db.status == Unsettled)
               then Update(w, FinalDb(w.db)) else w, call, Done)
    case Elsewhere(db) => if ElsewhereOk(w.db, db) then Update(w, db) else w
    case Reorg(cancelled) => if Reopened(w.db.status, cancelled) then Update(w, ReorgDb(w.db)) else w
  }

  // invalidateAfterReorg, for the request itself: `cancelled` when it is its cancellation, or a
  // consolidation for it, that is no longer on the chain.
  predicate Reopened(status: Status, cancelled: bool) {
    if status == Ended || status == Accepted || status == Queued then cancelled else true
  }

  function ReorgDb(db: Db): Db {
    db.(status := Unsettled, version := db.version + 1, released := false, inputs := AllInputs(db.inputs, InputUnknown))
  }

  function AllInputs(inputs: map<nat, InputStatus>, status: InputStatus): map<nat, InputStatus> {
    map id | id in inputs :: status
  }

  // endUndistributedReward
  predicate MayEnd(db: Db) {
    && db.draft != Some(SigningStarted) && !db.attempted && db.status != Pending && !db.maintaining
    && (db.status == Accepted || db.status == Queued || db.status == Processing || db.status == Unsettled)
    && (db.status == Processing ==> db.draft.Some?)
  }

  function EndDb(db: Db): Db {
    db.(status := Ended, version := db.version + 1, released := true, inputs := AllInputs(db.inputs, InputReleased))
  }

  // The finalising transaction of reconcile.
  function FinalDb(db: Db): Db {
    db.(status := Finalized, version := db.version + 1, released := true, inputs := AllInputs(db.inputs, InputConsumed))
  }

  // The transaction of a finalized cancellation.
  function Finish(w: World, original: nat, row: Row, checkpoint: nat): World {
    if w.db.operationId != Some(original)
      || !(w.db.status == Pending || w.db.status == Unsettled || w.db.status == Processing) || w.db.cancellation.None? then w
    else
      Update(w, w.db.(
        status := Ended, version := w.db.version + 1, released := true,
        inputs := map id | id in w.db.inputs :: if id == row.inputId then InputConsumed else InputReleased,
      others := if row.inputId in w.db.others then w.db.others[row.inputId := InputConsumed] else w.db.others,
        cancellation := Some(w.db.cancellation.value.(checkpoint := Some(checkpoint)))))
  }

  // What the rest of the service may do to the request: live statuses change among themselves, a
  // finalized reward is marked received, an operation id is set once, versions never fall.
  predicate ElsewhereOk(before: Db, after: Db) {
    && (before.status == after.status || (Live(before.status) && Live(after.status)) || (before.status == Finalized && after.status == Received))
    && after.version >= before.version
    && (before.operationId.Some? ==> after.operationId == before.operationId)
    && after.released == before.released && after.cancellation == before.cancellation
  }

  function Run(chain: Chain, w: World, labels: seq<Label>): World {
    if labels == [] then w else Next(chain, Run(chain, w, labels[..|labels| - 1]), labels[|labels| - 1])
  }

  predicate Initial(w: World) {
    Live(w.db.status) && !w.db.released && w.db.cancellation.None? && w.calls == map[] && w.sent == [] && w.seen == {w.db.status}
  }

  // ----- One step -----

  // The cancellation only moves on: its identity stays, its phase never goes back, its raw
  // transaction is written once.
  ghost predicate MovesOn(before: Option<Row>, after: Option<Row>) {
    before.Some? ==>
      && after.Some? && after.value.operationId == before.value.operationId && after.value.inputId == before.value.inputId
      && before.value.phase.Rank() <= after.value.phase.Rank()
      && (before.value.raw.Some? ==> after.value.raw == before.value.raw && after.value.txHash == before.value.txHash)
  }

  // A raw transaction is stored exactly in the last phase.
  ghost predicate RowSound(chain: Chain, row: Row) {
    && (row.raw.Some? <==> row.phase == RawSaved)
    && (row.raw.Some? <==> row.txHash.Some?)
    && (row.raw.Some? ==> row.txHash.value == chain.hash(row.raw.value))
    && (row.phase.Rank() >= 2 ==> row.draft.operationId == row.operationId && row.draft.signature.Some?)
  }

  // What a waiting call holds was read from the row and is still true of it where it matters.
  ghost predicate CallSound(db: Db, c: Call) {
    (c.Signing? || c.Preparing? || c.Observing? || c.Broadcasting?) ==>
      && db.cancellation.Some?
      && MovesOn(Some(c.row), db.cancellation)
      && (c.Signing? ==> c.row.phase == SignatureStarted)
      && (c.Preparing? ==> c.row.phase == Signed && c.row.draft.signature.Some?)
      && (c.Observing? || c.Broadcasting? ==> c.row.phase == RawSaved && c.row.raw.Some?)
  }

  ghost predicate Inv(chain: Chain, w: World) {
    && (w.db.cancellation.Some? ==> RowSound(chain, w.db.cancellation.value))
    && (forall call :: call in w.calls ==> CallSound(w.db, w.calls[call]))
    && OnlyStoredSent(w)
  }

  ghost predicate OnlyStoredSent(w: World) {
    forall raw :: raw in w.sent ==> w.db.cancellation.Some? && w.db.cancellation.value.raw == Some(raw)
  }

  lemma MovesOnTrans(a: Option<Row>, b: Option<Row>, c: Option<Row>)
    requires MovesOn(a, b) && MovesOn(b, c)
    ensures MovesOn(a, c)
  {
  }

  // What a step may do, apart from the calls.
  ghost predicate StepSound(chain: Chain, before: Db, after: Db) {
    MovesOn(before.cancellation, after.cancellation) && (after.cancellation.Some? ==> RowSound(chain, after.cancellation.value))
  }

  lemma CallsStaySound(chain: Chain, before: Db, after: Db, c: Call)
    requires StepSound(chain, before, after) && CallSound(before, c)
    ensures CallSound(after, c)
  {
    if c.Signing? || c.Preparing? || c.Observing? || c.Broadcasting? {
      MovesOnTrans(Some(c.row), before.cancellation, after.cancellation);
    }
  }

  ghost predicate SentStored(before: World, after: World) {
    && after.db == before.db && before.db.cancellation.Some? && before.db.cancellation.value.raw.Some?
    && after.sent == before.sent + [before.db.cancellation.value.raw.value]
  }

  lemma InvStep(chain: Chain, before: World, after: World)
    requires Inv(chain, before) && StepSound(chain, before.db, after.db)
    requires forall call :: call in after.calls ==>
      CallSound(after.db, after.calls[call]) || (call in before.calls && after.calls[call] == before.calls[call])
    requires after.sent == before.sent || SentStored(before, after)
    ensures Inv(chain, after)
  {
    forall call | call in after.calls ensures CallSound(after.db, after.calls[call]) {
      if call in before.calls && after.calls[call] == before.calls[call] {
        CallsStaySound(chain, before.db, after.db, before.calls[call]);
      }
    }
    SentStays(chain, before, after);
  }

  lemma SentStays(chain: Chain, before: World, after: World)
    requires OnlyStoredSent(before) && MovesOn(before.db.cancellation, after.db.cancellation)
    requires after.sent == before.sent || SentStored(before, after)
    ensures OnlyStoredSent(after)
  {
  }

  lemma ResumeSteps(chain: Chain, w: World, call: nat, original: nat)
    requires w.db.cancellation.Some? ==> RowSound(chain, w.db.cancellation.value)
    ensures StepSound(chain, w.db, Resume(w, call, original).db) && Resume(w, call, original).sent == w.sent
  {
  }

  lemma ResumeCalls(chain: Chain, w: World, call: nat, original: nat)
    requires w.db.cancellation.Some? ==> RowSound(chain, w.db.cancellation.value)
    ensures var after := Resume(w, call, original);
      && call in after.calls && after.calls == w.calls[call := after.calls[call]] && CallSound(after.db, after.calls[call])
  {
  }

  lemma ResumeSound(chain: Chain, w: World, call: nat, original: nat)
    requires w.db.cancellation.Some? ==> RowSound(chain, w.db.cancellation.value)
    ensures var after := Resume(w, call, original);
      && StepSound(chain, w.db, after.db) && after.sent == w.sent
      && after.calls.Keys == w.calls.Keys + {call} && CallSound(after.db, after.calls[call])
      && (forall other :: other in w.calls && other != call ==> after.calls[other] == w.calls[other])
  {
    ResumeSteps(chain, w, call, original);
    ResumeCalls(chain, w, call, original);
  }

  // Each step that writes the row before it resumes.
  lemma WriteSound(chain: Chain, w: World, row: Row, call: nat, original: nat, phase: Phase)
    requires Inv(chain, w) && RowSound(chain, row) && MovesOn(w.db.cancellation, Some(row))
    ensures Inv(chain, Resume(Update(w, w.db.(cancellation := Some(row))), call, original))
    ensures Inv(chain, ResumeFrom(Update(w, w.db.(cancellation := Some(row))), call, original, phase))
    ensures MovesOn(w.db.cancellation, Resume(Update(w, w.db.(cancellation := Some(row))), call, original).db.cancellation)
    ensures MovesOn(w.db.cancellation, ResumeFrom(Update(w, w.db.(cancellation := Some(row))), call, original, phase).db.cancellation)
  {
    var written := Update(w, w.db.(cancellation := Some(row)));
    InvStep(chain, w, written);
    ResumeSound(chain, written, call, original);
    var after := Resume(written, call, original);
    MovesOnTrans(w.db.cancellation, written.db.cancellation, after.db.cancellation);
    InvStep(chain, written, after);
    InvStep(chain, written, Put(written, call, Done));
  }

  lemma NextKeeps(chain: Chain, w: World, l: Label)
    requires Inv(chain, w)
    ensures Inv(chain, Next(chain, w, l)) && MovesOn(w.db.cancellation, Next(chain, w, l).db.cancellation)
  {
    match l
    case Advance(call) => AdvanceKeeps(chain, w, call);
    case Built(call, operationId, inputId, draft) => BuiltKeeps(chain, w, l);
    case SignedBy(call, draft) => SignedKeeps(chain, w, call, draft);
    case PreparedBy(call, prepared) => PreparedKeeps(chain, w, call, prepared);
    case Observed(call, observation) => ObservedKeeps(chain, w, call, observation);
    case Broadcast(call) => BroadcastKeeps(chain, w, call);
    case _ => OtherKeeps(chain, w, l);
  }

  lemma AdvanceKeeps(chain: Chain, w: World, call: nat)
    requires Inv(chain, w)
    ensures var after := Next(chain, w, Advance(call)); Inv(chain, after) && MovesOn(w.db.cancellation, after.db.cancellation)
  {
    if w.db.operationId.Some? {
      ResumeSound(chain, w, call, w.db.operationId.value);
      InvStep(chain, w, Resume(w, call, w.db.operationId.value));
      InvStep(chain, w, Put(w, call, Building(w.db.operationId.value)));
    }
  }

  lemma BuiltKeeps(chain: Chain, w: World, l: Label)
    requires Inv(chain, w) && l.Built?
    ensures Inv(chain, Next(chain, w, l)) && MovesOn(w.db.cancellation, Next(chain, w, l).db.cancellation)
  {
    InvStep(chain, w, Put(w, l.call, Done));
    if w.db.cancellation.None? && l.call in w.calls && w.calls[l.call].Building? {
      WriteSound(chain, w, Row(DraftSaved, l.operationId, l.inputId, l.draft, None, None, None), l.call,
                 w.calls[l.call].original, DraftSaved);
    }
  }

  // The steps of the other transactions leave the cancellation alone and hold no row of it.
  lemma OtherKeeps(chain: Chain, w: World, l: Label)
    requires Inv(chain, w)
    requires l.Stop? || l.EndUndistributed? || l.Reconcile? || l.FoundFinal? || l.Elsewhere? || l.Reorg?
    ensures Inv(chain, Next(chain, w, l)) && MovesOn(w.db.cancellation, Next(chain, w, l).db.cancellation)
  {
    OtherSteps(chain, w, l);
    InvStep(chain, w, Next(chain, w, l));
  }

  lemma OtherSteps(chain: Chain, w: World, l: Label)
    requires l.Stop? || l.EndUndistributed? || l.Reconcile? || l.FoundFinal? || l.Elsewhere? || l.Reorg?
    ensures var after := Next(chain, w, l);
      && after.db.cancellation == w.db.cancellation && after.sent == w.sent
      && forall call :: call in after.calls ==>
        CallSound(after.db, after.calls[call]) || (call in w.calls && after.calls[call] == w.calls[call])
  {
  }

  lemma SignedKeeps(chain: Chain, w: World, call: nat, draft: Draft)
    requires Inv(chain, w)
    ensures var after := Next(chain, w, SignedBy(call, draft)); Inv(chain, after) && MovesOn(w.db.cancellation, after.db.cancellation)
  {
    InvStep(chain, w, Put(w, call, Done));
    if call in w.calls && w.calls[call].Signing? && draft.operationId == w.calls[call].row.operationId && draft.signature.Some? {
      var row := w.db.cancellation.value;
      assert CallSound(w.db, w.calls[call]);
      var saved := if row.phase == SignatureStarted then row.(phase := Signed, draft := draft) else row;
      WriteSound(chain, w, saved, call, w.calls[call].original, Signed);
    }
  }

  lemma PreparedKeeps(chain: Chain, w: World, call: nat, prepared: Prepared)
    requires Inv(chain, w)
    ensures var after := Next(chain, w, PreparedBy(call, prepared)); Inv(chain, after) && MovesOn(w.db.cancellation, after.db.cancellation)
  {
    InvStep(chain, w, Put(w, call, Done));
    if call in w.calls && w.calls[call].Preparing? && chain.hash(prepared.raw) == prepared.hash {
      assert CallSound(w.db, w.calls[call]);
      var row := w.db.cancellation.value;
      var saved := if row.phase == Signed then row.(phase := RawSaved, raw := Some(prepared.raw), txHash := Some(prepared.hash)) else row;
      WriteSound(chain, w, saved, call, w.calls[call].original, RawSaved);
    }
  }

  lemma ObservedKeeps(chain: Chain, w: World, call: nat, observation: Observation)
    requires Inv(chain, w)
    ensures var after := Next(chain, w, Observed(call, observation)); Inv(chain, after) && MovesOn(w.db.cancellation, after.db.cancellation)
  {
    if call in w.calls && w.calls[call].Observing? {
      assert CallSound(w.db, w.calls[call]);
      InvStep(chain, w, Next(chain, w, Observed(call, observation)));
    }
  }

  lemma BroadcastKeeps(chain: Chain, w: World, call: nat)
    requires Inv(chain, w)
    ensures var after := Next(chain, w, Broadcast(call)); Inv(chain, after) && after.db == w.db
  {
    InvStep(chain, w, Put(w, call, Done));
    if call in w.calls && w.calls[call].Broadcasting? {
      assert CallSound(w.db, w.calls[call]);
      InvStep(chain, w, Next(chain, w, Broadcast(call)));
    }
  }

  // ----- Whole runs -----

  lemma {:induction false} InvHolds(chain: Chain, w: World, labels: seq<Label>)
    requires Initial(w)
    ensures Inv(chain, Run(chain, w, labels))
  {
    if labels != [] {
      InvHolds(chain, w, labels[..|labels| - 1]);
      NextKeeps(chain, Run(chain, w, labels[..|labels| - 1]), labels[|labels| - 1]);
    }
  }

  // From any point of a run to any later one the cancellation only moves on.
  lemma {:induction false} PhaseForward(chain: Chain, w: World, labels: seq<Label>, n: nat)
    requires Initial(w) && n <= |labels|
    ensures MovesOn(Run(chain, w, labels[..n]).db.cancellation, Run(chain, w, labels).db.cancellation)
    decreases |labels| - n
  {
    if n == |labels| {
      assert labels[..n] == labels;
    } else {
      InvHolds(chain, w, labels[..n]);
      NextKeeps(chain, Run(chain, w, labels[..n]), labels[n]);
      assert labels[..n + 1][..n] == labels[..n];
      PhaseForward(chain, w, labels, n + 1);
      MovesOnTrans(Run(chain, w, labels[..n]).db.cancellation, Run(chain, w, labels[..n + 1]).db.cancellation,
                   Run(chain, w, labels).db.cancellation);
    }
  }

  // Every broadcast of a run, by whichever call, sends the one raw transaction that is stored.
  lemma OneRaw(chain: Chain, w: World, labels: seq<Label>)
    requires Initial(w)
    ensures OnlyStoredSent(Run(chain, w, labels))
    ensures var sent := Run(chain, w, labels).sent; forall a, b :: a in sent && b in sent ==> a == b
  {
    InvHolds(chain, w, labels);
  }

  // ----- The outcome -----

  // A reorganisation that finds the request settled and opens it again.
  predicate Reopens(w: World, l: Label) {
    l.Reorg? && !Live(w.db.status) && Reopened(w.db.status, l.cancelled)
  }

  predicate NeverReopened(chain: Chain, w: World, labels: seq<Label>) {
    labels == [] ||
    var before := labels[..|labels| - 1];
    NeverReopened(chain, w, before) && !Reopens(Run(chain, w, before), labels[|labels| - 1])
  }

  // Paid out, or ended; either one for good, with the reservation released.
  ghost predicate Outcome(w: World) {
    && w.db.status in w.seen
    && (w.db.released <==> !Live(w.db.status))
    && (w.db.status == Ended <==> Ended in w.seen)
    && (w.db.status == Finalized || w.db.status == Received <==> Finalized in w.seen || Received in w.seen)
  }

  // How one step may change the status: among live ones, from live to settled with the reservation
  // released, from finalized to received.
  ghost predicate StatusMoves(before: Db, after: Db) {
    || (after.status == before.status && after.released == before.released)
    || (Live(before.status) && Live(after.status) && after.released == before.released)
    || (before.status == Finalized && after.status == Received && after.released == before.released)
    || (Live(before.status) && !Live(after.status) && after.released)
  }

  ghost predicate Settles(before: World, after: World) {
    && StatusMoves(before.db, after.db)
    && (forall s :: s in after.seen <==> s in before.seen || s == after.db.status)
  }

  lemma SettlesOutcome(before: World, after: World)
    requires Outcome(before) && Settles(before, after)
    ensures Outcome(after) && (!Live(before.db.status) ==> !Live(after.db.status))
  {
  }

  // Resuming a call leaves the request as it is.
  lemma ResumeSettles(w: World, call: nat, original: nat, phase: Phase, row: Row)
    requires w.db.status in w.seen
    ensures Settles(w, Resume(w, call, original))
    ensures Settles(w, Resume(Update(w, w.db.(cancellation := Some(row))), call, original))
    ensures Settles(w, ResumeFrom(Update(w, w.db.(cancellation := Some(row))), call, original, phase))
  {
    var v := Update(w, w.db.(cancellation := Some(row)));
    ResumeStays(w, call, original);
    ResumeStays(v, call, original);
    StaysSettles(w, w, Resume(w, call, original));
    StaysSettles(w, v, Resume(v, call, original));
    StaysSettles(w, v, Put(v, call, Done));
  }

  // Everything of the request but its cancellation.
  predicate Stays(w: World, v: World) {
    v.db == w.db.(cancellation := v.db.cancellation) && v.seen == w.seen
  }

  lemma ResumeStays(w: World, call: nat, original: nat)
    requires w.db.status in w.seen
    ensures Stays(w, Resume(w, call, original))
  {
  }

  lemma StaysSettles(w: World, v: World, after: World)
    requires w.db.status in w.seen && Stays(w, v) && Stays(v, after)
    ensures Settles(w, after)
  {
  }

  lemma NextSettles(chain: Chain, w: World, l: Label)
    requires w.db.status in w.seen && !l.Reorg?
    ensures Settles(w, Next(chain, w, l))
  {
    match l
    case Advance(call) =>
      if w.db.operationId.Some? && w.db.cancellation.Some? {
        ResumeSettles(w, call, w.db.operationId.value, DraftSaved, w.db.cancellation.value);
      }
    case Built(call, operationId, inputId, draft) =>
      if call in w.calls && w.calls[call].Building? {
        ResumeSettles(w, call, w.calls[call].original, DraftSaved, Row(DraftSaved, operationId, inputId, draft, None, None, None));
      }
    case SignedBy(call, draft) => SignedSettles(chain, w, call, draft);
    case PreparedBy(call, prepared) => PreparedSettles(chain, w, call, prepared);
    case _ =>
  }

  lemma SignedSettles(chain: Chain, w: World, call: nat, draft: Draft)
    requires w.db.status in w.seen
    ensures Settles(w, Next(chain, w, SignedBy(call, draft)))
  {
    if call in w.calls && w.calls[call].Signing? && w.db.cancellation.Some? {
      var row := w.db.cancellation.value;
      var saved := if row.phase == SignatureStarted then row.(phase := Signed, draft := draft) else row;
      ResumeSettles(w, call, w.calls[call].original, Signed, saved);
    }
  }

  lemma PreparedSettles(chain: Chain, w: World, call: nat, prepared: Prepared)
    requires w.db.status in w.seen
    ensures Settles(w, Next(chain, w, PreparedBy(call, prepared)))
  {
    if call in w.calls && w.calls[call].Preparing? && w.db.cancellation.Some? {
      var row := w.db.cancellation.value;
      var saved := if row.phase == Signed then row.(phase := RawSaved, raw := Some(prepared.raw), txHash := Some(prepared.hash)) else row;
      ResumeSettles(w, call, w.calls[call].original, RawSaved, saved);
    }
  }

  lemma OutcomeStep(chain: Chain, w: World, l: Label)
    requires Outcome(w) && !Reopens(w, l)
    ensures Outcome(Next(chain, w, l))
    ensures !Live(w.db.status) ==> !Live(Next(chain, w, l).db.status)
  {
    if !l.Reorg? { NextSettles(chain, w, l); }
    assert Settles(w, Next(chain, w, l));
    SettlesOutcome(w, Next(chain, w, l));
  }

  // As long as no reorganisation reopens it, a request is finalized or ended but never both,
  // whatever calls interleave and whatever reorganisations find it live.
  lemma {:induction false} OneOutcome(chain: Chain, w: World, labels: seq<Label>)
    requires Initial(w) && NeverReopened(chain, w, labels)
    ensures Outcome(Run(chain, w, labels))
    ensures !(Ended in Run(chain, w, labels).seen && (Finalized in Run(chain, w, labels).seen || Received in Run(chain, w, labels).seen))
  {
    if labels != [] {
      var n := |labels| - 1;
      OneOutcome(chain, w, labels[..n]);
      OutcomeStep(chain, Run(chain, w, labels[..n]), labels[n]);
    }
  }

  // A settled request becomes live again in exactly one kind of step.
  lemma ReopensExactly(chain: Chain, w: World, l: Label)
    requires !Live(w.db.status) && w.db.status in w.seen
    ensures Live(Next(chain, w, l).db.status) <==> Reopens(w, l)
  {
    if !l.Reorg? { NextSettles(chain, w, l); }
  }

  // ----- The reservation, over every run -----

  ghost predicate Held(w: World) {
    w.db.status in w.seen && (w.db.released <==> !Live(w.db.status))
  }

  // Over every run, reorganisations included, a request is live exactly as long as its reservation
  // is held.
  lemma {:induction false} ReservationHeld(chain: Chain, w: World, labels: seq<Label>)
    requires Initial(w)
    ensures Held(Run(chain, w, labels))
  {
    if labels != [] {
      var n := |labels| - 1;
      var before, l := Run(chain, w, labels[..n]), labels[n];
      ReservationHeld(chain, w, labels[..n]);
      if !l.Reorg? { NextSettles(chain, before, l); }
    }
  }

  // Only three transactions settle a live request.
  lemma SettledBy(chain: Chain, w: World, l: Label)
    requires Live(w.db.status) && !Live(Next(chain, w, l).db.status)
    ensures l.Observed? || l.EndUndistributed? || l.FoundFinal?
  {
  }

  // They release its reservation and its inputs in the same step.
  lemma ReleasedTogether(chain: Chain, w: World, l: Label)
    requires Live(w.db.status)
    ensures var after := Next(chain, w, l).db;
      !Live(after.status) ==>
        && after.released && after.inputs.Keys == w.db.inputs.Keys
        && forall id :: id in after.inputs ==> after.inputs[id] == InputConsumed || after.inputs[id] == InputReleased
  {
    if !Live(Next(chain, w, l).db.status) { SettledBy(chain, w, l); }
  }

  // A settling step touches other requests' inputs in one place at most: the input of the final
  // cancellation is consumed, whichever request holds it.
  lemma OthersKept(chain: Chain, w: World, l: Label)
    requires Live(w.db.status) && !Live(Next(chain, w, l).db.status)
    ensures var others := Next(chain, w, l).db.others;
      || others == w.db.others
      || (l.Observed? && l.call in w.calls && w.calls[l.call].Observing? && w.calls[l.call].row.inputId in w.db.others
          && others == w.db.others[w.calls[l.call].row.inputId := InputConsumed])
  {
    if !l.Observed? { OthersUntouched(chain, w, l); }
  }

  lemma OthersUntouched(chain: Chain, w: World, l: Label)
    requires !l.Observed? && Live(w.db.status) && !Live(Next(chain, w, l).db.status)
    ensures Next(chain, w, l).db.others == w.db.others
  {
  }

  // At every step of every run in which the request turns from live to settled, the reservation is
  // held before and released after, and every input turns consumed or released.
  lemma SettledTogether(chain: Chain, w: World, labels: seq<Label>, i: nat)
    requires Initial(w) && i < |labels|
    requires Live(Run(chain, w, labels[..i]).db.status) && !Live(Run(chain, w, labels[..i + 1]).db.status)
    ensures var before, after := Run(chain, w, labels[..i]).db, Run(chain, w, labels[..i + 1]).db;
      && !before.released && after.released && after.inputs.Keys == before.inputs.Keys
      && forall id :: id in after.inputs ==> after.inputs[id] == InputConsumed || after.inputs[id] == InputReleased
  {
    assert labels[..i + 1][..i] == labels[..i];
    ReservationHeld(chain, w, labels[..i]);
    ReleasedTogether(chain, Run(chain, w, labels[..i]), labels[i]);
  }

  // ----- Which steps settle a request, and how -----

  // A call sees the cancellation of this request final, while the request can still be cancelled.
  predicate CancelSeen(w: World, l: Label) {
    && l.Observed? && l.observation.CancellationFinal? && l.call in w.calls && w.calls[l.call].Observing?
    && w.db.operationId == Some(w.calls[l.call].original) && w.db.cancellation.Some?
    && (w.db.status == Pending || w.db.status == Unsettled || w.db.status == Processing)
  }

  // The request is ended before anything was signed or submitted for it.
  predicate EndedUnsent(w: World, l: Label) {
    && l.EndUndistributed? && w.db.draft != Some(SigningStarted) && !w.db.attempted && !w.db.maintaining
    && (w.db.status == Accepted || w.db.status == Queued || w.db.status == Unsettled
        || (w.db.status == Processing && w.db.draft.Some?))
  }

  // A reconcile finds the reward's own operation final, on the version it read.
  predicate PaidSeen(w: World, l: Label) {
    && l.FoundFinal? && l.call in w.calls && w.calls[l.call].Reconciling? && w.calls[l.call].version == w.db.version
    && (w.db.status == Pending || w.db.status == Unsettled)
  }

  predicate AllAre(inputs: map<nat, InputStatus>, status: InputStatus) {
    forall id :: id in inputs ==> inputs[id] == status
  }

  // A live request is settled by exactly these steps: it ends with its cancellation, whose input is
  // consumed and the others released; it ends with all inputs released; or it is finalized with all
  // inputs consumed.
  lemma SettlesWhen(chain: Chain, w: World, l: Label)
    requires Live(w.db.status)
    ensures !Live(Next(chain, w, l).db.status) <==> CancelSeen(w, l) || EndedUnsent(w, l) || PaidSeen(w, l)
  {
    if !Live(Next(chain, w, l).db.status) { SettledBy(chain, w, l); }
  }

  lemma SettlesExactly(chain: Chain, w: World, l: Label)
    requires Live(w.db.status)
    ensures var after := Next(chain, w, l).db;
      && (!Live(after.status) <==> CancelSeen(w, l) || EndedUnsent(w, l) || PaidSeen(w, l))
      && (!Live(after.status) ==> after.released && after.version == w.db.version + 1 && after.inputs.Keys == w.db.inputs.Keys)
      && (CancelSeen(w, l) ==>
            var spent := w.calls[l.call].row.inputId;
            && after.status == Ended
            && (forall id :: id in after.inputs ==> after.inputs[id] == if id == spent then InputConsumed else InputReleased)
            && after.others == (if spent in w.db.others then w.db.others[spent := InputConsumed] else w.db.others)
            && after.cancellation == Some(w.db.cancellation.value.(checkpoint := Some(l.observation.checkpoint))))
      && (EndedUnsent(w, l) ==>
            after.status == Ended && AllAre(after.inputs, InputReleased) && after.others == w.db.others && after.cancellation == w.db.cancellation)
      && (PaidSeen(w, l) ==>
            after.status == Finalized && AllAre(after.inputs, InputConsumed) && after.others == w.db.others && after.cancellation == w.db.cancellation)
  {
    SettlesWhen(chain, w, l);
  }

  // A reorganisation that hits the request reserves it again, with inputs whose state is not known.
  lemma ReorgReserves(chain: Chain, w: World, l: Label)
    requires l.Reorg?
    ensures var after := Next(chain, w, l).db;
      if !l.cancelled && (w.db.status == Ended || w.db.status == Accepted || w.db.status == Queued) then after == w.db
      else
        && after.status == Unsettled && !after.released && after.version == w.db.version + 1
        && after.inputs.Keys == w.db.inputs.Keys && AllAre(after.inputs, InputUnknown)
        && after.cancellation == w.db.cancellation && after.others == w.db.others && after.operationId == w.db.operationId
  {
  }

  // ----- What a call writes and sends -----

  // A call starts exactly on a live request whose own signature has been started: it builds a
  // cancellation when there is none, and goes on with the one there is.
  lemma CallStarts(chain: Chain, w: World, call: nat)
    requires call !in w.calls
    ensures var after := Next(chain, w, Advance(call));
      && (call in after.calls <==> Live(w.db.status) && w.db.draft == Some(SigningStarted) && w.db.operationId.Some?)
      && (call in after.calls && w.db.cancellation.None? ==> after == Put(w, call, Building(w.db.operationId.value)))
      && (call in after.calls && w.db.cancellation.Some? ==>
            && !after.calls[call].Building? && after.sent == w.sent && after.db.cancellation.Some?
            && after.db == w.db.(cancellation := after.db.cancellation)
            && after.db.cancellation.value ==
                 if w.db.cancellation.value.phase == DraftSaved then w.db.cancellation.value.(phase := SignatureStarted)
                 else w.db.cancellation.value)
      && (call !in after.calls ==> after == w)
  {
  }

  // What was built is stored, with its signature started, exactly when no cancellation is there yet.
  lemma DraftStored(chain: Chain, w: World, l: Label)
    requires l.Built? && l.call in w.calls && w.calls[l.call].Building?
    ensures var after := Next(chain, w, l).db;
      after == if w.db.cancellation.Some? then w.db
               else w.db.(cancellation := Some(Row(SignatureStarted, l.operationId, l.inputId, l.draft, None, None, None)))
  {
  }

  // A signature is stored exactly when it is one, for the operation the call holds; and only where
  // none is stored yet.
  lemma SignatureStored(chain: Chain, w: World, call: nat, draft: Draft)
    requires call in w.calls && w.calls[call].Signing? && w.db.cancellation.Some?
    ensures var before, after := w.db.cancellation.value, Next(chain, w, SignedBy(call, draft)).db.cancellation.value;
      after == if before.phase == SignatureStarted && draft.operationId == w.calls[call].row.operationId && draft.signature.Some?
               then before.(phase := Signed, draft := draft) else before
  {
  }

  // A raw transaction is stored exactly when it hashes to what was reported, under a nonce that is
  // one, for a signed cancellation; and only where none is stored yet.
  lemma RawStored(chain: Chain, w: World, call: nat, prepared: Prepared)
    requires call in w.calls && w.calls[call].Preparing? && w.db.cancellation.Some?
    ensures var held, before := w.calls[call].row, w.db.cancellation.value;
      Next(chain, w, PreparedBy(call, prepared)).db.cancellation ==
        if before.phase == Signed && held.draft.operationId == held.operationId && held.draft.signature.Some?
           && chain.hash(prepared.raw) == prepared.hash && 0 <= prepared.nonce <= 0x1F_FFFF_FFFF_FFFF
        then Some(before.(phase := RawSaved, raw := Some(prepared.raw), txHash := Some(prepared.hash)))
        else Some(before)
  {
  }

  // A call sends exactly when it waits to broadcast a raw transaction that hashes to its record.
  lemma SendsExactly(chain: Chain, w: World, l: Label)
    ensures var after := Next(chain, w, l);
      var sends := l.Broadcast? && l.call in w.calls && w.calls[l.call].Broadcasting?
        && w.calls[l.call].row.raw.Some? && w.calls[l.call].row.txHash == Some(chain.hash(w.calls[l.call].row.raw.value));
      after.sent == if sends then w.sent + [w.calls[l.call].row.raw.value] else w.sent
  {
  }

  // ----- What a reopened request can come to -----

  lemma {:induction false} RunCons(chain: Chain, w: World, labels: seq<Label>)
    requires labels != []
    ensures Run(chain, w, labels) == Run(chain, Next(chain, w, labels[0]), labels[1..])
  {
    var n := |labels| - 1;
    if n == 0 {
      assert labels[..0] == [] && labels[1..] == [];
    } else {
      RunCons(chain, w, labels[..n]);
      assert labels[..n][1..] == labels[1..][..n - 1];
    }
  }

  // A run to the given status; to Ended, one that has sent the raw transaction of the cancellation.
  ghost predicate Reaches(chain: Chain, w: World, status: Status) {
    exists labels :: Reached(Run(chain, w, labels), status)
  }

  predicate Reached(w: World, status: Status) {
    w.db.status == status
    && (status == Ended ==> w.db.cancellation.Some? && w.db.cancellation.value.raw.Some? && w.db.cancellation.value.raw.value in w.sent)
  }

  lemma ReachesNow(chain: Chain, w: World, status: Status)
    requires Reached(w, status)
    ensures Reaches(chain, w, status)
  {
    assert Run(chain, w, []) == w;
  }

  lemma ReachesAfter(chain: Chain, w: World, l: Label, status: Status)
    requires Reaches(chain, Next(chain, w, l), status)
    ensures Reaches(chain, w, status)
  {
    var labels :| Reached(Run(chain, Next(chain, w, l), labels), status);
    RunCons(chain, w, [l] + labels);
    assert ([l] + labels)[1..] == labels;
  }

  predicate Cancellable(db: Db, original: nat) {
    db.operationId == Some(original) && (db.status == Pending || db.status == Unsettled || db.status == Processing)
  }

  // The request is signed and live, and `row` is its cancellation.
  ghost predicate Cancelling(chain: Chain, db: Db, original: nat, row: Row) {
    && Cancellable(db, original) && db.draft == Some(SigningStarted) && db.cancellation == Some(row)
    && RowSound(chain, row) && row.draft.operationId == row.operationId
  }

  lemma SentReaches(chain: Chain, w: World, call: nat)
    requires call in w.calls && w.calls[call].Observing? && Cancelling(chain, w.db, w.calls[call].original, w.calls[call].row)
    requires w.calls[call].row.raw.Some? && w.calls[call].row.raw.value in w.sent
    ensures Reaches(chain, w, Ended)
  {
    var l := Observed(call, CancellationFinal(0));
    ReachesNow(chain, Next(chain, w, l), Ended);
    ReachesAfter(chain, w, l, Ended);
  }

  // A call that finds nothing final broadcasts; a later call sees the cancellation final.
  lemma ObservingReaches(chain: Chain, w: World, call: nat, again: nat)
    requires call in w.calls && w.calls[call].Observing? && Cancelling(chain, w.db, w.calls[call].original, w.calls[call].row)
    requires w.calls[call].row.phase == RawSaved && again !in w.calls
    ensures Reaches(chain, w, Ended)
  {
    var w1 := Next(chain, w, Observed(call, NothingFinal));
    var w2 := Next(chain, w1, Broadcast(call));
    assert w2.sent == w1.sent + [w.calls[call].row.raw.value];
    SentReaches(chain, Next(chain, w2, Advance(again)), again);
    ReachesAfter(chain, w2, Advance(again), Ended);
    ReachesAfter(chain, w1, Broadcast(call), Ended);
    ReachesAfter(chain, w, Observed(call, NothingFinal), Ended);
  }

  lemma PreparingReaches(chain: Chain, w: World, call: nat, again: nat)
    requires call in w.calls && w.calls[call].Preparing? && Cancelling(chain, w.db, w.calls[call].original, w.calls[call].row)
    requires w.calls[call].row.phase == Signed && again !in w.calls
    ensures Reaches(chain, w, Ended)
  {
    var l := PreparedBy(call, Prepared(0, chain.hash(0), 0));
    ObservingReaches(chain, Next(chain, w, l), call, again);
    ReachesAfter(chain, w, l, Ended);
  }

  lemma SigningReaches(chain: Chain, w: World, call: nat, again: nat)
    requires call in w.calls && w.calls[call].Signing? && Cancelling(chain, w.db, w.calls[call].original, w.calls[call].row)
    requires w.calls[call].row.phase == SignatureStarted && again !in w.calls
    ensures Reaches(chain, w, Ended)
  {
    var l := SignedBy(call, Draft(w.calls[call].row.operationId, Some(0)));
    PreparingReaches(chain, Next(chain, w, l), call, again);
    ReachesAfter(chain, w, l, Ended);
  }

  // A call that starts on a cancellation goes on where it stands.
  lemma StartedReaches(chain: Chain, w: World, call: nat, again: nat, original: nat, row: Row)
    requires Cancelling(chain, w.db, original, row) && call !in w.calls && again !in w.calls && call != again
    requires row.phase == DraftSaved || row.phase == SignatureStarted
    ensures Reaches(chain, w, Ended)
  {
    var started := row.(phase := SignatureStarted);
    var v := Next(chain, w, Advance(call));
    assert v.db == w.db.(cancellation := Some(started)) && v.calls == w.calls[call := Signing(original, started)];
    SigningReaches(chain, v, call, again);
    ReachesAfter(chain, w, Advance(call), Ended);
  }

  lemma SignedReaches(chain: Chain, w: World, call: nat, again: nat, original: nat, row: Row)
    requires Cancelling(chain, w.db, original, row) && call !in w.calls && again !in w.calls && call != again && row.phase == Signed
    ensures Reaches(chain, w, Ended)
  {
    var v := Next(chain, w, Advance(call));
    assert v == Put(w, call, Preparing(original, row));
    PreparingReaches(chain, v, call, again);
    ReachesAfter(chain, w, Advance(call), Ended);
  }

  lemma SavedReaches(chain: Chain, w: World, call: nat, again: nat, original: nat, row: Row)
    requires Cancelling(chain, w.db, original, row) && call !in w.calls && again !in w.calls && call != again && row.phase == RawSaved
    ensures Reaches(chain, w, Ended)
  {
    var v := Next(chain, w, Advance(call));
    assert v == Put(w, call, Observing(original, row));
    ObservingReaches(chain, v, call, again);
    ReachesAfter(chain, w, Advance(call), Ended);
  }

  // A signed reward that is live can be cancelled from whatever phase its cancellation is in.
  lemma CancelReaches(chain: Chain, w: World, call: nat, again: nat)
    requires w.db.operationId.Some? && Cancellable(w.db, w.db.operationId.value) && w.db.draft == Some(SigningStarted)
    requires call !in w.calls && again !in w.calls && call != again
    requires w.db.cancellation.Some? ==>
      RowSound(chain, w.db.cancellation.value) && w.db.cancellation.value.draft.operationId == w.db.cancellation.value.operationId
    ensures Reaches(chain, w, Ended)
  {
    if w.db.cancellation.None? {
      BuildingReaches(chain, w, call, again);
    } else {
      var original, row := w.db.operationId.value, w.db.cancellation.value;
      match row.phase {
        case Signed => SignedReaches(chain, w, call, again, original, row);
        case RawSaved => SavedReaches(chain, w, call, again, original, row);
        case _ => StartedReaches(chain, w, call, again, original, row);
      }
    }
  }

  lemma BuildingReaches(chain: Chain, w: World, call: nat, again: nat)
    requires w.db.operationId.Some? && Cancellable(w.db, w.db.operationId.value) && w.db.draft == Some(SigningStarted)
    requires call !in w.calls && again !in w.calls && call != again && w.db.cancellation.None?
    ensures Reaches(chain, w, Ended)
  {
    var v := Next(chain, w, Advance(call));
    assert v == Put(w, call, Building(w.db.operationId.value));
    var l := Built(call, 0, 0, Draft(0, None));
    SigningReaches(chain, Next(chain, v, l), call, again);
    ReachesAfter(chain, v, l, Ended);
    ReachesAfter(chain, w, Advance(call), Ended);
  }

  lemma FinalReaches(chain: Chain, w: World, call: nat)
    requires w.db.operationId.Some? && (w.db.status == Pending || w.db.status == Unsettled) && call !in w.calls
    ensures Reaches(chain, w, Finalized)
  {
    var v := Next(chain, w, Reconcile(call));
    ReachesNow(chain, Next(chain, v, FoundFinal(call)), Finalized);
    ReachesAfter(chain, v, FoundFinal(call), Finalized);
    ReachesAfter(chain, w, Reconcile(call), Finalized);
  }

  // From a settled reward that a reorganisation reopens, both outcomes can be reached, whichever it
  // had: so the guard of that step is exactly what decides whether an outcome is for good.
  lemma ReopenedReachesBoth(chain: Chain, w: World, l: Label, call: nat, again: nat)
    requires Reopens(w, l) && w.db.operationId.Some? && w.db.draft == Some(SigningStarted)
    requires call !in w.calls && again !in w.calls && call != again
    requires w.db.cancellation.Some? ==>
      RowSound(chain, w.db.cancellation.value) && w.db.cancellation.value.draft.operationId == w.db.cancellation.value.operationId
    ensures Reaches(chain, Next(chain, w, l), Finalized) && Reaches(chain, Next(chain, w, l), Ended)
  {
    FinalReaches(chain, Next(chain, w, l), call);
    CancelReaches(chain, Next(chain, w, l), call, again);
  }

  // ----- One run with both outcomes -----

  // A reward whose submission is pending, with one reserved input.
  const Submitted := World(
    Db(Pending, 3, Some(1), Some(SigningStarted), true, false, false, map[5 := InputReserved], map[], None), map[], [], {Pending})

  // It is cancelled: built, signed and saved; found not final and broadcast; and seen final.
  function Drafting(): seq<Label> { [Advance(0), Built(0, 2, 5, Draft(2, None))] }

  function Saving(chain: Chain): seq<Label> { [SignedBy(0, Draft(2, Some(9))), PreparedBy(0, Prepared(4, chain.hash(4), 0))] }

  function Sending(): seq<Label> { [Observed(0, NothingFinal), Broadcast(0)] }

  function Finding(): seq<Label> { [Advance(2), Observed(2, CancellationFinal(6))] }

  function Cancelled(chain: Chain): seq<Label> {
    Drafting() + Saving(chain) + Sending() + Finding()
  }

  // Then the chain drops the cancellation, and the reward's own operation turns out to be final.
  function Paying(): seq<Label> { [Reorg(true), Reconcile(1), FoundFinal(1)] }

  lemma {:induction false} RunConcat(chain: Chain, w: World, a: seq<Label>, b: seq<Label>)
    ensures Run(chain, w, a + b) == Run(chain, Run(chain, w, a), b)
    decreases |b|
  {
    if b == [] {
      assert a + b == a;
    } else {
      RunConcat(chain, w, a, b[..|b| - 1]);
      assert (a + b)[..|a + b| - 1] == a + b[..|b| - 1];
    }
  }

  lemma TwoSteps(chain: Chain, w: World, a: Label, b: Label)
    ensures Run(chain, w, [a, b]) == Next(chain, Next(chain, w, a), b)
  {
    OneStep(chain, w, a);
    assert [a, b][..1] == [a];
  }

  lemma OneStep(chain: Chain, w: World, a: Label)
    ensures Run(chain, w, [a]) == Next(chain, w, a)
  {
    assert [a][..0] == [];
  }

  const Started := Row(SignatureStarted, 2, 5, Draft(2, None), None, None, None)
  const Countersigned := Started.(phase := Signed, draft := Draft(2, Some(9)))

  function Saved(chain: Chain): Row {
    Countersigned.(phase := RawSaved, raw := Some(4), txHash := Some(chain.hash(4)))
  }

  // The request as submitted, with its cancellation and what one call waits for.
  predicate Waiting(w: World, row: Row, call: nat, c: Call) {
    && w.db == Submitted.db.(cancellation := Some(row)) && call in w.calls && w.calls[call] == c
    && w.calls.Keys <= {0, 2} && (call == 0 ==> 2 !in w.calls)
  }

  lemma CancelDrafted(chain: Chain)
    ensures var w := Run(chain, Submitted, Drafting());
      Waiting(w, Started, 0, Signing(1, Started)) && w.sent == []
  {
    TwoSteps(chain, Submitted, Advance(0), Built(0, 2, 5, Draft(2, None)));
    assert Next(chain, Submitted, Advance(0)) == Submitted.(calls := map[0 := Building(1)]);
  }

  lemma CancelSaved(chain: Chain, w: World)
    requires Waiting(w, Started, 0, Signing(1, Started))
    ensures var v := Run(chain, w, Saving(chain));
      Waiting(v, Saved(chain), 0, Observing(1, Saved(chain))) && v.sent == w.sent
  {
    TwoSteps(chain, w, SignedBy(0, Draft(2, Some(9))), PreparedBy(0, Prepared(4, chain.hash(4), 0)));
    assert Waiting(Next(chain, w, SignedBy(0, Draft(2, Some(9)))), Countersigned, 0, Preparing(1, Countersigned));
  }

  lemma CancelSent(chain: Chain, w: World)
    requires Waiting(w, Saved(chain), 0, Observing(1, Saved(chain)))
    ensures var v := Run(chain, w, Sending());
      Waiting(v, Saved(chain), 0, Done) && v.sent == w.sent + [4]
  {
    TwoSteps(chain, w, Observed(0, NothingFinal), Broadcast(0));
    assert Waiting(Next(chain, w, Observed(0, NothingFinal)), Saved(chain), 0, Broadcasting(1, Saved(chain)));
  }

  lemma CancelFinal(chain: Chain, w: World)
    requires Waiting(w, Saved(chain), 0, Done)
    ensures var v := Run(chain, w, Finding());
      v.db.status == Ended && Ended in v.seen && v.db.operationId == Some(1) && 1 !in v.calls && v.sent == w.sent
  {
    TwoSteps(chain, w, Advance(2), Observed(2, CancellationFinal(6)));
    assert Waiting(Next(chain, w, Advance(2)), Saved(chain), 2, Observing(1, Saved(chain)));
  }

  lemma PaidAfter(chain: Chain, w: World)
    requires w.db.status == Ended && Ended in w.seen && w.db.operationId.Some? && 1 !in w.calls
    ensures var v := Run(chain, w, Paying());
      v.db.status == Finalized && {Ended, Finalized} <= v.seen && v.sent == w.sent
  {
    OneStep(chain, w, Reorg(true));
    TwoSteps(chain, Next(chain, w, Reorg(true)), Reconcile(1), FoundFinal(1));
    RunConcat(chain, w, [Reorg(true)], [Reconcile(1), FoundFinal(1)]);
    assert [Reorg(true)] + [Reconcile(1), FoundFinal(1)] == Paying();
  }

  lemma CancelledRun(chain: Chain)
    ensures var ended := Run(chain, Submitted, Cancelled(chain));
      ended.db.status == Ended && Ended in ended.seen && ended.db.operationId == Some(1) && 1 !in ended.calls && ended.sent == [4]
  {
    CancelDrafted(chain);
    RunConcat(chain, Submitted, Drafting(), Saving(chain));
    CancelSaved(chain, Run(chain, Submitted, Drafting()));
    RunConcat(chain, Submitted, Drafting() + Saving(chain), Sending());
    CancelSent(chain, Run(chain, Submitted, Drafting() + Saving(chain)));
    RunConcat(chain, Submitted, Drafting() + Saving(chain) + Sending(), Finding());
    CancelFinal(chain, Run(chain, Submitted, Drafting() + Saving(chain) + Sending()));
  }

  // When the chain drops a final cancellation, one run ends a reward, having broadcast its
  // cancellation, and then pays it.
  lemma ReorgAllowsBoth(chain: Chain)
    ensures Initial(Submitted)
    ensures var ended := Run(chain, Submitted, Cancelled(chain));
      ended.db.status == Ended && ended.sent == [4]
    ensures var paid := Run(chain, Submitted, Cancelled(chain) + Paying());
      paid.db.status == Finalized && {Ended, Finalized} <= paid.seen && paid.sent == [4]
  {
    CancelledRun(chain);
    PaidAfter(chain, Run(chain, Submitted, Cancelled(chain)));
    RunConcat(chain, Submitted, Cancelled(chain), Paying());
  }
}

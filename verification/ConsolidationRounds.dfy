// The rounds of a reward's consolidation (apps/uniswap-service/src/rewards/consolidation.ts) under
// crashes and interleaved calls. Everything between two awaits is one step; a call can stop at any
// of them. What is encrypted for one round can be read back only as that round's.
module ConsolidationRounds {
  import opened Wrappers

  datatype Phase = Claimed | DraftSaved | SignatureStarted | RawSaved | Finalized
  {
    function Rank(): nat {
      match this
      case Claimed => 0
      case DraftSaved => 1
      case SignatureStarted => 2
      case RawSaved => 3
      case Finalized => 4
    }
  }

  datatype Draft = Draft(operationId: nat, signature: Option<nat>)

  datatype Row = Row(phase: Phase, operationId: Option<nat>, inputs: seq<nat>, draft: Option<Draft>, raw: Option<nat>, txHash: Option<nat>)

  // `round` is the round a call works on; `latest` the round of the row it read last. Rounds count from 0.
  datatype Call =
    | Building(round: nat)
    | Signing(round: nat, row: Row)
    | Preparing(round: nat, row: Row)
    | Observing(round: nat, latest: nat, row: Row)
    | Broadcasting(round: nat, latest: nat, row: Row)
    | Finished(round: nat, final: bool)
    | Failed

  // `accepted`: the request may start a round. `writable`: the environment lets rewards write.
  // `sent` lists the broadcasts with their rounds.
  datatype World = World(accepted: bool, writable: bool, rows: seq<Row>, calls: map<nat, Call>, sent: seq<(nat, nat)>)

  datatype Prepared = Prepared(raw: nat, hash: nat)

  datatype Label =
    | Advance(call: nat, startNewRound: bool)
    | Built(call: nat, operationId: nat, inputs: seq<nat>, draft: Draft)
    | SignedBy(call: nat, draft: Draft)
    | PreparedBy(call: nat, prepared: Prepared)
    | NothingFinal(call: nat)
    | FoundFinal(call: nat)
    | Broadcast(call: nat)
    | Stop(call: nat)
    | Elsewhere(accepted: bool, writable: bool)

  datatype Chain = Chain(hash: nat -> nat)

  function Put(w: World, call: nat, c: Call): World {
    w.(calls := w.calls[call := c])
  }

  // UPDATE ... WHERE round = ? AND phase = ?
  function Guarded(rows: seq<Row>, round: nat, phase: Phase, row: Row): seq<Row> {
    if round < |rows| && rows[round].phase == phase then rows[round := row] else rows
  }

  // The end of the function: only a saved raw transaction goes on.
  function Tail(w: World, call: nat, round: nat): World {
    if w.rows == [] then Put(w, call, Failed)
    else
      var latest := |w.rows| - 1;
      var row := w.rows[latest];
      if row.phase != RawSaved || row.operationId.None? || row.raw.None? || row.txHash.None? then Put(w, call, Failed)
      else Put(w, call, Observing(round, latest, row))
  }

  // From the latest row on, for the call's round.
  function Resume(w: World, call: nat, round: nat): World {
    if w.rows == [] then Put(w, call, Failed)
    else
      var latest := |w.rows| - 1;
      var row := w.rows[latest];
      match row.phase
      case DraftSaved =>
        if !w.writable || round >= |w.rows| then Put(w, call, Failed)
        else
          var started := w.(rows := Guarded(w.rows, round, DraftSaved, w.rows[round].(phase := SignatureStarted)));
          Sign(started, call, round)
      case SignatureStarted => Sign(w, call, round)
      case _ => Tail(w, call, round)
  }

  function Sign(w: World, call: nat, round: nat): World
    requires w.rows != []
  {
    var latest := |w.rows| - 1;
    var row := w.rows[latest];
    if row.phase != SignatureStarted || latest != round || row.draft.None? || Some(row.draft.value.operationId) != row.operationId
      || (row.draft.value.signature.None? && !w.writable) then Put(w, call, Failed)
    else Put(w, call, Signing(round, row))
  }

  // After signing, or with a draft signed before: the draft as it is stored now.
  function Reread(w: World, call: nat, round: nat): World {
    if w.rows == [] || |w.rows| - 1 != round then Put(w, call, Failed)
    else
      var row := w.rows[round];
      if row.draft.None? || row.draft.value.signature.None? || !w.writable then Put(w, call, Failed)
      else Put(w, call, Preparing(round, row))
  }

  function Next(chain: Chain, w: World, l: Label): World {
    match l
    case Advance(call, startNewRound) =>
      if call in w.calls then w
      else if w.rows != [] && w.rows[|w.rows| - 1].phase == Finalized && !startNewRound then Put(w, call, Finished(|w.rows| - 1, true))
      else if w.rows == [] || w.rows[|w.rows| - 1].phase == Finalized then
        if !w.writable || !w.accepted then Put(w, call, Failed)
        else Put(w.(rows := w.rows + [Row(Claimed, None, [], None, None, None)]), call, Building(|w.rows|))
      else if w.rows[|w.rows| - 1].phase == Claimed then Put(w, call, Failed)
      else Resume(w, call, |w.rows| - 1)
    case Built(call, operationId, inputs, draft) =>
      if call !in w.calls || !w.calls[call].Building? then w
      else if |inputs| != 2 || operationId != draft.operationId || !w.writable || !w.accepted then Put(w, call, Failed)
      else
        var round := w.calls[call].round;
        var saved := Row(DraftSaved, Some(operationId), inputs, Some(draft), None, None);
        Resume(w.(rows := Guarded(w.rows, round, Claimed, saved)), call, round)
    case SignedBy(call, draft) =>
      if call !in w.calls || !w.calls[call].Signing? then w
      else
        var round, held := w.calls[call].round, w.calls[call].row;
        if held.draft.Some? && held.draft.value.signature.Some? then Reread(w, call, round)
        else if Some(draft.operationId) != held.operationId || draft.signature.None? || round >= |w.rows| then
          Put(w, call, Failed)
        else
          Reread(w.(rows := Guarded(w.rows, round, SignatureStarted, w.rows[round].(draft := Some(draft)))), call, round)
    case PreparedBy(call, prepared) =>
      if call !in w.calls || !w.calls[call].Preparing? then w
      else
        var round := w.calls[call].round;
        if chain.hash(prepared.raw) != prepared.hash || !w.writable || round >= |w.rows| then Put(w, call, Failed)
        else
          var saved := w.rows[round].(phase := RawSaved, raw := Some(prepared.raw), txHash := Some(prepared.hash));
          Tail(w.(rows := Guarded(w.rows, round, SignatureStarted, saved)), call, round)
    case NothingFinal(call) =>
      if call !in w.calls || !w.calls[call].Observing? then w
      else if !w.writable then Put(w, call, Failed)
      else Put(w, call, Broadcasting(w.calls[call].round, w.calls[call].latest, w.calls[call].row))
    case FoundFinal(call) =>
      if call !in w.calls || !w.calls[call].Observing? || w.calls[call].round >= |w.rows| then w
      else
        var round := w.calls[call].round;
        Put(w.(rows := Guarded(w.rows, round, RawSaved, w.rows[round].(phase := Finalized))), call, Finished(round, true))
    case Broadcast(call) =>
      if call !in w.calls || !w.calls[call].Broadcasting? then w
      else
        var c := w.calls[call];
        if c.latest != c.round || c.row.raw.None? || c.row.txHash.None? || chain.hash(c.row.raw.value) != c.row.txHash.value then
          Put(w, call, Failed)
        else Put(w.(sent := w.sent + [(c.round, c.row.raw.value)]), call, Finished(c.round, false))
    case Stop(call) => if call in w.calls then Put(w, call, Failed) else w
    case Elsewhere(accepted, writable) => w.(accepted := accepted, writable := writable)
  }

  function Run(chain: Chain, w: World, labels: seq<Label>): World {
    if labels == [] then w else Next(chain, Run(chain, w, labels[..|labels| - 1]), labels[|labels| - 1])
  }

  predicate Initial(w: World) {
    w.rows == [] && w.calls == map[] && w.sent == []
  }

  // ----- The rows -----

  // A round never goes back, keeps its operation, and its raw transaction is written once.
  ghost predicate RowMoves(before: Row, after: Row) {
    && before.phase.Rank() <= after.phase.Rank()
    && (before.operationId.Some? ==> after.operationId == before.operationId)
    && (before.raw.Some? ==> after.raw == before.raw && after.txHash == before.txHash)
  }

  ghost predicate RowSound(chain: Chain, row: Row) {
    && (row.raw.Some? <==> row.phase.Rank() >= 3) && (row.raw.Some? <==> row.txHash.Some?)
    && (row.raw.Some? ==> row.txHash.value == chain.hash(row.raw.value))
    && (row.operationId.Some? <==> row.phase.Rank() >= 1)
  }

  // Rounds are added at the end, one at a time, and every round but the last is final.
  ghost predicate RowsMove(before: seq<Row>, after: seq<Row>) {
    |before| <= |after| && forall i :: 0 <= i < |before| ==> RowMoves(before[i], after[i])
  }

  ghost predicate RowsSound(chain: Chain, rows: seq<Row>) {
    && (forall i :: 0 <= i < |rows| ==> RowSound(chain, rows[i]))
    && (forall i :: 0 <= i < |rows| - 1 ==> rows[i].phase == Finalized)
  }

  lemma RowsMoveTrans(a: seq<Row>, b: seq<Row>, c: seq<Row>)
    requires RowsMove(a, b) && RowsMove(b, c)
    ensures RowsMove(a, c)
  {
    forall i | 0 <= i < |a| ensures RowMoves(a[i], c[i]) {
      assert RowMoves(a[i], b[i]) && RowMoves(b[i], c[i]);
    }
  }

  lemma GuardedMoves(chain: Chain, rows: seq<Row>, round: nat, phase: Phase, row: Row)
    requires RowsSound(chain, rows)
    requires round < |rows| && rows[round].phase == phase ==> RowMoves(rows[round], row) && RowSound(chain, row) && phase != Finalized
    ensures RowsSound(chain, Guarded(rows, round, phase, row)) && RowsMove(rows, Guarded(rows, round, phase, row))
  {
  }

  // ----- The calls -----

  ghost predicate CallSound(rows: seq<Row>, c: Call) {
    match c
    case Failed => true
    case Building(round) => round < |rows|
    case Signing(round, _) => round < |rows|
    case Preparing(round, _) => round < |rows|
    case Observing(round, latest, row) => HeldSound(rows, round, latest, row)
    case Broadcasting(round, latest, row) => HeldSound(rows, round, latest, row)
    case Finished(round, final) => round < |rows| && (final ==> rows[round].phase == Finalized)
  }

  ghost predicate HeldSound(rows: seq<Row>, round: nat, latest: nat, row: Row) {
    round <= latest < |rows| && RowMoves(row, rows[latest]) && row.phase == RawSaved && row.raw.Some?
  }

  lemma CallStaysSound(before: seq<Row>, after: seq<Row>, c: Call)
    requires CallSound(before, c) && RowsMove(before, after)
    ensures CallSound(after, c)
  {
  }

  ghost predicate SentStored(rows: seq<Row>, sent: seq<(nat, nat)>) {
    forall s :: s in sent ==> s.0 < |rows| && rows[s.0].raw == Some(s.1)
  }

  ghost predicate Inv(chain: Chain, w: World) {
    && RowsSound(chain, w.rows)
    && (forall call :: call in w.calls ==> CallSound(w.rows, w.calls[call]))
    && SentStored(w.rows, w.sent)
  }

  // Rows written in one transaction: they stay sound and only move on.
  ghost predicate Written(chain: Chain, before: World, w: World) {
    w == before.(rows := w.rows) && RowsSound(chain, w.rows) && RowsMove(before.rows, w.rows)
  }

  // A step that moves the rows on and changes one call.
  ghost predicate StepsTo(chain: Chain, before: World, after: World, call: nat) {
    && RowsSound(chain, after.rows) && RowsMove(before.rows, after.rows) && after.sent == before.sent
    && call in after.calls && CallSound(after.rows, after.calls[call])
    && after.calls == before.calls[call := after.calls[call]]
  }

  lemma InvStep(chain: Chain, before: World, after: World, call: nat)
    requires Inv(chain, before) && StepsTo(chain, before, after, call)
    ensures Inv(chain, after)
  {
    forall other | other in after.calls ensures CallSound(after.rows, after.calls[other]) {
      if other != call { CallStaysSound(before.rows, after.rows, before.calls[other]); }
    }
  }

  lemma WrittenSame(chain: Chain, w: World)
    requires RowsSound(chain, w.rows)
    ensures Written(chain, w, w)
  {
  }

  lemma PutSteps(chain: Chain, before: World, w: World, call: nat, c: Call)
    requires Written(chain, before, w) && CallSound(w.rows, c)
    ensures StepsTo(chain, before, Put(w, call, c), call)
  {
  }

  lemma TailSteps(chain: Chain, before: World, w: World, call: nat, round: nat)
    requires Written(chain, before, w) && round < |w.rows|
    ensures StepsTo(chain, before, Tail(w, call, round), call)
  {
    PutSteps(chain, before, w, call, Tail(w, call, round).calls[call]);
  }

  lemma RereadSteps(chain: Chain, before: World, w: World, call: nat, round: nat)
    requires Written(chain, before, w)
    ensures StepsTo(chain, before, Reread(w, call, round), call)
  {
    PutSteps(chain, before, w, call, Reread(w, call, round).calls[call]);
  }

  lemma SignSteps(chain: Chain, before: World, w: World, call: nat, round: nat)
    requires Written(chain, before, w) && round < |w.rows|
    ensures StepsTo(chain, before, Sign(w, call, round), call)
  {
    PutSteps(chain, before, w, call, Sign(w, call, round).calls[call]);
  }

  // A guarded update on top of rows written before.
  lemma GuardedWritten(chain: Chain, before: World, w: World, round: nat, phase: Phase, row: Row)
    requires Written(chain, before, w)
    requires round < |w.rows| && w.rows[round].phase == phase ==> RowMoves(w.rows[round], row) && RowSound(chain, row) && phase != Finalized
    ensures Written(chain, before, w.(rows := Guarded(w.rows, round, phase, row)))
  {
    GuardedMoves(chain, w.rows, round, phase, row);
    RowsMoveTrans(before.rows, w.rows, Guarded(w.rows, round, phase, row));
  }

  lemma StartSteps(chain: Chain, before: World, w: World, call: nat, round: nat)
    requires Written(chain, before, w) && round < |w.rows|
    ensures StepsTo(chain, before,
      Sign(w.(rows := Guarded(w.rows, round, DraftSaved, w.rows[round].(phase := SignatureStarted))), call, round), call)
  {
    var started := w.rows[round].(phase := SignatureStarted);
    GuardedWritten(chain, before, w, round, DraftSaved, started);
    SignSteps(chain, before, w.(rows := Guarded(w.rows, round, DraftSaved, started)), call, round);
  }

  // What Resume does, by the phase of the latest row.
  lemma ResumeIs(w: World, call: nat, round: nat)
    requires round < |w.rows|
    ensures Resume(w, call, round) ==
      match w.rows[|w.rows| - 1].phase
      case DraftSaved =>
        if !w.writable then Put(w, call, Failed)
        else Sign(w.(rows := Guarded(w.rows, round, DraftSaved, w.rows[round].(phase := SignatureStarted))), call, round)
      case SignatureStarted => Sign(w, call, round)
      case _ => Tail(w, call, round)
  {
  }

  lemma ResumeSteps(chain: Chain, before: World, w: World, call: nat, round: nat)
    requires Written(chain, before, w) && round < |w.rows|
    ensures StepsTo(chain, before, Resume(w, call, round), call)
  {
    ResumeIs(w, call, round);
    if w.rows[|w.rows| - 1].phase == DraftSaved {
      if w.writable { StartSteps(chain, before, w, call, round); } else { PutSteps(chain, before, w, call, Failed); }
    } else if w.rows[|w.rows| - 1].phase == SignatureStarted {
      SignSteps(chain, before, w, call, round);
    } else {
      TailSteps(chain, before, w, call, round);
    }
  }

  lemma RowsSame(rows: seq<Row>)
    ensures RowsMove(rows, rows)
  {
  }

  lemma RowAdded(chain: Chain, rows: seq<Row>, row: Row)
    requires RowsSound(chain, rows) && RowSound(chain, row) && (rows != [] ==> rows[|rows| - 1].phase == Finalized)
    ensures RowsSound(chain, rows + [row]) && RowsMove(rows, rows + [row])
  {
  }

  lemma AdvanceSteps(chain: Chain, w: World, call: nat, startNewRound: bool)
    requires Inv(chain, w) && call !in w.calls
    ensures StepsTo(chain, w, Next(chain, w, Advance(call, startNewRound)), call)
  {
    WrittenSame(chain, w);
    PutSteps(chain, w, w, call, Failed);
    if w.rows == [] || w.rows[|w.rows| - 1].phase == Finalized {
      var claimed := Row(Claimed, None, [], None, None, None);
      RowAdded(chain, w.rows, claimed);
      PutSteps(chain, w, w.(rows := w.rows + [claimed]), call, Building(|w.rows|));
      if w.rows != [] { PutSteps(chain, w, w, call, Finished(|w.rows| - 1, true)); }
    } else {
      ResumeSteps(chain, w, w, call, |w.rows| - 1);
    }
  }

  lemma BuiltSteps(chain: Chain, w: World, l: Label)
    requires Inv(chain, w) && l.Built? && l.call in w.calls && w.calls[l.call].Building?
    ensures StepsTo(chain, w, Next(chain, w, l), l.call)
  {
    WrittenSame(chain, w);
    PutSteps(chain, w, w, l.call, Failed);
    var round := w.calls[l.call].round;
    assert CallSound(w.rows, w.calls[l.call]);
    var saved := Row(DraftSaved, Some(l.operationId), l.inputs, Some(l.draft), None, None);
    GuardedWritten(chain, w, w, round, Claimed, saved);
    ResumeSteps(chain, w, w.(rows := Guarded(w.rows, round, Claimed, saved)), l.call, round);
  }

  lemma SignedSteps(chain: Chain, w: World, call: nat, draft: Draft)
    requires Inv(chain, w) && call in w.calls && w.calls[call].Signing?
    ensures StepsTo(chain, w, Next(chain, w, SignedBy(call, draft)), call)
  {
    WrittenSame(chain, w);
    PutSteps(chain, w, w, call, Failed);
    var round := w.calls[call].round;
    assert CallSound(w.rows, w.calls[call]);
    RereadSteps(chain, w, w, call, round);
    var saved := w.rows[round].(draft := Some(draft));
    GuardedWritten(chain, w, w, round, SignatureStarted, saved);
    RereadSteps(chain, w, w.(rows := Guarded(w.rows, round, SignatureStarted, saved)), call, round);
  }

  lemma PreparedSteps(chain: Chain, w: World, call: nat, prepared: Prepared)
    requires Inv(chain, w) && call in w.calls && w.calls[call].Preparing?
    ensures StepsTo(chain, w, Next(chain, w, PreparedBy(call, prepared)), call)
  {
    WrittenSame(chain, w);
    PutSteps(chain, w, w, call, Failed);
    if chain.hash(prepared.raw) == prepared.hash {
      var round := w.calls[call].round;
      assert CallSound(w.rows, w.calls[call]);
      var saved := w.rows[round].(phase := RawSaved, raw := Some(prepared.raw), txHash := Some(prepared.hash));
      GuardedWritten(chain, w, w, round, SignatureStarted, saved);
      TailSteps(chain, w, w.(rows := Guarded(w.rows, round, SignatureStarted, saved)), call, round);
    }
  }

  lemma ObservedSteps(chain: Chain, w: World, l: Label)
    requires Inv(chain, w) && (l.NothingFinal? || l.FoundFinal?) && l.call in w.calls && w.calls[l.call].Observing?
    ensures StepsTo(chain, w, Next(chain, w, l), l.call)
  {
    WrittenSame(chain, w);
    var c := w.calls[l.call];
    assert CallSound(w.rows, c);
    assert RowSound(chain, w.rows[c.round]);
    GuardedWritten(chain, w, w, c.round, RawSaved, w.rows[c.round].(phase := Finalized));
  }

  lemma BroadcastKeeps(chain: Chain, w: World, call: nat)
    requires Inv(chain, w) && call in w.calls && w.calls[call].Broadcasting?
    ensures var after := Next(chain, w, Broadcast(call)); Inv(chain, after) && RowsMove(w.rows, after.rows)
  {
    WrittenSame(chain, w);
    var c := w.calls[call];
    assert CallSound(w.rows, c);
    PutSteps(chain, w, w, call, Finished(c.round, false));
    InvStep(chain, w, Put(w, call, Finished(c.round, false)), call);
    PutSteps(chain, w, w, call, Failed);
    InvStep(chain, w, Put(w, call, Failed), call);
  }

  // A label finds the call it belongs to waiting for it.
  predicate Waits(w: World, l: Label) {
    match l
    case Advance(call, _) => call !in w.calls
    case Built(call, _, _, _) => call in w.calls && w.calls[call].Building?
    case SignedBy(call, _) => call in w.calls && w.calls[call].Signing?
    case PreparedBy(call, _) => call in w.calls && w.calls[call].Preparing?
    case NothingFinal(call) => call in w.calls && w.calls[call].Observing?
    case FoundFinal(call) => call in w.calls && w.calls[call].Observing?
    case Stop(call) => call in w.calls
    case _ => false
  }

  lemma WaitingSteps(chain: Chain, w: World, l: Label)
    requires Inv(chain, w) && Waits(w, l)
    ensures StepsTo(chain, w, Next(chain, w, l), l.call)
  {
    match l {
      case Advance(call, startNewRound) => AdvanceSteps(chain, w, call, startNewRound);
      case Built(_, _, _, _) => BuiltSteps(chain, w, l);
      case SignedBy(call, draft) => SignedSteps(chain, w, call, draft);
      case PreparedBy(call, prepared) => PreparedSteps(chain, w, call, prepared);
      case NothingFinal(_) => ObservedSteps(chain, w, l);
      case FoundFinal(_) => ObservedSteps(chain, w, l);
      case Stop(call) =>
        WrittenSame(chain, w);
        PutSteps(chain, w, w, call, Failed);
    }
  }

  lemma NextKeeps(chain: Chain, w: World, l: Label)
    requires Inv(chain, w)
    ensures Inv(chain, Next(chain, w, l)) && RowsMove(w.rows, Next(chain, w, l).rows)
  {
    RowsSame(w.rows);
    if Waits(w, l) {
      WaitingSteps(chain, w, l);
      InvStep(chain, w, Next(chain, w, l), l.call);
    } else if l.Broadcast? && l.call in w.calls && w.calls[l.call].Broadcasting? {
      BroadcastKeeps(chain, w, l.call);
    }
  }

  // ----- Whole runs -----

  lemma {:induction false} InvHolds(chain: Chain, w: World, labels: seq<Label>)
    requires Initial(w)
    ensures Inv(chain, Run(chain, w, labels))
  {
    if labels != [] {
      InvHolds(chain, w, labels[..|labels| - 1]);
      NextKeeps(chain, Run(chain, w, labels[..|labels| - 1]), labels[|labels| - 1]);
    }
  }

  // Rounds only move on: from any point of a run to any later one.
  lemma {:induction false} RoundsForward(chain: Chain, w: World, labels: seq<Label>, n: nat)
    requires Initial(w) && n <= |labels|
    ensures RowsMove(Run(chain, w, labels[..n]).rows, Run(chain, w, labels).rows)
    decreases |labels| - n
  {
    if n == |labels| {
      assert labels[..n] == labels;
      RowsSame(Run(chain, w, labels).rows);
    } else {
      InvHolds(chain, w, labels[..n]);
      NextKeeps(chain, Run(chain, w, labels[..n]), labels[n]);
      assert labels[..n + 1][..n] == labels[..n];
      RoundsForward(chain, w, labels, n + 1);
      RowsMoveTrans(Run(chain, w, labels[..n]).rows, Run(chain, w, labels[..n + 1]).rows, Run(chain, w, labels).rows);
    }
  }

  // Every broadcast sends its round's one raw transaction; a round starts only when all before it
  // are final; and a call that reports success has its own round final, even if a later round has
  // begun meanwhile.
  lemma RoundsSafe(chain: Chain, w: World, labels: seq<Label>)
    requires Initial(w)
    ensures var end := Run(chain, w, labels);
      && (forall a, b :: a in end.sent && b in end.sent && a.0 == b.0 ==> a.1 == b.1)
      && SentStored(end.rows, end.sent)
      && (forall i :: 0 <= i < |end.rows| - 1 ==> end.rows[i].phase == Finalized)
      && (forall call :: call in end.calls && end.calls[call].Finished? && end.calls[call].final ==>
            end.calls[call].round < |end.rows| && end.rows[end.calls[call].round].phase == Finalized)
  {
    InvHolds(chain, w, labels);
    var end := Run(chain, w, labels);
    forall call | call in end.calls && end.calls[call].Finished? && end.calls[call].final
      ensures end.calls[call].round < |end.rows| && end.rows[end.calls[call].round].phase == Finalized
    {
      assert CallSound(end.rows, end.calls[call]);
    }
  }

  // ----- When rounds are written -----

  // A round is claimed exactly when rewards may write, the request may start one, and every round so
  // far is final, the last one only if a new one was asked for.
  lemma ClaimsExactly(chain: Chain, w: World, call: nat, startNewRound: bool)
    requires call !in w.calls
    ensures var after := Next(chain, w, Advance(call, startNewRound));
      && (|after.rows| > |w.rows| <==>
            && w.writable && w.accepted
            && (w.rows == [] || (w.rows[|w.rows| - 1].phase == Finalized && startNewRound)))
      && (|after.rows| > |w.rows| ==>
            after.rows == w.rows + [Row(Claimed, None, [], None, None, None)] && after.calls[call] == Building(|w.rows|))
  {
  }

  // What was built is stored for the claimed round exactly when it spends two inputs under the
  // operation id of its draft and rewards may still write.
  lemma BuiltStored(chain: Chain, w: World, l: Label)
    requires l.Built? && l.call in w.calls && w.calls[l.call].Building? && w.calls[l.call].round == |w.rows| - 1
    requires w.rows[w.calls[l.call].round].phase == Claimed
    ensures var round, after := w.calls[l.call].round, Next(chain, w, l).rows;
      after == if |l.inputs| == 2 && l.operationId == l.draft.operationId && w.writable && w.accepted
               then w.rows[round := Row(SignatureStarted, Some(l.operationId), l.inputs, Some(l.draft), None, None)]
               else w.rows
  {
  }

  // A raw transaction is stored exactly when it hashes to what was reported and rewards may write, and
  // only for a round whose signature was started.
  lemma RawStored(chain: Chain, w: World, call: nat, prepared: Prepared)
    requires call in w.calls && w.calls[call].Preparing? && w.calls[call].round < |w.rows|
    ensures var round, after := w.calls[call].round, Next(chain, w, PreparedBy(call, prepared)).rows;
      after == if chain.hash(prepared.raw) == prepared.hash && w.writable && w.rows[round].phase == SignatureStarted
               then w.rows[round := w.rows[round].(phase := RawSaved, raw := Some(prepared.raw), txHash := Some(prepared.hash))]
               else w.rows
  {
  }

  // A call sends exactly when it waits to broadcast the raw transaction of the latest round, which
  // hashes to its record.
  lemma SendsExactly(chain: Chain, w: World, l: Label)
    ensures var after := Next(chain, w, l);
      var sends := l.Broadcast? && l.call in w.calls && w.calls[l.call].Broadcasting?
        && w.calls[l.call].latest == w.calls[l.call].round && w.calls[l.call].row.raw.Some?
        && w.calls[l.call].row.txHash == Some(chain.hash(w.calls[l.call].row.raw.value));
      after.sent == if sends then w.sent + [(w.calls[l.call].round, w.calls[l.call].row.raw.value)] else w.sent
  {
  }

  // ----- A round that nobody disturbs -----

  lemma {:induction false} RunCons(chain: Chain, w: World, labels: seq<Label>)
    requires labels != []
    ensures Run(chain, w, labels) == Run(chain, Next(chain, w, labels[0]), labels[1..])
  {
    var n := |labels| - 1;
    if n == 0 {
      assert labels[..0] == [] && labels[1..] == [];
    } else {
      RunCons(chain, w, labels[..n]);
      assert labels[..n][1..] == labels[1..][..n - 1];
    }
  }

  // A run after which the round is final and its one raw transaction has been sent.
  ghost predicate Completes(chain: Chain, w: World, round: nat) {
    exists labels :: RoundFinal(Run(chain, w, labels), round)
  }

  predicate RoundFinal(w: World, round: nat) {
    && round < |w.rows| && w.rows[round].phase == Finalized && w.rows[round].raw.Some?
    && (round, w.rows[round].raw.value) in w.sent
  }

  lemma CompletesNow(chain: Chain, w: World, round: nat)
    requires RoundFinal(w, round)
    ensures Completes(chain, w, round)
  {
    assert Run(chain, w, []) == w;
  }

  lemma CompletesAfter(chain: Chain, w: World, l: Label, round: nat)
    requires Completes(chain, Next(chain, w, l), round)
    ensures Completes(chain, w, round)
  {
    var labels :| RoundFinal(Run(chain, Next(chain, w, l), labels), round);
    RunCons(chain, w, [l] + labels);
    assert ([l] + labels)[1..] == labels;
  }

  // The latest row is this one, and rewards may write.
  predicate Latest(w: World, round: nat, row: Row) {
    w.writable && w.accepted && |w.rows| == round + 1 && w.rows[round] == row
  }

  lemma SentCompletes(chain: Chain, w: World, call: nat, round: nat, row: Row)
    requires Latest(w, round, row) && row.phase == RawSaved && row.raw.Some? && (round, row.raw.value) in w.sent
    requires call in w.calls && w.calls[call] == Observing(round, round, row)
    ensures Completes(chain, w, round)
  {
    CompletesNow(chain, Next(chain, w, FoundFinal(call)), round);
    CompletesAfter(chain, w, FoundFinal(call), round);
  }

  // A call that finds nothing final broadcasts; a later call sees the round final.
  lemma ObservingCompletes(chain: Chain, w: World, call: nat, again: nat, round: nat, row: Row)
    requires Latest(w, round, row) && row.phase == RawSaved && row.operationId.Some?
    requires row.raw.Some? && row.txHash == Some(chain.hash(row.raw.value))
    requires call in w.calls && w.calls[call] == Observing(round, round, row) && again !in w.calls
    ensures Completes(chain, w, round)
  {
    var w1 := Next(chain, w, NothingFinal(call));
    var w2 := Next(chain, w1, Broadcast(call));
    assert w2.sent == w1.sent + [(round, row.raw.value)];
    SentCompletes(chain, Next(chain, w2, Advance(again, false)), again, round, row);
    CompletesAfter(chain, w2, Advance(again, false), round);
    CompletesAfter(chain, w1, Broadcast(call), round);
    CompletesAfter(chain, w, NothingFinal(call), round);
  }

  lemma PreparingCompletes(chain: Chain, w: World, call: nat, again: nat, round: nat, row: Row)
    requires Latest(w, round, row) && row.phase == SignatureStarted && row.operationId.Some?
    requires call in w.calls && w.calls[call] == Preparing(round, row) && again !in w.calls
    ensures Completes(chain, w, round)
  {
    var l := PreparedBy(call, Prepared(0, chain.hash(0)));
    var saved := row.(phase := RawSaved, raw := Some(0), txHash := Some(chain.hash(0)));
    ObservingCompletes(chain, Next(chain, w, l), call, again, round, saved);
    CompletesAfter(chain, w, l, round);
  }

  lemma SigningCompletes(chain: Chain, w: World, call: nat, again: nat, round: nat, row: Row)
    requires Latest(w, round, row) && row.phase == SignatureStarted && row.operationId == Some(0) && row.draft == Some(Draft(0, None))
    requires call in w.calls && w.calls[call] == Signing(round, row) && again !in w.calls
    ensures Completes(chain, w, round)
  {
    var l := SignedBy(call, Draft(0, Some(0)));
    PreparingCompletes(chain, Next(chain, w, l), call, again, round, row.(draft := Some(Draft(0, Some(0)))));
    CompletesAfter(chain, w, l, round);
  }

  lemma BuildingCompletes(chain: Chain, w: World, call: nat, again: nat, round: nat)
    requires Latest(w, round, Row(Claimed, None, [], None, None, None))
    requires call in w.calls && w.calls[call] == Building(round) && again !in w.calls
    ensures Completes(chain, w, round)
  {
    var l := Built(call, 0, [0, 0], Draft(0, None));
    SigningCompletes(chain, Next(chain, w, l), call, again, round, Row(SignatureStarted, Some(0), [0, 0], Some(Draft(0, None)), None, None));
    CompletesAfter(chain, w, l, round);
  }

  // Whenever all rounds so far are final and rewards may write, a new round can be brought to its
  // end: claimed, built, signed, saved, sent and seen final.
  lemma RoundCompletes(chain: Chain, w: World, call: nat, again: nat)
    requires w.writable && w.accepted && (w.rows == [] || w.rows[|w.rows| - 1].phase == Finalized)
    requires call !in w.calls && again !in w.calls && call != again
    ensures Completes(chain, w, |w.rows|)
  {
    BuildingCompletes(chain, Next(chain, w, Advance(call, true)), call, again, |w.rows|);
    CompletesAfter(chain, w, Advance(call, true), |w.rows|);
  }
}

// The recovery gate of packages/uniswap/src/recovery.ts: what a client may do with a saved
// reservation, given finalized evidence about its submission attempts.
module AttemptRecovery {
  import opened Counting
  import opened ReservationStore

  datatype Outcome = FailedFinally | SucceededFinally | NeverSubmitted | StillPending | OutcomeUnknown

  datatype AttemptEvidence = AttemptEvidence(id: string, outcome: Outcome)

  datatype Storage = StorageHealthy | StorageRollback | StorageUnavailable

  datatype Evidence = Evidence(
    finalized: bool, blockTime: int, paymentSucceeded: bool, submissionKnownAbsent: bool,
    attempts: seq<AttemptEvidence>, storage: Storage)

  datatype CurrentInput = InputUnspent | InputSpent | InputStateUnknown

  datatype Reason = ResultUnknown | StorageDown | InputUsed | InputReserved

  datatype Decision =
    | Recheck(reason: Reason) | ResumeOriginal | RetryAttempt | ChangeTerms | Complete | Blocked(reason: Reason)

  function IdsOf(attempts: seq<AttemptEvidence>): seq<string> {
    seq(|attempts|, i requires 0 <= i < |attempts| => attempts[i].id)
  }

  predicate Settled(outcome: Outcome) {
    outcome == FailedFinally || outcome == NeverSubmitted
  }

  // The comparison of sizes and members the source makes on the two id sets.
  predicate EvidenceCovers(attemptIds: seq<string>, attempts: seq<AttemptEvidence>) {
    var recorded := set id | id in attemptIds;
    && |attempts| == |recorded|
    && |set id | id in IdsOf(attempts)| == |recorded|
    && forall i :: 0 <= i < |attempts| ==> attempts[i].id in recorded && Settled(attempts[i].outcome)
  }

  function InspectOperation(record: Record, active: bool, evidence: Evidence, input: CurrentInput): Decision {
    if evidence.storage != StorageHealthy then Recheck(StorageDown)
    else if !evidence.finalized || input == InputStateUnknown then Recheck(ResultUnknown)
    else if evidence.paymentSucceeded then Complete
    else if !active then Blocked(InputReserved)
    else if input == InputSpent then Blocked(InputUsed)
    else if !EvidenceCovers(record.attemptIds, evidence.attempts) then Recheck(ResultUnknown)
    else if record.kind.Pay? && evidence.blockTime > record.kind.deadline then ChangeTerms
    else if record.attemptIds != [] && (exists e :: e in evidence.attempts && e.outcome == FailedFinally) then RetryAttempt
    else if !evidence.submissionKnownAbsent then Recheck(ResultUnknown)
    else ResumeOriginal
  }

  // The evidence and the recorded attempts correspond one to one, and every attempt is settled.
  ghost predicate EvidenceExact(attemptIds: seq<string>, attempts: seq<AttemptEvidence>) {
    && Distinct(IdsOf(attempts))
    && (forall id :: id in attemptIds <==> id in IdsOf(attempts))
    && forall e :: e in attempts ==> Settled(e.outcome)
  }

  // The pigeonhole behind the gate: comparing the two sizes and one inclusion is enough to make
  // evidence and recorded attempts correspond one to one. The converse holds too.
  lemma CoversIffExact(attemptIds: seq<string>, attempts: seq<AttemptEvidence>)
    ensures EvidenceCovers(attemptIds, attempts) <==> EvidenceExact(attemptIds, attempts)
  {
    var recorded := set id | id in attemptIds;
    var ids := IdsOf(attempts);
    var seen := set id | id in ids;
    CountBoundsSet(ids);
    if EvidenceCovers(attemptIds, attempts) {
      assert seen <= recorded by {
        forall id | id in seen ensures id in recorded {
          var i :| 0 <= i < |ids| && ids[i] == id;
          assert attempts[i].id == id;
        }
      }
      SubsetOfEqualSize(seen, recorded);
      forall id ensures id in attemptIds <==> id in ids {
        assert id in attemptIds <==> id in recorded;
        assert id in ids <==> id in seen;
      }
      forall e | e in attempts ensures Settled(e.outcome) {
        var i :| 0 <= i < |attempts| && attempts[i] == e;
      }
    }
    if EvidenceExact(attemptIds, attempts) {
      assert seen == recorded;
      forall i | 0 <= i < |attempts| ensures attempts[i].id in recorded && Settled(attempts[i].outcome) {
        assert ids[i] in ids && attempts[i] in attempts;
      }
    }
  }

  // A new attempt is allowed only on finalized, healthy evidence that accounts for every attempt
  // on record, for an unspent input held by an active reservation.
  lemma ActionNeedsExactEvidence(record: Record, active: bool, evidence: Evidence, input: CurrentInput)
    ensures var d := InspectOperation(record, active, evidence, input);
      (d.ResumeOriginal? || d.RetryAttempt? || d.ChangeTerms?) ==>
        && active && evidence.finalized && evidence.storage == StorageHealthy && !evidence.paymentSucceeded
        && input == InputUnspent && EvidenceExact(record.attemptIds, evidence.attempts)
  {
    CoversIffExact(record.attemptIds, evidence.attempts);
  }

  // Finalized and healthy evidence about an input whose state is known.
  predicate Conclusive(evidence: Evidence, input: CurrentInput) {
    evidence.storage == StorageHealthy && evidence.finalized && input != InputStateUnknown
  }

  // The payment has not succeeded and can still be made from the reserved input.
  predicate StillOpen(active: bool, evidence: Evidence, input: CurrentInput) {
    Conclusive(evidence, input) && !evidence.paymentSucceeded && active && input == InputUnspent
  }

  predicate Late(record: Record, evidence: Evidence) {
    record.kind.Pay? && evidence.blockTime > record.kind.deadline
  }

  ghost predicate AnyFailed(evidence: Evidence) {
    exists e :: e in evidence.attempts && e.outcome == FailedFinally
  }

  // Which decision is taken, exactly: nothing but a success, an inactive reservation or a spent input
  // ends the matter, and nothing goes on without evidence for every attempt.
  lemma DecisionExact(record: Record, active: bool, evidence: Evidence, input: CurrentInput)
    ensures var d := InspectOperation(record, active, evidence, input);
      var exact := EvidenceExact(record.attemptIds, evidence.attempts);
      && (d == Complete <==> Conclusive(evidence, input) && evidence.paymentSucceeded)
      && (d == Blocked(InputReserved) <==> Conclusive(evidence, input) && !evidence.paymentSucceeded && !active)
      && (d == Blocked(InputUsed) <==> Conclusive(evidence, input) && !evidence.paymentSucceeded && active && input == InputSpent)
      && (d == ChangeTerms <==> StillOpen(active, evidence, input) && exact && Late(record, evidence))
      && (d == RetryAttempt <==> StillOpen(active, evidence, input) && exact && !Late(record, evidence) && AnyFailed(evidence))
      && (d == ResumeOriginal <==>
            StillOpen(active, evidence, input) && exact && !Late(record, evidence) && !AnyFailed(evidence) && evidence.submissionKnownAbsent)
      && (d == Recheck(StorageDown) <==> evidence.storage != StorageHealthy)
      && (d == Recheck(ResultUnknown) <==>
            evidence.storage == StorageHealthy
            && (!Conclusive(evidence, input)
                || (StillOpen(active, evidence, input)
                    && (!exact || (!Late(record, evidence) && !AnyFailed(evidence) && !evidence.submissionKnownAbsent)))))
  {
    CoversIffExact(record.attemptIds, evidence.attempts);
    if EvidenceExact(record.attemptIds, evidence.attempts) && AnyFailed(evidence) {
      var e :| e in evidence.attempts && e.outcome == FailedFinally;
      var i :| 0 <= i < |evidence.attempts| && evidence.attempts[i] == e;
      assert IdsOf(evidence.attempts)[i] == e.id;
    }
  }
}

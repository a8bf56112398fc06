// Fixing an operation from an intent and checking it again before proving and before submission
// (packages/core/src/operation.ts, packages/core/src/tracking.ts).
module Building {
  import opened Wrappers
  import opened Pool
  import opened Receipts
  import opened Selection
  import opened Field
  import opened Bytes

  // `signer` is the address recovered from the signature over this information in the context.
  datatype Recipient = Recipient(chainId: nat, pool: nat, owner: nat, key: nat, format: nat, version: nat, signer: nat)

  datatype Intent =
    | Deposit(owner: nat, amount: int, recipient: Recipient)
    | Transfer(owner: nat, amount: int, recipient: Recipient, changeRecipient: Option<Recipient>, explicitIds: Option<seq<nat>>)
    | Withdraw(owner: nat, amount: int, destination: nat, changeRecipient: Option<Recipient>, explicitIds: Option<seq<nat>>)
  {
    function ExplicitIds(): Option<seq<nat>> {
      match this
      case Deposit(_, _, _) => None
      case Transfer(_, _, _, _, ids) => ids
      case Withdraw(_, _, _, _, ids) => ids
    }

    function Kind(): nat {
      match this
      case Deposit(_, _, _) => 0
      case Transfer(_, _, _, _, _) => 1
      case Withdraw(_, _, _, _, _) => 2
    }
  }

  // Hashes, commitments and receipt encryption; None where they throw.
  datatype Tools = Tools(
    crypto: Crypto,
    commit: Opening -> Option<Point>,
    encrypt: (Context, Request, nat, nat, Opening) -> Option<seq<nat>>)

  // What the run draws: a salt, and a blinding for each output.
  datatype Draws = Draws(salt: Option<nat>, blindings: nat -> nat)

  datatype Fixed = Fixed(
    context: Context, request: Request, operationId: nat, outputIds: seq<nat>, openings: seq<Opening>, inputOpenings: seq<Opening>)

  datatype BuildError = SelectionFailed(error: SelectionError) | Rejected | SignatureRejected | CryptoFailed

  datatype Plan = Plan(amount: nat, recipient: Recipient)

  predicate VerifyRecipient(context: Context, r: Recipient, expected: nat) {
    && 0 < r.owner < ADDRESS_LIMIT && r.owner == expected
    && r.chainId == context.chainId && r.pool == context.pool
    && r.format == 1 && r.version == 1 && r.key < WORD_LIMIT && r.signer == r.owner
  }

  function Amounts(openings: seq<Opening>): nat {
    if openings == [] then 0 else Amounts(openings[..|openings| - 1]) + openings[|openings| - 1].amount
  }

  function InputIds(coins: seq<Coin>): seq<nat> {
    seq<nat>(|coins|, i requires 0 <= i < |coins| => coins[i].id)
  }

  function InputOpenings(coins: seq<Coin>): seq<Opening> {
    seq(|coins|, i requires 0 <= i < |coins| => coins[i].opening)
  }

  function OutputIdsOf(t: Tools, id: nat, n: nat): seq<nat> {
    seq<nat>(n, i requires 0 <= i < n => t.crypto.outputId(id, i))
  }

  // ----- The checks made again on saved material -----

  predicate OpeningsMatch(t: Tools, request: Request, openings: seq<Opening>) {
    && |openings| == |request.outputs|
    && (forall i :: 0 <= i < |openings| ==> t.commit(openings[i]) == Some(request.outputs[i].commitment))
  }

  predicate Conserves(request: Request, inputOpenings: seq<Opening>, openings: seq<Opening>) {
    Amounts(inputOpenings) + request.d == Amounts(openings) + request.w
  }

  // proveFixedOperation up to proof generation, with the checks of `proofs`.
  predicate ProveAccepts(t: Tools, f: Fixed) {
    && ValidShape(t.crypto, f.request)
    && t.crypto.OperationId(f.context, f.request) == f.operationId
    && f.outputIds == OutputIdsOf(t, f.operationId, |f.request.outputs|)
    && OpeningsMatch(t, f.request, f.openings)
    && |f.inputOpenings| == |f.request.inputIds|
    && (forall i :: 0 <= i < |f.inputOpenings| ==> t.commit(f.inputOpenings[i]).Some?)
    && Conserves(f.request, f.inputOpenings, f.openings)
  }

  // validateDraft: the same material, signed.
  predicate ValidateDraft(t: Tools, f: Fixed, signed: bool) {
    && ValidShape(t.crypto, f.request)
    && t.crypto.OperationId(f.context, f.request) == f.operationId && signed
    && |f.openings| == |f.request.outputs| && |f.inputOpenings| == |f.request.inputIds|
    && |f.outputIds| == |f.request.outputs|
    && (forall i :: 0 <= i < |f.outputIds| ==> f.outputIds[i] == t.crypto.outputId(f.operationId, i))
    && (forall i :: 0 <= i < |f.openings| ==> t.commit(f.openings[i]) == Some(f.request.outputs[i].commitment))
    && (forall i :: 0 <= i < |f.inputOpenings| ==> t.commit(f.inputOpenings[i]).Some?)
    && Conserves(f.request, f.inputOpenings, f.openings)
  }

  // ----- What a selection gives -----

  ghost predicate SelectedCoins(coins: seq<Coin>, candidates: seq<Coin>, context: Context, owner: nat, amount: int) {
    && 1 <= |coins| <= 2 && Selection.Ascending(coins) && Feasible(coins, amount)
    && (forall i :: 0 <= i < |coins| ==> coins[i] in candidates && Matching(coins[i], context, owner) && Settled(coins[i], context))
  }

  lemma SelectionGives(context: Context, candidates: seq<Coin>, kind: int, owner: nat, amount: int, explicitIds: Option<seq<nat>>,
      r: Result<seq<Coin>, SelectionError>)
    requires SelectionResult(context, candidates, kind, owner, amount, explicitIds, r) && r.Ok?
    ensures ValidAmount(kind, amount) && ValidCandidates(candidates)
    ensures SelectedCoins(r.value, candidates, context, owner, amount)
    ensures explicitIds.Some? ==> Named(candidates, r.value, explicitIds.value)
  {
    if explicitIds.None? {
      FilterMembers(candidates, coin => Matching(coin, context, owner) && Settled(coin, context));
      assert Choice(AvailableOf(candidates, context, owner), r.value, amount);
    } else {
      ExplicitGives(context, candidates, owner, amount, explicitIds.value, r);
    }
  }

  lemma ExplicitGives(context: Context, candidates: seq<Coin>, owner: nat, amount: int, ids: seq<nat>, r: Result<seq<Coin>, SelectionError>)
    requires SelectsExplicitly(candidates, context, owner, amount, ids, r) && r.Ok? && ExplicitOk(ids)
    ensures SelectedCoins(r.value, candidates, context, owner, amount) && Named(candidates, r.value, ids)
  {
    var chosen: seq<Coin> :| Named(candidates, chosen, ids) && r == ExplicitResult(chosen, context, owner, amount);
    assert chosen == r.value;
    forall i | 0 <= i < |chosen| ensures chosen[i] in candidates && Matching(chosen[i], context, owner) && Settled(chosen[i], context) {
      assert chosen[i] in chosen;
    }
  }

  // ----- Fixing -----

  // Change is what the inputs leave over.
  function ChangeOf(coins: seq<Coin>, amount: int): int {
    Sum(coins) - amount
  }

  function PlansOf(intent: Intent, coins: seq<Coin>): Option<seq<Plan>>
    requires intent.amount >= 0
  {
    match intent
    case Deposit(_, amount, recipient) => Some([Plan(amount, recipient)])
    case Transfer(_, amount, recipient, changeRecipient, _) =>
      if ChangeOf(coins, amount) <= 0 then Some([Plan(amount, recipient)])
      else if changeRecipient.None? then None
      else Some([Plan(amount, recipient), Plan(ChangeOf(coins, amount), changeRecipient.value)])
    case Withdraw(_, amount, _, changeRecipient, _) =>
      if ChangeOf(coins, amount) <= 0 then Some([])
      else if changeRecipient.None? then None
      else Some([Plan(ChangeOf(coins, amount), changeRecipient.value)])
  }

  // The owner whose signed information each output must carry.
  function ExpectedOwner(intent: Intent, plans: seq<Plan>, i: nat): nat
    requires i < |plans|
  {
    if intent.Transfer? && i == 0 then plans[i].recipient.owner else intent.owner
  }

  function OpeningsOf(plans: seq<Plan>, draws: Draws): seq<Opening> {
    seq(|plans|, i requires 0 <= i < |plans| => Opening(plans[i].amount, draws.blindings(i)))
  }

  // The request before its packets are filled in.
  function Skeleton(intent: Intent, salt: nat, coins: seq<Coin>, outputs: seq<Output>): Request
    requires intent.amount >= 0
  {
    Request(intent.Kind(), intent.owner, salt, InputIds(coins), outputs,
            if intent.Deposit? then intent.amount else 0, if intent.Withdraw? then intent.amount else 0,
            if intent.Withdraw? then intent.destination else 0)
  }

  // What was fixed is exactly what the intent and the selected coins ask for.
  ghost predicate FixedFor(t: Tools, context: Context, intent: Intent, coins: seq<Coin>, plans: seq<Plan>, f: Fixed) {
    && intent.amount >= 0 && PlansOf(intent, coins) == Some(plans)
    && f.context == context
    && f.request == Skeleton(intent, f.request.salt, coins, f.request.outputs)
    && |f.request.outputs| == |plans| == |f.openings|
    && (forall i :: 0 <= i < |plans| ==>
          && f.openings[i].amount == plans[i].amount && f.request.outputs[i].owner == plans[i].recipient.owner
          && VerifyRecipient(context, plans[i].recipient, ExpectedOwner(intent, plans, i))
          && t.commit(f.openings[i]) == Some(f.request.outputs[i].commitment))
    && f.inputOpenings == InputOpenings(coins)
    && (forall i :: 0 <= i < |coins| ==> t.commit(coins[i].opening).Some?)
    && f.operationId == t.crypto.OperationId(context, f.request)
    && f.outputIds == OutputIdsOf(t, f.operationId, |f.request.outputs|)
    && ValidShape(t.crypto, f.request)
  }

  ghost predicate CoinsFor(intent: Intent, context: Context, candidates: seq<Coin>, coins: seq<Coin>) {
    if intent.Deposit? then coins == [] && 1 <= intent.amount <= M
    else
      && ValidAmount(intent.Kind(), intent.amount) && ValidCandidates(candidates)
      && SelectedCoins(coins, candidates, context, intent.owner, intent.amount)
      && (intent.ExplicitIds().Some? ==> Named(candidates, coins, intent.ExplicitIds().value))
  }

  ghost predicate CommitmentsTrue(t: Tools, coins: seq<Coin>) {
    forall i :: 0 <= i < |coins| ==> t.commit(coins[i].opening) == Some(coins[i].commitment)
  }

  // Coin k is the first whose opening does not give its commitment.
  ghost predicate FirstUntrue(t: Tools, coins: seq<Coin>, k: int, e: BuildError) {
    && 0 <= k < |coins| && t.commit(coins[k].opening) != Some(coins[k].commitment)
    && (forall j :: 0 <= j < k ==> t.commit(coins[j].opening) == Some(coins[j].commitment))
    && e == if t.commit(coins[k].opening).None? then CryptoFailed else Rejected
  }

  method CheckCommitments(t: Tools, coins: seq<Coin>) returns (r: Option<BuildError>)
    ensures r.None? <==> CommitmentsTrue(t, coins)
    ensures r.Some? ==> exists k :: FirstUntrue(t, coins, k, r.value)
  {
    for k := 0 to |coins|
      invariant CommitmentsTrue(t, coins[..k])
    {
      var commitment := t.commit(coins[k].opening);
      if commitment.None? {
        assert FirstUntrue(t, coins, k, CryptoFailed);
        return Some(CryptoFailed);
      }
      if commitment.value != coins[k].commitment {
        assert FirstUntrue(t, coins, k, Rejected);
        return Some(Rejected);
      }
      assert coins[..k + 1] == coins[..k] + [coins[k]];
    }
    assert coins[..|coins|] == coins;
    r := None;
  }

  ghost predicate RecipientsVerified(context: Context, intent: Intent, plans: seq<Plan>) {
    forall i :: 0 <= i < |plans| ==> VerifyRecipient(context, plans[i].recipient, ExpectedOwner(intent, plans, i))
  }

  method CheckRecipients(context: Context, intent: Intent, plans: seq<Plan>) returns (ok: bool)
    ensures ok <==> RecipientsVerified(context, intent, plans)
  {
    for k := 0 to |plans|
      invariant forall i :: 0 <= i < k ==> VerifyRecipient(context, plans[i].recipient, ExpectedOwner(intent, plans, i))
    {
      if !VerifyRecipient(context, plans[k].recipient, ExpectedOwner(intent, plans, k)) { return false; }
    }
    ok := true;
  }

  // The outputs agree in all but their packets, and so does what a receipt is bound to.
  predicate SameButPackets(a: seq<Output>, b: seq<Output>) {
    |a| == |b| && forall i :: 0 <= i < |a| ==> a[i].(packet := []) == b[i].(packet := [])
  }

  // Output i carries the opening of its amount, encrypted for the key of its own recipient and
  // bound to the request as it is but for the packets.
  ghost predicate SealedAt(t: Tools, context: Context, intent: Intent, salt: nat, coins: seq<Coin>, plans: seq<Plan>,
      openings: seq<Opening>, outputs: seq<Output>, i: int)
    requires intent.amount >= 0 && |outputs| == |plans| == |openings|
  {
    && 0 <= i < |plans|
    && exists made :: SameButPackets(made, outputs)
         && t.encrypt(context, Skeleton(intent, salt, coins, made), i, plans[i].recipient.key, openings[i]) == Some(outputs[i].packet)
  }

  // The outputs of a request, one for each plan.
  ghost predicate Made(t: Tools, context: Context, intent: Intent, salt: nat, coins: seq<Coin>, plans: seq<Plan>,
      openings: seq<Opening>, outputs: seq<Output>)
    requires intent.amount >= 0
  {
    && |outputs| == |plans| == |openings|
    && forall i :: 0 <= i < |plans| ==>
         && outputs[i].owner == plans[i].recipient.owner && outputs[i].receiptFormat == 1
         && t.commit(openings[i]) == Some(outputs[i].commitment)
         && SealedAt(t, context, intent, salt, coins, plans, openings, outputs, i)
  }

  // Some commitment or some packet cannot be made.
  ghost predicate CannotMake(t: Tools, context: Context, intent: Intent, salt: nat, coins: seq<Coin>, plans: seq<Plan>, openings: seq<Opening>)
    requires intent.amount >= 0 && |openings| == |plans|
  {
    || (exists i :: 0 <= i < |plans| && t.commit(openings[i]).None?)
    || (exists i, made :: 0 <= i < |plans|
          && t.encrypt(context, Skeleton(intent, salt, coins, made), i, plans[i].recipient.key, openings[i]).None?)
  }

  // Outputs with their commitments, then with their packets one after another.
  method MakeOutputs(t: Tools, context: Context, intent: Intent, salt: nat, coins: seq<Coin>, plans: seq<Plan>, openings: seq<Opening>)
      returns (r: Option<seq<Output>>)
    requires |openings| == |plans| && intent.amount >= 0
    ensures r.Some? ==> Made(t, context, intent, salt, coins, plans, openings, r.value)
    ensures r.None? ==> CannotMake(t, context, intent, salt, coins, plans, openings)
    ensures Encrypts(t) && (forall i :: 0 <= i < |openings| ==> t.commit(openings[i]).Some?) ==>
      r.Some? && forall i :: 0 <= i < |plans| ==> |r.value[i].packet| == 112
  {
    var outputs: seq<Output> := [];
    for i := 0 to |plans|
      invariant |outputs| == i
      invariant forall j :: 0 <= j < i ==>
        && outputs[j].owner == plans[j].recipient.owner && outputs[j].receiptFormat == 1
        && t.commit(openings[j]) == Some(outputs[j].commitment)
    {
      var commitment := t.commit(openings[i]);
      if commitment.None? { return None; }
      outputs := outputs + [Output(plans[i].recipient.owner, commitment.value, 1, [])];
    }
    for i := 0 to |plans|
      invariant |outputs| == |plans|
      invariant forall j :: 0 <= j < |plans| ==>
        && outputs[j].owner == plans[j].recipient.owner && outputs[j].receiptFormat == 1
        && t.commit(openings[j]) == Some(outputs[j].commitment)
      invariant forall j :: 0 <= j < i ==> SealedAt(t, context, intent, salt, coins, plans, openings, outputs, j)
      invariant Encrypts(t) ==> forall j :: 0 <= j < i ==> |outputs[j].packet| == 112
    {
      var packet := t.encrypt(context, Skeleton(intent, salt, coins, outputs), i, plans[i].recipient.key, openings[i]);
      if packet.None? { return None; }
      SealNext(t, context, intent, salt, coins, plans, openings, outputs, i, packet.value);
      outputs := outputs[i := outputs[i].(packet := packet.value)];
    }
    r := Some(outputs);
  }

  lemma SameTransitive(a: seq<Output>, b: seq<Output>, c: seq<Output>)
    requires SameButPackets(a, b) && SameButPackets(b, c)
    ensures SameButPackets(a, c)
  {
    forall i | 0 <= i < |a| ensures a[i].(packet := []) == c[i].(packet := []) {
      assert a[i].(packet := []) == b[i].(packet := []);
    }
  }

  // Filling in one more packet leaves those before it.
  lemma SealNext(t: Tools, context: Context, intent: Intent, salt: nat, coins: seq<Coin>, plans: seq<Plan>, openings: seq<Opening>,
      outputs: seq<Output>, i: nat, packet: seq<nat>)
    requires intent.amount >= 0 && |outputs| == |plans| == |openings| && i < |plans|
    requires t.encrypt(context, Skeleton(intent, salt, coins, outputs), i, plans[i].recipient.key, openings[i]) == Some(packet)
    requires forall j :: 0 <= j < i ==> SealedAt(t, context, intent, salt, coins, plans, openings, outputs, j)
    ensures var more := outputs[i := outputs[i].(packet := packet)];
      forall j :: 0 <= j <= i ==> SealedAt(t, context, intent, salt, coins, plans, openings, more, j)
  {
    var more := outputs[i := outputs[i].(packet := packet)];
    assert SameButPackets(outputs, more);
    forall j | 0 <= j < i ensures SealedAt(t, context, intent, salt, coins, plans, openings, more, j) {
      assert SealedAt(t, context, intent, salt, coins, plans, openings, outputs, j);
      var made :| SameButPackets(made, outputs)
        && t.encrypt(context, Skeleton(intent, salt, coins, made), j, plans[j].recipient.key, openings[j]) == Some(outputs[j].packet);
      SameTransitive(made, outputs, more);
    }
  }

  // Encryption works and gives packets of the one length.
  ghost predicate Encrypts(t: Tools) {
    forall context, request, i, key, opening ::
      t.encrypt(context, request, i, key, opening).Some? && |t.encrypt(context, request, i, key, opening).value| == 112
  }

  // Commitments to valid openings are valid points.
  ghost predicate Commits(t: Tools) {
    forall o :: ValidOpening(o) ==>
      && t.commit(o).Some? && t.crypto.validPoint(t.commit(o).value)
      && t.commit(o).value.x < WORD_LIMIT && t.commit(o).value.y < WORD_LIMIT
  }

  // Everything building asks of its caller and its tools is in order.
  ghost predicate InOrder(t: Tools, context: Context, intent: Intent, candidates: seq<Coin>, draws: Draws) {
    && Encrypts(t) && Commits(t)
    && draws.salt.Some? && draws.salt.value < WORD_LIMIT && (forall i :: draws.blindings(i) < Q)
    && 0 < intent.owner < ADDRESS_LIMIT
    && WellFormedIds(candidates) && CommitmentsTrue(t, candidates)
    && RecipientsInOrder(context, intent)
    && AmountAndSelectionInOrder(context, intent, candidates)
  }

  ghost predicate AmountAndSelectionInOrder(context: Context, intent: Intent, candidates: seq<Coin>) {
    && 1 <= intent.amount <= (if intent.Withdraw? then 2 * M else M)
    && (!intent.Deposit? ==> forall r ::
          SelectionResult(context, candidates, intent.Kind(), intent.owner, intent.amount, intent.ExplicitIds(), r) ==> r.Ok?)
  }

  ghost predicate RecipientsInOrder(context: Context, intent: Intent) {
    match intent
    case Deposit(owner, _, recipient) => VerifyRecipient(context, recipient, owner)
    case Transfer(owner, _, recipient, changeRecipient, _) =>
      && VerifyRecipient(context, recipient, recipient.owner)
      && changeRecipient.Some? && VerifyRecipient(context, changeRecipient.value, owner)
    case Withdraw(owner, _, destination, changeRecipient, _) =>
      && 0 < destination < ADDRESS_LIMIT
      && changeRecipient.Some? && VerifyRecipient(context, changeRecipient.value, owner)
  }

  lemma PlansInOrder(context: Context, intent: Intent, coins: seq<Coin>)
    requires intent.amount >= 0 && RecipientsInOrder(context, intent)
    ensures PlansOf(intent, coins).Some?
    ensures var plans := PlansOf(intent, coins).value;
      |plans| <= 2 && RecipientsVerified(context, intent, plans)
  {
  }

  lemma SelectedTrue(t: Tools, context: Context, intent: Intent, candidates: seq<Coin>, coins: seq<Coin>)
    requires CoinsFor(intent, context, candidates, coins) && CommitmentsTrue(t, candidates)
    ensures CommitmentsTrue(t, coins)
  {
    forall i | 0 <= i < |coins| ensures t.commit(coins[i].opening) == Some(coins[i].commitment) {
      assert coins[i] in candidates;
    }
  }

  lemma OpeningsValid(t: Tools, context: Context, intent: Intent, candidates: seq<Coin>, coins: seq<Coin>, draws: Draws)
    requires CoinsFor(intent, context, candidates, coins) && InOrder(t, context, intent, candidates, draws)
    ensures var plans := PlansOf(intent, coins);
      plans.Some? && forall i :: 0 <= i < |plans.value| ==> ValidOpening(OpeningsOf(plans.value, draws)[i])
  {
    PlansInOrder(context, intent, coins);
  }

  // With everything in order the request that is fixed has the shape every layer relies on.
  lemma ShapeHolds(t: Tools, context: Context, intent: Intent, candidates: seq<Coin>, coins: seq<Coin>, draws: Draws,
      plans: seq<Plan>, outputs: seq<Output>)
    requires InOrder(t, context, intent, candidates, draws) && CoinsFor(intent, context, candidates, coins)
    requires PlansOf(intent, coins) == Some(plans) && |outputs| == |plans|
    requires forall i :: 0 <= i < |plans| ==>
      && outputs[i].owner == plans[i].recipient.owner && outputs[i].receiptFormat == 1 && |outputs[i].packet| == 112
      && t.commit(OpeningsOf(plans, draws)[i]) == Some(outputs[i].commitment)
    ensures ValidShape(t.crypto, Skeleton(intent, draws.salt.value, coins, outputs))
  {
    PlansInOrder(context, intent, coins);
    OpeningsValid(t, context, intent, candidates, coins, draws);
    forall i | 0 <= i < |outputs| ensures ValidOutput(t.crypto, outputs[i]) {
      assert ValidOpening(OpeningsOf(plans, draws)[i]);
    }
    forall i | 0 <= i < |coins| ensures coins[i].id < WORD_LIMIT {
      assert coins[i] in candidates;
    }
  }

  predicate AmountInRange(intent: Intent) { 1 <= intent.amount <= (if intent.Withdraw? then 2 * M else M) }

  ghost predicate Chosen(context: Context, intent: Intent, candidates: seq<Coin>, coins: seq<Coin>) {
    && AmountInRange(intent)
    && if intent.Deposit? then coins == []
       else SelectionResult(context, candidates, intent.Kind(), intent.owner, intent.amount, intent.ExplicitIds(), Ok(coins))
  }

  // Why there are no inputs: the amount, the selection, or a coin that is not what it is said to be.
  ghost predicate ChoiceFails(t: Tools, context: Context, intent: Intent, candidates: seq<Coin>, e: BuildError) {
    if !AmountInRange(intent) then e == Rejected
    else if e.SelectionFailed? then
      && !intent.Deposit?
      && SelectionResult(context, candidates, intent.Kind(), intent.owner, intent.amount, intent.ExplicitIds(), Err(e.error))
    else exists coins, k :: Chosen(context, intent, candidates, coins) && FirstUntrue(t, coins, k, e)
  }

  // The amount's bounds, then the inputs and their commitments.
  method ChooseInputs(t: Tools, context: Context, intent: Intent, candidates: seq<Coin>) returns (r: Result<seq<Coin>, BuildError>)
    ensures r.Ok? ==> CoinsFor(intent, context, candidates, r.value) && CommitmentsTrue(t, r.value)
    ensures AmountAndSelectionInOrder(context, intent, candidates) && CommitmentsTrue(t, candidates) ==> r.Ok?
    ensures r.Ok? ==> Chosen(context, intent, candidates, r.value)
    ensures r.Err? ==> ChoiceFails(t, context, intent, candidates, r.error)
  {
    if intent.amount < 1 || intent.amount > (if intent.Withdraw? then 2 * M else M) { return Err(Rejected); }
    var inputs: seq<Coin> := [];
    if !intent.Deposit? {
      var selection := SelectInputs(context, candidates, intent.Kind(), intent.owner, intent.amount, intent.ExplicitIds());
      if selection.Err? { return Err(SelectionFailed(selection.error)); }
      SelectionGives(context, candidates, intent.Kind(), intent.owner, intent.amount, intent.ExplicitIds(), selection);
      inputs := selection.value;
    }
    if CommitmentsTrue(t, candidates) { SelectedTrue(t, context, intent, candidates, inputs); }
    var failure := CheckCommitments(t, inputs);
    r := if failure.Some? then Err(failure.value) else Ok(inputs);
  }

  // Why there is no plan: change with no one to go to, or a recipient whose signed information is not in order.
  ghost predicate PlanFails(context: Context, intent: Intent, coins: seq<Coin>, e: BuildError)
    requires intent.amount >= 0
  {
    match PlansOf(intent, coins)
    case None => e == Rejected
    case Some(plans) => e == SignatureRejected && !RecipientsVerified(context, intent, plans)
  }

  // The outputs to make and the signed information of their recipients.
  method PlanOutputs(context: Context, intent: Intent, coins: seq<Coin>) returns (r: Result<seq<Plan>, BuildError>)
    requires intent.amount >= 0
    ensures r.Ok? ==> PlansOf(intent, coins) == Some(r.value) && RecipientsVerified(context, intent, r.value)
    ensures RecipientsInOrder(context, intent) ==> r.Ok?
    ensures r.Err? ==> PlanFails(context, intent, coins, r.error)
  {
    if RecipientsInOrder(context, intent) { PlansInOrder(context, intent, coins); }
    var plans := PlansOf(intent, coins);
    if plans.None? { return Err(Rejected); }
    var verified := CheckRecipients(context, intent, plans.value);
    r := if verified then Ok(plans.value) else Err(SignatureRejected);
  }

  // The salt and the blindings are those drawn, and each output is sealed for its recipient.
  ghost predicate DrawnFrom(t: Tools, context: Context, intent: Intent, coins: seq<Coin>, plans: seq<Plan>, draws: Draws, f: Fixed) {
    && intent.amount >= 0 && draws.salt == Some(f.request.salt)
    && |f.openings| == |plans| && (forall i :: 0 <= i < |plans| ==> f.openings[i] == Opening(plans[i].amount, draws.blindings(i)))
    && Made(t, context, intent, f.request.salt, coins, plans, f.openings, f.request.outputs)
  }

  // Why there is no request: no salt or too large a one, a commitment or packet that cannot be made,
  // or a request that is not well formed.
  ghost predicate RequestFails(t: Tools, context: Context, intent: Intent, coins: seq<Coin>, plans: seq<Plan>, draws: Draws, e: BuildError)
    requires intent.amount >= 0
  {
    if draws.salt.None? then e == CryptoFailed
    else if draws.salt.value >= WORD_LIMIT then e == Rejected
    else
      || (e == CryptoFailed && CannotMake(t, context, intent, draws.salt.value, coins, plans, OpeningsOf(plans, draws)))
      || (e == Rejected && exists outputs ::
            && Made(t, context, intent, draws.salt.value, coins, plans, OpeningsOf(plans, draws), outputs)
            && !ValidShape(t.crypto, Skeleton(intent, draws.salt.value, coins, outputs)))
  }

  // Salt, openings, commitments and packets.
  method FixRequest(t: Tools, context: Context, intent: Intent, candidates: seq<Coin>, coins: seq<Coin>, plans: seq<Plan>, draws: Draws)
      returns (r: Result<Fixed, BuildError>)
    requires CoinsFor(intent, context, candidates, coins) && CommitmentsTrue(t, coins)
    requires PlansOf(intent, coins) == Some(plans) && RecipientsVerified(context, intent, plans)
    ensures r.Ok? ==> FixedFor(t, context, intent, coins, plans, r.value) && DrawnFrom(t, context, intent, coins, plans, draws, r.value)
    ensures r.Err? ==> RequestFails(t, context, intent, coins, plans, draws, r.error)
    ensures InOrder(t, context, intent, candidates, draws) ==> r.Ok?
  {
    ghost var inOrder := InOrder(t, context, intent, candidates, draws);
    if draws.salt.None? { return Err(CryptoFailed); }
    if draws.salt.value >= WORD_LIMIT { return Err(Rejected); }
    var openings := OpeningsOf(plans, draws);
    if inOrder { OpeningsValid(t, context, intent, candidates, coins, draws); }
    var outputs := MakeOutputs(t, context, intent, draws.salt.value, coins, plans, openings);
    if outputs.None? { return Err(CryptoFailed); }
    var request := Skeleton(intent, draws.salt.value, coins, outputs.value);
    if inOrder { ShapeHolds(t, context, intent, candidates, coins, draws, plans, outputs.value); }
    if !ValidShape(t.crypto, request) { return Err(Rejected); }
    FixedIs(t, context, intent, candidates, coins, plans, draws, outputs.value);
    var id := t.crypto.OperationId(context, request);
    r := Ok(Fixed(context, request, id, OutputIdsOf(t, id, |request.outputs|), openings, InputOpenings(coins)));
  }

  lemma FixedIs(t: Tools, context: Context, intent: Intent, candidates: seq<Coin>, coins: seq<Coin>, plans: seq<Plan>, draws: Draws,
      outputs: seq<Output>)
    requires CoinsFor(intent, context, candidates, coins) && CommitmentsTrue(t, coins)
    requires PlansOf(intent, coins) == Some(plans) && RecipientsVerified(context, intent, plans)
    requires draws.salt.Some? && Made(t, context, intent, draws.salt.value, coins, plans, OpeningsOf(plans, draws), outputs)
    requires ValidShape(t.crypto, Skeleton(intent, draws.salt.value, coins, outputs))
    ensures var request := Skeleton(intent, draws.salt.value, coins, outputs);
      var id := t.crypto.OperationId(context, request);
      var f := Fixed(context, request, id, OutputIdsOf(t, id, |request.outputs|), OpeningsOf(plans, draws), InputOpenings(coins));
      FixedFor(t, context, intent, coins, plans, f) && DrawnFrom(t, context, intent, coins, plans, draws, f)
  {
  }

  // Where fixing fails: at the inputs, at the plan, or at the request.
  ghost predicate FixFails(t: Tools, context: Context, intent: Intent, candidates: seq<Coin>, draws: Draws, e: BuildError) {
    || ChoiceFails(t, context, intent, candidates, e)
    || (exists coins ::
          && Chosen(context, intent, candidates, coins) && CommitmentsTrue(t, coins)
          && (PlanFails(context, intent, coins, e)
              || (exists plans ::
                    && PlansOf(intent, coins) == Some(plans) && RecipientsVerified(context, intent, plans)
                    && RequestFails(t, context, intent, coins, plans, draws, e))))
  }

  // fixOperation: what it fixes is what was asked for, under the salt and blindings drawn and sealed
  // for its recipients; and with everything in order it succeeds.
  method FixOperation(t: Tools, context: Context, intent: Intent, candidates: seq<Coin>, draws: Draws)
      returns (r: Result<Fixed, BuildError>, ghost coins: seq<Coin>, ghost plans: seq<Plan>)
    ensures r.Ok? ==> CoinsFor(intent, context, candidates, coins) && FixedFor(t, context, intent, coins, plans, r.value)
    ensures r.Ok? ==> Chosen(context, intent, candidates, coins) && DrawnFrom(t, context, intent, coins, plans, draws, r.value)
    ensures r.Err? ==> FixFails(t, context, intent, candidates, draws, r.error)
    ensures InOrder(t, context, intent, candidates, draws) ==> r.Ok?
  {
    coins, plans := [], [];
    var inputs := ChooseInputs(t, context, intent, candidates);
    if inputs.Err? { return Err(inputs.error), coins, plans; }
    var planned := PlanOutputs(context, intent, inputs.value);
    if planned.Err? { return Err(planned.error), coins, plans; }
    coins, plans := inputs.value, planned.value;
    r := FixRequest(t, context, intent, candidates, inputs.value, planned.value, draws);
  }

  // ----- What the packets are for -----

  // What a receipt is bound to: the kind and salt of the request and its output, but for the packets.
  predicate SameInfo(a: Request, b: Request, i: int) {
    && a.kind == b.kind && a.salt == b.salt && 0 <= i < |a.outputs| && i < |b.outputs|
    && a.outputs[i].(packet := []) == b.outputs[i].(packet := [])
  }

  // Decryption undoes encryption: whoever holds the secret of the key a packet was made for opens it,
  // wherever the receipt is bound to the same, if the commitment is that of the opening.
  ghost predicate Opens(t: Tools, keys: KeyPort, public: nat -> nat) {
    forall context: Context, a: Request, b: Request, i: nat, secret: nat, opening: Opening ::
      SameInfo(a, b, i) && t.encrypt(context, a, i, public(secret), opening) == Some(b.outputs[i].packet)
      && t.commit(opening) == Some(b.outputs[i].commitment)
      ==> keys.open(secret, context, b, i) == Some(opening)
  }

  // Every recipient opens its own output, and finds the amount and blinding that were fixed.
  lemma PacketsOpen(t: Tools, context: Context, intent: Intent, coins: seq<Coin>, plans: seq<Plan>, draws: Draws, f: Fixed,
      keys: KeyPort, public: nat -> nat, i: nat, secret: nat)
    requires FixedFor(t, context, intent, coins, plans, f) && DrawnFrom(t, context, intent, coins, plans, draws, f)
    requires Opens(t, keys, public) && i < |plans| && public(secret) == plans[i].recipient.key
    ensures keys.open(secret, context, f.request, i) == Some(Opening(plans[i].amount, draws.blindings(i)))
  {
    assert SealedAt(t, context, intent, f.request.salt, coins, plans, f.openings, f.request.outputs, i);
    var made :| SameButPackets(made, f.request.outputs)
      && t.encrypt(context, Skeleton(intent, f.request.salt, coins, made), i, plans[i].recipient.key, f.openings[i])
         == Some(f.request.outputs[i].packet);
    assert SameInfo(Skeleton(intent, f.request.salt, coins, made), f.request, i);
  }

  // ----- Sums of what was fixed -----

  lemma {:induction false} InputAmounts(coins: seq<Coin>)
    ensures Amounts(InputOpenings(coins)) == Sum(coins)
  {
    if coins != [] {
      var n := |coins| - 1;
      InputAmounts(coins[..n]);
      assert InputOpenings(coins)[..n] == InputOpenings(coins[..n]);
    }
  }

  lemma AmountsOne(a: Opening)
    ensures Amounts([a]) == a.amount
  {
    assert [a][..0] == [];
  }

  lemma AmountsTwo(a: Opening, b: Opening)
    ensures Amounts([a, b]) == a.amount + b.amount
  {
    assert [a, b][..1] == [a];
    AmountsOne(a);
  }

  lemma OutputAmounts(f: Fixed, plans: seq<Plan>)
    requires |f.openings| == |plans| <= 2 && forall i :: 0 <= i < |plans| ==> f.openings[i].amount == plans[i].amount
    ensures Amounts(f.openings) ==
      if |plans| == 0 then 0 else if |plans| == 1 then plans[0].amount else plans[0].amount + plans[1].amount
  {
    if |plans| == 1 {
      assert f.openings == [f.openings[0]];
      AmountsOne(f.openings[0]);
    } else if |plans| == 2 {
      assert f.openings == [f.openings[0], f.openings[1]];
      AmountsTwo(f.openings[0], f.openings[1]);
    }
  }

  // Building conserves value: every output is between 1 and M, and what goes in comes out.
  lemma FixedConserves(t: Tools, context: Context, intent: Intent, candidates: seq<Coin>, coins: seq<Coin>, plans: seq<Plan>, f: Fixed)
    requires CoinsFor(intent, context, candidates, coins) && FixedFor(t, context, intent, coins, plans, f)
    ensures forall i :: 0 <= i < |f.openings| ==> 1 <= f.openings[i].amount <= M
    ensures Conserves(f.request, f.inputOpenings, f.openings)
  {
    InputAmounts(coins);
    OutputAmounts(f, plans);
  }

  // What was fixed passes every check made again before proving and before submission.
  lemma FixedIsReprovable(t: Tools, context: Context, intent: Intent, candidates: seq<Coin>, coins: seq<Coin>, plans: seq<Plan>, f: Fixed)
    requires CoinsFor(intent, context, candidates, coins) && FixedFor(t, context, intent, coins, plans, f)
    ensures ProveAccepts(t, f) && ValidateDraft(t, f, true)
  {
    FixedConserves(t, context, intent, candidates, coins, plans, f);
  }

  // What was fixed pays what was asked for: the recipient of a transfer gets the amount and the owner
  // the rest; a withdrawal releases the amount to its destination and the owner gets the rest; a
  // deposit turns its amount into one output. There is an output for the rest exactly when there is one.
  lemma FixedPays(t: Tools, context: Context, intent: Intent, candidates: seq<Coin>, coins: seq<Coin>, plans: seq<Plan>, f: Fixed)
    requires CoinsFor(intent, context, candidates, coins) && FixedFor(t, context, intent, coins, plans, f)
    ensures f.request.owner == intent.owner && f.request.inputIds == InputIds(coins) && |f.openings| == |f.request.outputs|
    ensures match intent
      case Deposit(owner, amount, recipient) =>
        && f.request.kind == 0 && f.request.d == amount && f.request.w == 0 && f.request.inputIds == []
        && |f.openings| == 1 && f.openings[0].amount == amount && f.request.outputs[0].owner == owner
      case Transfer(owner, amount, recipient, _, _) =>
        && f.request.kind == 1 && f.request.d == 0 && f.request.w == 0
        && |f.openings| == (if Sum(coins) > amount then 2 else 1)
        && f.openings[0].amount == amount && f.request.outputs[0].owner == recipient.owner
        && (Sum(coins) > amount ==> f.openings[1].amount == Sum(coins) - amount && f.request.outputs[1].owner == owner)
      case Withdraw(owner, amount, destination, _, _) =>
        && f.request.kind == 2 && f.request.d == 0 && f.request.w == amount && f.request.destination == destination
        && |f.openings| == (if Sum(coins) > amount then 1 else 0)
        && (Sum(coins) > amount ==> f.openings[0].amount == Sum(coins) - amount && f.request.outputs[0].owner == owner)
  {
  }

  // Every output goes to an owner whose key was signed for by that owner, for this chain and Pool.
  lemma FixedToSigned(t: Tools, context: Context, intent: Intent, coins: seq<Coin>, plans: seq<Plan>, f: Fixed, i: nat)
    requires FixedFor(t, context, intent, coins, plans, f) && i < |plans|
    ensures var r := plans[i].recipient;
      && r.signer == r.owner == f.request.outputs[i].owner && 0 < r.owner < ADDRESS_LIMIT
      && r.chainId == context.chainId && r.pool == context.pool && r.format == 1 && r.version == 1
  {
  }

  // What is spent: one or two of the candidates, of this owner, chain and Pool, available and seen at
  // a checkpoint that counts, worth the amount and at most the cap above it.
  lemma FixedSpends(intent: Intent, context: Context, candidates: seq<Coin>, coins: seq<Coin>)
    requires CoinsFor(intent, context, candidates, coins) && !intent.Deposit?
    ensures 1 <= |coins| <= 2 && (|coins| == 2 ==> coins[0].id < coins[1].id)
    ensures intent.amount <= Sum(coins) <= intent.amount + M
    ensures forall i :: 0 <= i < |coins| ==>
      && coins[i] in candidates && coins[i].owner == intent.owner
      && coins[i].chainId == context.chainId && coins[i].pool == context.pool
      && coins[i].status == Available && coins[i].checkpoint.mode == context.finalityMode
      && coins[i].checkpoint.number >= context.deploymentBlock
  {
  }

  // The two independently written checks of saved material agree.
  lemma ChecksAgree(t: Tools, f: Fixed)
    ensures ProveAccepts(t, f) <==> ValidateDraft(t, f, true)
    ensures !ValidateDraft(t, f, false)
  {
    var ids := OutputIdsOf(t, f.operationId, |f.request.outputs|);
    if |f.outputIds| == |ids| && forall i :: 0 <= i < |ids| ==> f.outputIds[i] == ids[i] { assert f.outputIds == ids; }
  }
}

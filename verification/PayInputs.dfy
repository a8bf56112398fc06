// The single input of a Pay (packages/uniswap/src/selection.ts) and the withdrawal it leads to
// (packages/uniswap/src/payment.ts).
module PayInputs {
  import opened Wrappers
  import opened Pool
  import opened Receipts
  import opened Selection
  import opened Building

  datatype PayState = Spendable | AwaitingReceipt | ReceiptInvalid | NotKnown | Reserved

  datatype PayInput = PayInput(id: nat, valueWei: int, owner: nat, state: PayState)

  predicate Eligible(input: PayInput, payment: int, owner: nat) {
    input.owner == owner && input.state == Spendable && input.valueWei > payment
  }

  // Smaller value, then smaller id.
  predicate Cheaper(a: PayInput, b: PayInput) {
    a.valueWei < b.valueWei || (a.valueWei == b.valueWei && a.id <= b.id)
  }

  // The cheapest eligible input, or none exactly when there is none.
  ghost predicate Cheapest(inputs: seq<PayInput>, payment: int, owner: nat, selected: Option<PayInput>) {
    && (selected.None? <==> payment <= 0 || forall i :: 0 <= i < |inputs| ==> !Eligible(inputs[i], payment, owner))
    && (selected.Some? ==>
      && selected.value in inputs && Eligible(selected.value, payment, owner)
      && forall i :: 0 <= i < |inputs| && Eligible(inputs[i], payment, owner) ==> Cheaper(selected.value, inputs[i]))
  }

  // selectPayInput: the cheapest input that leaves change, whatever the order of the inputs.
  method SelectPayInput(inputs: seq<PayInput>, payment: int, owner: nat) returns (selected: Option<PayInput>)
    ensures Cheapest(inputs, payment, owner, selected)
  {
    selected := None;
    if payment <= 0 { return; }
    for k := 0 to |inputs|
      invariant selected.None? <==> forall i :: 0 <= i < k ==> !Eligible(inputs[i], payment, owner)
      invariant selected.Some? ==> selected.value in inputs && Eligible(selected.value, payment, owner)
      invariant selected.Some? ==>
        forall i :: 0 <= i < k && Eligible(inputs[i], payment, owner) ==> Cheaper(selected.value, inputs[i])
    {
      var input := inputs[k];
      if input.owner != owner || input.state != Spendable || input.valueWei <= payment { continue; }
      if selected.None? || input.valueWei < selected.value.valueWei
        || (input.valueWei == selected.value.valueWei && input.id < selected.value.id) {
        selected := Some(input);
      }
    }
  }

  // ----- The withdrawal -----

  datatype Terms = Terms(
    operationId: nat, owner: nat, ethAmount: int, token: nat, minAmountOut: int, recipient: nat, deadline: int)

  datatype Deployment = Deployment(
    adapter: nat, token: nat, pool: nat, router: nat, factory: nat, weth: nat, pair: nat)

  predicate ValidAddress(address: nat) { 0 < address < ADDRESS_LIMIT }

  predicate CheckTerms(terms: Terms, chainId: int, adapter: nat) {
    && chainId > 0 && ValidAddress(adapter) && ValidAddress(terms.owner) && ValidAddress(terms.token)
    && ValidAddress(terms.recipient) && terms.operationId < WORD_LIMIT
    && 0 < terms.ethAmount < WORD_LIMIT && 0 < terms.minAmountOut < WORD_LIMIT
    && 0 < terms.deadline < 0x1_0000_0000_0000_0000
  }

  // assertWithdrawalBinding, without what it checks of the terms and addresses alone.
  predicate WithdrawalShape(f: Fixed, terms: Terms, adapter: nat) {
    && f.request.kind == 2 && f.request.d == 0
    && |f.request.inputIds| == 1 && |f.request.outputs| == 1
    && f.request.owner == terms.owner && f.request.outputs[0].owner == terms.owner
    && f.request.w == terms.ethAmount && f.request.destination == adapter
  }

  predicate WithdrawalBinding(c: Crypto, f: Fixed, rangeProofs: nat, terms: Terms, deployment: Deployment) {
    && CheckTerms(terms, 1, deployment.adapter)
    && ValidShape(c, f.request)
    && WithdrawalShape(f, terms, deployment.adapter)
    && rangeProofs == 1 && f.context.chainId > 0 && f.context.pool == deployment.pool
    && terms.token == deployment.token
    && terms.recipient !in [0, deployment.adapter, deployment.pool, deployment.router, deployment.factory, deployment.weth,
         deployment.token, deployment.pair]
    && c.OperationId(f.context, f.request) == f.operationId == terms.operationId
  }

  // A Pay is a withdrawal to the adapter from one named input.
  predicate IsPay(intent: Intent, input: nat, terms: Terms, adapter: nat) {
    && intent.Withdraw? && intent.owner == terms.owner && intent.amount == terms.ethAmount
    && intent.destination == adapter && intent.explicitIds == Some([input])
  }

  // The withdrawal has one input and one output, the owner's change, exactly when the input is
  // worth strictly more than the payment: the reason selectPayInput compares strictly.
  lemma PayHasOneChange(t: Tools, context: Context, intent: Intent, candidates: seq<Coin>, coins: seq<Coin>, plans: seq<Plan>,
      f: Fixed, input: nat, terms: Terms, adapter: nat)
    requires IsPay(intent, input, terms, adapter)
    requires CoinsFor(intent, context, candidates, coins) && FixedFor(t, context, intent, coins, plans, f)
    ensures |coins| == 1 && coins[0].id == input && f.request.inputIds == [input]
    ensures WithdrawalShape(f, terms, adapter) <==> coins[0].opening.amount > terms.ethAmount
  {
    assert HasId(coins, [input][0]);
    assert coins == [coins[0]];
    SumOne(coins[0]);
    assert InputIds(coins) == [input];
    if |plans| == 1 { assert VerifyRecipient(context, plans[0].recipient, ExpectedOwner(intent, plans, 0)); }
  }

  // So the withdrawal built for a Pay passes the binding to its payment terms exactly when the
  // coin is worth strictly more than the payment, whatever else about the terms is in order.
  lemma PayBinds(t: Tools, context: Context, intent: Intent, candidates: seq<Coin>, coins: seq<Coin>, plans: seq<Plan>,
      f: Fixed, input: nat, terms: Terms, deployment: Deployment)
    requires IsPay(intent, input, terms, deployment.adapter)
    requires CoinsFor(intent, context, candidates, coins) && FixedFor(t, context, intent, coins, plans, f)
    requires CheckTerms(terms, 1, deployment.adapter) && terms.operationId == f.operationId && terms.token == deployment.token
    requires context.chainId > 0 && context.pool == deployment.pool
    requires terms.recipient !in [0, deployment.adapter, deployment.pool, deployment.router, deployment.factory, deployment.weth,
                                  deployment.token, deployment.pair]
    ensures |coins| == 1
    ensures WithdrawalBinding(t.crypto, f, |f.request.outputs|, terms, deployment) <==> coins[0].opening.amount > terms.ethAmount
  {
    PayHasOneChange(t, context, intent, candidates, coins, plans, f, input, terms, deployment.adapter);
  }

  // Joined with the selection: of the owner's spendable inputs whose value is that of their coin,
  // those eligible are exactly those whose withdrawal passes the binding, so the one selected
  // passes, and when none is selected none would.
  lemma SelectedPays(inputs: seq<PayInput>, selected: Option<PayInput>, input: PayInput, t: Tools, context: Context,
      intent: Intent, candidates: seq<Coin>, coins: seq<Coin>, plans: seq<Plan>, f: Fixed, terms: Terms, deployment: Deployment)
    requires Cheapest(inputs, terms.ethAmount, terms.owner, selected) && input in inputs
    requires input.owner == terms.owner && input.state == Spendable
    requires IsPay(intent, input.id, terms, deployment.adapter)
    requires CoinsFor(intent, context, candidates, coins) && FixedFor(t, context, intent, coins, plans, f)
    requires forall c :: c in coins && c.id == input.id ==> c.opening.amount == input.valueWei
    requires CheckTerms(terms, 1, deployment.adapter) && terms.operationId == f.operationId && terms.token == deployment.token
    requires context.chainId > 0 && context.pool == deployment.pool
    requires terms.recipient !in [0, deployment.adapter, deployment.pool, deployment.router, deployment.factory, deployment.weth,
                                  deployment.token, deployment.pair]
    ensures selected == Some(input) ==> WithdrawalBinding(t.crypto, f, |f.request.outputs|, terms, deployment)
    ensures WithdrawalBinding(t.crypto, f, |f.request.outputs|, terms, deployment) ==>
      selected.Some? && Cheaper(selected.value, input)
  {
    PayHasOneChange(t, context, intent, candidates, coins, plans, f, input.id, terms, deployment.adapter);
    PayBinds(t, context, intent, candidates, coins, plans, f, input.id, terms, deployment);
    assert coins[0] in coins;
    var i :| 0 <= i < |inputs| && inputs[i] == input;
    assert WithdrawalBinding(t.crypto, f, |f.request.outputs|, terms, deployment) <==> Eligible(inputs[i], terms.ethAmount, terms.owner);
  }
}

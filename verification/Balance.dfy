// Commitments and the balance proof (packages/crypto/src/group.ts, packages/crypto/src/balance.ts).
// A curve point is the pair of its coefficients over the generators H and G, modulo the group order.
module Balance {
  import opened Wrappers
  import opened Pool
  import opened Field
  import opened Bytes

  datatype Element = Element(h: int, g: int)

  const Zero := Element(0, 0)
  const H := Element(1, 0)
  const G := Element(0, 1)

  predicate Canonical(p: Element) { 0 <= p.h < Q && 0 <= p.g < Q }

  function Add(a: Element, b: Element): Element {
    Element((a.h + b.h) % Q, (a.g + b.g) % Q)
  }

  function Neg(a: Element): Element {
    Element((-a.h) % Q, (-a.g) % Q)
  }

  // mul: None where the scalar is out of range.
  function Mul(p: Element, scalar: int): Option<Element> {
    if scalar < 0 || scalar >= Q then None else Some(Element(p.h * scalar % Q, p.g * scalar % Q))
  }

  // commit: None where it throws.
  function Commit(o: Opening): Option<Element> {
    if !ValidOpening(o) then None
    else Some(Add(Element(H.h * o.amount % Q, 0), Element(0, G.g * o.blinding % Q)))
  }

  function SumOf(points: seq<Element>): Element {
    if points == [] then Zero else Add(SumOf(points[..|points| - 1]), points[|points| - 1])
  }

  function Negated(points: seq<Element>): seq<Element> {
    seq(|points|, i requires 0 <= i < |points| => Neg(points[i]))
  }

  // computeBalancePoint: None where it throws.
  function ComputeBalancePoint(inputs: seq<Element>, outputs: seq<Element>, deposit: int, withdraw: int): Option<Element> {
    if |inputs| > 2 || |outputs| > 2 || deposit < 0 || deposit > M || withdraw < 0 || withdraw > 2 * M then None
    else
      var d, w := Mul(H, deposit), Mul(H, withdraw);
      if d.None? || w.None? then None else Some(SumOf(inputs + [d.value] + Negated(outputs) + [Neg(w.value)]))
  }

  function Total(values: seq<int>): int {
    if values == [] then 0 else Total(values[..|values| - 1]) + values[|values| - 1]
  }

  // balanceWitness: None where it throws.
  function BalanceWitness(inputs: seq<int>, outputs: seq<int>): Option<int> {
    if |inputs| > 2 || |outputs| > 2 || (exists b :: b in inputs + outputs && (b < 0 || b >= Q)) then None
    else Some(Mod(Total(inputs) - Total(outputs), Q))
  }

  // ----- Coefficients -----

  // The exact coefficients before any reduction.
  ghost predicate Reduces(p: Element, h: int, g: int) {
    Canonical(p) && Congruent(p.h, h, Q) && Congruent(p.g, g, Q)
  }

  lemma ReducedTo(x: int)
    ensures 0 <= x % Q < Q && Congruent(x % Q, x, Q)
  {
    ModTwice(x, Q);
  }

  lemma AddReduces(a: Element, b: Element, ha: int, ga: int, hb: int, gb: int)
    requires Reduces(a, ha, ga) && Reduces(b, hb, gb)
    ensures Reduces(Add(a, b), ha + hb, ga + gb)
  {
    CongruentAdd(a.h, ha, b.h, Q);
    CongruentAdd(b.h, hb, ha, Q);
    CongruentAdd(a.g, ga, b.g, Q);
    CongruentAdd(b.g, gb, ga, Q);
    ReducedTo(a.h + b.h);
    ReducedTo(a.g + b.g);
  }

  lemma NegReduces(a: Element, h: int, g: int)
    requires Reduces(a, h, g)
    ensures Reduces(Neg(a), -h, -g)
  {
    CongruentMul(a.h, h, -1, Q);
    CongruentMul(a.g, g, -1, Q);
    ReducedTo(-a.h);
    ReducedTo(-a.g);
  }

  ghost predicate AllReduce(points: seq<Element>, hs: seq<int>, gs: seq<int>) {
    |points| == |hs| == |gs| && forall i :: 0 <= i < |points| ==> Reduces(points[i], hs[i], gs[i])
  }

  lemma {:induction false} SumReduces(points: seq<Element>, hs: seq<int>, gs: seq<int>)
    requires AllReduce(points, hs, gs)
    ensures Reduces(SumOf(points), Total(hs), Total(gs))
  {
    if points != [] {
      var n := |points| - 1;
      SumReduces(points[..n], hs[..n], gs[..n]);
      AddReduces(SumOf(points[..n]), points[n], Total(hs[..n]), Total(gs[..n]), hs[n], gs[n]);
    }
  }

  lemma {:induction false} TotalConcat(xs: seq<int>, ys: seq<int>)
    ensures Total(xs + ys) == Total(xs) + Total(ys)
  {
    if ys == [] {
      assert xs + ys == xs;
    } else {
      TotalConcat(xs, ys[..|ys| - 1]);
      assert (xs + ys)[..|xs + ys| - 1] == xs + ys[..|ys| - 1];
    }
  }

  function Opposites(values: seq<int>): seq<int> {
    seq(|values|, i requires 0 <= i < |values| => -values[i])
  }

  lemma {:induction false} TotalOpposite(values: seq<int>)
    ensures Total(Opposites(values)) == -Total(values)
  {
    if values != [] {
      TotalOpposite(values[..|values| - 1]);
      assert Opposites(values)[..|values| - 1] == Opposites(values[..|values| - 1]);
    }
  }

  // ----- Openings -----

  function Amounts(openings: seq<Opening>): seq<int> {
    seq<int>(|openings|, i requires 0 <= i < |openings| => openings[i].amount)
  }

  function Blindings(openings: seq<Opening>): seq<int> {
    seq<int>(|openings|, i requires 0 <= i < |openings| => openings[i].blinding)
  }

  predicate ValidOpenings(openings: seq<Opening>) {
    forall i :: 0 <= i < |openings| ==> ValidOpening(openings[i])
  }

  function Commitments(openings: seq<Opening>): seq<Element>
    requires ValidOpenings(openings)
  {
    seq(|openings|, i requires 0 <= i < |openings| => Commit(openings[i]).value)
  }

  lemma SmallRemainder(x: int)
    requires 0 <= x < Q
    ensures x % Q == x
  {
    RemainderUnique(x, 0, x, Q);
  }

  lemma CommitReduces(o: Opening)
    requires ValidOpening(o)
    ensures Reduces(Commit(o).value, o.amount, o.blinding)
  {
    SmallRemainder(o.amount);
    SmallRemainder(o.blinding);
  }

  lemma CommitmentsReduce(openings: seq<Opening>)
    requires ValidOpenings(openings)
    ensures AllReduce(Commitments(openings), Amounts(openings), Blindings(openings))
  {
    forall i | 0 <= i < |openings| ensures Reduces(Commitments(openings)[i], Amounts(openings)[i], Blindings(openings)[i]) {
      CommitReduces(openings[i]);
    }
  }

  lemma NegatedReduce(points: seq<Element>, hs: seq<int>, gs: seq<int>)
    requires AllReduce(points, hs, gs)
    ensures AllReduce(Negated(points), Opposites(hs), Opposites(gs))
  {
    forall i | 0 <= i < |points| ensures Reduces(Negated(points)[i], Opposites(hs)[i], Opposites(gs)[i]) {
      NegReduces(points[i], hs[i], gs[i]);
    }
  }

  lemma {:induction false} TotalBounds(openings: seq<Opening>)
    requires ValidOpenings(openings)
    ensures 0 <= Total(Amounts(openings)) <= |openings| * M
  {
    if openings != [] {
      var n := |openings| - 1;
      TotalBounds(openings[..n]);
      assert Amounts(openings)[..n] == Amounts(openings[..n]);
    }
  }

  // What is left over, over the integers.
  function Imbalance(ins: seq<Opening>, outs: seq<Opening>, deposit: int, withdraw: int): int {
    Total(Amounts(ins)) + deposit - Total(Amounts(outs)) - withdraw
  }

  predicate InRange(ins: seq<Opening>, outs: seq<Opening>, deposit: int, withdraw: int) {
    && |ins| <= 2 && |outs| <= 2 && ValidOpenings(ins) && ValidOpenings(outs)
    && 0 <= deposit <= M && 0 <= withdraw <= 2 * M
  }

  lemma ConcatReduces(points: seq<Element>, hs: seq<int>, gs: seq<int>, more: seq<Element>, moreHs: seq<int>, moreGs: seq<int>)
    requires AllReduce(points, hs, gs) && AllReduce(more, moreHs, moreGs)
    ensures AllReduce(points + more, hs + moreHs, gs + moreGs)
  {
  }

  lemma AmountReduces(amount: int)
    requires 0 <= amount < Q
    ensures Mul(H, amount).Some? && AllReduce([Mul(H, amount).value], [amount], [0])
    ensures AllReduce([Neg(Mul(H, amount).value)], [-amount], [0])
  {
    SmallRemainder(amount);
    SmallRemainder(0);
    NegReduces(Mul(H, amount).value, amount, 0);
  }

  lemma PointsReduce(ins: seq<Element>, inHs: seq<int>, inGs: seq<int>, outs: seq<Element>, outHs: seq<int>, outGs: seq<int>,
      deposit: int, withdraw: int)
    requires AllReduce(ins, inHs, inGs) && AllReduce(outs, outHs, outGs)
    requires |ins| <= 2 && |outs| <= 2 && 0 <= deposit <= M && 0 <= withdraw <= 2 * M
    ensures var X := ComputeBalancePoint(ins, outs, deposit, withdraw);
      && X.Some?
      && Reduces(X.value, Total(inHs + [deposit] + Opposites(outHs) + [-withdraw]), Total(inGs + [0] + Opposites(outGs) + [0]))
  {
    AmountReduces(deposit);
    AmountReduces(withdraw);
    var d, w := [Mul(H, deposit).value], [Neg(Mul(H, withdraw).value)];
    NegatedReduce(outs, outHs, outGs);
    ConcatReduces(ins, inHs, inGs, d, [deposit], [0]);
    ConcatReduces(ins + d, inHs + [deposit], inGs + [0], Negated(outs), Opposites(outHs), Opposites(outGs));
    ConcatReduces(ins + d + Negated(outs), inHs + [deposit] + Opposites(outHs), inGs + [0] + Opposites(outGs), w, [-withdraw], [0]);
    SumReduces(ins + d + Negated(outs) + w, inHs + [deposit] + Opposites(outHs) + [-withdraw], inGs + [0] + Opposites(outGs) + [0]);
  }

  // The coefficients of the balance point.
  lemma BalancePointReduces(ins: seq<Opening>, outs: seq<Opening>, deposit: int, withdraw: int)
    requires InRange(ins, outs, deposit, withdraw)
    ensures var X := ComputeBalancePoint(Commitments(ins), Commitments(outs), deposit, withdraw);
      X.Some? && Reduces(X.value, Imbalance(ins, outs, deposit, withdraw), Total(Blindings(ins)) - Total(Blindings(outs)))
  {
    CommitmentsReduce(ins);
    CommitmentsReduce(outs);
    PointsReduce(Commitments(ins), Amounts(ins), Blindings(ins), Commitments(outs), Amounts(outs), Blindings(outs), deposit, withdraw);
    PartsTotal(Amounts(ins), deposit, Amounts(outs), -withdraw);
    PartsTotal(Blindings(ins), 0, Blindings(outs), 0);
  }

  lemma TotalOne(x: int)
    ensures Total([x]) == x
  {
    assert [x][..0] == [];
  }

  lemma PartsTotal(ins: seq<int>, a: int, outs: seq<int>, b: int)
    ensures Total(ins + [a] + Opposites(outs) + [b]) == Total(ins) + a - Total(outs) + b
  {
    TotalConcat(ins + [a] + Opposites(outs), [b]);
    TotalConcat(ins + [a], Opposites(outs));
    TotalConcat(ins, [a]);
    TotalOne(a);
    TotalOne(b);
    TotalOpposite(outs);
  }

  lemma WitnessReduces(ins: seq<Opening>, outs: seq<Opening>)
    requires |ins| <= 2 && |outs| <= 2 && ValidOpenings(ins) && ValidOpenings(outs)
    ensures var x := BalanceWitness(Blindings(ins), Blindings(outs));
      x.Some? && 0 <= x.value < Q && Congruent(x.value, Total(Blindings(ins)) - Total(Blindings(outs)), Q)
  {
    ModIsRemainder(Total(Blindings(ins)) - Total(Blindings(outs)), Q);
    ReducedTo(Total(Blindings(ins)) - Total(Blindings(outs)));
  }

  lemma CanonicalEqual(x: int, y: int)
    requires 0 <= x < Q && 0 <= y < Q && Congruent(x, y, Q)
    ensures x == y
  {
    SmallRemainder(x);
    SmallRemainder(y);
  }

  lemma SmallMultiple(x: int)
    requires -4 * M <= x <= 4 * M && Congruent(x, 0, Q)
    ensures x == 0
  {
    var k := CongruentApart(x, 0, Q);
  }

  // For openings and amounts in range the balance point is the witness times G exactly when
  // what goes in equals what comes out over the integers: nothing wraps around the group order.
  lemma BalanceExact(ins: seq<Opening>, outs: seq<Opening>, deposit: int, withdraw: int)
    requires InRange(ins, outs, deposit, withdraw)
    ensures var X := ComputeBalancePoint(Commitments(ins), Commitments(outs), deposit, withdraw);
      var x := BalanceWitness(Blindings(ins), Blindings(outs));
      && X.Some? && x.Some?
      && (X == Mul(G, x.value) <==> Total(Amounts(ins)) + deposit == Total(Amounts(outs)) + withdraw)
  {
    BalancePointReduces(ins, outs, deposit, withdraw);
    WitnessReduces(ins, outs);
    var X := ComputeBalancePoint(Commitments(ins), Commitments(outs), deposit, withdraw).value;
    var x := BalanceWitness(Blindings(ins), Blindings(outs)).value;
    SmallRemainder(x);
    SmallRemainder(0);
    CanonicalEqual(X.g, x);
    assert Mul(G, x) == Some(Element(0, x));
    TotalBounds(ins);
    TotalBounds(outs);
    var left := Imbalance(ins, outs, deposit, withdraw);
    if X.h == 0 { SmallMultiple(left); }
    if left == 0 { CanonicalEqual(X.h, 0); }
  }

  // ----- The proof of knowledge -----

  datatype Step = Step(counter: nat, candidate: nat, accepted: bool)

  predicate Challenge(candidate: nat) { 0 < candidate < Q }

  // balanceChallengeTrace: the first hash, counting up, that is a challenge; None after 256 tries.
  method ChallengeTrace(hash: nat -> nat) returns (trace: Option<seq<Step>>)
    ensures trace.Some? <==> exists n :: 0 <= n < 256 && Challenge(hash(n))
    ensures trace.Some? ==>
      && 0 < |trace.value| <= 256
      && (forall i :: 0 <= i < |trace.value| ==> trace.value[i] == Step(i, hash(i), i == |trace.value| - 1))
      && (forall i :: 0 <= i < |trace.value| ==> (trace.value[i].accepted <==> Challenge(hash(i))))
  {
    var steps := [];
    for counter := 0 to 256
      invariant |steps| == counter
      invariant forall i :: 0 <= i < counter ==> steps[i] == Step(i, hash(i), false) && !Challenge(hash(i))
    {
      var candidate := hash(counter);
      var accepted := 0 < candidate < Q;
      steps := steps + [Step(counter, candidate, accepted)];
      if accepted { return Some(steps); }
    }
    trace := None;
  }

  datatype Proof = Proof(R: Element, s: int)

  // proveBalanceWithSource after its nonce and challenge are drawn; None where the witness is refused.
  function Prove(X: Element, x: int, nonce: int, challenge: nat): Option<Proof> {
    if x < 0 || x >= Q || Some(X) != Mul(G, x) || Mul(G, nonce).None? then None
    else Some(Proof(Mul(G, nonce).value, Mod(nonce + challenge * x, Q)))
  }

  // What a verifier checks: s G = R + c X.
  predicate Verifies(proof: Proof, X: Element, challenge: nat) {
    && 0 <= proof.s < Q && Challenge(challenge)
    && Mul(G, proof.s).Some? && Mul(X, challenge).Some?
    && Mul(G, proof.s).value == Add(proof.R, Mul(X, challenge).value)
  }

  // A proof that is produced verifies, under every nonce and challenge.
  lemma ProofVerifies(X: Element, x: int, nonce: int, challenge: nat)
    requires Prove(X, x, nonce, challenge).Some? && Challenge(challenge)
    ensures Verifies(Prove(X, x, nonce, challenge).value, X, challenge)
  {
    var proof := Prove(X, x, nonce, challenge).value;
    ModIsRemainder(nonce + challenge * x, Q);
    ReducedTo(nonce + challenge * x);
    SmallRemainder(x);
    SmallRemainder(nonce);
    SmallRemainder(proof.s);
    SmallRemainder(0);
    assert X == Element(0, x) && proof.R == Element(0, nonce);
    assert Mul(X, challenge).value == Element(0, x * challenge % Q);
    assert x * challenge == challenge * x;
    ReducedTo(challenge * x);
    CongruentAdd(challenge * x % Q, challenge * x, nonce, Q);
  }

  // For a balanced operation the prover never refuses its own witness.
  lemma BalancedProves(ins: seq<Opening>, outs: seq<Opening>, deposit: int, withdraw: int, nonce: int, challenge: nat)
    requires InRange(ins, outs, deposit, withdraw) && 0 <= nonce < Q
    ensures var X := ComputeBalancePoint(Commitments(ins), Commitments(outs), deposit, withdraw);
      var x := BalanceWitness(Blindings(ins), Blindings(outs));
      && X.Some? && x.Some?
      && (Prove(X.value, x.value, nonce, challenge).Some? <==>
            Total(Amounts(ins)) + deposit == Total(Amounts(outs)) + withdraw)
  {
    BalanceExact(ins, outs, deposit, withdraw);
    WitnessReduces(ins, outs);
  }

  // The proof is the one for its nonce: its first half is that multiple of G, so two nonces never
  // give the same, and the second half is then the only response that verifies. It is refused
  // exactly when the witness is not that of X or a scalar is out of range.
  lemma ProofIs(X: Element, x: int, nonce: int, challenge: nat)
    ensures Prove(X, x, nonce, challenge).Some? <==> 0 <= x < Q && X == Element(0, x) && 0 <= nonce < Q
    ensures Prove(X, x, nonce, challenge).Some? ==>
      var proof := Prove(X, x, nonce, challenge).value;
      && proof.R == Element(0, nonce) && 0 <= proof.s < Q && Congruent(proof.s, nonce + challenge * x, Q)
  {
    SmallRemainder(0);
    if 0 <= x < Q { SmallRemainder(x); }
    if 0 <= nonce < Q { SmallRemainder(nonce); }
    ModIsRemainder(nonce + challenge * x, Q);
    ReducedTo(nonce + challenge * x);
  }

  lemma OneResponse(X: Element, challenge: nat, a: Proof, b: Proof)
    requires Verifies(a, X, challenge) && Verifies(b, X, challenge) && a.R == b.R
    ensures a == b
  {
    SmallRemainder(a.s);
    SmallRemainder(b.s);
    assert Mul(G, a.s).value.g == a.s && Mul(G, b.s).value.g == b.s;
  }

  // What is refused: more than two inputs or outputs, amounts beyond what a deposit or a withdrawal
  // can be, blindings that are no scalars, and openings that are none.
  lemma RefusesExactly(inputs: seq<Element>, outputs: seq<Element>, deposit: int, withdraw: int, ins: seq<int>, outs: seq<int>, o: Opening)
    ensures ComputeBalancePoint(inputs, outputs, deposit, withdraw).Some? <==>
      |inputs| <= 2 && |outputs| <= 2 && 0 <= deposit <= M && 0 <= withdraw <= 2 * M
    ensures BalanceWitness(ins, outs).Some? <==>
      && |ins| <= 2 && |outs| <= 2
      && (forall i :: 0 <= i < |ins| ==> 0 <= ins[i] < Q) && (forall i :: 0 <= i < |outs| ==> 0 <= outs[i] < Q)
    ensures Commit(o).Some? <==> 1 <= o.amount <= M && o.blinding < Q
  {
    if forall b :: b in ins + outs ==> 0 <= b < Q {
      forall i | 0 <= i < |ins| ensures 0 <= ins[i] < Q { assert ins[i] in ins + outs; }
      forall i | 0 <= i < |outs| ensures 0 <= outs[i] < Q { assert outs[i] in ins + outs; }
    }
  }
}

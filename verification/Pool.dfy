// Requests, observed operations and observations of the Pool contract
// (packages/core/src/types.ts), and the public request shape (packages/core/src/encoding.ts).
//
// Addresses, ids and hashes are the numbers their hexadecimal strings denote, so comparing two
// strings without regard to case is equality here; a number out of range stands for a string
// of the wrong length.
module Pool {
  import opened Wrappers

  const M: nat := 0x1_0000_0000_0000_0000
  const WORD_LIMIT: nat := 0x1_0000000000000000_0000000000000000_0000000000000000_0000000000000000
  const ADDRESS_LIMIT: nat := 0x1_00000000_0000000000000000_0000000000000000
  const MAX_SAFE_INTEGER: nat := 0x1F_FFFF_FFFF_FFFF

  datatype FinalityMode = Finalized | LocalSimulated

  datatype Context = Context(
    chainId: nat, pool: nat, deploymentBlock: nat, verifier: nat, parametersHash: nat, finalityMode: FinalityMode)

  datatype Point = Point(x: nat, y: nat)

  datatype Opening = Opening(amount: nat, blinding: nat)

  datatype Output = Output(owner: nat, commitment: Point, receiptFormat: nat, packet: seq<nat>)

  // kind 0 deposits, 1 transfers, 2 withdraws.
  datatype Request = Request(
    kind: nat, owner: nat, salt: nat, inputIds: seq<nat>, outputs: seq<Output>, d: nat, w: nat, destination: nat)

  // The hashes and the curve check the core calls, left uninterpreted.
  datatype Crypto = Crypto(
    operationIdOf: (nat, nat, Request) -> nat,
    outputId: (nat, nat) -> nat,
    validPoint: Point -> bool)
  {
    function OperationId(context: Context, request: Request): nat {
      operationIdOf(context.chainId, context.pool, request)
    }
  }

  // validateOperationShape.
  predicate ValidShape(c: Crypto, r: Request) {
    && r.kind <= 2
    && r.owner < ADDRESS_LIMIT && r.destination < ADDRESS_LIMIT && r.salt < WORD_LIMIT
    && r.d < WORD_LIMIT && r.w < WORD_LIMIT
    && (forall i :: 0 <= i < |r.inputIds| ==> r.inputIds[i] < WORD_LIMIT)
    && (forall i :: 1 <= i < |r.inputIds| ==> r.inputIds[i - 1] < r.inputIds[i])
    && (forall i :: 0 <= i < |r.outputs| ==> ValidOutput(c, r.outputs[i]))
    && (if r.kind == 0 then
          |r.inputIds| == 0 && |r.outputs| == 1 && r.outputs[0].owner == r.owner && 1 <= r.d <= M && r.w == 0
        else
          && 1 <= |r.inputIds| <= 2 && r.d == 0
          && (if r.kind == 1 then
                1 <= |r.outputs| <= 2 && (|r.outputs| == 1 || r.outputs[1].owner == r.owner) && r.w == 0
              else
                |r.outputs| <= 1 && (|r.outputs| == 0 || r.outputs[0].owner == r.owner) && 1 <= r.w <= 2 * M))
    && (r.kind == 2 <==> r.destination != 0)
  }

  predicate ValidOutput(c: Crypto, o: Output) {
    && o.owner < ADDRESS_LIMIT && o.receiptFormat == 1 && |o.packet| == 112
    && o.commitment.x < WORD_LIMIT && o.commitment.y < WORD_LIMIT && c.validPoint(o.commitment)
  }

  // Where a log stands, with the operation it names.
  datatype Position = Position(
    operationId: nat, blockNumber: nat, blockHash: nat, transactionHash: nat, transactionIndex: int, logIndex: int)

  datatype InputLog = InputLog(at: Position, inputId: nat)

  datatype OutputLog = OutputLog(at: Position, outputId: nat, outputIndex: int, output: Output)

  datatype Observed = Observed(
    request: Request, success: Option<Position>, inputLogs: Option<seq<InputLog>>, outputLogs: seq<OutputLog>)

  datatype Checkpoint = Checkpoint(number: nat, hash: nat, mode: FinalityMode)

  datatype Header = Header(number: nat, hash: nat)

  datatype UtxoState = UtxoState(
    exists_: bool, owner: Option<nat>, commitment: Option<Point>, consumedBy: Option<nat>)

  datatype OperationSuccess = OperationSuccess(executed: bool, operation: Option<Request>)

  // A port's answer; Unavailable stands for a port that throws.
  datatype Answer<+T> = Complete(blockHash: nat, value: T) | Incomplete | Unavailable

  predicate PositionNumber(n: int) {
    0 <= n <= MAX_SAFE_INTEGER
  }

  predicate InputLogBefore(a: InputLog, b: InputLog) { a.at.logIndex <= b.at.logIndex }

  predicate OutputLogBefore(a: OutputLog, b: OutputLog) { a.at.logIndex <= b.at.logIndex }

  // Chain order of operations: block, transaction, log. Without a success event the comparison
  // is a tie.
  predicate OperationBefore(a: Observed, b: Observed) {
    a.success.None? || b.success.None? ||
    var x, y := a.success.value, b.success.value;
    x.blockNumber < y.blockNumber
    || (x.blockNumber == y.blockNumber
        && (x.transactionIndex < y.transactionIndex
            || (x.transactionIndex == y.transactionIndex && x.logIndex <= y.logIndex)))
  }
}

# Verification of the confidential UTXO wallet, its payment client and its reward service

This project models, in Dafny, the code that decides what a wallet believes about the Pool contract,
which coins it spends, how a payment survives crashes and races, and how the reward service settles a
request. It proves what each of those protocols keeps over every input or every run.

## The modules

- **History of the Pool.** `PoolLogs` decodes, deduplicates and groups raw logs; `LogFetch` reads them
  through a node that answers in windows; `PoolLogLaws` proves that emission and reconstruction are
  inverse, and `PoolLogChecks` what reconstruction refuses and that it leaves nothing out. `Ledger` says,
  one operation at a time, which histories are consistent; `Replay` is the loop over mutable maps that
  decides it and `Synchronizer` the whole synchronization with its output loop; `Receipts` is the
  separately written receipt check. `AcceptedHistories` and `ReceiptLaws` say all at once what the two
  validators accept. `LedgerLaws`, `LedgerValue`, `LogLayout`, `SyncLaws` and `SnapshotLaws` prove what an
  accepted history means: custody, conservation, log layout, agreement of the two validators,
  independence of the listing order, the coins and failures of a snapshot, and the reason of a failure.
  `Pool`, `OperationOrder`, `Sorting`, `Counting` and `Wrappers` hold what these share.
- **Reservations and payments.** `ReservationStore` has each storage transaction as a function on the
  tables, `ReservationOutcomes` what each decides, `ReservationDatabase` the same transactions statement
  by statement on a class of maps, and `ReservationRuns` every interleaving of requests around their
  awaits. `PaymentProcess` sets any number of racing, crashing clients with lost and repeated messages
  against that service; `PaymentSafety` proves what every such run keeps, and `PaymentFlows` what each
  flow comes to. `AttemptRecovery` is the gate for resuming and retrying.
- **Selection and building.** `Selection`, `Building`, `PayInputs`, and `Consolidation` with the liveness
  of repeated merging. `Delivery` joins building to synchronization: what is fixed for a recipient is what
  its wallet finds.
- **Crash-resumable reward machines.** `Cancellation` and `ConsolidationRounds`.
- **Arithmetic and parsing.** `Field`, `Bytes`, `Balance`; `JsonGrammar`, `JsonParser`, `JsonComplete`
  and `StrictJson`.

## How the source is represented

- Addresses, ids and hashes outside the reservation store are the numbers their hexadecimal strings
  denote, so comparison without regard to case is equality; a number out of range stands for a string of
  the wrong length. The reservation store keeps strings and the lower-casing the source applies.
- Hash functions, signature recovery, encryption and the curve check are functions given from outside.
  Commitments are pairs of coefficients over the two generators modulo the group order.
- A port that throws is an explicit answer. The answers of one synchronization are a fixed function of
  the question; those of a log node may change with every attempt.
- Between two awaits a call runs as one step, and any other step may come between. A crash is a step
  after which the call does nothing more.
- `Array.prototype.sort` is a stable insertion sort.

## Where the code and its documentation or intention part

- Completing a restore does not compare reservation rows with operations. When the chain replaces a
  finalized block and so reopens an operation, a completed restore leaves it live without its row, and a
  second operation can reserve the same input, every write passing the gate of a running service
  (`ReservationRuns.RestoreCanLoseExclusion`). Call a restore clean when every live operation holds its row
  before it, which can be read off the tables. In every reachable state, inputs stay exclusive through a
  completed restore and everything after it whose own restores are clean, exactly when that restore is
  clean (`ReservationRuns.RestoreKeepsExclusionExactly`); otherwise at most one put breaks it
  (`ReservationRuns.OrphanLosesExclusion`).
- A request that fails its shape check inside `synchronize` is reported with the reason RPC, since only
  its own failure class keeps another reason; the model follows the code.
- When the chain drops a final cancellation, the reward service reopens the request, and one run can end
  a reward and later pay it (`Cancellation.ReorgAllowsBoth`). A settled request becomes live again in
  exactly one kind of step, a reorganisation that finds it settled and passes the guard of the reopening
  (`Cancellation.ReopensExactly`). Without such a step it is finalized or ended for good, whatever
  reorganisations hit it while it is live (`Cancellation.OneOutcome`); after one, a signed reward can come
  to either outcome (`Cancellation.ReopenedReachesBoth`).

## Model

| member | source | states |
|---|---|---|
| PoolLogs.DropDuplicates | packages/ethereum/src/history.ts:172-179 | the indexed map keeps one log per block, transaction and index, the latest copy in the first one's place, and refuses copies that differ |
| PoolLogs.Assemble | packages/ethereum/src/history.ts:71-139 | grouping with a map of lists and assembling group by group gives the specified operations, or the first group's failure |
| PoolLogLaws.DedupeExact | packages/ethereum/src/history.ts:172-179 | when copies agree, deduplication keeps each log exactly once and loses none |
| PoolLogLaws.GroupAssembles | packages/ethereum/src/history.ts:82-131 | the events of one execution, in any order, assemble into exactly that operation |
| PoolLogLaws.LogRoundTrip | packages/ethereum/src/history.ts:71-139 | for any chain of executable operations, any order and number of copies of their logs reconstructs exactly those operations in chain order |
| PoolLogLaws.ReconstructedPasses | packages/core/src/sync.ts:71-101 | whatever logs a node returns, every reconstructed operation passes all of synchronize's checks on an operation's own logs |
| PoolLogLaws.ReconstructedFrom | packages/ethereum/src/history.ts:71-139 | an operation is never made up: its success event stands in the block of a log that was kept |
| PoolLogChecks.DedupeIff | packages/ethereum/src/history.ts:172-179 | logs are taken exactly when copies agree, and then the last copy of each is kept once |
| PoolLogChecks.ReconstructedChecks | packages/ethereum/src/history.ts:36-139 | whatever is reconstructed came from readable logs, every operation accounts for all its events and matches its transaction's call, and every event belongs to a returned operation |
| LogFetch.ChunkInclusive | packages/ethereum/src/history.ts:25-33 | the windows tile the range with one width, the last possibly shorter; no windows for an empty or negative range or width |
| LogFetch.TilesPartition | packages/ethereum/src/history.ts:153-171 | tiling windows contain every block of the range in exactly one window, and no other block |
| LogFetch.FetchLogs | packages/ethereum/src/history.ts:149-171 | the halving loop ends within a bound and holds what its attempts gave, its accepted windows tile the range, it fails only when stopped, past the deadline or at one unanswerable block, and from an honest node it holds exactly the chain's logs despite partial pushes |
| LogFetch.CheckHeaders | packages/ethereum/src/history.ts:180-189 | passes exactly when every log is of the canonical block of its number, and otherwise reports the first log that is not |
| LogFetch.GetPoolOperations | packages/ethereum/src/history.ts:141-199 | returned operations stand in canonical blocks, under a checkpoint canonical before and after, and pass the log checks; the reason of a failure is that of the first thing wrong; from an honest node the result is exactly the chain's operations in order |
| Replay.Replay.CheckHeader | packages/core/src/sync.ts:65-70 | the cached header check fails with exactly the fault of the port's answer |
| Replay.Replay.CheckLogs | packages/core/src/sync.ts:73-78 | passes exactly when all logs belong to the operation's transaction at positions no log of the history has |
| Replay.Replay.CheckTransaction | packages/core/src/sync.ts:82-86 | the two maps report a conflict exactly when some earlier operation's transaction conflicts |
| Replay.TransactionsBijective | packages/core/src/sync.ts:82-86 | after an accepted history the two maps are inverse and hold exactly its transactions |
| Replay.Replay.SpendInputs | packages/core/src/sync.ts:87-95 | passes exactly when every input log is in place and spends an unspent output of the owner, and then marks exactly those |
| Replay.Replay.CreateOutputs | packages/core/src/sync.ts:96-103 | passes exactly when every output has its one log in place under a new id, and then adds exactly those entries |
| Replay.Replay.Apply | packages/core/src/sync.ts:58-107 | one turn of the loop refuses an operation with its first fault, and without one leaves the maps describing the longer history |
| Replay.NoFaultIff | packages/core/src/sync.ts:58-107 | an operation has no fault exactly when the step specification accepts it |
| AcceptedHistories.AcceptsIff | packages/core/src/sync.ts:53-107 | the replay accepts exactly the histories in which each operation stands by itself, any two are apart, each starts after the one before, and custody holds |
| SnapshotLaws.StepFaultMeans | packages/core/src/sync.ts:58-107 | which fault an operation gives, by what is wrong with it first |
| Synchronizer.Synchronize | packages/core/src/sync.ts:36-139 | completes exactly under the declared conditions, read at one checkpoint that is canonical at the end, with exactly the snapshot; otherwise gives the first reason, the point if one was reached, and the coins known before with unknown status |
| Synchronizer.NoReasonIff | packages/core/src/sync.ts:113-131 | no reason stops it exactly when history, outputs, keys and end header are in order, and RECEIPT arises only from an owned output without keys |
| SnapshotLaws.ReasonMeans | packages/core/src/sync.ts:42-139 | which reason a failed synchronization gives, by the first port, operation, output or header that is not in order |
| SnapshotLaws.SnapshotCoins | packages/core/src/sync.ts:113-135 | the coins are exactly those of owned outputs that some retained key opens, each with the opening of the first such key and spent exactly when the history spends it |
| SnapshotLaws.SnapshotFailures | packages/core/src/sync.ts:127-129 | the failures are exactly the owned outputs that no retained key opens |
| SnapshotLaws.SnapshotCoinsDiffer | packages/core/src/sync.ts:113-131 | no output is counted twice |
| SnapshotLaws.SnapshotCoinsOrdered | packages/core/src/sync.ts:113-131 | the coins stand in the order in which their outputs were created |
| Synchronizer.ValidatorsAgree | packages/core/src/receipt.ts:36-91 | once the replay has accepted a history and an output's state agrees, nothing the receipt check does before asking for keys can fail |
| Synchronizer.InspectOwned | packages/core/src/sync.ts:118-130 | the receipt of such an output fails only for missing keys or an opening that does not decrypt, and its coin is spent exactly when the replay marked it consumed |
| Synchronizer.InspectOutputs | packages/core/src/sync.ts:113-131 | the output loop stops at the first faulty output and otherwise collects exactly the coins and failures of the owned ones |
| Receipts.InspectReceipt | packages/core/src/receipt.ts:30-109 | the first thing wrong is reported; once nothing is, the receipt is received exactly when some retained key opens it, with the opening of the first that does |
| Receipts.OpenWithFirst | packages/core/src/receipt.ts:99-107 | every key is tried and the first that opens decides |
| ReceiptLaws.BindingExact | packages/core/src/receipt.ts:36-91 | everything before the keys passes exactly for a well-formed request executed in a canonical block with exactly its logs, whose output the chain holds for its owner |
| ReceiptLaws.UnsettledMeans | packages/core/src/receipt.ts:36-91 | a receipt is called unsettled only for what the history may still deliver |
| LedgerLaws.LedgerIffCustody | packages/core/src/sync.ts:87-103 | the bookkeeping accepts a history exactly when every input is an earlier output of its spender, spent once, and no output id repeats |
| LedgerLaws.EntriesTrue | packages/core/src/sync.ts:53-103 | the entries are exactly the history's outputs, marked consumed exactly when some operation spends them |
| LedgerValue.EntriesRefineFold | packages/core/src/sync.ts:87-103 | the entries without a consumer are exactly the unspent set of a fold that only removes inputs and adds outputs |
| LedgerValue.Conservation | packages/core/src/sync.ts:58-109 | for any amounts that balance every operation, the unspent outputs are worth all deposits less all withdrawals |
| LogLayout.OutputIndicesExact | packages/core/src/sync.ts:96-101 | as many logs as outputs with one in each place leaves no log for any other index |
| LogLayout.LogsFillInterval | packages/core/src/sync.ts:87-101 | the logs of one accepted operation lie between its first input and its success event, no two in one place |
| LogLayout.PositionSetImplied | packages/core/src/sync.ts:72-81 | for sorted operations the comparison of intervals already implies what the set of positions checks |
| LogLayout.LogsIncrease | packages/core/src/sync.ts:72-105 | laid end to end, the logs of an accepted sorted history have strictly increasing block and index |
| SyncLaws.OrderIndependence | packages/core/src/sync.ts:46-50 | a synchronization completes for one listing of the operations exactly when it does for every permutation, with the same result |
| SyncLaws.AcceptedSorted | packages/core/src/sync.ts:46-50 | what the replay accepts is in chain order |
| SyncLaws.AvailableCoinsAreUnspent | packages/core/src/sync.ts:113-135 | the available coins are exactly the unspent outputs of the fold that are owned and open |
| SyncLaws.AvailableIsSupply | packages/core/src/sync.ts:135-135 | a wallet that owns and opens every output has available exactly all deposits less all withdrawals |
| ReservationDatabase.Database.CommitPut | apps/uniswap-service/src/store.ts:104-156 | the statements of the put transaction compute exactly its table function and reply, and keep rows, records and live reservations |
| ReservationDatabase.Database.PutOperation | apps/uniswap-service/src/store.ts:84-157 | scope check, input check and transaction give the specified tables and reply in every error case |
| ReservationDatabase.Database.ReleaseOperation | apps/uniswap-service/src/store.ts:160-214 | the statements of the release compute exactly its table function and reply |
| ReservationDatabase.Database.CommitReconcile | apps/uniswap-service/src/reconcile.ts:36-77 | the statements of the reconcile transaction compute exactly its table function and reply, and a live operation is left with exactly the status the view shows |
| ReservationDatabase.Database.BeginRestore | apps/uniswap-service/src/recovery.ts:46-52 | keeps every record and row, and once it succeeds every put is refused and no reconcile writes |
| ReservationDatabase.Database.CompleteRestore | apps/uniswap-service/src/recovery.ts:54-62 | ends the stop with every record and row unchanged, so that inputs are exclusive if every live operation held its row |
| ReservationStore.PutTxKeeps | apps/uniswap-service/src/store.ts:104-156 | a put keeps every reservation row pointing at a live operation, every live operation its row, and evolves one record by at most one revision |
| ReservationStore.ReleaseTxKeeps | apps/uniswap-service/src/store.ts:173-213 | so does a release |
| ReservationStore.ReconcileTxKeeps | apps/uniswap-service/src/reconcile.ts:36-77 | so does a reconcile unless it stops the environment, and a stopped environment keeps it from writing at all |
| ReservationOutcomes.NormalizedIff | apps/uniswap-service/src/store.ts:84-97 | two requests are stored as one record exactly when they differ in the case of letters at most |
| ReservationOutcomes.ReconcileDecides | apps/uniswap-service/src/reconcile.ts:15-24 | a success in a view of one block always finalizes, whatever the input; consumed, released and reserved each exactly under their condition; unknown exactly without a view of one block |
| ReservationOutcomes.ReconcileWrites | apps/uniswap-service/src/reconcile.ts:62-77 | the record and revision stay, the checkpoint is the view's, and the reservation row goes exactly when the operation is over |
| ReservationOutcomes.ReconcileReopens | apps/uniswap-service/src/reconcile.ts:43-60 | an operation that is over is reopened, and the environment stopped, exactly by another block at its height or another outcome |
| ReservationOutcomes.PutRewrites | apps/uniswap-service/src/store.ts:104-130 | a put of a stored record is accepted exactly when it repeats it or rewrites it live, in turn, freshly encrypted and taking nothing back; the record put is then stored |
| ReservationOutcomes.PutRefuses | apps/uniswap-service/src/store.ts:104-130 | which error a refused put gives |
| ReservationOutcomes.PutReserves | apps/uniswap-service/src/store.ts:132-157 | a new record is accepted exactly from nothing on a free input |
| ReservationOutcomes.PutBegins | apps/uniswap-service/src/store.ts:84-97 | scope and names are compared without regard to case, and only an unstarted record may be new |
| ReservationOutcomes.ReleaseDecides | apps/uniswap-service/src/store.ts:160-214 | a release is accepted exactly for a live payment that holds its input, freshly encrypted and in turn, or as a repetition of itself |
| ReservationOutcomes.EnvironmentChanges | apps/uniswap-service/src/recovery.ts:35-62 | when an environment is opened, stopped and opened again, and that no row is touched |
| ReservationRuns.InvHolds | apps/uniswap-service/src/store.ts:84-214 | every reachable state satisfies the invariant of tables and suspended requests |
| ReservationRuns.ReservationRowsSound | apps/uniswap-service/src/store.ts:132-157 | in every reachable state each reservation row points to a live operation of its own scope and input |
| ReservationRuns.InputExclusion | apps/uniswap-service/src/reconcile.ts:36-77 | with no restore, or only restores on clean tables, while the environment runs an operation is live exactly when it holds its row, so no two share an input |
| ReservationRuns.NoRestoreIsClean | apps/uniswap-service/src/recovery.ts:54-62 | a run without a completed restore meets that condition |
| ReservationRuns.RestoreKeepsExclusionExactly | apps/uniswap-service/src/recovery.ts:54-62 | in every reachable state, no continuation of a completed restore whose own restores are clean ever runs with two live operations on one input, exactly when every live operation holds its row beforehand; under a gate the service accepts, the same for continuations of guarded writes |
| ReservationRuns.OrphanLosesExclusion | apps/uniswap-service/src/store.ts:132-156 | from any running state with a live operation without its row, at most one put of an unused record, under any gate that lets it write, leads to two live operations on one input |
| ReservationRuns.RestoreCanLoseExclusion | apps/uniswap-service/src/reconcile.ts:43-60 | for any two withdrawals of one input, a run of guarded writes in which a finalized block is replaced, a restore is begun and completed, and both withdrawals end live on the input |
| ReservationRuns.InsertedAfterInputCheck | apps/uniswap-service/src/store.ts:97-156 | only a put that read its input as owned and unspent inserts, at revision 1 with no signature and no attempts, even across the await |
| ReservationRuns.RecordsMonotone | apps/uniswap-service/src/store.ts:104-156 | between any two moments a record keeps its identity, its revision only rises, attempts only grow by appending, a started signature stays started |
| ReservationRuns.RevisionCountsWrites | apps/uniswap-service/src/store.ts:122-130 | one step either keeps the record or raises its revision by exactly one |
| ReservationRuns.TerminalChangeStops | apps/uniswap-service/src/reconcile.ts:43-60 | a terminal operation changes only in a step that stops the environment |
| ReservationRuns.TerminalAbsorbs | apps/uniswap-service/src/reconcile.ts:42-60 | until a stop, released, consumed and finalized-success operations never change over any run |
| AttemptRecovery.CoversIffExact | packages/uniswap/src/recovery.ts:44-49 | comparing two sizes and one inclusion holds exactly when evidence and attempts correspond one to one and all are settled |
| AttemptRecovery.ActionNeedsExactEvidence | packages/uniswap/src/recovery.ts:26-64 | resuming, retrying or changing terms needs finalized, healthy, exact evidence for an unspent input under an active reservation |
| AttemptRecovery.DecisionExact | packages/uniswap/src/recovery.ts:26-64 | each decision and each reason exactly under its condition |
| PaymentSafety.SubmittedAtMostOnce | packages/uniswap/src/process.ts:253-264 | over all runs an attempt id of a record is submitted at most once and every submitted id is in the durable record |
| PaymentSafety.SubmitAfterDurable | packages/uniswap/src/process.ts:323-357 | at the moment of any submission the durable record already contains the attempt id |
| PaymentSafety.SignAfterStarted | packages/uniswap/src/process.ts:220-229 | the pool signature is requested only when the durable record says it was started |
| PaymentSafety.RecoveryExact | packages/uniswap/src/process.ts:283-357 | every attempt a recovery appends follows evidence in bijection with the attempts just before, all settled, with no foreign write in between |
| PaymentSafety.HistoryIsRecord | packages/uniswap/src/process.ts:130-152 | the write history these statements use has one entry per revision and ends in what the service stores |
| PaymentSafety.AppendedOnce | packages/uniswap/src/process.ts:335-345 | an attempt id enters the history of a record once |
| PaymentSafety.AdoptedIsOwn | packages/uniswap/src/process.ts:130-152 | a reply a client accepts, directly or by reading back, is its own write entered at the revision it expected |
| PaymentFlows.ExportNeverSubmits | packages/uniswap/src/process.ts:241-251 | over all runs, a client started to authorize for export never submits and no record takes an attempt from it |
| PaymentFlows.ExportFinishes | packages/uniswap/src/process.ts:184-251 | an export that nobody disturbs signs once, stores the signature in three writes, and is done |
| PaymentFlows.AuthorizeSubmits | packages/uniswap/src/process.ts:184-281 | an authorization that nobody disturbs signs once, makes its attempt durable as revision 4 and submits it |
| PaymentFlows.RecoverSubmits | packages/uniswap/src/process.ts:323-413 | a recovery that nobody disturbs, on evidence it fits, submits one new attempt, signing again exactly when there is no signature to go on with |
| PaymentFlows.ConfirmGoesOn | packages/uniswap/src/process.ts:283-321 | a recovery goes on exactly when the reservation is unchanged and live and the evidence fits what was asked |
| PaymentFlows.AdoptsExactly | packages/uniswap/src/process.ts:130-152 | a client adopts a reply exactly when it is live and is the record it wrote, one revision on |
| PaymentFlows.RecoverStartsExactly | packages/uniswap/src/process.ts:283-296 | a recovery starts exactly on a listed record of an environment open to its gate |
| Selection.BestPair | packages/core/src/selection.ts:38-53 | the nested loops find the feasible pair with least change, the first in id order among equals |
| Selection.SelectInputs | packages/core/src/selection.ts:56-102 | automatic selection returns the best choice by count, change and ids, with each failure under its exact condition; explicit selection returns the named coins or the first thing wrong; malformed requests are refused |
| Selection.SelectAutomatically | packages/core/src/selection.ts:83-101 | UNCONFIRMED, INSUFFICIENT and UNCONSTRUCTABLE each exactly when only uncertain coins would do, the possible total falls short, or neither |
| Selection.CanPayIff | packages/core/src/selection.ts:34-53 | coins can pay exactly when one or two of them reach the amount: the bound on change never stands in the way |
| Selection.BestUnique | packages/core/src/selection.ts:83-92 | there is only one best choice |
| Selection.SumPermute | packages/core/src/selection.ts:31-33 | the total does not depend on the order of the coins |
| Building.FixOperation | packages/core/src/operation.ts:52-93 | what is fixed is what the intent and the selected coins ask for, under the salt and blindings drawn, each output sealed for its own recipient; a refusal carries the error of the step that failed; with valid recipients, destination and tools it succeeds |
| Building.FixedPays | packages/core/src/operation.ts:63-84 | the recipient of a transfer gets the amount, a withdrawal releases it, a deposit turns it into one output, and the owner gets the rest exactly when there is one |
| Building.FixedSpends | packages/core/src/selection.ts:21-36 | one or two ascending coins of the owner, chain and Pool, available and confirmed, worth the amount and at most the cap above it |
| Building.FixedToSigned | packages/core/src/operation.ts:70-73 | every output goes to an owner who signed for the key it is sealed for, on this chain and Pool |
| Building.PacketsOpen | packages/core/src/operation.ts:85-87 | every recipient opens its own output and finds the amount and blinding fixed for it |
| Building.ChecksAgree | packages/core/src/operation.ts:96-108 | the check before proving and the separately written check of a saved draft accept the same material |
| Delivery.FixedIsReceived | packages/core/src/sync.ts:113-131 | end to end: once a fixed operation is in an accepted history, each recipient that kept its secret has in its snapshot the coin fixed for it |
| Building.ShapeHolds | packages/core/src/encoding.ts:35-69 | with everything in order the request fixed passes the shape check |
| Building.FixedConserves | packages/core/src/operation.ts:63-69 | every output is between 1 and M, and inputs plus deposit equal outputs plus withdrawal |
| Building.FixedIsReprovable | packages/core/src/operation.ts:96-108 | what was fixed passes every check repeated before proving and before submission |
| Building.SelectionGives | packages/core/src/selection.ts:56-102 | a successful selection has one or two ascending, matching, confirmed, feasible coins |
| PayInputs.SelectPayInput | packages/uniswap/src/selection.ts:10-28 | the cheapest eligible input worth strictly more than the payment, or none exactly when there is none |
| PayInputs.PayHasOneChange | packages/core/src/operation.ts:63-69 | a Pay's withdrawal has one input and one own change output exactly when the input is worth strictly more than the payment |
| PayInputs.PayBinds | packages/uniswap/src/payment.ts:81-109 | the withdrawal passes the binding to its terms exactly then |
| PayInputs.SelectedPays | packages/uniswap/src/selection.ts:10-28 | when the input's value is that of its coin, the withdrawal from the selected input passes the binding, and no spendable input whose withdrawal passes is cheaper; when none is selected, none would pass |
| Consolidation.BuildConsolidation | apps/uniswap-service/src/rewards/consolidation.ts:13-31 | a built draft spends exactly the two largest coins and makes one coin of their sum, or of M with the rest as change, for the owner; funds in order always build |
| Consolidation.BuiltMerges | apps/uniswap-service/src/rewards/consolidation.ts:17-29 | the funds a built draft leaves behind are exactly a merge of the funds it was built from |
| Consolidation.BuiltKeepsFunds | apps/uniswap-service/src/rewards/consolidation.ts:21-29 | once final under new ids, its coins are the owner's, settled and truly committed, so the funds are in order again |
| Consolidation.Dispatch | apps/uniswap-service/src/rewards/production.ts:160-174 | pays when selection succeeds, merges when it is UNCONSTRUCTABLE, passes on other failures; on funds in order worth the amount it always pays or merges |
| Consolidation.RewardsLive | apps/uniswap-service/src/rewards/production.ts:160-174 | along the dispatches of a reward the funds stay in order and keep their total, and after n - 2 merges at the latest selection succeeds |
| Consolidation.PairIsLargest | apps/uniswap-service/src/rewards/consolidation.ts:18-20 | no two coins are worth more than the pair that is merged |
| Consolidation.UnpayableShape | apps/uniswap-service/src/rewards/production.ts:160-174 | coins worth the amount that cannot pay number at least three, and their two largest fall short, so the cap is not met |
| Consolidation.ConsolidationLive | apps/uniswap-service/src/rewards/production.ts:160-174 | merging whenever selection cannot pay keeps the total, never meets the cap, and succeeds within n - 2 rounds |
| Consolidation.DispatchMergesWhenUnpayable | apps/uniswap-service/src/rewards/production.ts:167-174 | on settled funds selection reports UNCONSTRUCTABLE exactly when they are worth the amount but cannot pay |
| Cancellation.InvHolds | apps/uniswap-service/src/rewards/operator.ts:66-175 | every reachable state satisfies the invariant of the saved cancellation and all suspended calls |
| Cancellation.PhaseForward | apps/uniswap-service/src/rewards/operator.ts:84-141 | from any point of a run to any later one the phase never goes back and operation, input and raw transaction stay |
| Cancellation.OneRaw | apps/uniswap-service/src/rewards/operator.ts:133-174 | every broadcast of a run, by whichever call, sends the one raw transaction that is stored |
| Cancellation.OneOutcome | apps/uniswap-service/src/rewards/operator.ts:145-168 | as long as no reorganisation reopens it once settled, a request is finalized or ended but never both |
| Cancellation.ReopensExactly | apps/uniswap-service/src/rewards/queue.ts:142-163 | a settled request becomes live again exactly in a reorganisation step whose reopening guard holds |
| Cancellation.ReopenedReachesBoth | apps/uniswap-service/src/rewards/queue.ts:142-163 | from a reopened signed reward both being finalized and being ended, with its cancellation broadcast, can be reached |
| Cancellation.ReservationHeld | apps/uniswap-service/src/rewards/operator.ts:155-158 | over every run, reorganisations included, the reservation is held exactly while the request is live |
| Cancellation.SettledTogether | apps/uniswap-service/src/rewards/production.ts:217-230 | at every step of every run that settles a request, its reservation is held before and released after, and all its inputs turn consumed or released |
| Cancellation.OthersKept | apps/uniswap-service/src/rewards/operator.ts:159-163 | of other requests' inputs, a settling step changes at most that of the final cancellation, to consumed |
| Cancellation.SettlesWhen | apps/uniswap-service/src/rewards/operator.ts:145-168 | a live request is settled by exactly three steps: its final cancellation, an end before anything was signed, or its own operation seen final |
| Cancellation.SettlesExactly | apps/uniswap-service/src/rewards/production.ts:217-230 | and which inputs each of them consumes and which it releases |
| Cancellation.ReorgReserves | apps/uniswap-service/src/rewards/queue.ts:142-163 | a reorganisation that hits the request reserves it again with inputs whose state is not known |
| Cancellation.CallStarts | apps/uniswap-service/src/rewards/operator.ts:66-107 | a call starts exactly on a live request whose signature has been started, and builds exactly when no cancellation is there |
| Cancellation.DraftStored | apps/uniswap-service/src/rewards/operator.ts:84-104 | what was built is stored exactly when no cancellation is there yet |
| Cancellation.RawStored | apps/uniswap-service/src/rewards/operator.ts:118-137 | a raw transaction is stored exactly for a signed cancellation, when it hashes to what was reported under a nonce that is one |
| Cancellation.SendsExactly | apps/uniswap-service/src/rewards/operator.ts:169-174 | a call sends exactly when it waits to broadcast a raw transaction that hashes to its record |
| Cancellation.ReorgAllowsBoth | apps/uniswap-service/src/rewards/queue.ts:142-163 | a run from a submitted reward in which its cancellation is broadcast and final, the chain drops it, and the reward is then paid |
| ConsolidationRounds.RoundsForward | apps/uniswap-service/src/rewards/consolidation.ts:54-158 | rounds never go back, keep their operation, and their raw transaction is written once |
| ConsolidationRounds.RoundsSafe | apps/uniswap-service/src/rewards/consolidation.ts:54-158 | each round broadcasts one raw transaction, starts only when all before it are final, and success is reported only for a final round |
| ConsolidationRounds.ClaimsExactly | apps/uniswap-service/src/rewards/consolidation.ts:54-80 | a round is claimed exactly when rewards may write and every round so far is final |
| ConsolidationRounds.BuiltStored | apps/uniswap-service/src/rewards/consolidation.ts:80-104 | a built draft is stored exactly for a claimed round, with two inputs, under its own operation id, while rewards may write |
| ConsolidationRounds.RoundCompletes | apps/uniswap-service/src/rewards/consolidation.ts:54-158 | whenever all rounds so far are final, a new one can be claimed, built, signed, saved, sent and seen final |
| Field.PowMod | packages/crypto/src/group.ts:69-80 | square-and-multiply equals the power modulo m for every exponent from 0 on, and refuses negative ones |
| Field.Inverse | packages/crypto/src/group.ts:82-85 | refuses exactly multiples of m, and given Fermat's theorem returns the modular inverse |
| Field.ModIsRemainder | packages/crypto/src/group.ts:64-67 | the sign correction gives the representative in [0, m) for negative values too |
| Bytes.MakeWord | packages/crypto/src/bytes.ts:5-14 | the buffer filled from its end is the 32-byte big-endian word, refused exactly out of range |
| Bytes.ReadNumber | packages/crypto/src/bytes.ts:16-20 | the accumulator is the number the bytes denote |
| Bytes.NumberOfWord | packages/crypto/src/bytes.ts:5-20 | reading a word gives back the number |
| Bytes.WordOfNumber | packages/crypto/src/bytes.ts:5-20 | writing the number read gives back the bytes |
| Bytes.OpeningRoundTrip | packages/crypto/src/receipt.ts:29-44 | decoding undoes encoding for every valid opening |
| Bytes.DecodesOnlyEncodings | packages/crypto/src/receipt.ts:36-44 | a plaintext is accepted exactly when it is the encoding of a valid opening |
| Balance.BalanceExact | packages/crypto/src/balance.ts:30-57 | the balance point is the witness times G exactly when inputs plus deposit equal outputs plus withdrawal over the integers |
| Balance.RefusesExactly | packages/crypto/src/balance.ts:30-57 | which points, amounts, blindings and openings are refused |
| Balance.ProofVerifies | packages/crypto/src/balance.ts:84-94 | a proof that is produced satisfies s G = R + c X under every nonce and challenge |
| Balance.BalancedProves | packages/crypto/src/balance.ts:84-94 | for in-range openings the prover accepts its witness exactly when the operation balances |
| Balance.ProofIs | packages/crypto/src/balance.ts:84-94 | the proof is the one for its nonce, and is refused exactly for a witness that is not that of X or a scalar out of range |
| Balance.OneResponse | packages/crypto/src/balance.ts:84-94 | for one commitment and challenge only one response verifies |
| Balance.ChallengeTrace | packages/crypto/src/balance.ts:59-82 | the loop stops at the first hash that is a challenge and fails exactly when the first 256 are not |
| StrictJson.RejectDuplicateKeys | packages/cli/src/strict-json.ts:7-87 | accepts a text exactly when it is a JSON text nested at most 64 deep in which no object repeats a decoded name |
| StrictJson.ParseExactObject | packages/cli/src/strict-json.ts:89-102 | returns the object a text stands for exactly when it is strict JSON, an object, and all its names are allowed |
| StrictJson.Scanner.Token | packages/cli/src/strict-json.ts:19-38 | the string loop accepts exactly the string grammar and stops after it |
| StrictJson.Scanner.Value | packages/cli/src/strict-json.ts:40-82 | a value is accepted exactly when the grammar has one here, within depth, and the cursor stops after it |
| StrictJson.Scanner.Object | packages/cli/src/strict-json.ts:45-62 | an object is accepted exactly when its members parse and none repeats a name seen |
| JsonComplete.ReadsStrictJson | packages/cli/src/strict-json.ts:84-86 | the texts read are exactly the printings of strict JSON values, each read as that value |
| JsonComplete.PrintingIsUnambiguous | packages/cli/src/strict-json.ts:40-82 | no two values print alike |
| JsonComplete.PaddedComplete | packages/cli/src/strict-json.ts:40-82 | every printing of a strict value followed by what may follow it is read back as that value |
| JsonParser.PaddedSound | packages/cli/src/strict-json.ts:40-82 | whatever is read is the printing of a strict value within the depth left |

## Left out

- Pool contract, RPC client, retries, timers, HTTP, SQL text, key storage and user interface: input and output; their answers are parameters.
- Keccak, the curve law of BN254, HPKE, the range prover and ECDSA recovery: given functions; commitments are formal pairs.
- Primality of the group order: `Field.Inverse` takes Fermat's theorem as its hypothesis.
- packages/core/src/tracking.ts beyond `validateDraft`: attempt bookkeeping and preflight reads, branch by branch.
- packages/uniswap/src/process.ts, quote freshness, deadlines and scope changes: each can only end the call, which a crash step already allows; the second, idempotent release of `prepareChangedTerms` is only its write.
- Paging of `listOperations`, `getReward`, reward intake and availability: easy by reading.
- Text decoding and byte-order marks in `parseExactObject`, and `base64Bytes`, `decimalWei`, `hexBytes`: easy by reading.
- LogFetch.GetPoolOperations: retries within one request and the timers that stop one are not modelled; what each request comes to is given.
- Consolidation.BuildConsolidation: proving and the signature on the recipient information are outside, and so is the time until a merge is final; ties between equal amounts are broken by numeric id where the source compares id strings by locale.
- Cancellation.OneOutcome: encryption at rest is the identity, and the other requests of the deployment appear only through their inputs.
- ConsolidationRounds.RoundsSafe: speaks of one request; the finality checks of later reorganisations are not part of it.
- Synchronizer.Synchronize: numbers that are not integers are not represented, and operations without a success event compare as ties in a stable insertion sort, so the order before such a refusal is that sort's.
- Selection.SelectInputs: amounts that are not bigints and lists that are not arrays are not represented.

# Transfers over a transactional outbox: model and proofs

A Dafny model of the payment system's hard core. Clients ask for bank transfers; a transfer row and its event are
written in one transaction; relay workers deliver events to handlers that call the bank, poll it, and send notices; a
circuit breaker guards the bank gateway; a reconciler books incoming money against invoices. The proofs say what holds
in every run of these parts together: whoever crashes where, however often an event is delivered, in whatever order
steps interleave.

`dafny verify dfyconfig.toml` checks the project (Dafny 4.11).

## How the project is laid out

| file | what it holds |
|---|---|
| `Basics` | optional values, results, arithmetic and set facts |
| `TransferDomain`, `Events`, `Outbox` | the transfer aggregate and its status graph; event kinds and payloads; outbox rows, backoff, and a row's life as a replay of its dispatch outcomes |
| `TransferTables` | the committed tables, the transactions run on them, and the event ledger invariant |
| `Protocol` | the step machine: clients, relay sessions (also ones that lost their locks and go on), the bank, notices |
| `ProtocolSafety`, `ProtocolOutcomes`, `ProtocolHistory` | the inductive invariant, part by part |
| `ProtocolTheorems`, `RunLaws` | what holds in every run; where transfers and bank records come from, which events and notices are out, and when a pending event is due |
| `Handlers` | the use case and the event handlers as classes over a database, a bank client and a breaker, each proved to take exactly the machine's steps when nothing interferes |
| `HandlerLaws` | what each handler call does, case by case in plain values |
| `CircuitBreaker`, `BreakerCallers`, `Outage`, `OutageBound` | the breaker class against a specification that keeps all history; any number of concurrent callers, with late clock readings; the outage budget of the send queue, and that it is the least bound |
| `ConcreteRuns` | runs of the protocol machine that show what can happen: lost batches, and a failed transfer that the bank has |
| `RelayWorker`, `SessionRefinement` | one relay's batch loop, how long an event waits and when it waits for ever; the batch loop and the machine's sessions commit the same rows |
| `Polling`, `MockBank` | polling by re-delivery; the stand-in bank |
| `Reconciliation`, `StatementLaws`, `ReconciliationLaws`, `ReconciliationConfluence` | invoices and statement ingestion, what one run leaves in plain values, their ledger over all runs, and independence of order and overlap |

Each class keeps the program's own fields and is proved against functions on values; the laws are then lemmas about
those functions. The main specification functions are `TransferTables.SendTx`, `CheckTx` and `RequestTx` (the
transactions), `Protocol.AfterHandlerStep` and `Next` (the steps), `Outbox.DispatchRow` and `Replay` (rows),
`CircuitBreaker.AfterAllow` and `AfterRecord`, and `Reconciliation.Reconciled`.

How reality is represented:

- Times are integers in nanoseconds, ids and keys are integers (strings where their characters matter: apply numbers,
  bank statuses, the stand-in bank's keys). Amounts on invoices are 64-bit and wrap.
- What comes from outside is a parameter of the step or method: clock readings, drawn ids, the bank's replies, whether a
  statement or commit succeeds. In the protocol machine ids are not assumed fresh: a clash is the duplicate-key error it
  would be.
- A transaction ends by committing, aborting, or committing although the caller sees an error.
- A relay session can lose its transaction at any point and still go on dispatching, or vanish; handlers commit on their
  own.
- The bank de-duplicates by idempotency key and may take a request whose answer is lost.
- One reconcile run is atomic and runs are serial, as the reconciler process runs them.

## Where the code and its documentation differ

The model follows the code.

- `docs/article/final-article.md:94-108` draws no edge from AWAITING_APPROVAL to SETTLED; `internal/modules/transfer/domain/status.go:29` allows it.
- `internal/modules/transfer/application/circuit_breaker.go:50` says the breaker opens when the failure rate exceeds the limit; the code opens when it reaches it.
- `internal/modules/reconciliation/domain/invoice.go:23` and `docs/diagrams/reconciliation-sequence.md:35` derive an invoice's status from all incoming money;
  credits ingested before the invoice was issued are never counted (`EarlyMoneyIsLost` gives the exact condition,
  `EarlyCreditIsNotCounted` a case).
- The reconciler publishes event types for which `cmd/relay/main.go:69-75` registers no handler. Such rows stay pending
  for ever and take places in every batch. A due event is sure to be dispatched if and only if fewer than a batch full of
  them lie before it, ties of the due time included (`ServedIff`, with the bound in `BoundedWait`). If a batch full of
  them lies strictly before it, no schedule ever picks it, though rows before them are still served
  (`OvertakenStarves`); in between, the order in which the database returns ties decides. If they lie before all other
  rows, nothing else is dispatched at all (`UnhandledRowsStall`, `ReconciliationBlocksTransfers`).
- The rolling window of the breaker is the filter of its history exactly under the condition of `WindowIsFilterIff`. A
  clock that never steps back is enough for it (`WindowIsFilterOfHistory`); one that does can break it
  (`StaleSampleSurvives`).
- `internal/modules/transfer/application/handler_send_to_sunabar.go:89` speaks of attempts saved while the breaker is open. The breaker bounds only attempts
  that reach it: a failed lookup, and an event whose transfer has moved on already, use an attempt without asking
  (`OutageBudget`). One of either is enough to exceed failureThreshold + T / resetTimeout on a busy queue
  (`PlainBudgetIff`, `BudgetIsExact`), and a run gets to any number of them (`LostBatchUsesAttempts`). Where the failure
  rate could open the breaker before the failures in a row do, only the upper bound is claimed. With the default
  configuration and a new breaker it cannot.
- The stand-in bank promises de-duplication by key, but files records under an apply number that keeps 14 characters of
  the key (`OwnRecordIff`, `SharedPrefixTakesOver`).
- An invoice status can fall through 64-bit overflow (`StatusFallsIff`, `CreditLowersStatusIff`,
  `StatusFallsOnOverflow`).

## Model

| member | source | states |
|---|---|---|
| ProtocolTheorems.NoDoubleTransfer | internal/modules/transfer/application/handler_send_to_sunabar.go:78-158 | in every run the bank holds at most one transfer per app request, and every bank record carries the key, amount and destination of a committed transfer row |
| ProtocolTheorems.NothingStranded | internal/platform/outbox/relay.go:185-193 | in every run a transfer that is not final has exactly one driving event (request while pending, status check afterwards), and that event is pending or has used up its attempts |
| ProtocolTheorems.SentMeansDone | internal/modules/transfer/application/handler_check_status.go:72-88 | in every run a sent request event implies its transfer has left PENDING, a sent status check implies its transfer is final, also when the outer transaction rolls back after the inner one committed |
| ProtocolTheorems.LedgerInEveryRun | internal/modules/transfer/infrastructure/repository_sql.go:53-74 | in every run a transfer has exactly the outbox rows its status history calls for, one settled or failed event iff it is final and never both, and its version is one plus the number of status changes, at most five |
| ProtocolTheorems.AcceptedIsBooked | internal/modules/transfer/application/handler_send_to_sunabar.go:129-157 | in every run an apply number on a transfer is the bank's number for that transfer's own key and details, and the status check polls that number |
| ProtocolTheorems.RequestsAgree | internal/modules/transfer/application/usecase_request.go:55-117 | for any interleaving of requests with one app_request_id, all that return without error return the same existing transfer |
| ProtocolTheorems.RequestedIffRow | internal/modules/transfer/application/usecase_request.go:75-108 | in every run a transfer row exists iff exactly one TransferRequested event for it exists |
| ProtocolTheorems.NoticesAtMostOnce | internal/modules/notification/application/handler.go:37-50 | over every run with re-deliveries Send is invoked at most once per event, and at most once per transfer and notified status |
| ProtocolTheorems.AttemptsInEveryRun | internal/platform/outbox/relay.go:173-225 | in every run attempt_count is the number of committed outcomes other than skips; PENDING means below MaxAttempt, FAILED means equal to it, SENT means between 1 and it |
| ProtocolTheorems.FailedEventsWaited | internal/platform/outbox/relay.go:208-240 | in every run an event was marked FAILED no sooner than the sum of the backoffs after its first counted failure, in closed form |
| ProtocolTheorems.FinishedStaysFinished | internal/platform/outbox/relay.go:187-211 | however a run goes on, a SENT or FAILED row never changes again, a transfer keeps its keys, amount and destination, and a final status stays |
| ProtocolTheorems.SuccessesBounded | internal/platform/outbox/relay.go:162-193 | in every run a handler succeeds on one event at most one time more than there are batches whose outcome for it was lost |
| RunLaws.TransfersAreAskedFor | internal/modules/transfer/application/usecase_request.go:63-82 | in every run each transfer carries the app request, amount and destination that one client of the run asked for, under the id and key that client drew |
| RunLaws.BankIsAskedFor | internal/modules/transfer/application/handler_send_to_sunabar.go:97-107 | in every run each bank record carries the amount and destination a client of the run asked for, under the key that client drew |
| RunLaws.NewTransfers | internal/modules/transfer/application/usecase_request.go:75-82 | no step but a client's insert adds a transfer, and it adds a PENDING one at version 1 with that client's request |
| RunLaws.StatusEventsInEveryRun | internal/modules/transfer/application/handler_check_status.go:92-131 | in every run the status and apply number of a transfer decide how many events of each kind it has: one request; one acceptance and one status check iff it has an apply number; one settled iff SETTLED; one failed iff FAILED |
| RunLaws.PayloadsInEveryRun | internal/modules/transfer/application/handler_send_to_sunabar.go:129-157 | in every run a request event carries its transfer's key and details, a status check its apply number, and a notification the status it is named after |
| RunLaws.NoticesAreTrue | internal/modules/notification/application/handler.go:37-50 | in every run a settled or failed notice was sent only for a transfer that is so, an acceptance only for one the bank has with its key and details |
| RunLaws.DueInEveryRun | internal/platform/outbox/relay.go:198-225 | in every run a pending event is due exactly at its publication, 5 s after a skip, or min(2^n, 600) s after the n-th counted failure; never later than 600 s after its publication or latest committed outcome |
| RunLaws.OutcomeReachesRow | internal/platform/outbox/relay.go:162-225 | in every run, committing a batch after its last outcome shows that outcome in the row of its event, value by value, unless the row update failed; rows outside the batch stay |
| RunLaws.SessionSteps | internal/platform/outbox/relay.go:119-183 | a batch starts with the attempt counts its rows show; taking an event up starts its handler iff it is one of the six kinds that have one; nothing else changes |
| RunLaws.AnythingMayFail | internal/platform/outbox/relay.go:105-171 | in every state: any session may vanish, or lose its transaction, handlers may take every way their calls and commits can end, a row update may fail, and exactly the sets of pending, due, unlocked rows may be taken |
| ProtocolTheorems.RunInv | internal/platform/outbox/relay.go:105-171 | the whole invariant holds in every state any run reaches |
| ProtocolTheorems.InvStep | internal/platform/outbox/relay.go:105-171 | every step of any client, session, handler or crash keeps the invariant and lets tables only move forward |
| ProtocolSafety.CoreStep | internal/platform/outbox/relay.go:119-124 | every step keeps the event ledger, what each session knows about its rows, and that no row is locked by two live sessions |
| ProtocolSafety.HandlerStepOk | internal/modules/transfer/application/handler_send_to_sunabar.go:72-159 | any single step of any handler keeps the ledger, leaves existing outbox rows alone, and a handler that returns success has its event's work done |
| ProtocolSafety.CommitsCore | internal/platform/outbox/relay.go:166-170 | committing a batch keeps the core invariant, touching no row another live session has locked |
| ProtocolSafety.SelectCore | internal/platform/outbox/relay.go:119-126 | taking a batch of pending, due, unlocked rows keeps the core invariant |
| ProtocolSafety.LosesCore | internal/platform/outbox/relay.go:106-117 | a session that loses its transaction while its handler runs breaks nothing |
| ProtocolSafety.CheckedIsNotPending | internal/modules/transfer/application/handler_check_status.go:66-81 | a transfer with a status check has left PENDING, so polling never sees that status |
| ProtocolOutcomes.OutcomesStep | internal/modules/transfer/application/handler_send_to_sunabar.go:97-113 | every step keeps: bank keys distinct, bank records backed by transfers, apply numbers booked, notices unique, client answers true |
| ProtocolOutcomes.HandlerStepBank | internal/modules/transfer/application/handler_send_to_sunabar.go:97-115 | a handler step, with any gateway behaviour, keeps the bank's books and never removes a record |
| ProtocolOutcomes.BankTakesKeeps | internal/platform/sunabar/mock/server.go:221-249 | a request under a known key adds nothing and gets the old record's number, a new key adds one record backed by the transfer |
| ProtocolOutcomes.NoticesAdvance | internal/modules/notification/application/handler.go:38-49 | marking before sending keeps every Send unique although a session may stop between the two |
| ProtocolOutcomes.ClientInsertsOutcomes | internal/modules/transfer/application/usecase_request.go:75-117 | the insert step, clash or not, confirmed or not, keeps client answers true |
| ProtocolHistory.TraceStep | internal/platform/outbox/relay.go:185-224 | after every step each row is the replay of its committed outcomes, each stored when the row was pending and due |
| ProtocolHistory.SuccessStep | internal/platform/outbox/relay.go:185-193 | every step keeps: a success not known lost is held by one live session or shown as SENT, and there is one such per event |
| ProtocolHistory.CountsUnique | internal/platform/outbox/relay.go:119-124 | row locks and the PENDING guard leave room for one surviving success per event |
| TransferTables.LedgerIsExact | internal/modules/transfer/application/handler_check_status.go:92-131 | the ledger invariant fixes the number of rows of each kind from the status history, settled against failed, and the version |
| TransferTables.FinalStaysFinal | internal/modules/transfer/domain/status.go:31-38 | between any two states of the tables, the later grown from the earlier, a final status is the same, because the event that told it is still there |
| TransferTables.NotStranded | internal/modules/transfer/application/handler_send_to_sunabar.go:83-158 | the ledger invariant gives every transfer that is not final exactly one driving event, not yet SENT |
| TransferTables.AdvanceKeepsLedger | internal/modules/transfer/domain/status.go:26-33 | one status change together with exactly its events keeps the ledger |
| TransferTables.SendKeepsLedger | internal/modules/transfer/application/handler_send_to_sunabar.go:117-158 | the send transaction on a possibly stale snapshot commits only if the snapshot is current, then leaves REQUESTED or FAILED and keeps the ledger |
| TransferTables.CheckKeepsLedger | internal/modules/transfer/application/handler_check_status.go:92-131 | the check transaction on a possibly stale snapshot commits only a legal change of the current row and keeps the ledger |
| TransferTables.RequestKeepsLedger | internal/modules/transfer/application/usecase_request.go:75-108 | a request transaction adds one new row with its event and keeps the ledger and both unique keys |
| TransferDomain.PathIsShort | internal/modules/transfer/domain/status.go:26-33 | any history the status graph allows has at most five entries, no repetition, a final status only at its end, and not both final ones |
| TransferDomain.PathClimbs | internal/modules/transfer/domain/status.go:26-56 | every real transition climbs, so a history of n changes gains rank n |
| TransferDomain.StatusGraph | internal/modules/transfer/domain/status.go:26-56 | the eleven legal moves by name, staying always legal, and the final statuses are those nothing leaves |
| TransferDomain.Transfer.New | internal/modules/transfer/domain/transfer.go:38-55 | a new transfer has the given id, app request, key and details, field by field, is PENDING at version 1, and has neither apply number nor error |
| TransferDomain.Transfer.Transition | internal/modules/transfer/domain/transfer.go:59-66 | moves exactly along the graph (or to itself), and a refused move changes no field |
| TransferDomain.Transfer.MarkRequested | internal/modules/transfer/domain/transfer.go:69-75 | REQUESTED and the apply number together, exactly from PENDING or REQUESTED; otherwise nothing changes |
| TransferDomain.Transfer.MarkFailed | internal/modules/transfer/domain/transfer.go:78-84 | FAILED and the reason together, from every status but SETTLED; otherwise nothing changes |
| Handlers.SendToSunabarHandler.Handle | internal/modules/transfer/application/handler_send_to_sunabar.go:72-159 | tables, bank records, breaker and result are those of the protocol steps find, call, store, which HandlerLaws gives case by case; the breaker is asked only for a pending transfer and told exactly once per admission |
| Handlers.SendToSunabarHandler.CallBank | internal/modules/transfer/application/handler_send_to_sunabar.go:97-115 | the bank is called once with the transfer's own key and details; only a retryable failure counts as a gateway failure, a refusal counts as success |
| Handlers.SendToSunabarHandler.CallAndConclude | internal/modules/transfer/application/handler_send_to_sunabar.go:94-158 | after admission: one bank call, one record with the breaker, then the transaction on the outcome |
| Handlers.SendToSunabarHandler.Conclude | internal/modules/transfer/application/handler_send_to_sunabar.go:117-158 | status change and both events commit together or not at all, and success is reported only for a confirmed commit |
| Handlers.SendToSunabarHandler.Store | internal/modules/transfer/application/handler_send_to_sunabar.go:117-158 | the transaction body leaves exactly the specified tables or reports an error |
| Handlers.PublishStatus | internal/modules/transfer/application/handler_send_to_sunabar.go:177-203 | publishes the notification event of a status iff it has one |
| Handlers.CheckStatusHandler.Handle | internal/modules/transfer/application/handler_check_status.go:50-88 | tables and result are those of the protocol steps poll, find, store, which HandlerLaws gives case by case; success only if the transfer is or becomes final |
| Handlers.CheckStatusHandler.Conclude | internal/modules/transfer/application/handler_check_status.go:93-131 | status change and event commit together or not at all |
| Handlers.CheckStatusHandler.ApplyStatus | internal/modules/transfer/application/handler_check_status.go:92-131 | the transaction body leaves exactly the specified tables or reports an error |
| Handlers.TransferEventHandler.Handle | internal/modules/notification/application/handler.go:37-50 | a marked event is never sent again; a new one is marked before it is sent, also when sending fails; a failed mark is an error and sends nothing, even if it took effect |
| Handlers.RequestTransferUseCase.Execute | internal/modules/transfer/application/usecase_request.go:55-118 | a known app request returns its transfer and changes nothing; a new one stores the row with the id, app request, key, amount and destination it was given, PENDING at version 1, and the event with the same key and details, or nothing; a failed lookup is an error that changes nothing; an error of the transaction is told as such |
| HandlerLaws.AcceptedCall | internal/modules/transfer/application/handler_send_to_sunabar.go:97-158 | an accepted request: the bank has the transfer once, under its key and with its details; the row is REQUESTED with the bank's number; the acceptance is told with that number and a status check for it is scheduled |
| HandlerLaws.RefusedCall | internal/modules/transfer/application/handler_send_to_sunabar.go:117-127 | a refused request: the row is FAILED with the bank's message, one failed event tells it, and the bank gets nothing |
| HandlerLaws.UnreachableCall | internal/modules/transfer/application/handler_send_to_sunabar.go:109-114 | an unreachable gateway: an error and no change of tables; the bank may have taken the request, once |
| HandlerLaws.NoCall | internal/modules/transfer/application/handler_send_to_sunabar.go:78-92 | a failed lookup is an error, a transfer that has left PENDING a success, a rejection by the breaker a skip; nothing changes |
| HandlerLaws.BreakerHears | internal/modules/transfer/application/handler_send_to_sunabar.go:87-115 | the breaker hears nothing unless the transfer is found PENDING; if it admits, it is told of exactly one outcome, a failure iff the gateway was unreachable |
| HandlerLaws.RetryableErrors | internal/modules/transfer/application/handler_send_to_sunabar.go:161-175 | an error may be retried iff it is no answer of the bank or an answer of 500 and above |
| HandlerLaws.BankWords | internal/modules/transfer/application/handler_check_status.go:144-158 | the bank's five words with their statuses; every other word is not understood |
| HandlerLaws.SettledCheck | internal/modules/transfer/application/handler_check_status.go:82-131 | "Settled" for a transfer that is with the bank leaves it SETTLED with one settled event, and is a success only if that commits |
| HandlerLaws.FailedCheck | internal/modules/transfer/application/handler_check_status.go:96-131 | "Failed" leaves it FAILED with the bank's detail and one failed event that carries the detail |
| HandlerLaws.AwaitingCheck | internal/modules/transfer/application/handler_check_status.go:100-131 | "AwaitingApproval" moves a REQUESTED transfer on with one event, and polling goes on |
| HandlerLaws.ApprovedCheck | internal/modules/transfer/application/handler_check_status.go:100-112 | "Approved" moves the transfer on and tells nobody, and polling goes on |
| HandlerLaws.IdleCheck | internal/modules/transfer/application/handler_check_status.go:56-80 | no answer, an unknown word, a failed lookup and a status already reached are errors that change nothing; a final transfer is a success that changes nothing |
| HandlerLaws.NoticeGoesOut | internal/modules/notification/application/handler.go:37-50 | a notice is sent by exactly the delivery that newly gets its mark written and confirmed; sending decides only the result |
| HandlerLaws.InsertStep | internal/modules/transfer/application/usecase_request.go:75-117 | the client's insert step of the machine, by cases: taken keys collide, a taken event id is an error, else row and event as asked unless the transaction aborts; the id is returned only for a confirmed commit |
| HandlerLaws.LookSteps | internal/modules/transfer/application/usecase_request.go:57-61 | the client's first look and its second one after a collision: a transfer of its app request if there is one, an error for a failed read, else the insert the first time and not-found the second |
| Events.RegisteredKinds | cmd/relay/main.go:69-75 | the six event kinds the relay has handlers for |
| Handlers.Database.Insert | internal/modules/transfer/infrastructure/repository_sql.go:31-50 | inserts iff neither unique key nor the id is taken |
| Handlers.Database.Update | internal/modules/transfer/infrastructure/repository_sql.go:53-74 | writes status columns iff the version still matches, then both versions advance by one; otherwise nothing changes |
| Handlers.Database.Publish | internal/platform/outbox/publisher.go:38-51 | adds one pending row due now inside the caller's transaction, or fails on a taken id |
| Handlers.Database.FindByID | internal/modules/transfer/infrastructure/repository_sql.go:77-83 | reads the committed row, outside any transaction |
| Handlers.Database.FindByAppRequestID | internal/modules/transfer/infrastructure/repository_sql.go:86-127 | finds a committed row of that app request iff there is one and the read works; not-found and storage errors are told apart |
| Handlers.Database.MarkProcessed | internal/platform/outbox/relay.go:247-262 | reports new iff the event was not marked, and marks it; an error may leave the mark written or not |
| Handlers.Database.End | internal/platform/transaction/manager_sql.go:30-57 | all of the transaction or none of it; success only after a body without error and a confirmed commit |
| Handlers.BankClient.RequestTransfer | internal/platform/sunabar/mock/server.go:224-249 | de-duplication by key under every gateway behaviour, including a lost answer to an accepted request |
| CircuitBreaker.InMemoryCircuitBreaker.constructor | internal/modules/transfer/application/circuit_breaker.go:99-128 | every configuration, however bad, is corrected field by field (threshold 3, reset after 30 s, one probe, rate within 0 and 1, no negative minimum), and a valid one is kept |
| CircuitBreaker.InMemoryCircuitBreaker.Allow | internal/modules/transfer/application/circuit_breaker.go:134-152 | closed admits; open rejects until the reset timeout has passed, then turns half-open and admits one probe; half-open admits exactly while fewer than halfOpenMaxCalls probes are in flight |
| CircuitBreaker.InMemoryCircuitBreaker.RecordSuccess | internal/modules/transfer/application/circuit_breaker.go:155-167 | a success closes a half-open breaker with no probe in flight, leaves a closed one closed and an open one open; it is added to the history |
| CircuitBreaker.InMemoryCircuitBreaker.RecordFailure | internal/modules/transfer/application/circuit_breaker.go:170-189 | a failure opens a half-open breaker at once, leaves an open one as it is, and moves a closed one as the history decides: the counter stands for trailing failures, the slice for the pruned window |
| CircuitBreaker.InMemoryCircuitBreaker.State | internal/modules/transfer/application/circuit_breaker.go:192-209 | observing makes the timed move to half-open and no other |
| CircuitBreaker.InMemoryCircuitBreaker.PruneSamples | internal/modules/transfer/application/circuit_breaker.go:236-252 | drops exactly the front samples before the cutoff |
| CircuitBreaker.InMemoryCircuitBreaker.FailureRateExceeded | internal/modules/transfer/application/circuit_breaker.go:255-272 | counts failures over the whole window and compares the rate with at-least |
| CircuitBreaker.WindowIsFilterIff | internal/modules/transfer/application/circuit_breaker.go:227-252 | for every history, whatever its timestamps, the front-pruned slice is the filter of the history by the window iff every sample from the first recent one on is recent and at most a window after that first one |
| CircuitBreaker.WindowIsFilterOfHistory | internal/modules/transfer/application/circuit_breaker.go:227-252 | with nondecreasing timestamps the slice is always that filter |
| CircuitBreaker.StaleSampleSurvives | internal/modules/transfer/application/circuit_breaker.go:241-247 | a concrete history with a clock that steps back for which the slice keeps a sample outside the window |
| BreakerCallers.OpensByFullHistory | internal/modules/transfer/application/circuit_breaker.go:170-189 | in every run of concurrent callers with timely readings a closed breaker opens iff the outcome is a failure and the latest failureThreshold outcomes ever are failures or the rate over the history filtered by the window is reached |
| BreakerCallers.RateByCounts | internal/modules/transfer/application/circuit_breaker.go:255-272 | the rate trigger in counts: with n outcomes of the history inside the window and f failures among them it fires iff it is switched on, n is positive and at least minRequests, and f is at least its part of n |
| BreakerCallers.Recovers | internal/modules/transfer/application/circuit_breaker.go:155-167 | from a half-open state, if all later outcomes are successes, the first one recorded closes the breaker and every call after it is admitted |
| BreakerCallers.ProbeDecides | internal/modules/transfer/application/circuit_breaker.go:155-178 | an outcome recorded while half-open closes the breaker or opens it anew, as it is a success or a failure |
| BreakerCallers.OpenComesBack | internal/modules/transfer/application/circuit_breaker.go:134-165 | a call that asks once the reset timeout has passed is admitted, and its success closes the breaker |
| BreakerCallers.HistoryIsAllOutcomes | internal/modules/transfer/application/circuit_breaker.go:226-233 | in every run the history the specification decides by is the sequence of all outcomes recorded, in order |
| BreakerCallers.HalfOpenSoundness | internal/modules/transfer/application/circuit_breaker.go:134-223 | in every run, with readings however late, while half-open, the probe counter is the number of admitted, unrecorded calls of this episode, within the limit, so a rejecting breaker has an outstanding probe |
| BreakerCallers.LoadBound | internal/modules/transfer/application/circuit_breaker.go:134-152 | from an opening until it next closes, for any callers whose clock readings are late by at most a delay below the reset timeout, at most halfOpenMaxCalls calls are admitted per elapsed reset timeout less the delay |
| BreakerCallers.QuietAfterOpening | internal/modules/transfer/application/circuit_breaker.go:200-216 | no call is admitted within resetTimeout of an opening, whatever late outcomes are recorded |
| BreakerCallers.EpisodesAreSpaced | internal/modules/transfer/application/circuit_breaker.go:200-216 | each half-open episode comes at least a reset timeout, less the delay of clock readings, after the one before it |
| Outage.OutageBudget | internal/modules/transfer/application/handler_send_to_sunabar.go:78-114 | while every gateway call fails retryably for T, all queued send events together use at most failureThreshold + T / resetTimeout attempts, plus one per queued event whose transfer had left PENDING and one per failed lookup, however many are queued and however often each is delivered |
| Outage.PendingQueueBudget | internal/modules/transfer/application/handler_send_to_sunabar.go:88-114 | from any breaker state, if every queued transfer is still PENDING and lookups work, failureThreshold + T / resetTimeout alone bounds the attempts |
| ConcreteRuns.LostBatchUsesAttempts | internal/modules/transfer/application/handler_send_to_sunabar.go:83-86 | for every n a run reaches a state with n accepted transfers in the bank whose request events are pending and due; delivering them to a new relay process during an outage uses n attempts in no time with its breaker untouched |
| ConcreteRuns.OneIsLost | internal/platform/outbox/relay.go:162-170 | from any such state the steps of one request, one handler call and one session that dies before its commit lead to the next |
| ConcreteRuns.FailedThoughBooked | internal/modules/transfer/application/handler_send_to_sunabar.go:111-127 | a run ends with a transfer FAILED on a refusal although the bank holds it, with its key and details, from an earlier call that timed out |
| OutageBound.BudgetIsExact | internal/modules/transfer/application/handler_send_to_sunabar.go:78-114 | for a due backlog with enough unsent events, m bounds the attempts of all outages with at most k failed lookups iff m is at least what the breaker lets through, plus the queued events whose transfers have left PENDING, plus k |
| OutageBound.PlainBudgetIff | internal/modules/transfer/application/circuit_breaker.go:134-209 | with a breaker closed after a success, failureThreshold + T / resetTimeout bounds all outages without failed lookups iff no queued transfer has left PENDING, and for such a queue those with up to k failed lookups iff k is zero |
| OutageBound.WorstOutage | internal/platform/outbox/relay.go:119-225 | a schedule of due deliveries that uses up every attempt the budget allows, failed lookups and moved events first |
| OutageBound.FailOnce | internal/modules/transfer/application/circuit_breaker.go:170-216 | while the breaker lets anything more through, there is a moment at which a failing call takes exactly one of it |
| Outage.MovedEventsUseAttempts | internal/platform/outbox/relay.go:186-193 | delivering any set of pending events whose transfers have left PENDING uses one attempt each and leaves the breaker alone |
| Outage.DeliverCases | internal/modules/transfer/application/handler_send_to_sunabar.go:78-114 | the handler call and the relay's row update together: only a delivery that finds its transfer PENDING asks the breaker; the other two exits use an attempt without it |
| Outage.OutageAfterAnyRun | internal/modules/transfer/application/circuit_breaker.go:134-209 | the full budget holds for the breaker that any earlier run of concurrent callers leaves behind |
| Outage.ReachableIsSane | internal/modules/transfer/application/circuit_breaker.go:170-189 | in every run a closed breaker has fewer trailing failures than the threshold and an open one opened in the past |
| Outage.DeliveryPays | internal/platform/outbox/relay.go:185-222 | each attempt a delivery uses is paid by what the breaker can still let through, by an event that owed one, or by a failed lookup |
| Outage.CallPays | internal/modules/transfer/application/circuit_breaker.go:134-189 | a failed call takes one from what the breaker can still let through, a rejected one none |
| RelayWorker.Relay.constructor | internal/platform/outbox/relay.go:46-66 | batch size and attempt budget are positive whatever is configured, 100 and 10 by default |
| RelayWorker.Relay.Dispatch | internal/platform/outbox/relay.go:174-225 | handled: SENT and one attempt more; skipped: due in 5 s, attempts kept; failed: one attempt more, FAILED at the limit, else due in min(2^n, 600) s; no update for an event without a handler or when the update itself fails |
| RelayWorker.Relay.ProcessBatch | internal/platform/outbox/relay.go:105-171 | rows published meanwhile stay; the updates of the whole batch that worked reach the table iff it commits |
| RelayWorker.UpdatesAt | internal/platform/outbox/relay.go:162-164 | each row of a batch gets the update of its own reply iff its kind has a handler and the update works |
| RelayWorker.BoundedWait | internal/platform/outbox/relay.go:119-124 | without database errors a due event with a handled and u < BatchSize unhandled rows before it is dispatched within a / (BatchSize - u) + 1 batches |
| RelayWorker.UnhandledRowsStall | internal/modules/reconciliation/application/usecase.go:180-187 | BatchSize pending rows without a handler strictly before all others fill every later batch, so nothing else is ever dispatched |
| RelayWorker.ServedIff | internal/platform/outbox/relay.go:119-124 | a due event is sure to be dispatched within some number of batches iff fewer than BatchSize unhandled pending rows lie before it, ties included |
| RelayWorker.StarvingSchedule | internal/platform/outbox/relay.go:119-126 | with BatchSize of them, ties included, there are schedules of any length that never pick the event |
| RelayWorker.OvertakenStarves | internal/platform/outbox/relay.go:119-126 | with BatchSize unhandled pending rows strictly before an event no schedule ever picks it, whatever else is served |
| RelayWorker.ReconciliationBlocksTransfers | cmd/relay/main.go:69-75 | a batch full of published reconciliation events, with the handlers the relay registers, leaves a later transfer request pending for ever, for every batch size |
| SessionRefinement.CommitIsProcessBatch | internal/platform/outbox/relay.go:162-170 | a session of the protocol machine that dispatched a batch in order commits exactly the rows of ProcessBatch |
| RelayWorker.BlockedRound | internal/platform/outbox/relay.go:179-183 | such a batch changes no row |
| RelayWorker.RoundClears | internal/platform/outbox/relay.go:119-225 | a batch that leaves a due event out clears BatchSize - u handled rows from before it and puts none there |
| Outbox.BackoffDuration | internal/platform/outbox/relay.go:228-240 | min(2^attempt, 600) seconds for every attempt, between 1 and 600 seconds, with no intermediate value outside int64 |
| Outbox.BackoffGrows | internal/platform/outbox/relay.go:228-240 | the backoff is monotone and bounded on all integers |
| Outbox.SumBackoffClosedForm | internal/platform/outbox/relay.go:208-240 | the backoffs of M attempts add up to 2^M - 2 seconds for M <= 10 and 1022 + 600(M - 10) beyond |
| Outbox.AttemptAccounting | internal/platform/outbox/relay.go:185-217 | for every sequence of outcomes the attempt count is the number of non-skips, and SENT, FAILED and PENDING each fix its range and the last outcome |
| Outbox.RetryTimeBound | internal/platform/outbox/relay.go:208-222 | an event is given up no sooner than the sum of the backoffs after its first counted failure |
| Outbox.NextDue | internal/platform/outbox/relay.go:198-225 | for every sequence of outcomes a pending row is due exactly at publication, 5 s after a skip, or min(2^n, 600) s after the n-th counted failure |
| Outbox.DueSoon | internal/platform/outbox/relay.go:219-240 | a pending row is never due later than 600 s after its publication or latest outcome |
| Polling.PollingDecides | internal/modules/transfer/application/handler_check_status.go:50-107 | for any replies of the bank: the first final answer within MaxAttempt polls ends polling, decides the transfer and sends the check after that many attempts; without one the check fails after MaxAttempt polls on the fold of the answers |
| Polling.PollAdvances | internal/platform/outbox/relay.go:185-224 | one delivery counts one attempt, is sent iff the answer is final, and moves the transfer only along the graph |
| Polling.FoldIsFurthest | internal/modules/transfer/domain/status.go:26-56 | without a final answer the transfer holds the furthest status among its own and the answers, so their order, repetition and loss do not matter |
| Polling.FinalAnswerWins | internal/modules/transfer/domain/status.go:26-33 | a final answer is taken from whatever status the earlier answers left |
| MockBank.Server.HandleTransfer | internal/platform/sunabar/mock/server.go:193-256 | a new key is recorded once, with its amount, under AP and its first 14 characters, as AcceptedToBank; a known key is answered from its record and changes nothing; an empty key is refused |
| MockBank.Server.HandleTransferStatus | internal/platform/sunabar/mock/server.go:260-299 | a poll moves the record it names on as PollShows says and answers with the status then shown; unknown and empty numbers are errors that change nothing |
| MockBank.PollShows | internal/platform/sunabar/mock/server.go:276-290 | the first poll of a record shows AcceptedToBank, the second Approved, every later one Settled; no other record changes |
| MockBank.RepeatedKeyIsInert | internal/platform/sunabar/mock/server.go:224-232 | over all request sequences an accepted key keeps its number for ever and a repeat with any amount changes nothing |
| MockBank.OwnRecordIff | internal/platform/sunabar/mock/server.go:234-249 | every accepted key has its own record, with the amount of its first request, iff no two accepted keys share their first 14 characters |
| MockBank.SharedPrefixTakesOver | internal/platform/sunabar/mock/server.go:234-249 | of any two keys that differ only after 14 characters the second takes over the first one's record and amount |
| MockBank.LedgerAfterAll | internal/platform/sunabar/mock/server.go:224-283 | over all request sequences every accepted key has a record under its number, with a status that tells its polls |
| MockBank.SettlesAtThirdPoll | internal/platform/sunabar/mock/server.go:276-290 | a transfer taken by the stand-in bank settles at the third poll if three attempts are allowed, with fewer the check fails and the transfer is not final |
| ReconciliationLaws.LedgerAlways | internal/modules/reconciliation/application/usecase.go:96-160 | after any sequence of invoices and runs, failed and rolled-back ones included, paid is the 64-bit sum of matched rows, status its class, earlier rows unmatched, later ones matched, the last event true |
| ReconciliationLaws.StatusFallsIff | internal/modules/reconciliation/domain/invoice.go:50-63 | for any amount and any sums, the paid amount after a run is the 64-bit sum of the one before and the statement's new credits, and the run lowers the status iff that sum is zero, or crosses the amount downwards, and the paid amount was not zero |
| ReconciliationLaws.RunAddsNewCredits | internal/modules/reconciliation/application/usecase.go:137-158 | a run adds to the invoice exactly the statement's credits whose keys are neither among the rows nor earlier in the statement |
| ReconciliationLaws.StatusNeverFalls | internal/modules/reconciliation/domain/invoice.go:50-63 | a run never lowers the status while the sum stays in the 64-bit range |
| ReconciliationLaws.CreditLowersStatusIff | internal/modules/reconciliation/domain/invoice.go:50-63 | for an invoice of any amount, one credit lowers the status iff it overflows a paid invoice to its amount or below, or brings an overflowed sum to zero |
| ReconciliationLaws.StatusFallsOnOverflow | internal/modules/reconciliation/domain/invoice.go:51-55 | a concrete sequence of runs in which a paid invoice becomes OPEN again and nothing is published |
| ReconciliationLaws.PublishesExactly | internal/modules/reconciliation/application/usecase.go:113-120 | a run publishes one event, telling the stored invoice, iff it added a row to an account with an invoice and the wrapped sum is not zero, which it cannot be in range |
| ReconciliationLaws.LatestEventIsCurrent | internal/modules/reconciliation/application/usecase.go:165-203 | after any sequence of runs the latest event of an invoice tells its stored amount, paid amount and status, unless it is OPEN |
| ReconciliationLaws.EarlyMoneyIsLost | internal/modules/reconciliation/application/usecase.go:106-154 | an invoice counts all money received on its account iff no credit had been ingested when it was issued |
| ReconciliationLaws.EarlyCreditIsNotCounted | internal/modules/reconciliation/application/usecase.go:148-158 | a credit ingested just before the invoice is issued stays unmatched and the invoice stays OPEN, for any credit and amount |
| ReconciliationConfluence.Confluence | internal/modules/reconciliation/infrastructure/repository_sql.go:103-116 | two series of runs over the same credit keys, one amount per key, end with the same paid amount, status and ingested keys |
| ReconciliationConfluence.LikeOneRun | internal/modules/reconciliation/application/usecase.go:96-160 | any split of statements over runs, with repeats and overlaps, ends like one run over all items |
| ReconciliationConfluence.RunsSum | migrations/000004_reconciliation.up.sql:30 | what a series of runs adds is the sum over its new credit keys, each counted once |
| Reconciliation.Invoice.Apply | internal/modules/reconciliation/domain/invoice.go:50-63 | the paid amount grows by the delta in 64-bit arithmetic; OPEN iff it is then zero, else PARTIAL, CLEARED or EXCESS as it is below, at or above the amount |
| Reconciliation.ReconcileService.Execute | internal/modules/reconciliation/application/usecase.go:96-125 | the books become those of the ingested statement, which StatementLaws gives in plain values, iff it was listed and the transaction commits, else nothing changes |
| Reconciliation.ReconcileService.ApplyIncomings | internal/modules/reconciliation/application/usecase.go:128-161 | the loop over the statement leaves rows, matches, invoice and count of the specified ingestion, which takes credits with a positive amount only (StatementLaws.OnlyPaymentsCount) |
| StatementLaws.RunInPlainValues | internal/modules/reconciliation/application/usecase.go:128-161 | a committed run in plain values: one row per new incoming payment, in order, under fresh ids and matched to the invoice if there is one; the invoice grows by their sum; one event of the new status tells it, none for OPEN; nothing else changes |
| StatementLaws.OnlyPaymentsCount | internal/modules/reconciliation/application/usecase.go:137-140 | a run over a statement is the run over its items that are "credit" with a positive amount |
| StatementLaws.OtherItemsAreSkipped | internal/modules/reconciliation/application/usecase.go:137-140 | an item that is no "credit" or has no positive amount changes no row, no invoice and no event, wherever it stands in the statement |
| Reconciliation.ReconcileService.InsertIfNotExists | internal/modules/reconciliation/infrastructure/repository_sql.go:103-116 | inserts iff the account has no row with that item key |
| Reconciliation.ReconcileService.Issue | internal/modules/reconciliation/infrastructure/repository_sql.go:26-37 | an OPEN invoice with nothing paid is added iff neither its id nor its account has one, otherwise nothing changes |

## Left out

- HTTP, JSON, OAuth2 tokens, the HTTP client, logging, metrics, masking, correlation ids, id generation and the `cmd` loops: plumbing without behaviour of their own; only which event types are registered and that reconcile runs are serial is used.
- The account module, and the stand-in bank's account, balance, transaction and virtual-account endpoints: fixed answers.
- MySQL beyond tables with unique keys, row locks and atomic transactions: isolation levels, gap locks, matching on "Duplicate entry", case- and accent-insensitive comparison of keys, column truncation and DATETIME rounding.
- `sent_at`, `last_error` and `processed_at` of outbox and consumer rows, invoice memos and timestamps: written and never read back by the modelled code.
- The texts of notices: `buildNotice` is taken to succeed for the four event types it is registered for, whose payloads are well formed.
- Payloads carry the transfer id a second time; the model uses the event's aggregate id, which the code sets to the same value.
- The emergency stop, an operator's edit that turns pending rows to failed: it would break the attempt accounting, which speaks of relays only.
- A retry budget that differs between relay processes or changes during a run: one MaxAttempt is fixed for a run.
- Concurrent reconcilers on one virtual account: the invoice is read without a lock, and the code does not promise them.
- That a FAILED transfer implies the bank holds nothing: the code does not guarantee it; `ConcreteRuns.FailedThoughBooked` is a run that ends otherwise.
- The apply number inside notification payloads of the protocol machine's check steps is arbitrary there; `Handlers.CheckStatusHandler.Handle` fixes it to the polled number.
- CircuitBreaker.WindowIsFilterOfHistory: the case of timestamps that never decrease; WindowIsFilterIff covers all histories.
- CircuitBreaker.InMemoryCircuitBreaker.FailureRateExceeded: the rate is an exact quotient, not a 64-bit float; mutex and goroutines appear only as one atomic step per method.
- CircuitBreaker.InMemoryCircuitBreaker.State: time differences are unbounded integers, so the saturation of very long durations is not modelled.
- BreakerCallers.LoadBound: needs a bound on how late a reading can be, below the reset timeout, and that each admitted call is recorded once, as the send handler is proved to do. The handler reads the clock before the breaker takes its mutex (`internal/modules/transfer/application/handler_send_to_sunabar.go:112-115`), and the code sets no such bound.
- BreakerCallers.OpensByFullHistory: readings that are not late; for others WindowIsFilterIff says when the window still is the filter.
- OutageBound.BudgetIsExact: a backlog whose rows are all due, with at least as many unsent events as the breaker lets calls through; no outstanding probe; and the failure rate unable to open the breaker before the failures in a row do. Otherwise OutageBudget is the bound.
- Outage.OutageBudget: one relay process with one breaker, whose deliveries follow each other, with nothing else changing transfers or queued rows meanwhile.
- RelayWorker.BoundedWait: one worker whose batches commit and whose row updates work, and a clock that advances between the batch query and the publication of new rows.
- Polling.PollingDecides: no crash and no storage error between polls, and fresh ids for notices; with them only the invariants of every run hold.
- ReconciliationConfluence.Confluence: one amount per item key, serial committed runs, and an invoice issued before them.
- ReconciliationLaws.StatusNeverFalls: the sums in range; StatusFallsIff gives the exact condition for all runs.

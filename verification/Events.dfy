/** Event types and payloads that travel through the outbox. */
module Events {
  import opened TransferDomain

  type EventId = int

  datatype InvoiceStatus = InvoiceOpen | InvoicePartial | InvoiceCleared | InvoiceExcess

  datatype EventType =
    | TransferRequested | TransferAcceptedToBank | TransferStatusCheck
    | TransferAwaitingApproval | TransferSettled | TransferFailed
    | ReconciliationCompleted | ReconciliationExcess | ReconciliationPartial

  predicate IsTransferEvent(k: EventType) {
    !k.ReconciliationCompleted? && !k.ReconciliationExcess? && !k.ReconciliationPartial?
  }

  datatype Payload =
    | RequestedPayload(apiKey: int, params: TransferParams)
    | StatusCheckPayload(applyNo: string)
    | StateChangedPayload(from: Status, to: Status, changedApplyNo: string, errorMessage: string)
    | ReconciliationPayload(virtualAccountId: int, amount: int, paidAmount: int, invoiceStatus: InvoiceStatus)

  /** `aggregateId` is the transfer or invoice the event is about. */
  datatype Event = Event(kind: EventType, aggregateId: int, payload: Payload)

  /** The event types cmd/relay registers a handler for: all transfer events, no reconciliation event. */
  predicate Registered(k: EventType) {
    IsTransferEvent(k)
  }

  lemma RegisteredKinds(k: EventType)
    ensures Registered(k) <==>
              k in {TransferRequested, TransferStatusCheck, TransferAcceptedToBank, TransferAwaitingApproval,
                    TransferSettled, TransferFailed}
  {
  }
}

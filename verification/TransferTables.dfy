/** The committed tables, the transactions that clients and handlers run on them, and the invariant that ties a
    transfer to its outbox rows (the event ledger). */
module TransferTables {
  import opened Basics
  import opened TransferDomain
  import opened Events
  import opened Outbox

  /** `history` is auxiliary: the statuses each transfer row has held, oldest first. */
  datatype Tables = Tables(
    transfers: map<TransferId, TransferRow>,
    outbox: map<EventId, OutboxRow>,
    processed: set<EventId>,  // event_processed rows of the notification consumer
    history: map<TransferId, seq<Status>>)

  const EMPTY := Tables(map[], map[], {}, map[])

  type TxResult = Result<Tables, Error>

  // ---------- statements ----------

  predicate Clashes(t: Tables, row: TransferRow) {
    row.id in t.transfers
    || exists x :: x in t.transfers &&
        (t.transfers[x].appRequestId == row.appRequestId || t.transfers[x].apiKey == row.apiKey)
  }

  function InsertTransfer(t: Tables, row: TransferRow): TxResult {
    if Clashes(t, row) then Err(AlreadyExists)
    else Ok(t.(transfers := t.transfers[row.id := row], history := t.history[row.id := [row.status]]))
  }

  /** The version-guarded update; identity columns are not written. */
  function UpdateTransfer(t: Tables, row: TransferRow): TxResult {
    if row.id !in t.transfers || t.transfers[row.id].version != row.version then Err(ConcurrentUpdate)
    else
      var was := t.transfers[row.id];
      Ok(t.(
         transfers := t.transfers[row.id := was.(status := row.status, applyNo := row.applyNo,
                                                 lastError := row.lastError,
                                                 version := was.version + 1, updatedAt := row.updatedAt)],
         history := t.history[row.id := HistoryOf(t, row.id) + [row.status]]))
  }

  function Publish(t: Tables, e: EventId, event: Event, now: int): TxResult {
    if e in t.outbox then Err(StorageError) else Ok(t.(outbox := t.outbox[e := NewRow(event, now)]))
  }

  // ---------- transactions ----------

  /** The transaction of RequestTransferUseCase.Execute. */
  function RequestTx(t: Tables, row: TransferRow, e: EventId, now: int): TxResult {
    var t1 :- InsertTransfer(t, row);
    Publish(t1, e, Event(TransferRequested, row.id, RequestedPayload(row.apiKey, row.params)), now)
  }

  /** The notification event for a status, if any. */
  function StateEvent(to: Status): Option<EventType> {
    match to
    case Requested => Some(TransferAcceptedToBank)
    case AwaitingApproval => Some(EventType.TransferAwaitingApproval)
    case Settled => Some(TransferSettled)
    case Failed => Some(TransferFailed)
    case Pending => None
    case Approved => None
  }

  function PublishStateChanged(t: Tables, id: TransferId, from: Status, to: Status, applyNo: string, msg: string,
                               e: EventId, now: int): TxResult {
    match StateEvent(to)
    case None => Ok(t)
    case Some(kind) => Publish(t, e, Event(kind, id, StateChangedPayload(from, to, applyNo, msg)), now)
  }

  /** A non-retryable answer of the bank to a transfer request. */
  datatype BankAnswer = Accepted(applyNo: string) | Rejected(message: string)

  /** The transaction of SendToSunabarHandler.Handle, on the snapshot it read before calling the bank. */
  function SendTx(t: Tables, snap: TransferRow, answer: BankAnswer, e1: EventId, e2: EventId, now: int): TxResult {
    match answer
    case Rejected(msg) =>
      var row :- MarkedFailed(snap, msg, now);
      var t1 :- UpdateTransfer(t, row);
      PublishStateChanged(t1, snap.id, Pending, Failed, "", msg, e1, now)
    case Accepted(no) =>
      var row :- MarkedRequested(snap, no, now);
      var t1 :- UpdateTransfer(t, row);
      var t2 :- PublishStateChanged(t1, snap.id, Pending, Requested, no, "", e1, now);
      Publish(t2, e2, Event(TransferStatusCheck, snap.id, StatusCheckPayload(no)), now)
  }

  /** CheckStatusHandler.applyStatus. */
  function CheckTx(t: Tables, snap: TransferRow, to: Status, detail: string, applyNo: string, e: EventId,
                   now: int): TxResult {
    var row :- if to == Failed then MarkedFailed(snap, detail, now) else Transitioned(snap, to, now);
    var t1 :- UpdateTransfer(t, row);
    PublishStateChanged(t1, snap.id, snap.status, to, applyNo,
                        if row.lastError.Some? then row.lastError.value else "", e, now)
  }

  // ---------- the event ledger ----------

  /** The status whose entry calls for an event of this kind. */
  function CalledForBy(k: EventType): Option<Status> {
    match k
    case TransferRequested => Some(Pending)
    case TransferAcceptedToBank => Some(Requested)
    case TransferStatusCheck => Some(Requested)
    case TransferAwaitingApproval => Some(AwaitingApproval)
    case TransferSettled => Some(Settled)
    case TransferFailed => Some(Failed)
    case _ => None
  }

  /** Which events a status history calls for. */
  predicate Wanted(h: seq<Status>, k: EventType) {
    CalledForBy(k).Some? && CalledForBy(k).value in h
  }

  /** The payload says what the transfer row says. */
  ghost predicate EventFits(row: TransferRow, event: Event) {
    && event.aggregateId == row.id
    && match event.kind
       case TransferRequested => event.payload == RequestedPayload(row.apiKey, row.params)
       case TransferStatusCheck => event.payload.StatusCheckPayload? && row.applyNo == Some(event.payload.applyNo)
       case _ => event.payload.StateChangedPayload? && StateEvent(event.payload.to) == Some(event.kind)
  }

  ghost predicate IsEventFor(t: Tables, e: EventId, id: TransferId, k: EventType) {
    e in t.outbox && t.outbox[e].event.kind == k && t.outbox[e].event.aggregateId == id
  }

  function HistoryOf(t: Tables, id: TransferId): seq<Status> {
    if id in t.history then t.history[id] else []
  }

  /** A handled event has done its work: the bank request is no longer pending, the polled transfer is final. */
  ghost predicate Completed(t: Tables, event: Event) {
    && (event.kind == TransferRequested ==>
          event.aggregateId in t.transfers && t.transfers[event.aggregateId].status != Pending)
    && (event.kind == TransferStatusCheck ==>
          event.aggregateId in t.transfers && IsTerminal(t.transfers[event.aggregateId].status))
  }

  ghost predicate TransferOk(t: Tables, id: TransferId) {
    && id in t.transfers && t.transfers[id].id == id && id in t.history
    && var h, row := HistoryOf(t, id), t.transfers[id];
       IsPath(h) && h[|h| - 1] == row.status && |h| == row.version && (row.applyNo.Some? <==> Requested in h)
  }

  ghost predicate UniqueKeys(t: Tables) {
    forall a, b :: a in t.transfers && b in t.transfers && a != b ==>
      t.transfers[a].appRequestId != t.transfers[b].appRequestId && t.transfers[a].apiKey != t.transfers[b].apiKey
  }

  ghost predicate LedgerSound(t: Tables) {
    forall e :: e in t.outbox && IsTransferEvent(t.outbox[e].event.kind) ==>
      var event := t.outbox[e].event;
      && event.aggregateId in t.transfers
      && Wanted(HistoryOf(t, event.aggregateId), event.kind)
      && EventFits(t.transfers[event.aggregateId], event)
  }

  ghost predicate LedgerUnique(t: Tables) {
    forall e1, e2 :: e1 in t.outbox && e2 in t.outbox && e1 != e2
                     && IsTransferEvent(t.outbox[e1].event.kind)
                     && t.outbox[e1].event.kind == t.outbox[e2].event.kind ==>
      t.outbox[e1].event.aggregateId != t.outbox[e2].event.aggregateId
  }

  ghost predicate LedgerComplete(t: Tables) {
    forall id, k :: id in t.transfers && Wanted(HistoryOf(t, id), k) ==> exists e :: IsEventFor(t, e, id, k)
  }

  ghost predicate SentCompleted(t: Tables) {
    forall e :: e in t.outbox && t.outbox[e].status == RowSent ==> Completed(t, t.outbox[e].event)
  }

  ghost predicate TablesInv(t: Tables) {
    && (forall id :: id in t.transfers ==> TransferOk(t, id))
    && UniqueKeys(t) && LedgerSound(t) && LedgerUnique(t) && LedgerComplete(t) && SentCompleted(t)
  }

  ghost predicate SameIdentity(a: TransferRow, b: TransferRow) {
    a.id == b.id && a.appRequestId == b.appRequestId && a.apiKey == b.apiKey && a.params == b.params
  }

  /** How tables may change: nothing is deleted, identities are frozen, versions and statuses only move forward, and a
      row changes only together with its version. */
  ghost predicate Grows(t: Tables, t': Tables) {
    && (forall id :: id in t.transfers ==>
          && id in t'.transfers
          && var r, r' := t.transfers[id], t'.transfers[id];
             && SameIdentity(r, r') && r.version <= r'.version && Rank(r.status) <= Rank(r'.status)
             && (r.version == r'.version ==> r == r')
             && (r.applyNo.Some? ==> r'.applyNo == r.applyNo))
    && (forall e :: e in t.outbox ==> e in t'.outbox && t'.outbox[e].event == t.outbox[e].event
                                      && t'.outbox[e].createdAt == t.outbox[e].createdAt)
    && t.processed <= t'.processed
  }

  lemma CompletedPersists(t: Tables, t': Tables, event: Event)
    requires Grows(t, t') && Completed(t, event)
    ensures Completed(t', event)
  {
  }

  /** A row read earlier: same identity, and still current exactly if the version says so. */
  ghost predicate Fits(t: Tables, snap: TransferRow) {
    && snap.id in t.transfers
    && var r := t.transfers[snap.id];
       SameIdentity(snap, r) && snap.version <= r.version && (snap.version == r.version ==> snap == r)
  }

  predicate IsNewRow(r: OutboxRow) {
    r == NewRow(r.event, r.createdAt)
  }

  /** Rows already there stay put, and rows that appear are as Publish inserts them. */
  ghost predicate RowsStay(t: Tables, t': Tables) {
    && (forall e :: e in t.outbox ==> e in t'.outbox && t'.outbox[e] == t.outbox[e])
    && (forall e :: e in t'.outbox && e !in t.outbox ==> IsNewRow(t'.outbox[e]))
  }

  // ---------- one status change with its events keeps the ledger ----------

  /** t' is t after transfer `id` took the transition to `to` and the rows `added` were published with it. */
  ghost predicate Advances(t: Tables, t': Tables, id: TransferId, to: Status, added: map<EventId, OutboxRow>) {
    && id in t.transfers && id in t.history && id in t'.transfers
    && var row, row' := t.transfers[id], t'.transfers[id];
       && t'.transfers == t.transfers[id := row']
       && SameIdentity(row, row') && row'.status == to && row'.version == row.version + 1
       && row.status != to && CanTransition(row.status, to)
       && (if to == Requested then row'.applyNo.Some? else row'.applyNo == row.applyNo)
       && t'.history == t.history[id := HistoryOf(t, id) + [to]]
       && t'.processed == t.processed
       && added.Keys !! t.outbox.Keys && t'.outbox == t.outbox + added
       && (forall e :: e in added ==> IsNewRow(added[e]) && IsTransferEvent(added[e].event.kind)
                                      && CalledForBy(added[e].event.kind) == Some(to) &&
                                          EventFits(row', added[e].event))
       && (forall e1, e2 :: e1 in added && e2 in added && e1 != e2 ==> added[e1].event.kind != added[e2].event.kind)
       && (forall k :: CalledForBy(k) == Some(to) ==> exists e :: e in added && added[e].event.kind == k)
  }

  lemma HistoryAdvances(h: seq<Status>, to: Status)
    requires IsPath(h) && h[|h| - 1] != to && CanTransition(h[|h| - 1], to)
    ensures IsPath(h + [to]) && to !in h
  {
    var h' := h + [to];
    assert h'[|h'| - 1] == to;
    PathIsShort(h');
    assert forall i :: 0 <= i < |h| ==> h'[i] == h[i];
  }

  lemma AdvanceTransfers(t: Tables, t': Tables, id: TransferId, to: Status, added: map<EventId, OutboxRow>)
    requires TablesInv(t) && Advances(t, t', id, to, added)
    ensures forall x :: x in t'.transfers ==> TransferOk(t', x)
    ensures Rank(t.transfers[id].status) <= Rank(to)
    ensures t.transfers[id].applyNo.Some? ==> t'.transfers[id].applyNo == t.transfers[id].applyNo
  {
    assert TransferOk(t, id);
    HistoryAdvances(HistoryOf(t, id), to);
    forall x | x in t'.transfers
      ensures TransferOk(t', x)
    {
      assert TransferOk(t, x);
    }
  }

  lemma AdvanceGrows(t: Tables, t': Tables, id: TransferId, to: Status, added: map<EventId, OutboxRow>)
    requires TablesInv(t) && Advances(t, t', id, to, added)
    ensures Grows(t, t') && RowsStay(t, t') && SentCompleted(t')
  {
    AdvanceTransfers(t, t', id, to, added);
    assert Grows(t, t');
    forall e | e in t'.outbox && t'.outbox[e].status == RowSent
      ensures Completed(t', t'.outbox[e].event)
    {
      assert e in t.outbox && t'.outbox[e] == t.outbox[e];
      CompletedPersists(t, t', t.outbox[e].event);
    }
  }

  lemma AdvanceKeepsLedger(t: Tables, t': Tables, id: TransferId, to: Status, added: map<EventId, OutboxRow>)
    requires TablesInv(t) && Advances(t, t', id, to, added)
    ensures TablesInv(t') && Grows(t, t') && RowsStay(t, t')
  {
    AdvanceTransfers(t, t', id, to, added);
    AdvanceGrows(t, t', id, to, added);
    AdvanceSound(t, t', id, to, added);
    AdvanceUnique(t, t', id, to, added);
    AdvanceComplete(t, t', id, to, added);
  }

  lemma AdvanceSound(t: Tables, t': Tables, id: TransferId, to: Status, added: map<EventId, OutboxRow>)
    requires TablesInv(t) && Advances(t, t', id, to, added) && Grows(t, t')
    ensures LedgerSound(t')
  {
    assert to in HistoryOf(t', id);
    forall e | e in t'.outbox && IsTransferEvent(t'.outbox[e].event.kind)
      ensures var event := t'.outbox[e].event;
              && event.aggregateId in t'.transfers
              && Wanted(HistoryOf(t', event.aggregateId), event.kind)
              && EventFits(t'.transfers[event.aggregateId], event)
    {
      if e !in added {
        assert e in t.outbox && t'.outbox[e] == t.outbox[e];
      }
    }
  }

  lemma AdvanceUnique(t: Tables, t': Tables, id: TransferId, to: Status, added: map<EventId, OutboxRow>)
    requires TablesInv(t) && Advances(t, t', id, to, added)
    ensures LedgerUnique(t')
  {
    assert TransferOk(t, id);
    HistoryAdvances(HistoryOf(t, id), to);
    forall e1, e2 | e1 in t'.outbox && e2 in t'.outbox && e1 != e2
                    && IsTransferEvent(t'.outbox[e1].event.kind)
                    && t'.outbox[e1].event.kind == t'.outbox[e2].event.kind
      ensures t'.outbox[e1].event.aggregateId != t'.outbox[e2].event.aggregateId
    {
      OldAndNewDiffer(t, t', id, to, added, e1, e2);
      OldAndNewDiffer(t, t', id, to, added, e2, e1);
    }
  }

  lemma OldAndNewDiffer(t: Tables, t': Tables, id: TransferId, to: Status, added: map<EventId, OutboxRow>,
                        e1: EventId, e2: EventId)
    requires TablesInv(t) && Advances(t, t', id, to, added) && to !in HistoryOf(t, id)
    requires e1 in t'.outbox && e2 in t'.outbox && IsTransferEvent(t'.outbox[e1].event.kind)
    ensures e1 in t.outbox && e2 in added && t'.outbox[e1].event.kind == t'.outbox[e2].event.kind ==>
              t'.outbox[e1].event.aggregateId != t'.outbox[e2].event.aggregateId
  {
  }

  lemma AdvanceComplete(t: Tables, t': Tables, id: TransferId, to: Status, added: map<EventId, OutboxRow>)
    requires TablesInv(t) && Advances(t, t', id, to, added)
    ensures LedgerComplete(t')
  {
    forall x, k | x in t'.transfers && Wanted(HistoryOf(t', x), k)
      ensures exists e :: IsEventFor(t', e, x, k)
    {
      if x == id && CalledForBy(k) == Some(to) {
        var e :| e in added && added[e].event.kind == k;
        assert IsEventFor(t', e, x, k);
      } else {
        assert Wanted(HistoryOf(t, x), k);
        var e :| IsEventFor(t, e, x, k);
        assert IsEventFor(t', e, x, k);
      }
    }
  }

  lemma RejectedKeepsLedger(t: Tables, snap: TransferRow, msg: string, e1: EventId, e2: EventId, now: int)
    requires TablesInv(t) && Fits(t, snap) && snap.status == Pending
    requires SendTx(t, snap, Rejected(msg), e1, e2, now).Ok?
    ensures var t' := SendTx(t, snap, Rejected(msg), e1, e2, now).value;
            && TablesInv(t') && Grows(t, t') && RowsStay(t, t')
            && t.transfers[snap.id] == snap && t'.transfers[snap.id].status == Failed
  {
    var t' := SendTx(t, snap, Rejected(msg), e1, e2, now).value;
    assert TransferOk(t, snap.id);
    var added := map[e1 := NewRow(Event(TransferFailed, snap.id, StateChangedPayload(Pending, Failed, "", msg)), now)];
    assert e1 in added && t'.outbox == t.outbox + added;
    AdvanceKeepsLedger(t, t', snap.id, Failed, added);
  }

  /** What an accepted transfer request adds to the outbox. */
  function AcceptedAdded(id: TransferId, no: string, e1: EventId, e2: EventId, now: int): map<EventId, OutboxRow> {
    map[e1 := NewRow(Event(TransferAcceptedToBank, id, StateChangedPayload(Pending, Requested, no, "")), now),
        e2 := NewRow(Event(TransferStatusCheck, id, StatusCheckPayload(no)), now)]
  }

  lemma AcceptedShape(t: Tables, snap: TransferRow, no: string, e1: EventId, e2: EventId, now: int)
    requires Fits(t, snap) && SendTx(t, snap, Accepted(no), e1, e2, now).Ok?
    ensures t.transfers[snap.id] == snap && e1 != e2 && e1 !in t.outbox && e2 !in t.outbox
    ensures SendTx(t, snap, Accepted(no), e1, e2, now).value
         == Tables(t.transfers[snap.id := snap.(status := Requested, applyNo := Some(no), version := snap.version + 1,
                                                updatedAt := now)],
                   t.outbox + AcceptedAdded(snap.id, no, e1, e2, now), t.processed,
                   t.history[snap.id := HistoryOf(t, snap.id) + [Requested]])
  {
    assert SendTx(t, snap, Accepted(no), e1, e2, now).value.outbox == t.outbox +
        AcceptedAdded(snap.id, no, e1, e2, now);
  }

  lemma AcceptedAdvances(t: Tables, t': Tables, snap: TransferRow, row': TransferRow, no: string,
                         e1: EventId, e2: EventId, now: int)
    requires TransferOk(t, snap.id) && t.transfers[snap.id] == snap && snap.status == Pending
    requires e1 != e2 && e1 !in t.outbox && e2 !in t.outbox
    requires row' == snap.(status := Requested, applyNo := Some(no), version := snap.version + 1, updatedAt := now)
    requires t' == Tables(t.transfers[snap.id := row'], t.outbox + AcceptedAdded(snap.id, no, e1, e2, now),
                          t.processed, t.history[snap.id := HistoryOf(t, snap.id) + [Requested]])
    ensures Advances(t, t', snap.id, Requested, AcceptedAdded(snap.id, no, e1, e2, now))
  {
    var added := AcceptedAdded(snap.id, no, e1, e2, now);
    assert e1 in added && e2 in added;
  }

  lemma AcceptedKeepsLedger(t: Tables, snap: TransferRow, no: string, e1: EventId, e2: EventId, now: int)
    requires TablesInv(t) && Fits(t, snap) && snap.status == Pending
    requires SendTx(t, snap, Accepted(no), e1, e2, now).Ok?
    ensures var t' := SendTx(t, snap, Accepted(no), e1, e2, now).value;
            && TablesInv(t') && Grows(t, t') && RowsStay(t, t')
            && t.transfers[snap.id] == snap && t'.transfers[snap.id].status == Requested
  {
    AcceptedShape(t, snap, no, e1, e2, now);
    var t' := SendTx(t, snap, Accepted(no), e1, e2, now).value;
    assert TransferOk(t, snap.id);
    AcceptedAdvances(t, t', snap, t'.transfers[snap.id], no, e1, e2, now);
    AdvanceKeepsLedger(t, t', snap.id, Requested, AcceptedAdded(snap.id, no, e1, e2, now));
  }

  lemma SendKeepsLedger(t: Tables, snap: TransferRow, answer: BankAnswer, e1: EventId, e2: EventId, now: int)
    requires TablesInv(t) && Fits(t, snap) && snap.status == Pending
    requires SendTx(t, snap, answer, e1, e2, now).Ok?
    ensures var t' := SendTx(t, snap, answer, e1, e2, now).value;
            && TablesInv(t') && Grows(t, t') && RowsStay(t, t')
            && t.transfers[snap.id] == snap
            && t'.transfers[snap.id].status == if answer.Accepted? then Requested else Failed
  {
    match answer
    case Rejected(msg) => RejectedKeepsLedger(t, snap, msg, e1, e2, now);
    case Accepted(no) => AcceptedKeepsLedger(t, snap, no, e1, e2, now);
  }

  /** What applyStatus adds to the outbox. */
  function CheckAdded(snap: TransferRow, to: Status, lastError: Option<string>, applyNo: string, e: EventId, now: int)
    : map<EventId, OutboxRow>
  {
    match StateEvent(to)
    case None => map[]
    case Some(kind) =>
      map[e := NewRow(Event(kind, snap.id, StateChangedPayload(snap.status, to, applyNo,
                            if lastError.Some? then lastError.value else "")), now)]
  }

  lemma CheckShape(t: Tables, snap: TransferRow, to: Status, detail: string, applyNo: string, e: EventId, now: int)
    requires Fits(t, snap)
    requires CheckTx(t, snap, to, detail, applyNo, e, now).Ok?
    ensures var t' := CheckTx(t, snap, to, detail, applyNo, e, now).value;
            var lastError := if to == Failed then Some(detail) else snap.lastError;
            && t.transfers[snap.id] == snap && CanTransition(snap.status, to)
            && t' == Tables(t.transfers[snap.id := snap.(status := to, lastError := lastError,
                                                         version := snap.version + 1,
                                                         updatedAt := now)],
                            t.outbox + CheckAdded(snap, to, lastError, applyNo, e, now), t.processed,
                            t.history[snap.id := HistoryOf(t, snap.id) + [to]])
            && (StateEvent(to).Some? ==> e !in t.outbox)
  {
    var lastError := if to == Failed then Some(detail) else snap.lastError;
    var t' := CheckTx(t, snap, to, detail, applyNo, e, now).value;
    assert t'.outbox == t.outbox + CheckAdded(snap, to, lastError, applyNo, e, now);
  }

  lemma CheckAdvances(t: Tables, t': Tables, snap: TransferRow, row': TransferRow, to: Status, applyNo: string,
                      e: EventId, now: int)
    requires TransferOk(t, snap.id) && t.transfers[snap.id] == snap && snap.status != Pending
    requires snap.status != to && CanTransition(snap.status, to)
    requires row' == snap.(status := to, lastError := row'.lastError, version := snap.version + 1, updatedAt := now)
    requires t' == Tables(t.transfers[snap.id := row'],
                          t.outbox + CheckAdded(snap, to, row'.lastError, applyNo, e, now),
                          t.processed, t.history[snap.id := HistoryOf(t, snap.id) + [to]])
    requires StateEvent(to).Some? ==> e !in t.outbox
    ensures Advances(t, t', snap.id, to, CheckAdded(snap, to, row'.lastError, applyNo, e, now))
  {
    var added := CheckAdded(snap, to, row'.lastError, applyNo, e, now);
    assert to != Requested && to != Pending;
    assert StateEvent(to).Some? ==> e in added && CalledForBy(added[e].event.kind) == Some(to);
    assert forall k :: CalledForBy(k) == Some(to) ==> StateEvent(to) == Some(k);
  }

  lemma CheckKeepsLedger(t: Tables, snap: TransferRow, to: Status, detail: string, applyNo: string, e: EventId,
                         now: int)
    requires TablesInv(t) && Fits(t, snap) && snap.status != Pending && snap.status != to
    requires CheckTx(t, snap, to, detail, applyNo, e, now).Ok?
    ensures var t' := CheckTx(t, snap, to, detail, applyNo, e, now).value;
            && TablesInv(t') && Grows(t, t') && RowsStay(t, t')
            && t.transfers[snap.id] == snap && CanTransition(snap.status, to)
            && t'.transfers[snap.id].status == to
  {
    CheckShape(t, snap, to, detail, applyNo, e, now);
    var t' := CheckTx(t, snap, to, detail, applyNo, e, now).value;
    var row' := t'.transfers[snap.id];
    assert TransferOk(t, snap.id);
    CheckAdvances(t, t', snap, row', to, applyNo, e, now);
    AdvanceKeepsLedger(t, t', snap.id, to, CheckAdded(snap, to, row'.lastError, applyNo, e, now));
  }

  lemma RequestRows(t: Tables, row: TransferRow, e: EventId, now: int)
    requires TablesInv(t) && row.status == Pending && row.version == 1 && row.applyNo == None
    requires RequestTx(t, row, e, now).Ok?
    ensures var t' := RequestTx(t, row, e, now).value;
            && Grows(t, t') && RowsStay(t, t') && row.id !in t.transfers && t'.transfers == t.transfers[row.id := row]
            && (forall x :: x in t'.transfers ==> TransferOk(t', x))
            && UniqueKeys(t') && SentCompleted(t')
  {
    var t' := RequestTx(t, row, e, now).value;
    assert t'.history[row.id] == [Pending];
    forall x | x in t'.transfers
      ensures TransferOk(t', x)
    {
      if x != row.id {
        assert TransferOk(t, x);
      }
    }
    forall x | x in t'.outbox && t'.outbox[x].status == RowSent
      ensures Completed(t', t'.outbox[x].event)
    {
      assert x in t.outbox;
    }
  }

  lemma RequestKeepsLedger(t: Tables, row: TransferRow, e: EventId, now: int)
    requires TablesInv(t) && row.status == Pending && row.version == 1 && row.applyNo == None
    requires RequestTx(t, row, e, now).Ok?
    ensures var t' := RequestTx(t, row, e, now).value;
            && TablesInv(t') && Grows(t, t') && RowsStay(t, t')
            && row.id !in t.transfers && t'.transfers == t.transfers[row.id := row]
  {
    RequestRows(t, row, e, now);
    var t' := RequestTx(t, row, e, now).value;
    var event := Event(TransferRequested, row.id, RequestedPayload(row.apiKey, row.params));
    assert t'.outbox == t.outbox[e := NewRow(event, now)] && e !in t.outbox;
    assert HistoryOf(t', row.id) == [Pending];
    forall x, k | x in t'.transfers && Wanted(HistoryOf(t', x), k)
      ensures exists y :: IsEventFor(t', y, x, k)
    {
      if x == row.id {
        assert IsEventFor(t', e, x, k);
      } else {
        assert Wanted(HistoryOf(t, x), k);
        var y :| IsEventFor(t, y, x, k);
        assert IsEventFor(t', y, x, k);
      }
    }
    assert LedgerSound(t');
    assert LedgerUnique(t');
  }

  // ---------- what the ledger means ----------

  function EventsFor(t: Tables, id: TransferId, k: EventType): set<EventId> {
    set e | e in t.outbox && t.outbox[e].event.kind == k && t.outbox[e].event.aggregateId == id
  }

  lemma EventCount(t: Tables, id: TransferId, k: EventType)
    requires LedgerSound(t) && LedgerUnique(t) && LedgerComplete(t) && id in t.transfers && IsTransferEvent(k)
    ensures |EventsFor(t, id, k)| == if Wanted(HistoryOf(t, id), k) then 1 else 0
  {
    var s := EventsFor(t, id, k);
    if Wanted(HistoryOf(t, id), k) {
      var e :| IsEventFor(t, e, id, k);
      assert forall x :: x in s ==> x in t.outbox && x == e;
      assert s == {e};
    } else {
      assert forall x :: x in s ==> x in t.outbox && Wanted(HistoryOf(t, id), k);
      assert forall x :: x !in s;
      assert s == {};
    }
  }

  /** The outbox rows of a transfer are exactly determined by its status history: one row of every kind the history
      calls for, none of any other; settled and failed notices exclude each other; the version counts the changes. */
  lemma LedgerIsExact(t: Tables, id: TransferId, k: EventType)
    requires TablesInv(t) && id in t.transfers && IsTransferEvent(k)
    ensures |EventsFor(t, id, k)| == if Wanted(HistoryOf(t, id), k) then 1 else 0
    ensures !(Wanted(HistoryOf(t, id), TransferSettled) && Wanted(HistoryOf(t, id), TransferFailed))
    ensures IsTerminal(t.transfers[id].status) <==>
            Wanted(HistoryOf(t, id), TransferSettled) || Wanted(HistoryOf(t, id), TransferFailed)
    ensures t.transfers[id].version == |HistoryOf(t, id)| <= 5
  {
    assert TransferOk(t, id);
    var h := HistoryOf(t, id);
    PathIsShort(h);
    EventCount(t, id, k);
    if x :| x in h && IsTerminal(x) {
      var i :| 0 <= i < |h| && h[i] == x;
      assert i == |h| - 1;
    }
    assert h[|h| - 1] in h;
  }

  /** The kind of event that still has work to do for a transfer. */
  function DriverKind(s: Status): EventType {
    if s == Pending then TransferRequested else TransferStatusCheck
  }

  /** No transfer is stranded: a transfer that is not final has exactly one driving event, and that event has not been
      marked as handled. */
  lemma NotStranded(t: Tables, id: TransferId)
    requires TablesInv(t) && id in t.transfers && !IsTerminal(t.transfers[id].status)
    ensures |EventsFor(t, id, DriverKind(t.transfers[id].status))| == 1
    ensures forall e :: e in EventsFor(t, id, DriverKind(t.transfers[id].status)) ==> t.outbox[e].status != RowSent
  {
    assert TransferOk(t, id);
    var h := HistoryOf(t, id);
    if t.transfers[id].status != Pending {
      assert |h| > 1;
      assert h[1] != Pending && CanTransition(Pending, h[1]);
      PathIsShort(h);
      assert h[1] == Requested;
    }
    LedgerIsExact(t, id, DriverKind(t.transfers[id].status));
  }

  /** The event that told a final status is there for ever, so the status is. */
  lemma FinalStaysFinal(t: Tables, t': Tables, id: TransferId)
    requires TablesInv(t) && TablesInv(t') && Grows(t, t') && id in t.transfers && IsTerminal(t.transfers[id].status)
    ensures id in t'.transfers && t'.transfers[id].status == t.transfers[id].status
  {
    var s := t.transfers[id].status;
    var k := if s == Settled then TransferSettled else TransferFailed;
    assert TransferOk(t, id) && TransferOk(t', id);
    assert Wanted(HistoryOf(t, id), k);
    var e :| IsEventFor(t, e, id, k);
    assert IsEventFor(t', e, id, k);
    var h := HistoryOf(t', id);
    PathIsShort(h);
    var i :| 0 <= i < |h| && h[i] == s;
    assert i == |h| - 1;
  }
}

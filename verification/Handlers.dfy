/** The use case and the event handlers as they run against the database, the bank and the notice sender.  Each is
    proved to do, when nothing interferes, exactly the steps of the protocol machine in their order. */
module Handlers {
  import opened Basics
  import opened TransferDomain
  import opened Events
  import opened Outbox
  import opened TransferTables
  import opened Protocol
  import CB = CircuitBreaker

  // ---------- one whole handler call as protocol steps ----------

  /** A storage environment: whether the lookup works, how the handler's transaction ends, which ids it draws. */
  datatype Storage = Storage(findOk: bool, fate: Fate, e1: EventId, e2: EventId)

  function SendCall(w: World, e: EventId, st: Storage, admitted: bool, gateway: Gateway, now: int)
    : (World, HandlerResult)
    requires e in w.tables.outbox
  {
    var r1 := SendFindsRun(w.tables, e, st.findOk, admitted);
    if r1.HandlerReturned? then (w, r1.result)
    else SendAdmitted(w, r1, st, gateway, now)
  }

  /** The rest of the call once the breaker has admitted it. */
  function SendAdmitted(w: World, found: Run, st: Storage, gateway: Gateway, now: int): (World, HandlerResult)
    requires found.SendFound?
  {
    var (w2, r2) := AfterHandlerStep(w, now, found, SendCalls(gateway));
    if r2.HandlerReturned? then (w2, r2.result)
    else
      var (w3, r3) := AfterHandlerStep(w2, now, r2, SendStores(st.e1, st.e2, st.fate));
      (w3, r3.result)
  }

  /** The breaker is asked once per call that finds a pending transfer, and told exactly once per admission. */
  function SendBreaker(cfg: CB.Config, b: CB.Breaker, w: World, e: EventId, st: Storage, gateway: Gateway,
                       askAt: int, doneAt: int): CB.Breaker
    requires e in w.tables.outbox
  {
    var asks := SendFindsRun(w.tables, e, st.findOk, true).SendFound?;
    if !asks then b
    else if !CB.Admits(cfg, b, askAt) then CB.AfterAllow(cfg, b, askAt)
    else CB.AfterRecord(cfg, CB.AfterAllow(cfg, b, askAt), doneAt, !gateway.Unreachable?)
  }

  /** A bank call neither reads nor writes the tables. */
  lemma SendCallsFrame(w: World, run: Run, gateway: Gateway)
    requires run.SendFound?
    ensures var (w1, run1) := SendCallsStep(World(EMPTY, w.bank, []), run, gateway);
            SendCallsStep(w, run, gateway) == (w.(bank := w1.bank), run1)
  {
  }

  datatype BankReply = NoReply | Reported(status: string, detail: string)

  function MapSunabarStatus(s: string): Option<Status> {
    if s == "AcceptedToBank" then Some(Requested)
    else if s == "AwaitingApproval" then Some(AwaitingApproval)
    else if s == "Approved" then Some(Approved)
    else if s == "Settled" then Some(Settled)
    else if s == "Failed" then Some(Failed)
    else None
  }

  function Understood(reply: BankReply): Option<(Status, string)> {
    if reply.Reported? && MapSunabarStatus(reply.status).Some?
    then Some((MapSunabarStatus(reply.status).value, reply.detail)) else None
  }

  function PolledNumber(t: Tables, e: EventId): string {
    if e in t.outbox && t.outbox[e].event.payload.StatusCheckPayload? then t.outbox[e].event.payload.applyNo else ""
  }

  function CheckCall(w: World, e: EventId, st: Storage, reply: BankReply, now: int): (World, HandlerResult)
    requires e in w.tables.outbox
  {
    if Understood(reply).None? then (w, HandlerError)
    else
      var r1 := CheckFindsRun(w.tables, CheckPolled(e, Understood(reply).value.0, Understood(reply).value.1),
                              st.findOk);
      if r1.HandlerReturned? then (w, r1.result)
      else
        var (w2, r2) := AfterHandlerStep(w, now, r1, CheckStores(st.e1, PolledNumber(w.tables, e), st.fate));
        (w2, r2.result)
  }

  function NoticeCall(w: World, e: EventId, markFate: Fate, sendOk: bool, now: int): (World, HandlerResult)
    requires e in w.tables.outbox && IsNotice(w.tables.outbox[e].event.kind)
  {
    var (w1, r1) := AfterHandlerStep(w, now, Started(e), NoticeMarks(markFate));
    if r1.HandlerReturned? then (w1, r1.result)
    else
      var (w2, r2) := AfterHandlerStep(w1, now, r1, NoticeSends(sendOk));
      (w2, r2.result)
  }

  // ---------- the database ----------

  class Database {
    var tables: Tables  // committed
    var tx: Tables      // what the open transaction sees

    constructor ()
      ensures tables == EMPTY
    {
      tables, tx := EMPTY, EMPTY;
    }

    method Begin()
      modifies this`tx
      ensures tx == tables
    {
      tx := tables;
    }

    /** The end of transaction.Do: roll back on an error of the body or of the commit, else commit.  A commit can take
        effect although its confirmation is lost. */
    method End(bodyOk: bool, fate: Fate) returns (ok: bool)
      modifies this
      ensures ok == (bodyOk && fate == Commits)
      ensures tables == if bodyOk && fate != Aborts then old(tx) else old(tables)
    {
      if !bodyOk || fate == Aborts {
        tx := tables;
        return false;
      }
      tables := tx;
      return fate == Commits;
    }

    method Insert(t: Transfer) returns (r: Result<(), Error>)
      modifies this`tx
      ensures match InsertTransfer(old(tx), t.Row())
              case Ok(t') => r == Ok(()) && tx == t'
              case Err(err) => r == Err(err) && tx == old(tx)
      ensures r.Ok? <==> t.id !in old(tx).transfers && forall x :: x in old(tx).transfers ==>
                old(tx).transfers[x].appRequestId != t.appRequestId && old(tx).transfers[x].apiKey != t.apiKey
      ensures r.Ok? ==> tx.transfers == old(tx).transfers[t.id := t.Row()] && tx.outbox == old(tx).outbox
      ensures r.Err? ==> r == Err(AlreadyExists) && tx == old(tx)
    {
      if Clashes(tx, t.Row()) {
        return Err(AlreadyExists);
      }
      tx := tx.(transfers := tx.transfers[t.id := t.Row()], history := tx.history[t.id := [t.status]]);
      return Ok(());
    }

    method Update(t: Transfer) returns (r: Result<(), Error>)
      modifies this`tx, t`version
      ensures match UpdateTransfer(old(tx), old(t.Row()))
              case Ok(t') => r == Ok(()) && tx == t' && t.Row() == old(t.Row()).(version := old(t.version) + 1)
              case Err(err) => r == Err(err) && tx == old(tx) && t.Row() == old(t.Row())
      ensures r.Ok? <==> t.id in old(tx).transfers && old(tx).transfers[t.id].version == old(t.version)
      ensures r.Ok? ==>
                && tx.outbox == old(tx).outbox && tx.processed == old(tx).processed
                && tx.transfers == old(tx).transfers[t.id :=
                     old(tx).transfers[t.id].(status := t.status, applyNo := t.applyNo, lastError := t.lastError,
                                              version := old(t.version) + 1, updatedAt := t.updatedAt)]
      ensures r.Err? ==> r == Err(ConcurrentUpdate) && tx == old(tx) && t.version == old(t.version)
    {
      if t.id !in tx.transfers || tx.transfers[t.id].version != t.version {
        return Err(ConcurrentUpdate);
      }
      var was := tx.transfers[t.id];
      tx := tx.(
        transfers := tx.transfers[t.id := was.(status := t.status, applyNo := t.applyNo, lastError := t.lastError,
                                               version := was.version + 1, updatedAt := t.updatedAt)],
        history := tx.history[t.id := HistoryOf(tx, t.id) + [t.status]]);
      t.version := t.version + 1;
      return Ok(());
    }

    method Publish(e: EventId, event: Event, now: int) returns (r: Result<(), Error>)
      modifies this`tx
      ensures match TransferTables.Publish(old(tx), e, event, now)
              case Ok(t') => r == Ok(()) && tx == t'
              case Err(err) => r == Err(err) && tx == old(tx)
      ensures r.Ok? <==> e !in old(tx).outbox
      ensures r.Ok? ==>
                && tx.transfers == old(tx).transfers && tx.processed == old(tx).processed
                && tx.outbox == old(tx).outbox[e := OutboxRow(event, RowPending, 0, now, now)]
      ensures r.Err? ==> r == Err(StorageError) && tx == old(tx)
    {
      if e in tx.outbox {
        return Err(StorageError);
      }
      tx := tx.(outbox := tx.outbox[e := NewRow(event, now)]);
      return Ok(());
    }

    /** Reads outside any transaction. */
    method FindByID(id: TransferId, ok: bool) returns (r: Result<Transfer, Error>)
      ensures r.Ok? <==> ok && id in tables.transfers
      ensures r.Ok? ==> fresh(r.value) && r.value.Row() == tables.transfers[id]
      ensures r.Err? ==> r.error == if ok then NotFound else StorageError
    {
      if !ok {
        return Err(StorageError);
      }
      if id !in tables.transfers {
        return Err(NotFound);
      }
      var t := new Transfer.FromRow(tables.transfers[id]);
      return Ok(t);
    }

    method FindByAppRequestID(app: int, ok: bool) returns (r: Result<Transfer, Error>)
      ensures r.Ok? <==> ok && exists id :: id in tables.transfers && tables.transfers[id].appRequestId == app
      ensures r.Ok? ==> fresh(r.value) && r.value.appRequestId == app
                        && exists id :: id in tables.transfers && r.value.Row() == tables.transfers[id]
      ensures r.Err? ==> r.error == if ok then NotFound else StorageError
    {
      if !ok {
        return Err(StorageError);
      }
      if id :| id in tables.transfers && tables.transfers[id].appRequestId == app {
        var t := new Transfer.FromRow(tables.transfers[id]);
        return Ok(t);
      }
      return Err(NotFound);
    }

    /** INSERT IGNORE into event_processed, in its own transaction; reports whether the mark is new.  An error can come
        back although the mark was written. */
    method MarkProcessed(e: EventId, fate: Fate) returns (isNew: Result<bool, Error>)
      modifies this`tables
      ensures isNew == if fate == Commits then Ok(e !in old(tables).processed) else Err(StorageError)
      ensures tables == if fate == Aborts then old(tables) else Marked(old(tables), e)
    {
      if fate == Aborts {
        return Err(StorageError);
      }
      var known := e in tables.processed;
      tables := tables.(processed := tables.processed + {e});
      return if fate == Commits then Ok(!known) else Err(StorageError);
    }
  }

  // ---------- the bank ----------

  datatype ApiError = HttpError(statusCode: int, message: string) | TransportError(message: string)

  /** 5xx and anything that is not an answer of the bank may be retried; 4xx may not. */
  function IsRetryable(err: Option<ApiError>): bool {
    match err
    case None => false
    case Some(HttpError(code, _)) => code >= 500
    case Some(TransportError(_)) => true
  }

  datatype TransferRequestBody = TransferRequestBody(idempotencyKey: int, params: TransferParams, transferDate: int)

  /** What each kind of gateway behaviour looks like to the caller. */
  predicate LooksLike(gateway: Gateway, failure: ApiError) {
    match gateway
    case Accepts(_, _) => true
    case Refuses(msg) => failure.HttpError? && failure.statusCode < 500 && failure.message == msg
    case Unreachable(_) => IsRetryable(Some(failure))
  }

  class BankClient {
    var records: seq<BankRecord>

    constructor ()
      ensures records == []
    {
      records := [];
    }

    method RequestTransfer(req: TransferRequestBody, gateway: Gateway, failure: ApiError)
      returns (r: Result<string, ApiError>)
      requires LooksLike(gateway, failure)
      modifies this
      ensures var known := KnownKey(old(records), req.idempotencyKey);
              match gateway
              case Accepts(date, no) =>
                && r == Ok(if known.Some? then known.value.applyNo else no)
                && records == if known.Some? then old(records)
                              else old(records) + [BankRecord(req.idempotencyKey, req.params, date, no)]
              case Refuses(msg) => r == Err(failure) && records == old(records)
              case Unreachable(recorded) =>
                && r == Err(failure)
                && records == if recorded.None? || known.Some? then old(records)
                              else old(records) + [BankRecord(req.idempotencyKey, req.params, recorded.value.0,
                                                              recorded.value.1)]
    {
      var known := KnownKey(records, req.idempotencyKey);
      match gateway
      case Accepts(date, no) =>
        if known.Some? {
          return Ok(known.value.applyNo);
        }
        records := records + [BankRecord(req.idempotencyKey, req.params, date, no)];
        return Ok(no);
      case Refuses(_) =>
        return Err(failure);
      case Unreachable(recorded) =>
        if recorded.Some? && known.None? {
          records := records + [BankRecord(req.idempotencyKey, req.params, recorded.value.0, recorded.value.1)];
        }
        return Err(failure);
    }
  }

  // ---------- TransferRequested ----------

  class SendToSunabarHandler {
    const db: Database
    const bank: BankClient
    const breaker: CB.InMemoryCircuitBreaker

    constructor (db: Database, bank: BankClient, breaker: CB.InMemoryCircuitBreaker)
      ensures this.db == db && this.bank == bank && this.breaker == breaker
    {
      this.db, this.bank, this.breaker := db, bank, breaker;
    }

    method Handle(e: EventId, st: Storage, gateway: Gateway, failure: ApiError, now: int, askAt: int, doneAt: int)
      returns (result: HandlerResult)
      requires e in db.tables.outbox && breaker.Valid() && LooksLike(gateway, failure)
      modifies db, bank, breaker
      ensures breaker.Valid()
      ensures (World(db.tables, bank.records, []), result)
           == SendCall(World(old(db.tables), old(bank.records), []), e, st,
                       CB.Admits(breaker.Cfg(), old(breaker.Abs()), askAt), gateway, now)
      ensures breaker.Abs()
           == SendBreaker(breaker.Cfg(), old(breaker.Abs()), World(old(db.tables), old(bank.records), []), e, st,
                          gateway, askAt, doneAt)
    {
      var found := db.FindByID(db.tables.outbox[e].event.aggregateId, st.findOk);
      if found.Err? {
        return HandlerError;
      }
      var t := found.value;
      if t.status != Pending {
        return Handled;
      }
      var admitted := breaker.Allow(askAt);
      if !admitted {
        return SkipAttempt;
      }
      result := CallAndConclude(e, t, st, gateway, failure, now, askAt, doneAt);
    }

    method CallAndConclude(e: EventId, t: Transfer, st: Storage, gateway: Gateway, failure: ApiError,
                           now: int, date: int, doneAt: int)
      returns (result: HandlerResult)
      requires breaker.Valid() && LooksLike(gateway, failure)
      modifies db, bank, breaker, t
      ensures breaker.Valid()
      ensures breaker.Abs() == CB.AfterRecord(breaker.Cfg(), old(breaker.Abs()), doneAt, !gateway.Unreachable?)
      ensures (World(db.tables, bank.records, []), result)
           == SendAdmitted(World(old(db.tables), old(bank.records), []), SendFound(e, old(t.Row())), st, gateway, now)
    {
      SendCallsFrame(World(db.tables, bank.records, []), SendFound(e, t.Row()), gateway);
      var answer := CallBank(e, t, gateway, failure, date, doneAt);
      if answer.None? {
        return HandlerError;
      }
      result := Conclude(t, answer.value, st, now);
    }

    /** Call the bank with the transfer's own key and details, and tell the breaker how it went: once, and a refusal
        counts as the gateway working. */
    method CallBank(e: EventId, t: Transfer, gateway: Gateway, failure: ApiError, date: int, doneAt: int)
      returns (answer: Option<BankAnswer>)
      requires breaker.Valid() && LooksLike(gateway, failure)
      modifies bank, breaker
      ensures breaker.Valid()
      ensures breaker.Abs() == CB.AfterRecord(breaker.Cfg(), old(breaker.Abs()), doneAt, !gateway.Unreachable?)
      ensures var (w, run) := SendCallsStep(World(EMPTY, old(bank.records), []), SendFound(e, t.Row()), gateway);
              && bank.records == w.bank
              && (run.SendAnswered? <==> answer.Some?)
              && (answer.Some? ==> run == SendAnswered(e, t.Row(), answer.value))
    {
      var res := bank.RequestTransfer(TransferRequestBody(t.apiKey, t.params, date), gateway, failure);
      if res.Err? && IsRetryable(Some(res.error)) {
        breaker.RecordFailure(doneAt);
        return None;
      }
      breaker.RecordSuccess(doneAt);
      return Some(if res.Ok? then Accepted(res.value) else Rejected(res.error.message));
    }

    /** The handler's transaction.  The tables may have moved on since `t` was read. */
    method Conclude(t: Transfer, answer: BankAnswer, st: Storage, now: int) returns (result: HandlerResult)
      modifies db, t
      ensures var outcome := SendTx(old(db.tables), old(t.Row()), answer, st.e1, st.e2, now);
              && db.tables == AfterFate(old(db.tables), outcome, st.fate)
              && result == if outcome.Ok? && st.fate == Commits then Handled else HandlerError
    {
      db.Begin();
      var stored := Store(t, answer, st.e1, st.e2, now);
      var ok := db.End(stored, st.fate);
      return if ok then Handled else HandlerError;
    }

    /** The body of the transaction. */
    method Store(t: Transfer, answer: BankAnswer, e1: EventId, e2: EventId, now: int) returns (ok: bool)
      modifies db`tx, t
      ensures match SendTx(old(db.tx), old(t.Row()), answer, e1, e2, now)
              case Ok(t') => ok && db.tx == t'
              case Err(_) => !ok
    {
      match answer
      case Rejected(msg) =>
        var r := t.MarkFailed(msg, now);
        if r.Err? { return false; }
        r := db.Update(t);
        if r.Err? { return false; }
        r := PublishStatus(db, t.id, Pending, Failed, "", msg, e1, now);
        return r.Ok?;
      case Accepted(no) =>
        var r := t.MarkRequested(no, now);
        if r.Err? { return false; }
        r := db.Update(t);
        if r.Err? { return false; }
        r := PublishStatus(db, t.id, Pending, Requested, no, "", e1, now);
        if r.Err? { return false; }
        r := db.Publish(e2, Event(TransferStatusCheck, t.id, StatusCheckPayload(no)), now);
        return r.Ok?;
    }
  }

  /** publishStateChanged: the notification event of a status, if it has one. */
  method PublishStatus(db: Database, id: TransferId, from: Status, to: Status, applyNo: string, msg: string,
                       e: EventId, now: int) returns (r: Result<(), Error>)
    modifies db`tx
    ensures match TransferTables.PublishStateChanged(old(db.tx), id, from, to, applyNo, msg, e, now)
            case Ok(t') => r == Ok(()) && db.tx == t'
            case Err(err) => r == Err(err) && db.tx == old(db.tx)
  {
    var kind := StateEvent(to);
    if kind.None? {
      return Ok(());
    }
    r := db.Publish(e, Event(kind.value, id, StateChangedPayload(from, to, applyNo, msg)), now);
  }

  // ---------- TransferStatusCheckScheduled ----------

  class CheckStatusHandler {
    const db: Database

    constructor (db: Database)
      ensures this.db == db
    {
      this.db := db;
    }

    method Handle(e: EventId, st: Storage, reply: BankReply, now: int) returns (result: HandlerResult)
      requires e in db.tables.outbox
      modifies db
      ensures (World(db.tables, [], []), result) == CheckCall(World(old(db.tables), [], []), e, st, reply, now)
    {
      if reply.NoReply? {
        return HandlerError;
      }
      var mapped := MapSunabarStatus(reply.status);
      if mapped.None? {
        return HandlerError;
      }
      var to := mapped.value;
      var found := db.FindByID(db.tables.outbox[e].event.aggregateId, st.findOk);
      if found.Err? {
        return HandlerError;
      }
      var t := found.value;
      if IsTerminal(t.status) {
        return Handled;
      }
      if t.status == to {
        return HandlerError;
      }
      var ok := Conclude(t, to, reply.detail, PolledNumber(db.tables, e), st, now);
      if !ok || !IsTerminal(to) {
        return HandlerError;  // still in flight, or not stored
      }
      return Handled;
    }

    /** The handler's transaction.  The tables may have moved on since `t` was read. */
    method Conclude(t: Transfer, to: Status, detail: string, applyNo: string, st: Storage, now: int) returns (ok: bool)
      modifies db, t
      ensures var outcome := CheckTx(old(db.tables), old(t.Row()), to, detail, applyNo, st.e1, now);
              && db.tables == AfterFate(old(db.tables), outcome, st.fate)
              && ok == (outcome.Ok? && st.fate == Commits)
    {
      db.Begin();
      var stored := ApplyStatus(t, to, detail, applyNo, st.e1, now);
      ok := db.End(stored, st.fate);
    }

    method ApplyStatus(t: Transfer, to: Status, detail: string, applyNo: string, e: EventId, now: int)
      returns (ok: bool)
      modifies db`tx, t
      ensures match CheckTx(old(db.tx), old(t.Row()), to, detail, applyNo, e, now)
              case Ok(t') => ok && db.tx == t'
              case Err(_) => !ok
    {
      var from := t.status;
      var r;
      if to == Failed {
        r := t.MarkFailed(detail, now);
      } else {
        r := t.Transition(to, now);
      }
      if r.Err? { return false; }
      r := db.Update(t);
      if r.Err? { return false; }
      r := PublishStatus(db, t.id, from, to, applyNo, if t.lastError.Some? then t.lastError.value else "", e, now);
      return r.Ok?;
    }
  }

  // ---------- notices ----------

  class TransferEventHandler {
    const db: Database
    var sent: seq<EventId>  // the sender's invocations

    constructor (db: Database)
      ensures this.db == db && sent == []
    {
      this.db, sent := db, [];
    }

    method Handle(e: EventId, markFate: Fate, sendOk: bool, now: int) returns (result: HandlerResult)
      requires e in db.tables.outbox && IsNotice(db.tables.outbox[e].event.kind)
      modifies this`sent, db
      ensures (World(db.tables, [], sent), result)
           == NoticeCall(World(old(db.tables), [], old(sent)), e, markFate, sendOk, now)
    {
      var isNew := db.MarkProcessed(e, markFate);
      if isNew.Err? {
        return HandlerError;
      }
      if !isNew.value {
        return Handled;
      }
      sent := sent + [e];
      return if sendOk then Handled else HandlerError;
    }
  }

  // ---------- the use case ----------

  class RequestTransferUseCase {
    const db: Database

    constructor (db: Database)
      ensures this.db == db
    {
      this.db := db;
    }

    /** A known app request returns its transfer and changes nothing; a new one is inserted together with its event, or
        not at all.  A failed lookup is an error that changes nothing. */
    method Execute(app: int, params: TransferParams, id: TransferId, apiKey: int, e: EventId, fate: Fate, now: int,
                   lookOk: bool, rereadOk: bool)
      returns (r: Result<Transfer, Error>)
      modifies db
      ensures r.Ok? ==> r.value.appRequestId == app
      ensures !lookOk ==> db.tables == old(db.tables) && r == Err(StorageError)
      ensures lookOk && AppRequestTaken(old(db.tables), app) ==>
                && db.tables == old(db.tables) && r.Ok?
                && exists x :: x in old(db.tables).transfers && r.value.Row() == old(db.tables).transfers[x]
      ensures lookOk && !AppRequestTaken(old(db.tables), app) ==>
                var outcome := RequestTx(old(db.tables), NewTransferRow(id, app, apiKey, params, now), e, now);
                && db.tables == AfterFate(old(db.tables), outcome, fate)
                && (r.Ok? <==> outcome.Ok? && fate == Commits)
                && (r.Ok? ==> r.value.Row() == NewTransferRow(id, app, apiKey, params, now))
                && (r.Ok? ==> RequestStored(old(db.tables), db.tables, id, app, apiKey, params, e, now))
                && (outcome == Err(StorageError) || (outcome.Ok? && fate != Commits) ==> r == Err(StorageError))
                && (outcome == Err(AlreadyExists) ==> r == Err(if rereadOk then NotFound else StorageError))
    {
      var existing := db.FindByAppRequestID(app, lookOk);
      if existing.Ok? || existing.error != NotFound {
        return existing;
      }
      var t := new Transfer.New(id, app, apiKey, params, now);
      db.Begin();
      var inserted := db.Insert(t);
      if inserted.Err? {
        var _ := db.End(false, fate);
        // The row may have been written by another process meanwhile: look again.
        r := db.FindByAppRequestID(app, rereadOk);
        return;
      }
      var published := db.Publish(e, Event(TransferRequested, t.id, RequestedPayload(t.apiKey, t.params)), now);
      var ok := db.End(published.Ok?, fate);
      if !ok {
        return Err(StorageError);
      }
      return Ok(t);
    }
  }

  /** The request as the client made it is a pending transfer, and its event is published. */
  ghost predicate RequestStored(t: Tables, t': Tables, id: TransferId, app: int, apiKey: int, params: TransferParams,
                                e: EventId, now: int) {
    && id !in t.transfers && e !in t.outbox
    && t'.transfers == t.transfers[id := TransferRow(id, app, apiKey, params, Pending, None, None, 1, now, now)]
    && t'.outbox == t.outbox[e := OutboxRow(Event(TransferRequested, id, RequestedPayload(apiKey, params)),
                                            RowPending, 0, now, now)]
    && t'.processed == t.processed
  }

  ghost predicate AppRequestTaken(t: Tables, app: int) {
    exists x :: x in t.transfers && t.transfers[x].appRequestId == app
  }
}

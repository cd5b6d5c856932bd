/** The transfer protocol as a step machine: clients, relay sessions, the bank, and notices, in any interleaving.

    A session is one ProcessBatch call.  It locks a batch, runs the handlers one event at a time, and commits.  It can
    lose its transaction at any moment and still go on dispatching the rest of its batch (its row updates are then
    lost), or vanish in a crash.  Handlers run their own transactions, which commit independently of the session's.
    Ids are chosen by whoever needs one and may clash; a clash shows as the duplicate-key error it is. */
module Protocol {
  import opened Basics
  import opened TransferDomain
  import opened Events
  import opened Outbox
  import opened TransferTables

  type SessionId = int
  type ClientId = int

  /** A transfer in the bank's books. */
  datatype BankRecord = BankRecord(apiKey: int, params: TransferParams, transferDate: int, applyNo: string)

  datatype Client =
    | Missed(appRequestId: int, params: TransferParams)  // the fast path found nothing
    | Collided(appRequestId: int)                        // the insert hit a unique key
    | Returned(appRequestId: int, result: Result<TransferId, Error>)

  /** Where the running handler of a session is. */
  datatype Run =
    | Idle
    | Started(event: EventId)
    | SendFound(event: EventId, snap: TransferRow)                        // read as pending, admitted by the breaker
    | SendAnswered(event: EventId, snap: TransferRow, answer: BankAnswer)
    | CheckPolled(event: EventId, to: Status, detail: string)
    | CheckFound(event: EventId, snap: TransferRow, to: Status, detail: string)
    | NoticeMarked(event: EventId)
    | HandlerReturned(event: EventId, result: HandlerResult)

  datatype Session = Session(
    batch: set<EventId>,
    attempts: map<EventId, nat>,        // attempt counts as the batch query read them
    selectedAt: int,
    todo: set<EventId>,                 // not dispatched yet
    run: Run,
    stored: map<EventId, Attempt>,      // row updates waiting for the session's commit
    alive: bool)                        // still holds its transaction, hence its row locks

  /** What handlers act on. */
  datatype World = World(
    tables: Tables,
    bank: seq<BankRecord>,
    notices: seq<EventId>)              // Send invocations, oldest first

  /** `traces`, `succeeded`, `voided` and `used` are auxiliary: committed outcomes per event; handler calls that
      returned success; calls whose outcome will not reach the table; session ids taken. */
  datatype State = State(
    maxAttempt: nat,
    clock: int,
    world: World,
    sessions: map<SessionId, Session>,
    clients: map<ClientId, Client>,
    traces: map<EventId, seq<Attempt>>,
    succeeded: set<(SessionId, EventId)>,
    voided: set<(SessionId, EventId)>,
    used: set<SessionId>)

  function Initial(maxAttempt: nat, clock: int): State {
    State(maxAttempt, clock, World(EMPTY, [], []), map[], map[], map[], {}, {}, {})
  }

  // ---------- one step of a running handler ----------

  /** How a handler's own transaction ends; the last case is a commit whose confirmation is lost. */
  datatype Fate = Commits | Aborts | CommitsUnconfirmed

  /** What the bank says to a transfer request. */
  datatype Gateway =
    | Accepts(transferDate: int, applyNo: string)        // for a new key; a known key gets its old record
    | Refuses(message: string)                           // 4xx
    | Unreachable(recorded: Option<(int, string)>)       // 5xx, timeout: the bank may have taken the request

  datatype HandlerStep =
    | SendFinds(storageOk: bool, admitted: bool)
    | SendCalls(gateway: Gateway)
    | SendStores(e1: EventId, e2: EventId, fate: Fate)
    | CheckPolls(answer: Option<(Status, string)>)       // None: API error or unknown status
    | CheckFinds(storageOk: bool)
    | CheckStores(e: EventId, applyNo: string, fate: Fate)
    | NoticeMarks(fate: Fate)
    | NoticeSends(sendOk: bool)

  predicate IsNotice(k: EventType) {
    k in {TransferAcceptedToBank, EventType.TransferAwaitingApproval, TransferSettled, TransferFailed}
  }

  predicate CanStep(w: World, run: Run, h: HandlerStep) {
    match h
    case SendFinds(_, _) =>
      run.Started? && run.event in w.tables.outbox && w.tables.outbox[run.event].event.kind == TransferRequested
    case SendCalls(_) => run.SendFound?
    case SendStores(_, _, _) => run.SendAnswered?
    case CheckPolls(_) =>
      run.Started? && run.event in w.tables.outbox && w.tables.outbox[run.event].event.kind == TransferStatusCheck
    case CheckFinds(_) => run.CheckPolled? && run.event in w.tables.outbox
    case CheckStores(_, _, _) => run.CheckFound?
    case NoticeMarks(_) =>
      run.Started? && run.event in w.tables.outbox && IsNotice(w.tables.outbox[run.event].event.kind)
    case NoticeSends(_) => run.NoticeMarked?
  }

  function KnownKey(bank: seq<BankRecord>, key: int): Option<BankRecord> {
    if bank == [] then None
    else if bank[|bank| - 1].apiKey == key then Some(bank[|bank| - 1])
    else KnownKey(bank[..|bank| - 1], key)
  }

  /** The bank de-duplicates by idempotency key. */
  function BankTakes(bank: seq<BankRecord>, snap: TransferRow, date: int, no: string): seq<BankRecord> {
    if KnownKey(bank, snap.apiKey).Some? then bank else bank + [BankRecord(snap.apiKey, snap.params, date, no)]
  }

  function AfterFate(t: Tables, outcome: TxResult, fate: Fate): Tables {
    if outcome.Ok? && fate != Aborts then outcome.value else t
  }

  /** SendToSunabarHandler: find the transfer, ask the breaker. */
  function SendFindsRun(t: Tables, e: EventId, storageOk: bool, admitted: bool): Run
    requires e in t.outbox
  {
    var id := t.outbox[e].event.aggregateId;
    if !storageOk || id !in t.transfers then HandlerReturned(e, HandlerError)
    else if t.transfers[id].status != Pending then HandlerReturned(e, Handled)
    else if !admitted then HandlerReturned(e, SkipAttempt)
    else SendFound(e, t.transfers[id])
  }

  /** SendToSunabarHandler: call the bank. */
  function SendCallsStep(w: World, run: Run, gateway: Gateway): (World, Run)
    requires run.SendFound?
  {
    match gateway
    case Accepts(date, no) =>
      var known := KnownKey(w.bank, run.snap.apiKey);
      (w.(bank := BankTakes(w.bank, run.snap, date, no)),
       SendAnswered(run.event, run.snap, Accepted(if known.Some? then known.value.applyNo else no)))
    case Refuses(msg) => (w, SendAnswered(run.event, run.snap, Rejected(msg)))
    case Unreachable(recorded) =>
      (if recorded.Some? then w.(bank := BankTakes(w.bank, run.snap, recorded.value.0, recorded.value.1)) else w,
       HandlerReturned(run.event, HandlerError))
  }

  /** CheckStatusHandler after a usable answer of the bank: find the transfer. */
  function CheckFindsRun(t: Tables, run: Run, storageOk: bool): Run
    requires run.CheckPolled? && run.event in t.outbox
  {
    var id := t.outbox[run.event].event.aggregateId;
    if !storageOk || id !in t.transfers then HandlerReturned(run.event, HandlerError)
    else if IsTerminal(t.transfers[id].status) then HandlerReturned(run.event, Handled)
    else if t.transfers[id].status == run.to then HandlerReturned(run.event, HandlerError)  // still in flight
    else CheckFound(run.event, t.transfers[id], run.to, run.detail)
  }

  /** INSERT IGNORE into event_processed. */
  function Marked(t: Tables, e: EventId): Tables {
    t.(processed := t.processed + {e})
  }

  function AfterHandlerStep(w: World, clock: int, run: Run, h: HandlerStep): (World, Run)
    requires CanStep(w, run, h)
  {
    match h
    case SendFinds(storageOk, admitted) => (w, SendFindsRun(w.tables, run.event, storageOk, admitted))
    case SendCalls(gateway) => SendCallsStep(w, run, gateway)
    case SendStores(e1, e2, fate) =>
      var outcome := SendTx(w.tables, run.snap, run.answer, e1, e2, clock);
      (w.(tables := AfterFate(w.tables, outcome, fate)),
       HandlerReturned(run.event, if outcome.Ok? && fate == Commits then Handled else HandlerError))
    case CheckPolls(answer) =>
      (w, if answer.None? then HandlerReturned(run.event, HandlerError)
          else CheckPolled(run.event, answer.value.0, answer.value.1))
    case CheckFinds(storageOk) => (w, CheckFindsRun(w.tables, run, storageOk))
    case CheckStores(e, applyNo, fate) =>
      var outcome := CheckTx(w.tables, run.snap, run.to, run.detail, applyNo, e, clock);
      (w.(tables := AfterFate(w.tables, outcome, fate)),
       HandlerReturned(run.event,
                       if outcome.Ok? && fate == Commits && IsTerminal(run.to) then Handled else HandlerError))
    case NoticeMarks(fate) =>
      (w.(tables := if fate == Aborts then w.tables else Marked(w.tables, run.event)),
       if fate != Commits then HandlerReturned(run.event, HandlerError)
       else if run.event in w.tables.processed then HandlerReturned(run.event, Handled)
       else NoticeMarked(run.event))
    case NoticeSends(sendOk) =>
      (w.(notices := w.notices + [run.event]), HandlerReturned(run.event, if sendOk then Handled else HandlerError))
  }

  // ---------- one step of the system ----------

  datatype Label =
    | Tick(to: int)
    | Publishes(e: EventId, event: Event)                                   // the reconciler
    | ClientLooks(c: ClientId, appRequestId: int, params: TransferParams, storageOk: bool)
    | ClientInserts(c: ClientId, id: TransferId, apiKey: int, e: EventId, fate: Fate)
    | ClientRereads(c: ClientId, storageOk: bool)
    | Select(s: SessionId, batch: set<EventId>)
    | Dispatches(s: SessionId, e: EventId)
    | Handles(s: SessionId, h: HandlerStep)
    | StoresOutcome(s: SessionId, updateOk: bool)
    | LosesTransaction(s: SessionId)
    | CommitsBatch(s: SessionId)
    | Vanishes(s: SessionId)

  predicate Free(st: State, e: EventId) {
    forall x :: x in st.sessions && st.sessions[x].alive ==> e !in st.sessions[x].batch
  }

  /** What the batch query may return: pending, due, unlocked rows. */
  predicate Selectable(st: State, e: EventId) {
    && e in st.world.tables.outbox && st.world.tables.outbox[e].status == RowPending
    && st.world.tables.outbox[e].nextAttemptAt <= st.clock && Free(st, e)
  }

  predicate Enabled(st: State, l: Label) {
    match l
    case Tick(to) => to >= st.clock
    case Publishes(e, event) => e !in st.world.tables.outbox && !IsTransferEvent(event.kind)
    case ClientLooks(c, app, params, _) => c !in st.clients
    case ClientInserts(c, id, key, e, fate) => c in st.clients && st.clients[c].Missed?
    case ClientRereads(c, _) => c in st.clients && st.clients[c].Collided?
    case Select(s, batch) => s !in st.used && forall e :: e in batch ==> Selectable(st, e)
    case Dispatches(s, e) => s in st.sessions && st.sessions[s].run == Idle && e in st.sessions[s].todo
    case Handles(s, h) => s in st.sessions && CanStep(st.world, st.sessions[s].run, h)
    case StoresOutcome(s, _) => s in st.sessions && st.sessions[s].run.HandlerReturned?
    case LosesTransaction(s) => s in st.sessions && st.sessions[s].alive
    case CommitsBatch(s) =>
      s in st.sessions && st.sessions[s].alive && st.sessions[s].run == Idle && st.sessions[s].todo == {}
    case Vanishes(s) => s in st.sessions
  }

  ghost function FindByAppRequestID(t: Tables, app: int, storageOk: bool): Result<TransferId, Error> {
    if !storageOk then Err(StorageError)
    else if x :| x in t.transfers && t.transfers[x].appRequestId == app then Ok(x)
    else Err(NotFound)
  }

  function Voids(s: SessionId, es: set<EventId>): set<(SessionId, EventId)> {
    set e | e in es :: (s, e)
  }

  function TraceOf(st: State, e: EventId): seq<Attempt> {
    if e in st.traces then st.traces[e] else []
  }

  /** The session's row updates, as they meet the table at commit. */
  function CommittedOutbox(t: Tables, ss: Session, maxAttempt: nat): map<EventId, OutboxRow> {
    map e | e in t.outbox ::
      if e in ss.stored && e in ss.attempts
      then DispatchRow(t.outbox[e], ss.attempts[e], ss.stored[e].result, ss.stored[e].at, maxAttempt)
      else t.outbox[e]
  }

  function WithTables(st: State, t: Tables): State {
    st.(world := st.world.(tables := t))
  }

  function WithSession(st: State, s: SessionId, ss: Session): State {
    st.(sessions := st.sessions[s := ss])
  }

  function ClientInsertsNext(st: State, c: ClientId, id: TransferId, key: int, e: EventId, fate: Fate): State
    requires c in st.clients && st.clients[c].Missed?
  {
    var app := st.clients[c].appRequestId;
    var row := NewTransferRow(id, app, key, st.clients[c].params, st.clock);
    var outcome := RequestTx(st.world.tables, row, e, st.clock);
    var client :=
      if outcome == Err(AlreadyExists) then Collided(app)
      else if outcome.Ok? && fate == Commits then Returned(app, Ok(id))
      else Returned(app, Err(StorageError));
    WithTables(st, AfterFate(st.world.tables, outcome, fate)).(clients := st.clients[c := client])
  }

  function SelectNext(st: State, s: SessionId, batch: set<EventId>): State {
    var rows := st.world.tables.outbox;
    var attempts := map e | e in batch :: if e in rows then rows[e].attemptCount else 0;
    WithSession(st, s, Session(batch, attempts, st.clock, batch, Idle, map[], true)).(used := st.used + {s})
  }

  /** Events without a handler are passed over. */
  function DispatchesNext(st: State, s: SessionId, e: EventId): State
    requires s in st.sessions
  {
    var ss := st.sessions[s];
    var t := st.world.tables;
    WithSession(st, s, ss.(todo := ss.todo - {e},
                           run := if e in t.outbox && Registered(t.outbox[e].event.kind) then Started(e) else Idle))
  }

  /** A handler that returns success is noted. */
  function HandlesNext(st: State, s: SessionId, h: HandlerStep): State
    requires s in st.sessions && CanStep(st.world, st.sessions[s].run, h)
  {
    var ss := st.sessions[s];
    var (w, run) := AfterHandlerStep(st.world, st.clock, ss.run, h);
    WithSession(st.(world := w), s, ss.(run := run)).(
      succeeded := if run.HandlerReturned? && run.result == Handled then st.succeeded + {(s, run.event)}
                   else st.succeeded)
  }

  function StoresOutcomeNext(st: State, s: SessionId, updateOk: bool): State
    requires s in st.sessions && st.sessions[s].run.HandlerReturned?
  {
    var ss := st.sessions[s];
    var e := ss.run.event;
    if updateOk
    then WithSession(st, s, ss.(run := Idle, stored := ss.stored[e := Attempt(ss.run.result, st.clock)]))
    else WithSession(st, s, ss.(run := Idle)).(voided := st.voided + {(s, e)})
  }

  function LosesNext(st: State, s: SessionId): State
    requires s in st.sessions
  {
    WithSession(st, s, st.sessions[s].(alive := false)).(voided := st.voided + Voids(s, st.sessions[s].batch))
  }

  function CommitsBatchNext(st: State, s: SessionId): State
    requires s in st.sessions
  {
    var ss := st.sessions[s];
    WithTables(st, st.world.tables.(outbox := CommittedOutbox(st.world.tables, ss, st.maxAttempt))).(
      traces := map e | e in st.traces.Keys + ss.stored.Keys ::
                  TraceOf(st, e) + if e in ss.stored then [ss.stored[e]] else [],
      sessions := st.sessions - {s})
  }

  ghost function Next(st: State, l: Label): State
    requires Enabled(st, l)
  {
    match l
    case Tick(to) => st.(clock := to)
    case Publishes(e, event) =>
      WithTables(st, st.world.tables.(outbox := st.world.tables.outbox[e := NewRow(event, st.clock)]))
    case ClientLooks(c, app, params, storageOk) =>
      var found := FindByAppRequestID(st.world.tables, app, storageOk);
      st.(clients := st.clients[c := if found == Err(NotFound) then Missed(app, params) else Returned(app, found)])
    case ClientInserts(c, id, key, e, fate) => ClientInsertsNext(st, c, id, key, e, fate)
    case ClientRereads(c, storageOk) =>
      var app := st.clients[c].appRequestId;
      st.(clients := st.clients[c := Returned(app, FindByAppRequestID(st.world.tables, app, storageOk))])
    case Select(s, batch) => SelectNext(st, s, batch)
    case Dispatches(s, e) => DispatchesNext(st, s, e)
    case Handles(s, h) => HandlesNext(st, s, h)
    case StoresOutcome(s, updateOk) => StoresOutcomeNext(st, s, updateOk)
    case LosesTransaction(s) => LosesNext(st, s)
    case CommitsBatch(s) => CommitsBatchNext(st, s)
    case Vanishes(s) => st.(sessions := st.sessions - {s}, voided := st.voided + Voids(s, st.sessions[s].batch))
  }

  /** The runs from a fresh database, and the state they reach. */
  ghost predicate IsRun(maxAttempt: nat, clock: int, labels: seq<Label>)
    decreases |labels|, 0
  {
    labels == [] || (IsRun(maxAttempt, clock, labels[..|labels| - 1])
                     && Enabled(StateAfter(maxAttempt, clock, labels[..|labels| - 1]), labels[|labels| - 1]))
  }

  ghost function StateAfter(maxAttempt: nat, clock: int, labels: seq<Label>): State
    requires IsRun(maxAttempt, clock, labels)
    decreases |labels|, 1
  {
    if labels == [] then Initial(maxAttempt, clock)
    else Next(StateAfter(maxAttempt, clock, labels[..|labels| - 1]), labels[|labels| - 1])
  }

  /** Some run from a fresh database reaches the state. */
  ghost predicate Reachable(maxAttempt: nat, st: State) {
    exists clock, labels :: IsRun(maxAttempt, clock, labels) && StateAfter(maxAttempt, clock, labels) == st
  }
}

/** What every run shows in plain values: where transfers and bank records come from, which events tell which status,
    which notices go out, and when a pending event is due. */
module RunLaws {
  import opened Basics
  import opened TransferDomain
  import opened Events
  import opened Outbox
  import opened TransferTables
  import opened Protocol
  import opened ProtocolSafety
  import opened ProtocolOutcomes
  import opened ProtocolHistory
  import opened ProtocolTheorems

  // ---------- every transfer was asked for ----------

  /** Client c asked for this. */
  ghost predicate Asks(run: seq<Label>, c: ClientId, app: int, params: TransferParams) {
    exists i :: 0 <= i < |run| && run[i] == ClientLooks(c, app, params, true)
  }

  /** Client c inserted a transfer with this id and this key. */
  ghost predicate Inserts(run: seq<Label>, c: ClientId, id: TransferId, apiKey: int) {
    exists i ::
      0 <= i < |run| && run[i].ClientInserts? && run[i].c == c && run[i].id == id && run[i].apiKey == apiKey
  }

  /** One client asked for these details and inserted the row. */
  ghost predicate Comes(run: seq<Label>, row: TransferRow) {
    exists c :: Asks(run, c, row.appRequestId, row.params) && Inserts(run, c, row.id, row.apiKey)
  }

  ghost predicate Origins(run: seq<Label>, st: State) {
    && (forall c :: c in st.clients && st.clients[c].Missed? ==>
          Asks(run, c, st.clients[c].appRequestId, st.clients[c].params))
    && (forall id :: id in st.world.tables.transfers ==>
          st.world.tables.transfers[id].id == id && Comes(run, st.world.tables.transfers[id]))
  }

  lemma ComesLonger(run: seq<Label>, l: Label, row: TransferRow)
    requires Comes(run, row)
    ensures Comes(run + [l], row)
  {
    var c :| Asks(run, c, row.appRequestId, row.params) && Inserts(run, c, row.id, row.apiKey);
    AsksLonger(run, l, c, row.appRequestId, row.params);
    var i :| 0 <= i < |run| && run[i].ClientInserts? && run[i].c == c && run[i].id == row.id &&
        run[i].apiKey == row.apiKey;
    assert (run + [l])[i] == run[i];
  }

  lemma AsksLonger(run: seq<Label>, l: Label, c: ClientId, app: int, params: TransferParams)
    requires Asks(run, c, app, params)
    ensures Asks(run + [l], c, app, params)
  {
    var i :| 0 <= i < |run| && run[i] == ClientLooks(c, app, params, true);
    assert (run + [l])[i] == run[i];
  }

  /** Only a client's insert adds a transfer, and it adds what that client asked for. */
  lemma NewTransfers(st: State, l: Label)
    requires CoreInv(st) && Enabled(st, l)
    ensures var transfers, transfers' := st.world.tables.transfers, Next(st, l).world.tables.transfers;
            forall id :: id in transfers' && id !in transfers ==>
              && l.ClientInserts? && l.id == id
              && transfers'[id] == TransferRow(id, st.clients[l.c].appRequestId, l.apiKey, st.clients[l.c].params,
                                               Pending, None, None, 1, st.clock, st.clock)
  {
    match l
    case Handles(s, h) => HandlerKeepsIds(st.world, st.clock, st.sessions[s].run, h);
    case _ =>
  }

  lemma HandlerKeepsIds(w: World, clock: int, run: Run, h: HandlerStep)
    requires CanStep(w, run, h)
    ensures AfterHandlerStep(w, clock, run, h).0.tables.transfers.Keys == w.tables.transfers.Keys
  {
  }

  /** A client that has found nothing is one that asked. */
  lemma NewClients(st: State, l: Label)
    requires Enabled(st, l)
    ensures var clients, clients' := st.clients, Next(st, l).clients;
            forall c :: c in clients' && clients'[c].Missed? ==>
              || (c in clients && clients[c] == clients'[c])
              || l == ClientLooks(c, clients'[c].appRequestId, clients'[c].params, true)
  {
  }

  lemma OriginsStep(run: seq<Label>, st: State, l: Label)
    requires Inv(st) && Enabled(st, l) && Origins(run, st)
    ensures Origins(run + [l], Next(st, l))
  {
    var st', longer := Next(st, l), run + [l];
    assert longer[|run|] == l;
    InvStep(st, l);
    NewTransfers(st, l);
    NewClients(st, l);
    forall c | c in st'.clients && st'.clients[c].Missed?
      ensures Asks(longer, c, st'.clients[c].appRequestId, st'.clients[c].params)
    {
      if c in st.clients && st.clients[c] == st'.clients[c] {
        AsksLonger(run, l, c, st'.clients[c].appRequestId, st'.clients[c].params);
      }
    }
    forall id | id in st'.world.tables.transfers
      ensures st'.world.tables.transfers[id].id == id && Comes(longer, st'.world.tables.transfers[id])
    {
      if id in st.world.tables.transfers {
        ComesLonger(run, l, st.world.tables.transfers[id]);
      } else {
        AsksLonger(run, l, l.c, st.clients[l.c].appRequestId, st.clients[l.c].params);
        assert Inserts(longer, l.c, id, l.apiKey);
      }
    }
  }

  lemma {:induction false} RunOrigins(maxAttempt: nat, clock: int, run: seq<Label>)
    requires IsRun(maxAttempt, clock, run)
    ensures Origins(run, StateAfter(maxAttempt, clock, run))
  {
    if run != [] {
      var front := run[..|run| - 1];
      RunOrigins(maxAttempt, clock, front);
      RunInv(maxAttempt, clock, front);
      OriginsStep(front, StateAfter(maxAttempt, clock, front), run[|run| - 1]);
      assert front + [run[|run| - 1]] == run;
    }
  }

  /** In every run each transfer carries the app request, the amount and the destination one client of the run asked
      for, under the id and the key that client drew. */
  lemma TransfersAreAskedFor(maxAttempt: nat, clock: int, run: seq<Label>, id: TransferId)
    requires IsRun(maxAttempt, clock, run) && id in StateAfter(maxAttempt, clock, run).world.tables.transfers
    ensures var row := StateAfter(maxAttempt, clock, run).world.tables.transfers[id];
            exists c :: Asks(run, c, row.appRequestId, row.params) && Inserts(run, c, id, row.apiKey)
  {
    RunOrigins(maxAttempt, clock, run);
    assert Comes(run, StateAfter(maxAttempt, clock, run).world.tables.transfers[id]);
  }

  /** In every run the bank has only transfers that clients asked for, each with the asked amount and destination. */
  lemma BankIsAskedFor(maxAttempt: nat, clock: int, run: seq<Label>, i: nat)
    requires IsRun(maxAttempt, clock, run) && i < |StateAfter(maxAttempt, clock, run).world.bank|
    ensures var rec := StateAfter(maxAttempt, clock, run).world.bank[i];
            exists c, app, id :: Asks(run, c, app, rec.params) && Inserts(run, c, id, rec.apiKey)
  {
    var st := StateAfter(maxAttempt, clock, run);
    RunInv(maxAttempt, clock, run);
    assert Backed(st.world.tables, st.world.bank[i]);
    var id :| id in st.world.tables.transfers && st.world.tables.transfers[id].apiKey == st.world.bank[i].apiKey
              && st.world.tables.transfers[id].params == st.world.bank[i].params;
    TransfersAreAskedFor(maxAttempt, clock, run, id);
  }

  // ---------- events and notices tell the status ----------

  /** The status of a transfer decides how many events of each kind it has. */
  lemma StatusEventsInEveryRun(maxAttempt: nat, st: State, id: TransferId)
    requires Reachable(maxAttempt, st) && id in st.world.tables.transfers
    ensures var t, row := st.world.tables, st.world.tables.transfers[id];
            && |EventsFor(t, id, TransferRequested)| == 1
            && |EventsFor(t, id, TransferAcceptedToBank)| == (if row.applyNo.Some? then 1 else 0)
            && |EventsFor(t, id, TransferStatusCheck)| == (if row.applyNo.Some? then 1 else 0)
            && |EventsFor(t, id, TransferSettled)| == (if row.status == Settled then 1 else 0)
            && |EventsFor(t, id, TransferFailed)| == (if row.status == Failed then 1 else 0)
            && |EventsFor(t, id, EventType.TransferAwaitingApproval)|
                 == (if AwaitingApproval in HistoryOf(t, id) then 1 else 0)
            && (row.status == Pending ==> row.applyNo.None?)
            && (row.status in {Requested, AwaitingApproval, Approved, Settled} ==> row.applyNo.Some?)
  {
    ReachableInv(maxAttempt, st);
    var t := st.world.tables;
    assert TransferOk(t, id);
    HistoryShape(HistoryOf(t, id));
    EventCount(t, id, TransferRequested);
    EventCount(t, id, TransferAcceptedToBank);
    EventCount(t, id, TransferStatusCheck);
    EventCount(t, id, TransferSettled);
    EventCount(t, id, TransferFailed);
    EventCount(t, id, EventType.TransferAwaitingApproval);
  }

  /** A final status is only at the end of a history, Pending only at its start, and nothing but Failed avoids
      Requested. */
  lemma HistoryShape(h: seq<Status>)
    requires IsPath(h)
    ensures Pending in h && (Settled in h <==> h[|h| - 1] == Settled) && (Failed in h <==> h[|h| - 1] == Failed)
    ensures h[|h| - 1] == Pending ==> Requested !in h
    ensures h[|h| - 1] in {Requested, AwaitingApproval, Approved, Settled} ==> Requested in h
  {
    PathIsShort(h);
    if |h| > 1 {
      assert CanTransition(h[0], h[1]) && h[1] in {Requested, Failed};
    }
    assert h[0] in h && h[|h| - 1] in h;
  }

  /** What the events of a transfer say: the request its key and details, the status check the bank's number, the others
      the status they are named after. */
  lemma PayloadsInEveryRun(maxAttempt: nat, st: State, e: EventId)
    requires Reachable(maxAttempt, st) && e in st.world.tables.outbox
    ensures var t, event := st.world.tables, st.world.tables.outbox[e].event;
            IsTransferEvent(event.kind) ==>
              && event.aggregateId in t.transfers
              && var row := t.transfers[event.aggregateId];
                 && (event.kind == TransferRequested ==> event.payload == RequestedPayload(row.apiKey, row.params))
                 && (event.kind == TransferStatusCheck ==>
                       row.applyNo.Some? && event.payload == StatusCheckPayload(row.applyNo.value))
                 && (event.kind == TransferAcceptedToBank ==>
                       event.payload.StateChangedPayload? && event.payload.to == Requested)
                 && (event.kind == EventType.TransferAwaitingApproval ==>
                       event.payload.StateChangedPayload? && event.payload.to == AwaitingApproval)
                 && (event.kind == TransferSettled ==>
                       event.payload.StateChangedPayload? && event.payload.to == Settled && row.status == Settled)
                 && (event.kind == TransferFailed ==>
                       event.payload.StateChangedPayload? && event.payload.to == Failed && row.status == Failed)
  {
    ReachableInv(maxAttempt, st);
    var t, event := st.world.tables, st.world.tables.outbox[e].event;
    if IsTransferEvent(event.kind) {
      assert Wanted(HistoryOf(t, event.aggregateId), event.kind);
      assert TransferOk(t, event.aggregateId);
      HistoryShape(HistoryOf(t, event.aggregateId));
    }
  }

  /** Every notice is true: settled or failed was sent only for a transfer that is, accepted only for one that the bank
      has under its key. */
  lemma NoticesAreTrue(maxAttempt: nat, st: State, n: nat)
    requires Reachable(maxAttempt, st) && n < |st.world.notices|
    ensures var w, e := st.world, st.world.notices[n];
            && e in w.tables.outbox && w.tables.outbox[e].event.aggregateId in w.tables.transfers
            && var kind := w.tables.outbox[e].event.kind;
               var row := w.tables.transfers[w.tables.outbox[e].event.aggregateId];
               && kind in {TransferAcceptedToBank, EventType.TransferAwaitingApproval, TransferSettled, TransferFailed}
               && (kind == TransferSettled ==> row.status == Settled)
               && (kind == TransferFailed ==> row.status == Failed)
               && (kind == TransferAcceptedToBank ==>
                     exists i :: 0 <= i < |w.bank| && w.bank[i].apiKey == row.apiKey && w.bank[i].params == row.params)
  {
    ReachableInv(maxAttempt, st);
    var w, e := st.world, st.world.notices[n];
    assert e in w.notices;
    PayloadsInEveryRun(maxAttempt, st, e);
    var id := w.tables.outbox[e].event.aggregateId;
    if w.tables.outbox[e].event.kind == TransferAcceptedToBank {
      assert TransferOk(w.tables, id) && Wanted(HistoryOf(w.tables, id), TransferAcceptedToBank);
      AcceptedIsBooked(maxAttempt, st, id);
    }
  }

  // ---------- when a pending event is due ----------

  /** In every run a pending event is due exactly at its publication if no outcome of it was committed, five seconds
      after a skipped attempt, min(2^n, 600) seconds after the n-th counted failure; so never later than 600 seconds
      after its publication or latest committed outcome. */
  lemma DueInEveryRun(maxAttempt: nat, st: State, e: EventId)
    requires maxAttempt >= 1 && Reachable(maxAttempt, st)
    requires e in st.world.tables.outbox && st.world.tables.outbox[e].status == RowPending
    ensures var r, trace := st.world.tables.outbox[e], TraceOf(st, e);
            && (trace == [] ==> r.nextAttemptAt == r.createdAt)
            && (trace != [] ==>
                  var last := trace[|trace| - 1];
                  && last.result != Handled
                  && (last.result == SkipAttempt ==> r.nextAttemptAt == last.at + 5 * 1_000_000_000)
                  && (last.result == HandlerError ==>
                        r.nextAttemptAt == last.at + 1_000_000_000 *
                                           (if r.attemptCount < 10 then Pow2(r.attemptCount) else 600)))
            && r.nextAttemptAt <= (if trace == [] then r.createdAt else trace[|trace| - 1].at) + 600 * 1_000_000_000
  {
    ReachableInv(maxAttempt, st);
    var r := st.world.tables.outbox[e];
    assert Replayed(r, TraceOf(st, e), maxAttempt);
    NextDue(r.event, r.createdAt, TraceOf(st, e), maxAttempt);
    DueSoon(r.event, r.createdAt, TraceOf(st, e), maxAttempt);
  }

  // ---------- what may happen ----------

  /** Failures come at any moment: a session may vanish, or lose its transaction while a handler runs; a handler's read,
      call or commit may end in every way; a row update may fail; any set of pending, due, unlocked rows may be taken;
      and any reconciliation event may be published. */
  lemma AnythingMayFail(st: State, s: SessionId, h: HandlerStep, batch: set<EventId>, e: EventId, event: Event)
    ensures Enabled(st, Publishes(e, event)) <==>
              && e !in st.world.tables.outbox
              && event.kind in {ReconciliationCompleted, EventType.ReconciliationExcess, ReconciliationPartial}
    ensures s in st.sessions ==> Enabled(st, Vanishes(s))
    ensures s in st.sessions && st.sessions[s].alive ==> Enabled(st, LosesTransaction(s))
    ensures s in st.sessions && st.sessions[s].run.HandlerReturned? ==>
              Enabled(st, StoresOutcome(s, true)) && Enabled(st, StoresOutcome(s, false))
    ensures s in st.sessions ==>
              var run, rows := st.sessions[s].run, st.world.tables.outbox;
              Enabled(st, Handles(s, h)) <==>
                match run
                case Started(e) =>
                  e in rows && match rows[e].event.kind {
                    case TransferRequested => h.SendFinds?
                    case TransferStatusCheck => h.CheckPolls?
                    case ReconciliationCompleted => false
                    case ReconciliationExcess => false
                    case ReconciliationPartial => false
                    case _ => h.NoticeMarks?
                  }
                case SendFound(_, _) => h.SendCalls?
                case SendAnswered(_, _, _) => h.SendStores?
                case CheckPolled(e, _, _) => h.CheckFinds? && e in rows
                case CheckFound(_, _, _, _) => h.CheckStores?
                case NoticeMarked(_) => h.NoticeSends?
                case _ => false
    ensures var rows := st.world.tables.outbox;
            Enabled(st, Select(s, batch)) <==>
              s !in st.used
              && forall e :: e in batch ==>
                   && e in rows && rows[e].status == RowPending && rows[e].nextAttemptAt <= st.clock
                   && forall x :: x in st.sessions && st.sessions[x].alive ==> e !in st.sessions[x].batch
  {
  }

  /** A batch starts with the attempt counts its rows show; taking an event up starts its handler if it is one of the
      six kinds that have one, and passes it over otherwise; nothing else changes. */
  lemma SessionSteps(st: State, s: SessionId, batch: set<EventId>, e: EventId)
    ensures Enabled(st, Select(s, batch)) ==>
              var st' := Next(st, Select(s, batch));
              && s in st'.sessions && st'.sessions == st.sessions[s := st'.sessions[s]]
              && st'.world == st.world && st'.clients == st.clients && st'.clock == st.clock
              && var ss := st'.sessions[s];
                 && ss.batch == ss.todo == batch == ss.attempts.Keys && ss.selectedAt == st.clock
                 && (forall x :: x in batch ==>
                       x in st.world.tables.outbox && ss.attempts[x] == st.world.tables.outbox[x].attemptCount)
                 && ss.run == Idle && ss.stored == map[] && ss.alive
    ensures Enabled(st, Dispatches(s, e)) ==>
              var st' := Next(st, Dispatches(s, e));
              && st' == st.(sessions := st'.sessions) && s in st'.sessions
              && st'.sessions == st.sessions[s := st'.sessions[s]]
              && st'.sessions[s] == st.sessions[s].(todo := st.sessions[s].todo - {e}, run := st'.sessions[s].run)
              && st'.sessions[s].run ==
                   if && e in st.world.tables.outbox
                      && st.world.tables.outbox[e].event.kind
                         in {TransferRequested, TransferStatusCheck, TransferAcceptedToBank, TransferAwaitingApproval,
                             TransferSettled, TransferFailed}
                   then Started(e) else Idle
  {
  }

  // ---------- outcomes reach the rows ----------

  /** What an outcome makes of a pending row. */
  ghost predicate RowShows(row: OutboxRow, row': OutboxRow, result: HandlerResult, now: int, maxAttempt: nat) {
    var n := row.attemptCount + 1;
    match result
    case Handled => row' == row.(status := RowSent, attemptCount := n)
    case SkipAttempt => row' == row.(nextAttemptAt := now + 5_000_000_000)
    case HandlerError =>
      row' == if n >= maxAttempt then row.(status := RowFailed, attemptCount := n)
              else row.(attemptCount := n,
                        nextAttemptAt := now + 1_000_000_000 * if n < 10 then Pow2(n) else 600)
  }

  lemma DispatchShows(row: OutboxRow, result: HandlerResult, now: int, maxAttempt: nat)
    requires row.status == RowPending
    ensures RowShows(row, DispatchRow(row, row.attemptCount, result, now, maxAttempt), result, now, maxAttempt)
  {
  }

  lemma CommitShows(st: State, s: SessionId, updateOk: bool)
    requires CoreInv(st) && s in st.sessions && st.sessions[s].run.HandlerReturned? && st.sessions[s].alive
    ensures var e, ss := st.sessions[s].run.event, StoresOutcomeNext(st, s, updateOk).sessions[s];
            var rows, rows' := st.world.tables.outbox, CommittedOutbox(st.world.tables, ss, st.maxAttempt);
            && rows'.Keys == rows.Keys && e in rows
            && (forall x :: x in rows && x !in st.sessions[s].batch ==> rows'[x] == rows[x])
            && (if updateOk then RowShows(rows[e], rows'[e], st.sessions[s].run.result, st.clock, st.maxAttempt)
                else rows'[e] == rows[e])
  {
    assert SessionOk(st.world.tables, st.clock, st.sessions[s]);
    var e, result := st.sessions[s].run.event, st.sessions[s].run.result;
    DispatchShows(st.world.tables.outbox[e], result, st.clock, st.maxAttempt);
  }

  /** The last outcome of a batch: if its row update works, the commit shows it in the row of its event; a failed update
      leaves the row as it was.  Rows outside the batch stay. */
  lemma OutcomeReachesRow(maxAttempt: nat, st: State, s: SessionId, updateOk: bool)
    requires Reachable(maxAttempt, st)
    requires s in st.sessions && st.sessions[s].run.HandlerReturned?
    requires st.sessions[s].alive && st.sessions[s].todo == {}
    ensures var stored := Next(st, StoresOutcome(s, updateOk));
            && Enabled(stored, CommitsBatch(s))
            && var rows, rows' := st.world.tables.outbox, Next(stored, CommitsBatch(s)).world.tables.outbox;
               var e := st.sessions[s].run.event;
               && rows'.Keys == rows.Keys && e in rows
               && (forall x :: x in rows && x !in st.sessions[s].batch ==> rows'[x] == rows[x])
               && (if updateOk then RowShows(rows[e], rows'[e], st.sessions[s].run.result, st.clock, maxAttempt)
                   else rows'[e] == rows[e])
  {
    ReachableInv(maxAttempt, st);
    CommitShows(st, s, updateOk);
  }
}

/** What the handlers do, case by case, in plain values: the rows they leave, the events they publish, what the bank
    gets and what the breaker is told. */
module HandlerLaws {
  import opened Basics
  import opened TransferDomain
  import opened Events
  import opened Outbox
  import opened TransferTables
  import opened Protocol
  import opened ProtocolOutcomes
  import opened Handlers
  import CB = CircuitBreaker

  function Fresh(event: Event, now: int): OutboxRow {
    OutboxRow(event, RowPending, 0, now, now)
  }

  /** Event e is about a transfer that the tables hold. */
  ghost predicate About(w: World, e: EventId, row: TransferRow) {
    && e in w.tables.outbox && w.tables.outbox[e].event.aggregateId == row.id
    && row.id in w.tables.transfers && w.tables.transfers[row.id] == row
  }

  /** The call ends with the tables `stored` if they were written at all, and succeeds only if that is confirmed. */
  ghost predicate Ends(before: Tables, after: Tables, fate: Fate, result: HandlerResult,
                       transfers: map<TransferId, TransferRow>, outbox: map<EventId, OutboxRow>) {
    && after.processed == before.processed
    && (if fate == Aborts then after == before else after.transfers == transfers && after.outbox == outbox)
    && (fate != Commits ==> result == HandlerError)
  }

  // ---------- TransferRequested ----------

  lemma KnownKeyIs(bank: seq<BankRecord>, i: nat)
    requires i < |bank| && forall j, k :: 0 <= j < k < |bank| ==> bank[j].apiKey != bank[k].apiKey
    ensures KnownKey(bank, bank[i].apiKey) == Some(bank[i])
  {
    if i < |bank| - 1 {
      KnownKeyIs(bank[..|bank| - 1], i);
    }
  }

  /** An accepted request: the bank has the transfer once, under its key, with its details; the row shows the bank's
      number; the acceptance is told and a status check scheduled. */
  lemma AcceptedCall(w: World, e: EventId, row: TransferRow, st: Storage, date: int, number: string, now: int)
    requires About(w, e, row) && row.status == Pending && st.findOk
    requires st.e1 != st.e2 && st.e1 !in w.tables.outbox && st.e2 !in w.tables.outbox
    requires forall j, k :: 0 <= j < k < |w.bank| ==> w.bank[j].apiKey != w.bank[k].apiKey
    ensures var (w', result) := SendCall(w, e, st, true, Accepts(date, number), now);
            && w'.notices == w.notices
            && exists rec: BankRecord ::
                 && rec in w'.bank && rec.apiKey == row.apiKey
                 && (rec !in w.bank ==>
                       w'.bank == w.bank + [rec] && rec == BankRecord(row.apiKey, row.params, date, number))
                 && (rec in w.bank ==> w'.bank == w.bank)
                 && Ends(w.tables, w'.tables, st.fate, result,
                         w.tables.transfers[row.id := row.(status := Requested, applyNo := Some(rec.applyNo),
                                                           version := row.version + 1, updatedAt := now)],
                         w.tables.outbox
                         [st.e1 := Fresh(Event(TransferAcceptedToBank, row.id,
                                               StateChangedPayload(Pending, Requested, rec.applyNo, "")), now)]
                         [st.e2 := Fresh(Event(TransferStatusCheck, row.id, StatusCheckPayload(rec.applyNo)), now)])
                 && (st.fate == Commits ==> result == Handled)
  {
    var known := KnownKey(w.bank, row.apiKey);
    KnownKeyFinds(w.bank, row.apiKey);
    var (w', result) := SendCall(w, e, st, true, Accepts(date, number), now);
    var rec := if known.Some? then known.value else BankRecord(row.apiKey, row.params, date, number);
    if known.Some? {
      var i :| 0 <= i < |w.bank| && w.bank[i].apiKey == row.apiKey;
      KnownKeyIs(w.bank, i);
    }
    assert rec in w'.bank;
  }

  /** A refused request: the transfer fails with the bank's message, and that is told; the bank gets nothing. */
  lemma RefusedCall(w: World, e: EventId, row: TransferRow, st: Storage, message: string, now: int)
    requires About(w, e, row) && row.status == Pending && st.findOk && st.e1 !in w.tables.outbox
    ensures var (w', result) := SendCall(w, e, st, true, Refuses(message), now);
            && w'.bank == w.bank && w'.notices == w.notices
            && Ends(w.tables, w'.tables, st.fate, result,
                    w.tables.transfers[row.id := row.(status := Failed, lastError := Some(message),
                                                      version := row.version + 1, updatedAt := now)],
                    w.tables.outbox[st.e1 := Fresh(Event(TransferFailed, row.id,
                                                         StateChangedPayload(Pending, Failed, "", message)), now)])
            && (st.fate == Commits ==> result == Handled)
  {
  }

  /** An unreachable gateway: an error, nothing stored; the bank may have taken the request, once. */
  lemma UnreachableCall(w: World, e: EventId, row: TransferRow, st: Storage, recorded: Option<(int, string)>, now: int)
    requires About(w, e, row) && row.status == Pending && st.findOk
    ensures var (w', result) := SendCall(w, e, st, true, Unreachable(recorded), now);
            && result == HandlerError && w'.tables == w.tables && w'.notices == w.notices
            && w'.bank == if recorded.None? || exists rec :: rec in w.bank && rec.apiKey == row.apiKey then w.bank
                          else w.bank + [BankRecord(row.apiKey, row.params, recorded.value.0, recorded.value.1)]
  {
    KnownKeyFinds(w.bank, row.apiKey);
  }

  /** The exits before the call: a failed lookup is an error, a transfer that has moved on is done, a rejection by the
      breaker skips the attempt.  Nothing changes. */
  lemma NoCall(w: World, e: EventId, st: Storage, admitted: bool, gateway: Gateway, now: int)
    requires e in w.tables.outbox
    ensures var (w', result) := SendCall(w, e, st, admitted, gateway, now);
            var id, transfers := w.tables.outbox[e].event.aggregateId, w.tables.transfers;
            && (!st.findOk || id !in transfers ==> w' == w && result == HandlerError)
            && (st.findOk && id in transfers && transfers[id].status != Pending ==> w' == w && result == Handled)
            && (st.findOk && id in transfers && transfers[id].status == Pending && !admitted ==>
                  w' == w && result == SkipAttempt)
  {
  }

  /** What the breaker hears of a call: nothing unless the transfer is found pending; else it is asked, and if it admits
      the call, told of exactly one outcome, a failure just if the gateway was unreachable. */
  lemma BreakerHears(cfg: CB.Config, b: CB.Breaker, w: World, e: EventId, st: Storage, gateway: Gateway, askAt: int,
                     doneAt: int)
    requires e in w.tables.outbox
    ensures var b' := SendBreaker(cfg, b, w, e, st, gateway, askAt, doneAt);
            var id, transfers := w.tables.outbox[e].event.aggregateId, w.tables.transfers;
            var asks := st.findOk && id in transfers && transfers[id].status == Pending;
            && (!asks ==> b' == b)
            && b'.history == b.history + (if asks && CB.Admits(cfg, b, askAt)
                                          then [CB.Sample(doneAt, !gateway.Unreachable?)] else [])
            && (asks && !CB.Admits(cfg, b, askAt) ==> b' == CB.AfterObserve(cfg, b, askAt))
  {
    CB.OutcomeIsKept(cfg, b, askAt, true);
    CB.OutcomeIsKept(cfg, CB.AfterAllow(cfg, b, askAt), doneAt, !gateway.Unreachable?);
  }

  /** Which answers of the gateway may be retried: server errors and what is no answer at all. */
  lemma RetryableErrors(code: int, message: string)
    ensures IsRetryable(Some(HttpError(code, message))) <==> code >= 500
    ensures IsRetryable(Some(TransportError(message))) && !IsRetryable(None)
    ensures LooksLike(Refuses(message), HttpError(code, message)) <==> code < 500
    ensures LooksLike(Unreachable(None), HttpError(code, message)) <==> code >= 500
    ensures LooksLike(Unreachable(None), TransportError(message))
    ensures !LooksLike(Refuses(message), TransportError(message))
  {
  }

  // ---------- TransferStatusCheckScheduled ----------

  /** The bank's five words; anything else is not understood. */
  lemma BankWords(word: string, detail: string)
    ensures Understood(Reported("AcceptedToBank", detail)) == Some((Requested, detail))
    ensures Understood(Reported("AwaitingApproval", detail)) == Some((AwaitingApproval, detail))
    ensures Understood(Reported("Approved", detail)) == Some((Approved, detail))
    ensures Understood(Reported("Settled", detail)) == Some((Settled, detail))
    ensures Understood(Reported("Failed", detail)) == Some((Failed, detail))
    ensures word !in {"AcceptedToBank", "AwaitingApproval", "Approved", "Settled", "Failed"} ==>
              Understood(Reported(word, detail)).None?
    ensures Understood(NoReply).None?
  {
  }

  /** A transfer that is with the bank and not final. */
  predicate InFlight(row: TransferRow) {
    row.status == Requested || row.status == AwaitingApproval || row.status == Approved
  }

  /** "Settled" settles the transfer and tells it, and only then the check is done. */
  lemma SettledCheck(w: World, e: EventId, row: TransferRow, st: Storage, detail: string, no: string, now: int)
    requires About(w, e, row) && InFlight(row) && st.findOk && st.e1 !in w.tables.outbox
    requires w.tables.outbox[e].event.payload == StatusCheckPayload(no)
    ensures var (w', result) := CheckCall(w, e, st, Reported("Settled", detail), now);
            && w'.bank == w.bank && w'.notices == w.notices
            && Ends(w.tables, w'.tables, st.fate, result,
                    w.tables.transfers[row.id := row.(status := Settled, version := row.version + 1, updatedAt := now)],
                    w.tables.outbox[st.e1 := Fresh(Event(TransferSettled, row.id,
                                                         StateChangedPayload(row.status, Settled, no, ErrorText(row))),
                                                   now)])
            && (st.fate == Commits ==> result == Handled)
  {
  }

  function ErrorText(row: TransferRow): string {
    if row.lastError.Some? then row.lastError.value else ""
  }

  /** "Failed" fails the transfer with the bank's detail and tells it, and only then the check is done. */
  lemma FailedCheck(w: World, e: EventId, row: TransferRow, st: Storage, detail: string, no: string, now: int)
    requires About(w, e, row) && InFlight(row) && st.findOk && st.e1 !in w.tables.outbox
    requires w.tables.outbox[e].event.payload == StatusCheckPayload(no)
    ensures var (w', result) := CheckCall(w, e, st, Reported("Failed", detail), now);
            && w'.bank == w.bank && w'.notices == w.notices
            && Ends(w.tables, w'.tables, st.fate, result,
                    w.tables.transfers[row.id := row.(status := Failed, lastError := Some(detail),
                                                      version := row.version + 1, updatedAt := now)],
                    w.tables.outbox[st.e1 := Fresh(Event(TransferFailed, row.id,
                                                         StateChangedPayload(row.status, Failed, no, detail)), now)])
            && (st.fate == Commits ==> result == Handled)
  {
  }

  /** "AwaitingApproval" moves a requested transfer on and tells it; the check goes on polling. */
  lemma AwaitingCheck(w: World, e: EventId, row: TransferRow, st: Storage, detail: string, no: string, now: int)
    requires About(w, e, row) && row.status == Requested && st.findOk && st.e1 !in w.tables.outbox
    requires w.tables.outbox[e].event.payload == StatusCheckPayload(no)
    ensures var (w', result) := CheckCall(w, e, st, Reported("AwaitingApproval", detail), now);
            && w'.bank == w.bank && w'.notices == w.notices && result == HandlerError
            && Ends(w.tables, w'.tables, st.fate, result,
                    w.tables.transfers[row.id := row.(status := AwaitingApproval, version := row.version + 1,
                                                      updatedAt := now)],
                    w.tables.outbox[st.e1 := Fresh(Event(EventType.TransferAwaitingApproval, row.id,
                                                         StateChangedPayload(Requested, AwaitingApproval, no,
                                                                             ErrorText(row))), now)])
  {
  }

  /** "Approved" moves the transfer on and tells nobody; the check goes on polling. */
  lemma ApprovedCheck(w: World, e: EventId, row: TransferRow, st: Storage, detail: string, now: int)
    requires About(w, e, row) && (row.status == Requested || row.status == AwaitingApproval) && st.findOk
    ensures var (w', result) := CheckCall(w, e, st, Reported("Approved", detail), now);
            && w'.bank == w.bank && w'.notices == w.notices && result == HandlerError
            && Ends(w.tables, w'.tables, st.fate, result,
                    w.tables.transfers[row.id := row.(status := Approved, version := row.version + 1,
                                                      updatedAt := now)],
                    w.tables.outbox)
  {
  }

  /** The polls that change nothing: no usable answer, a failed lookup, the status the transfer has or has passed, and
      any answer for a final transfer, which alone is a success. */
  lemma IdleCheck(w: World, e: EventId, st: Storage, reply: BankReply, now: int)
    requires e in w.tables.outbox
    ensures var (w', result) := CheckCall(w, e, st, reply, now);
            var id, transfers := w.tables.outbox[e].event.aggregateId, w.tables.transfers;
            && (reply.NoReply?
                || reply.status !in {"AcceptedToBank", "AwaitingApproval", "Approved", "Settled", "Failed"} ==>
                  w' == w && result == HandlerError)
            && (!st.findOk || id !in transfers ==> w' == w && result == HandlerError)
            && (Understood(reply).Some? && st.findOk && id in transfers ==>
                  var to, status := Understood(reply).value.0, transfers[id].status;
                  && (status == Settled || status == Failed ==> w' == w && result == Handled)
                  && (InFlight(transfers[id]) && Rank(to) <= Rank(status) ==> w' == w && result == HandlerError))
  {
  }

  // ---------- the use case ----------

  /** What a client is told when it looks for its app request, first or again after a collision: a transfer of that
      request if there is one, an error if the read fails, and otherwise, at first, that it may insert. */
  lemma LookSteps(st: State, c: ClientId, app: int, params: TransferParams, storageOk: bool)
    ensures c !in st.clients ==>
              && Enabled(st, ClientLooks(c, app, params, storageOk))
              && var st' := Next(st, ClientLooks(c, app, params, storageOk));
                 st' == st.(clients := st'.clients) && c in st'.clients
                 && st'.clients == st.clients[c := st'.clients[c]]
                 && (if storageOk && !AppRequestTaken(st.world.tables, app)
                     then st'.clients[c] == Missed(app, params)
                     else Found(st.world.tables, app, storageOk, st'.clients[c]))
    ensures c in st.clients && st.clients[c] == Collided(app) ==>
              && Enabled(st, ClientRereads(c, storageOk))
              && var st' := Next(st, ClientRereads(c, storageOk));
                 st' == st.(clients := st'.clients) && c in st'.clients
                 && st'.clients == st.clients[c := st'.clients[c]]
                 && Found(st.world.tables, app, storageOk, st'.clients[c])
  {
    assert AppRequestTaken(st.world.tables, app) <==>
        exists x :: x in st.world.tables.transfers && st.world.tables.transfers[x].appRequestId == app;
  }

  ghost predicate Found(t: Tables, app: int, storageOk: bool, client: Client) {
    && client.Returned? && client.appRequestId == app
    && match client.result
       case Ok(x) => storageOk && x in t.transfers && t.transfers[x].appRequestId == app
       case Err(err) =>
         if storageOk then err == NotFound && !AppRequestTaken(t, app) else err == StorageError
  }

  /** The insert step of a client in the protocol machine: a taken id, app request or key collides and changes nothing;
      a taken event id is an error; else the transfer and its event are stored together unless the transaction aborts,
      and the client gets the id only for a confirmed commit. */
  lemma InsertStep(st: State, c: ClientId, id: TransferId, apiKey: int, e: EventId, fate: Fate)
    requires c in st.clients && st.clients[c].Missed?
    ensures var st', t := ClientInsertsNext(st, c, id, apiKey, e, fate), st.world.tables;
            var app := st.clients[c].appRequestId;
            var t', free := st'.world.tables, id !in t.transfers && forall x :: x in t.transfers ==>
                              t.transfers[x].appRequestId != app && t.transfers[x].apiKey != apiKey;
            && st' == st.(clients := st'.clients, world := st.world.(tables := t'))
            && c in st'.clients && st'.clients == st.clients[c := st'.clients[c]]
            && (!free ==> t' == t && st'.clients[c] == Collided(app))
            && (free && e in t.outbox ==> t' == t && st'.clients[c] == Returned(app, Err(StorageError)))
            && (free && e !in t.outbox ==>
                  && (if fate == Aborts then t' == t
                      else RequestStored(t, t', id, app, apiKey, st.clients[c].params, e, st.clock))
                  && st'.clients[c] == Returned(app, if fate == Commits then Ok(id) else Err(StorageError)))
  {
  }

  // ---------- notices ----------

  /** The notice of an event goes out on the first delivery that gets its mark written and confirmed, and on no other;
      whether sending works decides only the result. */
  lemma NoticeGoesOut(w: World, e: EventId, markFate: Fate, sendOk: bool, now: int)
    requires e in w.tables.outbox && IsNotice(w.tables.outbox[e].event.kind)
    ensures var (w', result) := NoticeCall(w, e, markFate, sendOk, now);
            && w'.bank == w.bank && w'.tables == w.tables.(processed := w'.tables.processed)
            && w'.tables.processed == (if markFate == Aborts then w.tables.processed else w.tables.processed + {e})
            && w'.notices == w.notices + (if markFate == Commits && e !in w.tables.processed then [e] else [])
            && (result == Handled <==> markFate == Commits && (e in w.tables.processed || sendOk))
            && result != SkipAttempt
  {
    if e in w.tables.processed {
      assert w.tables.processed + {e} == w.tables.processed;
    }
  }

  lemma NoticeKinds(k: EventType)
    ensures IsNotice(k) <==>
              || k == TransferAcceptedToBank || k == EventType.TransferAwaitingApproval
              || k == TransferSettled || k == TransferFailed
  {
  }
}

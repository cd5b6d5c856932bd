/** What holds in every run of the transfer protocol: any clients, relay sessions, crashes and re-deliveries. */
module ProtocolTheorems {
  import opened Basics
  import opened TransferDomain
  import opened Events
  import opened Outbox
  import opened TransferTables
  import opened Protocol
  import opened ProtocolSafety
  import opened ProtocolOutcomes
  import opened ProtocolHistory

  ghost predicate Inv(st: State) {
    CoreInv(st) && OutcomesInv(st) && TraceInv(st) && SuccessInv(st)
  }

  lemma InvStep(st: State, l: Label)
    requires Inv(st) && Enabled(st, l)
    ensures Inv(Next(st, l)) && Grows(st.world.tables, Next(st, l).world.tables)
  {
    CoreStep(st, l);
    OutcomesStep(st, l);
    TraceStep(st, l);
    SuccessStep(st, l);
  }

  lemma {:induction false} RunInv(maxAttempt: nat, clock: int, run: seq<Label>)
    requires IsRun(maxAttempt, clock, run)
    ensures Inv(StateAfter(maxAttempt, clock, run)) && StateAfter(maxAttempt, clock, run).maxAttempt == maxAttempt
  {
    if run != [] {
      var front := run[..|run| - 1];
      RunInv(maxAttempt, clock, front);
      InvStep(StateAfter(maxAttempt, clock, front), run[|run| - 1]);
      ClockAndBudget(StateAfter(maxAttempt, clock, front), run[|run| - 1]);
    }
  }

  lemma ClockAndBudget(st: State, l: Label)
    requires Enabled(st, l)
    ensures Next(st, l).maxAttempt == st.maxAttempt
  {
  }

  lemma ReachableInv(maxAttempt: nat, st: State)
    requires Reachable(maxAttempt, st)
    ensures Inv(st) && st.maxAttempt == maxAttempt
  {
    var clock, run :| IsRun(maxAttempt, clock, run) && StateAfter(maxAttempt, clock, run) == st;
    RunInv(maxAttempt, clock, run);
  }

  /** No double transfer: two bank records never belong to the same app request, and every bank record carries the key,
      amount and destination of a committed transfer row. */
  lemma NoDoubleTransfer(maxAttempt: nat, st: State, i: nat, j: nat)
    requires Reachable(maxAttempt, st)
    requires i < |st.world.bank| && j < |st.world.bank|
    ensures var bank, transfers := st.world.bank, st.world.tables.transfers;
            && (exists id ::
                  id in transfers && transfers[id].apiKey == bank[i].apiKey && transfers[id].params == bank[i].params)
            && (forall a, b ::
                  (a in transfers && b in transfers && i != j
                   && transfers[a].apiKey == bank[i].apiKey && transfers[b].apiKey == bank[j].apiKey) ==>
                    transfers[a].appRequestId != transfers[b].appRequestId)
  {
    ReachableInv(maxAttempt, st);
    assert Backed(st.world.tables, st.world.bank[i]);
    assert i < j ==> st.world.bank[i].apiKey != st.world.bank[j].apiKey;
    assert j < i ==> st.world.bank[j].apiKey != st.world.bank[i].apiKey;
  }

  /** A transfer that shows an apply number is in the bank's books under its own key with that number, and its status
      check polls that number. */
  lemma AcceptedIsBooked(maxAttempt: nat, st: State, id: TransferId)
    requires Reachable(maxAttempt, st)
    requires id in st.world.tables.transfers
    requires st.world.tables.transfers[id].applyNo.Some?
    ensures var row := st.world.tables.transfers[id];
            && (exists i :: 0 <= i < |st.world.bank| && st.world.bank[i].apiKey == row.apiKey
                            && st.world.bank[i].params == row.params && st.world.bank[i].applyNo == row.applyNo.value)
            && (forall e :: IsEventFor(st.world.tables, e, id, TransferStatusCheck) ==>
                  st.world.tables.outbox[e].event.payload == StatusCheckPayload(row.applyNo.value))
  {
    ReachableInv(maxAttempt, st);
    var row := st.world.tables.transfers[id];
    assert Booked(st.world.bank, row.apiKey, row.applyNo.value);
    var i :| 0 <= i < |st.world.bank| && st.world.bank[i].apiKey == row.apiKey &&
        st.world.bank[i].applyNo == row.applyNo.value;
    assert Backed(st.world.tables, st.world.bank[i]);
    var x :| x in st.world.tables.transfers && st.world.tables.transfers[x].apiKey == st.world.bank[i].apiKey
             && st.world.tables.transfers[x].params == st.world.bank[i].params;
    assert x == id;
    assert TransferOk(st.world.tables, id);
  }

  /** No transfer is stranded: whoever crashed where, a transfer that is not final has exactly one driving event, and
      that event is still pending or has used up its attempts. */
  lemma NothingStranded(maxAttempt: nat, st: State, id: TransferId)
    requires Reachable(maxAttempt, st)
    requires id in st.world.tables.transfers
    requires !IsTerminal(st.world.tables.transfers[id].status)
    ensures var t := st.world.tables;
            var kind := if t.transfers[id].status == Pending then TransferRequested else TransferStatusCheck;
            exists e :: EventsFor(t, id, kind) == {e} && e in t.outbox && t.outbox[e].status in {RowPending, RowFailed}
  {
    ReachableInv(maxAttempt, st);
    var t := st.world.tables;
    var kind := DriverKind(t.transfers[id].status);
    NotStranded(t, id);
    var events := EventsFor(t, id, kind);
    var e := SoleMember(events);
  }

  /** Sent means done: a request event marked as sent belongs to a transfer that has left Pending, a status check
      marked as sent to a final one. */
  lemma SentMeansDone(maxAttempt: nat, st: State, e: EventId)
    requires Reachable(maxAttempt, st)
    requires e in st.world.tables.outbox
    ensures var t := st.world.tables;
            var event := t.outbox[e].event;
            t.outbox[e].status == RowSent ==>
              && (event.kind == TransferRequested ==>
                    event.aggregateId in t.transfers && t.transfers[event.aggregateId].status != Pending)
              && (event.kind == TransferStatusCheck ==>
                    event.aggregateId in t.transfers && IsTerminal(t.transfers[event.aggregateId].status))
  {
    ReachableInv(maxAttempt, st);
  }

  /** The event ledger in every run: a transfer has exactly the outbox rows its status history calls for, settled and
      failed exclude each other, and the version is one plus the number of status changes, at most five. */
  lemma LedgerInEveryRun(maxAttempt: nat, st: State, id: TransferId, k: EventType)
    requires Reachable(maxAttempt, st) && IsTransferEvent(k)
    requires id in st.world.tables.transfers
    ensures var t := st.world.tables;
            var h := HistoryOf(t, id);
            && IsPath(h) && h[|h| - 1] == t.transfers[id].status && t.transfers[id].version == |h| <= 5
            && |EventsFor(t, id, k)| == (if CalledForBy(k).value in h then 1 else 0)
            && |EventsFor(t, id, TransferSettled)| + |EventsFor(t, id, TransferFailed)|
                 == (if IsTerminal(t.transfers[id].status) then 1 else 0)
  {
    ReachableInv(maxAttempt, st);
    var t := st.world.tables;
    assert TransferOk(t, id);
    LedgerIsExact(t, id, k);
    LedgerIsExact(t, id, TransferSettled);
    LedgerIsExact(t, id, TransferFailed);
  }

  /** Request idempotence: all calls for one app request that return without error return the same transfer. */
  lemma RequestsAgree(maxAttempt: nat, st: State, c1: ClientId, c2: ClientId)
    requires Reachable(maxAttempt, st)
    requires var clients := st.clients;
             && c1 in clients && clients[c1].Returned? && clients[c1].result.Ok?
             && c2 in clients && clients[c2].Returned? && clients[c2].result.Ok?
             && clients[c1].appRequestId == clients[c2].appRequestId
    ensures st.clients[c1].result == st.clients[c2].result && st.clients[c1].result.value in st.world.tables.transfers
  {
    ReachableInv(maxAttempt, st);
  }

  /** A transfer row exists if and only if exactly one TransferRequested event for it exists. */
  lemma RequestedIffRow(maxAttempt: nat, st: State, id: TransferId)
    requires Reachable(maxAttempt, st)
    ensures var t := st.world.tables;
            id in t.transfers <==> |EventsFor(t, id, TransferRequested)| == 1
  {
    ReachableInv(maxAttempt, st);
    var t := st.world.tables;
    var events := EventsFor(t, id, TransferRequested);
    if id in t.transfers {
      assert TransferOk(t, id);
      LedgerIsExact(t, id, TransferRequested);
      assert HistoryOf(t, id)[0] == Pending;
    } else if |events| == 1 {
      var e := SoleMember(events);
      assert false;
    }
  }

  /** At-most-once notices: Send is never invoked twice for one event, nor for two events that tell the same transfer
      the same status. */
  lemma NoticesAtMostOnce(maxAttempt: nat, st: State, i: nat, j: nat)
    requires Reachable(maxAttempt, st) && i < j < |st.world.notices|
    ensures var w := st.world;
            var a, b := w.notices[i], w.notices[j];
            && a != b && a in w.tables.outbox && b in w.tables.outbox
            && (w.tables.outbox[a].event.aggregateId != w.tables.outbox[b].event.aggregateId
                || w.tables.outbox[a].event.kind != w.tables.outbox[b].event.kind)
  {
    ReachableInv(maxAttempt, st);
    var w := st.world;
    assert w.notices[i] in w.notices && w.notices[j] in w.notices;
  }

  /** Attempt accounting in every run: the attempt count is the number of committed outcomes other than skips. */
  lemma AttemptsInEveryRun(maxAttempt: nat, st: State, e: EventId)
    requires maxAttempt >= 1 && Reachable(maxAttempt, st)
    requires e in st.world.tables.outbox
    ensures var r := st.world.tables.outbox[e];
            && r.attemptCount == Counted(TraceOf(st, e))
            && (r.status == RowPending ==> r.attemptCount < maxAttempt)
            && (r.status == RowFailed ==> r.attemptCount == maxAttempt)
            && (r.status == RowSent ==> 1 <= r.attemptCount <= maxAttempt)
  {
    ReachableInv(maxAttempt, st);
    var r := st.world.tables.outbox[e];
    AttemptAccounting(r.event, r.createdAt, TraceOf(st, e), maxAttempt);
  }

  /** Giving up takes time: in every run, a failed event was retried over at least the sum of the backoffs. */
  lemma FailedEventsWaited(maxAttempt: nat, st: State, e: EventId)
    requires maxAttempt >= 1 && Reachable(maxAttempt, st)
    requires e in st.world.tables.outbox
    requires st.world.tables.outbox[e].status == RowFailed
    ensures var trace := TraceOf(st, e);
            && FirstError(trace).Some?
            && trace[|trace| - 1].at - FirstError(trace).value
                 >= (if maxAttempt <= 10 then Pow2(maxAttempt) - 2 else 1022 + 600 * (maxAttempt - 10)) * SECOND
  {
    ReachableInv(maxAttempt, st);
    var r := st.world.tables.outbox[e];
    RetryTimeBound(r.event, r.createdAt, TraceOf(st, e), maxAttempt);
  }

  lemma FinishedRowsStay(st: State, l: Label)
    requires Inv(st) && Enabled(st, l)
    ensures var rows, rows' := st.world.tables.outbox, Next(st, l).world.tables.outbox;
            forall e :: e in rows && rows[e].status != RowPending ==> e in rows' && rows'[e] == rows[e]
  {
    if !l.CommitsBatch? {
      NonCommitRows(st, l);
    }
  }

  /** Whatever happens later, sent and failed rows never change again, a transfer keeps its keys, amount and
      destination, and a final status stays. */
  lemma {:induction false} FinishedStaysFinished(maxAttempt: nat, clock: int, run: seq<Label>, more: seq<Label>)
    requires IsRun(maxAttempt, clock, run + more)
    ensures IsRun(maxAttempt, clock, run)
    ensures Forward(StateAfter(maxAttempt, clock, run).world.tables,
                    StateAfter(maxAttempt, clock, run + more).world.tables)
  {
    if more == [] {
      assert run + more == run;
    } else {
      var earlier := run + more[..|more| - 1];
      assert (run + more)[..|run + more| - 1] == earlier;
      FinishedStaysFinished(maxAttempt, clock, run, more[..|more| - 1]);
      RunInv(maxAttempt, clock, earlier);
      var st, l := StateAfter(maxAttempt, clock, earlier), more[|more| - 1];
      assert StateAfter(maxAttempt, clock, run + more) == Next(st, l);
      StepForward(st, l);
      ForwardTransitive(StateAfter(maxAttempt, clock, run).world.tables, st.world.tables, Next(st, l).world.tables);
    }
  }

  ghost predicate Forward(t: Tables, t': Tables) {
    && (forall e :: e in t.outbox && t.outbox[e].status != RowPending ==> e in t'.outbox && t'.outbox[e] == t.outbox[e])
    && (forall id :: id in t.transfers ==>
          && id in t'.transfers && SameIdentity(t.transfers[id], t'.transfers[id])
          && (IsTerminal(t.transfers[id].status) ==> t'.transfers[id].status == t.transfers[id].status))
  }

  lemma ForwardTransitive(t1: Tables, t2: Tables, t3: Tables)
    requires Forward(t1, t2) && Forward(t2, t3)
    ensures Forward(t1, t3)
  {
  }

  lemma StepForward(st: State, l: Label)
    requires Inv(st) && Enabled(st, l)
    ensures Forward(st.world.tables, Next(st, l).world.tables)
  {
    InvStep(st, l);
    FinishedRowsStay(st, l);
    var t, t' := st.world.tables, Next(st, l).world.tables;
    forall id | id in t.transfers && IsTerminal(t.transfers[id].status)
      ensures id in t'.transfers && t'.transfers[id].status == t.transfers[id].status
    {
      FinalStaysFinal(t, t', id);
    }
  }

  /** Handler successes per event are at most one plus the number of sessions whose outcome for it was lost. */
  lemma SuccessesBounded(maxAttempt: nat, st: State, e: EventId,
                         succeeded: set<SessionId>, lost: set<SessionId>)
    requires Reachable(maxAttempt, st)
    requires forall s :: s in succeeded <==> (s, e) in st.succeeded
    requires forall s :: s in lost <==> (s, e) in st.voided
    ensures |succeeded| <= 1 + |lost|
  {
    ReachableInv(maxAttempt, st);
    var counting := succeeded - lost;
    forall a, b | a in counting && b in counting
      ensures a == b
    {
      assert Counts(st, a, e) && Counts(st, b, e);
    }
    AtMostOne(counting);
    assert succeeded <= counting + lost;
    SubsetSize(succeeded, counting + lost);
    assert |counting + lost| == |counting| + |lost - counting|;
    SubsetSize(lost - counting, lost);
  }
}

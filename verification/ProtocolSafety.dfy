/** The inductive invariant of the transfer protocol, one part at a time. */
module ProtocolSafety {
  import opened Basics
  import opened TransferDomain
  import opened Events
  import opened Outbox
  import opened TransferTables
  import opened Protocol

  // ---------- what holds of one session ----------

  ghost predicate EventIs(t: Tables, e: EventId, kind: EventType) {
    e in t.outbox && t.outbox[e].event.kind == kind
  }

  ghost predicate SnapshotOk(t: Tables, e: EventId, snap: TransferRow) {
    e in t.outbox && t.outbox[e].event.aggregateId == snap.id && Fits(t, snap)
  }

  ghost predicate RunOk(t: Tables, run: Run) {
    match run
    case Idle => true
    case Started(e) => e in t.outbox
    case SendFound(e, snap) => EventIs(t, e, TransferRequested) && SnapshotOk(t, e, snap) && snap.status == Pending
    case SendAnswered(e, snap, answer) =>
      EventIs(t, e, TransferRequested) && SnapshotOk(t, e, snap) && snap.status == Pending
    case CheckPolled(e, to, detail) => EventIs(t, e, TransferStatusCheck)
    case CheckFound(e, snap, to, detail) =>
      EventIs(t, e, TransferStatusCheck) && SnapshotOk(t, e, snap)
      && snap.status != Pending && !IsTerminal(snap.status) && snap.status != to
    case NoticeMarked(e) =>
      e in t.outbox && e in t.processed && IsNotice(t.outbox[e].event.kind)
    case HandlerReturned(e, result) => e in t.outbox && (result == Handled ==> Completed(t, t.outbox[e].event))
  }

  /** Membership bookkeeping inside a session. */
  ghost predicate BatchOk(ss: Session) {
    && ss.attempts.Keys == ss.batch && ss.todo <= ss.batch && ss.stored.Keys <= ss.batch && ss.stored.Keys !! ss.todo
    && (!ss.run.Idle? ==> ss.run.event in ss.batch && ss.run.event !in ss.todo && ss.run.event !in ss.stored)
  }

  /** While the locks are held the rows stay as the batch query read them. */
  ghost predicate LockedRowsOk(t: Tables, ss: Session) {
    forall e :: e in ss.batch && e in ss.attempts && e in t.outbox ==>
      && t.outbox[e].status == RowPending && t.outbox[e].attemptCount == ss.attempts[e]
      && t.outbox[e].nextAttemptAt <= ss.selectedAt
  }

  ghost predicate StoredOk(t: Tables, ss: Session, clock: int) {
    forall e :: e in ss.stored ==>
      && ss.selectedAt <= ss.stored[e].at <= clock
      && e in t.outbox && (ss.stored[e].result == Handled ==> Completed(t, t.outbox[e].event))
  }

  ghost predicate SessionOk(t: Tables, clock: int, ss: Session) {
    && BatchOk(ss) && ss.selectedAt <= clock
    && (forall e :: e in ss.batch ==> e in t.outbox)
    && (ss.alive ==> LockedRowsOk(t, ss))
    && StoredOk(t, ss, clock)
    && RunOk(t, ss.run)
  }

  ghost predicate SessionsOk(st: State) {
    forall s :: s in st.sessions ==> s in st.used && SessionOk(st.world.tables, st.clock, st.sessions[s])
  }

  ghost predicate Locks(st: State, s: SessionId, e: EventId) {
    s in st.sessions && st.sessions[s].alive && e in st.sessions[s].batch
  }

  /** FOR UPDATE SKIP LOCKED: no row is locked twice. */
  ghost predicate LocksExclusive(st: State) {
    forall a, b, e :: Locks(st, a, e) && Locks(st, b, e) ==> a == b
  }

  ghost predicate CoreInv(st: State) {
    TablesInv(st.world.tables) && SessionsOk(st) && LocksExclusive(st)
  }

  // ---------- one handler step ----------

  /** t' differs from t only in event_processed and in outbox rows, keeps every event, adds no transfer event, and
      marks as sent only what is completed. */
  ghost predicate OnlyRowsChange(t: Tables, t': Tables) {
    && t'.transfers == t.transfers && t'.history == t.history && t.processed <= t'.processed
    && (forall e :: e in t.outbox ==> e in t'.outbox && t'.outbox[e].event == t.outbox[e].event
                                      && t'.outbox[e].createdAt == t.outbox[e].createdAt)
    && (forall e :: e in t'.outbox && e !in t.outbox ==> !IsTransferEvent(t'.outbox[e].event.kind))
    && (forall e :: e in t'.outbox && t'.outbox[e].status == RowSent ==> Completed(t, t'.outbox[e].event))
  }

  lemma RowChangeKeepsTables(t: Tables, t': Tables)
    requires TablesInv(t) && OnlyRowsChange(t, t')
    ensures TablesInv(t') && Grows(t, t')
  {
    forall id | id in t'.transfers
      ensures TransferOk(t', id)
    {
      assert TransferOk(t, id);
    }
    forall id, k | id in t'.transfers && Wanted(HistoryOf(t', id), k)
      ensures exists x :: IsEventFor(t', x, id, k)
    {
      assert Wanted(HistoryOf(t, id), k);
      var x :| IsEventFor(t, x, id, k);
      assert IsEventFor(t', x, id, k);
    }
    assert LedgerSound(t');
    assert LedgerUnique(t');
  }

  /** The status check of a transfer exists only once the transfer has left Pending. */
  lemma CheckedIsNotPending(t: Tables, e: EventId)
    requires TablesInv(t) && EventIs(t, e, TransferStatusCheck)
    ensures t.outbox[e].event.aggregateId in t.transfers
    ensures t.transfers[t.outbox[e].event.aggregateId].status != Pending
  {
    var id := t.outbox[e].event.aggregateId;
    assert TransferOk(t, id);
    var h := HistoryOf(t, id);
    PathIsShort(h);
    var i :| 0 <= i < |h| && h[i] == Requested;
    assert |h| > 1;
    assert h[0] != h[|h| - 1];
  }

  lemma SendOutcome(t: Tables, run: Run, e1: EventId, e2: EventId, now: int, fate: Fate)
    requires TablesInv(t) && run.SendAnswered? && RunOk(t, run) && run.event in t.outbox
    ensures var outcome := SendTx(t, run.snap, run.answer, e1, e2, now);
            var t' := AfterFate(t, outcome, fate);
            && TablesInv(t') && Grows(t, t') && RowsStay(t, t')
            && (outcome.Ok? && fate == Commits ==> Completed(t', t.outbox[run.event].event))
  {
    GrowsReflexive(t);
    if SendTx(t, run.snap, run.answer, e1, e2, now).Ok? {
      SendKeepsLedger(t, run.snap, run.answer, e1, e2, now);
    }
  }

  lemma CheckOutcome(t: Tables, run: Run, e: EventId, applyNo: string, now: int, fate: Fate)
    requires TablesInv(t) && run.CheckFound? && RunOk(t, run) && run.event in t.outbox
    ensures var outcome := CheckTx(t, run.snap, run.to, run.detail, applyNo, e, now);
            var t' := AfterFate(t, outcome, fate);
            && TablesInv(t') && Grows(t, t') && RowsStay(t, t')
            && (outcome.Ok? && fate == Commits && IsTerminal(run.to) ==> Completed(t', t.outbox[run.event].event))
  {
    GrowsReflexive(t);
    if CheckTx(t, run.snap, run.to, run.detail, applyNo, e, now).Ok? {
      CheckKeepsLedger(t, run.snap, run.to, run.detail, applyNo, e, now);
    }
  }

  lemma RequestOutcome(t: Tables, row: TransferRow, e: EventId, now: int, fate: Fate)
    requires TablesInv(t) && row.status == Pending && row.version == 1 && row.applyNo == None
    ensures var t' := AfterFate(t, RequestTx(t, row, e, now), fate);
            TablesInv(t') && Grows(t, t') && RowsStay(t, t')
  {
    GrowsReflexive(t);
    if RequestTx(t, row, e, now).Ok? {
      RequestKeepsLedger(t, row, e, now);
    }
  }

  lemma GrowsReflexive(t: Tables)
    ensures Grows(t, t)
  {
  }

  lemma MarkKeepsTables(t: Tables, e: EventId)
    requires TablesInv(t)
    ensures TablesInv(Marked(t, e)) && Grows(t, Marked(t, e)) && RowsStay(t, Marked(t, e))
  {
    RowChangeKeepsTables(t, Marked(t, e));
  }

  /** Steps that write nothing but their own run. */
  lemma ReadingStepOk(w: World, clock: int, run: Run, h: HandlerStep)
    requires TablesInv(w.tables) && RunOk(w.tables, run) && CanStep(w, run, h)
    requires !h.SendStores? && !h.CheckStores? && !h.NoticeMarks?
    ensures var (w', run') := AfterHandlerStep(w, clock, run, h);
            && w'.tables == w.tables && RunOk(w'.tables, run') && !run'.Idle? && run'.event == run.event
  {
    if h.CheckFinds? {
      CheckedIsNotPending(w.tables, run.event);
    }
  }

  /** Whatever step a handler takes, the ledger stays exact, rows already in the outbox stay put, and if the handler
      returns success then the event's work is done. */
  lemma HandlerStepOk(w: World, clock: int, run: Run, h: HandlerStep)
    requires TablesInv(w.tables) && RunOk(w.tables, run) && CanStep(w, run, h)
    ensures var (w', run') := AfterHandlerStep(w, clock, run, h);
            && TablesInv(w'.tables) && Grows(w.tables, w'.tables) && RowsStay(w.tables, w'.tables)
            && RunOk(w'.tables, run') && !run'.Idle? && run'.event == run.event
  {
    GrowsReflexive(w.tables);
    match h
    case SendStores(e1, e2, fate) => SendOutcome(w.tables, run, e1, e2, clock, fate);
    case CheckStores(e, applyNo, fate) => CheckOutcome(w.tables, run, e, applyNo, clock, fate);
    case NoticeMarks(_) => MarkKeepsTables(w.tables, run.event);
    case _ => ReadingStepOk(w, clock, run, h);
  }

  // ---------- sessions under steps ----------

  lemma RunPersists(t: Tables, t': Tables, run: Run)
    requires RunOk(t, run) && Grows(t, t')
    ensures RunOk(t', run)
  {
  }

  /** A session is none the worse for changes elsewhere, as long as its locked rows stay. */
  lemma SessionPersists(t: Tables, t': Tables, clock: int, clock': int, ss: Session)
    requires SessionOk(t, clock, ss) && Grows(t, t') && clock <= clock'
    requires ss.alive ==> forall e :: e in ss.batch && e in t.outbox ==> t'.outbox[e] == t.outbox[e]
    ensures SessionOk(t', clock', ss)
  {
    RunPersists(t, t', ss.run);
    forall e | e in ss.batch
      ensures e in t'.outbox
    {
      assert e in t.outbox;
    }
    forall e | e in ss.stored
      ensures e in t'.outbox && (ss.stored[e].result == Handled ==> Completed(t', t'.outbox[e].event))
    {
      assert e in t.outbox;
      if ss.stored[e].result == Handled {
        CompletedPersists(t, t', t.outbox[e].event);
      }
    }
  }

  lemma SessionsPersist(st: State, st': State)
    requires CoreInv(st) && Grows(st.world.tables, st'.world.tables) && st.clock <= st'.clock
    requires RowsStay(st.world.tables, st'.world.tables)
    ensures forall s :: s in st.sessions ==> SessionOk(st'.world.tables, st'.clock, st.sessions[s])
  {
    forall s | s in st.sessions
      ensures SessionOk(st'.world.tables, st'.clock, st.sessions[s])
    {
      SessionPersists(st.world.tables, st'.world.tables, st.clock, st'.clock, st.sessions[s]);
    }
  }

  /** Replacing the record of one session keeps the core invariant if the record is good and takes no new locks. */
  lemma OneSessionCore(st: State, st': State, s: SessionId)
    requires CoreInv(st) && TablesInv(st'.world.tables) && Grows(st.world.tables, st'.world.tables)
    requires RowsStay(st.world.tables, st'.world.tables) && st.clock == st'.clock && st'.used == st.used
    requires s in st.sessions && s in st'.sessions && st'.sessions == st.sessions[s := st'.sessions[s]]
    requires SessionOk(st'.world.tables, st'.clock, st'.sessions[s])
    requires st'.sessions[s].alive ==> st.sessions[s].alive && st'.sessions[s].batch <= st.sessions[s].batch
    ensures CoreInv(st')
  {
    SessionsPersist(st, st');
    assert forall x, e :: Locks(st', x, e) ==> Locks(st, x, e);
  }

  lemma HandlesCore(st: State, s: SessionId, h: HandlerStep)
    requires CoreInv(st) && s in st.sessions && CanStep(st.world, st.sessions[s].run, h)
    ensures var st' := HandlesNext(st, s, h);
            CoreInv(st') && Grows(st.world.tables, st'.world.tables)
  {
    var st' := HandlesNext(st, s, h);
    HandlerStepOk(st.world, st.clock, st.sessions[s].run, h);
    SessionPersists(st.world.tables, st'.world.tables, st.clock, st'.clock, st.sessions[s]);
    OneSessionCore(st, st', s);
  }

  /** Steps that touch no session. */
  lemma QuietCore(st: State, st': State)
    requires CoreInv(st) && st'.sessions == st.sessions && st'.used == st.used && st.clock <= st'.clock
    requires TablesInv(st'.world.tables) && Grows(st.world.tables, st'.world.tables)
    requires RowsStay(st.world.tables, st'.world.tables)
    ensures CoreInv(st')
  {
    SessionsPersist(st, st');
    assert forall x, e :: Locks(st', x, e) ==> Locks(st, x, e);
  }

  lemma SelectCore(st: State, s: SessionId, batch: set<EventId>)
    requires CoreInv(st) && Enabled(st, Select(s, batch))
    ensures CoreInv(SelectNext(st, s, batch))
  {
    var st' := SelectNext(st, s, batch);
    var t := st.world.tables;
    assert forall e :: e in batch ==> Selectable(st, e);
    assert SessionOk(t, st.clock, st'.sessions[s]);
    forall a, b, e | Locks(st', a, e) && Locks(st', b, e)
      ensures a == b
    {
      assert a != s ==> Locks(st, a, e);
      assert b != s ==> Locks(st, b, e);
      assert e in batch ==> Free(st, e);
    }
  }

  lemma DispatchesCore(st: State, s: SessionId, e: EventId)
    requires CoreInv(st) && Enabled(st, Dispatches(s, e))
    ensures CoreInv(DispatchesNext(st, s, e))
  {
    GrowsReflexive(st.world.tables);
    OneSessionCore(st, DispatchesNext(st, s, e), s);
  }

  lemma StoresOutcomeCore(st: State, s: SessionId, updateOk: bool)
    requires CoreInv(st) && Enabled(st, StoresOutcome(s, updateOk))
    ensures CoreInv(StoresOutcomeNext(st, s, updateOk))
  {
    GrowsReflexive(st.world.tables);
    var st', ss := StoresOutcomeNext(st, s, updateOk), st.sessions[s];
    assert SessionOk(st.world.tables, st.clock, ss);
    assert SessionOk(st.world.tables, st.clock, st'.sessions[s]);
    OneSessionCore(st, st', s);
  }

  lemma LosesCore(st: State, s: SessionId)
    requires CoreInv(st) && Enabled(st, LosesTransaction(s))
    ensures CoreInv(LosesNext(st, s))
  {
    GrowsReflexive(st.world.tables);
    OneSessionCore(st, LosesNext(st, s), s);
  }

  /** A commit writes no row that another live session has locked. */
  lemma OthersRowsStay(st: State, s: SessionId, x: SessionId)
    requires CoreInv(st) && s in st.sessions && st.sessions[s].alive && x in st.sessions && x != s
    ensures var outbox' := CommittedOutbox(st.world.tables, st.sessions[s], st.maxAttempt);
            st.sessions[x].alive ==>
              forall e :: e in st.sessions[x].batch && e in st.world.tables.outbox ==>
                  outbox'[e] == st.world.tables.outbox[e]
  {
    if st.sessions[x].alive {
      forall e | e in st.sessions[x].batch
        ensures e !in st.sessions[s].stored
      {
        assert Locks(st, x, e);
        assert !Locks(st, s, e);
      }
    }
  }

  lemma CommitOnlyRows(st: State, s: SessionId)
    requires CoreInv(st) && s in st.sessions
    ensures OnlyRowsChange(st.world.tables, CommitsBatchNext(st, s).world.tables)
  {
    assert SessionOk(st.world.tables, st.clock, st.sessions[s]);
  }

  lemma CommitsCore(st: State, s: SessionId)
    requires CoreInv(st) && Enabled(st, CommitsBatch(s))
    ensures var st' := CommitsBatchNext(st, s);
            CoreInv(st') && Grows(st.world.tables, st'.world.tables)
  {
    var st' := CommitsBatchNext(st, s);
    CommitOnlyRows(st, s);
    RowChangeKeepsTables(st.world.tables, st'.world.tables);
    forall x | x in st'.sessions
      ensures SessionOk(st'.world.tables, st'.clock, st'.sessions[x])
    {
      OthersRowsStay(st, s, x);
      SessionPersists(st.world.tables, st'.world.tables, st.clock, st'.clock, st.sessions[x]);
    }
    assert forall x, e :: Locks(st', x, e) ==> Locks(st, x, e);
  }

  lemma VanishesCore(st: State, s: SessionId)
    requires CoreInv(st) && s in st.sessions
    ensures CoreInv(Next(st, Vanishes(s)))
  {
    assert forall x, e :: Locks(Next(st, Vanishes(s)), x, e) ==> Locks(st, x, e);
  }

  lemma CoreStep(st: State, l: Label)
    requires CoreInv(st) && Enabled(st, l)
    ensures CoreInv(Next(st, l)) && Grows(st.world.tables, Next(st, l).world.tables)
  {
    GrowsReflexive(st.world.tables);
    match l
    case Handles(s, h) => HandlesCore(st, s, h);
    case CommitsBatch(s) => CommitsCore(st, s);
    case Select(s, batch) => SelectCore(st, s, batch);
    case Dispatches(s, e) => DispatchesCore(st, s, e);
    case StoresOutcome(s, updateOk) => StoresOutcomeCore(st, s, updateOk);
    case LosesTransaction(s) => LosesCore(st, s);
    case Vanishes(s) => VanishesCore(st, s);
    case Publishes(e, event) =>
      RowChangeKeepsTables(st.world.tables, Next(st, l).world.tables);
      QuietCore(st, Next(st, l));
    case ClientInserts(c, id, key, e, fate) =>
      var row := NewTransferRow(id, st.clients[c].appRequestId, key, st.clients[c].params, st.clock);
      RequestOutcome(st.world.tables, row, e, st.clock, fate);
      QuietCore(st, Next(st, l));
    case Tick(_) => QuietCore(st, Next(st, l));
    case ClientLooks(_, _, _, _) => QuietCore(st, Next(st, l));
    case ClientRereads(_, _) => QuietCore(st, Next(st, l));
  }
}

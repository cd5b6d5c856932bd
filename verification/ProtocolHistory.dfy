/** Every outbox row is the replay of its committed outcomes, and handlers succeed at most once beyond lost outcomes. */
module ProtocolHistory {
  import opened TransferDomain
  import opened Events
  import opened Outbox
  import opened TransferTables
  import opened Protocol
  import opened ProtocolSafety

  // ---------- rows are replays ----------

  ghost predicate Replayed(row: OutboxRow, trace: seq<Attempt>, maxAttempt: nat) {
    && row == Replay(row.event, row.createdAt, trace, maxAttempt)
    && ValidTrace(row.event, row.createdAt, trace, maxAttempt)
  }

  ghost predicate TraceInv(st: State) {
    && (forall e :: e in st.traces ==> e in st.world.tables.outbox)
    && (forall e :: e in st.world.tables.outbox ==> Replayed(st.world.tables.outbox[e], TraceOf(st, e), st.maxAttempt))
  }

  lemma TraceExtends(row: OutboxRow, trace: seq<Attempt>, a: Attempt, maxAttempt: nat)
    requires Replayed(row, trace, maxAttempt) && row.status == RowPending && row.nextAttemptAt <= a.at
    ensures Replayed(DispatchRow(row, row.attemptCount, a.result, a.at, maxAttempt), trace + [a], maxAttempt)
  {
    assert (trace + [a])[..|trace|] == trace;
  }

  lemma TracesKeep(st: State, st': State)
    requires TraceInv(st) && RowsStay(st.world.tables, st'.world.tables)
    requires st'.traces == st.traces && st'.maxAttempt == st.maxAttempt
    ensures TraceInv(st')
  {
    forall e | e in st'.world.tables.outbox
      ensures Replayed(st'.world.tables.outbox[e], TraceOf(st', e), st'.maxAttempt)
    {
      if e !in st.world.tables.outbox {
        assert TraceOf(st', e) == [];
        assert IsNewRow(st'.world.tables.outbox[e]);
      }
    }
  }

  lemma CommitsTraces(st: State, s: SessionId)
    requires CoreInv(st) && TraceInv(st) && Enabled(st, CommitsBatch(s))
    ensures TraceInv(CommitsBatchNext(st, s))
  {
    var st' := CommitsBatchNext(st, s);
    var ss := st.sessions[s];
    assert SessionOk(st.world.tables, st.clock, ss);
    forall e | e in st'.world.tables.outbox
      ensures Replayed(st'.world.tables.outbox[e], TraceOf(st', e), st'.maxAttempt)
    {
      var row := st.world.tables.outbox[e];
      if e in ss.stored {
        assert e in ss.batch && e in ss.attempts;
        TraceExtends(row, TraceOf(st, e), ss.stored[e], st.maxAttempt);
        assert TraceOf(st', e) == TraceOf(st, e) + [ss.stored[e]];
      } else {
        assert TraceOf(st', e) == TraceOf(st, e);
      }
    }
  }

  /** Steps other than a commit leave rows and traces alone. */
  lemma NonCommitRows(st: State, l: Label)
    requires CoreInv(st) && Enabled(st, l) && !l.CommitsBatch?
    ensures var st' := Next(st, l);
            RowsStay(st.world.tables, st'.world.tables) && st'.traces == st.traces && st'.maxAttempt == st.maxAttempt
  {
    match l
    case Handles(s, h) => HandlerStepOk(st.world, st.clock, st.sessions[s].run, h);
    case ClientInserts(c, id, key, e, fate) =>
      var row := NewTransferRow(id, st.clients[c].appRequestId, key, st.clients[c].params, st.clock);
      RequestOutcome(st.world.tables, row, e, st.clock, fate);
    case _ =>
  }

  lemma TraceStep(st: State, l: Label)
    requires CoreInv(st) && TraceInv(st) && Enabled(st, l)
    ensures TraceInv(Next(st, l))
  {
    if l.CommitsBatch? {
      CommitsTraces(st, l.s);
    } else {
      NonCommitRows(st, l);
      TracesKeep(st, Next(st, l));
    }
  }

  // ---------- successes ----------

  /** A success of session s on event e that is not known to be lost. */
  ghost predicate Counts(st: State, s: SessionId, e: EventId) {
    (s, e) in st.succeeded && (s, e) !in st.voided
  }

  /** The session still holds the success: the handler has just returned it, or its row update waits for the commit. */
  predicate Holds(ss: Session, e: EventId) {
    ss.alive && e in ss.batch
    && (ss.run == HandlerReturned(e, Handled) || (e in ss.stored && ss.stored[e].result == Handled))
  }

  ghost predicate SuccessInv(st: State) {
    && (forall s, e :: (s, e) in st.succeeded ==> s in st.used)
    && (forall s, e :: Counts(st, s, e) && s in st.sessions ==> Holds(st.sessions[s], e))
    && (forall s, e :: Counts(st, s, e) && s !in st.sessions ==>
          e in st.world.tables.outbox && st.world.tables.outbox[e].status == RowSent)
    && (forall s, e :: s in st.sessions && !st.sessions[s].alive && e in st.sessions[s].batch ==> (s, e) in st.voided)
    && (forall a, b, e :: Counts(st, a, e) && Counts(st, b, e) ==> a == b)
  }

  /** Two counting successes for one event cannot come from two sessions, if each is held or committed. */
  lemma HeldExcludesSent(st: State, s: SessionId, e: EventId)
    requires CoreInv(st) && s in st.sessions && st.sessions[s].alive && e in st.sessions[s].batch
    ensures e in st.world.tables.outbox && st.world.tables.outbox[e].status == RowPending
    ensures forall x :: Locks(st, x, e) ==> x == s
  {
    assert SessionOk(st.world.tables, st.clock, st.sessions[s]);
    assert Locks(st, s, e);
  }

  lemma CountsUnique(st: State)
    requires CoreInv(st)
    requires forall s, e :: Counts(st, s, e) && s in st.sessions ==> Holds(st.sessions[s], e)
    requires forall s, e :: Counts(st, s, e) && s !in st.sessions ==>
               e in st.world.tables.outbox && st.world.tables.outbox[e].status == RowSent
    requires forall a, b, e :: Counts(st, a, e) && Counts(st, b, e) && a !in st.sessions && b !in st.sessions ==> a == b
    ensures forall a, b, e :: Counts(st, a, e) && Counts(st, b, e) ==> a == b
  {
    forall a, b, e | Counts(st, a, e) && Counts(st, b, e)
      ensures a == b
    {
      if a in st.sessions {
        HeldExcludesSent(st, a, e);
        assert b in st.sessions ==> Locks(st, b, e);
      } else if b in st.sessions {
        HeldExcludesSent(st, b, e);
      }
    }
  }

  lemma HandlesSuccess(st: State, s: SessionId, h: HandlerStep)
    requires CoreInv(st) && SuccessInv(st) && Enabled(st, Handles(s, h))
    ensures SuccessInv(HandlesNext(st, s, h))
  {
    var st' := HandlesNext(st, s, h);
    var ss := st.sessions[s];
    HandlerStepOk(st.world, st.clock, ss.run, h);
    HandlesCore(st, s, h);
    assert BatchOk(ss) by { assert SessionOk(st.world.tables, st.clock, ss); }
    assert !ss.run.HandlerReturned?;
    forall x, e | Counts(st', x, e)
      ensures x in st'.sessions ==> Holds(st'.sessions[x], e)
      ensures x !in st'.sessions ==> e in st'.world.tables.outbox && st'.world.tables.outbox[e].status == RowSent
      ensures x in st'.used && (x !in st'.sessions ==> Counts(st, x, e))
    {
      if !Counts(st, x, e) {
        assert x == s && e == ss.run.event && e in ss.batch;
      }
    }
    CountsUnique(st');
  }

  /** Steps that add no success, and move sessions' holdings or rows only forward. */
  lemma SuccessCarries(st: State, st': State)
    requires SuccessInv(st) && st'.succeeded == st.succeeded && st.voided <= st'.voided && st.used <= st'.used
    requires forall s, e :: Counts(st', s, e) && s in st'.sessions ==> s in st.sessions && Holds(st'.sessions[s], e)
    requires forall s, e :: Counts(st', s, e) && s !in st'.sessions ==>
               e in st'.world.tables.outbox && st'.world.tables.outbox[e].status == RowSent
    requires forall s, e :: s in st'.sessions && !st'.sessions[s].alive && e in st'.sessions[s].batch ==>
        (s, e) in st'.voided
    ensures SuccessInv(st')
  {
    assert forall s, e :: Counts(st', s, e) ==> Counts(st, s, e);
  }

  lemma CommitsSuccess(st: State, s: SessionId)
    requires CoreInv(st) && SuccessInv(st) && Enabled(st, CommitsBatch(s))
    ensures SuccessInv(CommitsBatchNext(st, s))
  {
    var st' := CommitsBatchNext(st, s);
    forall x, e | Counts(st', x, e) && x !in st'.sessions
      ensures e in st'.world.tables.outbox && st'.world.tables.outbox[e].status == RowSent
    {
      assert Counts(st, x, e);
      if x == s {
        HeldExcludesSent(st, s, e);
        assert SessionOk(st.world.tables, st.clock, st.sessions[s]);
      }
    }
    forall x, e | Counts(st', x, e) && x in st'.sessions
      ensures x in st.sessions && Holds(st'.sessions[x], e)
    {
      assert Counts(st, x, e);
    }
    SuccessCarries(st, st');
  }

  lemma StoresOutcomeSuccess(st: State, s: SessionId, updateOk: bool)
    requires CoreInv(st) && SuccessInv(st) && Enabled(st, StoresOutcome(s, updateOk))
    ensures SuccessInv(StoresOutcomeNext(st, s, updateOk))
  {
    var st' := StoresOutcomeNext(st, s, updateOk);
    assert BatchOk(st.sessions[s]) by { assert SessionOk(st.world.tables, st.clock, st.sessions[s]); }
    forall x, e | Counts(st', x, e)
      ensures Counts(st, x, e) && (x in st'.sessions ==> x in st.sessions && Holds(st'.sessions[x], e))
    {
      assert Counts(st, x, e);
    }
    SuccessCarries(st, st');
  }

  lemma EndsSuccess(st: State, l: Label)
    requires CoreInv(st) && SuccessInv(st) && Enabled(st, l) && (l.LosesTransaction? || l.Vanishes?)
    ensures SuccessInv(Next(st, l))
  {
    var st' := Next(st, l);
    forall x, e | Counts(st', x, e)
      ensures x != l.s && (x in st'.sessions ==> x in st.sessions && Holds(st'.sessions[x], e))
      ensures x !in st'.sessions ==> x !in st.sessions
    {
      assert Counts(st, x, e);
    }
    assert forall x, e :: Counts(st', x, e) ==> Counts(st, x, e);
    forall x, e | x in st'.sessions && !st'.sessions[x].alive && e in st'.sessions[x].batch
      ensures (x, e) in st'.voided
    {
      if x == l.s {
        assert (l.s, e) in Voids(l.s, st.sessions[l.s].batch);
      }
    }
    SuccessCarries(st, st');
  }

  lemma SelectSuccess(st: State, s: SessionId, batch: set<EventId>)
    requires CoreInv(st) && SuccessInv(st) && Enabled(st, Select(s, batch))
    ensures SuccessInv(SelectNext(st, s, batch))
  {
    var st' := SelectNext(st, s, batch);
    forall x, e | Counts(st', x, e)
      ensures Counts(st, x, e) && x != s
    {
      assert Counts(st, x, e);
    }
    SuccessCarries(st, st');
  }

  lemma DispatchesSuccess(st: State, s: SessionId, d: EventId)
    requires CoreInv(st) && SuccessInv(st) && Enabled(st, Dispatches(s, d))
    ensures SuccessInv(DispatchesNext(st, s, d))
  {
    var st' := DispatchesNext(st, s, d);
    forall x, e | Counts(st', x, e)
      ensures Counts(st, x, e) && (x in st'.sessions ==> Holds(st'.sessions[x], e))
    {
      assert Counts(st, x, e);
    }
    SuccessCarries(st, st');
  }

  lemma QuietSuccess(st: State, st': State)
    requires SuccessInv(st) && RowsStay(st.world.tables, st'.world.tables)
    requires st'.sessions == st.sessions && st'.succeeded == st.succeeded && st'.voided == st.voided &&
        st'.used == st.used
    ensures SuccessInv(st')
  {
    assert forall s, e :: Counts(st', s, e) ==> Counts(st, s, e);
    SuccessCarries(st, st');
  }

  lemma SuccessStep(st: State, l: Label)
    requires CoreInv(st) && SuccessInv(st) && Enabled(st, l)
    ensures SuccessInv(Next(st, l))
  {
    match l
    case Handles(s, h) => HandlesSuccess(st, s, h);
    case CommitsBatch(s) => CommitsSuccess(st, s);
    case StoresOutcome(s, updateOk) => StoresOutcomeSuccess(st, s, updateOk);
    case LosesTransaction(_) => EndsSuccess(st, l);
    case Vanishes(_) => EndsSuccess(st, l);
    case Select(s, batch) => SelectSuccess(st, s, batch);
    case Dispatches(s, e) => DispatchesSuccess(st, s, e);
    case _ =>
      NonCommitRows(st, l);
      QuietSuccess(st, Next(st, l));
  }
}

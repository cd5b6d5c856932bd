/** Runs of the protocol machine: batches lost after their handlers' commits and what redelivery then costs; a failed
    transfer that the bank has all the same. */
module ConcreteRuns {
  import opened Basics
  import opened TransferDomain
  import opened Events
  import opened Outbox
  import opened TransferTables
  import opened Protocol
  import opened ProtocolOutcomes
  import opened Handlers
  import opened CircuitBreaker
  import opened Outage
  import opened OutageBound

  // ---------- lost batches ----------

  function Asked(k: nat): TransferRow {
    NewTransferRow(k, k, k, TransferParams(1, "", "", "", "", "", ""), 0)
  }

  /** The bank's apply number for transfer k: one for each. */
  function Number(k: nat): string {
    "AP" + seq(k, i => 'I')
  }

  /** After n transfers were accepted by the bank in batches whose own commit was lost: ids below n (transfers) and 3n
      (events) are taken, no others, and the request event 3k of every transfer k < n is pending as published although
      the transfer has moved on. */
  ghost predicate LostIds(t: Tables, n: nat) {
    && (forall x :: x in t.transfers ==> 0 <= x < n && t.transfers[x].appRequestId == x && t.transfers[x].apiKey == x)
    && (forall e :: e in t.outbox ==> 0 <= e < 3 * n)
    && (forall k :: 0 <= k < n ==> Redelivered(t, k))
  }

  ghost predicate Redelivered(t: Tables, k: int) {
    && 3 * k in t.outbox && t.outbox[3 * k].event.kind == TransferRequested
    && t.outbox[3 * k] == NewRow(t.outbox[3 * k].event, 0)
    && HasMoved(t, 3 * k)
  }

  lemma RequestOne(t: Tables, n: nat) returns (t1: Tables)
    requires TablesInv(t) && LostIds(t, n)
    ensures RequestTx(t, Asked(n), 3 * n, 0) == Ok(t1)
    ensures TablesInv(t1) && Grows(t, t1) && RowsStay(t, t1) && t1.transfers == t.transfers[n := Asked(n)]
    ensures t1.outbox == t.outbox[3 * n := NewRow(Event(TransferRequested, n, RequestedPayload(n, Asked(n).params)), 0)]
  {
    assert !Clashes(t, Asked(n));
    t1 := RequestTx(t, Asked(n), 3 * n, 0).value;
    RequestKeepsLedger(t, Asked(n), 3 * n, 0);
  }

  lemma AcceptAsked(t1: Tables, n: nat) returns (t2: Tables)
    requires TablesInv(t1) && n in t1.transfers && t1.transfers[n] == Asked(n)
    requires 3 * n + 1 !in t1.outbox && 3 * n + 2 !in t1.outbox
    ensures SendTx(t1, Asked(n), Accepted(Number(n)), 3 * n + 1, 3 * n + 2, 0) == Ok(t2)
    ensures TablesInv(t2) && Grows(t1, t2) && RowsStay(t1, t2) && t2.transfers.Keys == t1.transfers.Keys
    ensures t2.transfers[n].status == Requested
    ensures t2.outbox.Keys == t1.outbox.Keys + {3 * n + 1, 3 * n + 2}
  {
    t2 := SendTx(t1, Asked(n), Accepted(Number(n)), 3 * n + 1, 3 * n + 2, 0).value;
    SendKeepsLedger(t1, Asked(n), Accepted(Number(n)), 3 * n + 1, 3 * n + 2, 0);
    AcceptedShape(t1, Asked(n), Number(n), 3 * n + 1, 3 * n + 2, 0);
  }

  lemma StaysRedelivered(t: Tables, t': Tables, k: int)
    requires Redelivered(t, k) && Grows(t, t') && RowsStay(t, t')
    ensures Redelivered(t', k)
  {
    assert Rank(t.transfers[t.outbox[3 * k].event.aggregateId].status) > 0;
  }

  lemma LostIdsAdvance(t: Tables, t1: Tables, t2: Tables, n: nat)
    requires LostIds(t, n) && Grows(t, t1) && RowsStay(t, t1) && Grows(t1, t2) && RowsStay(t1, t2)
    requires t1.transfers == t.transfers[n := Asked(n)] && t2.transfers.Keys == t1.transfers.Keys
    requires t1.outbox == t.outbox[3 * n := NewRow(Event(TransferRequested, n, RequestedPayload(n, Asked(n).params)),
                                                   0)]
    requires t2.outbox.Keys == t1.outbox.Keys + {3 * n + 1, 3 * n + 2} && t2.transfers[n].status == Requested
    ensures LostIds(t2, n + 1)
  {
    forall k | 0 <= k < n + 1
      ensures Redelivered(t2, k)
    {
      if k < n {
        StaysRedelivered(t, t1, k);
        StaysRedelivered(t1, t2, k);
      } else {
        assert t2.outbox[3 * n] == t1.outbox[3 * n];
      }
    }
    forall x | x in t2.transfers
      ensures 0 <= x < n + 1 && t2.transfers[x].appRequestId == x && t2.transfers[x].apiKey == x
    {
      assert x in t1.transfers && SameIdentity(t1.transfers[x], t2.transfers[x]);
    }
    forall e | e in t2.outbox
      ensures 0 <= e < 3 * (n + 1)
    {
      assert e in t1.outbox || e == 3 * n + 1 || e == 3 * n + 2;
    }
  }

  function RequestEvents(n: nat): seq<EventId> {
    seq(n, k => 3 * k)
  }

  function Redeliveries(n: nat): seq<Delivery> {
    seq(n, k => Delivery(3 * k, Storage(true, Commits, 0, 0), None, 0, 0, true))
  }

  // ---------- a run that gets there ----------

  lemma Extends(maxAttempt: nat, st: State, l: Label)
    requires Reachable(maxAttempt, st) && Enabled(st, l)
    ensures Reachable(maxAttempt, Next(st, l))
  {
    var clock, run :| IsRun(maxAttempt, clock, run) && StateAfter(maxAttempt, clock, run) == st;
    var longer := run + [l];
    assert longer[..|longer| - 1] == run;
    assert IsRun(maxAttempt, clock, longer) && StateAfter(maxAttempt, clock, longer) == Next(st, l);
  }

  /** A reachable state at time 0 with this world and these sessions; clients below c and sessions below s are taken. */
  ghost predicate At(maxAttempt: nat, st: State, w: World, sessions: map<SessionId, Session>, c: int, s: int) {
    && Reachable(maxAttempt, st) && st.clock == 0 && st.world == w && st.sessions == sessions
    && (forall x :: x in st.clients ==> x < c) && (forall x :: x in st.used ==> x < s)
  }

  lemma ClientAsks(maxAttempt: nat, st: State, w: World, n: nat, t1: Tables) returns (st': State)
    requires At(maxAttempt, st, w, map[], n, n) && LostIds(w.tables, n)
    requires RequestTx(w.tables, Asked(n), 3 * n, 0) == Ok(t1)
    ensures At(maxAttempt, st', w.(tables := t1), map[], n + 1, n)
  {
    var look := ClientLooks(n, n, Asked(n).params, true);
    Extends(maxAttempt, st, look);
    var st1 := Next(st, look);
    assert FindByAppRequestID(w.tables, n, true) == Err(NotFound);
    assert st1 == st.(clients := st.clients[n := Missed(n, Asked(n).params)]);
    Extends(maxAttempt, st1, ClientInserts(n, n, n, 3 * n, Commits));
    st' := ClientInsertsNext(st1, n, n, n, 3 * n, Commits);
  }

  function Working(e: EventId, run: Run): Session {
    Session({e}, map[e := 0], 0, {}, run, map[], true)
  }

  lemma SessionTakes(maxAttempt: nat, st: State, w: World, c: int, n: int, e: EventId) returns (st': State)
    requires At(maxAttempt, st, w, map[], c, n) && e in w.tables.outbox
    requires w.tables.outbox[e] == NewRow(w.tables.outbox[e].event, 0) && Registered(w.tables.outbox[e].event.kind)
    ensures At(maxAttempt, st', w, map[n := Working(e, Started(e))], c, n + 1)
  {
    Extends(maxAttempt, st, Select(n, {e}));
    var st1 := SelectNext(st, n, {e});
    assert st1.sessions[n] == Session({e}, map[e := 0], 0, {e}, Idle, map[], true);
    Extends(maxAttempt, st1, Dispatches(n, e));
    st' := DispatchesNext(st1, n, e);
    assert {e} - {e} == {};
    assert st'.sessions == map[n := Working(e, Started(e))];
  }

  /** One step of the handler in the only session. */
  lemma HandlerMoves(maxAttempt: nat, st: State, w: World, c: int, n: int, e: EventId, run: Run, h: HandlerStep)
    returns (st': State)
    requires At(maxAttempt, st, w, map[n := Working(e, run)], c, n + 1) && CanStep(w, run, h)
    ensures var (w', run') := AfterHandlerStep(w, 0, run, h);
            At(maxAttempt, st', w', map[n := Working(e, run')], c, n + 1)
  {
    Extends(maxAttempt, st, Handles(n, h));
    st' := HandlesNext(st, n, h);
    assert st'.sessions == map[n := Working(e, AfterHandlerStep(w, 0, run, h).1)];
  }

  lemma SessionVanishes(maxAttempt: nat, st: State, w: World, c: int, n: int, ss: Session) returns (st': State)
    requires At(maxAttempt, st, w, map[n := ss], c, n + 1)
    ensures At(maxAttempt, st', w, map[], c, n + 1)
  {
    Extends(maxAttempt, st, Vanishes(n));
    st' := Next(st, Vanishes(n));
    assert st'.sessions == map[];
  }

  /** The handler finds the transfer, the bank accepts it under a new key, the transaction commits. */
  lemma HandlerAccepts(maxAttempt: nat, st: State, w: World, n: nat, e: EventId, row: TransferRow, no: string,
                       e1: EventId, e2: EventId, t2: Tables) returns (st': State)
    requires At(maxAttempt, st, w, map[n := Working(e, Started(e))], n + 1, n + 1)
    requires e in w.tables.outbox && w.tables.outbox[e].event.kind == TransferRequested
    requires w.tables.outbox[e].event.aggregateId in w.tables.transfers
    requires w.tables.transfers[w.tables.outbox[e].event.aggregateId] == row && row.status == Pending
    requires KnownKey(w.bank, row.apiKey).None? && SendTx(w.tables, row, Accepted(no), e1, e2, 0) == Ok(t2)
    ensures At(maxAttempt, st', World(t2, w.bank + [BankRecord(row.apiKey, row.params, 0, no)], w.notices),
               map[n := Working(e, HandlerReturned(e, Handled))], n + 1, n + 1)
  {
    var found, answered := SendFound(e, row), SendAnswered(e, row, Accepted(no));
    var booked := w.(bank := w.bank + [BankRecord(row.apiKey, row.params, 0, no)]);
    var st1 := HandlerMoves(maxAttempt, st, w, n + 1, n, e, Started(e), SendFinds(true, true));
    var st2 := HandlerMoves(maxAttempt, st1, w, n + 1, n, e, found, SendCalls(Accepts(0, no)));
    st' := HandlerMoves(maxAttempt, st2, booked, n + 1, n, e, answered, SendStores(e1, e2, Commits));
  }

  /** A reachable state, with nobody at work, after n batches of one event each were lost: the bank has n transfers. */
  ghost predicate LostState(maxAttempt: nat, st: State, n: nat) {
    && At(maxAttempt, st, st.world, map[], n, n) && TablesInv(st.world.tables) && LostIds(st.world.tables, n)
    && |st.world.bank| == n && forall i :: 0 <= i < n ==> st.world.bank[i].apiKey == i
  }

  /** Transfer n is requested, sent and accepted, its event committed as requested, and the session dies before it can
      store the outcome. */
  lemma OneRuns(maxAttempt: nat, st: State, w: World, n: nat, t1: Tables, t2: Tables) returns (st': State)
    requires At(maxAttempt, st, w, map[], n, n) && LostIds(w.tables, n) && KnownKey(w.bank, n).None?
    requires RequestTx(w.tables, Asked(n), 3 * n, 0) == Ok(t1) && t1.transfers == w.tables.transfers[n := Asked(n)]
    requires t1.outbox
          == w.tables.outbox[3 * n := NewRow(Event(TransferRequested, n, RequestedPayload(n, Asked(n).params)), 0)]
    requires SendTx(t1, Asked(n), Accepted(Number(n)), 3 * n + 1, 3 * n + 2, 0) == Ok(t2)
    ensures At(maxAttempt, st', World(t2, w.bank + [BankRecord(n, Asked(n).params, 0, Number(n))], w.notices), map[],
               n + 1, n + 1)
  {
    var e: EventId := 3 * n;
    var st1 := ClientAsks(maxAttempt, st, w, n, t1);
    var st2 := SessionTakes(maxAttempt, st1, w.(tables := t1), n + 1, n, e);
    var st3 := HandlerAccepts(maxAttempt, st2, st2.world, n, e, Asked(n), Number(n), 3 * n + 1, 3 * n + 2, t2);
    st' := SessionVanishes(maxAttempt, st3, st3.world, n + 1, n, Working(e, HandlerReturned(e, Handled)));
  }

  lemma TwoTransactions(t: Tables, n: nat) returns (t1: Tables, t2: Tables)
    requires TablesInv(t) && LostIds(t, n)
    ensures RequestTx(t, Asked(n), 3 * n, 0) == Ok(t1) && t1.transfers == t.transfers[n := Asked(n)]
    ensures t1.outbox == t.outbox[3 * n := NewRow(Event(TransferRequested, n, RequestedPayload(n, Asked(n).params)), 0)]
    ensures SendTx(t1, Asked(n), Accepted(Number(n)), 3 * n + 1, 3 * n + 2, 0) == Ok(t2)
    ensures TablesInv(t2) && LostIds(t2, n + 1)
  {
    t1 := RequestOne(t, n);
    t2 := AcceptAsked(t1, n);
    LostIdsAdvance(t, t1, t2, n);
  }

  lemma OneIsLost(maxAttempt: nat, st: State, n: nat) returns (st': State)
    requires LostState(maxAttempt, st, n)
    ensures LostState(maxAttempt, st', n + 1)
  {
    var w := st.world;
    assert KnownKey(w.bank, n).None? by {
      KnownKeyFinds(w.bank, n);
    }
    var t1, t2 := TwoTransactions(w.tables, n);
    st' := OneRuns(maxAttempt, st, w, n, t1, t2);
  }

  lemma {:induction false} LostBatchHappens(maxAttempt: nat, n: nat) returns (st: State)
    ensures LostState(maxAttempt, st, n)
  {
    if n == 0 {
      st := Initial(maxAttempt, 0);
      assert IsRun(maxAttempt, 0, []) && StateAfter(maxAttempt, 0, []) == st;
    } else {
      var before := LostBatchHappens(maxAttempt, n - 1);
      st := OneIsLost(maxAttempt, before, n - 1);
    }
  }

  /** So the breaker alone bounds nothing: some run, for every n, leaves n accepted transfers whose events are still
      pending; when a new relay process then delivers them, it uses n attempts in no time with its breaker as new.  Four
      are more than the default threshold. */
  lemma LostBatchUsesAttempts(maxAttempt: nat, n: nat) returns (st: State)
    ensures Reachable(maxAttempt, st) && |st.world.bank| == n
    ensures var s, ds := Scene(INITIAL, 0, st.world), Redeliveries(n);
            && IsOutage(DEFAULT_CONFIG, maxAttempt, s, ds, 0) && AllDue(DEFAULT_CONFIG, maxAttempt, s, ds, 0)
            && var s' := SceneAfter(DEFAULT_CONFIG, maxAttempt, s, ds, 0);
               s'.breaker == INITIAL
               && Total(s'.world.tables, RequestEvents(n)) - Total(st.world.tables, RequestEvents(n)) == n
  {
    st := LostBatchHappens(maxAttempt, n);
    RedeliveryCosts(maxAttempt, st.world, n);
  }

  lemma RedeliveryCosts(maxAttempt: nat, w: World, n: nat)
    requires LostIds(w.tables, n)
    ensures var s, ds := Scene(INITIAL, 0, w), Redeliveries(n);
            && IsOutage(DEFAULT_CONFIG, maxAttempt, s, ds, 0) && AllDue(DEFAULT_CONFIG, maxAttempt, s, ds, 0)
            && var s' := SceneAfter(DEFAULT_CONFIG, maxAttempt, s, ds, 0);
               s'.breaker == INITIAL
               && Total(s'.world.tables, RequestEvents(n)) - Total(w.tables, RequestEvents(n)) == n
  {
    var s, ds, queue := Scene(INITIAL, 0, w), Redeliveries(n), RequestEvents(n);
    forall i | 0 <= i < n
      ensures ds[i].event in queue && Possible(s, ds[i]) && HasMoved(s.world.tables, ds[i].event)
      ensures s.world.tables.outbox[ds[i].event].nextAttemptAt <= ds[i].askAt
    {
      assert Redelivered(s.world.tables, i) && queue[i] == ds[i].event;
    }
    MovedEventsUseAttempts(DEFAULT_CONFIG, maxAttempt, s, ds, queue);
    MovedAreDue(DEFAULT_CONFIG, maxAttempt, s, ds);
  }

  lemma {:induction false} MovedAreDue(cfg: Config, maxAttempt: nat, s: Scene, ds: seq<Delivery>)
    requires IsOutage(cfg, maxAttempt, s, ds, s.clock)
    requires forall i :: 0 <= i < |ds| ==>
               Possible(s, ds[i]) && s.world.tables.outbox[ds[i].event].nextAttemptAt <= ds[i].askAt
    requires forall i, j :: 0 <= i < j < |ds| ==> ds[i].event != ds[j].event
    ensures AllDue(cfg, maxAttempt, s, ds, s.clock)
    decreases |ds|
  {
    if ds != [] {
      var s1 := Deliver(cfg, maxAttempt, s, ds[0]);
      DeliverCases(cfg, maxAttempt, s, ds[0]);
      assert forall i :: 0 <= i < |ds| - 1 ==> ds[1..][i] == ds[i + 1];
      MovedAreDue(cfg, maxAttempt, s1, ds[1..]);
    }
  }

  // ---------- a failed transfer in the bank's books ----------

  /** The first session times out on a call that the bank takes, and dies. */
  lemma TimesOut(maxAttempt: nat, st: State, t1: Tables, date: int, no: string) returns (st': State)
    requires At(maxAttempt, st, World(t1, [], []), map[], 1, 0) && RequestWaits(t1)
    ensures At(maxAttempt, st', World(t1, [BankRecord(0, Asked(0).params, date, no)], []), map[], 1, 1)
  {
    var w := World(t1, [], []);
    var found, timeout := SendFound(0, Asked(0)), Unreachable(Some((date, no)));
    var st1 := SessionTakes(maxAttempt, st, w, 1, 0, 0);
    var st2 := HandlerMoves(maxAttempt, st1, w, 1, 0, 0, Started(0), SendFinds(true, true));
    var st3 := HandlerMoves(maxAttempt, st2, w, 1, 0, 0, found, SendCalls(timeout));
    st' := SessionVanishes(maxAttempt, st3, st3.world, 1, 0, Working(0, HandlerReturned(0, HandlerError)));
  }

  /** The second session is refused. */
  lemma IsRefused(maxAttempt: nat, st: State, t1: Tables, bank: seq<BankRecord>, refusal: string) returns (st': State)
    requires At(maxAttempt, st, World(t1, bank, []), map[], 1, 1) && RequestWaits(t1)
    ensures Reachable(maxAttempt, st') && st'.world.bank == bank
    ensures st'.world.tables.transfers.Keys == t1.transfers.Keys
    ensures st'.world.tables.transfers[0].status == Failed && SameIdentity(st'.world.tables.transfers[0], Asked(0))
  {
    var w := World(t1, bank, []);
    var found, answered := SendFound(0, Asked(0)), SendAnswered(0, Asked(0), Rejected(refusal));
    var st1 := SessionTakes(maxAttempt, st, w, 1, 1, 0);
    var st2 := HandlerMoves(maxAttempt, st1, w, 1, 1, 0, Started(0), SendFinds(true, true));
    var st3 := HandlerMoves(maxAttempt, st2, w, 1, 1, 0, found, SendCalls(Refuses(refusal)));
    st' := HandlerMoves(maxAttempt, st3, w, 1, 1, 0, answered, SendStores(1, 2, Commits));
  }

  /** Transfer 0 has just been asked for, with event 0, and nothing else. */
  ghost predicate RequestWaits(t: Tables) {
    && t.transfers == map[0 := Asked(0)]
    && t.outbox == map[0 := NewRow(Event(TransferRequested, 0, RequestedPayload(0, Asked(0).params)), 0)]
  }

  /** A failed transfer does not mean that the bank has nothing: some run ends with a transfer failed on a refusal whose
      key, amount and destination an earlier call, timed out, left in the bank's books. */
  lemma FailedThoughBooked(maxAttempt: nat, date: int, no: string, refusal: string) returns (st: State)
    ensures Reachable(maxAttempt, st)
    ensures 0 in st.world.tables.transfers && st.world.tables.transfers[0].status == Failed
    ensures var row := st.world.tables.transfers[0]; st.world.bank == [BankRecord(row.apiKey, row.params, date, no)]
  {
    var start := Initial(maxAttempt, 0);
    assert IsRun(maxAttempt, 0, []) && StateAfter(maxAttempt, 0, []) == start;
    var t1 := RequestOne(EMPTY, 0);
    var asked := ClientAsks(maxAttempt, start, World(EMPTY, [], []), 0, t1);
    var timedOut := TimesOut(maxAttempt, asked, t1, date, no);
    st := IsRefused(maxAttempt, timedOut, t1, timedOut.world.bank, refusal);
  }
}

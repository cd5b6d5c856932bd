/** What the protocol lets out into the world: bank records, answers to clients, and notices. */
module ProtocolOutcomes {
  import opened Basics
  import opened TransferDomain
  import opened Events
  import opened TransferTables
  import opened Protocol
  import opened ProtocolSafety

  // ---------- the bank ----------

  /** The record is what some committed transfer row asked for. */
  ghost predicate Backed(t: Tables, rec: BankRecord) {
    exists id :: id in t.transfers && t.transfers[id].apiKey == rec.apiKey && t.transfers[id].params == rec.params
  }

  ghost predicate Booked(bank: seq<BankRecord>, key: int, no: string) {
    exists i :: 0 <= i < |bank| && bank[i].apiKey == key && bank[i].applyNo == no
  }

  ghost predicate BankInv(w: World) {
    && (forall i, j :: 0 <= i < j < |w.bank| ==> w.bank[i].apiKey != w.bank[j].apiKey)
    && (forall i :: 0 <= i < |w.bank| ==> Backed(w.tables, w.bank[i]))
    && (forall id :: id in w.tables.transfers && w.tables.transfers[id].applyNo.Some? ==>
          Booked(w.bank, w.tables.transfers[id].apiKey, w.tables.transfers[id].applyNo.value))
  }

  ghost predicate RunBooked(bank: seq<BankRecord>, run: Run) {
    run.SendAnswered? && run.answer.Accepted? ==> Booked(bank, run.snap.apiKey, run.answer.applyNo)
  }

  lemma {:induction false} KnownKeyFinds(bank: seq<BankRecord>, key: int)
    ensures KnownKey(bank, key).None? ==> forall i :: 0 <= i < |bank| ==> bank[i].apiKey != key
    ensures KnownKey(bank, key).Some? ==> Booked(bank, key, KnownKey(bank, key).value.applyNo)
  {
    if bank != [] {
      var front := bank[..|bank| - 1];
      KnownKeyFinds(front, key);
      if bank[|bank| - 1].apiKey != key && KnownKey(front, key).Some? {
        var i :| 0 <= i < |front| && front[i].apiKey == key && front[i].applyNo == KnownKey(front, key).value.applyNo;
        assert bank[i] == front[i];
      }
    }
  }

  lemma BookedStays(bank: seq<BankRecord>, bank': seq<BankRecord>, key: int, no: string)
    requires Booked(bank, key, no) && bank <= bank'
    ensures Booked(bank', key, no)
  {
    var i :| 0 <= i < |bank| && bank[i].apiKey == key && bank[i].applyNo == no;
    assert bank'[i] == bank[i];
  }

  /** Only an accepted answer puts an apply number on a row. */
  ghost predicate ApplyNosFrom(t: Tables, t': Tables, run: Run) {
    forall x :: x in t'.transfers && t'.transfers[x].applyNo.Some? ==>
      || (x in t.transfers && t.transfers[x].apiKey == t'.transfers[x].apiKey
          && t.transfers[x].applyNo == t'.transfers[x].applyNo)
      || (run.SendAnswered? && run.answer.Accepted? && t'.transfers[x].apiKey == run.snap.apiKey
          && t'.transfers[x].applyNo == Some(run.answer.applyNo))
  }

  lemma SentApplyNos(t: Tables, run: Run, e1: EventId, e2: EventId, now: int, fate: Fate)
    requires run.SendAnswered? && RunOk(t, run)
    ensures ApplyNosFrom(t, AfterFate(t, SendTx(t, run.snap, run.answer, e1, e2, now), fate), run)
  {
  }

  lemma CheckedApplyNos(t: Tables, run: Run, e: EventId, applyNo: string, now: int, fate: Fate)
    requires run.CheckFound? && RunOk(t, run)
    ensures ApplyNosFrom(t, AfterFate(t, CheckTx(t, run.snap, run.to, run.detail, applyNo, e, now), fate), run)
  {
    if CheckTx(t, run.snap, run.to, run.detail, applyNo, e, now).Ok? {
      CheckShape(t, run.snap, run.to, run.detail, applyNo, e, now);
    }
  }

  lemma StoredApplyNos(w: World, clock: int, run: Run, h: HandlerStep)
    requires RunOk(w.tables, run) && CanStep(w, run, h)
    ensures ApplyNosFrom(w.tables, AfterHandlerStep(w, clock, run, h).0.tables, run)
  {
    match h
    case SendStores(e1, e2, fate) => SentApplyNos(w.tables, run, e1, e2, clock, fate);
    case CheckStores(e, applyNo, fate) => CheckedApplyNos(w.tables, run, e, applyNo, clock, fate);
    case _ =>
      assert AfterHandlerStep(w, clock, run, h).0.tables.transfers == w.tables.transfers;
  }

  lemma BankInvKept(w: World, w': World, run: Run)
    requires BankInv(w) && RunBooked(w.bank, run) && w'.bank == w.bank
    requires Grows(w.tables, w'.tables) && ApplyNosFrom(w.tables, w'.tables, run)
    ensures BankInv(w')
  {
    forall i | 0 <= i < |w'.bank|
      ensures Backed(w'.tables, w'.bank[i])
    {
      assert Backed(w.tables, w.bank[i]);
      var id :| id in w.tables.transfers && w.tables.transfers[id].apiKey == w.bank[i].apiKey
                && w.tables.transfers[id].params == w.bank[i].params;
      assert id in w'.tables.transfers;
    }
  }

  lemma BankTakesKeeps(w: World, snap: TransferRow, date: int, no: string)
    requires BankInv(w) && Fits(w.tables, snap)
    ensures var bank' := BankTakes(w.bank, snap, date, no);
            && BankInv(w.(bank := bank')) && w.bank <= bank'
            && var known := KnownKey(w.bank, snap.apiKey);
               Booked(bank', snap.apiKey, if known.Some? then known.value.applyNo else no)
  {
    var bank' := BankTakes(w.bank, snap, date, no);
    KnownKeyFinds(w.bank, snap.apiKey);
    assert Backed(w.tables, BankRecord(snap.apiKey, snap.params, date, no)) by {
      assert w.tables.transfers[snap.id].apiKey == snap.apiKey;
    }
    if bank' != w.bank {
      assert bank'[|w.bank|] == BankRecord(snap.apiKey, snap.params, date, no);
    }
    forall id | id in w.tables.transfers && w.tables.transfers[id].applyNo.Some?
      ensures Booked(bank', w.tables.transfers[id].apiKey, w.tables.transfers[id].applyNo.value)
    {
      BookedStays(w.bank, bank', w.tables.transfers[id].apiKey, w.tables.transfers[id].applyNo.value);
    }
  }

  /** A call keeps the bank's books right, and an accepted answer is really booked. */
  lemma SendCallsBank(w: World, run: Run, gateway: Gateway)
    requires BankInv(w) && run.SendFound? && Fits(w.tables, run.snap)
    ensures var (w', run') := SendCallsStep(w, run, gateway);
            BankInv(w') && RunBooked(w'.bank, run') && w.bank <= w'.bank
  {
    match gateway
    case Accepts(date, no) => BankTakesKeeps(w, run.snap, date, no);
    case Refuses(_) =>
    case Unreachable(recorded) =>
      if recorded.Some? {
        BankTakesKeeps(w, run.snap, recorded.value.0, recorded.value.1);
      }
  }

  /** Every handler step keeps the bank's books right, and loses no record. */
  lemma HandlerStepBank(w: World, clock: int, run: Run, h: HandlerStep)
    requires TablesInv(w.tables) && RunOk(w.tables, run) && CanStep(w, run, h)
    requires BankInv(w) && RunBooked(w.bank, run)
    ensures var (w', run') := AfterHandlerStep(w, clock, run, h);
            BankInv(w') && RunBooked(w'.bank, run') && w.bank <= w'.bank
  {
    if h.SendCalls? {
      SendCallsBank(w, run, h.gateway);
    } else {
      HandlerStepOk(w, clock, run, h);
      StoredApplyNos(w, clock, run, h);
      BankInvKept(w, AfterHandlerStep(w, clock, run, h).0, run);
    }
  }

  // ---------- notices ----------

  /** Each Send was for a marked notice event, and never twice for one event; a handler between mark and send is
      alone with its event. */
  ghost predicate Marking(st: State, s: SessionId, e: EventId) {
    s in st.sessions && st.sessions[s].run == NoticeMarked(e)
  }

  ghost predicate NoticeInv(st: State) {
    && (forall i, j :: 0 <= i < j < |st.world.notices| ==> st.world.notices[i] != st.world.notices[j])
    && (forall n :: n in st.world.notices ==>
          n in st.world.tables.processed && n in st.world.tables.outbox &&
              IsNotice(st.world.tables.outbox[n].event.kind))
    && (forall s, e :: Marking(st, s, e) ==> e !in st.world.notices)
    && (forall a, b, e :: Marking(st, a, e) && Marking(st, b, e) ==> a == b)
  }

  // ---------- clients ----------

  ghost predicate ClientsInv(st: State) {
    forall c :: c in st.clients && st.clients[c].Returned? && st.clients[c].result.Ok? ==>
      var id := st.clients[c].result.value;
      id in st.world.tables.transfers && st.world.tables.transfers[id].appRequestId == st.clients[c].appRequestId
  }

  ghost predicate OutcomesInv(st: State) {
    && BankInv(st.world)
    && (forall s :: s in st.sessions ==> RunBooked(st.world.bank, st.sessions[s].run))
    && NoticeInv(st) && ClientsInv(st)
  }

  // ---------- steps ----------

  /** What one handler step does about notices. */
  lemma HandlerStepNotices(w: World, clock: int, run: Run, h: HandlerStep)
    requires RunOk(w.tables, run) && CanStep(w, run, h)
    ensures var (w', run') := AfterHandlerStep(w, clock, run, h);
            && w'.notices == (if run.NoticeMarked? then w.notices + [run.event] else w.notices)
            && (run'.NoticeMarked? ==> run'.event !in w.tables.processed)
            && (run.NoticeMarked? ==> !run'.NoticeMarked?)
  {
  }

  lemma NoticesAdvance(st: State, st': State, s: SessionId)
    requires CoreInv(st) && CoreInv(st') && NoticeInv(st) && Grows(st.world.tables, st'.world.tables)
    requires s in st.sessions && s in st'.sessions && st'.sessions == st.sessions[s := st'.sessions[s]]
    requires var run, run' := st.sessions[s].run, st'.sessions[s].run;
             && st'.world.notices == (if run.NoticeMarked? then st.world.notices + [run.event] else st.world.notices)
             && (run'.NoticeMarked? ==> run'.event !in st.world.tables.processed)
             && (run.NoticeMarked? ==> !run'.NoticeMarked?)
    ensures NoticeInv(st')
  {
    var run := st.sessions[s].run;
    assert RunOk(st.world.tables, run);
    if run.NoticeMarked? {
      assert Marking(st, s, run.event);
    }
    forall x, e | Marking(st, x, e)
      ensures e in st.world.tables.processed
    {
      assert RunOk(st.world.tables, st.sessions[x].run);
    }
    forall x, e | Marking(st', x, e)
      ensures e !in st'.world.notices && (x != s ==> Marking(st, x, e)) && (x == s ==> e !in st.world.tables.processed)
    {
      if x != s {
        assert Marking(st, x, e);
      }
    }
  }

  lemma HandlesOutcomes(st: State, s: SessionId, h: HandlerStep)
    requires CoreInv(st) && OutcomesInv(st) && Enabled(st, Handles(s, h))
    ensures OutcomesInv(HandlesNext(st, s, h))
  {
    var st' := HandlesNext(st, s, h);
    HandlerStepOk(st.world, st.clock, st.sessions[s].run, h);
    HandlerStepBank(st.world, st.clock, st.sessions[s].run, h);
    HandlesCore(st, s, h);
    HandlerStepNotices(st.world, st.clock, st.sessions[s].run, h);
    NoticesAdvance(st, st', s);
    OthersStayBooked(st, st', s);
  }

  lemma OthersStayBooked(st: State, st': State, s: SessionId)
    requires OutcomesInv(st) && st.world.bank <= st'.world.bank
    requires s in st.sessions && s in st'.sessions && st'.sessions == st.sessions[s := st'.sessions[s]]
    ensures forall x :: x in st'.sessions && x != s ==> RunBooked(st'.world.bank, st'.sessions[x].run)
  {
    forall x | x in st'.sessions && x != s
      ensures RunBooked(st'.world.bank, st'.sessions[x].run)
    {
      var run := st.sessions[x].run;
      if run.SendAnswered? && run.answer.Accepted? {
        BookedStays(st.world.bank, st'.world.bank, run.snap.apiKey, run.answer.applyNo);
      }
    }
  }

  /** Steps that call no handler: the bank and the notices stay, runs stay or start afresh. */
  lemma OtherOutcomes(st: State, st': State)
    requires CoreInv(st) && OutcomesInv(st) && Grows(st.world.tables, st'.world.tables)
    requires st'.world.bank == st.world.bank && st'.world.notices == st.world.notices
    requires ApplyNosFrom(st.world.tables, st'.world.tables, Idle)
    requires forall s :: s in st'.sessions ==>
               || st'.sessions[s].run.Idle? || st'.sessions[s].run.Started?
               || (s in st.sessions && st'.sessions[s].run == st.sessions[s].run)
    requires ClientsInv(st')
    ensures OutcomesInv(st')
  {
    BankInvKept(st.world, st'.world, Idle);
    assert forall s, e :: Marking(st', s, e) ==> Marking(st, s, e);
  }

  lemma ClientsKeep(st: State, st': State)
    requires ClientsInv(st) && Grows(st.world.tables, st'.world.tables) && st'.clients == st.clients
    ensures ClientsInv(st')
  {
  }

  lemma InsertTables(t: Tables, row: TransferRow, e: EventId, now: int, fate: Fate)
    requires TablesInv(t) && row.status == Pending && row.version == 1 && row.applyNo == None
    ensures var outcome := RequestTx(t, row, e, now);
            var t' := AfterFate(t, outcome, fate);
            && Grows(t, t') && ApplyNosFrom(t, t', Idle)
            && (outcome.Ok? && fate == Commits ==> row.id in t'.transfers && t'.transfers[row.id] == row)
  {
    RequestOutcome(t, row, e, now, fate);
    if RequestTx(t, row, e, now).Ok? {
      RequestKeepsLedger(t, row, e, now);
    }
  }

  lemma ClientInsertsOutcomes(st: State, c: ClientId, id: TransferId, key: int, e: EventId, fate: Fate)
    requires CoreInv(st) && OutcomesInv(st) && Enabled(st, ClientInserts(c, id, key, e, fate))
    ensures OutcomesInv(ClientInsertsNext(st, c, id, key, e, fate))
  {
    var st' := ClientInsertsNext(st, c, id, key, e, fate);
    var row := NewTransferRow(id, st.clients[c].appRequestId, key, st.clients[c].params, st.clock);
    InsertTables(st.world.tables, row, e, st.clock, fate);
    OtherOutcomes(st, st');
  }

  /** Steps that also leave the clients and the transfers alone. */
  lemma CarryOutcomes(st: State, st': State)
    requires CoreInv(st) && OutcomesInv(st) && Grows(st.world.tables, st'.world.tables)
    requires st'.world.bank == st.world.bank && st'.world.notices == st.world.notices && st'.clients == st.clients
    requires st'.world.tables.transfers == st.world.tables.transfers
    requires forall s :: s in st'.sessions ==>
               || st'.sessions[s].run.Idle? || st'.sessions[s].run.Started?
               || (s in st.sessions && st'.sessions[s].run == st.sessions[s].run)
    ensures OutcomesInv(st')
  {
    ClientsKeep(st, st');
    OtherOutcomes(st, st');
  }

  lemma StartOutcomes(st: State, l: Label)
    requires CoreInv(st) && OutcomesInv(st) && Enabled(st, l) && (l.Select? || l.Dispatches?)
    ensures OutcomesInv(Next(st, l))
  {
    GrowsReflexive(st.world.tables);
    match l
    case Select(s, batch) => CarryOutcomes(st, SelectNext(st, s, batch));
    case Dispatches(s, e) => CarryOutcomes(st, DispatchesNext(st, s, e));
  }

  lemma EndOutcomes(st: State, l: Label)
    requires CoreInv(st) && OutcomesInv(st) && Enabled(st, l) && (l.StoresOutcome? || l.LosesTransaction?)
    ensures OutcomesInv(Next(st, l))
  {
    GrowsReflexive(st.world.tables);
    match l
    case StoresOutcome(s, updateOk) => CarryOutcomes(st, StoresOutcomeNext(st, s, updateOk));
    case LosesTransaction(s) => CarryOutcomes(st, LosesNext(st, s));
  }

  lemma CommitOutcomes(st: State, l: Label)
    requires CoreInv(st) && OutcomesInv(st) && Enabled(st, l) && Grows(st.world.tables, Next(st, l).world.tables)
    requires l.CommitsBatch? || l.Vanishes? || l.Publishes? || l.Tick?
    ensures OutcomesInv(Next(st, l))
  {
    CarryOutcomes(st, Next(st, l));
  }

  lemma LookOutcomes(st: State, l: Label)
    requires CoreInv(st) && OutcomesInv(st) && Enabled(st, l) && (l.ClientLooks? || l.ClientRereads?)
    ensures OutcomesInv(Next(st, l))
  {
    GrowsReflexive(st.world.tables);
    OtherOutcomes(st, Next(st, l));
  }

  lemma OutcomesStep(st: State, l: Label)
    requires CoreInv(st) && OutcomesInv(st) && Enabled(st, l)
    ensures OutcomesInv(Next(st, l))
  {
    CoreStep(st, l);
    match l
    case Handles(s, h) => HandlesOutcomes(st, s, h);
    case ClientInserts(c, id, key, e, fate) => ClientInsertsOutcomes(st, c, id, key, e, fate);
    case ClientLooks(_, _, _, _) => LookOutcomes(st, l);
    case ClientRereads(_, _) => LookOutcomes(st, l);
    case Select(_, _) => StartOutcomes(st, l);
    case Dispatches(_, _) => StartOutcomes(st, l);
    case StoresOutcome(_, _) => EndOutcomes(st, l);
    case LosesTransaction(_) => EndOutcomes(st, l);
    case _ => CommitOutcomes(st, l);
  }
}

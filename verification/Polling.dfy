/** Polling by re-delivery: the relay delivers a status check again and again until the bank's answer is final or the
    attempts are used up. */
module Polling {
  import opened Basics
  import opened TransferDomain
  import opened Events
  import opened Outbox
  import opened TransferTables
  import opened Protocol
  import opened ProtocolSafety
  import opened Handlers

  /** One delivery of the status check: what the bank replies, the id drawn for a notice, and the time. */
  datatype Poll = Poll(reply: BankReply, noticeId: EventId, at: int)

  type Answer = Option<(Status, string)>

  /** The handler call and the relay's row update, with no storage error in either. */
  function AfterPoll(t: Tables, e: EventId, p: Poll, maxAttempt: nat): Tables
    requires e in t.outbox
  {
    var (w, result) := CheckCall(World(t, [], []), e, Storage(true, Commits, p.noticeId, 0), p.reply, p.at);
    if e !in w.tables.outbox then w.tables
    else w.tables.(outbox := w.tables.outbox[e :=
                     DispatchRow(w.tables.outbox[e], t.outbox[e].attemptCount, result, p.at, maxAttempt)])
  }

  /** Every poll happens while the row is pending and due, and draws a fresh id. */
  ghost predicate ValidPolls(t: Tables, e: EventId, ps: seq<Poll>, maxAttempt: nat)
    decreases |ps|
  {
    && e in t.outbox
    && (ps == [] || (
          && t.outbox[e].status == RowPending && t.outbox[e].nextAttemptAt <= ps[0].at && ps[0].noticeId !in t.outbox
          && ValidPolls(AfterPoll(t, e, ps[0], maxAttempt), e, ps[1..], maxAttempt)))
  }

  ghost function AfterPolls(t: Tables, e: EventId, ps: seq<Poll>, maxAttempt: nat): Tables
    requires ValidPolls(t, e, ps, maxAttempt)
    decreases |ps|
  {
    if ps == [] then t else AfterPolls(AfterPoll(t, e, ps[0], maxAttempt), e, ps[1..], maxAttempt)
  }

  // ---------- what an answer does to a status ----------

  predicate IsFinal(a: Answer) {
    a.Some? && IsTerminal(a.value.0)
  }

  /** The transfer takes an answer if the status graph allows it; any other answer is passed over. */
  function Advance(s: Status, a: Answer): Status {
    if a.Some? && !IsTerminal(s) && CanTransition(s, a.value.0) then a.value.0 else s
  }

  function Fold(s: Status, ps: seq<Poll>): Status
    decreases |ps|
  {
    if ps == [] then s else Fold(Advance(s, Understood(ps[0].reply)), ps[1..])
  }

  lemma TransitionStores(t: Tables, snap: TransferRow, to: Status, detail: string, applyNo: string, e: EventId,
                         now: int)
    requires snap.id in t.transfers && t.transfers[snap.id] == snap && e !in t.outbox
    ensures CheckTx(t, snap, to, detail, applyNo, e, now).Ok? <==> CanTransition(snap.status, to)
    ensures CheckTx(t, snap, to, detail, applyNo, e, now).Ok? ==>
              CheckTx(t, snap, to, detail, applyNo, e, now).value.outbox.Keys <= t.outbox.Keys + {e}
  {
  }

  /** One handler call: the status takes the answer, and success means the transfer is final. */
  lemma CallAdvances(t: Tables, e: EventId, p: Poll)
    requires TablesInv(t) && EventIs(t, e, TransferStatusCheck) && p.noticeId !in t.outbox
    requires var id := t.outbox[e].event.aggregateId; id in t.transfers && !IsTerminal(t.transfers[id].status)
    ensures var (w, result) := CheckCall(World(t, [], []), e, Storage(true, Commits, p.noticeId, 0), p.reply, p.at);
            var id, t' := t.outbox[e].event.aggregateId, w.tables;
            && TablesInv(t') && RowsStay(t, t') && t'.outbox.Keys <= t.outbox.Keys + {p.noticeId} && id in t'.transfers
            && t'.transfers[id].status == Advance(t.transfers[id].status, Understood(p.reply))
            && result == if IsFinal(Understood(p.reply)) then Handled else HandlerError
  {
    var id := t.outbox[e].event.aggregateId;
    var a := Understood(p.reply);
    CheckedIsNotPending(t, e);
    assert TransferOk(t, id);
    if a.Some? && t.transfers[id].status != a.value.0 {
      var snap, no := t.transfers[id], PolledNumber(t, e);
      TransitionStores(t, snap, a.value.0, a.value.1, no, p.noticeId, p.at);
      assert IsTerminal(a.value.0) ==> CanTransition(snap.status, a.value.0);
      if CanTransition(snap.status, a.value.0) {
        CheckKeepsLedger(t, snap, a.value.0, a.value.1, no, p.noticeId, p.at);
      }
    }
  }

  /** What one delivery makes of the row: it counts one attempt, and is sent exactly on a final answer. */
  predicate Delivered(row: OutboxRow, row': OutboxRow, a: Answer, maxAttempt: nat) {
    && row'.event == row.event && row'.attemptCount == row.attemptCount + 1
    && row'.status == (if IsFinal(a) then RowSent else if row'.attemptCount >= maxAttempt then RowFailed
                       else RowPending)
  }

  lemma PollAdvances(t: Tables, e: EventId, p: Poll, maxAttempt: nat)
    requires TablesInv(t) && EventIs(t, e, TransferStatusCheck) && p.noticeId !in t.outbox
    requires t.outbox[e].status == RowPending
    requires var id := t.outbox[e].event.aggregateId; id in t.transfers && !IsTerminal(t.transfers[id].status)
    ensures var t' := AfterPoll(t, e, p, maxAttempt);
            var id := t.outbox[e].event.aggregateId;
            && TablesInv(t') && EventIs(t', e, TransferStatusCheck) && id in t'.transfers
            && t'.transfers[id].status == Advance(t.transfers[id].status, Understood(p.reply))
            && Delivered(t.outbox[e], t'.outbox[e], Understood(p.reply), maxAttempt)
  {
    CallAdvances(t, e, p);
    var (w, result) := CheckCall(World(t, [], []), e, Storage(true, Commits, p.noticeId, 0), p.reply, p.at);
    var t' := AfterPoll(t, e, p, maxAttempt);
    RowChangeKeepsTables(w.tables, t');
  }

  /** What a row that started pending shows after the polls `ps`. */
  ghost predicate PolledRow(attempts: nat, row: OutboxRow, ps: seq<Poll>, maxAttempt: nat) {
    && row.attemptCount == attempts + |ps| <= maxAttempt
    && (forall i :: 0 <= i < |ps| - 1 ==> !IsFinal(Understood(ps[i].reply)))
    && row.status == (if ps != [] && IsFinal(Understood(ps[|ps| - 1].reply)) then RowSent
                      else if row.attemptCount == maxAttempt then RowFailed
                      else RowPending)
  }

  lemma PolledRowLater(attempts: nat, row: OutboxRow, ps: seq<Poll>, maxAttempt: nat)
    requires ps != [] && !IsFinal(Understood(ps[0].reply)) && attempts + 1 < maxAttempt
    requires PolledRow(attempts + 1, row, ps[1..], maxAttempt)
    ensures PolledRow(attempts, row, ps, maxAttempt)
  {
    assert forall i :: 0 < i < |ps| ==> ps[i] == ps[1..][i - 1];
  }

  lemma {:induction false} PollsAdvance(t: Tables, e: EventId, ps: seq<Poll>, maxAttempt: nat)
    requires TablesInv(t) && EventIs(t, e, TransferStatusCheck) && ValidPolls(t, e, ps, maxAttempt)
    requires t.outbox[e].status == RowPending && t.outbox[e].attemptCount < maxAttempt
    requires var id := t.outbox[e].event.aggregateId; id in t.transfers && !IsTerminal(t.transfers[id].status)
    ensures var t' := AfterPolls(t, e, ps, maxAttempt);
            var id := t.outbox[e].event.aggregateId;
            && TablesInv(t') && e in t'.outbox && id in t'.transfers
            && t'.transfers[id].status == Fold(t.transfers[id].status, ps)
            && PolledRow(t.outbox[e].attemptCount, t'.outbox[e], ps, maxAttempt)
    decreases |ps|
  {
    if ps != [] {
      var t1 := AfterPoll(t, e, ps[0], maxAttempt);
      PollAdvances(t, e, ps[0], maxAttempt);
      if t1.outbox[e].status == RowPending {
        PollsAdvance(t1, e, ps[1..], maxAttempt);
        PolledRowLater(t.outbox[e].attemptCount, AfterPolls(t1, e, ps[1..], maxAttempt).outbox[e], ps, maxAttempt);
      } else {
        assert ps[1..] == [];
      }
    }
  }

  /** Polling decides the outcome.  Whatever the bank replies (errors, unknown or repeated or regressing statuses), with
      no crash and no storage error: if the k-th answer is the first final one and k <= maxAttempt, the polls stop
      there, the check is sent after k attempts and the transfer ends in that status; otherwise, once maxAttempt polls
      are used up the check is failed and the transfer holds what the allowed transitions made of the answers. */
  lemma PollingDecides(t: Tables, e: EventId, ps: seq<Poll>, maxAttempt: nat)
    requires maxAttempt >= 1 && TablesInv(t) && EventIs(t, e, TransferStatusCheck) && ValidPolls(t, e, ps, maxAttempt)
    requires t.outbox[e] == NewRow(t.outbox[e].event, t.outbox[e].createdAt)
    requires var id := t.outbox[e].event.aggregateId; id in t.transfers && !IsTerminal(t.transfers[id].status)
    ensures var t' := AfterPolls(t, e, ps, maxAttempt);
            var id := t.outbox[e].event.aggregateId;
            && e in t'.outbox && id in t'.transfers && |ps| <= maxAttempt && t'.outbox[e].attemptCount == |ps|
            && (forall k :: 0 <= k < |ps| && IsFinal(Understood(ps[k].reply)) ==>
                  && k == |ps| - 1 && t'.outbox[e].status == RowSent
                  && t'.transfers[id].status == Understood(ps[k].reply).value.0)
            && ((forall k :: 0 <= k < |ps| ==> !IsFinal(Understood(ps[k].reply))) ==>
                  && t'.outbox[e].status == (if |ps| == maxAttempt then RowFailed else RowPending)
                  && t'.transfers[id].status == Fold(t.transfers[id].status, ps)
                  && !IsTerminal(t'.transfers[id].status))
  {
    PollsAdvance(t, e, ps, maxAttempt);
    CheckedIsNotPending(t, e);
    var s := t.transfers[t.outbox[e].event.aggregateId].status;
    if ps != [] && IsFinal(Understood(ps[|ps| - 1].reply)) {
      FinalAnswerWins(s, ps);
    } else if forall k :: 0 <= k < |ps| ==> !IsFinal(Understood(ps[k].reply)) {
      FoldIsFurthest(s, ps);
    }
  }

  lemma {:induction false} FinalAnswerWins(s: Status, ps: seq<Poll>)
    requires s != Pending && !IsTerminal(s) && ps != [] && IsFinal(Understood(ps[|ps| - 1].reply))
    requires forall k :: 0 <= k < |ps| - 1 ==> !IsFinal(Understood(ps[k].reply))
    ensures Fold(s, ps) == Understood(ps[|ps| - 1].reply).value.0
    decreases |ps|
  {
    var s1 := Advance(s, Understood(ps[0].reply));
    if |ps| > 1 {
      assert forall k :: 0 < k < |ps| ==> ps[k] == ps[1..][k - 1];
      FinalAnswerWins(s1, ps[1..]);
    } else {
      assert ps[1..] == [];
    }
  }

  /** Without a final answer the order, repetition and loss of answers do not matter: the transfer holds the furthest
      status among its own and the answers. */
  lemma {:induction false} FoldIsFurthest(s: Status, ps: seq<Poll>)
    requires s != Pending && !IsTerminal(s) && forall k :: 0 <= k < |ps| ==> !IsFinal(Understood(ps[k].reply))
    ensures var f := Fold(s, ps);
            && !IsTerminal(f) && Rank(s) <= Rank(f)
            && (forall k :: 0 <= k < |ps| && Understood(ps[k].reply).Some? ==>
                  Rank(Understood(ps[k].reply).value.0) <= Rank(f))
            && (f == s || exists k ::
                  0 <= k < |ps| && Understood(ps[k].reply).Some? && Understood(ps[k].reply).value.0 == f)
    decreases |ps|
  {
    if ps != [] {
      assert forall k :: 0 < k < |ps| ==> ps[k] == ps[1..][k - 1];
      FoldIsFurthest(Advance(s, Understood(ps[0].reply)), ps[1..]);
    }
  }
}

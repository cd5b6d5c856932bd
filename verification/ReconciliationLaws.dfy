/** What reconciliation keeps over every sequence of issued invoices and runs, and why the order and overlap of
    statements do not matter. */
module ReconciliationLaws {
  import opened Basics
  import opened Events
  import opened Reconciliation

  // ---------- the invoice ledger ----------

  /** Sum of the incoming rows matched to an invoice. */
  function MatchedSum(rows: seq<Incoming>, invoice: InvoiceId): int {
    if rows == [] then 0
    else
      var last := rows[|rows| - 1];
      MatchedSum(rows[..|rows| - 1], invoice) + if last.matched == Some(invoice) then last.amount else 0
  }

  function LastEventFor(events: seq<Event>, invoice: InvoiceId): Option<Event> {
    if events == [] then None
    else if events[|events| - 1].aggregateId == invoice then Some(events[|events| - 1])
    else LastEventFor(events[..|events| - 1], invoice)
  }

  ghost predicate RowsOk(rows: seq<Incoming>) {
    && (forall i :: 0 <= i < |rows| ==> rows[i].amount > 0)
    && (forall i, j :: 0 <= i < j < |rows| ==> rows[i].account != rows[j].account || rows[i].itemKey != rows[j].itemKey)
  }

  /** Rows ingested before the invoice was issued are unmatched, all later ones matched. */
  ghost predicate MatchingOk(b: Books) {
    forall i :: 0 <= i < |b.incomings| ==>
      var a := b.incomings[i].account;
      b.incomings[i].matched ==
        if a in b.invoices && a in b.issuedAt && i >= b.issuedAt[a] then Some(b.invoices[a].id) else None
  }

  ghost predicate InvoiceOk(b: Books, a: AccountId)
    requires a in b.invoices
  {
    var inv := b.invoices[a];
    && inv.account == a && a in b.issuedAt && b.issuedAt[a] <= |b.incomings|
    && inv.paid == Wrap(MatchedSum(b.incomings, inv.id))
    && inv.status == Class(inv.paid, inv.amount)
    && (StatusEvent(inv.status).Some? ==>
          LastEventFor(b.events, inv.id) == Some(Telling(StatusEvent(inv.status).value, inv)))
  }

  ghost predicate BooksInv(b: Books) {
    && RowsOk(b.incomings) && MatchingOk(b)
    && (forall a :: a in b.invoices ==> InvoiceOk(b, a))
    && (forall a, c :: a in b.invoices && c in b.invoices && a != c ==> b.invoices[a].id != b.invoices[c].id)
  }

  lemma {:induction false} NothingMatched(rows: seq<Incoming>, invoice: InvoiceId)
    requires forall i :: 0 <= i < |rows| ==> rows[i].matched != Some(invoice)
    ensures MatchedSum(rows, invoice) == 0
  {
    if rows != [] {
      NothingMatched(rows[..|rows| - 1], invoice);
    }
  }

  lemma {:induction false} OthersUnchanged(rows: seq<Incoming>, more: seq<Incoming>, invoice: InvoiceId)
    requires forall i :: 0 <= i < |more| ==> more[i].matched != Some(invoice)
    ensures MatchedSum(rows + more, invoice) == MatchedSum(rows, invoice)
  {
    if more == [] {
      assert rows + more == rows;
    } else {
      OthersUnchanged(rows, more[..|more| - 1], invoice);
      assert (rows + more)[..|rows + more| - 1] == rows + more[..|more| - 1];
    }
  }

  /** Old rows stay as they are; the new ones are credits of this account matched to its invoice. */
  ghost predicate RowsProgress(b: Books, account: AccountId, rows: seq<Incoming>, added: nat) {
    && |rows| == |b.incomings| + added && rows[..|b.incomings|] == b.incomings
    && RowsOk(rows)
    && (forall i :: |b.incomings| <= i < |rows| ==>
          rows[i].account == account
          && rows[i].matched == if account in b.invoices then Some(b.invoices[account].id) else None)
  }

  /** The invoice follows the sum of its rows. */
  ghost predicate InvoiceProgress(b: Books, account: AccountId, p: Progress) {
    match p.invoice
    case None => account !in b.invoices
    case Some(inv) =>
      account in b.invoices
      && var was := b.invoices[account];
         inv.id == was.id && inv.amount == was.amount && inv.account == was.account
         && inv.paid == Wrap(MatchedSum(p.rows, inv.id)) && inv.status == Class(inv.paid, inv.amount)
         && (p.added == 0 ==> inv == was)
         && MatchedSum(p.rows, inv.id) >= MatchedSum(b.incomings, inv.id) + p.added
  }

  ghost predicate ProgressOk(b: Books, account: AccountId, p: Progress) {
    RowsProgress(b, account, p.rows, p.added) && InvoiceProgress(b, account, p)
  }

  lemma NewRowProgress(b: Books, account: AccountId, rows: seq<Incoming>, added: nat, row: Incoming)
    requires RowsProgress(b, account, rows, added)
    requires row.amount > 0 && row.account == account && !Present(rows, account, row.itemKey)
    requires row.matched == if account in b.invoices then Some(b.invoices[account].id) else None
    ensures RowsProgress(b, account, rows + [row], added + 1)
  {
    NewCreditIsOk(rows, row);
    assert (rows + [row])[..|b.incomings|] == rows[..|b.incomings|];
  }

  lemma IngestKeeps(b: Books, account: AccountId, p: Progress, item: Transaction)
    requires ProgressOk(b, account, p)
    ensures ProgressOk(b, account, Ingest(p, account, item))
  {
    if Ingestible(item) && !Present(p.rows, account, item.itemKey) {
      var matched := if p.invoice.Some? then Some(p.invoice.value.id) else None;
      var row := Incoming(p.nextId, account, item.itemKey, item.amount, matched);
      NewRowProgress(b, account, p.rows, p.added, row);
      NewInvoiceProgress(b, account, p, row);
    }
  }

  lemma NewInvoiceProgress(b: Books, account: AccountId, p: Progress, row: Incoming)
    requires InvoiceProgress(b, account, p) && row.amount > 0
    requires row.matched == if p.invoice.Some? then Some(p.invoice.value.id) else None
    ensures InvoiceProgress(b, account, Progress(
                              p.rows + [row], if p.invoice.Some? then Some(Paid(p.invoice.value, row.amount)) else None,
                              p.nextId + 1, p.added + 1))
  {
    if p.invoice.Some? {
      MatchedSumAppend(p.rows, row, p.invoice.value.id);
      WrapAdds(MatchedSum(p.rows, p.invoice.value.id), row.amount);
    }
  }

  lemma MatchedSumAppend(rows: seq<Incoming>, row: Incoming, invoice: InvoiceId)
    ensures MatchedSum(rows + [row], invoice)
         == MatchedSum(rows, invoice) + if row.matched == Some(invoice) then row.amount else 0
  {
    assert (rows + [row])[..|rows|] == rows;
  }

  lemma NewCreditIsOk(rows: seq<Incoming>, row: Incoming)
    requires RowsOk(rows) && row.amount > 0 && !Present(rows, row.account, row.itemKey)
    ensures RowsOk(rows + [row])
  {
  }

  lemma {:induction false} IngestAllKeeps(b: Books, account: AccountId, items: seq<Transaction>, nextId: int)
    requires BooksInv(b)
    ensures ProgressOk(b, account, Ingested(b, account, items, nextId))
  {
    if items == [] {
      assert b.incomings[..|b.incomings|] == b.incomings;
      assert account in b.invoices ==> InvoiceOk(b, account);
    } else {
      IngestAllKeeps(b, account, items[..|items| - 1], nextId);
      IngestKeeps(b, account, Ingested(b, account, items[..|items| - 1], nextId), items[|items| - 1]);
    }
  }

  lemma OthersSum(b: Books, account: AccountId, p: Progress, invoice: InvoiceId)
    requires ProgressOk(b, account, p) && (account in b.invoices ==> b.invoices[account].id != invoice)
    ensures MatchedSum(p.rows, invoice) == MatchedSum(b.incomings, invoice)
  {
    var more := p.rows[|b.incomings|..];
    assert p.rows == b.incomings + more;
    forall i | 0 <= i < |more|
      ensures more[i].matched != Some(invoice)
    {
      assert more[i] == p.rows[|b.incomings| + i];
    }
    OthersUnchanged(b.incomings, more, invoice);
  }

  lemma OthersLastEvent(events: seq<Event>, more: seq<Event>, invoice: InvoiceId)
    requires |more| <= 1 && forall i :: 0 <= i < |more| ==> more[i].aggregateId != invoice
    ensures LastEventFor(events + more, invoice) == LastEventFor(events, invoice)
  {
    if more == [] {
      assert events + more == events;
    } else {
      assert (events + more)[..|events|] == events;
    }
  }

  lemma ReconciledOthers(b: Books, account: AccountId, items: seq<Transaction>, nextId: int, a: AccountId)
    requires BooksInv(b) && a in b.invoices && a != account
    ensures var b' := Reconciled(b, account, items, nextId);
            a in b'.invoices && b'.invoices[a] == b.invoices[a] && InvoiceOk(b', a)
  {
    var b' := Reconciled(b, account, items, nextId);
    IngestAllKeeps(b, account, items, nextId);
    assert InvoiceOk(b, a);
    OthersSum(b, account, Ingested(b, account, items, nextId), b.invoices[a].id);
    var more := b'.events[|b.events|..];
    assert b'.events == b.events + more;
    OthersLastEvent(b.events, more, b.invoices[a].id);
  }

  /** Every committed run keeps the ledger; rolled-back ones change nothing. */
  lemma ReconciledKeeps(b: Books, account: AccountId, items: seq<Transaction>, nextId: int)
    requires BooksInv(b)
    ensures BooksInv(Reconciled(b, account, items, nextId))
  {
    var b' := Reconciled(b, account, items, nextId);
    var p := Ingested(b, account, items, nextId);
    IngestAllKeeps(b, account, items, nextId);
    forall i | 0 <= i < |b'.incomings|
      ensures var a := b'.incomings[i].account;
              b'.incomings[i].matched ==
                if a in b'.invoices && a in b'.issuedAt && i >= b'.issuedAt[a] then Some(b'.invoices[a].id) else None
    {
      if i < |b.incomings| {
        assert b'.incomings[i] == b.incomings[i];
      } else {
        assert account in b.invoices ==> InvoiceOk(b, account);
      }
    }
    forall a | a in b'.invoices
      ensures InvoiceOk(b', a)
    {
      if a != account {
        ReconciledOthers(b, account, items, nextId, a);
      } else {
        assert InvoiceOk(b, a);
        if p.added == 0 {
          assert p.rows == b.incomings;
        }
      }
    }
  }

  lemma IssuedKeeps(b: Books, id: InvoiceId, amount: int, account: AccountId)
    requires BooksInv(b) && account !in b.invoices
    requires forall a :: a in b.invoices ==> b.invoices[a].id != id
    ensures BooksInv(Issued(b, id, amount, account))
  {
    var b' := Issued(b, id, amount, account);
    assert forall i :: 0 <= i < |b.incomings| ==> b.incomings[i].matched != Some(id);
    NothingMatched(b.incomings, id);
    WrapAdds(0, 0);
    forall a | a in b'.invoices
      ensures InvoiceOk(b', a)
    {
      if a != account {
        assert InvoiceOk(b, a);
      }
    }
  }

  datatype Step =
    | Issue(id: InvoiceId, amount: int, account: AccountId)
    | Run(account: AccountId, list: Option<seq<Transaction>>, nextId: int, commits: bool)

  function AfterStep(b: Books, s: Step): Books {
    match s
    case Issue(id, amount, account) =>
      if account in b.invoices || exists a :: a in b.invoices && b.invoices[a].id == id then b
      else Issued(b, id, amount, account)
    case Run(account, list, nextId, commits) =>
      if list.Some? && commits then Reconciled(b, account, list.value, nextId) else b
  }

  function AfterSteps(steps: seq<Step>): Books {
    if steps == [] then EMPTY_BOOKS else AfterStep(AfterSteps(steps[..|steps| - 1]), steps[|steps| - 1])
  }

  /** Invoice ledger: after any sequence of invoices and runs, failed and rolled-back ones included, the paid amount is
      the 64-bit sum of the rows matched to the invoice, the status is its class, rows ingested before the invoice was
      issued are unmatched, and a status that calls for an event has been told by the latest event. */
  lemma {:induction false} LedgerAlways(steps: seq<Step>)
    ensures BooksInv(AfterSteps(steps))
  {
    if steps != [] {
      LedgerAlways(steps[..|steps| - 1]);
      var b := AfterSteps(steps[..|steps| - 1]);
      match steps[|steps| - 1]
      case Issue(id, amount, account) =>
        if account !in b.invoices && forall a :: a in b.invoices ==> b.invoices[a].id != id {
          IssuedKeeps(b, id, amount, account);
        }
      case Run(account, list, nextId, commits) =>
        if list.Some? && commits {
          ReconciledKeeps(b, account, list.value, nextId);
        }
    }
  }

  lemma {:induction false} MatchedSumNonNegative(rows: seq<Incoming>, invoice: InvoiceId)
    requires RowsOk(rows)
    ensures MatchedSum(rows, invoice) >= 0
  {
    if rows != [] {
      MatchedSumNonNegative(rows[..|rows| - 1], invoice);
    }
  }

  /** The status never falls back while the sum stays in range. */
  lemma StatusNeverFalls(steps: seq<Step>, account: AccountId, items: seq<Transaction>, nextId: int)
    requires account in AfterSteps(steps).invoices
    requires var b := AfterSteps(steps);
             MatchedSum(Reconciled(b, account, items, nextId).incomings, b.invoices[account].id) <= MAX_INT64
    ensures var b := AfterSteps(steps);
            StatusRank(b.invoices[account].status)
              <= StatusRank(Reconciled(b, account, items, nextId).invoices[account].status)
  {
    LedgerAlways(steps);
    var b := AfterSteps(steps);
    IngestAllKeeps(b, account, items, nextId);
    var p := Ingested(b, account, items, nextId);
    var id := b.invoices[account].id;
    assert InvoiceOk(b, account);
    MatchedSumNonNegative(b.incomings, id);
    WrapAdds(MatchedSum(b.incomings, id), 0);
    WrapAdds(MatchedSum(p.rows, id), 0);
  }

  predicate Credited(items: seq<Transaction>, itemKey: int) {
    exists i :: 0 <= i < |items| && Ingestible(items[i]) && items[i].itemKey == itemKey
  }

  /** What a statement brings to an account: each credit whose key is neither among the rows nor earlier in the list. */
  function NewCredits(rows: seq<Incoming>, account: AccountId, items: seq<Transaction>): int {
    if items == [] then 0
    else
      var front, last := items[..|items| - 1], items[|items| - 1];
      var isNew := Ingestible(last) && !Present(rows, account, last.itemKey) && !Credited(front, last.itemKey);
      NewCredits(rows, account, front) + if isNew then last.amount else 0
  }

  lemma PresentAppend(rows: seq<Incoming>, row: Incoming, account: AccountId, itemKey: int)
    ensures Present(rows + [row], account, itemKey) <==>
              Present(rows, account, itemKey) || (row.account == account && row.itemKey == itemKey)
  {
    var more := rows + [row];
    assert more[|rows|] == row && forall i :: 0 <= i < |rows| ==> more[i] == rows[i];
    if Present(rows, account, itemKey) {
      var i :| 0 <= i < |rows| && rows[i].account == account && rows[i].itemKey == itemKey;
      assert more[i].account == account;
    }
  }

  lemma CreditedAppend(items: seq<Transaction>, itemKey: int)
    requires items != []
    ensures var n := |items| - 1;
            Credited(items, itemKey)
            == (Credited(items[..n], itemKey) || (Ingestible(items[n]) && items[n].itemKey == itemKey))
  {
    var front := items[..|items| - 1];
    assert forall i :: 0 <= i < |front| ==> front[i] == items[i];
    if Credited(front, itemKey) {
      var i :| 0 <= i < |front| && Ingestible(front[i]) && front[i].itemKey == itemKey;
      assert items[i] == front[i];
    }
    if Credited(items, itemKey) {
      var i :| 0 <= i < |items| && Ingestible(items[i]) && items[i].itemKey == itemKey;
      assert i < |front| ==> front[i] == items[i];
    }
  }

  lemma {:induction false} KeysAfterRun(b: Books, account: AccountId, items: seq<Transaction>, nextId: int,
                                        itemKey: int)
    ensures Present(Ingested(b, account, items, nextId).rows, account, itemKey) <==>
              Present(b.incomings, account, itemKey) || Credited(items, itemKey)
  {
    if items != [] {
      var front, last := items[..|items| - 1], items[|items| - 1];
      KeysAfterRun(b, account, front, nextId, itemKey);
      CreditedAppend(items, itemKey);
      var p := Ingested(b, account, front, nextId);
      if Ingestible(last) && !Present(p.rows, account, last.itemKey) {
        var row := Ingest(p, account, last).rows[|p.rows|];
        assert Ingest(p, account, last).rows == p.rows + [row];
        PresentAppend(p.rows, row, account, itemKey);
      }
    }
  }

  /** A run adds its new credits, and nothing else, to the invoice of the account. */
  lemma {:induction false} RunAddsNewCredits(b: Books, account: AccountId, items: seq<Transaction>, nextId: int)
    requires BooksInv(b) && account in b.invoices
    ensures var id := b.invoices[account].id;
            MatchedSum(Ingested(b, account, items, nextId).rows, id)
              == MatchedSum(b.incomings, id) + NewCredits(b.incomings, account, items)
  {
    if items != [] {
      var front, last := items[..|items| - 1], items[|items| - 1];
      RunAddsNewCredits(b, account, front, nextId);
      IngestAllKeeps(b, account, front, nextId);
      KeysAfterRun(b, account, front, nextId, last.itemKey);
      var p := Ingested(b, account, front, nextId);
      if Ingestible(last) && !Present(p.rows, account, last.itemKey) {
        var row := Ingest(p, account, last).rows[|p.rows|];
        assert Ingest(p, account, last).rows == p.rows + [row];
        MatchedSumAppend(p.rows, row, b.invoices[account].id);
      }
    }
  }

  /** Exactly when a run lowers the status, whatever the invoice amount and however large the sums: with the paid amount
      before the run and the 64-bit sum of it and the statement's new credits. */
  lemma StatusFallsIff(steps: seq<Step>, account: AccountId, items: seq<Transaction>, nextId: int)
    requires account in AfterSteps(steps).invoices
    ensures var b := AfterSteps(steps);
            var b' := Reconciled(b, account, items, nextId);
            var inv := b.invoices[account];
            var sum := Wrap(inv.paid + NewCredits(b.incomings, account, items));
            && account in b'.invoices && b'.invoices[account].paid == sum
            && (StatusRank(b'.invoices[account].status) < StatusRank(inv.status) <==>
                inv.paid != 0 && (sum == 0 || sum < inv.amount <= inv.paid || sum == inv.amount < inv.paid))
  {
    LedgerAlways(steps);
    var b := AfterSteps(steps);
    var inv, sum := b.invoices[account], Wrap(b.invoices[account].paid + NewCredits(b.incomings, account, items));
    PaidAfterRun(b, account, items, nextId);
    assert InvoiceOk(b, account);
    RankFallsIff(inv.paid, sum, inv.amount);
  }

  lemma PaidAfterRun(b: Books, account: AccountId, items: seq<Transaction>, nextId: int)
    requires BooksInv(b) && account in b.invoices
    ensures var b', inv := Reconciled(b, account, items, nextId), b.invoices[account];
            && account in b'.invoices
            && b'.invoices[account].paid == Wrap(inv.paid + NewCredits(b.incomings, account, items))
            && b'.invoices[account].status == Class(b'.invoices[account].paid, inv.amount)
  {
    var p, was := Ingested(b, account, items, nextId), MatchedSum(b.incomings, b.invoices[account].id);
    IngestAllKeeps(b, account, items, nextId);
    assert Reconciled(b, account, items, nextId).invoices[account] == p.invoice.value;
    assert b.invoices[account].paid == Wrap(was) by {
      assert InvoiceOk(b, account);
    }
    RunAddsNewCredits(b, account, items, nextId);
    WrapAdds(was, NewCredits(b.incomings, account, items));
  }

  lemma RankFallsIff(paid: int, sum: int, amount: int)
    ensures StatusRank(Class(sum, amount)) < StatusRank(Class(paid, amount)) <==>
            paid != 0 && (sum == 0 || sum < amount <= paid || sum == amount < paid)
  {
  }

  /** For one credit: the status falls exactly if the credit overflows the sum of a paid invoice to its amount or below,
      or brings a sum that had overflowed before back to zero. */
  lemma CreditLowersStatusIff(inv: InvoiceRow, delta: int)
    requires 0 < delta <= MAX_INT64 && -MAX_INT64 - 1 <= inv.paid <= MAX_INT64
    requires inv.status == Class(inv.paid, inv.amount)
    ensures StatusRank(Paid(inv, delta).status) < StatusRank(inv.status) <==>
            || (inv.paid + delta > MAX_INT64 && inv.paid + delta - TWO_64 <= inv.amount <= inv.paid)
            || (inv.paid + delta == 0)
  {
    var sum := inv.paid + delta;
    if sum > MAX_INT64 {
      WrapAdds(sum - TWO_64, 0);
      assert Wrap(sum) == sum - TWO_64;
    } else {
      WrapAdds(sum, 0);
    }
    RankFallsIff(inv.paid, Wrap(sum), inv.amount);
  }

  /** Beyond the range it can: three credits whose sum is 2^64 bring a paid invoice back to open, and the run that adds
      the third publishes nothing. */
  lemma StatusFallsOnOverflow()
    ensures var credits := (n: int) => Some([Transaction("credit", if n < 2 then MAX_INT64 else 2, n)]);
            var before := [Issue(1, 100, 7), Run(7, credits(0), 0, true), Run(7, credits(1), 1, true)];
            var b, b' := AfterSteps(before), AfterSteps(before + [Run(7, credits(2), 2, true)]);
            && 7 in b.invoices && b.invoices[7].status == InvoicePartial
            && 7 in b'.invoices && b'.invoices[7].status == InvoiceOpen
            && |b'.incomings| == |b.incomings| + 1 && b'.events == b.events
  {
    var c0, c1, c2 := Transaction("credit", MAX_INT64, 0), Transaction("credit", MAX_INT64, 1),
        Transaction("credit", 2, 2);
    var s0, s1 := Issue(1, 100, 7), Run(7, Some([c0]), 0, true);
    var s2, s3 := Run(7, Some([c1]), 1, true), Run(7, Some([c2]), 2, true);
    var b0 := Issued(EMPTY_BOOKS, 1, 100, 7);
    assert AfterSteps([s0]) == b0 by { assert [s0][..0] == []; }
    var b1 := AfterOneCredit([s0], b0, 7, c0, 0);
    assert [s0] + [s1] == [s0, s1];
    var b2 := AfterOneCredit([s0, s1], b1, 7, c1, 1);
    assert [s0, s1] + [s2] == [s0, s1, s2];
    var b3 := AfterOneCredit([s0, s1, s2], b2, 7, c2, 2);
    WrappedSums();
  }

  lemma AfterOneCredit(steps: seq<Step>, b: Books, account: AccountId, item: Transaction, nextId: int)
    returns (b': Books)
    requires b == AfterSteps(steps) && account in b.invoices
    requires Ingestible(item) && !Present(b.incomings, account, item.itemKey)
    ensures b' == OneCredit(b, account, item, nextId) == AfterSteps(steps + [Run(account, Some([item]), nextId, true)])
  {
    b' := OneCredit(b, account, item, nextId);
    IngestOne(b, account, item, nextId);
    assert (steps + [Run(account, Some([item]), nextId, true)])[..|steps|] == steps;
  }

  lemma WrappedSums()
    ensures Wrap(0 + MAX_INT64) == MAX_INT64 && Wrap(MAX_INT64 + MAX_INT64) == -2 && Wrap(-2 + 2) == 0
  {
  }

  /** The books after a run over a single new credit. */
  function OneCredit(b: Books, account: AccountId, item: Transaction, nextId: int): Books
    requires account in b.invoices
  {
    var inv := Paid(b.invoices[account], item.amount);
    b.(incomings := b.incomings + [Incoming(nextId, account, item.itemKey, item.amount, Some(inv.id))],
       invoices := b.invoices[account := inv],
       events := b.events + match StatusEvent(inv.status) { case None => [] case Some(kind) => [Telling(kind, inv)] })
  }

  lemma IngestOne(b: Books, account: AccountId, item: Transaction, nextId: int)
    requires account in b.invoices && Ingestible(item) && !Present(b.incomings, account, item.itemKey)
    ensures Reconciled(b, account, [item], nextId) == OneCredit(b, account, item, nextId)
  {
    var p := Progress(b.incomings, InvoiceOf(b, account), nextId, 0);
    assert [item][..0] == [];
    assert IngestAll(p, account, [item]) == Ingest(IngestAll(p, account, [item][..0]), account, item);
    assert Ingested(b, account, [item], nextId) == Ingest(p, account, item);
  }

  /** A committed run publishes exactly when it added a row to an account with an invoice and the 64-bit sum is not
      zero; then one event, which tells the invoice as stored.  In range the sum cannot be zero. */
  lemma PublishesExactly(steps: seq<Step>, account: AccountId, items: seq<Transaction>, nextId: int)
    ensures var b := AfterSteps(steps);
            var b' := Reconciled(b, account, items, nextId);
            var added := |b'.incomings| - |b.incomings|;
            && added >= 0
            && (account in b.invoices && added > 0 && Wrap(MatchedSum(b'.incomings, b.invoices[account].id)) != 0 ==>
                  exists kind :: StatusEvent(b'.invoices[account].status) == Some(kind)
                                 && b'.events == b.events + [Telling(kind, b'.invoices[account])])
            && (account !in b.invoices || added == 0 || Wrap(MatchedSum(b'.incomings, b.invoices[account].id)) == 0 ==>
                  b'.events == b.events)
            && (account in b.invoices && added > 0 && MatchedSum(b'.incomings, b.invoices[account].id) <= MAX_INT64 ==>
                  Wrap(MatchedSum(b'.incomings, b.invoices[account].id)) != 0)
  {
    LedgerAlways(steps);
    var b := AfterSteps(steps);
    IngestAllKeeps(b, account, items, nextId);
    if account in b.invoices {
      var id := b.invoices[account].id;
      var p := Ingested(b, account, items, nextId);
      MatchedSumNonNegative(b.incomings, id);
      WrapAdds(MatchedSum(p.rows, id), 0);
    }
  }

  /** The latest event of an invoice is current: it tells the stored amount, paid amount and status, unless the status
      is one that is never told. */
  lemma LatestEventIsCurrent(steps: seq<Step>, account: AccountId)
    requires account in AfterSteps(steps).invoices
    ensures var b := AfterSteps(steps);
            var inv := b.invoices[account];
            inv.status != InvoiceOpen ==>
              && LastEventFor(b.events, inv.id).Some?
              && LastEventFor(b.events, inv.id).value.payload ==
                  ReconciliationPayload(account, inv.amount, inv.paid, inv.status)
  {
    LedgerAlways(steps);
    assert InvoiceOk(AfterSteps(steps), account);
  }

  // ---------- money that came too early ----------

  function AccountSum(rows: seq<Incoming>, account: AccountId): int {
    if rows == [] then 0
    else
      var last := rows[|rows| - 1];
      AccountSum(rows[..|rows| - 1], account) + if last.account == account then last.amount else 0
  }

  /** Rows of an account that are not matched to the invoice. */
  ghost predicate HasEarlyRow(rows: seq<Incoming>, account: AccountId, issuedAt: nat) {
    exists i :: 0 <= i < |rows| && i < issuedAt && rows[i].account == account
  }

  lemma {:induction false} SumsCompare(rows: seq<Incoming>, account: AccountId, invoice: InvoiceId, issuedAt: nat)
    requires RowsOk(rows)
    requires forall i :: 0 <= i < |rows| ==>
               (rows[i].matched == Some(invoice) <==> rows[i].account == account && i >= issuedAt)
    ensures MatchedSum(rows, invoice) <= AccountSum(rows, account)
    ensures MatchedSum(rows, invoice) == AccountSum(rows, account) <==> !HasEarlyRow(rows, account, issuedAt)
  {
    if rows != [] {
      var front := rows[..|rows| - 1];
      SumsCompare(front, account, invoice, issuedAt);
      EarlyRowLast(rows, account, issuedAt);
    }
  }

  lemma EarlyRowLast(rows: seq<Incoming>, account: AccountId, issuedAt: nat)
    requires rows != []
    ensures var n := |rows| - 1;
            HasEarlyRow(rows, account, issuedAt)
            == (HasEarlyRow(rows[..n], account, issuedAt) || (n < issuedAt && rows[n].account == account))
  {
    var front := rows[..|rows| - 1];
    assert forall i :: 0 <= i < |front| ==> front[i] == rows[i];
    if HasEarlyRow(rows, account, issuedAt) {
      var i :| 0 <= i < |rows| && i < issuedAt && rows[i].account == account;
      assert i == |front| || front[i].account == account;
    }
    if HasEarlyRow(front, account, issuedAt) {
      var i :| 0 <= i < |front| && i < issuedAt && front[i].account == account;
      assert rows[i].account == account;
    }
  }

  /** The invoice counts all money received on its account if and only if no credit had been ingested when it was
      issued; earlier credits are never counted. */
  lemma EarlyMoneyIsLost(steps: seq<Step>, account: AccountId)
    requires account in AfterSteps(steps).invoices
    ensures var b := AfterSteps(steps);
            account in b.issuedAt
            && ((MatchedSum(b.incomings, b.invoices[account].id) == AccountSum(b.incomings, account))
                  <==> !HasEarlyRow(b.incomings, account, b.issuedAt[account]))
  {
    LedgerAlways(steps);
    var b := AfterSteps(steps);
    assert InvoiceOk(b, account);
    SumsCompare(b.incomings, account, b.invoices[account].id, b.issuedAt[account]);
  }

  /** A credit ingested before the invoice is issued stays unmatched: the money is there, the invoice is open. */
  lemma EarlyCreditIsNotCounted(amount: int, id: InvoiceId, account: AccountId, item: Transaction)
    requires item.transactionType == "credit" && item.amount > 0
    ensures var b := AfterSteps([Run(account, Some([item]), 0, true), Issue(id, amount, account)]);
            && account in b.invoices && account in b.issuedAt && b.invoices[account].status == InvoiceOpen
            && HasEarlyRow(b.incomings, account, b.issuedAt[account])
            && MatchedSum(b.incomings, id) == 0 && AccountSum(b.incomings, account) == item.amount
  {
    var s0, s1 := Run(account, Some([item]), 0, true), Issue(id, amount, account);
    var row := Incoming(0, account, item.itemKey, item.amount, None);
    assert [s0, s1][..1] == [s0] && [s0][..0] == [];
    assert IngestAll(Progress([], None, 0, 0), account, [item]) == Progress([row], None, 1, 1) by {
      assert [item][..0] == [] && [] + [row] == [row];
    }
    var b1 := AfterSteps([s0]);
    assert b1 == AfterStep(AfterSteps([]), s0);
    assert AfterSteps([]) == EMPTY_BOOKS;
    assert Ingested(EMPTY_BOOKS, account, [item], 0) == Progress([row], None, 1, 1);
    assert b1 == EMPTY_BOOKS.(incomings := [row]);
    assert [row][..0] == [];
    assert AfterSteps([s0, s1]) == Issued(b1, id, amount, account);
    assert b1.incomings[0].account == account;
  }
}

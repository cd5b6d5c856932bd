/** What one reconcile run makes of a statement, item by item and in plain values. */
module StatementLaws {
  import opened Basics
  import opened Events
  import opened Reconciliation
  import opened ReconciliationLaws

  // ---------- which items count ----------

  /** The incoming payments of a statement, in their order. */
  function Payments(items: seq<Transaction>): seq<Transaction> {
    if items == [] then []
    else
      var front, last := Payments(items[..|items| - 1]), items[|items| - 1];
      if last.transactionType == "credit" && last.amount > 0 then front + [last] else front
  }

  /** A run over a statement is a run over its incoming payments. */
  lemma {:induction false} OnlyPaymentsCount(b: Books, account: AccountId, items: seq<Transaction>, nextId: int)
    ensures Ingested(b, account, items, nextId) == Ingested(b, account, Payments(items), nextId)
    ensures Reconciled(b, account, items, nextId) == Reconciled(b, account, Payments(items), nextId)
  {
    if items != [] {
      var front, last := items[..|items| - 1], items[|items| - 1];
      OnlyPaymentsCount(b, account, front, nextId);
      assert (Payments(front) + [last])[..|Payments(front)|] == Payments(front);
    }
  }

  lemma {:induction false} PaymentsSplit(before: seq<Transaction>, after: seq<Transaction>)
    ensures Payments(before + after) == Payments(before) + Payments(after)
  {
    if after == [] {
      assert before + after == before;
    } else {
      PaymentsSplit(before, after[..|after| - 1]);
      assert (before + after)[..|before + after| - 1] == before + after[..|after| - 1];
    }
  }

  /** An item that is no credit or brings nothing changes no row, no invoice and no event. */
  lemma OtherItemsAreSkipped(b: Books, account: AccountId, before: seq<Transaction>, item: Transaction,
                             after: seq<Transaction>, nextId: int)
    requires item.transactionType != "credit" || item.amount <= 0
    ensures Reconciled(b, account, before + [item] + after, nextId) == Reconciled(b, account, before + after, nextId)
    ensures Reconciled(b, account, [item], nextId) == b
  {
    assert [item][..0] == [];
    assert Payments([item]) == [];
    PaymentsSplit(before, [item]);
    PaymentsSplit(before + [item], after);
    PaymentsSplit(before, after);
    OnlyPaymentsCount(b, account, before + [item] + after, nextId);
    OnlyPaymentsCount(b, account, before + after, nextId);
    OnlyPaymentsCount(b, account, [item], nextId);
  }

  // ---------- what a run leaves ----------

  /** The payments a run takes in: those whose key is neither among the rows of the account nor earlier in the list. */
  function NewPayments(rows: seq<Incoming>, account: AccountId, items: seq<Transaction>): seq<Transaction> {
    if items == [] then []
    else
      var front, last := NewPayments(rows, account, items[..|items| - 1]), items[|items| - 1];
      if && last.transactionType == "credit" && last.amount > 0
         && (forall i :: 0 <= i < |rows| ==> rows[i].account != account || rows[i].itemKey != last.itemKey)
         && (forall i :: 0 <= i < |front| ==> front[i].itemKey != last.itemKey)
      then front + [last] else front
  }

  function Sum(items: seq<Transaction>): int {
    if items == [] then 0 else Sum(items[..|items| - 1]) + items[|items| - 1].amount
  }

  /** The row of a payment, matched to the invoice if there is one. */
  ghost predicate RowIs(row: Incoming, account: AccountId, invoice: Option<InvoiceRow>, item: Transaction) {
    && row.account == account && row.itemKey == item.itemKey && row.amount == item.amount
    && row.matched == if invoice.Some? then Some(invoice.value.id) else None
  }

  /** The new rows are those of the new payments, in order, under fresh ids. */
  ghost predicate RowsAre(rows: seq<Incoming>, account: AccountId, invoice: Option<InvoiceRow>, taken: seq<Transaction>,
                          rows': seq<Incoming>, nextId: int) {
    && |rows'| == |rows| + |taken| && rows'[..|rows|] == rows
    && (forall i :: |rows| <= i < |rows'| ==> RowIs(rows'[i], account, invoice, taken[i - |rows|]))
    && (forall i :: |rows| <= i < |rows'| ==> rows'[i].id >= nextId)
    && (forall i, j :: |rows| <= i < j < |rows'| ==> rows'[i].id < rows'[j].id)
  }

  /** The paid amount is the old one and the new payments in 64 bits; nothing else but the status moves with it. */
  ghost predicate InvoiceIs(was: InvoiceRow, sum: int, inv: InvoiceRow) {
    && inv.id == was.id && inv.amount == was.amount && inv.account == was.account
    && -0x8000_0000_0000_0000 <= inv.paid <= 0x7fff_ffff_ffff_ffff
    && (inv.paid - (was.paid + sum)) % 0x1_0000_0000_0000_0000 == 0
    && inv.status == (if inv.paid == 0 then InvoiceOpen else if inv.paid < inv.amount then InvoicePartial
                      else if inv.paid == inv.amount then InvoiceCleared else InvoiceExcess)
  }

  ghost predicate Taken(b: Books, account: AccountId, taken: seq<Transaction>, nextId: int, p: Progress) {
    && p.added == |taken| && p.nextId >= nextId
    && RowsAre(b.incomings, account, InvoiceOf(b, account), taken, p.rows, nextId)
    && (forall i :: |b.incomings| <= i < |p.rows| ==> p.rows[i].id < p.nextId)
    && InvoiceFollows(InvoiceOf(b, account), taken, p.invoice)
  }

  ghost predicate InvoiceFollows(was: Option<InvoiceRow>, taken: seq<Transaction>, inv: Option<InvoiceRow>) {
    if was.None? || taken == [] then inv == was
    else inv.Some? && InvoiceIs(was.value, Sum(taken), inv.value)
  }

  /** A key is known if an old row or a payment taken in has it. */
  lemma PresentIff(b: Books, account: AccountId, taken: seq<Transaction>, nextId: int, p: Progress, itemKey: int)
    requires Taken(b, account, taken, nextId, p)
    ensures !Present(p.rows, account, itemKey) <==>
              && (forall i :: 0 <= i < |b.incomings| ==>
                    b.incomings[i].account != account || b.incomings[i].itemKey != itemKey)
              && (forall i :: 0 <= i < |taken| ==> taken[i].itemKey != itemKey)
  {
    var n := |b.incomings|;
    assert forall i :: 0 <= i < n ==> p.rows[i] == p.rows[..n][i];
    forall i | 0 <= i < |taken|
      ensures RowIs(p.rows[n + i], account, InvoiceOf(b, account), taken[i])
    {
      assert taken[n + i - n] == taken[i];
    }
  }

  lemma PaidAgain(was: InvoiceRow, sum: int, inv: InvoiceRow, delta: int)
    requires (inv == was && sum == 0) || InvoiceIs(was, sum, inv)
    ensures InvoiceIs(was, sum + delta, Paid(inv, delta))
  {
  }

  lemma InvoiceFollowsOn(was: Option<InvoiceRow>, taken: seq<Transaction>, inv: Option<InvoiceRow>, item: Transaction)
    requires InvoiceFollows(was, taken, inv)
    ensures InvoiceFollows(was, taken + [item], if inv.Some? then Some(Paid(inv.value, item.amount)) else None)
    ensures was.Some? <==> inv.Some?
    ensures was.Some? ==> was.value.id == inv.value.id
  {
    assert (taken + [item])[..|taken|] == taken;
    assert Sum(taken + [item]) == Sum(taken) + item.amount;
    if was.Some? {
      PaidAgain(was.value, Sum(taken), inv.value, item.amount);
    }
  }

  lemma RowsGrow(rows: seq<Incoming>, account: AccountId, invoice: Option<InvoiceRow>, taken: seq<Transaction>,
                 rows': seq<Incoming>, nextId: int, item: Transaction, row: Incoming)
    requires RowsAre(rows, account, invoice, taken, rows', nextId) && RowIs(row, account, invoice, item)
    requires row.id >= nextId && forall i :: |rows| <= i < |rows'| ==> rows'[i].id < row.id
    ensures RowsAre(rows, account, invoice, taken + [item], rows' + [row], nextId)
  {
    assert (rows' + [row])[..|rows|] == rows'[..|rows|];
  }

  lemma TakeOne(b: Books, account: AccountId, taken: seq<Transaction>, nextId: int, p: Progress, item: Transaction)
    requires Taken(b, account, taken, nextId, p)
    requires item.transactionType == "credit" && item.amount > 0 && !Present(p.rows, account, item.itemKey)
    ensures Taken(b, account, taken + [item], nextId, Ingest(p, account, item))
  {
    var invoice := InvoiceOf(b, account);
    InvoiceFollowsOn(invoice, taken, p.invoice, item);
    var row := Incoming(p.nextId, account, item.itemKey, item.amount,
                        if invoice.Some? then Some(invoice.value.id) else None);
    RowsGrow(b.incomings, account, invoice, taken, p.rows, nextId, item, row);
    assert Ingest(p, account, item).rows == p.rows + [row];
  }

  lemma {:induction false} AllTaken(b: Books, account: AccountId, items: seq<Transaction>, nextId: int)
    ensures Taken(b, account, NewPayments(b.incomings, account, items), nextId, Ingested(b, account, items, nextId))
  {
    if items == [] {
      assert b.incomings[..|b.incomings|] == b.incomings;
    } else {
      var front, last := items[..|items| - 1], items[|items| - 1];
      AllTaken(b, account, front, nextId);
      var p, taken := Ingested(b, account, front, nextId), NewPayments(b.incomings, account, front);
      PresentIff(b, account, taken, nextId, p, last.itemKey);
      if last.transactionType == "credit" && last.amount > 0 && !Present(p.rows, account, last.itemKey) {
        TakeOne(b, account, taken, nextId, p, last);
      }
    }
  }

  /** A committed run in plain values: one row per new payment, in order, matched to the account's invoice; the invoice
      grows by their sum; one event of the new status tells it, or none if the sum wrapped to zero; and without a new
      payment or without an invoice no invoice and no event changes. */
  lemma RunInPlainValues(b: Books, account: AccountId, items: seq<Transaction>, nextId: int)
    ensures var b', taken := Reconciled(b, account, items, nextId), NewPayments(b.incomings, account, items);
            && RowsAre(b.incomings, account, InvoiceOf(b, account), taken, b'.incomings, nextId)
            && b'.issuedAt == b.issuedAt
            && (account !in b.invoices || taken == [] ==> b'.invoices == b.invoices && b'.events == b.events)
            && (account in b.invoices && taken != [] ==>
                  && account in b'.invoices && b'.invoices == b.invoices[account := b'.invoices[account]]
                  && InvoiceIs(b.invoices[account], Sum(taken), b'.invoices[account])
                  && var inv := b'.invoices[account];
                     var told := ReconciliationPayload(inv.account, inv.amount, inv.paid, inv.status);
                     b'.events == b.events + match inv.status {
                       case InvoiceOpen => []
                       case InvoicePartial => [Event(EventType.ReconciliationPartial, inv.id, told)]
                       case InvoiceCleared => [Event(EventType.ReconciliationCompleted, inv.id, told)]
                       case InvoiceExcess => [Event(EventType.ReconciliationExcess, inv.id, told)]
                     })
  {
    AllTaken(b, account, items, nextId);
  }
}

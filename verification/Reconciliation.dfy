/** Reconciliation: bank statements are ingested into the incoming-transactions table, and the invoice of the virtual
    account follows.  Amounts are 64-bit and wrap as the program's do. */
module Reconciliation {
  import opened Basics
  import opened Events

  type InvoiceId = int
  type AccountId = int

  const TWO_64 := 0x1_0000_0000_0000_0000

  function Wrap(x: int): int {
    (x + MAX_INT64 + 1) % TWO_64 - MAX_INT64 - 1
  }

  lemma WrapAdds(a: int, b: int)
    ensures Wrap(Wrap(a) + b) == Wrap(a + b)
    ensures -MAX_INT64 - 1 <= Wrap(a) <= MAX_INT64
    ensures -MAX_INT64 - 1 <= a <= MAX_INT64 ==> Wrap(a) == a
  {
  }

  // ---------- invoices ----------

  datatype InvoiceRow = InvoiceRow(id: InvoiceId, amount: int, account: AccountId, status: InvoiceStatus, paid: int)

  function Class(paid: int, amount: int): InvoiceStatus {
    if paid == 0 then InvoiceOpen
    else if paid < amount then InvoicePartial
    else if paid == amount then InvoiceCleared
    else InvoiceExcess
  }

  function StatusRank(s: InvoiceStatus): nat {
    match s
    case InvoiceOpen => 0
    case InvoicePartial => 1
    case InvoiceCleared => 2
    case InvoiceExcess => 3
  }

  function Paid(inv: InvoiceRow, delta: int): InvoiceRow {
    var paid := Wrap(inv.paid + delta);
    inv.(paid := paid, status := Class(paid, inv.amount))
  }

  class Invoice {
    const id: InvoiceId
    const amount: int
    const account: AccountId
    var status: InvoiceStatus
    var paid: int

    function Row(): InvoiceRow
      reads this
    {
      InvoiceRow(id, amount, account, status, paid)
    }

    constructor FromRow(row: InvoiceRow)
      ensures Row() == row
    {
      id, amount, account, status, paid := row.id, row.amount, row.account, row.status, row.paid;
    }

    method Apply(delta: int)
      modifies this`status, this`paid
      ensures Row() == Paid(old(Row()), delta)
      ensures (paid - (old(paid) + delta)) % 0x1_0000_0000_0000_0000 == 0
              && -0x8000_0000_0000_0000 <= paid <= 0x7fff_ffff_ffff_ffff
      ensures status == (if paid == 0 then InvoiceOpen else if paid < amount then InvoicePartial
                         else if paid == amount then InvoiceCleared else InvoiceExcess)
    {
      paid := Wrap(paid + delta);
      if paid == 0 {
        status := InvoiceOpen;
      } else if paid < amount {
        status := InvoicePartial;
      } else if paid == amount {
        status := InvoiceCleared;
      } else {
        status := InvoiceExcess;
      }
    }
  }

  // ---------- tables ----------

  datatype Transaction = Transaction(transactionType: string, amount: int, itemKey: int)

  datatype Incoming = Incoming(id: int, account: AccountId, itemKey: int, amount: int, matched: Option<InvoiceId>)

  /** The incoming table in insertion order, and the published reconciliation events, oldest first.
      `issuedAt` is auxiliary: how many incoming rows there were when the invoice of an account was issued. */
  datatype Books = Books(
    invoices: map<AccountId, InvoiceRow>,
    incomings: seq<Incoming>,
    events: seq<Event>,
    issuedAt: map<AccountId, nat>)

  const EMPTY_BOOKS := Books(map[], [], [], map[])

  predicate Ingestible(item: Transaction) {
    item.transactionType == "credit" && item.amount > 0
  }

  /** (virtual_account_id, item_key) is unique. */
  predicate Present(rows: seq<Incoming>, account: AccountId, itemKey: int) {
    exists i :: 0 <= i < |rows| && rows[i].account == account && rows[i].itemKey == itemKey
  }

  /** UpdateMatchedInvoice: every row with that id. */
  function MarkMatched(rows: seq<Incoming>, id: int, invoice: InvoiceId): seq<Incoming> {
    if rows == [] then []
    else
      var last := rows[|rows| - 1];
      MarkMatched(rows[..|rows| - 1], id, invoice) + [if last.id == id then last.(matched := Some(invoice)) else last]
  }

  // ---------- one run ----------

  datatype Progress = Progress(rows: seq<Incoming>, invoice: Option<InvoiceRow>, nextId: int, added: nat)

  function Ingest(p: Progress, account: AccountId, item: Transaction): Progress {
    if !Ingestible(item) then p
    else if Present(p.rows, account, item.itemKey) then p.(nextId := p.nextId + 1)
    else
      var row := Incoming(p.nextId, account, item.itemKey, item.amount, None);
      match p.invoice
      case None => Progress(p.rows + [row], None, p.nextId + 1, p.added + 1)
      case Some(inv) =>
        Progress(p.rows + [row.(matched := Some(inv.id))], Some(Paid(inv, item.amount)), p.nextId + 1, p.added + 1)
  }

  function IngestAll(p: Progress, account: AccountId, items: seq<Transaction>): Progress {
    if items == [] then p
    else Ingest(IngestAll(p, account, items[..|items| - 1]), account, items[|items| - 1])
  }

  function StatusEvent(s: InvoiceStatus): Option<EventType> {
    match s
    case InvoiceCleared => Some(ReconciliationCompleted)
    case InvoiceExcess => Some(EventType.ReconciliationExcess)
    case InvoicePartial => Some(ReconciliationPartial)
    case InvoiceOpen => None
  }

  /** The event that tells the state of an invoice. */
  function Telling(kind: EventType, inv: InvoiceRow): Event {
    Event(kind, inv.id, ReconciliationPayload(inv.account, inv.amount, inv.paid, inv.status))
  }

  function InvoiceOf(b: Books, account: AccountId): Option<InvoiceRow> {
    if account in b.invoices then Some(b.invoices[account]) else None
  }

  function Ingested(b: Books, account: AccountId, items: seq<Transaction>, nextId: int): Progress {
    IngestAll(Progress(b.incomings, InvoiceOf(b, account), nextId, 0), account, items)
  }

  /** The books after a run whose transaction commits. */
  function Reconciled(b: Books, account: AccountId, items: seq<Transaction>, nextId: int): Books {
    var p := Ingested(b, account, items, nextId);
    if p.invoice.None? || p.added == 0 then b.(incomings := p.rows)
    else
      var inv := p.invoice.value;
      b.(incomings := p.rows, invoices := b.invoices[account := inv],
         events := b.events + match StatusEvent(inv.status) { case None => [] case Some(kind) => [Telling(kind, inv)] })
  }

  /** The service, with the tables of the running transaction apart from the committed ones. */
  class ReconcileService {
    var books: Books
    var tx: Books
    var nextId: int  // the id generator; ids are not given back on rollback

    ghost predicate Valid()
      reads this
    {
      forall i :: 0 <= i < |books.incomings| ==> books.incomings[i].id < nextId
    }

    constructor ()
      ensures Valid() && books == EMPTY_BOOKS
    {
      books, tx, nextId := EMPTY_BOOKS, EMPTY_BOOKS, 0;
    }

    /** IssueInvoiceUseCase: refused if the account already has an invoice. */
    method Issue(id: InvoiceId, amount: int, account: AccountId) returns (ok: bool)
      requires Valid()
      modifies this`books
      ensures Valid()
      ensures ok == (account !in old(books).invoices && forall a :: a in old(books).invoices ==>
                     old(books).invoices[a].id != id)
      ensures books == if ok then Issued(old(books), id, amount, account) else old(books)
      ensures ok ==> books.invoices == old(books).invoices[account := InvoiceRow(id, amount, account, InvoiceOpen, 0)]
                     && books.incomings == old(books).incomings && books.events == old(books).events
    {
      ok := account !in books.invoices && forall a :: a in books.invoices ==> books.invoices[a].id != id;
      if ok {
        books := Issued(books, id, amount, account);
      }
    }

    method InsertIfNotExists(row: Incoming) returns (inserted: bool)
      requires forall i :: 0 <= i < |tx.incomings| ==> tx.incomings[i].id != row.id
      modifies this`tx
      ensures inserted == !Present(old(tx).incomings, row.account, row.itemKey)
      ensures tx == if inserted then old(tx).(incomings := old(tx).incomings + [row]) else old(tx)
    {
      inserted := !Present(tx.incomings, row.account, row.itemKey);
      if inserted {
        tx := tx.(incomings := tx.incomings + [row]);
      }
    }

    method ApplyIncomings(account: AccountId, items: seq<Transaction>, inv: Invoice?) returns (added: nat)
      requires Valid() && tx == books
      requires inv != null ==> Some(inv.Row()) == InvoiceOf(books, account)
      requires inv == null ==> account !in books.invoices
      modifies this`tx, this`nextId, inv
      ensures Valid()
      ensures var p := Ingested(books, account, items, old(nextId));
              && tx == books.(incomings := p.rows) && nextId == p.nextId && added == p.added
              && p.invoice == if inv == null then None else Some(inv.Row())
    {
      added := 0;
      for i := 0 to |items|
        invariant var p := Ingested(books, account, items[..i], old(nextId));
                  && tx == books.(incomings := p.rows) && nextId == p.nextId && added == p.added
                  && p.invoice == if inv == null then None else Some(inv.Row())
        invariant forall j :: 0 <= j < |tx.incomings| ==> tx.incomings[j].id < nextId
        invariant nextId >= old(nextId)
      {
        assert items[..i + 1][..i] == items[..i];
        var item := items[i];
        if item.transactionType != "credit" || item.amount <= 0 {
          continue;
        }
        var id := nextId;
        nextId := nextId + 1;
        ghost var rows := tx.incomings;
        var inserted := InsertIfNotExists(Incoming(id, account, item.itemKey, item.amount, None));
        if !inserted {
          continue;
        }
        added := added + 1;
        if inv == null {
          continue;
        }
        inv.Apply(item.amount);
        MarksOnlyTheNewRow(rows, tx.incomings[|tx.incomings| - 1], inv.id);
        tx := tx.(incomings := MarkMatched(tx.incomings, id, inv.id));
      }
      assert items[..|items|] == items;
    }

    /** One run: list the statement, then ingest, update and publish in one transaction. */
    method Execute(account: AccountId, list: Option<seq<Transaction>>, commits: bool) returns (ok: bool)
      requires Valid()
      modifies this
      ensures Valid()
      ensures ok == (list.Some? && commits)
      ensures books == if ok then Reconciled(old(books), account, list.value, old(nextId)) else old(books)
    {
      if list.None? {
        return false;
      }
      tx := books;
      var inv: Invoice? := null;
      if account in books.invoices {
        inv := new Invoice.FromRow(books.invoices[account]);
      }
      var added := ApplyIncomings(account, list.value, inv);
      if inv != null && added != 0 {
        tx := tx.(invoices := tx.invoices[account := inv.Row()]);
        var kind := StatusEvent(inv.status);
        if kind.Some? {
          tx := tx.(events := tx.events + [Telling(kind.value, inv.Row())]);
        }
      }
      if commits {
        IdsStayBelow(books, account, list.value, old(nextId));
        books := tx;
      }
      ok := commits;
    }
  }

  function Issued(b: Books, id: InvoiceId, amount: int, account: AccountId): Books {
    b.(invoices := b.invoices[account := InvoiceRow(id, amount, account, InvoiceOpen, 0)],
       issuedAt := b.issuedAt[account := |b.incomings|])
  }

  lemma {:induction false} MarksOnlyTheNewRow(rows: seq<Incoming>, row: Incoming, invoice: InvoiceId)
    requires forall i :: 0 <= i < |rows| ==> rows[i].id != row.id
    ensures MarkMatched(rows + [row], row.id, invoice) == rows + [row.(matched := Some(invoice))]
  {
    assert (rows + [row])[..|rows|] == rows;
    MarksNothing(rows, row.id, invoice);
  }

  lemma {:induction false} MarksNothing(rows: seq<Incoming>, id: int, invoice: InvoiceId)
    requires forall i :: 0 <= i < |rows| ==> rows[i].id != id
    ensures MarkMatched(rows, id, invoice) == rows
  {
    if rows != [] {
      MarksNothing(rows[..|rows| - 1], id, invoice);
      assert rows == rows[..|rows| - 1] + [rows[|rows| - 1]];
    }
  }

  lemma {:induction false} IdsStayBelow(b: Books, account: AccountId, items: seq<Transaction>, nextId: int)
    requires forall i :: 0 <= i < |b.incomings| ==> b.incomings[i].id < nextId
    ensures var p := Ingested(b, account, items, nextId);
            p.nextId >= nextId && forall i :: 0 <= i < |p.rows| ==> p.rows[i].id < p.nextId
  {
    if items != [] {
      IdsStayBelow(b, account, items[..|items| - 1], nextId);
    }
  }
}

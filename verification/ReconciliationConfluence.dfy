/** Reconcile confluence: how statement items are split over runs, reordered, repeated or overlapped does not matter. */
module ReconciliationConfluence {
  import opened Basics
  import opened Reconciliation
  import opened ReconciliationLaws

  function Keys(rows: seq<Incoming>, account: AccountId): set<int> {
    set i | 0 <= i < |rows| && rows[i].account == account :: rows[i].itemKey
  }

  function CreditKeys(items: seq<Transaction>): set<int> {
    set i | 0 <= i < |items| && Ingestible(items[i]) :: items[i].itemKey
  }

  /** Every credit with the same item key carries the same amount. */
  ghost predicate Consistent(items: seq<Transaction>, amounts: map<int, int>) {
    forall i :: 0 <= i < |items| && Ingestible(items[i]) ==>
      items[i].itemKey in amounts && amounts[items[i].itemKey] == items[i].amount
  }

  function AmountOf(amounts: map<int, int>, key: int): int {
    if key in amounts then amounts[key] else 0
  }

  ghost function SumOver(keys: set<int>, amounts: map<int, int>): int {
    if keys == {} then 0
    else
      var k := Pick(keys);
      SumOver(keys - {k}, amounts) + AmountOf(amounts, k)
  }

  lemma {:induction false} SumOverInsert(keys: set<int>, k: int, amounts: map<int, int>)
    requires k !in keys
    ensures SumOver(keys + {k}, amounts) == SumOver(keys, amounts) + AmountOf(amounts, k)
    decreases |keys|
  {
    var all := keys + {k};
    var j := Pick(all);
    if j == k {
      assert all - {k} == keys;
    } else {
      assert all - {j} == (keys - {j}) + {k};
      SumOverInsert(keys - {j}, k, amounts);
      SumOverInsert(keys - {j}, j, amounts);
      assert (keys - {j}) + {j} == keys;
    }
  }

  lemma {:induction false} SumOverUnion(a: set<int>, b: set<int>, amounts: map<int, int>)
    requires a !! b
    ensures SumOver(a + b, amounts) == SumOver(a, amounts) + SumOver(b, amounts)
    decreases |b|
  {
    if b == {} {
      assert a + b == a;
    } else {
      var k := Pick(b);
      SumOverUnion(a, b - {k}, amounts);
      SumOverInsert(a + (b - {k}), k, amounts);
      SumOverInsert(b - {k}, k, amounts);
      assert a + (b - {k}) + {k} == a + b && (b - {k}) + {k} == b;
    }
  }

  /** What a run adds is decided by the set of credit keys alone. */
  ghost predicate Summed(b: Books, account: AccountId, rows: seq<Incoming>, keys: set<int>, amounts: map<int, int>)
    requires account in b.invoices
  {
    && Keys(rows, account) == Keys(b.incomings, account) + keys
    && MatchedSum(rows, b.invoices[account].id)
         == MatchedSum(b.incomings, b.invoices[account].id) + SumOver(keys - Keys(b.incomings, account), amounts)
  }

  lemma KeysAppend(rows: seq<Incoming>, row: Incoming, account: AccountId)
    ensures Keys(rows + [row], account) == Keys(rows, account) + if row.account == account then {row.itemKey} else {}
  {
    var more := rows + [row];
    assert more[|rows|] == row;
    assert forall i :: 0 <= i < |rows| ==> more[i] == rows[i];
    forall k | k in Keys(rows, account)
      ensures k in Keys(more, account)
    {
      var i :| 0 <= i < |rows| && rows[i].account == account && rows[i].itemKey == k;
      assert more[i].itemKey == k;
    }
  }

  lemma CreditKeysAppend(items: seq<Transaction>, item: Transaction)
    ensures CreditKeys(items + [item]) == CreditKeys(items) + if Ingestible(item) then {item.itemKey} else {}
  {
    var more := items + [item];
    assert more[|items|] == item;
    forall k | k in CreditKeys(items)
      ensures k in CreditKeys(more)
    {
      var i :| 0 <= i < |items| && Ingestible(items[i]) && items[i].itemKey == k;
      assert more[i] == items[i];
    }
  }

  lemma PresentIffKey(rows: seq<Incoming>, account: AccountId, key: int)
    ensures Present(rows, account, key) <==> key in Keys(rows, account)
  {
  }

  lemma ItemSums(b: Books, account: AccountId, p: Progress, keys: set<int>, item: Transaction, amounts: map<int, int>)
    requires account in b.invoices && p.invoice.Some? && p.invoice.value.id == b.invoices[account].id
    requires Summed(b, account, p.rows, keys, amounts)
    requires Ingestible(item) ==> AmountOf(amounts, item.itemKey) == item.amount
    ensures Summed(b, account, Ingest(p, account, item).rows, keys + if Ingestible(item) then {item.itemKey} else {},
                   amounts)
  {
    var k0 := Keys(b.incomings, account);
    PresentIffKey(p.rows, account, item.itemKey);
    if !Ingestible(item) {
      assert keys + {} == keys;
    } else if Present(p.rows, account, item.itemKey) {
      assert (keys + {item.itemKey}) - k0 == keys - k0;
      assert k0 + (keys + {item.itemKey}) == k0 + keys;
    } else {
      var row := Incoming(p.nextId, account, item.itemKey, item.amount, Some(p.invoice.value.id));
      KeysAppend(p.rows, row, account);
      SumOverInsert(keys - k0, item.itemKey, amounts);
      assert (keys + {item.itemKey}) - k0 == (keys - k0) + {item.itemKey};
      assert k0 + (keys + {item.itemKey}) == (k0 + keys) + {item.itemKey};
      assert (p.rows + [row])[..|p.rows|] == p.rows;
    }
  }

  lemma {:induction false} RunSums(b: Books, account: AccountId, items: seq<Transaction>, nextId: int,
                                   amounts: map<int, int>)
    requires BooksInv(b) && account in b.invoices && Consistent(items, amounts)
    ensures Summed(b, account, Ingested(b, account, items, nextId).rows, CreditKeys(items), amounts)
  {
    if items == [] {
      assert CreditKeys(items) == {} && {} - Keys(b.incomings, account) == {};
    } else {
      var front, item := items[..|items| - 1], items[|items| - 1];
      assert items == front + [item];
      assert forall i :: 0 <= i < |front| ==> front[i] == items[i];
      RunSums(b, account, front, nextId, amounts);
      CreditKeysAppend(front, item);
      IngestAllKeeps(b, account, front, nextId);
      ItemSums(b, account, Ingested(b, account, front, nextId), CreditKeys(front), item, amounts);
    }
  }

  // ---------- several runs ----------

  /** Serial committed runs of one account. */
  function RunAll(b: Books, account: AccountId, runs: seq<seq<Transaction>>, nextId: int): Books
    decreases |runs|
  {
    if runs == [] then b
    else RunAll(Reconciled(b, account, runs[0], nextId), account, runs[1..],
                Ingested(b, account, runs[0], nextId).nextId)
  }

  function AllCredits(runs: seq<seq<Transaction>>): set<int> {
    if runs == [] then {} else CreditKeys(runs[0]) + AllCredits(runs[1..])
  }

  lemma SumsChain(k0: set<int>, first: set<int>, rest: set<int>, amounts: map<int, int>)
    ensures SumOver(first - k0, amounts) + SumOver(rest - (k0 + first), amounts) ==
        SumOver((first + rest) - k0, amounts)
    ensures k0 + first + rest == k0 + (first + rest)
  {
    SumOverUnion(first - k0, rest - (k0 + first), amounts);
    assert (first - k0) + (rest - (k0 + first)) == (first + rest) - k0;
  }

  lemma {:induction false} RunsSum(b: Books, account: AccountId, runs: seq<seq<Transaction>>, nextId: int,
                                   amounts: map<int, int>)
    requires BooksInv(b) && account in b.invoices
    requires forall i :: 0 <= i < |runs| ==> Consistent(runs[i], amounts)
    ensures var b' := RunAll(b, account, runs, nextId);
            && BooksInv(b') && account in b'.invoices
            && b'.invoices[account].id == b.invoices[account].id
            && b'.invoices[account].amount == b.invoices[account].amount
            && Summed(b, account, b'.incomings, AllCredits(runs), amounts) && InvoiceOk(b', account)
    decreases |runs|
  {
    var k0 := Keys(b.incomings, account);
    if runs == [] {
      assert {} - k0 == {};
      assert InvoiceOk(b, account);
    } else {
      var b1 := Reconciled(b, account, runs[0], nextId);
      ReconciledKeeps(b, account, runs[0], nextId);
      IngestAllKeeps(b, account, runs[0], nextId);
      RunSums(b, account, runs[0], nextId, amounts);
      RunsSum(b1, account, runs[1..], Ingested(b, account, runs[0], nextId).nextId, amounts);
      SumsChain(k0, CreditKeys(runs[0]), AllCredits(runs[1..]), amounts);
    }
  }

  /** The invoice and the ingested keys after any runs, as a function of the set of credit keys. */
  ghost predicate Outcome(b: Books, b': Books, account: AccountId, keys: set<int>, amounts: map<int, int>)
    requires account in b.invoices
  {
    var was := b.invoices[account];
    var paid := Wrap(MatchedSum(b.incomings, was.id) + SumOver(keys - Keys(b.incomings, account), amounts));
    && account in b'.invoices
    && b'.invoices[account] == InvoiceRow(was.id, was.amount, account, Class(paid, was.amount), paid)
    && Keys(b'.incomings, account) == Keys(b.incomings, account) + keys
  }

  lemma RunsOutcome(b: Books, account: AccountId, runs: seq<seq<Transaction>>, nextId: int, amounts: map<int, int>)
    requires BooksInv(b) && account in b.invoices
    requires forall i :: 0 <= i < |runs| ==> Consistent(runs[i], amounts)
    ensures Outcome(b, RunAll(b, account, runs, nextId), account, AllCredits(runs), amounts)
  {
    RunsSum(b, account, runs, nextId, amounts);
  }

  /** Confluence: two ways of running over statements with the same set of credit keys, one amount per key, end with the
      same paid amount, status and ingested keys; in particular any split, order, duplication or overlap ends like one
      run over the union. */
  lemma Confluence(steps: seq<Step>, account: AccountId, runs1: seq<seq<Transaction>>, runs2: seq<seq<Transaction>>,
                   nextId: int, amounts: map<int, int>)
    requires account in AfterSteps(steps).invoices
    requires forall i :: 0 <= i < |runs1| ==> Consistent(runs1[i], amounts)
    requires forall i :: 0 <= i < |runs2| ==> Consistent(runs2[i], amounts)
    requires AllCredits(runs1) == AllCredits(runs2)
    ensures var b := AfterSteps(steps);
            var b1, b2 := RunAll(b, account, runs1, nextId), RunAll(b, account, runs2, nextId);
            && account in b1.invoices && account in b2.invoices && b1.invoices[account] == b2.invoices[account]
            && Keys(b1.incomings, account) == Keys(b2.incomings, account)
  {
    LedgerAlways(steps);
    RunsOutcome(AfterSteps(steps), account, runs1, nextId, amounts);
    RunsOutcome(AfterSteps(steps), account, runs2, nextId, amounts);
  }

  function Concatenated(runs: seq<seq<Transaction>>): seq<Transaction> {
    if runs == [] then [] else runs[0] + Concatenated(runs[1..])
  }

  lemma {:induction false} CreditKeysConcat(a: seq<Transaction>, b: seq<Transaction>)
    ensures CreditKeys(a + b) == CreditKeys(a) + CreditKeys(b)
  {
    if b == [] {
      assert a + b == a;
    } else {
      var front, item := b[..|b| - 1], b[|b| - 1];
      CreditKeysConcat(a, front);
      CreditKeysAppend(a + front, item);
      CreditKeysAppend(front, item);
      assert a + front + [item] == a + b && front + [item] == b;
    }
  }

  lemma {:induction false} ConcatenationHasAllCredits(runs: seq<seq<Transaction>>, amounts: map<int, int>)
    requires forall i :: 0 <= i < |runs| ==> Consistent(runs[i], amounts)
    ensures CreditKeys(Concatenated(runs)) == AllCredits(runs) && Consistent(Concatenated(runs), amounts)
    decreases |runs|
  {
    if runs != [] {
      ConcatenationHasAllCredits(runs[1..], amounts);
      CreditKeysConcat(runs[0], Concatenated(runs[1..]));
    }
  }

  /** Any number of runs ends like one run over all their items. */
  lemma LikeOneRun(steps: seq<Step>, account: AccountId, runs: seq<seq<Transaction>>, nextId: int,
                   amounts: map<int, int>)
    requires account in AfterSteps(steps).invoices
    requires forall i :: 0 <= i < |runs| ==> Consistent(runs[i], amounts)
    ensures var b := AfterSteps(steps);
            var b1, b2 := RunAll(b, account, runs, nextId), Reconciled(b, account, Concatenated(runs), nextId);
            && account in b1.invoices && account in b2.invoices && b1.invoices[account] == b2.invoices[account]
            && Keys(b1.incomings, account) == Keys(b2.incomings, account)
  {
    ConcatenationHasAllCredits(runs, amounts);
    var one := [Concatenated(runs)];
    assert one[1..] == [] && AllCredits(one) == CreditKeys(one[0]) + {};
    Confluence(steps, account, runs, one, nextId, amounts);
  }
}

// From the workbench page to the ledger: the form a page submits, and when the ledger takes it.

module WorkbenchSubmission {
  import opened Common
  import opened LedgerModel
  import opened Settlements
  import opened Workbench

  predicate Named(rows: seq<Row>) {
    && (forall k :: 0 <= k < |rows| ==> rows[k].id.Some?)
    && (forall j, k :: 0 <= j < k < |rows| ==> rows[j].id != rows[k].id)
  }

  // Rows with nothing to allocate are disabled, so the form does not carry them.
  function Lines(invoice: Id, rows: seq<Row>, amounts: seq<int>): seq<Allocation>
    requires |rows| == |amounts| && Named(rows)
  {
    if rows == [] then []
    else
      var n := |rows| - 1;
      Lines(invoice, rows[..n], amounts[..n])
      + (if amounts[n] != 0 then [Allocation(invoice, rows[n].id.value, amounts[n])] else [])
  }

  function ExpectedMoney(rows: seq<Row>, amounts: seq<int>): map<Id, int>
    requires |rows| == |amounts| && Named(rows)
  {
    if rows == [] then map[]
    else
      var n := |rows| - 1;
      var front := ExpectedMoney(rows[..n], amounts[..n]);
      if amounts[n] != 0 then front[rows[n].id.value := rows[n].available] else front
  }

  function DirectionFor(d: InvoiceDirection): Direction {
    match d case Input => PurchasePayment case Output => SalesReceipt
  }

  function Request(
    direction: Direction, invoice: Id, invoiceOpen: int, rows: seq<Row>, amounts: seq<int>, partialChecked: bool): CreateRequest
    requires |rows| == |amounts| && Named(rows)
  {
    CreateRequest(
      direction, Direct, None, Lines(invoice, rows, amounts),
      Some(map[invoice := invoiceOpen]), Some(ExpectedMoney(rows, amounts)), partialChecked)
  }

  lemma {:induction false} LinesAreRows(invoice: Id, rows: seq<Row>, amounts: seq<int>)
    requires |rows| == |amounts| && Named(rows)
    ensures forall a :: a in Lines(invoice, rows, amounts) ==>
              exists k :: 0 <= k < |rows| && amounts[k] != 0 && a == Allocation(invoice, rows[k].id.value, amounts[k])
    ensures forall k :: 0 <= k < |rows| && amounts[k] != 0 ==>
              Allocation(invoice, rows[k].id.value, amounts[k]) in Lines(invoice, rows, amounts)
  {
    if rows != [] {
      var n := |rows| - 1;
      LinesAreRows(invoice, rows[..n], amounts[..n]);
      forall a | a in Lines(invoice, rows[..n], amounts[..n])
        ensures exists k :: 0 <= k < |rows| && amounts[k] != 0 && a == Allocation(invoice, rows[k].id.value, amounts[k])
      {
        var k :| 0 <= k < n && amounts[..n][k] != 0 && a == Allocation(invoice, rows[..n][k].id.value, amounts[..n][k]);
        assert amounts[k] != 0 && a == Allocation(invoice, rows[k].id.value, amounts[k]);
      }
      forall k | 0 <= k < n && amounts[k] != 0
        ensures Allocation(invoice, rows[k].id.value, amounts[k]) in Lines(invoice, rows, amounts)
      {
        assert amounts[..n][k] == amounts[k] && rows[..n][k] == rows[k];
      }
    }
  }

  // Asking with one row more.
  lemma LinesOneMore(invoice: Id, rows: seq<Row>, amounts: seq<int>, k: Key)
    requires |rows| == |amounts| > 0 && Named(rows)
    ensures var n := |rows| - 1; var line := Allocation(invoice, rows[n].id.value, amounts[n]);
            AllocSum(Lines(invoice, rows, amounts), k)
            == AllocSum(Lines(invoice, rows[..n], amounts[..n]), k) + (if Touches(line, k) then amounts[n] else 0)
  {
    var n := |rows| - 1;
    var lines, front := Lines(invoice, rows, amounts), Lines(invoice, rows[..n], amounts[..n]);
    if amounts[n] == 0 {
      assert lines == front;
    } else {
      assert lines[..|lines| - 1] == front;
    }
  }

  lemma {:induction false} LinesTakeTotals(invoice: Id, rows: seq<Row>, amounts: seq<int>)
    requires |rows| == |amounts| && Named(rows)
    ensures AllocSum(Lines(invoice, rows, amounts), InvoiceKey(invoice)) == Total(amounts)
  {
    if rows == [] {
      return;
    }
    hide Lines, AllocSum;
    LinesTakeTotals(invoice, rows[..|rows| - 1], amounts[..|rows| - 1]);
    LinesOneMore(invoice, rows, amounts, InvoiceKey(invoice));
  }

  lemma {:induction false} LinesTakeAmounts(invoice: Id, rows: seq<Row>, amounts: seq<int>, k: nat)
    requires |rows| == |amounts| && Named(rows) && k < |rows|
    ensures AllocSum(Lines(invoice, rows, amounts), MoneyKey(rows[k].id.value)) == amounts[k]
  {
    hide Lines, AllocSum;
    var n := |rows| - 1;
    var key := MoneyKey(rows[k].id.value);
    LinesOneMore(invoice, rows, amounts, key);
    if k < n {
      LinesTakeAmounts(invoice, rows[..n], amounts[..n], k);
    } else {
      LinesAreRows(invoice, rows[..n], amounts[..n]);
      forall a | a in Lines(invoice, rows[..n], amounts[..n]) ensures !Touches(a, key) {
        var j :| 0 <= j < n && amounts[..n][j] != 0 && a == Allocation(invoice, rows[..n][j].id.value, amounts[..n][j]);
        assert rows[j].id != rows[n].id;
      }
      UntouchedSums(Lines(invoice, rows[..n], amounts[..n]), key);
    }
  }

  lemma {:induction false} ExpectedIsShown(rows: seq<Row>, amounts: seq<int>)
    requires |rows| == |amounts| && Named(rows)
    ensures forall k :: 0 <= k < |rows| && amounts[k] != 0 ==>
              rows[k].id.value in ExpectedMoney(rows, amounts)
              && ExpectedMoney(rows, amounts)[rows[k].id.value] == rows[k].available
    ensures forall m :: m in ExpectedMoney(rows, amounts) ==>
              exists k :: 0 <= k < |rows| && amounts[k] != 0 && rows[k].id.value == m
  {
    if rows != [] {
      var n := |rows| - 1;
      ExpectedIsShown(rows[..n], amounts[..n]);
      var front, whole := ExpectedMoney(rows[..n], amounts[..n]), ExpectedMoney(rows, amounts);
      forall k | 0 <= k < n && amounts[k] != 0
        ensures rows[k].id.value in whole && whole[rows[k].id.value] == rows[k].available
      {
        assert amounts[..n][k] == amounts[k] && rows[..n][k] == rows[k];
        assert rows[k].id != rows[n].id;
      }
      forall m | m in front ensures exists k :: 0 <= k < |rows| && amounts[k] != 0 && rows[k].id.value == m {
        var k :| 0 <= k < n && amounts[..n][k] != 0 && rows[..n][k].id.value == m;
        assert amounts[k] != 0 && rows[k].id.value == m;
      }
    }
  }

  // The rows belong to the invoice: its counterparty's transactions, the right way round.
  ghost predicate Belong(db: Db, invoice: Id, rows: seq<Row>) {
    && invoice in db.invoices && Named(rows)
    && forall k :: 0 <= k < |rows| ==>
         && rows[k].id.value in db.money
         && db.money[rows[k].id.value].direction == MoneySide(DirectionFor(db.invoices[invoice].direction))
         && db.money[rows[k].id.value].counterparty == Some(db.invoices[invoice].counterparty)
  }

  // Nothing the form relies on has moved since the page was drawn.
  ghost predicate Unmoved(db: Db, invoice: Id, invoiceOpen: int, rows: seq<Row>, amounts: seq<int>)
    requires Belong(db, invoice, rows) && |rows| == |amounts|
  {
    && Open(db, InvoiceKey(invoice)) == invoiceOpen
    && forall k :: 0 <= k < |rows| && amounts[k] != 0 ==> Open(db, MoneyKey(rows[k].id.value)) == rows[k].available
  }

  // Lines of one invoice concern that invoice.
  lemma OneInvoiceId(lines: seq<Allocation>, invoice: Id)
    requires lines != [] && forall a :: a in lines ==> a.invoice == invoice
    ensures InvoiceIds(lines) == {invoice}
  {
    hide InvoiceIds;
    assert lines[0] in lines;
    forall i | i in InvoiceIds(lines) ensures i == invoice {
      var a := InvoiceIdWitness(lines, i);
    }
  }

  lemma SubmittedInvoice(invoice: Id, rows: seq<Row>, amounts: seq<int>)
    requires |rows| == |amounts| && Named(rows) && exists k :: 0 <= k < |rows| && amounts[k] != 0
    ensures InvoiceIds(Lines(invoice, rows, amounts)) == {invoice} && Lines(invoice, rows, amounts) != []
  {
    hide Lines, InvoiceIds;
    LinesAreRows(invoice, rows, amounts);
    var k :| 0 <= k < |rows| && amounts[k] != 0;
    assert Allocation(invoice, rows[k].id.value, amounts[k]) in Lines(invoice, rows, amounts);
    OneInvoiceId(Lines(invoice, rows, amounts), invoice);
  }

  lemma SubmittedMoney(invoice: Id, rows: seq<Row>, amounts: seq<int>)
    requires |rows| == |amounts| && Named(rows)
    ensures MoneyIds(Lines(invoice, rows, amounts)) == ExpectedMoney(rows, amounts).Keys
  {
    LinesAreRows(invoice, rows, amounts);
    ExpectedIsShown(rows, amounts);
    hide Lines, ExpectedMoney, MoneyIds;
    var lines := Lines(invoice, rows, amounts);
    forall m | m in MoneyIds(lines) ensures m in ExpectedMoney(rows, amounts) {
      var a := MoneyIdWitness(lines, m);
    }
    forall m | m in ExpectedMoney(rows, amounts) ensures m in MoneyIds(lines) {
      var j :| 0 <= j < |rows| && amounts[j] != 0 && rows[j].id.value == m;
      assert Allocation(invoice, rows[j].id.value, amounts[j]) in lines;
    }
  }

  // What a reading says of rows that exist.
  lemma ReadingShows(db: Db, allocations: seq<Allocation>)
    ensures var r := ReadingOf(db, allocations);
            && r.invoiceAllocated.Keys == InvoiceIds(allocations) && r.moneyAllocated.Keys == MoneyIds(allocations)
            && (forall i :: i in r.invoices <==> i in InvoiceIds(allocations) && i in db.invoices)
            && (forall m :: m in r.money <==> m in MoneyIds(allocations) && m in db.money)
            && (forall i :: i in r.invoices ==>
                  r.invoices[i] == db.invoices[i] && InvoiceOpen(r, i) == Open(db, InvoiceKey(i)))
            && (forall m :: m in r.money ==>
                  r.money[m] == db.money[m] && MoneyOpen(r, m) == Open(db, MoneyKey(m)))
  {
    hide InvoiceIds, MoneyIds, Allocated;
  }

  lemma OwnLineFits(db: Db, allocations: seq<Allocation>, d: InvoiceDirection, a: Allocation)
    requires a in allocations && a.amount > 0 && a.invoice in db.invoices && a.money in db.money
    requires db.invoices[a.invoice].direction == d && db.money[a.money].direction == MoneySide(DirectionFor(d))
    requires db.money[a.money].counterparty == Some(db.invoices[a.invoice].counterparty)
    ensures LineFits(ReadingOf(db, allocations), DirectionFor(d), a) <==> db.invoices[a.invoice].status.Normal?
  {
    ReadingShows(db, allocations);
    hide ReadingOf;
  }

  lemma SubmittedLinesFit(db: Db, invoice: Id, rows: seq<Row>, amounts: seq<int>, q: CreateRequest)
    requires Belong(db, invoice, rows) && |rows| == |amounts|
    requires q.direction == DirectionFor(db.invoices[invoice].direction) && q.allocations == Lines(invoice, rows, amounts)
    requires forall k :: 0 <= k < |rows| ==> amounts[k] >= 0
    requires q.allocations != []
    ensures LinesFit(ReadingOf(db, q.allocations), q) <==> db.invoices[invoice].status.Normal?
  {
    LinesAreRows(invoice, rows, amounts);
    hide Lines, ReadingOf, LineFits;
    forall a | a in q.allocations
      ensures LineFits(ReadingOf(db, q.allocations), q.direction, a) <==> db.invoices[invoice].status.Normal?
    {
      var k :| 0 <= k < |rows| && amounts[k] != 0 && a == Allocation(invoice, rows[k].id.value, amounts[k]);
      OwnLineFits(db, q.allocations, db.invoices[invoice].direction, a);
    }
    assert q.allocations[0] in q.allocations;
  }

  // The ids a submitted form carries.
  ghost predicate Carries(q: CreateRequest, invoice: Id, invoiceOpen: int, rows: seq<Row>, amounts: seq<int>)
    requires |rows| == |amounts| && Named(rows)
  {
    && InvoiceIds(q.allocations) == {invoice} && MoneyIds(q.allocations) == ExpectedMoney(rows, amounts).Keys
    && q.expectedInvoices == Some(map[invoice := invoiceOpen])
    && q.expectedMoney == Some(ExpectedMoney(rows, amounts))
  }

  lemma SubmittedCovers(
    db: Db, invoice: Id, invoiceOpen: int, rows: seq<Row>, amounts: seq<int>, q: CreateRequest)
    requires Belong(db, invoice, rows) && |rows| == |amounts| && Carries(q, invoice, invoiceOpen, rows, amounts)
    ensures var r := ReadingOf(db, q.allocations); Covers(r, q) && r.invoices.Keys == {invoice}
  {
    ReadingShows(db, q.allocations);
    ExpectedIsShown(rows, amounts);
    hide ReadingOf, InvoiceIds, MoneyIds, ExpectedMoney;
    forall m | m in ExpectedMoney(rows, amounts) ensures m in db.money {
      var k :| 0 <= k < |rows| && amounts[k] != 0 && rows[k].id.value == m;
    }
    assert ReadingOf(db, q.allocations).money.Keys == ExpectedMoney(rows, amounts).Keys;
    assert ReadingOf(db, q.allocations).invoices.Keys == {invoice};
  }

  lemma SubmittedPageFresh(
    db: Db, invoice: Id, invoiceOpen: int, rows: seq<Row>, amounts: seq<int>, q: CreateRequest)
    requires Belong(db, invoice, rows) && |rows| == |amounts| && Carries(q, invoice, invoiceOpen, rows, amounts)
    ensures var r := ReadingOf(db, q.allocations);
            Covers(r, q) && (PageFresh(r, q) <==> Unmoved(db, invoice, invoiceOpen, rows, amounts))
  {
    SubmittedCovers(db, invoice, invoiceOpen, rows, amounts, q);
    ReadingShows(db, q.allocations);
    var r := ReadingOf(db, q.allocations);
    hide ReadingOf, InvoiceIds, MoneyIds, ExpectedMoney;
    MoneyFreshness(db, rows, amounts, r, q);
    var open := map i | i in r.invoices :: InvoiceOpen(r, i);
    assert open.Keys == {invoice} && open[invoice] == Open(db, InvoiceKey(invoice));
    assert map[invoice := invoiceOpen] == open <==> invoiceOpen == open[invoice];
  }

  lemma MoneyFreshness(db: Db, rows: seq<Row>, amounts: seq<int>, r: Reading, q: CreateRequest)
    requires |rows| == |amounts| && Named(rows) && Covers(r, q)
    requires forall m :: m in r.money ==> m in db.money && MoneyOpen(r, m) == Open(db, MoneyKey(m))
    requires r.money.Keys == ExpectedMoney(rows, amounts).Keys
    requires forall k :: 0 <= k < |rows| ==> rows[k].id.value in db.money
    ensures ExpectedMoney(rows, amounts) == (map m | m in r.money :: MoneyOpen(r, m)) <==>
              forall k :: 0 <= k < |rows| && amounts[k] != 0 ==> Open(db, MoneyKey(rows[k].id.value)) == rows[k].available
  {
    ExpectedIsShown(rows, amounts);
    hide InvoiceIds, MoneyIds, ExpectedMoney, Allocated;
    var shown, open := ExpectedMoney(rows, amounts), map m | m in r.money :: MoneyOpen(r, m);
    if shown == open {
      forall k | 0 <= k < |rows| && amounts[k] != 0 ensures Open(db, MoneyKey(rows[k].id.value)) == rows[k].available {
        assert shown[rows[k].id.value] == open[rows[k].id.value];
      }
    }
  }

  // What an enabled button implies about the amounts on screen.
  lemma {:induction false} EnabledAmounts(invoiceOpen: int, rows: seq<Row>, partialChecked: bool)
    requires Sound(invoiceOpen, CheckedItems(rows))
    requires var selected := Total(AvailableOf(CheckedItems(rows)));
             MayConfirm(Totals(selected, Min(invoiceOpen, selected), invoiceOpen - Min(invoiceOpen, selected)),
                        partialChecked, AnyStale(rows))
    ensures var allotted := Min(invoiceOpen, Total(AvailableOf(CheckedItems(rows))));
            var amounts := OnScreen(rows, allotted);
            && 0 < Total(amounts) == allotted <= invoiceOpen
            && (Total(amounts) < invoiceOpen ==> partialChecked)
            && (forall k :: 0 <= k < |rows| && amounts[k] != 0 ==> 0 < amounts[k] <= rows[k].available)
            && exists k :: 0 <= k < |rows| && amounts[k] != 0
  {
    var allotted := Min(invoiceOpen, Total(AvailableOf(CheckedItems(rows))));
    ClientAgreesWithServer(invoiceOpen, rows);
    ScreenStaysWithinRows(rows, allotted);
    SomeAmount(OnScreen(rows, allotted));
  }

  lemma {:induction false} SomeAmount(amounts: seq<int>)
    requires Total(amounts) != 0
    ensures exists k :: 0 <= k < |amounts| && amounts[k] != 0
  {
    var n := |amounts| - 1;
    if amounts[n] == 0 {
      SomeAmount(amounts[..n]);
      var k :| 0 <= k < n && amounts[..n][k] != 0;
      assert amounts[k] != 0;
    }
  }

  lemma {:induction false} CheckedAreNonNegative(rows: seq<Row>)
    requires forall k :: 0 <= k < |CheckedItems(rows)| ==> CheckedItems(rows)[k].available >= 0
    ensures forall k :: 0 <= k < |rows| && rows[k].checked ==> rows[k].available >= 0
  {
    if rows != [] {
      var n := |rows| - 1;
      var front, whole := CheckedItems(rows[..n]), CheckedItems(rows);
      assert forall k :: 0 <= k < |front| ==> whole[k] == front[k];
      assert rows[n].checked ==> whole[|front|] == Selected(rows[n].id, rows[n].available);
      CheckedAreNonNegative(rows[..n]);
    }
  }

  lemma ScreenStaysWithinRows(rows: seq<Row>, amount: int)
    requires amount >= 0 && forall k :: 0 <= k < |CheckedItems(rows)| ==> CheckedItems(rows)[k].available >= 0
    ensures forall k :: 0 <= k < |rows| && OnScreen(rows, amount)[k] != 0 ==>
              0 < OnScreen(rows, amount)[k] <= rows[k].available
  {
    CheckedAreNonNegative(rows);
    ScreenBounds(rows, amount);
  }

  lemma {:induction false} ScreenBounds(rows: seq<Row>, amount: int)
    requires amount >= 0 && forall k :: 0 <= k < |rows| && rows[k].checked ==> rows[k].available >= 0
    ensures Total(OnScreen(rows, amount)) <= amount
    ensures forall k :: 0 <= k < |rows| && OnScreen(rows, amount)[k] != 0 ==>
              0 < OnScreen(rows, amount)[k] <= rows[k].available
  {
    if rows != [] {
      var n := |rows| - 1;
      var front, whole := OnScreen(rows[..n], amount), OnScreen(rows, amount);
      ScreenBounds(rows[..n], amount);
      assert whole == front + [whole[n]];
      TotalOneMore(front, whole[n]);
      assert forall k :: 0 <= k < n ==> whole[k] == front[k];
    }
  }

  // An unmoved page passes the rest of the checks.

  lemma SubmittedInvoiceSum(db: Db, invoice: Id, invoiceOpen: int, rows: seq<Row>, amounts: seq<int>, q: CreateRequest)
    requires Belong(db, invoice, rows) && |rows| == |amounts| && Unmoved(db, invoice, invoiceOpen, rows, amounts)
    requires Carries(q, invoice, invoiceOpen, rows, amounts) && q.allocations == Lines(invoice, rows, amounts)
    ensures var r := ReadingOf(db, q.allocations);
            && Covers(r, q) && r.invoices.Keys == {invoice}
            && InvoiceOpen(r, invoice) == invoiceOpen && AllocSum(q.allocations, InvoiceKey(invoice)) == Total(amounts)
  {
    hide InvoiceIds, MoneyIds, Lines, ExpectedMoney, AllocSum, ReadingOf, Allocated;
    SubmittedCovers(db, invoice, invoiceOpen, rows, amounts, q);
    ReadingShows(db, q.allocations);
    LinesTakeTotals(invoice, rows, amounts);
  }

  lemma SubmittedMoneySum(
    db: Db, invoice: Id, invoiceOpen: int, rows: seq<Row>, amounts: seq<int>, q: CreateRequest, m: Id)
    requires Belong(db, invoice, rows) && |rows| == |amounts| && Unmoved(db, invoice, invoiceOpen, rows, amounts)
    requires Carries(q, invoice, invoiceOpen, rows, amounts) && q.allocations == Lines(invoice, rows, amounts)
    requires forall k :: 0 <= k < |rows| && amounts[k] != 0 ==> 0 < amounts[k] <= rows[k].available
    requires m in ExpectedMoney(rows, amounts) && m in ReadingOf(db, q.allocations).money
    ensures m in ReadingOf(db, q.allocations).moneyAllocated
    ensures AllocSum(q.allocations, MoneyKey(m)) <= MoneyOpen(ReadingOf(db, q.allocations), m)
  {
    hide InvoiceIds, MoneyIds, Lines, ExpectedMoney, AllocSum, ReadingOf, Allocated;
    ReadingShows(db, q.allocations);
    ExpectedIsShown(rows, amounts);
    var k :| 0 <= k < |rows| && amounts[k] != 0 && rows[k].id.value == m;
    LinesTakeAmounts(invoice, rows, amounts, k);
  }

  lemma SubmittedSums(db: Db, invoice: Id, invoiceOpen: int, rows: seq<Row>, amounts: seq<int>, q: CreateRequest)
    requires Belong(db, invoice, rows) && |rows| == |amounts| && Unmoved(db, invoice, invoiceOpen, rows, amounts)
    requires Carries(q, invoice, invoiceOpen, rows, amounts) && q.allocations == Lines(invoice, rows, amounts)
    requires Total(amounts) <= invoiceOpen && (Total(amounts) < invoiceOpen ==> q.allowPartial)
    requires forall k :: 0 <= k < |rows| && amounts[k] != 0 ==> 0 < amounts[k] <= rows[k].available
    ensures var r := ReadingOf(db, q.allocations);
            Covers(r, q) && PartialConfirmed(r, q) && MoneySuffices(r, q) && InvoicesSuffice(r, q)
  {
    hide InvoiceIds, MoneyIds, Lines, ExpectedMoney, AllocSum, ReadingOf, Allocated, Unmoved;
    var r := ReadingOf(db, q.allocations);
    SubmittedInvoiceSum(db, invoice, invoiceOpen, rows, amounts, q);
    forall m | m in r.money ensures AllocSum(q.allocations, MoneyKey(m)) <= MoneyOpen(r, m) {
      SubmittedMoneySum(db, invoice, invoiceOpen, rows, amounts, q, m);
    }
  }

  // The whole way: when the button is enabled, the ledger takes the submitted form if and only if the
  // invoice is still in force and neither its open amount nor that of any used transaction has moved.
  lemma SubmissionIsTakenExactlyWhileFresh(
    db: Db, invoice: Id, invoiceOpen: int, rows: seq<Row>, partialChecked: bool)
    requires Belong(db, invoice, rows) && Sound(invoiceOpen, CheckedItems(rows))
    requires var selected := Total(AvailableOf(CheckedItems(rows)));
             MayConfirm(Totals(selected, Min(invoiceOpen, selected), invoiceOpen - Min(invoiceOpen, selected)),
                        partialChecked, AnyStale(rows))
    ensures var selected := Total(AvailableOf(CheckedItems(rows)));
            var totals := Totals(selected, Min(invoiceOpen, selected), invoiceOpen - Min(invoiceOpen, selected));
            var amounts := OnScreen(rows, totals.allotted);
            var direction := DirectionFor(db.invoices[invoice].direction);
            CanCreate(db, Request(direction, invoice, invoiceOpen, rows, amounts, partialChecked && IsPartial(totals)))
            <==> db.invoices[invoice].status.Normal? && Unmoved(db, invoice, invoiceOpen, rows, amounts)
  {
    var selected := Total(AvailableOf(CheckedItems(rows)));
    var totals := Totals(selected, Min(invoiceOpen, selected), invoiceOpen - Min(invoiceOpen, selected));
    var amounts := OnScreen(rows, totals.allotted);
    var q := Request(
      DirectionFor(db.invoices[invoice].direction), invoice, invoiceOpen, rows, amounts, partialChecked && IsPartial(totals));
    EnabledAmounts(invoiceOpen, rows, partialChecked);
    SubmittedInvoice(invoice, rows, amounts);
    SubmittedMoney(invoice, rows, amounts);
    SubmissionDecides(db, invoice, invoiceOpen, rows, amounts, q);
  }

  lemma SubmissionDecides(db: Db, invoice: Id, invoiceOpen: int, rows: seq<Row>, amounts: seq<int>, q: CreateRequest)
    requires Belong(db, invoice, rows) && |rows| == |amounts|
    requires Carries(q, invoice, invoiceOpen, rows, amounts) && q.allocations == Lines(invoice, rows, amounts)
    requires q.direction == DirectionFor(db.invoices[invoice].direction) && ModeFits(q) && q.allocations != []
    requires Total(amounts) <= invoiceOpen && (Total(amounts) < invoiceOpen ==> q.allowPartial)
    requires forall k :: 0 <= k < |rows| && amounts[k] != 0 ==> 0 < amounts[k] <= rows[k].available
    ensures CanCreate(db, q) <==> db.invoices[invoice].status.Normal? && Unmoved(db, invoice, invoiceOpen, rows, amounts)
  {
    SubmittedLinesFit(db, invoice, rows, amounts, q);
    SubmittedPageFresh(db, invoice, invoiceOpen, rows, amounts, q);
    if Unmoved(db, invoice, invoiceOpen, rows, amounts) {
      SubmittedSums(db, invoice, invoiceOpen, rows, amounts, q);
    }
    hide ReadingOf, LinesFit, PageFresh, PartialConfirmed, MoneySuffices, InvoicesSuffice, Unmoved, Lines, Carries, InvoiceIds, MoneyIds;
  }
}

// The supplier summary and the supplier ledger (apps/reporting/queries.py:344-492): two loops over the same
// records, one adding up per supplier, one running a balance down the sorted rows.

module SupplierReport {
  import opened Common
  import opened LedgerModel
  import opened SupplierOrder

  datatype InvoiceRecord = InvoiceRecord(id: Id, supplier: Id, issuedOn: int, total: int, used: int)

  datatype PaymentRecord = PaymentRecord(id: Id, supplier: Id, paidOn: int, amount: int, used: int)

  datatype Summary = Summary(
    invoiced: int, paid: int, balance: int, invoiceOpen: int, paymentOpen: int, latest: Option<int>)

  datatype LedgerKind = InvoiceRow | PaymentRow

  datatype LedgerRow = LedgerRow(
    kind: LedgerKind, id: Id, on: int, increase: int, decrease: int, running: int, used: int, open: int)

  // Specification: sums per supplier.

  function InvoicedBy(records: seq<InvoiceRecord>, supplier: Id): int {
    if records == [] then 0
    else
      var last := records[|records| - 1];
      InvoicedBy(records[..|records| - 1], supplier) + (if last.supplier == supplier then last.total else 0)
  }

  function PaidTo(records: seq<PaymentRecord>, supplier: Id): int {
    if records == [] then 0
    else
      var last := records[|records| - 1];
      PaidTo(records[..|records| - 1], supplier) + (if last.supplier == supplier then last.amount else 0)
  }

  function InvoicesUsed(records: seq<InvoiceRecord>, supplier: Id): int {
    if records == [] then 0
    else
      var last := records[|records| - 1];
      InvoicesUsed(records[..|records| - 1], supplier) + (if last.supplier == supplier then last.used else 0)
  }

  function PaymentsUsed(records: seq<PaymentRecord>, supplier: Id): int {
    if records == [] then 0
    else
      var last := records[|records| - 1];
      PaymentsUsed(records[..|records| - 1], supplier) + (if last.supplier == supplier then last.used else 0)
  }

  // A day on which the supplier was invoiced or paid.
  predicate ActiveOn(invoices: seq<InvoiceRecord>, payments: seq<PaymentRecord>, supplier: Id, day: int) {
    (exists r :: r in invoices && r.supplier == supplier && r.issuedOn == day)
    || (exists p :: p in payments && p.supplier == supplier && p.paidOn == day)
  }

  predicate Appears(invoices: seq<InvoiceRecord>, payments: seq<PaymentRecord>, supplier: Id) {
    (exists r :: r in invoices && r.supplier == supplier) || (exists p :: p in payments && p.supplier == supplier)
  }

  // What a supplier's line says.
  ghost predicate Summarizes(
    s: Summary, invoices: seq<InvoiceRecord>, payments: seq<PaymentRecord>, supplier: Id)
  {
    && s.invoiced == InvoicedBy(invoices, supplier) && s.paid == PaidTo(payments, supplier)
    && s.balance == s.invoiced - s.paid
    && s.invoiceOpen == s.invoiced - InvoicesUsed(invoices, supplier)
    && s.paymentOpen == s.paid - PaymentsUsed(payments, supplier)
    && s.latest.Some? && ActiveOn(invoices, payments, supplier, s.latest.value)
    && forall day :: ActiveOn(invoices, payments, supplier, day) ==> day <= s.latest.value
  }

  const NOTHING := Summary(0, 0, 0, 0, 0, None)

  function Line(rows: map<Id, Summary>, supplier: Id): Summary {
    if supplier in rows then rows[supplier] else NOTHING
  }

  function Later(current: Option<int>, candidate: int): Option<int> {
    if current.None? || candidate > current.value then Some(candidate) else current
  }

  function WithInvoice(s: Summary, r: InvoiceRecord): Summary {
    s.(invoiced := s.invoiced + r.total, balance := s.balance + r.total,
       invoiceOpen := s.invoiceOpen + (r.total - r.used), latest := Later(s.latest, r.issuedOn))
  }

  function WithPayment(s: Summary, p: PaymentRecord): Summary {
    s.(paid := s.paid + p.amount, balance := s.balance - p.amount,
       paymentOpen := s.paymentOpen + (p.amount - p.used), latest := Later(s.latest, p.paidOn))
  }

  ghost predicate SummarizesAll(rows: map<Id, Summary>, invoices: seq<InvoiceRecord>, payments: seq<PaymentRecord>) {
    && (forall s :: s in rows <==> Appears(invoices, payments, s))
    && (forall s :: s in rows ==> Summarizes(rows[s], invoices, payments, s))
  }

  lemma {:induction false} NoInvoices(invoices: seq<InvoiceRecord>, supplier: Id)
    requires forall r :: r in invoices ==> r.supplier != supplier
    ensures InvoicedBy(invoices, supplier) == 0 && InvoicesUsed(invoices, supplier) == 0
  {
    if invoices != [] {
      NoInvoices(invoices[..|invoices| - 1], supplier);
    }
  }

  lemma {:induction false} NoPayments(payments: seq<PaymentRecord>, supplier: Id)
    requires forall p :: p in payments ==> p.supplier != supplier
    ensures PaidTo(payments, supplier) == 0 && PaymentsUsed(payments, supplier) == 0
  {
    if payments != [] {
      NoPayments(payments[..|payments| - 1], supplier);
    }
  }

  // One more invoice: its supplier's line takes it in, the others stay right.
  lemma OneMoreInvoice(
    rows: map<Id, Summary>, invoices: seq<InvoiceRecord>, payments: seq<PaymentRecord>, r: InvoiceRecord)
    requires SummarizesAll(rows, invoices, payments)
    ensures SummarizesAll(rows[r.supplier := WithInvoice(Line(rows, r.supplier), r)], invoices + [r], payments)
  {
    var next, more := rows[r.supplier := WithInvoice(Line(rows, r.supplier), r)], invoices + [r];
    assert more[..|invoices|] == invoices && more[|invoices|] == r;
    forall s ensures Appears(more, payments, s) <==> Appears(invoices, payments, s) || s == r.supplier {
      assert r in more;
    }
    forall s, day ensures ActiveOn(more, payments, s, day) <==>
                            ActiveOn(invoices, payments, s, day) || (s == r.supplier && day == r.issuedOn) {
      assert r in more;
    }
    if r.supplier !in rows {
      assert !Appears(invoices, payments, r.supplier);
      NoInvoices(invoices, r.supplier);
      NoPayments(payments, r.supplier);
    }
    hide Appears, ActiveOn;
    forall s | s in next ensures Summarizes(next[s], more, payments, s) {
      if s != r.supplier {
        assert Summarizes(rows[s], invoices, payments, s);
      } else if s in rows {
        assert Summarizes(rows[s], invoices, payments, s);
      } else {
        NeverActive(invoices, payments, s);
      }
    }
  }

  lemma NeverActive(invoices: seq<InvoiceRecord>, payments: seq<PaymentRecord>, supplier: Id)
    requires !Appears(invoices, payments, supplier)
    ensures forall day :: !ActiveOn(invoices, payments, supplier, day)
  {
  }

  lemma OneMorePayment(
    rows: map<Id, Summary>, invoices: seq<InvoiceRecord>, payments: seq<PaymentRecord>, p: PaymentRecord)
    requires SummarizesAll(rows, invoices, payments)
    ensures SummarizesAll(rows[p.supplier := WithPayment(Line(rows, p.supplier), p)], invoices, payments + [p])
  {
    var next, more := rows[p.supplier := WithPayment(Line(rows, p.supplier), p)], payments + [p];
    assert more[..|payments|] == payments && more[|payments|] == p;
    forall s ensures Appears(invoices, more, s) <==> Appears(invoices, payments, s) || s == p.supplier {
      assert p in more;
    }
    forall s, day ensures ActiveOn(invoices, more, s, day) <==>
                            ActiveOn(invoices, payments, s, day) || (s == p.supplier && day == p.paidOn) {
      assert p in more;
    }
    if p.supplier !in rows {
      assert !Appears(invoices, payments, p.supplier);
      NoInvoices(invoices, p.supplier);
      NoPayments(payments, p.supplier);
    }
    hide Appears, ActiveOn;
    forall s | s in next ensures Summarizes(next[s], invoices, more, s) {
      if s != p.supplier {
        assert Summarizes(rows[s], invoices, payments, s);
      } else if s in rows {
        assert Summarizes(rows[s], invoices, payments, s);
      } else {
        NeverActive(invoices, payments, s);
      }
    }
  }

  // The two loops of _supplier_summary_rows.
  method AddUp(invoices: seq<InvoiceRecord>, payments: seq<PaymentRecord>) returns (rows: map<Id, Summary>)
    ensures SummarizesAll(rows, invoices, payments)
  {
    rows := map[];
    assert SummarizesAll(rows, [], []);
    hide SummarizesAll;
    for k := 0 to |invoices|
      invariant SummarizesAll(rows, invoices[..k], [])
    {
      var r := invoices[k];
      OneMoreInvoice(rows, invoices[..k], [], r);
      assert invoices[..k + 1] == invoices[..k] + [r];
      rows := rows[r.supplier := WithInvoice(Line(rows, r.supplier), r)];
    }
    assert invoices[..|invoices|] == invoices;
    for k := 0 to |payments|
      invariant SummarizesAll(rows, invoices, payments[..k])
    {
      var p := payments[k];
      OneMorePayment(rows, invoices, payments[..k], p);
      assert payments[..k + 1] == payments[..k] + [p];
      rows := rows[p.supplier := WithPayment(Line(rows, p.supplier), p)];
    }
    assert payments[..|payments|] == payments;
  }

  datatype SummaryLine = SummaryLine(supplier: Id, summary: Summary)

  function SuppliersOf(lines: seq<SummaryLine>): seq<Id> {
    seq(|lines|, k requires 0 <= k < |lines| => lines[k].supplier)
  }

  // One right line for each supplier that appears, in the order of their names.
  ghost predicate IsSummary(
    lines: seq<SummaryLine>, names: Id -> string, invoices: seq<InvoiceRecord>, payments: seq<PaymentRecord>)
  {
    && (forall s :: s in SuppliersOf(lines) <==> Appears(invoices, payments, s))
    && (forall j, k :: 0 <= j < k < |lines| ==> lines[j].supplier != lines[k].supplier)
    && InNameOrder(names, SuppliersOf(lines))
    && forall line :: line in lines ==> Summarizes(line.summary, invoices, payments, line.supplier)
  }

  // _supplier_summary_rows.
  method SupplierSummaryRows(names: Id -> string, invoices: seq<InvoiceRecord>, payments: seq<PaymentRecord>)
    returns (lines: seq<SummaryLine>)
    ensures IsSummary(lines, names, invoices, payments)
  {
    var rows := AddUp(invoices, payments);
    var order := Arranged(names, rows.Keys);
    ArrangedOnce(order, rows.Keys);
    lines := seq(|order|, k requires 0 <= k < |order| => SummaryLine(order[k], rows[order[k]]));
    assert SuppliersOf(lines) == order;
    hide Appears, Summarizes, InNameOrder;
  }

  lemma ArrangedOnce(order: seq<Id>, ids: set<Id>)
    requires multiset(order) == multiset(ids)
    ensures forall i :: i in order <==> i in ids
    ensures forall j, k :: 0 <= j < k < |order| ==> order[j] != order[k]
  {
    forall i ensures i in order <==> i in ids {
      assert i in multiset(order) <==> i in multiset(ids);
    }
    forall j, k | 0 <= j < k < |order| ensures order[j] != order[k] {
      assert order == order[..j] + [order[j]] + order[j + 1..];
      assert order[j + 1..][k - j - 1] == order[k];
      assert multiset(order)[order[j]] <= 1;
    }
  }

  // The ledger of one supplier.

  // Day, then invoices before payments, then the identifier.
  predicate NotAfter(a: LedgerRow, b: LedgerRow) {
    || a.on < b.on
    || (a.on == b.on && a.kind.InvoiceRow? && b.kind.PaymentRow?)
    || (a.on == b.on && a.kind == b.kind && a.id <= b.id)
  }

  predicate Ordered(rows: seq<LedgerRow>) {
    forall p, q :: 0 <= p < q < |rows| ==> NotAfter(rows[p], rows[q])
  }

  function Insert(row: LedgerRow, rows: seq<LedgerRow>): seq<LedgerRow> {
    if rows == [] || NotAfter(row, rows[0]) then [row] + rows else [rows[0]] + Insert(row, rows[1..])
  }

  function Sort(rows: seq<LedgerRow>): seq<LedgerRow> {
    if rows == [] then [] else Insert(rows[0], Sort(rows[1..]))
  }

  lemma {:induction false} InsertKeepsContent(row: LedgerRow, rows: seq<LedgerRow>)
    ensures multiset(Insert(row, rows)) == multiset{row} + multiset(rows)
  {
    if rows != [] && !NotAfter(row, rows[0]) {
      InsertKeepsContent(row, rows[1..]);
      assert rows == [rows[0]] + rows[1..];
    }
  }

  lemma InsertedOrThere(row: LedgerRow, rows: seq<LedgerRow>, r: LedgerRow)
    requires r in Insert(row, rows)
    ensures r == row || r in rows
  {
    hide Insert;
    InsertKeepsContent(row, rows);
    assert r in multiset(Insert(row, rows));
  }

  lemma OrderedInFront(first: LedgerRow, rows: seq<LedgerRow>)
    requires Ordered(rows) && forall r :: r in rows ==> NotAfter(first, r)
    ensures Ordered([first] + rows)
  {
    hide NotAfter;
  }

  lemma FirstIsNotAfter(row: LedgerRow, rows: seq<LedgerRow>)
    requires Ordered(rows) && rows != [] && NotAfter(row, rows[0])
    ensures forall r :: r in rows ==> NotAfter(row, r)
  {
  }

  lemma {:induction false} InsertKeepsOrder(row: LedgerRow, rows: seq<LedgerRow>)
    requires Ordered(rows)
    ensures Ordered(Insert(row, rows))
  {
    if rows == [] {
    } else if NotAfter(row, rows[0]) {
      FirstIsNotAfter(row, rows);
      OrderedInFront(row, rows);
    } else {
      InsertKeepsOrder(row, rows[1..]);
      forall r | r in Insert(row, rows[1..]) ensures NotAfter(rows[0], r) {
        InsertedOrThere(row, rows[1..], r);
      }
      OrderedInFront(rows[0], Insert(row, rows[1..]));
    }
  }

  lemma {:induction false} SortSorts(rows: seq<LedgerRow>)
    ensures Ordered(Sort(rows)) && multiset(Sort(rows)) == multiset(rows)
  {
    if rows != [] {
      SortSorts(rows[1..]);
      InsertKeepsOrder(rows[0], Sort(rows[1..]));
      InsertKeepsContent(rows[0], Sort(rows[1..]));
      assert rows == [rows[0]] + rows[1..];
    }
  }

  // What a ledger adds up: increases less decreases, and the open amounts of either kind.
  datatype Column = Balance | InvoiceOpen | PaymentOpen

  function Entry(c: Column, row: LedgerRow): int {
    match c
    case Balance => row.increase - row.decrease
    case InvoiceOpen => if row.kind.InvoiceRow? then row.open else 0
    case PaymentOpen => if row.kind.PaymentRow? then row.open else 0
  }

  function Sum(c: Column, rows: seq<LedgerRow>): int {
    if rows == [] then 0 else Sum(c, rows[..|rows| - 1]) + Entry(c, rows[|rows| - 1])
  }

  function Net(rows: seq<LedgerRow>): int {
    Sum(Balance, rows)
  }

  lemma {:induction false} SumOfParts(c: Column, a: seq<LedgerRow>, b: seq<LedgerRow>)
    ensures Sum(c, a + b) == Sum(c, a) + Sum(c, b)
  {
    if b == [] {
      assert a + b == a;
    } else {
      assert (a + b)[..|a + b| - 1] == a + b[..|b| - 1];
      SumOfParts(c, a, b[..|b| - 1]);
    }
  }

  lemma {:induction false} InsertKeepsSum(c: Column, row: LedgerRow, rows: seq<LedgerRow>)
    ensures Sum(c, Insert(row, rows)) == Sum(c, [row]) + Sum(c, rows)
  {
    if rows == [] || NotAfter(row, rows[0]) {
      SumOfParts(c, [row], rows);
    } else {
      InsertKeepsSum(c, row, rows[1..]);
      SumOfParts(c, [rows[0]], Insert(row, rows[1..]));
      SumOfParts(c, [rows[0]], rows[1..]);
      assert rows == [rows[0]] + rows[1..];
    }
  }

  lemma {:induction false} SortKeepsSum(c: Column, rows: seq<LedgerRow>)
    ensures Sum(c, Sort(rows)) == Sum(c, rows)
  {
    if rows != [] {
      SortKeepsSum(c, rows[1..]);
      InsertKeepsSum(c, rows[0], Sort(rows[1..]));
      SumOfParts(c, [rows[0]], rows[1..]);
      assert rows == [rows[0]] + rows[1..];
    }
  }

  function RowOfInvoice(r: InvoiceRecord): LedgerRow {
    LedgerRow(InvoiceRow, r.id, r.issuedOn, r.total, 0, 0, r.used, r.total - r.used)
  }

  function RowOfPayment(p: PaymentRecord): LedgerRow {
    LedgerRow(PaymentRow, p.id, p.paidOn, 0, p.amount, 0, p.used, p.amount - p.used)
  }

  function InvoiceRows(records: seq<InvoiceRecord>): seq<LedgerRow> {
    if records == [] then []
    else InvoiceRows(records[..|records| - 1]) + [RowOfInvoice(records[|records| - 1])]
  }

  function PaymentRows(records: seq<PaymentRecord>): seq<LedgerRow> {
    if records == [] then []
    else PaymentRows(records[..|records| - 1]) + [RowOfPayment(records[|records| - 1])]
  }

  lemma {:induction false} InvoiceRowsSum(records: seq<InvoiceRecord>, supplier: Id)
    requires forall r :: r in records ==> r.supplier == supplier
    ensures Sum(Balance, InvoiceRows(records)) == InvoicedBy(records, supplier)
    ensures Sum(InvoiceOpen, InvoiceRows(records)) == InvoicedBy(records, supplier) - InvoicesUsed(records, supplier)
    ensures Sum(PaymentOpen, InvoiceRows(records)) == 0
  {
    if records != [] {
      InvoiceRowsSum(records[..|records| - 1], supplier);
      var rows := InvoiceRows(records);
      assert rows[..|rows| - 1] == InvoiceRows(records[..|records| - 1]);
    }
  }

  lemma {:induction false} PaymentRowsSum(records: seq<PaymentRecord>, supplier: Id)
    requires forall p :: p in records ==> p.supplier == supplier
    ensures Sum(Balance, PaymentRows(records)) == -PaidTo(records, supplier)
    ensures Sum(InvoiceOpen, PaymentRows(records)) == 0
    ensures Sum(PaymentOpen, PaymentRows(records)) == PaidTo(records, supplier) - PaymentsUsed(records, supplier)
  {
    if records != [] {
      PaymentRowsSum(records[..|records| - 1], supplier);
      var rows := PaymentRows(records);
      assert rows[..|rows| - 1] == PaymentRows(records[..|records| - 1]);
    }
  }

  // A ledger row shows a record: its identifier and day, its amount on its own side, and what of it is used and open.

  predicate ShowsInvoice(row: LedgerRow, r: InvoiceRecord) {
    && row.kind == InvoiceRow && row.id == r.id && row.on == r.issuedOn
    && row.increase == r.total && row.decrease == 0 && row.used == r.used && row.open == r.total - r.used
  }

  predicate ShowsPayment(row: LedgerRow, p: PaymentRecord) {
    && row.kind == PaymentRow && row.id == p.id && row.on == p.paidOn
    && row.increase == 0 && row.decrease == p.amount && row.used == p.used && row.open == p.amount - p.used
  }

  // Row by row.
  lemma {:induction false} InvoiceRowsShow(records: seq<InvoiceRecord>)
    ensures |InvoiceRows(records)| == |records|
    ensures forall k :: 0 <= k < |records| ==> ShowsInvoice(InvoiceRows(records)[k], records[k])
  {
    if records != [] {
      InvoiceRowsShow(records[..|records| - 1]);
    }
  }

  lemma {:induction false} PaymentRowsShow(records: seq<PaymentRecord>)
    ensures |PaymentRows(records)| == |records|
    ensures forall k :: 0 <= k < |records| ==> ShowsPayment(PaymentRows(records)[k], records[k])
  {
    if records != [] {
      PaymentRowsShow(records[..|records| - 1]);
    }
  }

  // The rows as sorted, each with the balance of all rows up to it.
  ghost predicate RunsDown(result: seq<LedgerRow>, rows: seq<LedgerRow>) {
    && |result| == |rows|
    && forall k :: 0 <= k < |rows| ==> result[k] == rows[k].(running := Net(rows[..k + 1]))
  }

  // The running-balance loop.
  method RunningBalances(rows: seq<LedgerRow>) returns (result: seq<LedgerRow>)
    ensures RunsDown(result, rows)
  {
    var running := 0;
    result := [];
    for k := 0 to |rows|
      invariant |result| == k && running == Net(rows[..k])
      invariant forall j :: 0 <= j < k ==> result[j] == rows[j].(running := Net(rows[..j + 1]))
    {
      assert rows[..k + 1][..k] == rows[..k];
      running := running + rows[k].increase - rows[k].decrease;
      result := result + [rows[k].(running := running)];
    }
  }

  // Every record once, in order, each row carrying the balance of all rows up to it.
  ghost predicate IsLedger(result: seq<LedgerRow>, invoices: seq<InvoiceRecord>, payments: seq<PaymentRecord>) {
    exists rows ::
      && RunsDown(result, rows) && Ordered(rows)
      && multiset(rows) == multiset(InvoiceRows(invoices)) + multiset(PaymentRows(payments))
  }

  // Every row shows a record and every record has its row, one each.
  ghost predicate ShowsRecords(result: seq<LedgerRow>, invoices: seq<InvoiceRecord>, payments: seq<PaymentRecord>) {
    && |result| == |invoices| + |payments|
    && (forall row :: row in result ==>
          (exists r :: r in invoices && ShowsInvoice(row, r)) || (exists p :: p in payments && ShowsPayment(row, p)))
    && (forall r :: r in invoices ==> exists row :: row in result && ShowsInvoice(row, r))
    && (forall p :: p in payments ==> exists row :: row in result && ShowsPayment(row, p))
  }

  // By day; on one day invoices before payments; of one kind by identifier.
  predicate InLedgerOrder(result: seq<LedgerRow>) {
    forall j, k :: 0 <= j < k < |result| ==>
      && result[j].on <= result[k].on
      && (result[j].on == result[k].on ==>
            && !(result[j].kind == PaymentRow && result[k].kind == InvoiceRow)
            && (result[j].kind == result[k].kind ==> result[j].id <= result[k].id))
  }

  // supplier_ledger_as_of: every record once, in order, each row carrying the balance of all rows up to it;
  // the last balance and the sums of the open amounts are those of the supplier's line in the summary.
  method SupplierLedger(invoices: seq<InvoiceRecord>, payments: seq<PaymentRecord>, supplier: Id)
    returns (result: seq<LedgerRow>)
    requires forall r :: r in invoices ==> r.supplier == supplier
    requires forall p :: p in payments ==> p.supplier == supplier
    ensures IsLedger(result, invoices, payments)
    ensures ShowsRecords(result, invoices, payments) && InLedgerOrder(result)
    ensures forall k :: 0 <= k < |result| ==>
              result[k].running == (if k == 0 then 0 else result[k - 1].running) + result[k].increase - result[k].decrease
    ensures forall s :: Summarizes(s, invoices, payments, supplier) ==>
              && (result != [] ==> result[|result| - 1].running == s.balance)
              && Sum(InvoiceOpen, result) == s.invoiceOpen && Sum(PaymentOpen, result) == s.paymentOpen
  {
    hide *;
    var rows := Sort(InvoiceRows(invoices) + PaymentRows(payments));
    SortedRecords(invoices, payments, supplier);
    result := RunningBalances(rows);
    LedgerOf(result, rows, invoices, payments);
    LedgerShowsRecords(result, rows, invoices, payments);
    RunningSteps(result, rows);
    LastBalance(result, rows);
    RunningLeavesSums(result, rows);
    forall s | Summarizes(s, invoices, payments, supplier)
      ensures s.balance == Net(rows) && s.invoiceOpen == Sum(InvoiceOpen, rows) && s.paymentOpen == Sum(PaymentOpen, rows)
    {
      BalanceOf(s, invoices, payments, supplier);
    }
  }

  lemma SortedRecords(invoices: seq<InvoiceRecord>, payments: seq<PaymentRecord>, supplier: Id)
    requires forall r :: r in invoices ==> r.supplier == supplier
    requires forall p :: p in payments ==> p.supplier == supplier
    ensures var rows := Sort(InvoiceRows(invoices) + PaymentRows(payments));
            && Ordered(rows) && multiset(rows) == multiset(InvoiceRows(invoices)) + multiset(PaymentRows(payments))
            && Net(rows) == InvoicedBy(invoices, supplier) - PaidTo(payments, supplier)
            && Sum(InvoiceOpen, rows) == InvoicedBy(invoices, supplier) - InvoicesUsed(invoices, supplier)
            && Sum(PaymentOpen, rows) == PaidTo(payments, supplier) - PaymentsUsed(payments, supplier)
  {
    hide Sort, Ordered, Sum, InvoiceRows, PaymentRows, InvoicedBy, PaidTo, InvoicesUsed, PaymentsUsed;
    var rows := InvoiceRows(invoices) + PaymentRows(payments);
    SortSorts(rows);
    InvoiceRowsSum(invoices, supplier);
    PaymentRowsSum(payments, supplier);
    forall c ensures Sum(c, Sort(rows)) == Sum(c, InvoiceRows(invoices)) + Sum(c, PaymentRows(payments)) {
      SortKeepsSum(c, rows);
      SumOfParts(c, InvoiceRows(invoices), PaymentRows(payments));
    }
  }

  lemma LedgerOf(
    result: seq<LedgerRow>, rows: seq<LedgerRow>, invoices: seq<InvoiceRecord>, payments: seq<PaymentRecord>)
    requires RunsDown(result, rows) && Ordered(rows)
    requires multiset(rows) == multiset(InvoiceRows(invoices)) + multiset(PaymentRows(payments))
    ensures IsLedger(result, invoices, payments)
  {
  }

  lemma LedgerShowsRecords(
    result: seq<LedgerRow>, rows: seq<LedgerRow>, invoices: seq<InvoiceRecord>, payments: seq<PaymentRecord>)
    requires RunsDown(result, rows) && Ordered(rows)
    requires multiset(rows) == multiset(InvoiceRows(invoices)) + multiset(PaymentRows(payments))
    ensures ShowsRecords(result, invoices, payments) && InLedgerOrder(result)
  {
    hide InvoiceRows, PaymentRows, Net, Ordered, NotAfter;
    InvoiceRowsShow(invoices);
    PaymentRowsShow(payments);
    assert |rows| == |multiset(rows)| == |invoices| + |payments|;
    forall row | row in result
      ensures (exists r :: r in invoices && ShowsInvoice(row, r)) || (exists p :: p in payments && ShowsPayment(row, p))
    {
      var k :| 0 <= k < |result| && result[k] == row;
      assert rows[k] in multiset(rows);
      if i :| 0 <= i < |invoices| && InvoiceRows(invoices)[i] == rows[k] {
        assert ShowsInvoice(row, invoices[i]);
      } else {
        var j :| 0 <= j < |payments| && PaymentRows(payments)[j] == rows[k];
        assert ShowsPayment(row, payments[j]);
      }
    }
    forall r | r in invoices ensures exists row :: row in result && ShowsInvoice(row, r) {
      var i :| 0 <= i < |invoices| && invoices[i] == r;
      assert InvoiceRows(invoices)[i] in multiset(rows);
      var k :| 0 <= k < |rows| && rows[k] == InvoiceRows(invoices)[i];
      assert result[k] in result && ShowsInvoice(result[k], r);
    }
    forall p | p in payments ensures exists row :: row in result && ShowsPayment(row, p) {
      var i :| 0 <= i < |payments| && payments[i] == p;
      assert PaymentRows(payments)[i] in multiset(rows);
      var k :| 0 <= k < |rows| && rows[k] == PaymentRows(payments)[i];
      assert result[k] in result && ShowsPayment(result[k], p);
    }
    RowsInOrder(result, rows);
  }

  lemma RowsInOrder(result: seq<LedgerRow>, rows: seq<LedgerRow>)
    requires RunsDown(result, rows) && Ordered(rows)
    ensures InLedgerOrder(result)
  {
    hide Net;
    forall j, k | 0 <= j < k < |result|
      ensures result[j].on <= result[k].on
      ensures result[j].on == result[k].on ==>
                && !(result[j].kind == PaymentRow && result[k].kind == InvoiceRow)
                && (result[j].kind == result[k].kind ==> result[j].id <= result[k].id)
    {
      assert NotAfter(rows[j], rows[k]);
    }
  }

  // Each balance is the one before with the row's own amount.
  lemma RunningSteps(result: seq<LedgerRow>, rows: seq<LedgerRow>)
    requires RunsDown(result, rows)
    ensures forall k :: 0 <= k < |result| ==>
              result[k].running == (if k == 0 then 0 else result[k - 1].running) + result[k].increase - result[k].decrease
  {
    forall k | 0 <= k < |result|
      ensures result[k].running == (if k == 0 then 0 else result[k - 1].running) + result[k].increase - result[k].decrease
    {
      assert rows[..k + 1][..k] == rows[..k];
      assert result[k].running == Net(rows[..k]) + Entry(Balance, rows[k]);
      if k > 0 {
        assert result[k - 1] == rows[k - 1].(running := Net(rows[..k]));
      }
    }
  }

  // The running balance is in none of the sums.
  lemma RunningLeavesSums(result: seq<LedgerRow>, rows: seq<LedgerRow>)
    requires RunsDown(result, rows)
    ensures forall c :: Sum(c, result) == Sum(c, rows)
  {
    forall c ensures Sum(c, result) == Sum(c, rows) {
      SumsOfEqualEntries(c, result, rows);
    }
  }

  lemma {:induction false} SumsOfEqualEntries(c: Column, a: seq<LedgerRow>, b: seq<LedgerRow>)
    requires |a| == |b| && forall k :: 0 <= k < |a| ==> Entry(c, a[k]) == Entry(c, b[k])
    ensures Sum(c, a) == Sum(c, b)
  {
    if a != [] {
      SumsOfEqualEntries(c, a[..|a| - 1], b[..|b| - 1]);
    }
  }

  lemma LastBalance(result: seq<LedgerRow>, rows: seq<LedgerRow>)
    requires RunsDown(result, rows)
    ensures |result| == |rows| && (result != [] ==> result[|result| - 1].running == Net(rows))
  {
    assert rows[..|rows|] == rows;
  }

  lemma BalanceOf(s: Summary, invoices: seq<InvoiceRecord>, payments: seq<PaymentRecord>, supplier: Id)
    requires Summarizes(s, invoices, payments, supplier)
    ensures s.balance == InvoicedBy(invoices, supplier) - PaidTo(payments, supplier)
    ensures s.invoiceOpen == InvoicedBy(invoices, supplier) - InvoicesUsed(invoices, supplier)
    ensures s.paymentOpen == PaidTo(payments, supplier) - PaymentsUsed(payments, supplier)
  {
  }
}

// The supplier reports over time: the records a report as of a date selects on a later database
// (apps/reporting/queries.py:277-341), against the records it would have selected at that date.

module SupplierHistory {
  import opened Common
  import opened LedgerModel
  import opened Settlements
  import opened LedgerEvents
  import opened LedgerHistory
  import opened SupplierReport

  predicate InvoiceCounts(invoice: Invoice, supplier: Id, asOf: int) {
    invoice.direction.Input? && invoice.counterparty == supplier && invoice.issueDate <= asOf
  }

  predicate PaymentCounts(money: Money, supplier: Id, asOf: int) {
    money.direction.Outflow? && money.counterparty == Some(supplier) && money.localDay <= asOf
  }

  function InvoiceRecordOf(db: Db, i: Id, v: View): InvoiceRecord
    requires i in db.invoices
  {
    var invoice := db.invoices[i];
    InvoiceRecord(i, invoice.counterparty, invoice.issueDate, invoice.total, Allocated(db.recons, InvoiceKey(i), v))
  }

  function PaymentRecordOf(db: Db, m: Id, v: View): PaymentRecord
    requires m in db.money && db.money[m].counterparty.Some?
  {
    var money := db.money[m];
    PaymentRecord(m, money.counterparty.value, money.localDay, money.amount, Allocated(db.recons, MoneyKey(m), v))
  }

  // _supplier_invoice_records and _supplier_payment_records.

  function HistoricalInvoices(db: Db, supplier: Id, asOf: int, cutoff: int): set<InvoiceRecord> {
    set i | i in db.invoices && InvoiceCounts(db.invoices[i], supplier, asOf) && ShownAsNormal(db, i, cutoff) ::
      InvoiceRecordOf(db, i, AsOf(cutoff))
  }

  function HistoricalPayments(db: Db, supplier: Id, asOf: int, cutoff: int): set<PaymentRecord> {
    set m | m in db.money && PaymentCounts(db.money[m], supplier, asOf) :: PaymentRecordOf(db, m, AsOf(cutoff))
  }

  // What is true at the moment itself: today's status and today's sums.

  function CurrentInvoices(db: Db, supplier: Id, asOf: int): set<InvoiceRecord> {
    set i | i in db.invoices
      && db.invoices[i].direction == Input && db.invoices[i].counterparty == supplier
      && db.invoices[i].issueDate <= asOf && db.invoices[i].status == Normal ::
      InvoiceRecord(
        i, supplier, db.invoices[i].issueDate, db.invoices[i].total,
        db.invoices[i].total - Open(db, InvoiceKey(i)))
  }

  function CurrentPayments(db: Db, supplier: Id, asOf: int): set<PaymentRecord> {
    set m | m in db.money
      && db.money[m].direction == Outflow && db.money[m].counterparty == Some(supplier) && db.money[m].localDay <= asOf ::
      PaymentRecord(m, supplier, db.money[m].localDay, db.money[m].amount, db.money[m].amount - Open(db, MoneyKey(m)))
  }

  lemma CurrentIsCounted(db: Db, supplier: Id, asOf: int)
    ensures CurrentInvoices(db, supplier, asOf)
            == set i | i in db.invoices && InvoiceCounts(db.invoices[i], supplier, asOf) && db.invoices[i].status.Normal? ::
                 InvoiceRecordOf(db, i, Now)
    ensures CurrentPayments(db, supplier, asOf)
            == set m | m in db.money && PaymentCounts(db.money[m], supplier, asOf) :: PaymentRecordOf(db, m, Now)
  {
    hide Allocated;
  }

  lemma {:induction false} BirthOf(states: seq<Db>, events: seq<Timed>, n: nat, i: Id) returns (born: nat)
    requires IsHistory(states, events) && n < |states| && i in states[n].invoices
    ensures born <= n && i in states[born].invoices && (born > 0 ==> i !in states[born - 1].invoices)
  {
    hide Allowed, Next;
    if n > 0 && i in states[n - 1].invoices {
      born := BirthOf(states, events, n - 1, i);
    } else {
      born := n;
    }
  }

  lemma NextKeepsMoney(db: Db, t: Timed, m: Id)
    requires Allowed(db, t.event) && m in db.money
    ensures m in Next(db, t).money && Next(db, t).money[m] == db.money[m]
  {
    hide CanCreate, CanConfirm;
  }

  lemma {:induction false} MoneyStays(states: seq<Db>, events: seq<Timed>, n: nat, last: nat, m: Id)
    requires IsHistory(states, events) && n <= last < |states| && m in states[n].money
    ensures m in states[last].money && states[last].money[m] == states[n].money[m]
    decreases last
  {
    hide Allowed, Next;
    if n < last {
      MoneyStays(states, events, n, last - 1, m);
      NextKeepsMoney(states[last - 1], events[last - 1], m);
    }
  }

  // An invoice that was there at the cutoff is selected later exactly when it was then, and its record is the same.
  lemma InvoiceIsTimeTravel(
    states: seq<Db>, events: seq<Timed>, cutoff: int, n: nat, last: nat, supplier: Id, asOf: int, i: Id)
    requires IsHistory(states, events) && n <= last < |states| && CutsAt(events, cutoff, n) && i in states[n].invoices
    ensures i in states[last].invoices
    ensures InvoiceRecordOf(states[last], i, AsOf(cutoff)) == InvoiceRecordOf(states[n], i, Now)
    ensures InvoiceCounts(states[last].invoices[i], supplier, asOf) == InvoiceCounts(states[n].invoices[i], supplier, asOf)
    ensures ShownAsNormal(states[last], i, cutoff) == states[n].invoices[i].status.Normal?
  {
    hide IsHistory, CutsAt, Allocated, ShownAsNormal;
    var born := BirthOf(states, events, n, i);
    InvoiceStays(states, events, n, last, i);
    HistoricalStatusIsTimeTravel(states, events, cutoff, n, born, last, i);
    HistoricalOpenIsTimeTravel(states, events, cutoff, n, last, InvoiceKey(i));
  }

  lemma PaymentIsTimeTravel(states: seq<Db>, events: seq<Timed>, cutoff: int, n: nat, last: nat, m: Id)
    requires IsHistory(states, events) && n <= last < |states| && CutsAt(events, cutoff, n) && m in states[n].money
    ensures m in states[last].money && states[last].money[m] == states[n].money[m]
    ensures states[n].money[m].counterparty.Some? ==>
              PaymentRecordOf(states[last], m, AsOf(cutoff)) == PaymentRecordOf(states[n], m, Now)
  {
    hide IsHistory, CutsAt, Allocated;
    MoneyStays(states, events, n, last, m);
    HistoricalOpenIsTimeTravel(states, events, cutoff, n, last, MoneyKey(m));
  }

  // What came after the cutoff but dates from before is wholly open.
  lemma LateIsWhollyOpen(states: seq<Db>, events: seq<Timed>, cutoff: int, n: nat, last: nat, k: Key)
    requires IsHistory(states, events) && n <= last < |states| && CutsAt(events, cutoff, n)
    requires Exists(states[last], k) && !Exists(states[n], k)
    ensures Allocated(states[last].recons, k, AsOf(cutoff)) == 0
  {
    hide IsHistory, CutsAt, Allocated;
    HistoricalOpenIsTimeTravel(states, events, cutoff, n, last, k);
  }

  // The invoices of a later report that were there at the cutoff are those of a report at the cutoff itself;
  // the rest are late arrivals, wholly open.
  lemma InvoicesAreTimeTravel(
    states: seq<Db>, events: seq<Timed>, cutoff: int, n: nat, last: nat, supplier: Id, asOf: int)
    requires IsHistory(states, events) && n <= last < |states| && CutsAt(events, cutoff, n)
    ensures CurrentInvoices(states[n], supplier, asOf)
            == set r | r in HistoricalInvoices(states[last], supplier, asOf, cutoff) && r.id in states[n].invoices
    ensures forall r :: r in HistoricalInvoices(states[last], supplier, asOf, cutoff) && r.id !in states[n].invoices ==>
              r.used == 0
  {
    CurrentIsCounted(states[n], supplier, asOf);
    hide IsHistory, CutsAt, Allocated, InvoiceCounts, ShownAsNormal, CurrentInvoices;
    var later := HistoricalInvoices(states[last], supplier, asOf, cutoff);
    forall r | r in CurrentInvoices(states[n], supplier, asOf) ensures r in later && r.id in states[n].invoices {
      InvoiceIsTimeTravel(states, events, cutoff, n, last, supplier, asOf, r.id);
    }
    forall r | r in later && r.id in states[n].invoices ensures r in CurrentInvoices(states[n], supplier, asOf) {
      InvoiceIsTimeTravel(states, events, cutoff, n, last, supplier, asOf, r.id);
    }
    forall r | r in later && r.id !in states[n].invoices ensures r.used == 0 {
      LateIsWhollyOpen(states, events, cutoff, n, last, InvoiceKey(r.id));
    }
  }

  lemma PaymentsAreTimeTravel(
    states: seq<Db>, events: seq<Timed>, cutoff: int, n: nat, last: nat, supplier: Id, asOf: int)
    requires IsHistory(states, events) && n <= last < |states| && CutsAt(events, cutoff, n)
    ensures CurrentPayments(states[n], supplier, asOf)
            == set p | p in HistoricalPayments(states[last], supplier, asOf, cutoff) && p.id in states[n].money
    ensures forall p :: p in HistoricalPayments(states[last], supplier, asOf, cutoff) && p.id !in states[n].money ==>
              p.used == 0
  {
    hide IsHistory, CutsAt, Allocated;
    var later := HistoricalPayments(states[last], supplier, asOf, cutoff);
    forall p | p in CurrentPayments(states[n], supplier, asOf) ensures p in later && p.id in states[n].money {
      PaymentIsTimeTravel(states, events, cutoff, n, last, p.id);
    }
    forall p | p in later && p.id in states[n].money ensures p in CurrentPayments(states[n], supplier, asOf) {
      PaymentIsTimeTravel(states, events, cutoff, n, last, p.id);
    }
    forall p | p in later && p.id !in states[n].money ensures p.used == 0 {
      LateIsWhollyOpen(states, events, cutoff, n, last, MoneyKey(p.id));
    }
  }

  // Nothing a report shows has arrived since the cutoff.
  ghost predicate NothingLate(db: Db, later: Db, supplier: Id, asOf: int, cutoff: int) {
    && (forall r :: r in HistoricalInvoices(later, supplier, asOf, cutoff) ==> r.id in db.invoices)
    && (forall p :: p in HistoricalPayments(later, supplier, asOf, cutoff) ==> p.id in db.money)
  }

  // A report computed later rests on the records of the date exactly when nothing it shows came late.
  lemma ReportIsTimeTravelExactlyWhenNothingIsLate(
    states: seq<Db>, events: seq<Timed>, cutoff: int, n: nat, last: nat, supplier: Id, asOf: int)
    requires IsHistory(states, events) && n <= last < |states| && CutsAt(events, cutoff, n)
    ensures HistoricalInvoices(states[last], supplier, asOf, cutoff) == CurrentInvoices(states[n], supplier, asOf)
            && HistoricalPayments(states[last], supplier, asOf, cutoff) == CurrentPayments(states[n], supplier, asOf)
            <==> NothingLate(states[n], states[last], supplier, asOf, cutoff)
  {
    InvoicesAreTimeTravel(states, events, cutoff, n, last, supplier, asOf);
    PaymentsAreTimeTravel(states, events, cutoff, n, last, supplier, asOf);
    hide IsHistory, CutsAt, HistoricalInvoices, HistoricalPayments, CurrentInvoices, CurrentPayments;
  }

  // A list of records in some order, each once.
  ghost predicate Enumerates<T(!new)>(list: seq<T>, records: set<T>) {
    (forall r :: r in list <==> r in records) && forall j, k :: 0 <= j < k < |list| ==> list[j] != list[k]
  }

  lemma {:induction false} EnumeratesIsMultiset<T(!new)>(list: seq<T>, records: set<T>)
    requires Enumerates(list, records)
    ensures multiset(list) == multiset(records)
  {
    if list == [] {
      assert records == {};
    } else {
      var n := |list| - 1;
      var rest, last := list[..n], list[n];
      assert list == rest + [last];
      EnumeratesRest(list, records);
      EnumeratesIsMultiset(rest, records - {last});
      assert last in records;
      assert multiset(records) == multiset(records - {last}) + multiset{last};
    }
  }

  lemma EnumeratesRest<T(!new)>(list: seq<T>, records: set<T>)
    requires Enumerates(list, records) && list != []
    ensures Enumerates(list[..|list| - 1], records - {list[|list| - 1]})
  {
    var n := |list| - 1;
    forall r ensures r in list[..n] <==> r in records - {list[n]} {
      if r in records - {list[n]} {
        var j :| 0 <= j < |list| && list[j] == r;
      }
    }
  }

  // The same records in another order give the same rows.

  lemma {:induction false} InvoiceRowsOfParts(a: seq<InvoiceRecord>, b: seq<InvoiceRecord>)
    ensures InvoiceRows(a + b) == InvoiceRows(a) + InvoiceRows(b)
  {
    if b == [] {
      assert a + b == a;
    } else {
      assert (a + b)[..|a + b| - 1] == a + b[..|b| - 1];
      InvoiceRowsOfParts(a, b[..|b| - 1]);
    }
  }

  lemma {:induction false} PaymentRowsOfParts(a: seq<PaymentRecord>, b: seq<PaymentRecord>)
    ensures PaymentRows(a + b) == PaymentRows(a) + PaymentRows(b)
  {
    if b == [] {
      assert a + b == a;
    } else {
      assert (a + b)[..|a + b| - 1] == a + b[..|b| - 1];
      PaymentRowsOfParts(a, b[..|b| - 1]);
    }
  }

  // Two lists of the same content: the last of the one is somewhere in the other.
  lemma Somewhere<T>(a: seq<T>, b: seq<T>) returns (j: nat)
    requires a != [] && multiset(a) == multiset(b)
    ensures j < |b| && b[j] == a[|a| - 1]
    ensures multiset(a[..|a| - 1]) == multiset(b[..j] + b[j + 1..]) && b == b[..j] + [b[j]] + b[j + 1..]
  {
    var last := a[|a| - 1];
    assert last in multiset(b);
    j :| 0 <= j < |b| && b[j] == last;
    assert a == a[..|a| - 1] + [last];
    assert b == b[..j] + [b[j]] + b[j + 1..];
    assert multiset(a) == multiset{last} + multiset(a[..|a| - 1]);
    assert multiset(b) == multiset{last} + multiset(b[..j] + b[j + 1..]);
    Cancel(last, multiset(a[..|a| - 1]), multiset(b[..j] + b[j + 1..]));
  }

  lemma Cancel<T>(x: T, a: multiset<T>, b: multiset<T>)
    requires multiset{x} + a == multiset{x} + b
    ensures a == b
  {
    assert a == (multiset{x} + a) - multiset{x};
    assert b == (multiset{x} + b) - multiset{x};
  }

  lemma {:induction false} InvoiceRowsOfContent(a: seq<InvoiceRecord>, b: seq<InvoiceRecord>)
    requires multiset(a) == multiset(b)
    ensures multiset(InvoiceRows(a)) == multiset(InvoiceRows(b))
  {
    if a == [] {
      assert |multiset(b)| == 0;
      assert b == [];
    } else {
      var j := Somewhere(a, b);
      InvoiceRowsOfContent(a[..|a| - 1], b[..j] + b[j + 1..]);
      assert a == a[..|a| - 1] + [b[j]];
      hide InvoiceRows;
      InvoiceRowsOfParts(a[..|a| - 1], [b[j]]);
      InvoiceRowsOfParts(b[..j], b[j + 1..]);
      InvoiceRowsOfParts(b[..j] + [b[j]], b[j + 1..]);
      InvoiceRowsOfParts(b[..j], [b[j]]);
    }
  }

  lemma {:induction false} PaymentRowsOfContent(a: seq<PaymentRecord>, b: seq<PaymentRecord>)
    requires multiset(a) == multiset(b)
    ensures multiset(PaymentRows(a)) == multiset(PaymentRows(b))
  {
    if a == [] {
      assert |multiset(b)| == 0;
      assert b == [];
    } else {
      var j := Somewhere(a, b);
      PaymentRowsOfContent(a[..|a| - 1], b[..j] + b[j + 1..]);
      assert a == a[..|a| - 1] + [b[j]];
      hide PaymentRows;
      PaymentRowsOfParts(a[..|a| - 1], [b[j]]);
      PaymentRowsOfParts(b[..j], b[j + 1..]);
      PaymentRowsOfParts(b[..j] + [b[j]], b[j + 1..]);
      PaymentRowsOfParts(b[..j], [b[j]]);
    }
  }

  // The order leaves no choice where no two rows share kind and identifier.
  ghost predicate Strict(rows: seq<LedgerRow>) {
    forall a, b :: a in rows && b in rows && a.kind == b.kind && a.id == b.id ==> a == b
  }

  lemma {:induction false} OneOrder(a: seq<LedgerRow>, b: seq<LedgerRow>)
    requires Ordered(a) && Ordered(b) && multiset(a) == multiset(b) && Strict(a)
    ensures a == b
  {
    if a == [] {
      assert |multiset(b)| == 0;
    } else {
      SameFirst(a, b);
      assert a == [a[0]] + a[1..] && b == [b[0]] + b[1..];
      assert multiset(a) == multiset{a[0]} + multiset(a[1..]) && multiset(b) == multiset{a[0]} + multiset(b[1..]);
      Cancel(a[0], multiset(a[1..]), multiset(b[1..]));
      OneOrder(a[1..], b[1..]);
    }
  }

  lemma SameFirst(a: seq<LedgerRow>, b: seq<LedgerRow>)
    requires Ordered(a) && Ordered(b) && multiset(a) == multiset(b) && Strict(a) && a != []
    ensures b != [] && a[0] == b[0]
  {
    assert a[0] in multiset(b);
    var j :| 0 <= j < |b| && b[j] == a[0];
    assert b[0] in multiset(a);
    var k :| 0 <= k < |a| && a[k] == b[0];
  }

  lemma {:induction false} SourceOfInvoiceRow(records: seq<InvoiceRecord>, row: LedgerRow) returns (r: InvoiceRecord)
    requires row in InvoiceRows(records)
    ensures r in records && row == RowOfInvoice(r)
  {
    var n := |records| - 1;
    if row in InvoiceRows(records[..n]) {
      r := SourceOfInvoiceRow(records[..n], row);
    } else {
      r := records[n];
    }
  }

  lemma {:induction false} SourceOfPaymentRow(records: seq<PaymentRecord>, row: LedgerRow) returns (p: PaymentRecord)
    requires row in PaymentRows(records)
    ensures p in records && row == RowOfPayment(p)
  {
    var n := |records| - 1;
    if row in PaymentRows(records[..n]) {
      p := SourceOfPaymentRow(records[..n], row);
    } else {
      p := records[n];
    }
  }

  // One record for each identifier.
  ghost predicate OneEach(invoices: set<InvoiceRecord>, payments: set<PaymentRecord>) {
    && (forall r, s :: r in invoices && s in invoices && r.id == s.id ==> r == s)
    && (forall p, q :: p in payments && q in payments && p.id == q.id ==> p == q)
  }

  lemma OneRowEach(
    rows: seq<LedgerRow>, invoices: seq<InvoiceRecord>, payments: seq<PaymentRecord>,
    invoiceSet: set<InvoiceRecord>, paymentSet: set<PaymentRecord>)
    requires multiset(rows) == multiset(InvoiceRows(invoices)) + multiset(PaymentRows(payments))
    requires Enumerates(invoices, invoiceSet) && Enumerates(payments, paymentSet) && OneEach(invoiceSet, paymentSet)
    ensures Strict(rows)
  {
    hide InvoiceRows, PaymentRows;
    forall a, b | a in rows && b in rows && a.kind == b.kind && a.id == b.id ensures a == b {
      RowSource(rows, invoices, payments, a);
      RowSource(rows, invoices, payments, b);
    }
  }

  lemma RowSource(rows: seq<LedgerRow>, invoices: seq<InvoiceRecord>, payments: seq<PaymentRecord>, row: LedgerRow)
    requires multiset(rows) == multiset(InvoiceRows(invoices)) + multiset(PaymentRows(payments)) && row in rows
    ensures (exists r :: r in invoices && row == RowOfInvoice(r)) || (exists p :: p in payments && row == RowOfPayment(p))
  {
    hide InvoiceRows, PaymentRows;
    assert row in multiset(InvoiceRows(invoices)) + multiset(PaymentRows(payments));
    if row in InvoiceRows(invoices) {
      var r := SourceOfInvoiceRow(invoices, row);
    } else {
      var p := SourceOfPaymentRow(payments, row);
    }
  }

  // A ledger is determined by its records, in whatever order they come.
  lemma LedgerIsDetermined(
    first: seq<LedgerRow>, second: seq<LedgerRow>,
    invoices: seq<InvoiceRecord>, payments: seq<PaymentRecord>,
    otherInvoices: seq<InvoiceRecord>, otherPayments: seq<PaymentRecord>,
    invoiceSet: set<InvoiceRecord>, paymentSet: set<PaymentRecord>)
    requires IsLedger(first, invoices, payments) && IsLedger(second, otherInvoices, otherPayments)
    requires Enumerates(invoices, invoiceSet) && Enumerates(payments, paymentSet)
    requires Enumerates(otherInvoices, invoiceSet) && Enumerates(otherPayments, paymentSet)
    requires OneEach(invoiceSet, paymentSet)
    ensures first == second
  {
    hide Enumerates, OneEach, InvoiceRows, PaymentRows, Ordered, Strict, Net;
    EnumeratesIsMultiset(invoices, invoiceSet);
    EnumeratesIsMultiset(otherInvoices, invoiceSet);
    EnumeratesIsMultiset(payments, paymentSet);
    EnumeratesIsMultiset(otherPayments, paymentSet);
    InvoiceRowsOfContent(invoices, otherInvoices);
    PaymentRowsOfContent(payments, otherPayments);
    var rows :| RunsDown(first, rows) && Ordered(rows)
                && multiset(rows) == multiset(InvoiceRows(invoices)) + multiset(PaymentRows(payments));
    var others :| RunsDown(second, others) && Ordered(others)
                  && multiset(others) == multiset(InvoiceRows(otherInvoices)) + multiset(PaymentRows(otherPayments));
    OneRowEach(rows, invoices, payments, invoiceSet, paymentSet);
    OneOrder(rows, others);
    assert first == second;
  }

  lemma RecordsAreOneEach(db: Db, supplier: Id, asOf: int)
    ensures OneEach(CurrentInvoices(db, supplier, asOf), CurrentPayments(db, supplier, asOf))
  {
    hide Allocated;
  }

  // Which records a ledger has rows of.

  ghost predicate Mentions(ledger: seq<LedgerRow>, kind: LedgerKind, id: Id) {
    exists k :: 0 <= k < |ledger| && ledger[k].kind == kind && ledger[k].id == id
  }

  lemma {:induction false} InvoiceHasRow(records: seq<InvoiceRecord>, r: InvoiceRecord)
    requires r in records
    ensures RowOfInvoice(r) in InvoiceRows(records)
  {
    var n := |records| - 1;
    if records[n] != r {
      InvoiceHasRow(records[..n], r);
    }
  }

  lemma {:induction false} PaymentHasRow(records: seq<PaymentRecord>, p: PaymentRecord)
    requires p in records
    ensures RowOfPayment(p) in PaymentRows(records)
  {
    var n := |records| - 1;
    if records[n] != p {
      PaymentHasRow(records[..n], p);
    }
  }

  lemma RowIsMentioned(
    ledger: seq<LedgerRow>, invoices: seq<InvoiceRecord>, payments: seq<PaymentRecord>, row: LedgerRow)
    requires IsLedger(ledger, invoices, payments) && (row in InvoiceRows(invoices) || row in PaymentRows(payments))
    ensures Mentions(ledger, row.kind, row.id)
  {
    hide InvoiceRows, PaymentRows, Net, Ordered;
    var rows: seq<LedgerRow> :| RunsDown(ledger, rows) && Ordered(rows)
                && multiset(rows) == multiset(InvoiceRows(invoices)) + multiset(PaymentRows(payments));
    assert row in multiset(rows);
    var k :| 0 <= k < |rows| && rows[k] == row;
    assert ledger[k].kind == row.kind && ledger[k].id == row.id;
  }

  lemma MentionedHasRecord(
    ledger: seq<LedgerRow>, invoices: seq<InvoiceRecord>, payments: seq<PaymentRecord>, kind: LedgerKind, id: Id)
    requires IsLedger(ledger, invoices, payments) && Mentions(ledger, kind, id)
    ensures if kind.InvoiceRow? then exists r :: r in invoices && r.id == id else exists p :: p in payments && p.id == id
  {
    hide InvoiceRows, PaymentRows, Net, Ordered;
    var rows: seq<LedgerRow> :| RunsDown(ledger, rows) && Ordered(rows)
                && multiset(rows) == multiset(InvoiceRows(invoices)) + multiset(PaymentRows(payments));
    var k :| 0 <= k < |ledger| && ledger[k].kind == kind && ledger[k].id == id;
    assert rows[k].kind == kind && rows[k].id == id;
    RowSource(rows, invoices, payments, rows[k]);
  }

  lemma EqualLedgersShowNothingLate(
    db: Db, later: Db, supplier: Id, asOf: int, cutoff: int,
    invoices: seq<InvoiceRecord>, payments: seq<PaymentRecord>,
    laterInvoices: seq<InvoiceRecord>, laterPayments: seq<PaymentRecord>, ledger: seq<LedgerRow>)
    requires Enumerates(invoices, CurrentInvoices(db, supplier, asOf))
    requires Enumerates(payments, CurrentPayments(db, supplier, asOf))
    requires Enumerates(laterInvoices, HistoricalInvoices(later, supplier, asOf, cutoff))
    requires Enumerates(laterPayments, HistoricalPayments(later, supplier, asOf, cutoff))
    requires IsLedger(ledger, invoices, payments) && IsLedger(ledger, laterInvoices, laterPayments)
    ensures NothingLate(db, later, supplier, asOf, cutoff)
  {
    hide IsLedger, Mentions, HistoricalInvoices, HistoricalPayments, InvoiceRows, PaymentRows, Allocated;
    forall r | r in HistoricalInvoices(later, supplier, asOf, cutoff) ensures r.id in db.invoices {
      InvoiceHasRow(laterInvoices, r);
      RowIsMentioned(ledger, laterInvoices, laterPayments, RowOfInvoice(r));
      MentionedHasRecord(ledger, invoices, payments, InvoiceRow, r.id);
    }
    forall p | p in HistoricalPayments(later, supplier, asOf, cutoff) ensures p.id in db.money {
      PaymentHasRow(laterPayments, p);
      RowIsMentioned(ledger, laterInvoices, laterPayments, RowOfPayment(p));
      MentionedHasRecord(ledger, invoices, payments, PaymentRow, p.id);
    }
  }

  // supplier_ledger_as_of computed on a later database is, row by row, the ledger of the date itself exactly when
  // nothing it shows came late.
  lemma SupplierLedgerIsTimeTravel(
    states: seq<Db>, events: seq<Timed>, cutoff: int, n: nat, last: nat, supplier: Id, asOf: int,
    invoices: seq<InvoiceRecord>, payments: seq<PaymentRecord>, ledger: seq<LedgerRow>,
    laterInvoices: seq<InvoiceRecord>, laterPayments: seq<PaymentRecord>, laterLedger: seq<LedgerRow>)
    requires IsHistory(states, events) && n <= last < |states| && CutsAt(events, cutoff, n)
    requires Enumerates(invoices, CurrentInvoices(states[n], supplier, asOf))
    requires Enumerates(payments, CurrentPayments(states[n], supplier, asOf))
    requires Enumerates(laterInvoices, HistoricalInvoices(states[last], supplier, asOf, cutoff))
    requires Enumerates(laterPayments, HistoricalPayments(states[last], supplier, asOf, cutoff))
    requires IsLedger(ledger, invoices, payments) && IsLedger(laterLedger, laterInvoices, laterPayments)
    ensures laterLedger == ledger <==> NothingLate(states[n], states[last], supplier, asOf, cutoff)
  {
    hide *;
    if NothingLate(states[n], states[last], supplier, asOf, cutoff) {
      ReportIsTimeTravelExactlyWhenNothingIsLate(states, events, cutoff, n, last, supplier, asOf);
      RecordsAreOneEach(states[n], supplier, asOf);
      LedgerIsDetermined(laterLedger, ledger, laterInvoices, laterPayments, invoices, payments,
                         CurrentInvoices(states[n], supplier, asOf), CurrentPayments(states[n], supplier, asOf));
    }
    if laterLedger == ledger {
      EqualLedgersShowNothingLate(states[n], states[last], supplier, asOf, cutoff,
                                  invoices, payments, laterInvoices, laterPayments, ledger);
    }
  }

  // An invoice issued at 1 but recorded at 5 is in the ledger as of 3 computed later, and was not in it at the time.
  lemma LateInvoiceChangesTheLedger()
    ensures var invoice := Invoice(Input, 7, 100, Normal, 1);
            var events, states := [Timed(5, AddsInvoice(0, invoice))], [EMPTY, EMPTY.(invoices := map[0 := invoice])];
            && IsHistory(states, events) && CutsAt(events, 3, 0)
            && HistoricalInvoices(states[1], 7, 3, 3) == {InvoiceRecord(0, 7, 1, 100, 0)}
            && CurrentInvoices(states[0], 7, 3) == {}
            && !NothingLate(states[0], states[1], 7, 3, 3)
  {
    var db := EMPTY.(invoices := map[0 := Invoice(Input, 7, 100, Normal, 1)]);
    assert InvoiceRecordOf(db, 0, AsOf(3)) == InvoiceRecord(0, 7, 1, 100, 0);
    assert ShownAsNormal(db, 0, 3);
    assert InvoiceRecord(0, 7, 1, 100, 0) in HistoricalInvoices(db, 7, 3, 3);
  }
}

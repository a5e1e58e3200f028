// The reconciliation ledger as a value: invoices, money transactions, reconciliations that allocate the
// one against the other, their reversals, settlement batches and the audit trail of invoice statuses
// (apps/reconciliation, apps/ledger).  Amounts are integer cents, timestamps integers.

module LedgerModel {
  import opened Common

  type Id = nat

  datatype InvoiceStatus = Normal | Void | Red
  datatype InvoiceDirection = Input | Output
  datatype MoneyDirection = Inflow | Outflow
  datatype Direction = PurchasePayment | SalesReceipt
  datatype Mode = Direct | BatchMode

  datatype Invoice = Invoice(
    direction: InvoiceDirection, counterparty: Id, total: int, status: InvoiceStatus, issueDate: int)

  // A stored moment has two calendar days: the day in the local time zone and the stored value's own.
  datatype Money = Money(
    direction: MoneyDirection, counterparty: Option<Id>, amount: int, localDay: int, ownDay: int)

  datatype Allocation = Allocation(invoice: Id, money: Id, amount: int)

  datatype Reconciliation = Reconciliation(
    direction: Direction, mode: Mode, batch: Option<Id>, allocations: seq<Allocation>,
    createdAt: int, reversedAt: Option<int>)

  datatype Batch = Batch(
    counterparty: Id, direction: Direction, periodStart: int, periodEnd: int,
    confirmed: bool, version: nat, invoices: set<Id>, money: set<Id>)

  datatype Audit = Audit(invoice: Id, from: InvoiceStatus, to: InvoiceStatus, at: int)

  // Reconciliations and batches are never deleted; their position is their identity.
  datatype Db = Db(
    invoices: map<Id, Invoice>, money: map<Id, Money>, recons: seq<Reconciliation>,
    batches: seq<Batch>, audits: seq<Audit>)

  // Both sides of an allocation are treated alike: a key names an invoice or a money transaction.
  datatype Key = InvoiceKey(id: Id) | MoneyKey(id: Id)

  predicate Touches(a: Allocation, k: Key) {
    match k case InvoiceKey(id) => a.invoice == id case MoneyKey(id) => a.money == id
  }

  predicate Exists(db: Db, k: Key) {
    match k case InvoiceKey(id) => id in db.invoices case MoneyKey(id) => id in db.money
  }

  function Amount(db: Db, k: Key): int
    requires Exists(db, k)
  {
    match k case InvoiceKey(id) => db.invoices[id].total case MoneyKey(id) => db.money[id].amount
  }

  // Which reconciliations a sum counts: those not reversed, or those that were in force at a cutoff.
  datatype View = Now | AsOf(cutoff: int)

  predicate Counted(r: Reconciliation, v: View) {
    match v
    case Now => r.reversedAt.None?
    case AsOf(cutoff) => r.createdAt < cutoff && (r.reversedAt.None? || r.reversedAt.value >= cutoff)
  }

  function AllocSum(allocations: seq<Allocation>, k: Key): int {
    if allocations == [] then 0
    else
      var last := allocations[|allocations| - 1];
      AllocSum(allocations[..|allocations| - 1], k) + (if Touches(last, k) then last.amount else 0)
  }

  function Share(r: Reconciliation, k: Key, v: View): int {
    if Counted(r, v) then AllocSum(r.allocations, k) else 0
  }

  function Allocated(recons: seq<Reconciliation>, k: Key, v: View): int {
    if recons == [] then 0
    else Allocated(recons[..|recons| - 1], k, v) + Share(recons[|recons| - 1], k, v)
  }

  // invoice_open_amount and transaction_open_amount.
  function Open(db: Db, k: Key): int
    requires Exists(db, k)
  {
    Amount(db, k) - Allocated(db.recons, k, Now)
  }

  function InvoiceSide(d: Direction): InvoiceDirection {
    match d case PurchasePayment => Input case SalesReceipt => Output
  }

  function MoneySide(d: Direction): MoneyDirection {
    match d case PurchasePayment => Outflow case SalesReceipt => Inflow
  }

  // One request to create a reconciliation, and what its validation reads from the database.
  datatype CreateRequest = CreateRequest(
    direction: Direction, mode: Mode, batch: Option<Id>, allocations: seq<Allocation>,
    expectedInvoices: Option<map<Id, int>>, expectedMoney: Option<map<Id, int>>, allowPartial: bool)

  datatype Reading = Reading(
    invoices: map<Id, Invoice>, money: map<Id, Money>,
    invoiceAllocated: map<Id, int>, moneyAllocated: map<Id, int>)

  function InvoiceIds(allocations: seq<Allocation>): (ids: set<Id>)
    ensures forall a :: a in allocations ==> a.invoice in ids
  {
    if allocations == [] then {}
    else InvoiceIds(allocations[..|allocations| - 1]) + {allocations[|allocations| - 1].invoice}
  }

  function MoneyIds(allocations: seq<Allocation>): (ids: set<Id>)
    ensures forall a :: a in allocations ==> a.money in ids
  {
    if allocations == [] then {}
    else MoneyIds(allocations[..|allocations| - 1]) + {allocations[|allocations| - 1].money}
  }

  // Every id stems from a line.
  lemma {:induction false} InvoiceIdWitness(allocations: seq<Allocation>, i: Id) returns (a: Allocation)
    requires i in InvoiceIds(allocations)
    ensures a in allocations && a.invoice == i
  {
    var last := allocations[|allocations| - 1];
    if last.invoice == i {
      a := last;
    } else {
      a := InvoiceIdWitness(allocations[..|allocations| - 1], i);
    }
  }

  lemma {:induction false} MoneyIdWitness(allocations: seq<Allocation>, m: Id) returns (a: Allocation)
    requires m in MoneyIds(allocations)
    ensures a in allocations && a.money == m
  {
    var last := allocations[|allocations| - 1];
    if last.money == m {
      a := last;
    } else {
      a := MoneyIdWitness(allocations[..|allocations| - 1], m);
    }
  }

  function ReadingOf(db: Db, allocations: seq<Allocation>): Reading {
    Reading(
      map i | i in InvoiceIds(allocations) && i in db.invoices :: db.invoices[i],
      map m | m in MoneyIds(allocations) && m in db.money :: db.money[m],
      map i | i in InvoiceIds(allocations) :: Allocated(db.recons, InvoiceKey(i), Now),
      map m | m in MoneyIds(allocations) :: Allocated(db.recons, MoneyKey(m), Now))
  }

  // The record checks of one line.
  predicate LineFits(r: Reading, direction: Direction, a: Allocation) {
    && a.amount > 0
    && a.invoice in r.invoices && a.money in r.money
    && r.invoices[a.invoice].status.Normal?
    && r.invoices[a.invoice].direction == InvoiceSide(direction)
    && r.money[a.money].direction == MoneySide(direction)
    && r.money[a.money].counterparty == Some(r.invoices[a.invoice].counterparty)
  }

  function InvoiceOpen(r: Reading, i: Id): int
    requires i in r.invoices && i in r.invoiceAllocated
  {
    r.invoices[i].total - r.invoiceAllocated[i]
  }

  function MoneyOpen(r: Reading, m: Id): int
    requires m in r.money && m in r.moneyAllocated
  {
    r.money[m].amount - r.moneyAllocated[m]
  }

  predicate Complete(r: Reading, allocations: seq<Allocation>) {
    && r.invoices.Keys <= InvoiceIds(allocations) == r.invoiceAllocated.Keys
    && r.money.Keys <= MoneyIds(allocations) == r.moneyAllocated.Keys
  }

  predicate LinesFit(r: Reading, q: CreateRequest) {
    forall a :: a in q.allocations ==> LineFits(r, q.direction, a)
  }

  // Every id the lines mention was read.
  lemma LinesAreRead(r: Reading, q: CreateRequest)
    requires Complete(r, q.allocations) && LinesFit(r, q)
    ensures r.invoices.Keys == InvoiceIds(q.allocations) && r.money.Keys == MoneyIds(q.allocations)
  {
    forall i | i in InvoiceIds(q.allocations) ensures i in r.invoices {
      var a := InvoiceIdWitness(q.allocations, i);
      assert LineFits(r, q.direction, a);
    }
    forall m | m in MoneyIds(q.allocations) ensures m in r.money {
      var a := MoneyIdWitness(q.allocations, m);
      assert LineFits(r, q.direction, a);
    }
  }

  predicate Covers(r: Reading, q: CreateRequest) {
    && r.invoices.Keys == r.invoiceAllocated.Keys == InvoiceIds(q.allocations)
    && r.money.Keys == r.moneyAllocated.Keys == MoneyIds(q.allocations)
  }

  // The open amounts the page showed are still the open amounts.
  predicate PageFresh(r: Reading, q: CreateRequest)
    requires Covers(r, q)
  {
    && (q.expectedInvoices.Some? ==> q.expectedInvoices.value == map i | i in r.invoices :: InvoiceOpen(r, i))
    && (q.expectedMoney.Some? ==> q.expectedMoney.value == map m | m in r.money :: MoneyOpen(r, m))
  }

  predicate PartialConfirmed(r: Reading, q: CreateRequest)
    requires Covers(r, q)
  {
    !q.allowPartial ==>
      forall i :: i in r.invoices ==> InvoiceOpen(r, i) <= AllocSum(q.allocations, InvoiceKey(i))
  }

  predicate MoneySuffices(r: Reading, q: CreateRequest)
    requires Covers(r, q)
  {
    forall m :: m in r.money ==> AllocSum(q.allocations, MoneyKey(m)) <= MoneyOpen(r, m)
  }

  predicate InvoicesSuffice(r: Reading, q: CreateRequest)
    requires Covers(r, q)
  {
    forall i :: i in r.invoices ==> AllocSum(q.allocations, InvoiceKey(i)) <= InvoiceOpen(r, i)
  }

  // What _validate_allocations lets through.
  predicate Accepts(r: Reading, q: CreateRequest)
    requires Complete(r, q.allocations)
  {
    && LinesFit(r, q) && Covers(r, q)
    && PageFresh(r, q) && PartialConfirmed(r, q)
    && MoneySuffices(r, q) && InvoicesSuffice(r, q)
  }

  // Only a batch settles in batch mode.
  predicate ModeFits(q: CreateRequest) {
    q.batch.Some? <==> q.mode.BatchMode?
  }

  predicate CanCreate(db: Db, q: CreateRequest) {
    ModeFits(q) && q.allocations != [] && Accepts(ReadingOf(db, q.allocations), q)
  }

  function NewReconciliation(q: CreateRequest, at: int): Reconciliation {
    Reconciliation(q.direction, q.mode, q.batch, q.allocations, at, None)
  }

  function Created(db: Db, q: CreateRequest, at: int): Db {
    db.(recons := db.recons + [NewReconciliation(q, at)])
  }

  predicate CanReverse(db: Db, i: nat) {
    i < |db.recons| && db.recons[i].reversedAt.None?
  }

  function Reversed(db: Db, i: nat, at: int): Db
    requires i < |db.recons|
  {
    db.(recons := db.recons[i := db.recons[i].(reversedAt := Some(at))])
  }

  // The ledger's invariant.
  ghost predicate Consistent(db: Db) {
    && (forall i :: i in db.invoices ==> db.invoices[i].total > 0)
    && (forall m :: m in db.money ==> db.money[m].amount > 0)
    && (forall r :: r in db.recons ==> Recorded(db, r))
    && (forall k :: Exists(db, k) ==> Allocated(db.recons, k, Now) <= Amount(db, k))
    && BatchesLinked(db)
  }

  // Every line of a reconciliation joins an invoice and a transaction of one counterparty, the right way round.
  predicate Recorded(db: Db, r: Reconciliation) {
    && (r.batch.Some? <==> r.mode.BatchMode?)
    && forall a :: a in r.allocations ==>
         && a.amount > 0 && a.invoice in db.invoices && a.money in db.money
         && db.invoices[a.invoice].direction == InvoiceSide(r.direction)
         && db.money[a.money].direction == MoneySide(r.direction)
         && db.money[a.money].counterparty == Some(db.invoices[a.invoice].counterparty)
  }

  // A draft has no reconciliation, a confirmed batch exactly one, whatever happens to it later.
  ghost predicate BatchesLinked(db: Db) {
    && (forall i :: 0 <= i < |db.recons| && db.recons[i].batch.Some? ==>
          db.recons[i].batch.value < |db.batches| && db.batches[db.recons[i].batch.value].confirmed)
    && (forall i, j :: 0 <= i < j < |db.recons| && db.recons[i].batch.Some? ==>
          db.recons[j].batch != db.recons[i].batch)
    && (forall b: nat :: b < |db.batches| && db.batches[b].confirmed ==>
          exists i :: 0 <= i < |db.recons| && db.recons[i].batch == Some(b))
    && (forall b :: 0 <= b < |db.batches| ==>
          db.batches[b].invoices <= db.invoices.Keys && db.batches[b].money <= db.money.Keys)
  }

  // Sums.

  lemma {:induction false} AllocSumNonNegative(allocations: seq<Allocation>, k: Key)
    requires forall a :: a in allocations ==> a.amount > 0
    ensures AllocSum(allocations, k) >= 0
    ensures (exists a :: a in allocations && Touches(a, k)) ==> AllocSum(allocations, k) > 0
    ensures (forall a :: a in allocations ==> !Touches(a, k)) ==> AllocSum(allocations, k) == 0
  {
    if allocations != [] {
      AllocSumNonNegative(allocations[..|allocations| - 1], k);
    }
  }

  lemma AllocatedAppend(recons: seq<Reconciliation>, r: Reconciliation, k: Key, v: View)
    ensures Allocated(recons + [r], k, v) == Allocated(recons, k, v) + Share(r, k, v)
  {
    assert (recons + [r])[..|recons|] == recons;
  }

  lemma {:induction false} AllocatedUpdate(recons: seq<Reconciliation>, i: nat, r: Reconciliation, k: Key, v: View)
    requires i < |recons|
    ensures Allocated(recons[i := r], k, v) == Allocated(recons, k, v) - Share(recons[i], k, v) + Share(r, k, v)
  {
    var n := |recons| - 1;
    if i == n {
      assert recons[i := r][..n] == recons[..n];
    } else {
      assert recons[i := r][..n] == recons[..n][i := r];
      AllocatedUpdate(recons[..n], i, r, k, v);
    }
  }

  lemma {:induction false} AllocatedNonNegative(recons: seq<Reconciliation>, k: Key, v: View)
    requires forall r :: r in recons ==> forall a :: a in r.allocations ==> a.amount > 0
    ensures Allocated(recons, k, v) >= 0
  {
    if recons != [] {
      AllocatedNonNegative(recons[..|recons| - 1], k, v);
      var r := recons[|recons| - 1];
      assert r in recons;
      AllocSumNonNegative(r.allocations, k);
    }
  }

  // In every consistent ledger each invoice and each transaction is allocated between nothing and its amount.
  lemma WithinCapacity(db: Db, k: Key)
    requires Consistent(db) && Exists(db, k)
    ensures 0 <= Allocated(db.recons, k, Now) <= Amount(db, k)
    ensures 0 <= Open(db, k) <= Amount(db, k)
  {
    forall r | r in db.recons ensures forall a :: a in r.allocations ==> a.amount > 0 {
      assert Recorded(db, r);
    }
    AllocatedNonNegative(db.recons, k, Now);
  }

  // Creating and reversing keep the ledger consistent.

  lemma AcceptedLineFits(db: Db, q: CreateRequest, a: Allocation)
    requires CanCreate(db, q) && a in q.allocations
    ensures LineFits(ReadingOf(db, q.allocations), q.direction, a)
  {
  }

  lemma AcceptedInvoiceHasRoom(db: Db, q: CreateRequest, i: Id)
    requires CanCreate(db, q) && i in db.invoices && i in InvoiceIds(q.allocations)
    ensures AllocSum(q.allocations, InvoiceKey(i)) <= Open(db, InvoiceKey(i))
  {
    assert AllocSum(q.allocations, InvoiceKey(i)) <= InvoiceOpen(ReadingOf(db, q.allocations), i);
  }

  lemma AcceptedMoneyHasRoom(db: Db, q: CreateRequest, m: Id)
    requires CanCreate(db, q) && m in db.money && m in MoneyIds(q.allocations)
    ensures AllocSum(q.allocations, MoneyKey(m)) <= Open(db, MoneyKey(m))
  {
    assert AllocSum(q.allocations, MoneyKey(m)) <= MoneyOpen(ReadingOf(db, q.allocations), m);
  }

  lemma RequestedFits(db: Db, q: CreateRequest, k: Key)
    requires CanCreate(db, q) && Exists(db, k) && Allocated(db.recons, k, Now) <= Amount(db, k)
    ensures AllocSum(q.allocations, k) + Allocated(db.recons, k, Now) <= Amount(db, k)
  {
    match k
    case InvoiceKey(i) =>
      if i in InvoiceIds(q.allocations) {
        AcceptedInvoiceHasRoom(db, q, i);
      } else {
        UntouchedSum(db, q, k);
      }
    case MoneyKey(m) =>
      if m in MoneyIds(q.allocations) {
        AcceptedMoneyHasRoom(db, q, m);
      } else {
        UntouchedSum(db, q, k);
      }
  }

  lemma UntouchedSum(db: Db, q: CreateRequest, k: Key)
    requires CanCreate(db, q) && forall a :: a in q.allocations ==> !Touches(a, k)
    ensures AllocSum(q.allocations, k) == 0
  {
    forall a | a in q.allocations ensures a.amount > 0 {
      AcceptedLineFits(db, q, a);
    }
    AllocSumNonNegative(q.allocations, k);
  }

  lemma CreateKeepsCapacity(db: Db, q: CreateRequest, at: int)
    requires CanCreate(db, q)
    requires forall k :: Exists(db, k) ==> Allocated(db.recons, k, Now) <= Amount(db, k)
    ensures var after := Created(db, q, at);
            forall k :: Exists(db, k) ==> Allocated(after.recons, k, Now) <= Amount(db, k)
  {
    var after := Created(db, q, at);
    forall k | Exists(db, k) ensures Allocated(after.recons, k, Now) <= Amount(db, k) {
      RequestedFits(db, q, k);
      AllocatedAppend(db.recons, NewReconciliation(q, at), k, Now);
    }
  }

  lemma CreateKeepsConsistent(db: Db, q: CreateRequest, at: int)
    requires Consistent(db) && CanCreate(db, q) && q.batch.None?
    ensures Consistent(Created(db, q, at))
  {
    var after := Created(db, q, at);
    CreateKeepsCapacity(db, q, at);
    CreatedIsRecorded(db, q, at);
    LinksSurviveDirectCreation(db, q, at);
    forall r | r in after.recons ensures Recorded(after, r) {
      assert r in db.recons ==> Recorded(db, r);
    }
    assert forall k :: Exists(after, k) ==> Exists(db, k) && Allocated(after.recons, k, Now) <= Amount(after, k);
  }

  lemma LinksSurviveDirectCreation(db: Db, q: CreateRequest, at: int)
    requires BatchesLinked(db) && q.batch.None?
    ensures BatchesLinked(Created(db, q, at))
  {
    var after := Created(db, q, at);
    forall b: nat | b < |after.batches| && after.batches[b].confirmed
      ensures exists i :: 0 <= i < |after.recons| && after.recons[i].batch == Some(b)
    {
      var i :| 0 <= i < |db.recons| && db.recons[i].batch == Some(b);
      assert after.recons[i].batch == Some(b);
    }
  }

  lemma CreatedIsRecorded(db: Db, q: CreateRequest, at: int)
    requires CanCreate(db, q)
    ensures Recorded(db, NewReconciliation(q, at))
  {
    var r := ReadingOf(db, q.allocations);
    forall a | a in q.allocations ensures LineFits(r, q.direction, a) {
    }
  }

  lemma ReverseKeepsConsistent(db: Db, i: nat, at: int)
    requires Consistent(db) && CanReverse(db, i)
    ensures Consistent(Reversed(db, i, at))
    ensures forall k :: Allocated(Reversed(db, i, at).recons, k, Now)
                        == Allocated(db.recons, k, Now) - AllocSum(db.recons[i].allocations, k)
  {
    var after := Reversed(db, i, at);
    assert Recorded(db, db.recons[i]);
    forall k ensures Allocated(after.recons, k, Now)
                     == Allocated(db.recons, k, Now) - AllocSum(db.recons[i].allocations, k)
             ensures Allocated(after.recons, k, Now) <= Allocated(db.recons, k, Now)
    {
      AllocatedUpdate(db.recons, i, after.recons[i], k, Now);
      AllocSumNonNegative(db.recons[i].allocations, k);
    }
    forall r | r in after.recons ensures Recorded(after, r) {
      var j :| 0 <= j < |after.recons| && after.recons[j] == r;
      assert Recorded(db, db.recons[j]);
    }
    forall b: nat | b < |after.batches| && after.batches[b].confirmed
      ensures exists j :: 0 <= j < |after.recons| && after.recons[j].batch == Some(b)
    {
      var j :| 0 <= j < |db.recons| && db.recons[j].batch == Some(b);
      assert after.recons[j].batch == Some(b);
    }
  }

  // A reversal gives back exactly what its creation took, to every invoice and every transaction.
  lemma ReversalUndoesCreation(db: Db, q: CreateRequest, at: int, later: int, k: Key)
    requires CanCreate(db, q) && Exists(db, k)
    ensures var after := Created(db, q, at);
            && CanReverse(after, |db.recons|)
            && Open(Reversed(after, |db.recons|, later), k) == Open(db, k)
            && Open(after, k) == Open(db, k) - AllocSum(q.allocations, k)
  {
    var r := NewReconciliation(q, at);
    AllocatedAppend(db.recons, r, k, Now);
    AllocatedUpdate(db.recons + [r], |db.recons|, r.(reversedAt := Some(later)), k, Now);
  }
}

// The services that write the ledger (apps/reconciliation/services.py and settlements.py), each a database
// transaction: it either commits its whole effect or leaves the ledger as it was.

module LedgerService {
  import opened Common
  import opened LedgerModel
  import opened Settlements

  datatype LedgerError =
    | NoLines | ModeMismatch
    | AmountNotPositive | InvoiceMissing | MoneyMissing | InvoiceClosed | WrongDirection | WrongCounterparty
    | StalePage | PartialNotConfirmed | MoneyShort | InvoiceShort
    | NoReason | NotFound | AlreadyReversed
    | BadPeriod | NothingToSettle
    | AlreadyConfirmed | StaleVersion | PairTwice | BatchEmpty | OutsideBatch | BatchIncomplete
    | BatchRecordMismatch | ItemOccupied | ItemNotOpen | TotalsDiffer

  predicate LineReason(r: Reading, direction: Direction, a: Allocation, e: LedgerError) {
    match e
    case AmountNotPositive => a.amount <= 0
    case InvoiceMissing => a.invoice !in r.invoices
    case MoneyMissing => a.money !in r.money
    case InvoiceClosed => a.invoice in r.invoices && !r.invoices[a.invoice].status.Normal?
    case WrongDirection =>
      && a.invoice in r.invoices && a.money in r.money
      && (r.invoices[a.invoice].direction != InvoiceSide(direction) || r.money[a.money].direction != MoneySide(direction))
    case WrongCounterparty =>
      && a.invoice in r.invoices && a.money in r.money
      && r.money[a.money].counterparty != Some(r.invoices[a.invoice].counterparty)
    case _ => false
  }

  // Each refusal of _validate_allocations states a true reason.
  predicate Reason(r: Reading, q: CreateRequest, e: LedgerError)
    requires Complete(r, q.allocations)
  {
    if LinesFit(r, q) && Covers(r, q) then
      match e
      case StalePage => !PageFresh(r, q)
      case PartialNotConfirmed => !PartialConfirmed(r, q)
      case MoneyShort => !MoneySuffices(r, q)
      case InvoiceShort => MoneySuffices(r, q) && !InvoicesSuffice(r, q)
      case _ => false
    else
      exists a :: a in q.allocations && LineReason(r, q.direction, a, e)
  }

  // The running totals of _validate_allocations, one line further.
  function Added(totals: map<Id, int>, id: Id, amount: int): map<Id, int> {
    totals[id := (if id in totals then totals[id] else 0) + amount]
  }

  ghost predicate TotalsOf(totals: map<Id, int>, allocations: seq<Allocation>, invoiceSide: bool) {
    if invoiceSide then
      && totals.Keys == InvoiceIds(allocations)
      && forall i :: i in totals ==> totals[i] == AllocSum(allocations, InvoiceKey(i))
    else
      && totals.Keys == MoneyIds(allocations)
      && forall m :: m in totals ==> totals[m] == AllocSum(allocations, MoneyKey(m))
  }

  lemma NextTotals(invoices: map<Id, int>, money: map<Id, int>, allocations: seq<Allocation>, n: nat)
    requires n < |allocations|
    requires TotalsOf(invoices, allocations[..n], true) && TotalsOf(money, allocations[..n], false)
    ensures var a := allocations[n];
            && TotalsOf(Added(invoices, a.invoice, a.amount), allocations[..n + 1], true)
            && TotalsOf(Added(money, a.money, a.amount), allocations[..n + 1], false)
  {
    var a := allocations[n];
    assert allocations[..n + 1] == allocations[..n] + [a];
    assert allocations[..n + 1][..n] == allocations[..n];
    assert InvoiceIds(allocations[..n + 1]) == InvoiceIds(allocations[..n]) + {a.invoice};
    assert MoneyIds(allocations[..n + 1]) == MoneyIds(allocations[..n]) + {a.money};
    if a.invoice !in invoices {
      UntouchedSums(allocations[..n], InvoiceKey(a.invoice));
    }
    if a.money !in money {
      UntouchedSums(allocations[..n], MoneyKey(a.money));
    }
  }

  // The checks of one line, in the order of the loop body.
  function LineError(r: Reading, direction: Direction, a: Allocation): Option<LedgerError> {
    if a.amount <= 0 then Some(AmountNotPositive)
    else if a.invoice !in r.invoices then Some(InvoiceMissing)
    else if a.money !in r.money then Some(MoneyMissing)
    else if !r.invoices[a.invoice].status.Normal? then Some(InvoiceClosed)
    else if r.invoices[a.invoice].direction != InvoiceSide(direction)
         || r.money[a.money].direction != MoneySide(direction) then Some(WrongDirection)
    else if r.money[a.money].counterparty != Some(r.invoices[a.invoice].counterparty) then Some(WrongCounterparty)
    else None
  }

  // _validate_allocations: nothing is reported exactly when the request is acceptable, and what is
  // reported is true.
  method ValidateAllocations(r: Reading, q: CreateRequest) returns (e: Option<LedgerError>)
    requires Complete(r, q.allocations)
    ensures e.None? <==> Accepts(r, q)
    ensures e.Some? ==> Reason(r, q, e.value)
  {
    var invoiceTotals, moneyTotals;
    e, invoiceTotals, moneyTotals := CheckLines(r, q);
    if e.None? {
      LinesAreRead(r, q);
      e := CheckTotals(r, q, invoiceTotals, moneyTotals);
    }
  }

  // What the loop over the lines has established of the first n of them.
  ghost predicate CheckedUpTo(
    r: Reading, q: CreateRequest, n: nat, invoiceTotals: map<Id, int>, moneyTotals: map<Id, int>)
  {
    && n <= |q.allocations|
    && (forall i :: 0 <= i < n ==> LineFits(r, q.direction, q.allocations[i]))
    && TotalsOf(invoiceTotals, q.allocations[..n], true) && TotalsOf(moneyTotals, q.allocations[..n], false)
  }

  // The loop over the lines: record checks and running totals.
  method CheckLines(r: Reading, q: CreateRequest)
    returns (e: Option<LedgerError>, invoiceTotals: map<Id, int>, moneyTotals: map<Id, int>)
    requires Complete(r, q.allocations)
    ensures e.None? <==> LinesFit(r, q)
    ensures e.Some? ==> Reason(r, q, e.value)
    ensures e.None? ==> TotalsOf(invoiceTotals, q.allocations, true) && TotalsOf(moneyTotals, q.allocations, false)
  {
    hide *;
    e, invoiceTotals, moneyTotals := None, map[], map[];
    NothingChecked(r, q);
    for n := 0 to |q.allocations|
      invariant e.None? && CheckedUpTo(r, q, n, invoiceTotals, moneyTotals)
    {
      var a := q.allocations[n];
      e := LineError(r, q.direction, a);
      if e.Some? {
        BadLine(r, q, a);
        return;
      }
      OneMoreChecked(r, q, n, invoiceTotals, moneyTotals);
      invoiceTotals, moneyTotals := Added(invoiceTotals, a.invoice, a.amount), Added(moneyTotals, a.money, a.amount);
    }
    AllChecked(r, q, invoiceTotals, moneyTotals);
  }

  lemma NothingChecked(r: Reading, q: CreateRequest)
    ensures CheckedUpTo(r, q, 0, map[], map[])
  {
    assert q.allocations[..0] == [];
  }

  lemma OneMoreChecked(r: Reading, q: CreateRequest, n: nat, invoiceTotals: map<Id, int>, moneyTotals: map<Id, int>)
    requires n < |q.allocations| && CheckedUpTo(r, q, n, invoiceTotals, moneyTotals)
    requires LineError(r, q.direction, q.allocations[n]).None?
    ensures var a := q.allocations[n];
            CheckedUpTo(r, q, n + 1, Added(invoiceTotals, a.invoice, a.amount), Added(moneyTotals, a.money, a.amount))
  {
    GoodLine(r, q.direction, q.allocations[n]);
    hide TotalsOf, LineFits, LineError;
    NextTotals(invoiceTotals, moneyTotals, q.allocations, n);
  }

  lemma AllChecked(r: Reading, q: CreateRequest, invoiceTotals: map<Id, int>, moneyTotals: map<Id, int>)
    requires CheckedUpTo(r, q, |q.allocations|, invoiceTotals, moneyTotals)
    ensures LinesFit(r, q)
    ensures TotalsOf(invoiceTotals, q.allocations, true) && TotalsOf(moneyTotals, q.allocations, false)
  {
    assert q.allocations[..|q.allocations|] == q.allocations;
    hide TotalsOf, LineFits;
  }

  lemma BadLine(r: Reading, q: CreateRequest, a: Allocation)
    requires Complete(r, q.allocations) && a in q.allocations && LineError(r, q.direction, a).Some?
    ensures !LinesFit(r, q) && Reason(r, q, LineError(r, q.direction, a).value)
  {
    assert LineReason(r, q.direction, a, LineError(r, q.direction, a).value);
    assert !LineFits(r, q.direction, a);
  }

  lemma GoodLine(r: Reading, direction: Direction, a: Allocation)
    requires LineError(r, direction, a).None?
    ensures LineFits(r, direction, a)
  {
  }

  // One map never exceeds the other.
  predicate AtMost(a: map<Id, int>, b: map<Id, int>)
    requires a.Keys == b.Keys
  {
    forall i :: i in a ==> a[i] <= b[i]
  }

  // The checks of the totals, over the accumulated maps.
  lemma TotalsDecide(
    r: Reading, q: CreateRequest, invoiceTotals: map<Id, int>, moneyTotals: map<Id, int>,
    invoiceOpen: map<Id, int>, moneyOpen: map<Id, int>)
    requires Complete(r, q.allocations) && LinesFit(r, q) && Covers(r, q)
    requires TotalsOf(invoiceTotals, q.allocations, true) && TotalsOf(moneyTotals, q.allocations, false)
    requires invoiceOpen == map i | i in r.invoices :: InvoiceOpen(r, i)
    requires moneyOpen == map m | m in r.money :: MoneyOpen(r, m)
    ensures invoiceTotals.Keys == invoiceOpen.Keys && moneyTotals.Keys == moneyOpen.Keys
    ensures PartialConfirmed(r, q) <==> q.allowPartial || AtMost(invoiceOpen, invoiceTotals)
    ensures MoneySuffices(r, q) <==> AtMost(moneyTotals, moneyOpen)
    ensures InvoicesSuffice(r, q) <==> AtMost(invoiceTotals, invoiceOpen)
  {
    hide LinesFit, AllocSum, InvoiceIds, MoneyIds, InvoiceOpen, MoneyOpen;
  }

  // On fitting lines the totals alone decide what is reported.
  lemma TotalsRemain(r: Reading, q: CreateRequest)
    requires Complete(r, q.allocations) && LinesFit(r, q) && Covers(r, q)
    ensures Accepts(r, q) <==>
              PageFresh(r, q) && PartialConfirmed(r, q) && MoneySuffices(r, q) && InvoicesSuffice(r, q)
    ensures Reason(r, q, StalePage) <==> !PageFresh(r, q)
    ensures Reason(r, q, PartialNotConfirmed) <==> !PartialConfirmed(r, q)
    ensures Reason(r, q, MoneyShort) <==> !MoneySuffices(r, q)
    ensures Reason(r, q, InvoiceShort) <==> MoneySuffices(r, q) && !InvoicesSuffice(r, q)
  {
    hide LinesFit, Covers, PageFresh, PartialConfirmed, MoneySuffices, InvoicesSuffice, LineReason;
  }

  // The second half of _validate_allocations, over the accumulated totals.
  method CheckTotals(r: Reading, q: CreateRequest, invoiceTotals: map<Id, int>, moneyTotals: map<Id, int>)
    returns (e: Option<LedgerError>)
    requires Complete(r, q.allocations) && LinesFit(r, q) && Covers(r, q)
    requires TotalsOf(invoiceTotals, q.allocations, true) && TotalsOf(moneyTotals, q.allocations, false)
    ensures e.None? <==> Accepts(r, q)
    ensures e.Some? ==> Reason(r, q, e.value)
  {
    var invoiceOpen := map i | i in r.invoices :: InvoiceOpen(r, i);
    var moneyOpen := map m | m in r.money :: MoneyOpen(r, m);
    TotalsDecide(r, q, invoiceTotals, moneyTotals, invoiceOpen, moneyOpen);
    TotalsRemain(r, q);
    hide LinesFit, TotalsOf, Complete, Accepts, Reason, PartialConfirmed, MoneySuffices, InvoicesSuffice, AtMost;
    if q.expectedInvoices.Some? && q.expectedInvoices.value != invoiceOpen {
      return Some(StalePage);
    }
    if q.expectedMoney.Some? && q.expectedMoney.value != moneyOpen {
      return Some(StalePage);
    }
    assert PageFresh(r, q);
    hide PageFresh;
    if !q.allowPartial {
      var leaves := FirstAbove(invoiceOpen, invoiceTotals);
      if leaves.Some? {
        return Some(PartialNotConfirmed);
      }
    }
    var short := FirstAbove(moneyTotals, moneyOpen);
    if short.Some? {
      return Some(MoneyShort);
    }
    short := FirstAbove(invoiceTotals, invoiceOpen);
    e := if short.Some? then Some(InvoiceShort) else None;
  }

  // The loops over the accumulated totals: a key at which one map exceeds the other.
  method FirstAbove(a: map<Id, int>, b: map<Id, int>) returns (found: Option<Id>)
    requires a.Keys == b.Keys
    ensures found.Some? ==> found.value in a && a[found.value] > b[found.value]
    ensures found.None? <==> AtMost(a, b)
  {
    var rest := a.Keys;
    while rest != {}
      invariant rest <= a.Keys
      invariant forall i :: i in a && i !in rest ==> a[i] <= b[i]
      decreases rest
    {
      var i :| i in rest;
      if a[i] > b[i] {
        return Some(i);
      }
      rest := rest - {i};
    }
    found := None;
  }

  predicate Blank(text: string) {
    forall c :: c in text ==> c == ' ' || c == '\t' || c == '\n' || c == '\r'
  }

  // The accumulation of _validate_allocation_totals.
  method AccumulateTotals(allocations: seq<Allocation>) returns (invoiceTotals: map<Id, int>, moneyTotals: map<Id, int>)
    ensures TotalsOf(invoiceTotals, allocations, true) && TotalsOf(moneyTotals, allocations, false)
  {
    invoiceTotals, moneyTotals := map[], map[];
    for n := 0 to |allocations|
      invariant TotalsOf(invoiceTotals, allocations[..n], true)
      invariant TotalsOf(moneyTotals, allocations[..n], false)
    {
      var a := allocations[n];
      NextTotals(invoiceTotals, moneyTotals, allocations, n);
      invoiceTotals, moneyTotals := Added(invoiceTotals, a.invoice, a.amount), Added(moneyTotals, a.money, a.amount);
    }
    assert allocations[..|allocations|] == allocations;
  }

  // The comparison of the totals with the open amounts, item by item.
  method AllEqual(open: map<Id, int>, totals: map<Id, int>) returns (same: bool)
    requires totals.Keys == open.Keys
    ensures same <==> totals == open
  {
    var above := FirstAbove(open, totals);
    var below := FirstAbove(totals, open);
    same := above.None? && below.None?;
  }

  method FindPairTwice(allocations: seq<Allocation>) returns (twice: bool)
    ensures twice <==> !NoPairTwice(allocations)
  {
    var pairs: set<(Id, Id)> := {};
    for n := 0 to |allocations|
      invariant forall p :: p in pairs <==> exists i :: 0 <= i < n && (allocations[i].invoice, allocations[i].money) == p
      invariant forall i, j :: 0 <= i < j < n ==>
        allocations[i].invoice != allocations[j].invoice || allocations[i].money != allocations[j].money
    {
      var pair := (allocations[n].invoice, allocations[n].money);
      if pair in pairs {
        return true;
      }
      pairs := pairs + {pair};
    }
    twice := false;
  }

  // externally_occupied, as one query over the active reconciliations of others.
  predicate ExternallyOccupied(db: Db, id: nat, b: Batch) {
    exists r :: r in db.recons && r.reversedAt.None? && r.batch != Some(id)
      && exists a :: a in r.allocations && (a.invoice in b.invoices || a.money in b.money)
  }

  lemma OccupationIsPerItem(db: Db, id: nat, b: Batch)
    ensures ExternallyOccupied(db, id, b) <==> exists k :: ItemOf(b, k) && Occupied(db, id, k)
  {
    if ExternallyOccupied(db, id, b) {
      var r :| r in db.recons && r.reversedAt.None? && r.batch != Some(id)
        && exists a :: a in r.allocations && (a.invoice in b.invoices || a.money in b.money);
      var a :| a in r.allocations && (a.invoice in b.invoices || a.money in b.money);
      var k := if a.invoice in b.invoices then InvoiceKey(a.invoice) else MoneyKey(a.money);
      assert Touches(a, k);
      assert OccupiedBy(r, id, k);
      assert ItemOf(b, k) && Occupied(db, id, k);
    }
    if exists k :: ItemOf(b, k) && Occupied(db, id, k) {
      var k :| ItemOf(b, k) && Occupied(db, id, k);
      var r :| r in db.recons && OccupiedBy(r, id, k);
      var a :| a in r.allocations && Touches(a, k);
      assert a.invoice in b.invoices || a.money in b.money;
    }
  }

  function OpenInvoices(db: Db, ids: set<Id>): map<Id, int>
    requires ids <= db.invoices.Keys
  {
    map i | i in ids :: Open(db, InvoiceKey(i))
  }

  function OpenMoney(db: Db, ids: set<Id>): map<Id, int>
    requires ids <= db.money.Keys
  {
    map m | m in ids :: Open(db, MoneyKey(m))
  }

  // The open-amount checks, over the maps the code builds.
  lemma OpenItemsOnMaps(db: Db, b: Batch)
    requires ItemsKnown(db, b)
    ensures (forall k :: ItemOf(b, k) ==> Open(db, k) > 0) <==>
              && (forall i :: i in b.invoices ==> OpenInvoices(db, b.invoices)[i] > 0)
              && (forall m :: m in b.money ==> OpenMoney(db, b.money)[m] > 0)
  {
    hide Open;
    if forall k :: ItemOf(b, k) ==> Open(db, k) > 0 {
      assert forall i :: i in b.invoices ==> ItemOf(b, InvoiceKey(i));
      assert forall m :: m in b.money ==> ItemOf(b, MoneyKey(m));
    }
  }

  lemma TotalsOnMaps(db: Db, b: Batch, allocations: seq<Allocation>, invoiceTotals: map<Id, int>, moneyTotals: map<Id, int>)
    requires ItemsKnown(db, b)
    requires InvoiceIds(allocations) == b.invoices && MoneyIds(allocations) == b.money
    requires TotalsOf(invoiceTotals, allocations, true) && TotalsOf(moneyTotals, allocations, false)
    ensures (forall k :: ItemOf(b, k) ==> AllocSum(allocations, k) == Open(db, k)) <==>
              invoiceTotals == OpenInvoices(db, b.invoices) && moneyTotals == OpenMoney(db, b.money)
  {
    hide Open, AllocSum, InvoiceIds, MoneyIds;
    if forall k :: ItemOf(b, k) ==> AllocSum(allocations, k) == Open(db, k) {
      assert forall i :: i in b.invoices ==> ItemOf(b, InvoiceKey(i));
      assert forall m :: m in b.money ==> ItemOf(b, MoneyKey(m));
    }
    if invoiceTotals == OpenInvoices(db, b.invoices) && moneyTotals == OpenMoney(db, b.money) {
      forall k | ItemOf(b, k) ensures AllocSum(allocations, k) == Open(db, k) {
        match k
        case InvoiceKey(i) => assert invoiceTotals[i] == Open(db, k);
        case MoneyKey(m) => assert moneyTotals[m] == Open(db, k);
      }
    }
  }

  // Every item of the batch has its line, no pair has two, and there are no other lines.
  predicate ItemsNamed(b: Batch, allocations: seq<Allocation>) {
    && NoPairTwice(allocations) && b.invoices != {} && b.money != {} && allocations != []
    && InvoiceIds(allocations) == b.invoices && MoneyIds(allocations) == b.money
  }

  // Which of these checks fails first.
  predicate NamingReason(b: Batch, allocations: seq<Allocation>, e: LedgerError) {
    var inside := forall a :: a in allocations ==> a.invoice in b.invoices && a.money in b.money;
    if !NoPairTwice(allocations) then e == PairTwice
    else if b.invoices == {} || b.money == {} then e == BatchEmpty
    else if allocations == [] then e == NoLines
    else if !inside then e == OutsideBatch
    else e == BatchIncomplete && !(InvoiceIds(allocations) == b.invoices && MoneyIds(allocations) == b.money)
  }

  // Each refusal of _validate_batch_allocations: the first of its checks that fails.
  ghost predicate BatchReason(db: Db, id: nat, allocations: seq<Allocation>, e: LedgerError)
    requires id < |db.batches| && ItemsKnown(db, db.batches[id])
  {
    var b := db.batches[id];
    if !ItemsNamed(b, allocations) then NamingReason(b, allocations, e)
    else if !RecordsFit(db, b) then e == BatchRecordMismatch
    else if exists k :: ItemOf(b, k) && Occupied(db, id, k) then e == ItemOccupied
    else if exists k :: ItemOf(b, k) && Open(db, k) <= 0 then e == ItemNotOpen
    else e == TotalsDiffer && exists k :: ItemOf(b, k) && AllocSum(allocations, k) != Open(db, k)
  }

  // The batch's checks of the lines, taken apart.
  lemma ChecksOfLines(db: Db, id: nat, allocations: seq<Allocation>)
    requires id < |db.batches| && ItemsKnown(db, db.batches[id])
    ensures var b := db.batches[id];
            LinesFitBatch(db, id, allocations) <==>
              && ItemsNamed(b, allocations) && !(exists k :: ItemOf(b, k) && Occupied(db, id, k))
              && (forall k :: ItemOf(b, k) ==> Open(db, k) > 0)
              && (forall k :: ItemOf(b, k) ==> AllocSum(allocations, k) == Open(db, k))
  {
    hide NoPairTwice, Occupied, Open, AllocSum, InvoiceIds, MoneyIds;
  }

  // The lines stay within the batch exactly when their ids do.
  lemma InsideIsPerLine(allocations: seq<Allocation>, b: Batch)
    ensures InvoiceIds(allocations) <= b.invoices && MoneyIds(allocations) <= b.money
            <==> forall a :: a in allocations ==> a.invoice in b.invoices && a.money in b.money
  {
    if forall a :: a in allocations ==> a.invoice in b.invoices && a.money in b.money {
      forall i | i in InvoiceIds(allocations) ensures i in b.invoices {
        var a := InvoiceIdWitness(allocations, i);
      }
      forall m | m in MoneyIds(allocations) ensures m in b.money {
        var a := MoneyIdWitness(allocations, m);
      }
    }
  }

  // A confirmation of the current version of a draft is refused over the batch's checks or over a line of the creation.
  ghost predicate RefusesConfirmation(db: Db, id: nat, allocations: seq<Allocation>, e: LedgerError)
    requires id < |db.batches| && ItemsKnown(db, db.batches[id])
  {
    || BatchReason(db, id, allocations, e)
    || (&& RecordsFit(db, db.batches[id]) && LinesFitBatch(db, id, allocations)
        && var r := ReadingOf(db, allocations);
           Complete(r, allocations) && Reason(r, BatchRequest(db.batches[id], id, allocations), e))
  }

  class LedgerService {
    var db: Db

    constructor (db: Db)
      ensures this.db == db
    {
      this.db := db;
    }

    ghost predicate Valid()
      reads this
    {
      Consistent(db)
    }

    // create_reconciliation: all lines or none.
    method CreateReconciliation(q: CreateRequest, at: int) returns (result: Result<nat, LedgerError>)
      modifies this
      ensures result.Ok? <==> CanCreate(old(db), q)
      ensures result.Ok? ==> db == Created(old(db), q, at) && result.value == |old(db).recons|
      ensures result.Err? ==> db == old(db)
      ensures result == Err(NoLines) <==> q.allocations == []
      ensures result == Err(ModeMismatch) <==> q.allocations != [] && !ModeFits(q)
      ensures result.Err? && q.allocations != [] && ModeFits(q) ==>
                var r := ReadingOf(old(db), q.allocations); Complete(r, q.allocations) && Reason(r, q, result.error)
      ensures old(Valid()) && q.batch.None? ==> Valid()
    {
      if q.allocations == [] {
        return Err(NoLines);
      }
      if !ModeFits(q) {
        return Err(ModeMismatch);
      }
      var e := ValidateAllocations(ReadingOf(db, q.allocations), q);
      if e.Some? {
        return Err(e.value);
      }
      if Consistent(db) && q.batch.None? {
        CreateKeepsConsistent(db, q, at);
      }
      result := Ok(|db.recons|);
      db := Created(db, q, at);
    }

    // reverse_reconciliation: once only, for a stated reason.
    method ReverseReconciliation(i: nat, reason: string, at: int) returns (result: Result<nat, LedgerError>)
      requires Valid()
      modifies this
      ensures Valid()
      ensures result.Ok? <==> !Blank(reason) && CanReverse(old(db), i)
      ensures result.Ok? ==> db == Reversed(old(db), i, at)
      ensures result.Err? ==> db == old(db)
      ensures result == Err(NoReason) <==> forall c :: c in reason ==> c in " \t\n\r"
      ensures result == Err(AlreadyReversed) ==> i < |db.recons| && db.recons[i].reversedAt.Some?
    {
      if Blank(reason) {
        return Err(NoReason);
      }
      if i >= |db.recons| {
        return Err(NotFound);
      }
      if db.recons[i].reversedAt.Some? {
        return Err(AlreadyReversed);
      }
      ReverseKeepsConsistent(db, i, at);
      db := Reversed(db, i, at);
      result := Ok(i);
    }

    // create_settlement_batch: the draft takes exactly the eligible records that nobody has touched.
    method CreateSettlementBatch(counterparty: Id, direction: Direction, periodStart: int, periodEnd: int)
      returns (result: Result<nat, LedgerError>)
      requires Valid()
      modifies this
      ensures Valid()
      ensures var invoices := EligibleInvoices(old(db), counterparty, direction, periodStart, periodEnd);
              var money := EligibleMoney(old(db), counterparty, direction, periodStart, periodEnd);
              && (result.Ok? <==> periodStart <= periodEnd && invoices != {} && money != {})
              && (result.Ok? ==>
                    && result.value == |old(db).batches|
                    && db == old(db).(batches := old(db).batches
                         + [Batch(counterparty, direction, periodStart, periodEnd, false, 1, invoices, money)])
                    && TakesTheWhole(old(db), db.batches[result.value]))
      ensures result.Err? ==> db == old(db)
      ensures result.Err? ==> result.error == if periodStart > periodEnd then BadPeriod else NothingToSettle
    {
      if periodStart > periodEnd {
        return Err(BadPeriod);
      }
      var invoices := EligibleInvoices(db, counterparty, direction, periodStart, periodEnd);
      if invoices == {} {
        return Err(NothingToSettle);
      }
      var money := EligibleMoney(db, counterparty, direction, periodStart, periodEnd);
      if money == {} {
        return Err(NothingToSettle);
      }
      EligibleIsWhole(db, counterparty, direction, periodStart, periodEnd);
      hide TakesTheWhole, Untouched, Open;
      DraftKeepsConsistent(db, Batch(counterparty, direction, periodStart, periodEnd, false, 1, invoices, money));
      result := Ok(|db.batches|);
      db := db.(batches := db.batches + [Batch(counterparty, direction, periodStart, periodEnd, false, 1, invoices, money)]);
    }

    // _validate_batch_allocations.
    method ValidateBatchAllocations(id: nat, allocations: seq<Allocation>) returns (e: Option<LedgerError>)
      requires Valid() && id < |db.batches|
      ensures ItemsKnown(db, db.batches[id])
      ensures e.None? <==> RecordsFit(db, db.batches[id]) && LinesFitBatch(db, id, allocations)
      ensures e.Some? ==> BatchReason(db, id, allocations, e.value)
    {
      var b := db.batches[id];
      assert ItemsKnown(db, b);
      hide ItemsNamed, LinesFitBatch, NamingReason, RecordsFit, Occupied, ExternallyOccupied, Open, AllocSum, InvoiceIds,
           MoneyIds, Consistent;
      OccupationIsPerItem(db, id, b);
      ChecksOfLines(db, id, allocations);
      e := ValidateItems(b, allocations);
      if e.Some? {
        return;
      }
      if !RecordsFit(db, b) {
        return Some(BatchRecordMismatch);
      }
      if ExternallyOccupied(db, id, b) {
        return Some(ItemOccupied);
      }
      e := ValidateOpenItems(b, allocations);
    }

    // The checks before the records are read.
    method ValidateItems(b: Batch, allocations: seq<Allocation>) returns (e: Option<LedgerError>)
      ensures e.None? <==> ItemsNamed(b, allocations)
      ensures e.Some? ==> NamingReason(b, allocations, e.value)
    {
      InsideIsPerLine(allocations, b);
      hide NoPairTwice, InvoiceIds, MoneyIds;
      var twice := FindPairTwice(allocations);
      if twice {
        return Some(PairTwice);
      }
      if b.invoices == {} || b.money == {} {
        return Some(BatchEmpty);
      }
      if allocations == [] {
        return Some(NoLines);
      }
      if !(InvoiceIds(allocations) <= b.invoices && MoneyIds(allocations) <= b.money) {
        return Some(OutsideBatch);
      }
      if InvoiceIds(allocations) != b.invoices || MoneyIds(allocations) != b.money {
        return Some(BatchIncomplete);
      }
      e := None;
    }

    // The open amounts: every item open, every item used up.
    method ValidateOpenItems(b: Batch, allocations: seq<Allocation>) returns (e: Option<LedgerError>)
      requires ItemsKnown(db, b)
      requires ItemsNamed(b, allocations)
      ensures e.None? <==>
                && (forall k :: ItemOf(b, k) ==> Open(db, k) > 0)
                && (forall k :: ItemOf(b, k) ==> AllocSum(allocations, k) == Open(db, k))
      ensures e.Some? ==> e.value == if forall k :: ItemOf(b, k) ==> Open(db, k) > 0 then TotalsDiffer else ItemNotOpen
    {
      hide Open, AllocSum, InvoiceIds, MoneyIds, TotalsOf, NoPairTwice, Consistent;
      var invoiceOpen, moneyOpen := OpenInvoices(db, b.invoices), OpenMoney(db, b.money);
      var invoiceTotals, moneyTotals := AccumulateTotals(allocations);
      OpenItemsOnMaps(db, b);
      TotalsOnMaps(db, b, allocations, invoiceTotals, moneyTotals);
      if  || (exists i :: i in b.invoices && invoiceOpen[i] <= 0)
          || (exists m :: m in b.money && moneyOpen[m] <= 0) {
        return Some(ItemNotOpen);
      }
      var invoicesSame := AllEqual(invoiceOpen, invoiceTotals);
      var moneySame := AllEqual(moneyOpen, moneyTotals);
      e := if invoicesSame && moneySame then None else Some(TotalsDiffer);
    }

    // confirm_settlement_batch: one transaction around the checks, the creation and the batch's new state.
    method ConfirmSettlementBatch(id: nat, allocations: seq<Allocation>, version: nat, at: int)
      returns (result: Result<nat, LedgerError>)
      requires Valid()
      modifies this
      ensures Valid()
      ensures id < |old(db).batches| ==> ItemsKnown(old(db), old(db).batches[id])
      ensures result.Ok? <==> id < |old(db).batches| && CanConfirm(old(db), id, allocations, version)
      ensures result.Ok? ==> db == Confirmed(old(db), id, allocations, at) && result.value == |old(db).recons|
      ensures result.Ok? ==> ItemsBelong(old(db), old(db).batches[id])
      ensures result.Err? ==> db == old(db)
      ensures result.Err? ==> if id >= |old(db).batches| then result.error == NotFound
                              else if old(db).batches[id].confirmed then result.error == AlreadyConfirmed
                              else if version != old(db).batches[id].version then result.error == StaleVersion
                              else RefusesConfirmation(old(db), id, allocations, result.error)
    {
      if id >= |db.batches| {
        return Err(NotFound);
      }
      var b := db.batches[id];
      if b.confirmed {
        return Err(AlreadyConfirmed);
      }
      if version != b.version {
        return Err(StaleVersion);
      }
      var e := ValidateBatchAllocations(id, allocations);
      if e.Some? {
        return Err(e.value);
      }
      result := CommitConfirmation(id, allocations, at);
    }

    // The creation inside the confirmation, and the batch's status and version.
    method CommitConfirmation(id: nat, allocations: seq<Allocation>, at: int) returns (result: Result<nat, LedgerError>)
      requires Valid() && id < |db.batches| && !db.batches[id].confirmed
      modifies this
      ensures Valid()
      ensures result.Ok? <==> CanCreate(old(db), BatchRequest(old(db).batches[id], id, allocations))
      ensures result.Ok? ==> db == Confirmed(old(db), id, allocations, at) && result.value == |old(db).recons|
      ensures result.Err? ==> db == old(db)
      ensures result.Err? && allocations != [] ==>
                var q := BatchRequest(old(db).batches[id], id, allocations);
                var r := ReadingOf(old(db), allocations);
                Complete(r, allocations) && Reason(r, q, result.error)
    {
      hide CanCreate, Consistent, Reason;
      var b := db.batches[id];
      ghost var before := db;
      result := CreateReconciliation(BatchRequest(b, id, allocations), at);
      if result.Ok? {
        ConfirmKeepsConsistent(before, id, allocations, at);
        db := db.(batches := db.batches[id := b.(confirmed := true, version := b.version + 1)]);
      }
    }
  }

  // Every item of the batch is of its counterparty, direction and period.
  ghost predicate ItemsBelong(db: Db, b: Batch) {
    && (forall i :: i in b.invoices ==>
          && i in db.invoices && db.invoices[i].counterparty == b.counterparty
          && db.invoices[i].direction == (if b.direction == PurchasePayment then Input else Output)
          && b.periodStart <= db.invoices[i].issueDate <= b.periodEnd)
    && (forall m :: m in b.money ==>
          && m in db.money && db.money[m].counterparty == Some(b.counterparty)
          && db.money[m].direction == (if b.direction == PurchasePayment then Outflow else Inflow)
          && b.periodStart <= db.money[m].ownDay <= b.periodEnd)
  }

  // No active reconciliation touches the key.
  predicate Untouched(db: Db, k: Key) {
    forall r :: r in db.recons && r.reversedAt.None? ==> forall a :: a in r.allocations ==> !Touches(a, k)
  }

  // A record nobody has touched is one that is wholly open.
  lemma UntouchedIsWholeOpen(db: Db, k: Key)
    requires Consistent(db) && Exists(db, k)
    ensures Untouched(db, k) <==> Open(db, k) == Amount(db, k)
  {
    forall r | r in db.recons ensures forall a :: a in r.allocations ==> a.amount > 0 {
      assert Recorded(db, r);
    }
    if Untouched(db, k) {
      UntouchedIsUnallocated(db.recons, k);
    } else {
      var r :| r in db.recons && r.reversedAt.None? && exists a :: a in r.allocations && Touches(a, k);
      var a :| a in r.allocations && Touches(a, k);
      TouchedIsAllocated(db.recons, k, r, a);
    }
  }

  // What a draft is to take: the wholly open invoices in force and the wholly open transactions of its counterparty,
  // direction and period.
  ghost predicate TakesTheWhole(db: Db, b: Batch) {
    && (forall i :: i in b.invoices <==>
          && i in db.invoices && db.invoices[i].counterparty == b.counterparty
          && db.invoices[i].direction == (if b.direction == PurchasePayment then Input else Output)
          && db.invoices[i].status == Normal && b.periodStart <= db.invoices[i].issueDate <= b.periodEnd
          && Open(db, InvoiceKey(i)) == db.invoices[i].total)
    && (forall m :: m in b.money <==>
          && m in db.money && db.money[m].counterparty == Some(b.counterparty)
          && db.money[m].direction == (if b.direction == PurchasePayment then Outflow else Inflow)
          && b.periodStart <= db.money[m].localDay <= b.periodEnd
          && Open(db, MoneyKey(m)) == db.money[m].amount)
  }

  lemma EligibleIsWhole(db: Db, counterparty: Id, direction: Direction, periodStart: int, periodEnd: int)
    requires Consistent(db)
    ensures TakesTheWhole(db, Batch(counterparty, direction, periodStart, periodEnd, false, 1,
              EligibleInvoices(db, counterparty, direction, periodStart, periodEnd),
              EligibleMoney(db, counterparty, direction, periodStart, periodEnd)))
  {
    hide Untouched, Open;
    forall i | i in db.invoices
      ensures Untouched(db, InvoiceKey(i)) && Open(db, InvoiceKey(i)) > 0 <==>
                Open(db, InvoiceKey(i)) == db.invoices[i].total
    {
      UntouchedIsWholeOpen(db, InvoiceKey(i));
    }
    forall m | m in db.money
      ensures Untouched(db, MoneyKey(m)) && Open(db, MoneyKey(m)) > 0 <==> Open(db, MoneyKey(m)) == db.money[m].amount
    {
      UntouchedIsWholeOpen(db, MoneyKey(m));
    }
  }

  function EligibleInvoices(db: Db, counterparty: Id, direction: Direction, periodStart: int, periodEnd: int): set<Id> {
    set i | i in db.invoices
      && db.invoices[i].counterparty == counterparty
      && db.invoices[i].direction == InvoiceSide(direction)
      && db.invoices[i].status.Normal?
      && periodStart <= db.invoices[i].issueDate <= periodEnd
      && Untouched(db, InvoiceKey(i))
      && Open(db, InvoiceKey(i)) > 0
  }

  function EligibleMoney(db: Db, counterparty: Id, direction: Direction, periodStart: int, periodEnd: int): set<Id> {
    set m | m in db.money
      && db.money[m].counterparty == Some(counterparty)
      && db.money[m].direction == MoneySide(direction)
      && periodStart <= db.money[m].localDay <= periodEnd
      && Untouched(db, MoneyKey(m))
      && Open(db, MoneyKey(m)) > 0
  }

  lemma DraftKeepsConsistent(db: Db, b: Batch)
    requires Consistent(db) && ItemsKnown(db, b) && !b.confirmed
    ensures Consistent(db.(batches := db.batches + [b]))
  {
    var after := db.(batches := db.batches + [b]);
    assert forall k :: Exists(after, k) <==> Exists(db, k);
    forall r | r in after.recons ensures Recorded(after, r) {
      assert Recorded(db, r);
    }
    forall k | Exists(after, k) ensures Allocated(after.recons, k, Now) <= Amount(after, k) {
      assert Exists(db, k);
    }
    forall c: nat | c < |after.batches| && after.batches[c].confirmed
      ensures exists i :: 0 <= i < |after.recons| && after.recons[i].batch == Some(c)
    {
      var i :| 0 <= i < |db.recons| && db.recons[i].batch == Some(c);
      assert after.recons[i].batch == Some(c);
    }
  }
}

// A settlement from draft to confirmation (apps/reconciliation/settlements.py, apps/reconciliation/presenters.py):
// what a fresh draft holds, and when confirming the plan of its page settles it.

module SettlementDraft {
  import opened Common
  import opened LedgerModel
  import opened LedgerConservation
  import opened Settlements
  import opened LedgerService
  import opened Planner

  function Amounts(db: Db, ids: set<Id>, invoiceSide: bool): map<Id, int>
    requires forall i :: i in ids ==> Exists(db, On(invoiceSide, i))
  {
    map i | i in ids :: Amount(db, On(invoiceSide, i))
  }

  // A draft that holds what a new draft of its terms would.
  ghost predicate FreshDraft(db: Db, id: nat) {
    && id < |db.batches| && !db.batches[id].confirmed
    && db.batches[id].invoices != {} && db.batches[id].money != {}
    && TakesTheWhole(db, db.batches[id])
  }

  // The stored moments fall into the period by their own calendar day too.
  predicate DaysAgree(db: Db, b: Batch)
    requires b.money <= db.money.Keys
  {
    forall m :: m in b.money ==> b.periodStart <= db.money[m].ownDay <= b.periodEnd
  }

  // The draft asks for the local day of a transaction, the confirmation for the day of the stored moment: the records
  // of a fresh draft pass exactly when the second lies in the period as well.
  lemma FreshDraftFits(db: Db, id: nat)
    requires FreshDraft(db, id)
    ensures ItemsKnown(db, db.batches[id]) && AllNormal(db, db.batches[id])
    ensures RecordsFit(db, db.batches[id]) <==> DaysAgree(db, db.batches[id])
  {
    hide Open;
  }

  // A sale paid at a moment whose local day is 32 and whose stored day is 31: drafted for the days from 32 on,
  // refused at confirmation.
  lemma DraftBeforeMidnightIsRefused(allocations: seq<Allocation>)
    ensures var db := Db(
                        map[1 := Invoice(Output, 5, 100, Normal, 40)],
                        map[1 := Money(Inflow, Some(5), 100, 32, 31)],
                        [], [Batch(5, SalesReceipt, 32, 62, false, 1, {1}, {1})], []);
            FreshDraft(db, 0) && Consistent(db) && !CanConfirm(db, 0, allocations, 1)
  {
    var db := Db(
      map[1 := Invoice(Output, 5, 100, Normal, 40)], map[1 := Money(Inflow, Some(5), 100, 32, 31)],
      [], [Batch(5, SalesReceipt, 32, 62, false, 1, {1}, {1})], []);
    assert !MoneyFitsBatch(db.money[1], db.batches[0]);
  }

  lemma FreshItemIsWhole(db: Db, id: nat, k: Key)
    requires Consistent(db) && FreshDraft(db, id) && ItemOf(db.batches[id], k)
    ensures Exists(db, k) && !Occupied(db, id, k) && Open(db, k) == Amount(db, k)
  {
    hide Open;
    UntouchedIsWholeOpen(db, k);
    forall r | r in db.recons ensures !OccupiedBy(r, id, k) {
    }
  }

  lemma AmountsOneMore(db: Db, ids: seq<Id>, invoiceSide: bool)
    requires ids != [] && forall i :: i in ids ==> Exists(db, On(invoiceSide, i))
    requires forall x :: 0 <= x < |ids| - 1 ==> ids[x] != ids[|ids| - 1]
    ensures var n := |ids| - 1;
            Sum(Amounts(db, Listed(ids), invoiceSide))
            == Amount(db, On(invoiceSide, ids[n])) + Sum(Amounts(db, Listed(ids[..n]), invoiceSide))
  {
    hide Amount, Sum;
    var n := |ids| - 1;
    var whole, front := Amounts(db, Listed(ids), invoiceSide), Amounts(db, Listed(ids[..n]), invoiceSide);
    assert forall i :: i in ids <==> i in ids[..n] || i == ids[n];
    assert whole - {ids[n]} == front;
    SumTake(whole, ids[n]);
  }

  lemma {:induction false} ShownIsWhole(db: Db, id: nat, ids: seq<Id>, invoiceSide: bool)
    requires forall i :: i in ids ==>
               Exists(db, On(invoiceSide, i)) && !Occupied(db, id, On(invoiceSide, i))
               && Open(db, On(invoiceSide, i)) == Amount(db, On(invoiceSide, i))
    requires forall x, y :: 0 <= x < y < |ids| ==> ids[x] != ids[y]
    ensures ShownTotal(ItemsOf(db, id, ids, invoiceSide)) == Sum(Amounts(db, Listed(ids), invoiceSide))
  {
    if ids == [] {
      SumZero(Amounts(db, Listed(ids), invoiceSide));
      return;
    }
    hide Occupied, Open, Amount, Sum, Amounts, ShownTotal, ItemsOf, Listed;
    var n := |ids| - 1;
    assert ids[n] in ids;
    ShownIsWhole(db, id, ids[..n], invoiceSide);
    ShownOneMore(db, id, ids, invoiceSide);
    AmountsOneMore(db, ids, invoiceSide);
  }

  // One side of a fresh draft's page: everything is free, and the whole amounts are shown.
  lemma FreshSide(db: Db, id: nat, ids: seq<Id>, invoiceSide: bool)
    requires Consistent(db) && FreshDraft(db, id)
    requires Lists(ids, if invoiceSide then db.batches[id].invoices else db.batches[id].money)
    ensures forall i :: i in ids ==> Exists(db, On(invoiceSide, i))
    ensures var items := ItemsOf(db, id, ids, invoiceSide);
            && (forall i :: i in items ==> !i.occupied)
            && Listed(ids) == (if invoiceSide then db.batches[id].invoices else db.batches[id].money)
            && ShownTotal(items) == Sum(Amounts(db, Listed(ids), invoiceSide))
            && Start(items, |items|) > 0
  {
    var all := if invoiceSide then db.batches[id].invoices else db.batches[id].money;
    forall i | i in ids
      ensures Exists(db, On(invoiceSide, i)) && !Occupied(db, id, On(invoiceSide, i))
              && Open(db, On(invoiceSide, i)) == Amount(db, On(invoiceSide, i))
    {
      assert ItemOf(db.batches[id], On(invoiceSide, i));
      FreshItemIsWhole(db, id, On(invoiceSide, i));
    }
    assert Listed(ids) == all;
    ShownIsWhole(db, id, ids, invoiceSide);
    hide Consistent, TakesTheWhole, Open, Amount, Sum, ShownTotal;
    FreeItems(db, id, ids, invoiceSide);
    SomethingIsFree(ItemsOf(db, id, ids, invoiceSide), ids, all);
  }

  // The page of a fresh draft offers its plan exactly when both sides come to the same sum.
  lemma FreshDraftIsOffered(db: Db, id: nat, invoiceIds: seq<Id>, moneyIds: seq<Id>, rows: seq<Row>)
    requires Consistent(db) && FreshDraft(db, id)
    requires Lists(invoiceIds, db.batches[id].invoices) && Lists(moneyIds, db.batches[id].money)
    requires forall i :: i in invoiceIds ==> Exists(db, On(true, i))
    requires forall m :: m in moneyIds ==> Exists(db, On(false, m))
    requires var invoices, money := ItemsOf(db, id, invoiceIds, true), ItemsOf(db, id, moneyIds, false);
             RowTotal(rows) == Reach(invoices, money)
    ensures Offered(db, id, invoiceIds, moneyIds, rows)
            <==> Sum(Amounts(db, Listed(invoiceIds), true)) == Sum(Amounts(db, Listed(moneyIds), false))
  {
    FreshSide(db, id, invoiceIds, true);
    FreshSide(db, id, moneyIds, false);
    hide Consistent, FreshDraft, Lists, ShownTotal, ItemsOf, Sum, Amounts;
  }

  // Both sides of the draft come to the same sum.
  ghost predicate SidesBalance(db: Db, b: Batch)
    requires ItemsKnown(db, b)
  {
    Sum(Amounts(db, b.invoices, true)) == Sum(Amounts(db, b.money, false))
  }

  // A draft does not touch the records it takes.
  lemma DraftIsFresh(db: Db, after: Db, id: nat)
    requires after == db.(batches := after.batches) && id < |after.batches| && !after.batches[id].confirmed
    requires after.batches[id].invoices != {} && after.batches[id].money != {}
    requires TakesTheWhole(db, after.batches[id])
    ensures FreshDraft(after, id)
  {
    assert forall k :: Exists(db, k) ==> Open(after, k) == Open(db, k);
    hide Open;
  }

  // What confirming a draft leaves: its items wholly settled, everything else as it was.
  ghost predicate Settles(before: Db, after: Db, b: Batch) {
    && after.invoices == before.invoices && after.money == before.money
    && (forall k :: ItemOf(b, k) ==> Exists(after, k) && Open(after, k) == 0)
    && (forall k :: Exists(before, k) && !ItemOf(b, k) ==> Open(after, k) == Open(before, k))
  }

  lemma ConfirmableLinesFit(db: Db, id: nat, allocations: seq<Allocation>, version: nat)
    requires id < |db.batches| && ItemsKnown(db, db.batches[id]) && CanConfirm(db, id, allocations, version)
    ensures LinesFitBatch(db, id, allocations) && !db.batches[id].confirmed
  {
    hide LinesFitBatch, CanCreate, RecordsFit;
  }

  lemma SettledExactly(before: Db, id: nat, allocations: seq<Allocation>, at: int)
    requires id < |before.batches| && ItemsKnown(before, before.batches[id])
    requires var after := Confirmed(before, id, allocations, at);
             && (forall k :: ItemOf(before.batches[id], k) ==> Open(after, k) == 0)
             && (forall k :: Exists(before, k) && !ItemOf(before.batches[id], k) ==> Open(after, k) == Open(before, k))
    ensures Settles(before, Confirmed(before, id, allocations, at), before.batches[id])
  {
    hide Open;
  }

  lemma ConfirmationSettles(before: Db, id: nat, allocations: seq<Allocation>, version: nat, at: int)
    requires Consistent(before) && id < |before.batches| && ItemsKnown(before, before.batches[id])
    requires CanConfirm(before, id, allocations, version)
    ensures Settles(before, Confirmed(before, id, allocations, at), before.batches[id])
  {
    hide *;
    ConfirmableLinesFit(before, id, allocations, version);
    ConfirmSettlesExactly(before, id, allocations, at);
    SettledExactly(before, id, allocations, at);
  }

  lemma DraftLeavesRecords(db: Db, after: Db, b: Batch)
    requires after == db.(batches := after.batches) && ItemsKnown(db, b)
    ensures ItemsKnown(after, b)
    ensures SidesBalance(after, b) <==> SidesBalance(db, b)
    ensures DaysAgree(after, b) <==> DaysAgree(db, b)
    ensures forall k :: Exists(db, k) ==> Exists(after, k) && Open(after, k) == Open(db, k)
  {
    assert forall k :: Exists(db, k) ==> Amount(after, k) == Amount(db, k);
    hide Amount, Sum, Open;
    assert Amounts(after, b.invoices, true) == Amounts(db, b.invoices, true);
    assert Amounts(after, b.money, false) == Amounts(db, b.money, false);
  }

  lemma SettlesFromBefore(before: Db, drafted: Db, after: Db, b: Batch)
    requires drafted == before.(batches := drafted.batches) && Settles(drafted, after, b)
    ensures Settles(before, after, b)
  {
    assert forall k :: Exists(before, k) ==> Open(drafted, k) == Open(before, k);
    hide Open;
  }

  // The plan of a fresh draft's page: offered and confirmable exactly when it may be.
  lemma FreshDraftConfirms(
    db: Db, id: nat, invoiceIds: seq<Id>, moneyIds: seq<Id>, plan: seq<Allocation>, rows: seq<Row>)
    requires Consistent(db) && FreshDraft(db, id)
    requires Lists(invoiceIds, db.batches[id].invoices) && Lists(moneyIds, db.batches[id].money)
    requires forall i :: i in invoiceIds ==> Exists(db, On(true, i))
    requires forall m :: m in moneyIds ==> Exists(db, On(false, m))
    requires PlannedAs(plan, rows, ItemsOf(db, id, invoiceIds, true), ItemsOf(db, id, moneyIds, false))
    ensures var b := db.batches[id];
            && ItemsKnown(db, b)
            && (Offered(db, id, invoiceIds, moneyIds, rows) <==> SidesBalance(db, b))
            && forall version ::
                 CanConfirm(db, id, plan, version) <==> SidesBalance(db, b) && DaysAgree(db, b) && version == b.version
  {
    FreshDraftFits(db, id);
    assert RowTotal(rows) == Reach(ItemsOf(db, id, invoiceIds, true), ItemsOf(db, id, moneyIds, false));
    assert Listed(invoiceIds) == db.batches[id].invoices && Listed(moneyIds) == db.batches[id].money;
    hide IsPlan, FilledUpTo, Consistent, Lists, Offered, ItemsOf, Sum, Amounts, CanConfirm, LinesFitBatch, AllNormal,
         RecordsFit, DaysAgree, TakesTheWhole;
    FreshDraftIsOffered(db, id, invoiceIds, moneyIds, rows);
    OfferDecides(db, id, invoiceIds, moneyIds, rows);
  }

  // Draft a period and confirm what the page shows of it, in whatever order the page lists the items: it goes through
  // exactly when there is something on both sides, both sides come to the same sum, and the stored days agree with
  // the local ones; and then every item is settled and nothing else has moved.
  method SettlePeriod(
    ledger: LedgerService, counterparty: Id, direction: Direction, periodStart: int, periodEnd: int,
    listing: set<Id> -> seq<Id>, at: int) returns (result: Result<nat, LedgerError>, ghost draft: Batch)
    requires ledger.Valid() && forall ids :: Lists(listing(ids), ids)
    modifies ledger
    ensures ledger.Valid() && ItemsKnown(old(ledger.db), draft)
    ensures draft == Batch(counterparty, direction, periodStart, periodEnd, false, 1, draft.invoices, draft.money)
            && TakesTheWhole(old(ledger.db), draft)
    ensures result.Ok? <==>
              && periodStart <= periodEnd && draft.invoices != {} && draft.money != {}
              && SidesBalance(old(ledger.db), draft) && DaysAgree(old(ledger.db), draft)
    ensures result.Ok? ==> Settles(old(ledger.db), ledger.db, draft)
    ensures result.Err? ==> forall k :: Exists(old(ledger.db), k) ==>
              Exists(ledger.db, k) && Open(ledger.db, k) == Open(old(ledger.db), k)
  {
    ghost var before := ledger.db;
    draft := Batch(counterparty, direction, periodStart, periodEnd, false, 1,
               EligibleInvoices(before, counterparty, direction, periodStart, periodEnd),
               EligibleMoney(before, counterparty, direction, periodStart, periodEnd));
    EligibleIsWhole(before, counterparty, direction, periodStart, periodEnd);
    hide *;
    result := ledger.CreateSettlementBatch(counterparty, direction, periodStart, periodEnd);
    if result.Err? {
      return;
    }
    ghost var drafted := ledger.db;
    DraftIsFresh(before, drafted, result.value);
    DraftLeavesRecords(before, drafted, draft);
    result := ConfirmShown(ledger, result.value, listing, at);
    if result.Ok? {
      SettlesFromBefore(before, drafted, ledger.db, draft);
    }
  }

  method ConfirmShown(ledger: LedgerService, id: nat, listing: set<Id> -> seq<Id>, at: int)
    returns (result: Result<nat, LedgerError>)
    requires ledger.Valid() && forall ids :: Lists(listing(ids), ids)
    requires FreshDraft(ledger.db, id) && ledger.db.batches[id].version == 1
    requires ItemsKnown(ledger.db, ledger.db.batches[id])
    modifies ledger
    ensures ledger.Valid()
    ensures result.Ok? <==>
      var b := old(ledger.db.batches[id]); SidesBalance(old(ledger.db), b) && DaysAgree(old(ledger.db), b)
    ensures result.Ok? ==> Settles(old(ledger.db), ledger.db, old(ledger.db.batches[id]))
    ensures result.Err? ==> ledger.db == old(ledger.db)
  {
    var db := ledger.db;
    var b := db.batches[id];
    BatchItemsExist(db, id, listing(b.invoices), true);
    BatchItemsExist(db, id, listing(b.money), false);
    hide *;
    var plan, offered := SettlementContext(db, id, listing(b.invoices), listing(b.money));
    ghost var rows :|
      && PlannedAs(plan, rows, ItemsOf(db, id, listing(b.invoices), true), ItemsOf(db, id, listing(b.money), false))
      && (offered <==> Offered(db, id, listing(b.invoices), listing(b.money), rows));
    FreshDraftConfirms(db, id, listing(b.invoices), listing(b.money), plan, rows);
    if !offered {
      return Err(BatchIncomplete);
    }
    result := ledger.ConfirmSettlementBatch(id, plan, b.version, at);
    if result.Ok? {
      ConfirmationSettles(db, id, plan, b.version, at);
    }
  }
}

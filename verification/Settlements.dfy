// Settlement batches (apps/reconciliation/settlements.py) on ledger values: when a draft may be confirmed
// and what its confirmation does.

module Settlements {
  import opened Common
  import opened LedgerModel
  import opened LedgerConservation

  predicate NoPairTwice(allocations: seq<Allocation>) {
    forall i, j :: 0 <= i < j < |allocations| ==>
      allocations[i].invoice != allocations[j].invoice || allocations[i].money != allocations[j].money
  }

  predicate ItemOf(b: Batch, k: Key) {
    match k case InvoiceKey(i) => i in b.invoices case MoneyKey(m) => m in b.money
  }

  // An active reconciliation of somebody else touches the key.
  predicate OccupiedBy(r: Reconciliation, id: nat, k: Key) {
    r.reversedAt.None? && r.batch != Some(id) && exists a :: a in r.allocations && Touches(a, k)
  }

  predicate Occupied(db: Db, id: nat, k: Key) {
    exists r :: r in db.recons && OccupiedBy(r, id, k)
  }

  predicate InvoiceFitsBatch(i: Invoice, b: Batch) {
    i.counterparty == b.counterparty && i.direction == InvoiceSide(b.direction)
    && b.periodStart <= i.issueDate <= b.periodEnd
  }

  predicate MoneyFitsBatch(m: Money, b: Batch) {
    m.counterparty == Some(b.counterparty) && m.direction == MoneySide(b.direction)
    && b.periodStart <= m.ownDay <= b.periodEnd
  }

  predicate RecordsFit(db: Db, b: Batch)
    requires b.invoices <= db.invoices.Keys && b.money <= db.money.Keys
  {
    && (forall i :: i in b.invoices ==> InvoiceFitsBatch(db.invoices[i], b))
    && (forall m :: m in b.money ==> MoneyFitsBatch(db.money[m], b))
  }

  predicate ItemsKnown(db: Db, b: Batch) {
    b.invoices <= db.invoices.Keys && b.money <= db.money.Keys
  }

  // The checks of _validate_batch_allocations other than the record checks.
  ghost predicate LinesFitBatch(db: Db, id: nat, allocations: seq<Allocation>)
    requires id < |db.batches| && ItemsKnown(db, db.batches[id])
  {
    var b := db.batches[id];
    && NoPairTwice(allocations)
    && b.invoices != {} && b.money != {} && allocations != []
    && InvoiceIds(allocations) == b.invoices && MoneyIds(allocations) == b.money
    && (forall k :: ItemOf(b, k) ==> !Occupied(db, id, k))
    && (forall k :: ItemOf(b, k) ==> Open(db, k) > 0)
    && (forall k :: ItemOf(b, k) ==> AllocSum(allocations, k) == Open(db, k))
  }

  // The checks of the lines, item by item.
  lemma LinesFitItems(db: Db, id: nat, allocations: seq<Allocation>)
    requires id < |db.batches| && ItemsKnown(db, db.batches[id]) && NoPairTwice(allocations)
    requires var b := db.batches[id];
             && b.invoices != {} && b.money != {} && allocations != []
             && InvoiceIds(allocations) == b.invoices && MoneyIds(allocations) == b.money
             && forall k :: ItemOf(b, k) ==>
                  && !Occupied(db, id, k) && Exists(db, k) && Open(db, k) > 0
                  && AllocSum(allocations, k) == Open(db, k)
    ensures LinesFitBatch(db, id, allocations)
  {
  }

  function BatchRequest(b: Batch, id: nat, allocations: seq<Allocation>): CreateRequest {
    CreateRequest(b.direction, BatchMode, Some(id), allocations, None, None, true)
  }

  // Everything confirm_settlement_batch and the creation inside it check.
  ghost predicate CanConfirm(db: Db, id: nat, allocations: seq<Allocation>, version: nat)
    requires id < |db.batches| && ItemsKnown(db, db.batches[id])
  {
    var b := db.batches[id];
    && !b.confirmed && version == b.version
    && RecordsFit(db, b)
    && LinesFitBatch(db, id, allocations)
    && CanCreate(db, BatchRequest(b, id, allocations))
  }

  function Confirmed(db: Db, id: nat, allocations: seq<Allocation>, at: int): Db
    requires id < |db.batches|
  {
    var b := db.batches[id];
    Created(db, BatchRequest(b, id, allocations), at).(
      batches := db.batches[id := b.(confirmed := true, version := b.version + 1)])
  }

  // A draft's items carry no active allocation at all once nobody else occupies them.
  lemma UnoccupiedIsWhole(db: Db, id: nat, k: Key)
    requires Consistent(db) && id < |db.batches| && !db.batches[id].confirmed && Exists(db, k)
    requires !Occupied(db, id, k)
    ensures Open(db, k) == Amount(db, k)
  {
    forall r | r in db.recons && r.reversedAt.None? ensures forall a :: a in r.allocations ==> !Touches(a, k) {
      assert !OccupiedBy(r, id, k);
      var i :| 0 <= i < |db.recons| && db.recons[i] == r;
      assert r.batch != Some(id);
    }
    UntouchedIsUnallocated(db.recons, k);
  }

  lemma {:induction false} UntouchedIsUnallocated(recons: seq<Reconciliation>, k: Key)
    requires forall r :: r in recons && r.reversedAt.None? ==> forall a :: a in r.allocations ==> !Touches(a, k)
    ensures Allocated(recons, k, Now) == 0
  {
    if recons != [] {
      var last := recons[|recons| - 1];
      UntouchedIsUnallocated(recons[..|recons| - 1], k);
      assert last in recons;
      if last.reversedAt.None? {
        UntouchedSums(last.allocations, k);
      }
    }
  }

  // An active line shows in what is allocated.
  lemma {:induction false} TouchedIsAllocated(recons: seq<Reconciliation>, k: Key, r: Reconciliation, a: Allocation)
    requires forall x :: x in recons ==> forall line :: line in x.allocations ==> line.amount > 0
    requires r in recons && r.reversedAt.None? && a in r.allocations && Touches(a, k)
    ensures Allocated(recons, k, Now) > 0
  {
    var n := |recons| - 1;
    AllocatedNonNegative(recons[..n], k, Now);
    AllocSumNonNegative(recons[n].allocations, k);
    if recons[n] != r {
      TouchedIsAllocated(recons[..n], k, r, a);
    }
  }

  lemma {:induction false} UntouchedSums(allocations: seq<Allocation>, k: Key)
    requires forall a :: a in allocations ==> !Touches(a, k)
    ensures AllocSum(allocations, k) == 0
  {
    if allocations != [] {
      UntouchedSums(allocations[..|allocations| - 1], k);
    }
  }

  lemma LinksSurviveConfirmation(db: Db, id: nat, allocations: seq<Allocation>, at: int)
    requires BatchesLinked(db) && id < |db.batches| && !db.batches[id].confirmed
    ensures BatchesLinked(Confirmed(db, id, allocations, at))
    ensures var after := Confirmed(db, id, allocations, at);
            forall i :: 0 <= i < |after.recons| ==> (after.recons[i].batch == Some(id) <==> i == |db.recons|)
  {
    var after := Confirmed(db, id, allocations, at);
    forall b: nat | b < |after.batches| && after.batches[b].confirmed
      ensures exists i :: 0 <= i < |after.recons| && after.recons[i].batch == Some(b)
    {
      if b == id {
        assert after.recons[|db.recons|].batch == Some(id);
      } else {
        var i :| 0 <= i < |db.recons| && db.recons[i].batch == Some(b);
        assert after.recons[i].batch == Some(b);
      }
    }
  }

  lemma ConfirmKeepsConsistent(db: Db, id: nat, allocations: seq<Allocation>, at: int)
    requires Consistent(db) && id < |db.batches| && !db.batches[id].confirmed
    requires CanCreate(db, BatchRequest(db.batches[id], id, allocations))
    ensures Consistent(Confirmed(db, id, allocations, at))
  {
    var q := BatchRequest(db.batches[id], id, allocations);
    var after := Confirmed(db, id, allocations, at);
    LinksSurviveConfirmation(db, id, allocations, at);
    CreateKeepsCapacity(db, q, at);
    CreatedIsRecorded(db, q, at);
    forall r | r in after.recons ensures Recorded(after, r) {
      assert r in db.recons ==> Recorded(db, r);
    }
    assert forall k :: Exists(after, k) ==> Exists(db, k) && Allocated(after.recons, k, Now) <= Amount(after, k);
  }

  lemma CheckedItem(db: Db, id: nat, allocations: seq<Allocation>, k: Key)
    requires id < |db.batches| && ItemsKnown(db, db.batches[id]) && LinesFitBatch(db, id, allocations)
    requires ItemOf(db.batches[id], k)
    ensures !Occupied(db, id, k) && AllocSum(allocations, k) == Open(db, k)
  {
  }

  lemma SettlesKey(db: Db, id: nat, allocations: seq<Allocation>, at: int, k: Key)
    requires Consistent(db) && id < |db.batches| && !db.batches[id].confirmed
    requires LinesFitBatch(db, id, allocations) && Exists(db, k)
    ensures ItemOf(db.batches[id], k) ==>
              Open(db, k) == Amount(db, k) && Open(Confirmed(db, id, allocations, at), k) == 0
    ensures !ItemOf(db.batches[id], k) ==> Open(Confirmed(db, id, allocations, at), k) == Open(db, k)
  {
    AllocatedAppend(db.recons, NewReconciliation(BatchRequest(db.batches[id], id, allocations), at), k, Now);
    if ItemOf(db.batches[id], k) {
      CheckedItem(db, id, allocations, k);
      UnoccupiedIsWhole(db, id, k);
    } else {
      forall a | a in allocations ensures !Touches(a, k) {
        LinesStayInBatch(db, id, allocations, a);
      }
      UntouchedSums(allocations, k);
    }
  }

  lemma LinesStayInBatch(db: Db, id: nat, allocations: seq<Allocation>, a: Allocation)
    requires id < |db.batches| && ItemsKnown(db, db.batches[id]) && LinesFitBatch(db, id, allocations)
    requires a in allocations
    ensures a.invoice in db.batches[id].invoices && a.money in db.batches[id].money
  {
    assert a.invoice in InvoiceIds(allocations) && a.money in MoneyIds(allocations);
  }

  // Confirmation settles exactly: every item goes from its full amount to nothing open, nothing else moves,
  // both sides of the batch come to the same sum, the version moves on, and the new reconciliation is the
  // first and only one the batch has.
  lemma ConfirmSettlesExactly(db: Db, id: nat, allocations: seq<Allocation>, at: int)
    requires Consistent(db) && id < |db.batches| && !db.batches[id].confirmed
    requires LinesFitBatch(db, id, allocations)
    ensures var b := db.batches[id]; var after := Confirmed(db, id, allocations, at);
            && (forall k :: ItemOf(b, k) ==> Open(db, k) == Amount(db, k) && Open(after, k) == 0)
            && (forall k :: Exists(db, k) && !ItemOf(b, k) ==> Open(after, k) == Open(db, k))
            && Sum(Requested(allocations, b.invoices, true)) == Sum(Requested(allocations, b.money, false))
            && after.batches[id] == b.(confirmed := true, version := b.version + 1)
            && (forall i :: 0 <= i < |after.recons| ==> (after.recons[i].batch == Some(id) <==> i == |db.recons|))
  {
    var b := db.batches[id];
    forall k | Exists(db, k)
      ensures ItemOf(b, k) ==> Open(db, k) == Amount(db, k) && Open(Confirmed(db, id, allocations, at), k) == 0
      ensures !ItemOf(b, k) ==> Open(Confirmed(db, id, allocations, at), k) == Open(db, k)
    {
      SettlesKey(db, id, allocations, at, k);
    }
    BatchSidesAgree(db, id, allocations);
    LinksSurviveConfirmation(db, id, allocations, at);
  }

  lemma BatchSidesAgree(db: Db, id: nat, allocations: seq<Allocation>)
    requires id < |db.batches| && ItemsKnown(db, db.batches[id]) && LinesFitBatch(db, id, allocations)
    ensures Sum(Requested(allocations, db.batches[id].invoices, true))
         == Sum(Requested(allocations, db.batches[id].money, false))
  {
    forall a | a in allocations ensures a.invoice in db.batches[id].invoices && a.money in db.batches[id].money {
      LinesStayInBatch(db, id, allocations, a);
    }
    AllocationsSpread(allocations, db.batches[id].invoices, true);
    AllocationsSpread(allocations, db.batches[id].money, false);
  }

  lemma ConfirmableItemIsOpen(db: Db, id: nat, allocations: seq<Allocation>, version: nat, k: Key)
    requires id < |db.batches| && ItemsKnown(db, db.batches[id]) && ItemOf(db.batches[id], k)
    requires CanConfirm(db, id, allocations, version)
    ensures Open(db, k) > 0 && !db.batches[id].confirmed
  {
  }

  // Hence a confirmed batch cannot be confirmed again, and no other draft sharing an item can be confirmed
  // while the first one's reconciliation stands.
  lemma ConfirmedItemsAreTaken(
    db: Db, id: nat, allocations: seq<Allocation>, at: int,
    other: nat, k: Key, more: seq<Allocation>, otherVersion: nat)
    requires Consistent(db) && id < |db.batches| && !db.batches[id].confirmed
    requires LinesFitBatch(db, id, allocations)
    requires other < |db.batches| && ItemOf(db.batches[id], k) && ItemOf(db.batches[other], k)
    ensures var after := Confirmed(db, id, allocations, at);
            && ItemsKnown(after, after.batches[other])
            && !CanConfirm(after, other, more, otherVersion)
  {
    var after := Confirmed(db, id, allocations, at);
    SettlesKey(db, id, allocations, at, k);
    if CanConfirm(after, other, more, otherVersion) {
      ConfirmableItemIsOpen(after, other, more, otherVersion, k);
    }
  }
}

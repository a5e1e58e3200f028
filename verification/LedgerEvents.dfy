// Every change the system makes to the ledger, as one atomic step, and what every step keeps.

module LedgerEvents {
  import opened LedgerModel
  import opened Settlements
  import LedgerService

  predicate StatusMoves(from: InvoiceStatus, to: InvoiceStatus) {
    from.Normal? && !to.Normal?
  }

  function StatusChanged(db: Db, i: Id, status: InvoiceStatus, at: int): Db
    requires i in db.invoices
  {
    db.(invoices := db.invoices[i := db.invoices[i].(status := status)],
        audits := db.audits + [Audit(i, db.invoices[i].status, status, at)])
  }

  datatype Event =
    | AddsInvoice(i: Id, invoice: Invoice)
    | AddsMoney(m: Id, money: Money)
    | MovesStatus(i: Id, status: InvoiceStatus)
    | Creates(q: CreateRequest)
    | Reverses(recon: nat)
    | Drafts(batch: Batch)
    | Confirms(id: nat, allocations: seq<Allocation>, version: nat)

  datatype Timed = Timed(at: int, event: Event)

  ghost predicate Allowed(db: Db, e: Event) {
    match e
    case AddsInvoice(i, invoice) => i !in db.invoices && invoice.total > 0
    case AddsMoney(m, money) => m !in db.money && money.amount > 0
    case MovesStatus(i, status) => i in db.invoices && StatusMoves(db.invoices[i].status, status)
    case Creates(q) => q.batch.None? && CanCreate(db, q)
    case Reverses(recon) => CanReverse(db, recon)
    case Drafts(batch) => ItemsKnown(db, batch) && !batch.confirmed
    case Confirms(id, allocations, version) =>
      id < |db.batches| && ItemsKnown(db, db.batches[id]) && CanConfirm(db, id, allocations, version)
  }

  function Next(db: Db, t: Timed): Db
    requires Allowed(db, t.event)
  {
    match t.event
    case AddsInvoice(i, invoice) => db.(invoices := db.invoices[i := invoice])
    case AddsMoney(m, money) => db.(money := db.money[m := money])
    case MovesStatus(i, status) => StatusChanged(db, i, status, t.at)
    case Creates(q) => Created(db, q, t.at)
    case Reverses(recon) => Reversed(db, recon, t.at)
    case Drafts(batch) => db.(batches := db.batches + [batch])
    case Confirms(id, allocations, _) => Confirmed(db, id, allocations, t.at)
  }

  // Records are only ever added, and their amounts never change.
  lemma NextKeepsRecords(db: Db, t: Timed, k: Key)
    requires Allowed(db, t.event) && Exists(db, k)
    ensures Exists(Next(db, t), k) && Amount(Next(db, t), k) == Amount(db, k)
  {
    hide CanCreate, CanConfirm;
  }

  // Adding records and moving a status leave every sum and every amount alone.
  lemma RecordsGrowConsistently(before: Db, after: Db)
    requires Consistent(before)
    requires after.recons == before.recons && after.batches == before.batches
    requires before.invoices.Keys <= after.invoices.Keys && before.money.Keys <= after.money.Keys
    requires forall i :: i in before.invoices ==>
               after.invoices[i] == before.invoices[i].(status := after.invoices[i].status)
    requires forall m :: m in before.money ==> after.money[m] == before.money[m]
    requires forall i :: i in after.invoices ==> after.invoices[i].total > 0
    requires forall m :: m in after.money ==> after.money[m].amount > 0
    ensures Consistent(after)
  {
    forall r | r in after.recons ensures Recorded(after, r) {
      assert Recorded(before, r);
    }
    forall k | Exists(after, k) ensures Allocated(after.recons, k, Now) <= Amount(after, k) {
      if Exists(before, k) {
        assert Amount(after, k) == Amount(before, k);
      } else {
        UnknownKeysAreUntouched(before, k);
      }
    }
  }

  lemma UnknownKeysAreUntouched(db: Db, k: Key)
    requires Consistent(db) && !Exists(db, k)
    ensures Allocated(db.recons, k, Now) == 0
  {
    forall r | r in db.recons && r.reversedAt.None? ensures forall a :: a in r.allocations ==> !Touches(a, k) {
      assert Recorded(db, r);
    }
    UntouchedIsUnallocated(db.recons, k);
  }

  lemma NextKeepsConsistent(db: Db, t: Timed)
    requires Consistent(db) && Allowed(db, t.event)
    ensures Consistent(Next(db, t))
  {
    var next := Next(db, t);
    match t.event
    case AddsInvoice(i, invoice) => hide CanCreate, CanConfirm; RecordsGrowConsistently(db, next);
    case AddsMoney(m, money) => hide CanCreate, CanConfirm; RecordsGrowConsistently(db, next);
    case MovesStatus(i, status) => hide CanCreate, CanConfirm; RecordsGrowConsistently(db, next);
    case Creates(q) => hide CanCreate; CreateKeepsConsistent(db, q, t.at);
    case Reverses(recon) => ReverseKeepsConsistent(db, recon, t.at);
    case Drafts(batch) => LedgerService.DraftKeepsConsistent(db, batch);
    case Confirms(id, allocations, version) => hide CanCreate; ConfirmKeepsConsistent(db, id, allocations, t.at);
  }

  // A batch settles whole: its reconciliation, while it stands, takes all of every item it touches.
  ghost predicate SettledWhole(db: Db) {
    forall r :: r in db.recons && r.batch.Some? && r.reversedAt.None? ==>
      forall a, k :: a in r.allocations && Touches(a, k) && Exists(db, k) ==> AllocSum(r.allocations, k) == Amount(db, k)
  }

  lemma NextKeepsSettledWhole(db: Db, t: Timed)
    requires Consistent(db) && SettledWhole(db) && Allowed(db, t.event)
    ensures SettledWhole(Next(db, t))
  {
    var next := Next(db, t);
    forall r, a, k |
        && r in next.recons && r.batch.Some? && r.reversedAt.None?
        && a in r.allocations && Touches(a, k) && Exists(next, k)
      ensures AllocSum(r.allocations, k) == Amount(next, k)
    {
      if r in db.recons {
        RecordedKeyExists(db, r, a, k);
        NextKeepsRecords(db, t, k);
      } else {
        NewBatchReconciliation(db, t, r, a, k);
      }
    }
  }

  lemma RecordedKeyExists(db: Db, r: Reconciliation, a: Allocation, k: Key)
    requires Consistent(db) && r in db.recons && a in r.allocations && Touches(a, k)
    ensures Exists(db, k)
  {
    assert Recorded(db, r);
  }

  // A new reconciliation of a batch comes from its confirmation, which uses up what it touches.
  lemma NewBatchReconciliation(db: Db, t: Timed, r: Reconciliation, a: Allocation, k: Key)
    requires Consistent(db) && Allowed(db, t.event)
    requires r in Next(db, t).recons && r !in db.recons && r.batch.Some? && r.reversedAt.None?
    requires a in r.allocations && Touches(a, k) && Exists(Next(db, t), k)
    ensures AllocSum(r.allocations, k) == Amount(Next(db, t), k)
  {
    match t.event
    case Confirms(id, allocations, version) =>
      hide CanCreate, Consistent;
      ConfirmedLinesFit(db, id, allocations, version);
      LinesStayInBatch(db, id, allocations, a);
      CheckedItem(db, id, allocations, k);
      UnoccupiedIsWhole(db, id, k);
    case _ => hide CanCreate, CanConfirm, Consistent;
  }

  lemma ConfirmedLinesFit(db: Db, id: nat, allocations: seq<Allocation>, version: nat)
    requires id < |db.batches| && ItemsKnown(db, db.batches[id]) && CanConfirm(db, id, allocations, version)
    ensures LinesFitBatch(db, id, allocations) && !db.batches[id].confirmed
  {
  }

  // Hence two reconciliations in force never share a record when one of them is a batch's.
  ghost predicate Exclusive(db: Db) {
    forall i, j, a, b, k ::
      && 0 <= i < |db.recons| && 0 <= j < |db.recons| && i != j
      && db.recons[i].reversedAt.None? && db.recons[j].reversedAt.None? && db.recons[i].batch.Some?
      && a in db.recons[i].allocations && b in db.recons[j].allocations && Touches(a, k) ==>
        !Touches(b, k)
  }

  lemma {:induction false} TwoShares(recons: seq<Reconciliation>, i: nat, j: nat, k: Key)
    requires i < j < |recons| && recons[i].reversedAt.None? && recons[j].reversedAt.None?
    requires forall r :: r in recons ==> forall a :: a in r.allocations ==> a.amount > 0
    ensures Allocated(recons, k, Now) >= AllocSum(recons[i].allocations, k) + AllocSum(recons[j].allocations, k)
  {
    var n := |recons| - 1;
    assert recons[n] in recons;
    AllocSumNonNegative(recons[n].allocations, k);
    if j < n {
      TwoShares(recons[..n], i, j, k);
    } else {
      OneShare(recons[..n], i, k);
    }
  }

  lemma {:induction false} OneShare(recons: seq<Reconciliation>, i: nat, k: Key)
    requires i < |recons| && recons[i].reversedAt.None?
    requires forall r :: r in recons ==> forall a :: a in r.allocations ==> a.amount > 0
    ensures Allocated(recons, k, Now) >= AllocSum(recons[i].allocations, k)
  {
    var n := |recons| - 1;
    assert recons[n] in recons;
    AllocSumNonNegative(recons[n].allocations, k);
    if i < n {
      OneShare(recons[..n], i, k);
    } else {
      AllocatedNonNegative(recons[..n], k, Now);
    }
  }

  lemma PositiveLines(db: Db)
    requires Consistent(db)
    ensures forall r :: r in db.recons ==> forall a :: a in r.allocations ==> a.amount > 0
  {
    forall r | r in db.recons ensures forall a :: a in r.allocations ==> a.amount > 0 {
      assert Recorded(db, r);
    }
  }

  lemma WholeLeavesNothing(db: Db, i: nat, j: nat, a: Allocation, k: Key)
    requires Consistent(db) && SettledWhole(db) && i < |db.recons| && j < |db.recons| && i != j
    requires db.recons[i].reversedAt.None? && db.recons[j].reversedAt.None? && db.recons[i].batch.Some?
    requires a in db.recons[i].allocations && Touches(a, k)
    ensures forall b :: b in db.recons[j].allocations ==> !Touches(b, k)
  {
    var one, other := db.recons[i], db.recons[j];
    PositiveLines(db);
    RecordedKeyExists(db, one, a, k);
    assert AllocSum(one.allocations, k) == Amount(db, k);
    assert Allocated(db.recons, k, Now) <= Amount(db, k);
    hide Consistent, SettledWhole;
    TwoShares(db.recons, if i < j then i else j, if i < j then j else i, k);
    AllocSumNonNegative(other.allocations, k);
  }

  lemma WholeIsExclusive(db: Db)
    requires Consistent(db) && SettledWhole(db)
    ensures Exclusive(db)
  {
    hide Consistent, SettledWhole;
    forall i, j, a, b, k |
        && 0 <= i < |db.recons| && 0 <= j < |db.recons| && i != j
        && db.recons[i].reversedAt.None? && db.recons[j].reversedAt.None? && db.recons[i].batch.Some?
        && a in db.recons[i].allocations && b in db.recons[j].allocations && Touches(a, k)
      ensures !Touches(b, k)
    {
      WholeLeavesNothing(db, i, j, a, k);
    }
  }
}

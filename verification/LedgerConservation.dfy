// Conservation: what is allocated on the invoice side is what is allocated on the money side, now and at
// every cutoff.

module LedgerConservation {
  import opened LedgerModel

  ghost function Sum(m: map<Id, int>): int {
    if m == map[] then 0
    else
      var i :| i in m;
      m[i] + Sum(m - {i})
  }

  lemma {:induction false} SumTake(m: map<Id, int>, i: Id)
    requires i in m
    ensures Sum(m) == m[i] + Sum(m - {i})
  {
    var j :| j in m && Sum(m) == m[j] + Sum(m - {j});
    if j != i {
      SumTake(m - {j}, i);
      SumTake(m - {i}, j);
      assert m - {j} - {i} == m - {i} - {j};
    }
  }

  lemma {:induction false} SumAdds(a: map<Id, int>, b: map<Id, int>, c: map<Id, int>)
    requires a.Keys == b.Keys == c.Keys
    requires forall i :: i in c ==> c[i] == a[i] + b[i]
    ensures Sum(c) == Sum(a) + Sum(b)
    decreases c.Keys
  {
    if c != map[] {
      var i :| i in c;
      SumTake(a, i);
      SumTake(b, i);
      SumTake(c, i);
      SumAdds(a - {i}, b - {i}, c - {i});
    } else {
      assert a == map[] && b == map[];
    }
  }

  lemma {:induction false} SumZero(m: map<Id, int>)
    requires forall i :: i in m ==> m[i] == 0
    ensures Sum(m) == 0
  {
    if m != map[] {
      var i :| i in m;
      SumTake(m, i);
      SumZero(m - {i});
    }
  }

  function On(invoiceSide: bool, id: Id): Key {
    if invoiceSide then InvoiceKey(id) else MoneyKey(id)
  }

  function IdOn(invoiceSide: bool, a: Allocation): Id {
    if invoiceSide then a.invoice else a.money
  }

  function AmountSum(allocations: seq<Allocation>): int {
    if allocations == [] then 0
    else AmountSum(allocations[..|allocations| - 1]) + allocations[|allocations| - 1].amount
  }

  function TotalInForce(recons: seq<Reconciliation>, v: View): int {
    if recons == [] then 0
    else
      var last := recons[|recons| - 1];
      TotalInForce(recons[..|recons| - 1], v) + (if Counted(last, v) then AmountSum(last.allocations) else 0)
  }

  function Requested(allocations: seq<Allocation>, ids: set<Id>, invoiceSide: bool): map<Id, int> {
    map i | i in ids :: AllocSum(allocations, On(invoiceSide, i))
  }

  function InForce(recons: seq<Reconciliation>, ids: set<Id>, invoiceSide: bool, v: View): map<Id, int> {
    map i | i in ids :: Allocated(recons, On(invoiceSide, i), v)
  }

  // Spread over the ids of either side, a list of allocations sums to its amounts.
  lemma {:induction false} AllocationsSpread(allocations: seq<Allocation>, ids: set<Id>, invoiceSide: bool)
    requires forall a :: a in allocations ==> IdOn(invoiceSide, a) in ids
    ensures Sum(Requested(allocations, ids, invoiceSide)) == AmountSum(allocations)
  {
    var whole := Requested(allocations, ids, invoiceSide);
    if allocations == [] {
      SumZero(whole);
    } else {
      var n := |allocations| - 1;
      var last := allocations[n];
      var x := IdOn(invoiceSide, last);
      assert last in allocations;
      var added := map i | i in ids :: if i == x then last.amount else 0;
      AllocationsSpread(allocations[..n], ids, invoiceSide);
      SumAdds(Requested(allocations[..n], ids, invoiceSide), added, whole);
      SumTake(added, x);
      SumZero(added - {x});
    }
  }

  lemma {:induction false} ReconciliationsSpread(
    recons: seq<Reconciliation>, ids: set<Id>, invoiceSide: bool, v: View)
    requires forall r :: r in recons ==> forall a :: a in r.allocations ==> IdOn(invoiceSide, a) in ids
    ensures Sum(InForce(recons, ids, invoiceSide, v)) == TotalInForce(recons, v)
  {
    var whole := InForce(recons, ids, invoiceSide, v);
    if recons == [] {
      SumZero(whole);
    } else {
      var n := |recons| - 1;
      var last := recons[n];
      assert last in recons;
      var added := if Counted(last, v) then Requested(last.allocations, ids, invoiceSide) else map i | i in ids :: 0;
      ReconciliationsSpread(recons[..n], ids, invoiceSide, v);
      SumAdds(InForce(recons[..n], ids, invoiceSide, v), added, whole);
      if Counted(last, v) {
        AllocationsSpread(last.allocations, ids, invoiceSide);
      } else {
        SumZero(added);
      }
    }
  }

  // The allocated totals of all invoices and of all transactions agree, under either view.
  lemma SidesAgree(db: Db, v: View)
    requires Consistent(db)
    ensures Sum(InForce(db.recons, db.invoices.Keys, true, v)) == Sum(InForce(db.recons, db.money.Keys, false, v))
  {
    forall r | r in db.recons
      ensures forall a :: a in r.allocations ==> a.invoice in db.invoices && a.money in db.money
    {
      assert Recorded(db, r);
    }
    ReconciliationsSpread(db.recons, db.invoices.Keys, true, v);
    ReconciliationsSpread(db.recons, db.money.Keys, false, v);
  }
}

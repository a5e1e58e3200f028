// The plan a settlement page proposes (apps/reconciliation/presenters.py:53-145).  Lay the free amounts of
// the invoices end to end, and those of the transactions beside them: the plan has one row for each invoice
// and transaction whose stretches overlap, over the length of the overlap.

module Planner {
  import opened LedgerModel
  import opened LedgerConservation
  import opened Settlements

  datatype Item = Item(id: Id, open: int, occupied: bool)

  // A row of the plan, by position in the two lists.
  datatype Row = Row(invoice: nat, money: nat, amount: int)

  function Min(a: int, b: int): int { if a <= b then a else b }

  function Max(a: int, b: int): int { if a >= b then a else b }

  function Free(item: Item): int {
    if item.occupied then 0 else Max(item.open, 0)
  }

  // Where the stretch of item k begins.
  function Start(items: seq<Item>, k: nat): int
    requires k <= |items|
  {
    if k == 0 then 0 else Start(items, k - 1) + Free(items[k - 1])
  }

  function Overlap(invoices: seq<Item>, money: seq<Item>, i: nat, j: nat): int
    requires i < |invoices| && j < |money|
  {
    Min(Start(invoices, i + 1), Start(money, j + 1)) - Max(Start(invoices, i), Start(money, j))
  }

  // How much of item x lies before a position.
  function Filled(items: seq<Item>, x: nat, position: int): int
    requires x < |items|
  {
    Max(0, Min(Start(items, x + 1), position) - Start(items, x))
  }

  function RowSum(rows: seq<Row>, invoiceSide: bool, x: nat): int {
    if rows == [] then 0
    else
      var last := rows[|rows| - 1];
      RowSum(rows[..|rows| - 1], invoiceSide, x)
      + (if (if invoiceSide then last.invoice else last.money) == x then last.amount else 0)
  }

  function RowTotal(rows: seq<Row>): int {
    if rows == [] then 0 else RowTotal(rows[..|rows| - 1]) + rows[|rows| - 1].amount
  }

  predicate InRange(rows: seq<Row>, invoices: seq<Item>, money: seq<Item>) {
    forall r :: r in rows ==> r.invoice < |invoices| && r.money < |money|
  }

  predicate Staircase(rows: seq<Row>) {
    forall p, q :: 0 <= p < q < |rows| ==>
      && rows[p].invoice <= rows[q].invoice && rows[p].money <= rows[q].money
      && (rows[p].invoice < rows[q].invoice || rows[p].money < rows[q].money)
  }

  predicate OnlyOverlaps(rows: seq<Row>, invoices: seq<Item>, money: seq<Item>)
    requires InRange(rows, invoices, money)
  {
    forall r :: r in rows ==> r.amount == Overlap(invoices, money, r.invoice, r.money) > 0
  }

  // Every overlap that ends at the position or before is in a row.
  predicate OverlapsUpTo(rows: seq<Row>, invoices: seq<Item>, money: seq<Item>, position: int) {
    forall i, j :: 0 <= i < |invoices| && 0 <= j < |money| && Overlap(invoices, money, i, j) > 0
                   && Min(Start(invoices, i + 1), Start(money, j + 1)) <= position ==>
      Row(i, j, Overlap(invoices, money, i, j)) in rows
  }

  function Reach(invoices: seq<Item>, money: seq<Item>): int {
    Min(Start(invoices, |invoices|), Start(money, |money|))
  }

  // The rows are exactly the overlaps, in order.
  predicate IsPlan(rows: seq<Row>, invoices: seq<Item>, money: seq<Item>) {
    && InRange(rows, invoices, money)
    && Staircase(rows)
    && OnlyOverlaps(rows, invoices, money)
    && OverlapsUpTo(rows, invoices, money, Reach(invoices, money))
  }

  // The rows take from each item what lies before the position.
  predicate FilledUpTo(rows: seq<Row>, invoices: seq<Item>, money: seq<Item>, position: int) {
    && RowTotal(rows) == position
    && (forall x :: 0 <= x < |invoices| ==> RowSum(rows, true, x) == Filled(invoices, x, position))
    && (forall y :: 0 <= y < |money| ==> RowSum(rows, false, y) == Filled(money, y, position))
  }

  lemma {:induction false} StartsGrow(items: seq<Item>, a: nat, b: nat)
    requires a <= b <= |items|
    ensures Start(items, a) <= Start(items, b)
    decreases b
  {
    if a < b {
      StartsGrow(items, a, b - 1);
    }
  }

  function Named(rows: seq<Row>, invoices: seq<Item>, money: seq<Item>): seq<Allocation>
    requires InRange(rows, invoices, money)
  {
    seq(|rows|, k requires 0 <= k < |rows| =>
      assert rows[k] in rows;
      Allocation(invoices[rows[k].invoice].id, money[rows[k].money].id, rows[k].amount))
  }

  // Taking the stretch from one position to the next inside item x fills x and nothing else.
  lemma FillsOne(items: seq<Item>, x: nat, position: int, amount: int, y: nat)
    requires x < |items| && y < |items| && amount >= 0
    requires Start(items, x) <= position && position + amount <= Start(items, x + 1)
    ensures Filled(items, y, position + amount) == Filled(items, y, position) + (if x == y then amount else 0)
  {
    if x < y {
      StartsGrow(items, x + 1, y);
    } else if y < x {
      StartsGrow(items, y + 1, x);
    }
    StartsGrow(items, y, y + 1);
  }

  lemma RowFills(
    rows: seq<Row>, invoices: seq<Item>, money: seq<Item>, position: int, i: nat, j: nat, amount: int)
    requires i < |invoices| && j < |money| && amount >= 0
    requires Start(invoices, i) <= position && position + amount <= Start(invoices, i + 1)
    requires Start(money, j) <= position && position + amount <= Start(money, j + 1)
    requires FilledUpTo(rows, invoices, money, position)
    ensures FilledUpTo(rows + [Row(i, j, amount)], invoices, money, position + amount)
  {
    var next := rows + [Row(i, j, amount)];
    assert next[..|rows|] == rows;
    forall x | 0 <= x < |invoices| ensures RowSum(next, true, x) == Filled(invoices, x, position + amount) {
      FillsOne(invoices, i, position, amount, x);
    }
    forall y | 0 <= y < |money| ensures RowSum(next, false, y) == Filled(money, y, position + amount) {
      FillsOne(money, j, position, amount, y);
    }
  }

  // An overlap that ends within the newly taken stretch is the new row's.
  lemma RowCompletes(
    rows: seq<Row>, invoices: seq<Item>, money: seq<Item>, position: int, i: nat, j: nat, amount: int)
    requires i < |invoices| && j < |money| && amount > 0
    requires Start(invoices, i) <= position && position + amount <= Start(invoices, i + 1)
    requires Start(money, j) <= position && position + amount <= Start(money, j + 1)
    requires OverlapsUpTo(rows, invoices, money, position) && amount == Overlap(invoices, money, i, j)
    ensures OverlapsUpTo(rows + [Row(i, j, amount)], invoices, money, position + amount)
  {
    var next := rows + [Row(i, j, amount)];
    forall x, y | 0 <= x < |invoices| && 0 <= y < |money| && Overlap(invoices, money, x, y) > 0
                  && Min(Start(invoices, x + 1), Start(money, y + 1)) <= position + amount
      ensures Row(x, y, Overlap(invoices, money, x, y)) in next
    {
      if Min(Start(invoices, x + 1), Start(money, y + 1)) <= position {
        assert Row(x, y, Overlap(invoices, money, x, y)) in rows;
      } else {
        SameStretch(invoices, x, i, position, amount);
        SameStretch(money, y, j, position, amount);
      }
    }
  }

  // Two stretches of one side that share a point are the same.
  lemma SameStretch(items: seq<Item>, x: nat, i: nat, position: int, amount: int)
    requires x < |items| && i < |items|
    requires Start(items, i) <= position && position + amount <= Start(items, i + 1)
    requires Start(items, x) < position + amount && position < Start(items, x + 1)
    ensures x == i
  {
    if x < i {
      StartsGrow(items, x + 1, i);
    } else if i < x {
      StartsGrow(items, i + 1, x);
    }
  }

  // What the loop has done once everything before the position is taken and items i and j are next.
  ghost predicate PlannedUpTo(rows: seq<Row>, invoices: seq<Item>, money: seq<Item>, i: nat, j: nat, position: int) {
    && InRange(rows, invoices, money) && Staircase(rows) && OnlyOverlaps(rows, invoices, money)
    && OverlapsUpTo(rows, invoices, money, position)
    && FilledUpTo(rows, invoices, money, position)
    && (forall r :: r in rows ==> r.invoice <= i && r.money <= j)
  }

  // What is left of each item: the current one from the position on, the later ones whole.
  ghost predicate Left(remaining: seq<int>, items: seq<Item>, i: nat, position: int) {
    && |remaining| == |items| && i <= |items|
    && Start(items, i) <= position
    && (i < |items| ==> remaining[i] == Start(items, i + 1) - position >= 0)
    && (i == |items| ==> position == Start(items, i))
    && (forall x :: i < x < |items| ==> remaining[x] == Free(items[x]))
  }

  lemma PlanGrows(rows: seq<Row>, invoices: seq<Item>, money: seq<Item>, i: nat, j: nat, position: int, amount: int)
    requires i < |invoices| && j < |money| && PlannedUpTo(rows, invoices, money, i, j, position)
    requires Row(i, j, Overlap(invoices, money, i, j)) !in rows
    requires position == Max(Start(invoices, i), Start(money, j))
    requires position + amount == Min(Start(invoices, i + 1), Start(money, j + 1)) && amount > 0
    ensures PlannedUpTo(rows + [Row(i, j, amount)], invoices, money, i, j, position + amount)
    ensures Named(rows + [Row(i, j, amount)], invoices, money)
         == Named(rows, invoices, money) + [Allocation(invoices[i].id, money[j].id, amount)]
  {
    hide FilledUpTo, OverlapsUpTo, Staircase, OnlyOverlaps, InRange, Named;
    NextRowFits(rows, invoices, money, i, j, amount);
    NextRowIsNamed(rows, invoices, money, Row(i, j, amount));
    RowFills(rows, invoices, money, position, i, j, amount);
    RowCompletes(rows, invoices, money, position, i, j, amount);
  }

  lemma NextRowFits(rows: seq<Row>, invoices: seq<Item>, money: seq<Item>, i: nat, j: nat, amount: int)
    requires i < |invoices| && j < |money| && amount == Overlap(invoices, money, i, j) > 0
    requires InRange(rows, invoices, money) && Staircase(rows) && OnlyOverlaps(rows, invoices, money)
    requires forall r :: r in rows ==> r.invoice <= i && r.money <= j
    requires Row(i, j, Overlap(invoices, money, i, j)) !in rows
    ensures var next := rows + [Row(i, j, amount)];
            && InRange(next, invoices, money) && Staircase(next) && OnlyOverlaps(next, invoices, money)
            && forall r :: r in next ==> r.invoice <= i && r.money <= j
  {
    forall p | 0 <= p < |rows| ensures rows[p].invoice < i || rows[p].money < j {
      assert rows[p] in rows;
    }
  }

  lemma NextRowIsNamed(rows: seq<Row>, invoices: seq<Item>, money: seq<Item>, row: Row)
    requires InRange(rows, invoices, money) && InRange(rows + [row], invoices, money)
    requires row.invoice < |invoices| && row.money < |money|
    ensures Named(rows + [row], invoices, money)
         == Named(rows, invoices, money) + [Allocation(invoices[row.invoice].id, money[row.money].id, row.amount)]
  {
  }

  lemma FreshRow(rows: seq<Row>, invoices: seq<Item>, money: seq<Item>, i: nat, j: nat, position: int)
    requires i < |invoices| && j < |money| && PlannedUpTo(rows, invoices, money, i, j, position)
    requires position == Max(Start(invoices, i), Start(money, j))
    requires position < Min(Start(invoices, i + 1), Start(money, j + 1))
    ensures Row(i, j, Overlap(invoices, money, i, j)) !in rows
  {
    var row := Row(i, j, Overlap(invoices, money, i, j));
    if row in rows {
      if position == Start(invoices, i) {
        RowCounts(rows, row, true, invoices, money);
      } else {
        RowCounts(rows, row, false, invoices, money);
      }
    }
  }

  lemma {:induction false} RowCounts(
    rows: seq<Row>, row: Row, invoiceSide: bool, invoices: seq<Item>, money: seq<Item>)
    requires InRange(rows, invoices, money) && OnlyOverlaps(rows, invoices, money)
    requires row in rows
    ensures RowSum(rows, invoiceSide, if invoiceSide then row.invoice else row.money) >= row.amount > 0
  {
    var last := rows[|rows| - 1];
    var front := rows[..|rows| - 1];
    assert last in rows;
    if row in front {
      RowCounts(front, row, invoiceSide, invoices, money);
    } else {
      RowSumsNonNegative(front, invoiceSide, if invoiceSide then row.invoice else row.money);
    }
  }

  lemma {:induction false} RowSumsNonNegative(rows: seq<Row>, invoiceSide: bool, x: nat)
    requires forall r :: r in rows ==> r.amount >= 0
    ensures RowSum(rows, invoiceSide, x) >= 0
  {
    if rows != [] {
      RowSumsNonNegative(rows[..|rows| - 1], invoiceSide, x);
    }
  }

  // At the end one side is used up, so the position is as far as both sides reach.
  lemma PlanEnds(rows: seq<Row>, invoices: seq<Item>, money: seq<Item>, i: nat, j: nat, position: int)
    requires i <= |invoices| && j <= |money| && PlannedUpTo(rows, invoices, money, i, j, position)
    requires position == Start(invoices, |invoices|) || position == Start(money, |money|)
    requires position <= Reach(invoices, money)
    ensures IsPlan(rows, invoices, money) && FilledUpTo(rows, invoices, money, Reach(invoices, money))
  {
  }

  lemma LeftAdvances(remaining: seq<int>, items: seq<Item>, i: nat, position: int)
    requires Left(remaining, items, i, position) && i < |items| && remaining[i] == 0
    ensures position == Start(items, i + 1) && Left(remaining, items, i + 1, position)
  {
    if i + 1 < |items| {
      assert remaining[i + 1] == Free(items[i + 1]);
    }
  }

  lemma LeftTakes(remaining: seq<int>, items: seq<Item>, i: nat, position: int, amount: int)
    requires Left(remaining, items, i, position) && i < |items| && 0 <= amount <= remaining[i]
    ensures Left(remaining[i := remaining[i] - amount], items, i, position + amount)
  {
  }

  lemma PlannedLater(
    rows: seq<Row>, invoices: seq<Item>, money: seq<Item>, i: nat, j: nat, position: int, nextI: nat, nextJ: nat)
    requires PlannedUpTo(rows, invoices, money, i, j, position) && i <= nextI && j <= nextJ
    ensures PlannedUpTo(rows, invoices, money, nextI, nextJ, position)
  {
  }

  // The state of the loop.
  ghost predicate Planning(
    plan: seq<Allocation>, rows: seq<Row>, invoices: seq<Item>, money: seq<Item>,
    invoiceRemaining: seq<int>, moneyRemaining: seq<int>, i: nat, j: nat, position: int)
  {
    && PlannedUpTo(rows, invoices, money, i, j, position)
    && plan == Named(rows, invoices, money)
    && Left(invoiceRemaining, invoices, i, position)
    && Left(moneyRemaining, money, j, position)
    && (i < |invoices| && j < |money| && invoiceRemaining[i] > 0 && moneyRemaining[j] > 0 ==>
          position == Max(Start(invoices, i), Start(money, j)))
  }

  lemma InvoiceDone(
    plan: seq<Allocation>, rows: seq<Row>, invoices: seq<Item>, money: seq<Item>,
    invoiceRemaining: seq<int>, moneyRemaining: seq<int>, i: nat, j: nat, position: int)
    requires Planning(plan, rows, invoices, money, invoiceRemaining, moneyRemaining, i, j, position)
    requires i < |invoices| && invoiceRemaining[i] == 0
    ensures Planning(plan, rows, invoices, money, invoiceRemaining, moneyRemaining, i + 1, j, position)
  {
    LeftAdvances(invoiceRemaining, invoices, i, position);
    PlannedLater(rows, invoices, money, i, j, position, i + 1, j);
  }

  lemma MoneyDone(
    plan: seq<Allocation>, rows: seq<Row>, invoices: seq<Item>, money: seq<Item>,
    invoiceRemaining: seq<int>, moneyRemaining: seq<int>, i: nat, j: nat, position: int)
    requires Planning(plan, rows, invoices, money, invoiceRemaining, moneyRemaining, i, j, position)
    requires j < |money| && moneyRemaining[j] == 0
    ensures Planning(plan, rows, invoices, money, invoiceRemaining, moneyRemaining, i, j + 1, position)
  {
    LeftAdvances(moneyRemaining, money, j, position);
    PlannedLater(rows, invoices, money, i, j, position, i, j + 1);
  }

  lemma RowPlanned(
    plan: seq<Allocation>, rows: seq<Row>, invoices: seq<Item>, money: seq<Item>,
    invoiceRemaining: seq<int>, moneyRemaining: seq<int>, i: nat, j: nat, position: int, amount: int)
    requires Planning(plan, rows, invoices, money, invoiceRemaining, moneyRemaining, i, j, position)
    requires i < |invoices| && j < |money| && invoiceRemaining[i] != 0 && moneyRemaining[j] != 0
    requires amount == Min(invoiceRemaining[i], moneyRemaining[j])
    ensures amount > 0
    ensures Planning(
              plan + [Allocation(invoices[i].id, money[j].id, amount)], rows + [Row(i, j, amount)], invoices, money,
              invoiceRemaining[i := invoiceRemaining[i] - amount], moneyRemaining[j := moneyRemaining[j] - amount],
              i, j, position + amount)
  {
    FreshRow(rows, invoices, money, i, j, position);
    PlanGrows(rows, invoices, money, i, j, position, amount);
    LeftTakes(invoiceRemaining, invoices, i, position, amount);
    LeftTakes(moneyRemaining, money, j, position, amount);
  }

  lemma PlanningEnds(
    plan: seq<Allocation>, rows: seq<Row>, invoices: seq<Item>, money: seq<Item>,
    invoiceRemaining: seq<int>, moneyRemaining: seq<int>, i: nat, j: nat, position: int)
    requires Planning(plan, rows, invoices, money, invoiceRemaining, moneyRemaining, i, j, position)
    requires i == |invoices| || j == |money|
    ensures IsPlan(rows, invoices, money) && FilledUpTo(rows, invoices, money, Reach(invoices, money))
    ensures plan == Named(rows, invoices, money)
  {
    if i < |invoices| {
      StartsGrow(invoices, i + 1, |invoices|);
    }
    if j < |money| {
      StartsGrow(money, j + 1, |money|);
    }
    PlanEnds(rows, invoices, money, i, j, position);
  }

  // The plan, row by row, is the list of overlaps, and takes from each item what lies within both sides' reach.
  ghost predicate PlannedAs(plan: seq<Allocation>, rows: seq<Row>, invoices: seq<Item>, money: seq<Item>) {
    && IsPlan(rows, invoices, money) && plan == Named(rows, invoices, money)
    && FilledUpTo(rows, invoices, money, Reach(invoices, money))
  }

  // _allocation_plan.
  method AllocationPlan(invoices: seq<Item>, money: seq<Item>) returns (plan: seq<Allocation>)
    ensures exists rows :: PlannedAs(plan, rows, invoices, money)
  {
    hide PlannedUpTo, IsPlan, FilledUpTo;
    var n, m := |invoices|, |money|;
    var invoiceRemaining := seq(n, k requires 0 <= k < n => Free(invoices[k]));
    var moneyRemaining := seq(m, k requires 0 <= k < m => Free(money[k]));
    var i, j := 0, 0;
    plan := [];
    ghost var rows: seq<Row>, position := [], 0;
    NothingPlanned(invoices, money);
    while i < n && j < m
      invariant 0 <= i <= n && 0 <= j <= m
      invariant Planning(plan, rows, invoices, money, invoiceRemaining, moneyRemaining, i, j, position)
      decreases n - i + m - j,
        if i < n && j < m && invoiceRemaining[i] > 0 && moneyRemaining[j] > 0 then 1 else 0
    {
      if invoiceRemaining[i] == 0 {
        InvoiceDone(plan, rows, invoices, money, invoiceRemaining, moneyRemaining, i, j, position);
        i := i + 1;
      } else if moneyRemaining[j] == 0 {
        MoneyDone(plan, rows, invoices, money, invoiceRemaining, moneyRemaining, i, j, position);
        j := j + 1;
      } else {
        var amount := Min(invoiceRemaining[i], moneyRemaining[j]);
        RowPlanned(plan, rows, invoices, money, invoiceRemaining, moneyRemaining, i, j, position, amount);
        plan := plan + [Allocation(invoices[i].id, money[j].id, amount)];
        rows := rows + [Row(i, j, amount)];
        invoiceRemaining := invoiceRemaining[i := invoiceRemaining[i] - amount];
        moneyRemaining := moneyRemaining[j := moneyRemaining[j] - amount];
        position := position + amount;
      }
    }
    PlanningEnds(plan, rows, invoices, money, invoiceRemaining, moneyRemaining, i, j, position);
    assert PlannedAs(plan, rows, invoices, money);
  }

  lemma NothingPlanned(invoices: seq<Item>, money: seq<Item>)
    ensures PlannedUpTo([], invoices, money, 0, 0, 0)
  {
    forall x | 0 <= x <= |invoices| ensures Start(invoices, x) >= 0 {
      StartsGrow(invoices, 0, x);
    }
    forall y | 0 <= y <= |money| ensures Start(money, y) >= 0 {
      StartsGrow(money, 0, y);
    }
  }

  // The plan's shape.

  // At most one row fewer than there are items.
  // Nothing is planned for an occupied item, nor for one with nothing open, and no row takes more than either has open.
  lemma PlannedItemsAreFree(rows: seq<Row>, invoices: seq<Item>, money: seq<Item>, r: Row)
    requires IsPlan(rows, invoices, money) && r in rows
    ensures r.invoice < |invoices| && r.money < |money|
    ensures !invoices[r.invoice].occupied && !money[r.money].occupied
    ensures 0 < r.amount <= invoices[r.invoice].open && r.amount <= money[r.money].open
  {
  }

  lemma {:induction false} RowsClimb(rows: seq<Row>, k: nat)
    requires Staircase(rows) && k < |rows|
    ensures rows[k].invoice + rows[k].money >= k
  {
    if k > 0 {
      RowsClimb(rows, k - 1);
    }
  }

  lemma PlanIsShort(rows: seq<Row>, invoices: seq<Item>, money: seq<Item>)
    requires IsPlan(rows, invoices, money) && rows != []
    ensures |rows| <= |invoices| + |money| - 1
  {
    var last := |rows| - 1;
    assert rows[last] in rows;
    RowsClimb(rows, last);
  }

  predicate DistinctIds(items: seq<Item>) {
    forall x, y :: 0 <= x < y < |items| ==> items[x].id != items[y].id
  }

  lemma PlanPairsAreDistinct(rows: seq<Row>, invoices: seq<Item>, money: seq<Item>)
    requires IsPlan(rows, invoices, money) && DistinctIds(invoices) && DistinctIds(money)
    ensures NoPairTwice(Named(rows, invoices, money))
  {
    var plan := Named(rows, invoices, money);
    forall p, q | 0 <= p < q < |plan|
      ensures plan[p].invoice != plan[q].invoice || plan[p].money != plan[q].money
    {
      assert rows[p] in rows && rows[q] in rows;
    }
  }

  // The named plan asks of each item what its rows add up to.
  lemma {:induction false} NamedSums(rows: seq<Row>, invoices: seq<Item>, money: seq<Item>, invoiceSide: bool, x: nat)
    requires InRange(rows, invoices, money) && DistinctIds(invoices) && DistinctIds(money)
    requires x < |if invoiceSide then invoices else money|
    ensures AllocSum(Named(rows, invoices, money), On(invoiceSide, (if invoiceSide then invoices else money)[x].id))
         == RowSum(rows, invoiceSide, x)
  {
    if rows != [] {
      var n := |rows| - 1;
      assert rows[n] in rows;
      assert Named(rows, invoices, money)[..n] == Named(rows[..n], invoices, money);
      NamedSums(rows[..n], invoices, money, invoiceSide, x);
    }
  }

  // No item is asked for more than it has free, and the plan as a whole takes all the smaller side has.
  lemma PlanStaysWithinOpen(rows: seq<Row>, invoices: seq<Item>, money: seq<Item>, invoiceSide: bool, x: nat)
    requires FilledUpTo(rows, invoices, money, Reach(invoices, money))
    requires x < |if invoiceSide then invoices else money|
    ensures var items := if invoiceSide then invoices else money;
            && 0 <= RowSum(rows, invoiceSide, x) <= Free(items[x])
            && (Start(items, |items|) == Reach(invoices, money) ==> RowSum(rows, invoiceSide, x) == Free(items[x]))
  {
    var items := if invoiceSide then invoices else money;
    StartsGrow(items, x + 1, |items|);
  }

  // The page of a draft batch: settlement_context.

  ghost predicate Lists(ids: seq<Id>, items: set<Id>) {
    && (forall i :: i in items <==> i in ids)
    && (forall x, y :: 0 <= x < y < |ids| ==> ids[x] != ids[y])
  }

  function ItemsOf(db: Db, batch: nat, ids: seq<Id>, invoiceSide: bool): seq<Item>
    requires forall i :: i in ids ==> Exists(db, On(invoiceSide, i))
  {
    seq(|ids|, k requires 0 <= k < |ids| =>
      assert ids[k] in ids;
      Item(ids[k], Open(db, On(invoiceSide, ids[k])), Occupied(db, batch, On(invoiceSide, ids[k]))))
  }

  // What invoice_total and money_total show.
  function ShownTotal(items: seq<Item>): int {
    if items == [] then 0
    else
      var last := items[|items| - 1];
      ShownTotal(items[..|items| - 1]) + (if last.occupied then 0 else last.open)
  }

  method SumShown(items: seq<Item>) returns (total: int)
    ensures total == ShownTotal(items)
  {
    total := 0;
    for k := 0 to |items|
      invariant total == ShownTotal(items[..k])
    {
      assert items[..k + 1][..k] == items[..k];
      if !items[k].occupied {
        total := total + items[k].open;
      }
    }
    assert items[..|items|] == items;
  }

  lemma {:induction false} NamedTotal(rows: seq<Row>, invoices: seq<Item>, money: seq<Item>)
    requires InRange(rows, invoices, money)
    ensures AmountSum(Named(rows, invoices, money)) == RowTotal(rows)
  {
    if rows != [] {
      var n := |rows| - 1;
      assert rows[n] in rows;
      assert Named(rows, invoices, money)[..n] == Named(rows[..n], invoices, money);
      NamedTotal(rows[..n], invoices, money);
    }
  }

  lemma PlanTakesAllOfTheSmallerSide(rows: seq<Row>, invoices: seq<Item>, money: seq<Item>)
    requires InRange(rows, invoices, money) && FilledUpTo(rows, invoices, money, Reach(invoices, money))
    ensures AmountSum(Named(rows, invoices, money)) == Min(Start(invoices, |invoices|), Start(money, |money|))
  {
    NamedTotal(rows, invoices, money);
  }

  // The facts about the page's two lists.
  lemma BatchItemsExist(db: Db, batch: nat, ids: seq<Id>, invoiceSide: bool)
    requires BatchesLinked(db) && batch < |db.batches|
    requires Lists(ids, if invoiceSide then db.batches[batch].invoices else db.batches[batch].money)
    ensures ItemsKnown(db, db.batches[batch])
    ensures forall i :: i in ids ==> Exists(db, On(invoiceSide, i)) && ItemOf(db.batches[batch], On(invoiceSide, i))
    ensures DistinctIds(ItemsOf(db, batch, ids, invoiceSide))
  {
  }

  // While no item is occupied, an item of a draft is wholly open, and that is what is free of it.
  lemma FreeItems(db: Db, batch: nat, ids: seq<Id>, invoiceSide: bool)
    requires Consistent(db) && batch < |db.batches| && !db.batches[batch].confirmed
    requires forall i :: i in ids ==> Exists(db, On(invoiceSide, i))
    requires forall i :: i in ItemsOf(db, batch, ids, invoiceSide) ==> !i.occupied
    ensures forall k :: 0 <= k < |ids| ==>
              Free(ItemsOf(db, batch, ids, invoiceSide)[k]) == Open(db, On(invoiceSide, ids[k])) > 0
  {
    var items := ItemsOf(db, batch, ids, invoiceSide);
    forall k | 0 <= k < |ids| ensures Free(items[k]) == Open(db, On(invoiceSide, ids[k])) > 0 {
      assert items[k] in items && ids[k] in ids;
      UnoccupiedIsWhole(db, batch, On(invoiceSide, ids[k]));
      PositiveAmounts(db, On(invoiceSide, ids[k]));
    }
  }

  lemma PositiveAmounts(db: Db, k: Key)
    requires Consistent(db) && Exists(db, k)
    ensures Amount(db, k) > 0
  {
  }

  lemma {:induction false} ShownIsStart(items: seq<Item>)
    requires forall i :: i in items ==> !i.occupied && i.open >= 0
    ensures ShownTotal(items) == Start(items, |items|)
  {
    if items != [] {
      var n := |items| - 1;
      ShownIsStart(items[..n]);
      assert items[n] in items;
      StartOfFront(items, n, n);
    }
  }

  lemma {:induction false} StartOfFront(items: seq<Item>, n: nat, k: nat)
    requires k <= n <= |items|
    ensures Start(items[..n], k) == Start(items, k)
  {
    if k > 0 {
      StartOfFront(items, n, k - 1);
    }
  }

  // The page offers confirmation only for plans that pass: every item unoccupied, open and used up exactly.

  // What the page shows when it offers confirmation.
  ghost predicate Offered(db: Db, batch: nat, invoiceIds: seq<Id>, moneyIds: seq<Id>, rows: seq<Row>)
    requires forall i :: i in invoiceIds ==> Exists(db, On(true, i))
    requires forall m :: m in moneyIds ==> Exists(db, On(false, m))
  {
    var invoices, money := ItemsOf(db, batch, invoiceIds, true), ItemsOf(db, batch, moneyIds, false);
    && rows != [] && ShownTotal(invoices) == ShownTotal(money)
    && (forall i :: i in invoices ==> !i.occupied) && (forall m :: m in money ==> !m.occupied)
  }

  lemma OfferedItemIsUsedUp(
    db: Db, batch: nat, invoiceIds: seq<Id>, moneyIds: seq<Id>, rows: seq<Row>, invoiceSide: bool, x: nat)
    requires Consistent(db) && batch < |db.batches| && !db.batches[batch].confirmed
    requires Lists(invoiceIds, db.batches[batch].invoices) && Lists(moneyIds, db.batches[batch].money)
    requires forall i :: i in invoiceIds ==> Exists(db, On(true, i))
    requires forall m :: m in moneyIds ==> Exists(db, On(false, m))
    requires Offered(db, batch, invoiceIds, moneyIds, rows)
    requires var invoices, money := ItemsOf(db, batch, invoiceIds, true), ItemsOf(db, batch, moneyIds, false);
             InRange(rows, invoices, money) && FilledUpTo(rows, invoices, money, Reach(invoices, money))
    requires x < |if invoiceSide then invoiceIds else moneyIds|
    ensures var key := On(invoiceSide, (if invoiceSide then invoiceIds else moneyIds)[x]);
            && !Occupied(db, batch, key)
            && AllocSum(Named(rows, ItemsOf(db, batch, invoiceIds, true), ItemsOf(db, batch, moneyIds, false)), key)
               == Open(db, key) > 0
  {
    hide FilledUpTo;
    var invoices, money := ItemsOf(db, batch, invoiceIds, true), ItemsOf(db, batch, moneyIds, false);
    BatchItemsExist(db, batch, invoiceIds, true);
    BatchItemsExist(db, batch, moneyIds, false);
    FreeItems(db, batch, invoiceIds, true);
    FreeItems(db, batch, moneyIds, false);
    ShownIsStart(invoices);
    ShownIsStart(money);
    NamedSums(rows, invoices, money, invoiceSide, x);
    PlanStaysWithinOpen(rows, invoices, money, invoiceSide, x);
  }

  lemma IdsOfOffered(db: Db, batch: nat, invoiceIds: seq<Id>, moneyIds: seq<Id>, plan: seq<Allocation>)
    requires batch < |db.batches|
    requires Lists(invoiceIds, db.batches[batch].invoices) && Lists(moneyIds, db.batches[batch].money)
    requires forall a :: a in plan ==> a.invoice in invoiceIds && a.money in moneyIds
    requires forall i :: i in invoiceIds ==> AllocSum(plan, InvoiceKey(i)) > 0
    requires forall m :: m in moneyIds ==> AllocSum(plan, MoneyKey(m)) > 0
    ensures InvoiceIds(plan) == db.batches[batch].invoices && MoneyIds(plan) == db.batches[batch].money
  {
    forall i | i in InvoiceIds(plan) ensures i in invoiceIds {
      var a := InvoiceIdWitness(plan, i);
    }
    forall m | m in MoneyIds(plan) ensures m in moneyIds {
      var a := MoneyIdWitness(plan, m);
    }
    forall i | i in invoiceIds ensures i in InvoiceIds(plan) {
      if i !in InvoiceIds(plan) {
        UntouchedSums(plan, InvoiceKey(i));
      }
    }
    forall m | m in moneyIds ensures m in MoneyIds(plan) {
      if m !in MoneyIds(plan) {
        UntouchedSums(plan, MoneyKey(m));
      }
    }
  }

  lemma NamedIds(rows: seq<Row>, db: Db, batch: nat, invoiceIds: seq<Id>, moneyIds: seq<Id>)
    requires forall i :: i in invoiceIds ==> Exists(db, On(true, i))
    requires forall m :: m in moneyIds ==> Exists(db, On(false, m))
    requires InRange(rows, ItemsOf(db, batch, invoiceIds, true), ItemsOf(db, batch, moneyIds, false))
    ensures forall a :: a in Named(rows, ItemsOf(db, batch, invoiceIds, true), ItemsOf(db, batch, moneyIds, false)) ==>
              a.invoice in invoiceIds && a.money in moneyIds
  {
    var plan := Named(rows, ItemsOf(db, batch, invoiceIds, true), ItemsOf(db, batch, moneyIds, false));
    forall a | a in plan ensures a.invoice in invoiceIds && a.money in moneyIds {
      var k :| 0 <= k < |plan| && plan[k] == a;
      assert rows[k] in rows;
    }
  }

  lemma OfferedKeyIsUsedUp(
    db: Db, batch: nat, invoiceIds: seq<Id>, moneyIds: seq<Id>, rows: seq<Row>, k: Key)
    requires Consistent(db) && batch < |db.batches| && !db.batches[batch].confirmed
    requires Lists(invoiceIds, db.batches[batch].invoices) && Lists(moneyIds, db.batches[batch].money)
    requires forall i :: i in invoiceIds ==> Exists(db, On(true, i))
    requires forall m :: m in moneyIds ==> Exists(db, On(false, m))
    requires Offered(db, batch, invoiceIds, moneyIds, rows)
    requires var invoices, money := ItemsOf(db, batch, invoiceIds, true), ItemsOf(db, batch, moneyIds, false);
             InRange(rows, invoices, money) && FilledUpTo(rows, invoices, money, Reach(invoices, money))
    requires ItemOf(db.batches[batch], k)
    ensures Exists(db, k) && !Occupied(db, batch, k)
    ensures AllocSum(Named(rows, ItemsOf(db, batch, invoiceIds, true), ItemsOf(db, batch, moneyIds, false)), k)
            == Open(db, k) > 0
  {
    hide Consistent, FilledUpTo, Offered, InRange, Occupied, Open;
    match k {
      case InvoiceKey(i) =>
        var x :| 0 <= x < |invoiceIds| && invoiceIds[x] == i;
        OfferedItemIsUsedUp(db, batch, invoiceIds, moneyIds, rows, true, x);
      case MoneyKey(m) =>
        var y :| 0 <= y < |moneyIds| && moneyIds[y] == m;
        OfferedItemIsUsedUp(db, batch, invoiceIds, moneyIds, rows, false, y);
    }
  }

  // An offered plan passes every check of the confirmation but the record checks.
  lemma OfferIsHonest(db: Db, batch: nat, invoiceIds: seq<Id>, moneyIds: seq<Id>, rows: seq<Row>)
    requires Consistent(db) && batch < |db.batches| && !db.batches[batch].confirmed
    requires Lists(invoiceIds, db.batches[batch].invoices) && Lists(moneyIds, db.batches[batch].money)
    requires forall i :: i in invoiceIds ==> Exists(db, On(true, i))
    requires forall m :: m in moneyIds ==> Exists(db, On(false, m))
    requires Offered(db, batch, invoiceIds, moneyIds, rows)
    requires var invoices, money := ItemsOf(db, batch, invoiceIds, true), ItemsOf(db, batch, moneyIds, false);
             IsPlan(rows, invoices, money) && FilledUpTo(rows, invoices, money, Reach(invoices, money))
    ensures ItemsKnown(db, db.batches[batch])
    ensures LinesFitBatch(db, batch,
              Named(rows, ItemsOf(db, batch, invoiceIds, true), ItemsOf(db, batch, moneyIds, false)))
  {
    hide FilledUpTo, OverlapsUpTo, OnlyOverlaps, Offered, Consistent, InRange, ItemsOf, LinesFitBatch, Occupied, Open,
         ItemsKnown;
    var invoices, money := ItemsOf(db, batch, invoiceIds, true), ItemsOf(db, batch, moneyIds, false);
    var b, plan := db.batches[batch], Named(rows, invoices, money);
    DraftLists(db, batch, invoiceIds, moneyIds, rows);
    forall k | ItemOf(b, k)
      ensures !Occupied(db, batch, k) && Exists(db, k) && AllocSum(plan, k) == Open(db, k) > 0
    {
      OfferedKeyIsUsedUp(db, batch, invoiceIds, moneyIds, rows, k);
    }
    NamedIds(rows, db, batch, invoiceIds, moneyIds);
    OfferedIds(db, batch, invoiceIds, moneyIds, plan);
    PlanPairsAreDistinct(rows, invoices, money);
    assert plan[0].invoice in b.invoices && plan[0].money in b.money;
    LinesFitItems(db, batch, plan);
  }

  lemma OfferedIds(db: Db, batch: nat, invoiceIds: seq<Id>, moneyIds: seq<Id>, plan: seq<Allocation>)
    requires batch < |db.batches|
    requires Lists(invoiceIds, db.batches[batch].invoices) && Lists(moneyIds, db.batches[batch].money)
    requires forall a :: a in plan ==> a.invoice in invoiceIds && a.money in moneyIds
    requires forall k :: ItemOf(db.batches[batch], k) ==> AllocSum(plan, k) > 0
    ensures InvoiceIds(plan) == db.batches[batch].invoices && MoneyIds(plan) == db.batches[batch].money
  {
    hide AllocSum, InvoiceIds, MoneyIds;
    var b := db.batches[batch];
    forall i | i in invoiceIds ensures AllocSum(plan, InvoiceKey(i)) > 0 {
      assert ItemOf(b, InvoiceKey(i));
    }
    forall m | m in moneyIds ensures AllocSum(plan, MoneyKey(m)) > 0 {
      assert ItemOf(b, MoneyKey(m));
    }
    IdsOfOffered(db, batch, invoiceIds, moneyIds, plan);
  }

  lemma DraftLists(db: Db, batch: nat, invoiceIds: seq<Id>, moneyIds: seq<Id>, rows: seq<Row>)
    requires Consistent(db) && batch < |db.batches|
    requires Lists(invoiceIds, db.batches[batch].invoices) && Lists(moneyIds, db.batches[batch].money)
    requires forall i :: i in invoiceIds ==> Exists(db, On(true, i))
    requires forall m :: m in moneyIds ==> Exists(db, On(false, m))
    requires Offered(db, batch, invoiceIds, moneyIds, rows)
    ensures ItemsKnown(db, db.batches[batch]) && rows != []
    ensures DistinctIds(ItemsOf(db, batch, invoiceIds, true)) && DistinctIds(ItemsOf(db, batch, moneyIds, false))
  {
    BatchItemsExist(db, batch, invoiceIds, true);
    BatchItemsExist(db, batch, moneyIds, false);
  }

  // Conversely, where any list of lines would pass, the page offers its plan.

  function Listed(ids: seq<Id>): set<Id> {
    set i | i in ids
  }

  lemma RequestedOneMore(ids: seq<Id>, invoiceSide: bool, other: seq<Allocation>)
    requires ids != [] && forall x :: 0 <= x < |ids| - 1 ==> ids[x] != ids[|ids| - 1]
    ensures var n := |ids| - 1;
            Sum(Requested(other, Listed(ids), invoiceSide))
            == AllocSum(other, On(invoiceSide, ids[n])) + Sum(Requested(other, Listed(ids[..n]), invoiceSide))
  {
    hide AllocSum, Sum;
    var n := |ids| - 1;
    var whole, front := Requested(other, Listed(ids), invoiceSide), Requested(other, Listed(ids[..n]), invoiceSide);
    assert forall i :: i in ids <==> i in ids[..n] || i == ids[n];
    assert whole - {ids[n]} == front;
    SumTake(whole, ids[n]);
  }

  lemma ShownOneMore(db: Db, batch: nat, ids: seq<Id>, invoiceSide: bool)
    requires ids != [] && forall i :: i in ids ==> Exists(db, On(invoiceSide, i))
    requires !Occupied(db, batch, On(invoiceSide, ids[|ids| - 1]))
    ensures var n := |ids| - 1;
            ShownTotal(ItemsOf(db, batch, ids, invoiceSide))
            == ShownTotal(ItemsOf(db, batch, ids[..n], invoiceSide)) + Open(db, On(invoiceSide, ids[n]))
  {
    hide Open, Occupied;
    var n := |ids| - 1;
    assert ItemsOf(db, batch, ids, invoiceSide)[..n] == ItemsOf(db, batch, ids[..n], invoiceSide);
  }

  lemma {:induction false} ShownIsRequested(
    db: Db, batch: nat, ids: seq<Id>, invoiceSide: bool, other: seq<Allocation>)
    requires forall i :: i in ids ==> Exists(db, On(invoiceSide, i))
    requires forall x, y :: 0 <= x < y < |ids| ==> ids[x] != ids[y]
    requires forall i :: i in ids ==>
               !Occupied(db, batch, On(invoiceSide, i)) && AllocSum(other, On(invoiceSide, i)) == Open(db, On(invoiceSide, i))
    ensures ShownTotal(ItemsOf(db, batch, ids, invoiceSide)) == Sum(Requested(other, Listed(ids), invoiceSide))
  {
    if ids == [] {
      SumZero(Requested(other, Listed(ids), invoiceSide));
      return;
    }
    hide Occupied, Open, AllocSum, Sum, Requested, ShownTotal, ItemsOf, Listed;
    var n := |ids| - 1;
    assert ids[n] in ids;
    ShownIsRequested(db, batch, ids[..n], invoiceSide, other);
    RequestedOneMore(ids, invoiceSide, other);
    ShownOneMore(db, batch, ids, invoiceSide);
  }

  // One side of the page, when some lines would pass.
  lemma PassingSide(db: Db, batch: nat, ids: seq<Id>, invoiceSide: bool, other: seq<Allocation>)
    requires Consistent(db) && batch < |db.batches| && !db.batches[batch].confirmed
    requires ItemsKnown(db, db.batches[batch]) && LinesFitBatch(db, batch, other)
    requires var b := db.batches[batch]; Lists(ids, if invoiceSide then b.invoices else b.money)
    requires forall i :: i in ids ==> Exists(db, On(invoiceSide, i))
    ensures var b := db.batches[batch]; var items := ItemsOf(db, batch, ids, invoiceSide);
            && (forall i :: i in items ==> !i.occupied)
            && ShownTotal(items) == Sum(Requested(other, if invoiceSide then b.invoices else b.money, invoiceSide))
            && Start(items, |items|) > 0
  {
    var b, items := db.batches[batch], ItemsOf(db, batch, ids, invoiceSide);
    var all := if invoiceSide then b.invoices else b.money;
    assert all != {} && Listed(ids) == all;
    hide Consistent, LinesFitBatch;
    forall i | i in ids
      ensures !Occupied(db, batch, On(invoiceSide, i)) && AllocSum(other, On(invoiceSide, i)) == Open(db, On(invoiceSide, i))
    {
      CheckedItem(db, batch, other, On(invoiceSide, i));
    }
    ShownIsRequested(db, batch, ids, invoiceSide, other);
    FreeItems(db, batch, ids, invoiceSide);
    SomethingIsFree(items, ids, all);
  }

  lemma PassingLinesAreOffered(
    db: Db, batch: nat, invoiceIds: seq<Id>, moneyIds: seq<Id>, rows: seq<Row>, other: seq<Allocation>)
    requires Consistent(db) && batch < |db.batches| && !db.batches[batch].confirmed
    requires Lists(invoiceIds, db.batches[batch].invoices) && Lists(moneyIds, db.batches[batch].money)
    requires forall i :: i in invoiceIds ==> Exists(db, On(true, i))
    requires forall m :: m in moneyIds ==> Exists(db, On(false, m))
    requires var invoices, money := ItemsOf(db, batch, invoiceIds, true), ItemsOf(db, batch, moneyIds, false);
             RowTotal(rows) == Reach(invoices, money)
    requires ItemsKnown(db, db.batches[batch]) && LinesFitBatch(db, batch, other)
    ensures Offered(db, batch, invoiceIds, moneyIds, rows)
  {
    hide Consistent, LinesFitBatch, Lists, ShownTotal, ItemsOf;
    PassingSide(db, batch, invoiceIds, true, other);
    PassingSide(db, batch, moneyIds, false, other);
    BatchSidesAgree(db, batch, other);
  }

  // A list with a free item reaches past its beginning.
  lemma SomethingIsFree(items: seq<Item>, ids: seq<Id>, all: set<Id>)
    requires |items| == |ids| && Lists(ids, all) && all != {}
    requires forall k :: 0 <= k < |ids| ==> Free(items[k]) > 0
    ensures Start(items, |items|) > 0
  {
    var i :| i in all;
    assert i in ids;
    StartsGrow(items, 0, |items| - 1);
  }

  // What the checks of the plan leave to the creation: the records of the lines.

  predicate AllNormal(db: Db, b: Batch)
    requires ItemsKnown(db, b)
  {
    forall i :: i in b.invoices ==> db.invoices[i].status.Normal?
  }

  // The capacity checks of the creation follow from the batch's own.
  lemma CapacityFollows(db: Db, batch: nat, plan: seq<Allocation>)
    requires batch < |db.batches| && ItemsKnown(db, db.batches[batch]) && LinesFitBatch(db, batch, plan)
    ensures var q := BatchRequest(db.batches[batch], batch, plan); var r := ReadingOf(db, plan);
            Covers(r, q) && PageFresh(r, q) && PartialConfirmed(r, q) && MoneySuffices(r, q) && InvoicesSuffice(r, q)
  {
    var b, r := db.batches[batch], ReadingOf(db, plan);
    forall i | i in b.invoices ensures AllocSum(plan, InvoiceKey(i)) == InvoiceOpen(r, i) {
      CheckedItem(db, batch, plan, InvoiceKey(i));
    }
    forall m | m in b.money ensures AllocSum(plan, MoneyKey(m)) == MoneyOpen(r, m) {
      CheckedItem(db, batch, plan, MoneyKey(m));
    }
  }

  // With positive lines, confirmation goes through exactly when the records still fit.
  lemma ConfirmsExactlyWhenRecordsFit(db: Db, batch: nat, plan: seq<Allocation>, version: nat)
    requires batch < |db.batches| && ItemsKnown(db, db.batches[batch]) && !db.batches[batch].confirmed
    requires forall a :: a in plan ==> a.amount > 0
    ensures CanConfirm(db, batch, plan, version) <==>
              && version == db.batches[batch].version && LinesFitBatch(db, batch, plan)
              && RecordsFit(db, db.batches[batch]) && AllNormal(db, db.batches[batch])
  {
    var b := db.batches[batch];
    var q := BatchRequest(b, batch, plan);
    if LinesFitBatch(db, batch, plan) && RecordsFit(db, b) {
      var r := ReadingOf(db, plan);
      CapacityFollows(db, batch, plan);
      RecordsDecide(db, batch, plan);
    }
  }

  lemma RecordsDecide(db: Db, batch: nat, plan: seq<Allocation>)
    requires batch < |db.batches| && ItemsKnown(db, db.batches[batch])
    requires InvoiceIds(plan) == db.batches[batch].invoices && MoneyIds(plan) == db.batches[batch].money
    requires RecordsFit(db, db.batches[batch]) && forall a :: a in plan ==> a.amount > 0
    ensures LinesFit(ReadingOf(db, plan), BatchRequest(db.batches[batch], batch, plan))
            <==> AllNormal(db, db.batches[batch])
  {
    var b, r := db.batches[batch], ReadingOf(db, plan);
    var q := BatchRequest(b, batch, plan);
    if AllNormal(db, b) {
      forall a | a in plan ensures LineFits(r, q.direction, a) {
        assert a.invoice in InvoiceIds(plan) && a.money in MoneyIds(plan);
      }
    }
    if LinesFit(r, q) {
      forall i | i in b.invoices ensures db.invoices[i].status.Normal? {
        var a := InvoiceIdWitness(plan, i);
        assert LineFits(r, q.direction, a);
      }
    }
  }

  lemma RowsArePositive(rows: seq<Row>, invoices: seq<Item>, money: seq<Item>)
    requires IsPlan(rows, invoices, money)
    ensures forall a :: a in Named(rows, invoices, money) ==> a.amount > 0
  {
    var plan := Named(rows, invoices, money);
    forall a | a in plan ensures a.amount > 0 {
      var k :| 0 <= k < |plan| && plan[k] == a;
      assert rows[k] in rows;
    }
  }

  // What the page computes is the offer.
  lemma OfferIsShown(db: Db, batch: nat, invoiceIds: seq<Id>, moneyIds: seq<Id>, rows: seq<Row>, plan: seq<Allocation>)
    requires forall i :: i in invoiceIds ==> Exists(db, On(true, i))
    requires forall m :: m in moneyIds ==> Exists(db, On(false, m))
    requires PlannedAs(plan, rows, ItemsOf(db, batch, invoiceIds, true), ItemsOf(db, batch, moneyIds, false))
    ensures var invoices, money := ItemsOf(db, batch, invoiceIds, true), ItemsOf(db, batch, moneyIds, false);
            Offered(db, batch, invoiceIds, moneyIds, rows) <==>
              && plan != [] && ShownTotal(invoices) == ShownTotal(money)
              && !((exists i :: i in invoices && i.occupied) || (exists m :: m in money && m.occupied))
  {
    hide FilledUpTo, ItemsOf, OverlapsUpTo, OnlyOverlaps, Staircase;
  }

  lemma OfferDecides(db: Db, batch: nat, invoiceIds: seq<Id>, moneyIds: seq<Id>, rows: seq<Row>)
    requires Consistent(db) && batch < |db.batches| && !db.batches[batch].confirmed
    requires Lists(invoiceIds, db.batches[batch].invoices) && Lists(moneyIds, db.batches[batch].money)
    requires forall i :: i in invoiceIds ==> Exists(db, On(true, i))
    requires forall m :: m in moneyIds ==> Exists(db, On(false, m))
    requires var invoices, money := ItemsOf(db, batch, invoiceIds, true), ItemsOf(db, batch, moneyIds, false);
             IsPlan(rows, invoices, money) && FilledUpTo(rows, invoices, money, Reach(invoices, money))
    ensures ItemsKnown(db, db.batches[batch])
    ensures var plan := Named(rows, ItemsOf(db, batch, invoiceIds, true), ItemsOf(db, batch, moneyIds, false));
            var offered := Offered(db, batch, invoiceIds, moneyIds, rows);
            && (offered <==> LinesFitBatch(db, batch, plan))
            && ((exists other :: LinesFitBatch(db, batch, other)) ==> offered)
            && forall version ::
                 CanConfirm(db, batch, plan, version) <==>
                   offered && version == db.batches[batch].version
                   && RecordsFit(db, db.batches[batch]) && AllNormal(db, db.batches[batch])
  {
    var invoices, money := ItemsOf(db, batch, invoiceIds, true), ItemsOf(db, batch, moneyIds, false);
    var plan := Named(rows, invoices, money);
    assert RowTotal(rows) == Reach(invoices, money);
    BatchItemsExist(db, batch, invoiceIds, true);
    RowsArePositive(rows, invoices, money);
    hide *;
    if Offered(db, batch, invoiceIds, moneyIds, rows) {
      OfferIsHonest(db, batch, invoiceIds, moneyIds, rows);
    }
    forall other | LinesFitBatch(db, batch, other) ensures Offered(db, batch, invoiceIds, moneyIds, rows) {
      PassingLinesAreOffered(db, batch, invoiceIds, moneyIds, rows, other);
    }
    forall version
      ensures CanConfirm(db, batch, plan, version) <==>
                && Offered(db, batch, invoiceIds, moneyIds, rows) && version == db.batches[batch].version
                && RecordsFit(db, db.batches[batch]) && AllNormal(db, db.batches[batch])
    {
      ConfirmsExactlyWhenRecordsFit(db, batch, plan, version);
    }
  }

  // settlement_context: for a draft the page offers confirmation exactly when the plan passes the batch's checks, and
  // whenever any lines at all would pass; with the offer, confirmation succeeds unless a record has changed.
  method SettlementContext(db: Db, batch: nat, invoiceIds: seq<Id>, moneyIds: seq<Id>)
    returns (plan: seq<Allocation>, canConfirm: bool)
    requires Consistent(db) && batch < |db.batches|
    requires Lists(invoiceIds, db.batches[batch].invoices) && Lists(moneyIds, db.batches[batch].money)
    ensures ItemsKnown(db, db.batches[batch])
    ensures exists rows ::
              && PlannedAs(plan, rows, ItemsOf(db, batch, invoiceIds, true), ItemsOf(db, batch, moneyIds, false))
              && (canConfirm <==> Offered(db, batch, invoiceIds, moneyIds, rows))
    ensures !db.batches[batch].confirmed ==>
              && (canConfirm <==> LinesFitBatch(db, batch, plan))
              && ((exists other :: LinesFitBatch(db, batch, other)) ==> canConfirm)
              && forall version ::
                   CanConfirm(db, batch, plan, version) <==>
                     canConfirm && version == db.batches[batch].version
                     && RecordsFit(db, db.batches[batch]) && AllNormal(db, db.batches[batch])
  {
    BatchItemsExist(db, batch, invoiceIds, true);
    BatchItemsExist(db, batch, moneyIds, false);
    hide IsPlan, FilledUpTo, Consistent, LinesFitBatch, CanConfirm, Occupied, Open, Lists, ItemsKnown, RecordsFit, AllNormal,
         Offered, ItemsOf, Named;
    var invoices, money := ItemsOf(db, batch, invoiceIds, true), ItemsOf(db, batch, moneyIds, false);
    plan := AllocationPlan(invoices, money);
    ghost var rows :| PlannedAs(plan, rows, invoices, money);
    var invoiceTotal := SumShown(invoices);
    var moneyTotal := SumShown(money);
    var occupied := (exists i :: i in invoices && i.occupied) || (exists m :: m in money && m.occupied);
    canConfirm := plan != [] && invoiceTotal == moneyTotal && !occupied;
    OfferIsShown(db, batch, invoiceIds, moneyIds, rows, plan);
    if !db.batches[batch].confirmed {
      OfferDecides(db, batch, invoiceIds, moneyIds, rows);
    }
  }
}

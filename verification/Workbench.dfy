// Direct reconciliation of one invoice: the browser's arithmetic (static/js/reconciliation-workbench.js), the
// rows the server renders (apps/reconciliation/presenters.py:148-165), and the request the form submits
// (apps/reconciliation/forms.py:37-105, views.py:190-235).  Amounts are cents.

module Workbench {
  import opened Common
  import opened LedgerModel

  // The largest integer a JavaScript number holds safely, 2^53 - 1.
  const MAX_SAFE: int := 0x1F_FFFF_FFFF_FFFF

  predicate Safe(value: int) {
    -MAX_SAFE <= value <= MAX_SAFE
  }

  datatype Row = Row(id: Option<Id>, available: int, checked: bool, stale: bool)

  datatype Selected = Selected(id: Option<Id>, available: int)

  datatype Totals = Totals(selected: int, allotted: int, difference: int)

  datatype RangeError = UnsafeInvoice | RepeatedOrUnnamed | UnsafeAvailable | UnsafeTotal

  function Min(a: int, b: int): int { if a <= b then a else b }

  function Total(amounts: seq<int>): int {
    if amounts == [] then 0 else Total(amounts[..|amounts| - 1]) + amounts[|amounts| - 1]
  }

  function AvailableOf(items: seq<Selected>): seq<int> {
    seq(|items|, k requires 0 <= k < |items| => items[k].available)
  }

  // The inputs the arithmetic accepts.
  predicate Sound(invoice: int, items: seq<Selected>) {
    && 0 <= invoice <= MAX_SAFE
    && (forall k :: 0 <= k < |items| ==> items[k].id.Some? && 0 <= items[k].available <= MAX_SAFE)
    && (forall j, k :: 0 <= j < k < |items| ==> items[j].id != items[k].id)
    && Total(AvailableOf(items)) <= MAX_SAFE
  }

  // What each refusal says: of the invoice, or of the first item at fault.
  predicate Complains(invoice: int, items: seq<Selected>, e: RangeError) {
    match e
    case UnsafeInvoice => invoice < 0 || invoice > MAX_SAFE
    case RepeatedOrUnnamed =>
      0 <= invoice <= MAX_SAFE
      && exists k :: 0 <= k < |items| && (items[k].id == None || exists j :: 0 <= j < k && items[j].id == items[k].id)
    case UnsafeAvailable =>
      0 <= invoice <= MAX_SAFE && exists k :: 0 <= k < |items| && (items[k].available < 0 || items[k].available > MAX_SAFE)
    case UnsafeTotal =>
      0 <= invoice <= MAX_SAFE
      && exists k :: 0 < k <= |items| && Total(AvailableOf(items)[..k]) > MAX_SAFE
                     && forall j :: 0 <= j < k ==> 0 <= items[j].available <= MAX_SAFE
  }

  lemma {:induction false} PrefixTotals(amounts: seq<int>, k: nat)
    requires k <= |amounts| && forall j :: k <= j < |amounts| ==> amounts[j] >= 0
    ensures Total(amounts[..k]) <= Total(amounts)
    decreases |amounts| - k
  {
    if k == |amounts| {
      assert amounts[..k] == amounts;
    } else {
      assert amounts[..k + 1][..k] == amounts[..k];
      PrefixTotals(amounts, k + 1);
    }
  }

  // calculateAllocation.
  method CalculateAllocation(invoice: int, items: seq<Selected>) returns (result: Result<Totals, RangeError>)
    ensures result.Ok? <==> Sound(invoice, items)
    ensures result.Ok? ==>
              var selected := Total(AvailableOf(items));
              result.value == Totals(selected, Min(invoice, selected), invoice - Min(invoice, selected))
    ensures result.Err? ==> Complains(invoice, items, result.error)
  {
    if !Safe(invoice) || invoice < 0 {
      return Err(UnsafeInvoice);
    }
    var identifiers: set<Option<Id>> := {};
    var selected := 0;
    for k := 0 to |items|
      invariant selected == Total(AvailableOf(items)[..k]) && 0 <= selected <= MAX_SAFE
      invariant forall j :: 0 <= j < k ==> items[j].id.Some? && 0 <= items[j].available <= MAX_SAFE
      invariant forall i, j :: 0 <= i < j < k ==> items[i].id != items[j].id
      invariant forall id :: id in identifiers <==> exists j :: 0 <= j < k && items[j].id == id
    {
      var item := items[k];
      if item.id.None? || item.id in identifiers {
        return Err(RepeatedOrUnnamed);
      }
      identifiers := identifiers + {item.id};
      if !Safe(item.available) || item.available < 0 {
        return Err(UnsafeAvailable);
      }
      assert AvailableOf(items)[..k + 1][..k] == AvailableOf(items)[..k];
      selected := selected + item.available;
      if !Safe(selected) {
        if Sound(invoice, items) {
          PrefixTotals(AvailableOf(items), k + 1);
        }
        return Err(UnsafeTotal);
      }
    }
    assert AvailableOf(items)[..|items|] == AvailableOf(items);
    var allotted := Min(invoice, selected);
    result := Ok(Totals(selected, allotted, invoice - allotted));
  }

  predicate IsPartial(t: Totals) {
    t.allotted > 0 && t.difference > 0
  }

  // confirmationState.
  predicate MayConfirm(t: Totals, partialConfirmed: bool, stale: bool) {
    t.allotted > 0 && !stale && (!IsPartial(t) || partialConfirmed)
  }

  // Greedy allocation in row order.

  function Greedy(opens: seq<int>, amount: int): (amounts: seq<int>)
    ensures |amounts| == |opens|
  {
    if opens == [] then []
    else
      var front := Greedy(opens[..|opens| - 1], amount);
      front + [Min(amount - Total(front), opens[|opens| - 1])]
  }

  lemma TotalOneMore(amounts: seq<int>, amount: int)
    ensures Total(amounts + [amount]) == Total(amounts) + amount
  {
    assert (amounts + [amount])[..|amounts|] == amounts;
  }

  lemma GreedyOneMore(opens: seq<int>, open: int, amount: int)
    ensures var front := Greedy(opens, amount);
            && Greedy(opens + [open], amount) == front + [Min(amount - Total(front), open)]
            && Total(Greedy(opens + [open], amount)) == Total(front) + Min(amount - Total(front), open)
  {
    assert (opens + [open])[..|opens|] == opens;
    TotalOneMore(Greedy(opens, amount), Min(amount - Total(Greedy(opens, amount)), open));
  }

  // direct_allocation_rows.
  method DirectAllocationRows(opens: seq<int>, invoiceOpen: int) returns (rows: seq<int>)
    ensures rows == Greedy(opens, invoiceOpen)
  {
    var remaining := invoiceOpen;
    rows := [];
    for k := 0 to |opens|
      invariant rows == Greedy(opens[..k], invoiceOpen)
      invariant remaining == invoiceOpen - Total(rows)
    {
      assert opens[..k + 1] == opens[..k] + [opens[k]];
      var amount := Min(remaining, opens[k]);
      rows := rows + [amount];
      remaining := remaining - amount;
      GreedyOneMore(opens[..k], opens[k], invoiceOpen);
    }
    assert opens[..|opens|] == opens;
  }

  // The amounts of the rows on screen, checked or not.
  function OnScreen(rows: seq<Row>, amount: int): (amounts: seq<int>)
    ensures |amounts| == |rows|
  {
    if rows == [] then []
    else
      var front := OnScreen(rows[..|rows| - 1], amount);
      var row := rows[|rows| - 1];
      front + [if row.checked then Min(amount - Total(front), row.available) else 0]
  }

  function CheckedItems(rows: seq<Row>): seq<Selected> {
    if rows == [] then []
    else
      var row := rows[|rows| - 1];
      CheckedItems(rows[..|rows| - 1]) + (if row.checked then [Selected(row.id, row.available)] else [])
  }

  predicate AnyStale(rows: seq<Row>) {
    exists k :: 0 <= k < |rows| && rows[k].checked && rows[k].stale
  }

  datatype Screen = Screen(amounts: seq<int>, totals: Totals, partialShown: bool, partialChecked: bool, enabled: bool)

  // The first loop of the update handler: what is checked, and whether any of it is stale.
  method ReadChecked(rows: seq<Row>) returns (items: seq<Selected>, stale: bool)
    ensures items == CheckedItems(rows) && (stale <==> AnyStale(rows))
  {
    items, stale := [], false;
    for k := 0 to |rows|
      invariant items == CheckedItems(rows[..k]) && (stale <==> AnyStale(rows[..k]))
    {
      assert rows[..k + 1][..k] == rows[..k];
      if rows[k].checked {
        items := items + [Selected(rows[k].id, rows[k].available)];
        stale := stale || rows[k].stale;
      }
      assert rows[..k + 1] == rows[..k] + [rows[k]];
    }
    assert rows[..|rows|] == rows;
  }

  // The second loop: the amount of every row.
  method FillAmounts(rows: seq<Row>, amount: int) returns (amounts: seq<int>)
    ensures amounts == OnScreen(rows, amount)
  {
    var remaining := amount;
    amounts := [];
    for k := 0 to |rows|
      invariant amounts == OnScreen(rows[..k], amount)
      invariant remaining == amount - Total(amounts)
    {
      assert rows[..k + 1][..k] == rows[..k];
      var share := if rows[k].checked then Min(remaining, rows[k].available) else 0;
      TotalOneMore(amounts, share);
      amounts := amounts + [share];
      remaining := remaining - share;
    }
    assert rows[..|rows|] == rows;
  }

  // The update handler: nothing on screen changes but the button when the numbers are unsound.
  method Update(invoice: int, rows: seq<Row>, partialChecked: bool) returns (screen: Option<Screen>)
    ensures screen.Some? <==> Sound(invoice, CheckedItems(rows))
    ensures screen.Some? ==>
              var selected := Total(AvailableOf(CheckedItems(rows)));
              var totals := Totals(selected, Min(invoice, selected), invoice - Min(invoice, selected));
              && screen.value.amounts == OnScreen(rows, totals.allotted)
              && screen.value.totals == totals
              && screen.value.partialShown == (0 < totals.allotted < invoice)
              && screen.value.partialChecked == (partialChecked && 0 < totals.allotted < invoice)
              // Something is allotted, nothing checked is stale, and what falls short of the invoice is confirmed.
              && (screen.value.enabled <==>
                    && totals.allotted > 0 && (totals.allotted == invoice || partialChecked)
                    && forall k :: 0 <= k < |rows| && rows[k].checked ==> !rows[k].stale)
  {
    var items, stale := ReadChecked(rows);
    var result := CalculateAllocation(invoice, items);
    if result.Err? {
      return None;
    }
    var totals := result.value;
    var amounts := FillAmounts(rows, totals.allotted);
    var partial := IsPartial(totals);
    screen := Some(Screen(amounts, totals, partial, partialChecked && partial, MayConfirm(totals, partialChecked, stale)));
  }

  // What greedy allocation means: it gives out the smaller of what is asked and what is there, no row more
  // than it has, and no row anything before the rows above it are used up.

  predicate GivesItsAll(opens: seq<int>, amount: int, amounts: seq<int>) {
    && |amounts| == |opens|
    && Total(amounts) == Min(amount, Total(opens)) && Total(opens) >= 0
    && forall k :: 0 <= k < |opens| ==> 0 <= amounts[k] <= opens[k]
  }

  lemma GivesOneMore(opens: seq<int>, open: int, amount: int, amounts: seq<int>)
    requires amount >= 0 && open >= 0 && GivesItsAll(opens, amount, amounts)
    ensures GivesItsAll(opens + [open], amount, amounts + [Min(amount - Total(amounts), open)])
  {
    hide Total;
    TotalOneMore(opens, open);
    TotalOneMore(amounts, Min(amount - Total(amounts), open));
  }

  lemma {:induction false} GreedyGivesItsAll(opens: seq<int>, amount: int)
    requires amount >= 0 && forall k :: 0 <= k < |opens| ==> opens[k] >= 0
    ensures GivesItsAll(opens, amount, Greedy(opens, amount))
  {
    if opens == [] {
      assert GivesItsAll([], amount, []);
    } else {
      hide GivesItsAll, Total;
      var n := |opens| - 1;
      GreedyGivesItsAll(opens[..n], amount);
      GivesOneMore(opens[..n], opens[n], amount, Greedy(opens[..n], amount));
      assert opens == opens[..n] + [opens[n]];
    }
  }

  lemma {:induction false} GreedyGoesInOrder(opens: seq<int>, amount: int, j: nat, k: nat)
    requires amount >= 0 && forall i :: 0 <= i < |opens| ==> opens[i] >= 0
    requires j < k < |opens| && Greedy(opens, amount)[k] > 0
    ensures Greedy(opens, amount)[j] == opens[j]
  {
    hide Greedy, Total;
    var n := |opens| - 1;
    assert opens == opens[..n] + [opens[n]];
    GreedyOneMore(opens[..n], opens[n], amount);
    if k < n {
      GreedyGoesInOrder(opens[..n], amount, j, k);
    } else {
      GreedyGivesItsAll(opens[..n], amount);
      FullFront(opens[..n], Greedy(opens[..n], amount));
    }
  }

  // Amounts that do not exceed the opens and add up to them are the opens.
  lemma {:induction false} FullFront(opens: seq<int>, amounts: seq<int>)
    requires |opens| == |amounts| && Total(amounts) >= Total(opens)
    requires forall k :: 0 <= k < |opens| ==> amounts[k] <= opens[k]
    ensures amounts == opens
  {
    if opens != [] {
      var n := |opens| - 1;
      Dominated(opens[..n], amounts[..n]);
      FullFront(opens[..n], amounts[..n]);
      assert opens == opens[..n] + [opens[n]] && amounts == amounts[..n] + [amounts[n]];
    }
  }

  lemma {:induction false} Dominated(opens: seq<int>, amounts: seq<int>)
    requires |opens| == |amounts| && forall k :: 0 <= k < |opens| ==> amounts[k] <= opens[k]
    ensures Total(amounts) <= Total(opens)
  {
    if opens != [] {
      Dominated(opens[..|opens| - 1], amounts[..|opens| - 1]);
    }
  }

  // Asking for no more than there is changes no row.
  lemma {:induction false} CappedGreedy(opens: seq<int>, amount: int, cap: int)
    requires amount >= 0 && cap >= Total(opens) && forall k :: 0 <= k < |opens| ==> opens[k] >= 0
    ensures Greedy(opens, Min(amount, cap)) == Greedy(opens, amount)
  {
    if opens != [] {
      var n := |opens| - 1;
      CappedGreedy(opens[..n], amount, cap);
      GreedyGivesItsAll(opens[..n], amount);
    }
  }

  function Kept(rows: seq<Row>, amounts: seq<int>): seq<int>
    requires |rows| == |amounts|
  {
    if rows == [] then []
    else
      var n := |rows| - 1;
      Kept(rows[..n], amounts[..n]) + (if rows[n].checked then [amounts[n]] else [])
  }

  lemma {:induction false} CheckedRowsAreGreedy(rows: seq<Row>, amount: int)
    ensures var amounts := OnScreen(rows, amount);
            && Kept(rows, amounts) == Greedy(AvailableOf(CheckedItems(rows)), amount)
            && Total(amounts) == Total(Greedy(AvailableOf(CheckedItems(rows)), amount))
  {
    if rows != [] {
      var n := |rows| - 1;
      var opens, front := AvailableOf(CheckedItems(rows)), AvailableOf(CheckedItems(rows[..n]));
      var amounts := OnScreen(rows, amount);
      CheckedRowsAreGreedy(rows[..n], amount);
      assert amounts == OnScreen(rows[..n], amount) + [amounts[n]];
      TotalOneMore(OnScreen(rows[..n], amount), amounts[n]);
      assert amounts[..n] == OnScreen(rows[..n], amount);
      if rows[n].checked {
        assert opens == front + [rows[n].available];
        GreedyOneMore(front, rows[n].available, amount);
      } else {
        assert opens == front;
      }
    }
  }

  // Browser and server agree: on the checked rows the browser's loop gives what direct_allocation_rows gives
  // for the invoice's whole open amount, and together that is the allotted total.
  lemma ClientAgreesWithServer(invoice: int, rows: seq<Row>)
    requires Sound(invoice, CheckedItems(rows))
    ensures var opens := AvailableOf(CheckedItems(rows));
            var allotted := Min(invoice, Total(opens));
            && Kept(rows, OnScreen(rows, allotted)) == Greedy(opens, invoice)
            && Total(OnScreen(rows, allotted)) == allotted
  {
    var opens := AvailableOf(CheckedItems(rows));
    CheckedRowsAreGreedy(rows, Min(invoice, Total(opens)));
    CappedGreedy(opens, invoice, Total(opens));
    GreedyGivesItsAll(opens, invoice);
  }
}

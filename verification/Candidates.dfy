// Candidate searches (apps/reconciliation/candidates.py): contiguous stretches of open amounts that add up
// to exactly the amount sought.

module Candidates {
  import opened LedgerModel

  // Positions start (included) to end (excluded) of a list.
  datatype Window = Window(start: nat, end: nat)

  function SumOf(amounts: seq<int>, start: nat, end: nat): int
    requires start <= end <= |amounts|
    decreases end
  {
    if start == end then 0 else SumOf(amounts, start, end - 1) + amounts[end - 1]
  }

  predicate Exact(amounts: seq<int>, target: int, w: Window) {
    w.start < w.end <= |amounts| && SumOf(amounts, w.start, w.end) == target
  }

  // The running sum never passes the target on the way.
  predicate NeverPasses(amounts: seq<int>, target: int, w: Window)
    requires w.start < w.end <= |amounts|
  {
    forall k :: w.start < k < w.end ==> SumOf(amounts, w.start, k) <= target
  }

  predicate Found(amounts: seq<int>, target: int, w: Window) {
    Exact(amounts, target, w) && NeverPasses(amounts, target, w)
  }

  predicate Before(v: Window, w: Window) {
    v.start < w.start || (v.start == w.start && v.end < w.end)
  }

  predicate InOrder(windows: seq<Window>) {
    forall p, q :: 0 <= p < q < |windows| ==> Before(windows[p], windows[q])
  }

  // Exactly the found windows that start before s, or at s and end by e.
  ghost predicate FoundUpTo(windows: seq<Window>, amounts: seq<int>, target: int, s: nat, e: nat) {
    && InOrder(windows)
    && forall w :: w in windows <==> Found(amounts, target, w) && (w.start < s || (w.start == s && w.end <= e))
  }

  // _contiguous_windows.
  method ContiguousWindows(amounts: seq<int>, target: int) returns (windows: seq<Window>)
    ensures InOrder(windows)
    ensures forall w :: w in windows <==> Found(amounts, target, w)
  {
    windows := [];
    for s := 0 to |amounts|
      invariant FoundUpTo(windows, amounts, target, s, s)
    {
      var total, e := 0, s;
      while e < |amounts|
        invariant s <= e <= |amounts| && total == SumOf(amounts, s, e)
        invariant e > s ==> NeverPasses(amounts, target, Window(s, e)) && total <= target
        invariant FoundUpTo(windows, amounts, target, s, e)
      {
        total := total + amounts[e];
        e := e + 1;
        if total == target {
          windows := windows + [Window(s, e)];
        }
        if total > target {
          break;
        }
      }
      assert FoundUpTo(windows, amounts, target, s + 1, s + 1);
    }
  }

  // On amounts without negatives nothing is missed: what is found is every window with the right sum.

  lemma {:induction false} SumSplits(amounts: seq<int>, a: nat, b: nat, c: nat)
    requires a <= b <= c <= |amounts|
    ensures SumOf(amounts, a, c) == SumOf(amounts, a, b) + SumOf(amounts, b, c)
    decreases c
  {
    if b < c {
      SumSplits(amounts, a, b, c - 1);
    }
  }

  lemma {:induction false} SumNonNegative(amounts: seq<int>, a: nat, b: nat)
    requires a <= b <= |amounts| && forall i :: a <= i < b ==> amounts[i] >= 0
    ensures SumOf(amounts, a, b) >= 0
    ensures a < b && (forall i :: a <= i < b ==> amounts[i] > 0) ==> SumOf(amounts, a, b) > 0
    decreases b
  {
    if a < b {
      SumNonNegative(amounts, a, b - 1);
    }
  }

  // The early break loses nothing, for any target, exactly when every amount but the first is not negative.
  lemma SearchIsComplete(amounts: seq<int>)
    ensures (forall target, w :: Exact(amounts, target, w) ==> Found(amounts, target, w))
            <==> (forall i :: 0 < i < |amounts| ==> amounts[i] >= 0)
  {
    if forall i :: 0 < i < |amounts| ==> amounts[i] >= 0 {
      forall target, w | Exact(amounts, target, w) ensures Found(amounts, target, w) {
        forall k | w.start < k < w.end ensures SumOf(amounts, w.start, k) <= target {
          SumSplits(amounts, w.start, k, w.end);
          SumNonNegative(amounts, k, w.end);
        }
      }
    }
    if i :| 0 < i < |amounts| && amounts[i] < 0 {
      var w := Window(i - 1, i + 1);
      var target := SumOf(amounts, i - 1, i + 1);
      assert SumOf(amounts, i - 1, i) > target;
      assert Exact(amounts, target, w) && !Found(amounts, target, w);
    }
  }

  // A negative amount hides a window: 3, -1 adds up to 2, but the search gives up at 3.
  lemma NegativeAmountHidesAWindow()
    ensures Exact([3, -1], 2, Window(0, 2)) && !Found([3, -1], 2, Window(0, 2))
  {
    assert SumOf([3, -1], 0, 1) == 3;
    assert SumOf([3, -1], 0, 2) == 2;
  }

  // Positive amounts: no two windows start at the same place, nor end at the same place.
  lemma WindowsDoNotShareEnds(amounts: seq<int>, target: int, v: Window, w: Window)
    requires forall i :: 0 <= i < |amounts| ==> amounts[i] > 0
    requires Exact(amounts, target, v) && Exact(amounts, target, w) && v != w
    ensures v.start != w.start && v.end != w.end
  {
    if v.start == w.start {
      var a, b := if v.end < w.end then v.end else w.end, if v.end < w.end then w.end else v.end;
      SumSplits(amounts, v.start, a, b);
      SumNonNegative(amounts, a, b);
    } else if v.end == w.end {
      var a, b := if v.start < w.start then v.start else w.start, if v.start < w.start then w.start else v.start;
      SumSplits(amounts, a, b, v.end);
      SumNonNegative(amounts, a, b);
    }
  }

  // transaction_candidates and invoice_candidates.

  datatype Kind = ContiguousExact | Partial | MultiInvoiceExact

  datatype Candidate = Candidate(kind: Kind, ids: seq<Id>, total: int, difference: int)

  datatype Available = Available(id: Id, open: int)

  function Ids(items: seq<Available>, w: Window): seq<Id>
    requires w.start <= w.end <= |items|
    decreases w.end
  {
    if w.start == w.end then [] else Ids(items, Window(w.start, w.end - 1)) + [items[w.end - 1].id]
  }

  function Opens(items: seq<Available>): seq<int> {
    seq(|items|, k requires 0 <= k < |items| => items[k].open)
  }

  predicate AllOpen(items: seq<Available>) {
    forall i :: 0 <= i < |items| ==> items[i].open > 0
  }

  // The ids of a window are those of its items, in order.
  ghost predicate NamesWindow(ids: seq<Id>, items: seq<Available>, w: Window) {
    && w.start <= w.end <= |items| && |ids| == w.end - w.start
    && forall k :: 0 <= k < |ids| ==> ids[k] == items[w.start + k].id
  }

  lemma {:induction false} IdsNameTheWindow(items: seq<Available>, w: Window)
    requires w.start <= w.end <= |items|
    ensures NamesWindow(Ids(items, w), items, w)
    decreases w.end
  {
    if w.start < w.end {
      IdsNameTheWindow(items, Window(w.start, w.end - 1));
    }
  }

  // All windows with the right sum, each start and each end later than the one before.
  ghost predicate AllExact(windows: seq<Window>, amounts: seq<int>, target: int) {
    && (forall w :: w in windows <==> Exact(amounts, target, w))
    && forall p, q :: 0 <= p < q < |windows| ==>
         windows[p].start < windows[q].start && windows[p].end < windows[q].end
  }

  lemma FoundIsAllExact(windows: seq<Window>, amounts: seq<int>, target: int)
    requires forall i :: 0 <= i < |amounts| ==> amounts[i] > 0
    requires InOrder(windows) && forall w :: w in windows <==> Found(amounts, target, w)
    ensures AllExact(windows, amounts, target)
  {
    SearchIsComplete(amounts);
    forall p, q | 0 <= p < q < |windows|
      ensures windows[p].start < windows[q].start && windows[p].end < windows[q].end
    {
      assert windows[p] in windows && windows[q] in windows;
      assert Before(windows[p], windows[q]);
      WindowsDoNotShareEnds(amounts, target, windows[p], windows[q]);
      LaterStartLaterEnd(amounts, target, windows[p], windows[q]);
    }
  }

  ghost predicate Proposes(
    candidates: seq<Candidate>, windows: seq<Window>, kind: Kind, items: seq<Available>, target: int)
  {
    && |candidates| == |windows|
    && forall k :: 0 <= k < |windows| ==>
         && candidates[k].kind == kind && candidates[k].total == target && candidates[k].difference == 0
         && NamesWindow(candidates[k].ids, items, windows[k])
  }

  // The search runs over what the query kept: items with something open, in order of date and id.
  method ExactCandidates(kind: Kind, items: seq<Available>, target: int)
    returns (candidates: seq<Candidate>)
    requires AllOpen(items)
    ensures exists windows ::
              AllExact(windows, Opens(items), target) && Proposes(candidates, windows, kind, items, target)
  {
    var found := ContiguousWindows(Opens(items), target);
    FoundIsAllExact(found, Opens(items), target);
    candidates := [];
    for k := 0 to |found|
      invariant Proposes(candidates, found[..k], kind, items, target)
    {
      assert found[k] in found;
      IdsNameTheWindow(items, found[k]);
      candidates := candidates + [Candidate(kind, Ids(items, found[k]), target, 0)];
    }
    assert found[..|found|] == found;
  }

  lemma LaterStartLaterEnd(amounts: seq<int>, target: int, v: Window, w: Window)
    requires forall i :: 0 <= i < |amounts| ==> amounts[i] > 0
    requires Exact(amounts, target, v) && Exact(amounts, target, w) && v.start < w.start
    ensures v.end < w.end
  {
    if w.end <= v.end {
      SumSplits(amounts, v.start, w.start, v.end);
      SumSplits(amounts, w.start, w.end, v.end);
      SumNonNegative(amounts, v.start, w.start);
      SumNonNegative(amounts, w.end, v.end);
    }
  }

  // transaction_candidates: every exact stretch, or else one partial proposal over everything available.
  method TransactionCandidates(target: int, items: seq<Available>) returns (candidates: seq<Candidate>)
    requires AllOpen(items)
    ensures target <= 0 ==> candidates == []
    ensures target > 0 && (exists w :: Exact(Opens(items), target, w)) ==>
              exists windows ::
                && AllExact(windows, Opens(items), target)
                && Proposes(candidates, windows, ContiguousExact, items, target)
    ensures target > 0 && !(exists w :: Exact(Opens(items), target, w)) ==>
              if items == [] then candidates == []
              else
                && |candidates| == 1 && candidates[0].kind == Partial
                && NamesWindow(candidates[0].ids, items, Window(0, |items|))
                && candidates[0].total + candidates[0].difference == target
                && 0 < candidates[0].total <= SumOf(Opens(items), 0, |items|)
                && (candidates[0].difference > 0 <==> SumOf(Opens(items), 0, |items|) < target)
                && candidates[0].difference >= 0
  {
    if target <= 0 {
      return [];
    }
    candidates := ExactCandidates(ContiguousExact, items, target);
    ghost var windows :|
      AllExact(windows, Opens(items), target) && Proposes(candidates, windows, ContiguousExact, items, target);
    if candidates != [] {
      assert windows[0] in windows;
      return;
    }
    assert windows == [];
    if items == [] {
      return;
    }
    var available := 0;
    for k := 0 to |items|
      invariant available == SumOf(Opens(items), 0, k)
    {
      available := available + items[k].open;
    }
    SumNonNegative(Opens(items), 0, |items|);
    IdsNameTheWindow(items, Window(0, |items|));
    candidates := [Candidate(Partial, Ids(items, Window(0, |items|)),
                     if target <= available then target else available,
                     if target <= available then 0 else target - available)];
  }
}

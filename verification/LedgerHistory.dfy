// The ledger over time: any sequence of changes whose moments never go back, and the states in between.

module LedgerHistory {
  import opened Common
  import opened LedgerModel
  import opened Settlements
  import opened LedgerEvents

  const EMPTY := Db(map[], map[], [], [], [])

  // A history from the empty ledger; its moments never go back.
  ghost predicate IsHistory(states: seq<Db>, events: seq<Timed>) {
    && |states| == |events| + 1 && states[0] == EMPTY
    && (forall j, k :: 0 <= j <= k < |events| ==> events[j].at <= events[k].at)
    && forall k :: 0 <= k < |events| ==> Allowed(states[k], events[k].event) && states[k + 1] == Next(states[k], events[k])
  }

  lemma EmptyIsConsistent()
    ensures Consistent(EMPTY)
  {
    forall k ensures Allocated(EMPTY.recons, k, Now) == 0 {
    }
  }

  lemma {:induction false} HistoryIsConsistent(states: seq<Db>, events: seq<Timed>, k: nat)
    requires IsHistory(states, events) && k < |states|
    ensures Consistent(states[k])
  {
    hide Consistent, Allowed, Next;
    if k == 0 {
      EmptyIsConsistent();
    } else {
      HistoryIsConsistent(states, events, k - 1);
      NextKeepsConsistent(states[k - 1], events[k - 1]);
    }
  }

  // Where a cutoff falls: the events before it come first.
  ghost predicate CutsAt(events: seq<Timed>, cutoff: int, n: nat) {
    && n <= |events|
    && (forall k :: 0 <= k < n ==> events[k].at < cutoff)
    && (forall k :: n <= k < |events| ==> events[k].at >= cutoff)
  }

  lemma {:induction false} CutExists(states: seq<Db>, events: seq<Timed>, cutoff: int, upTo: nat) returns (n: nat)
    requires IsHistory(states, events) && upTo <= |events|
    ensures CutsAt(events[..upTo], cutoff, n)
  {
    hide Allowed, Next;
    if upTo == 0 {
      n := 0;
    } else {
      n := CutExists(states, events, cutoff, upTo - 1);
      if n < upTo - 1 {
        assert events[..upTo - 1][n].at >= cutoff;
        assert events[n].at <= events[upTo - 1].at;
      }
      if n == upTo - 1 && events[upTo - 1].at < cutoff {
        n := upTo;
      }
      assert forall k :: 0 <= k < upTo - 1 ==> events[..upTo - 1][k] == events[..upTo][k];
    }
  }

  // Time travel of the allocated sums.

  // Everything that happened to these reconciliations happened before the cutoff.
  ghost predicate AllBefore(recons: seq<Reconciliation>, cutoff: int) {
    forall r :: r in recons ==> r.createdAt < cutoff && (r.reversedAt.Some? ==> r.reversedAt.value < cutoff)
  }

  lemma {:induction false} BeforeTheCutoffBothViewsAgree(recons: seq<Reconciliation>, cutoff: int, k: Key)
    requires AllBefore(recons, cutoff)
    ensures Allocated(recons, k, AsOf(cutoff)) == Allocated(recons, k, Now)
  {
    if recons != [] {
      assert recons[|recons| - 1] in recons;
      BeforeTheCutoffBothViewsAgree(recons[..|recons| - 1], cutoff, k);
    }
  }

  lemma NextStaysBefore(db: Db, t: Timed, cutoff: int)
    requires Allowed(db, t.event) && AllBefore(db.recons, cutoff) && t.at < cutoff
    ensures AllBefore(Next(db, t).recons, cutoff)
  {
    hide CanCreate, CanConfirm;
  }

  lemma {:induction false} StatesBeforeTheCutoff(states: seq<Db>, events: seq<Timed>, cutoff: int, k: nat)
    requires IsHistory(states, events) && k < |states| && forall j :: 0 <= j < k ==> events[j].at < cutoff
    ensures AllBefore(states[k].recons, cutoff)
  {
    hide Allowed, Next;
    if k > 0 {
      StatesBeforeTheCutoff(states, events, cutoff, k - 1);
      NextStaysBefore(states[k - 1], events[k - 1], cutoff);
    }
  }

  // What happens from the cutoff on does not touch the sums as of the cutoff.
  lemma NextLeavesThePastAlone(db: Db, t: Timed, cutoff: int, k: Key)
    requires Allowed(db, t.event) && t.at >= cutoff
    ensures Allocated(Next(db, t).recons, k, AsOf(cutoff)) == Allocated(db.recons, k, AsOf(cutoff))
  {
    hide CanCreate, CanConfirm;
    match t.event
    case Creates(q) => AllocatedAppend(db.recons, NewReconciliation(q, t.at), k, AsOf(cutoff));
    case Confirms(id, allocations, _) =>
      AllocatedAppend(db.recons, NewReconciliation(BatchRequest(db.batches[id], id, allocations), t.at), k, AsOf(cutoff));
    case Reverses(i) =>
      AllocatedUpdate(db.recons, i, db.recons[i].(reversedAt := Some(t.at)), k, AsOf(cutoff));
    case _ =>
  }

  lemma {:induction false} ThePastIsFixed(states: seq<Db>, events: seq<Timed>, cutoff: int, n: nat, last: nat, k: Key)
    requires IsHistory(states, events) && n <= last < |states|
    requires forall j :: n <= j < last ==> events[j].at >= cutoff
    ensures Allocated(states[last].recons, k, AsOf(cutoff)) == Allocated(states[n].recons, k, AsOf(cutoff))
    decreases last
  {
    hide Allowed, Next, Allocated;
    if n < last {
      ThePastIsFixed(states, events, cutoff, n, last - 1, k);
      NextLeavesThePastAlone(states[last - 1], events[last - 1], cutoff, k);
    }
  }

  lemma {:induction false} RecordsStay(states: seq<Db>, events: seq<Timed>, n: nat, last: nat, k: Key)
    requires IsHistory(states, events) && n <= last < |states| && Exists(states[n], k)
    ensures Exists(states[last], k) && Amount(states[last], k) == Amount(states[n], k)
    decreases last
  {
    hide Allowed, Next;
    if n < last {
      RecordsStay(states, events, n, last - 1, k);
      NextKeepsRecords(states[last - 1], events[last - 1], k);
    }
  }

  // The open amount as of a cutoff, computed on a later database.
  function OpenAsOf(db: Db, k: Key, cutoff: int): int
    requires Exists(db, k)
  {
    Amount(db, k) - Allocated(db.recons, k, AsOf(cutoff))
  }

  // The historical query on the last state gives what the current query gave at the cutoff, and so never
  // leaves the range from nothing to the whole amount; what did not exist yet is wholly open.
  lemma HistoricalOpenIsTimeTravel(states: seq<Db>, events: seq<Timed>, cutoff: int, n: nat, last: nat, k: Key)
    requires IsHistory(states, events) && n <= last < |states| && CutsAt(events, cutoff, n)
    requires Exists(states[last], k)
    ensures Exists(states[n], k) ==> OpenAsOf(states[last], k, cutoff) == Open(states[n], k)
    ensures !Exists(states[n], k) ==> OpenAsOf(states[last], k, cutoff) == Amount(states[last], k)
    ensures 0 <= OpenAsOf(states[last], k, cutoff) <= Amount(states[last], k)
  {
    HistoryIsConsistent(states, events, n);
    HistoryIsConsistent(states, events, last);
    StatesBeforeTheCutoff(states, events, cutoff, n);
    BeforeTheCutoffBothViewsAgree(states[n].recons, cutoff, k);
    ThePastIsFixed(states, events, cutoff, n, last, k);
    if Exists(states[n], k) {
      RecordsStay(states, events, n, last, k);
      WithinCapacity(states[n], k);
    } else {
      UnknownKeysAreUntouched(states[n], k);
      WithinCapacity(states[last], k);
    }
  }

  // Invoice status as of a cutoff, from the final status and the audit trail alone.

  predicate ChangedSince(db: Db, i: Id, cutoff: int) {
    exists a :: a in db.audits && a.invoice == i && a.at >= cutoff
  }

  // The filter of _supplier_invoice_records.
  predicate ShownAsNormal(db: Db, i: Id, cutoff: int)
    requires i in db.invoices
  {
    db.invoices[i].status.Normal? || ChangedSince(db, i, cutoff)
  }

  lemma NextMovesStatusOneWay(db: Db, t: Timed, i: Id)
    requires Allowed(db, t.event) && i in db.invoices
    ensures i in Next(db, t).invoices
    ensures !db.invoices[i].status.Normal? ==> Next(db, t).invoices[i] == db.invoices[i]
    ensures db.invoices[i].status.Normal? && !Next(db, t).invoices[i].status.Normal? ==>
              exists a :: a in Next(db, t).audits && a.invoice == i && a.at == t.at
  {
    hide CanCreate, CanConfirm;
    if t.event.MovesStatus? && t.event.i == i {
      var audits := Next(db, t).audits;
      assert audits[|audits| - 1].invoice == i && audits[|audits| - 1].at == t.at;
    }
  }

  lemma NextKeepsAudits(db: Db, t: Timed)
    requires Allowed(db, t.event)
    ensures forall a :: a in db.audits ==> a in Next(db, t).audits
    ensures forall a :: a in Next(db, t).audits && a !in db.audits ==>
              a.at == t.at && a.invoice in db.invoices && db.invoices[a.invoice].status.Normal?
              && a.invoice in Next(db, t).invoices && !Next(db, t).invoices[a.invoice].status.Normal?
  {
    hide CanCreate, CanConfirm;
  }

  // Once away from normal, for good; and on the way an audit was written.
  lemma {:induction false} StatusMovesOneWay(states: seq<Db>, events: seq<Timed>, n: nat, last: nat, i: Id, cutoff: int)
    requires IsHistory(states, events) && n <= last < |states| && i in states[n].invoices
    requires forall j :: n <= j < last ==> events[j].at >= cutoff
    ensures i in states[last].invoices
    ensures !states[n].invoices[i].status.Normal? ==> states[last].invoices[i] == states[n].invoices[i]
    ensures states[n].invoices[i].status.Normal? && !states[last].invoices[i].status.Normal? ==>
              ChangedSince(states[last], i, cutoff)
    decreases last
  {
    hide Allowed, Next;
    if n < last {
      StatusMovesOneWay(states, events, n, last - 1, i, cutoff);
      NextMovesStatusOneWay(states[last - 1], events[last - 1], i);
      NextKeepsAudits(states[last - 1], events[last - 1]);
    }
  }

  // Every audit is of an invoice that was normal just before, at the moment it says.
  lemma {:induction false} AuditsAreTrue(states: seq<Db>, events: seq<Timed>, last: nat, a: Audit) returns (k: nat)
    requires IsHistory(states, events) && last < |states| && a in states[last].audits
    ensures k < last && events[k].at == a.at
    ensures a.invoice in states[k].invoices && states[k].invoices[a.invoice].status.Normal?
    ensures a.invoice in states[k + 1].invoices && !states[k + 1].invoices[a.invoice].status.Normal?
  {
    hide Allowed, Next;
    NextKeepsAudits(states[last - 1], events[last - 1]);
    if a in states[last - 1].audits {
      k := AuditsAreTrue(states, events, last - 1, a);
    } else {
      k := last - 1;
    }
  }

  // The filter shows exactly the invoices that were normal at the cutoff or, if they came later, when they came.
  lemma HistoricalStatusIsTimeTravel(
    states: seq<Db>, events: seq<Timed>, cutoff: int, n: nat, born: nat, last: nat, i: Id)
    requires IsHistory(states, events) && n <= last < |states| && CutsAt(events, cutoff, n)
    requires born <= last && i in states[born].invoices && (born > 0 ==> i !in states[born - 1].invoices)
    ensures i in states[last].invoices
    ensures var from := if n <= born then born else n;
            i in states[from].invoices &&
            (ShownAsNormal(states[last], i, cutoff) <==> states[from].invoices[i].status.Normal?)
  {
    hide Allowed, Next;
    var from := if n <= born then born else n;
    StatusMovesOneWay(states, events, born, from, i, events[0].at);
    StatusMovesOneWay(states, events, from, last, i, cutoff);
    if ChangedSince(states[last], i, cutoff) {
      var a :| a in states[last].audits && a.invoice == i && a.at >= cutoff;
      var k := AuditsAreTrue(states, events, last, a);
      assert k >= n;
      NotThereBefore(states, events, born, k, i);
      StatusMovesOneWay(states, events, from, k, i, events[0].at);
    }
  }

  lemma NotThereBefore(states: seq<Db>, events: seq<Timed>, born: nat, k: nat, i: Id)
    requires IsHistory(states, events) && born < |states| && k < |states|
    requires i in states[k].invoices && (born > 0 ==> i !in states[born - 1].invoices)
    ensures born <= k
  {
    hide Allowed, Next;
    if k < born {
      RecordsStay(states, events, k, born - 1, InvoiceKey(i));
    }
  }

  // A changed invoice is not normal any more.
  lemma ChangedIsNotNormal(states: seq<Db>, events: seq<Timed>, last: nat, cutoff: int, i: Id)
    requires IsHistory(states, events) && last < |states| && i in states[last].invoices
    requires ChangedSince(states[last], i, cutoff)
    ensures !states[last].invoices[i].status.Normal?
  {
    hide Allowed, Next;
    var a :| a in states[last].audits && a.invoice == i && a.at >= cutoff;
    var k := AuditsAreTrue(states, events, last, a);
    StatusMovesOneWay(states, events, k + 1, last, i, events[0].at);
  }

  // receivables_as_of and payables_as_of look at today's status only: it is the status the invoice had at the
  // cutoff, or when it came later, exactly when it has not been changed since the cutoff.
  lemma CurrentStatusIsHistoricalExactlyWhenUnchanged(
    states: seq<Db>, events: seq<Timed>, cutoff: int, n: nat, born: nat, last: nat, i: Id)
    requires IsHistory(states, events) && n <= last < |states| && CutsAt(events, cutoff, n)
    requires born <= last && i in states[born].invoices && (born > 0 ==> i !in states[born - 1].invoices)
    ensures var from := if n <= born then born else n;
            && i in states[last].invoices && i in states[from].invoices
            && ((states[last].invoices[i].status.Normal? <==> states[from].invoices[i].status.Normal?)
                <==> !ChangedSince(states[last], i, cutoff))
  {
    hide Allowed, Next;
    HistoricalStatusIsTimeTravel(states, events, cutoff, n, born, last, i);
    if ChangedSince(states[last], i, cutoff) {
      ChangedIsNotNormal(states, events, last, cutoff, i);
    }
  }

  // Everything of an invoice but its status stays.
  lemma {:induction false} InvoiceStays(states: seq<Db>, events: seq<Timed>, n: nat, last: nat, i: Id)
    requires IsHistory(states, events) && n <= last < |states| && i in states[n].invoices
    ensures i in states[last].invoices
    ensures states[last].invoices[i] == states[n].invoices[i].(status := states[last].invoices[i].status)
    decreases last
  {
    hide Allowed, Next;
    if n < last {
      InvoiceStays(states, events, n, last - 1, i);
      NextKeepsInvoice(states[last - 1], events[last - 1], i);
    }
  }

  lemma NextKeepsInvoice(db: Db, t: Timed, i: Id)
    requires Allowed(db, t.event) && i in db.invoices
    ensures i in Next(db, t).invoices
    ensures Next(db, t).invoices[i] == db.invoices[i].(status := Next(db, t).invoices[i].status)
  {
    hide CanCreate, CanConfirm;
  }

  // The row filter of _open_invoice_rows, on a database and with a given status test and open amount.
  predicate Listed(invoice: Invoice, direction: InvoiceDirection, asOf: int, normal: bool, open: int) {
    invoice.direction == direction && invoice.issueDate <= asOf && normal && open > 0
  }

  // What was open at the cutoff: the whole amount of what came later.
  function OpenThen(states: seq<Db>, n: nat, last: nat, i: Id): int
    requires n <= last < |states| && i in states[last].invoices
  {
    if i in states[n].invoices then Open(states[n], InvoiceKey(i)) else states[last].invoices[i].total
  }

  // The list as of a date, computed on a later database, has an invoice wrong exactly when its status has
  // changed since the cutoff and it would have been listed but for the status; it then misses it, if it was
  // still normal.
  lemma OpenInvoiceListIsRightExactlyWhenUnchanged(
    states: seq<Db>, events: seq<Timed>, cutoff: int, n: nat, born: nat, last: nat, i: Id,
    direction: InvoiceDirection, asOf: int)
    requires IsHistory(states, events) && n <= last < |states| && CutsAt(events, cutoff, n)
    requires born <= last && i in states[born].invoices && (born > 0 ==> i !in states[born - 1].invoices)
    ensures var from := if n <= born then born else n;
            && i in states[last].invoices && i in states[from].invoices
            && var now, past, open := states[last].invoices[i], states[from].invoices[i], OpenAsOf(states[last], InvoiceKey(i), cutoff);
               var belongs := past.direction == direction && past.issueDate <= asOf && past.status == Normal
                              && OpenThen(states, n, last, i) > 0;
               && (Listed(now, direction, asOf, now.status.Normal?, open) == belongs
                   <==> !(ChangedSince(states[last], i, cutoff)
                          && now.direction == direction && now.issueDate <= asOf && open > 0))
               && (Listed(now, direction, asOf, ShownAsNormal(states[last], i, cutoff), open) <==> belongs)
  {
    hide Allowed, Next, Allocated;
    var from := if n <= born then born else n;
    CurrentStatusIsHistoricalExactlyWhenUnchanged(states, events, cutoff, n, born, last, i);
    HistoricalStatusIsTimeTravel(states, events, cutoff, n, born, last, i);
    HistoricalOpenIsTimeTravel(states, events, cutoff, n, last, InvoiceKey(i));
    InvoiceStays(states, events, from, last, i);
  }

  // An invoice issued at 1 and voided at 5 is missing from the receivables as of 3.
  lemma VoidedLaterIsMissingFromReceivables()
    ensures var invoice := Invoice(Output, 7, 100, Normal, 1);
            var events := [Timed(1, AddsInvoice(0, invoice)), Timed(5, MovesStatus(0, Void))];
            var first := EMPTY.(invoices := map[0 := invoice]);
            var states := [EMPTY, first, StatusChanged(first, 0, Void, 5)];
            && IsHistory(states, events) && CutsAt(events, 3, 1)
            && Listed(states[1].invoices[0], Output, 3, true, Open(states[1], InvoiceKey(0)))
            && states[1].invoices[0].status.Normal?
            && ShownAsNormal(states[2], 0, 3) && !states[2].invoices[0].status.Normal?
  {
    var invoice := Invoice(Output, 7, 100, Normal, 1);
    var first := EMPTY.(invoices := map[0 := invoice]);
    var last := StatusChanged(first, 0, Void, 5);
    assert Next(EMPTY, Timed(1, AddsInvoice(0, invoice))) == first;
    assert last.audits[0].invoice == 0 && last.audits[0].at == 5;
  }
}

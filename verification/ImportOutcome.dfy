// What becomes of a row, said in terms of what the file and the ledger hold (apps/imports/services.py:114-160,
// 212-260, 376-404): the four dispositions spelled out, and what a confirmed row leaves in the ledger for good.

module ImportOutcome {
  import opened Common
  import opened LedgerModel
  import opened ImportModel

  // The ledger has this invoice with the same business fields and, as far as it knows them, the same names.
  predicate HasInvoice(f: Formal, r: InvoiceRow) {
    && InvoiceNumber(r.business.number, r.business.sellerTax) in f.invoices
    && var existing := f.invoices[InvoiceNumber(r.business.number, r.business.sellerTax)];
       existing.business == r.business && (existing.names == None || existing.names == Some(r.names))
  }

  function StatusInLedger(f: Formal, r: InvoiceRow): InvoiceStatus
    requires InvoiceNumber(r.business.number, r.business.sellerTax) in f.invoices
  {
    f.invoices[InvoiceNumber(r.business.number, r.business.sellerTax)].status
  }

  // Red or void after normal.
  predicate Moves(f: Formal, r: InvoiceRow) {
    HasInvoice(f, r) && StatusInLedger(f, r) == Normal && r.status != Normal
  }

  // The ledger's word on an invoice row: nothing known is new, the same again is a duplicate, red or void after normal
  // is a status update, and everything else is a conflict.
  lemma LedgerDecides(f: Formal, r: InvoiceRow)
    ensures var d := FormalDisposition(f, InvoiceLine(r));
            && (d == New <==> InvoiceNumber(r.business.number, r.business.sellerTax) !in f.invoices)
            && (d == Duplicate <==> HasInvoice(f, r) && StatusInLedger(f, r) == r.status)
            && (d == StatusUpdate <==> Moves(f, r))
  {
  }

  // Two lines are the same transaction when they carry the same identifier, or none and agree in everything else.
  lemma FingerprintsAgree(a: MoneyRow, b: MoneyRow)
    ensures FingerprintOf(a) == FingerprintOf(b) <==>
              && a.channel == b.channel && a.account == b.account && a.transactionId == b.transactionId
              && (a.transactionId == "" ==>
                    && a.occurredAt == b.occurredAt && a.direction == b.direction && a.amount == b.amount
                    && a.partyName == b.partyName && a.partyAccount == b.partyAccount)
  {
  }

  // The overlay and the ledger say the same of a row unless only the overlay knows the names it contradicts.
  lemma OverlayIsExact(seen: Overlay, start: Formal, now: Formal, n: Normalized)
    requires OverlayAgrees(seen, start, now)
    ensures FormalDisposition(now, n) == StageDisposition(start, seen, n) <==>
              !(&& KeyOf(n) in seen && n.InvoiceLine?
                && now.invoices[KeyOf(n)].names == None && seen[KeyOf(n)].invoice.names != n.invoice.names
                && HasInvoice(now, n.invoice)
                && (StatusInLedger(now, n.invoice) == n.invoice.status || StatusInLedger(now, n.invoice) == Normal))
  {
    var k := KeyOf(n);
    if k in seen {
      assert Foretells(seen[k], now);
    } else {
      assert SameAt(start, now, k);
    }
  }

  // Staging: a row the parser vouches for, of the batch's kind and with names that resolve, is staged as the ledger and
  // the rows before it decide; any other row is invalid.
  lemma StagingDecides(kind: SourceKind, m: Master, f: Formal, seen: Overlay, p: Parsed)
    requires Keyed(seen)
    ensures var row := StageRow(kind, m, f, seen, p);
            && row.number == p.number && !row.posted
            && (row.issue == Some(Invalid) <==>
                  !(p.clean && p.normalized.Some? && KindFits(kind, p.normalized.value) && Resolves(m, p.normalized.value)))
            && (row.issue != Some(Invalid) ==>
                  var n := p.normalized.value;
                  var d := StageDisposition(f, seen, n);
                  && (d.New? || d.StatusUpdate? <==> row == Staged(p.number, Some(n), None, false, false))
                  && (d.Duplicate? <==> row == Staged(p.number, Some(n), None, true, false))
                  && (d.Conflict? <==> row.issue.Some? && row.normalized.None?)
                  && (d.Conflict? ==>
                        && n.InvoiceLine?
                        && var current := if KeyOf(n) in seen then seen[KeyOf(n)].invoice.status
                                          else StatusInLedger(f, n.invoice);
                           row == Staged(p.number, None, Some(
                             if current != Normal && n.invoice.status == Normal then CannotRestore else BusinessConflict),
                             false, false)))
  {
  }

  // A file's rows fit its kind by direction or channel, and resolve when both their names do.
  lemma FitsAndResolves(kind: SourceKind, m: Master, n: Normalized)
    ensures KindFits(kind, n) <==>
              match kind
              case InputInvoice => n.InvoiceLine? && n.invoice.business.direction == Input
              case OutputInvoice => n.InvoiceLine? && n.invoice.business.direction == Output
              case Bank => n.MoneyLine? && n.money.channel == BankChannel
              case Wechat => n.MoneyLine? && n.money.channel == WechatChannel
    ensures Resolves(m, n) <==>
              match n
              case InvoiceLine(r) =>
                || (r.business.direction == Input && (Input, r.business.sellerTax) in m.invoiceParties)
                || (r.business.direction == Output && (Output, r.business.buyerTax) in m.invoiceParties)
              case MoneyLine(r) =>
                (r.channel, r.account) in m.accounts && (r.channel, r.partyName, r.partyAccount) in m.moneyParties
  {
  }

  // The status changes on record for one key, oldest first.
  function AuditsOf(audits: seq<StatusChange>, key: RowKey): seq<StatusChange> {
    if audits == [] then []
    else
      var last := audits[|audits| - 1];
      AuditsOf(audits[..|audits| - 1], key) + (if last.key == key then [last] else [])
  }

  lemma AuditsOneMore(audits: seq<StatusChange>, a: StatusChange, key: RowKey)
    ensures AuditsOf(audits + [a], key) == AuditsOf(audits, key) + (if a.key == key then [a] else [])
  {
    assert (audits + [a])[..|audits|] == audits;
  }

  // Nothing happened to the invoice of this key.
  predicate QuietAt(f: Formal, g: Formal, key: RowKey) {
    key in f.invoices && key in g.invoices && g.invoices[key] == f.invoices[key]
    && AuditsOf(g.audits, key) == AuditsOf(f.audits, key)
  }

  // Whatever else goes on, an invoice off normal is left as it is.

  lemma MoveIsQuietElsewhere(f: Formal, moved: RowKey, to: InvoiceStatus, key: RowKey)
    requires moved in f.invoices && key in f.invoices && key != moved
    ensures QuietAt(f, Moved(f, moved, to), key)
  {
    AuditsOneMore(f.audits, StatusChange(moved, f.invoices[moved].status, to), key);
  }

  lemma {:induction false} OthersLeaveIt(f: Formal, xs: seq<Foreign>, key: RowKey)
    requires key in f.invoices && !f.invoices[key].status.Normal?
    ensures QuietAt(f, MergedAll(f, xs), key)
  {
    if xs != [] {
      var before, x := MergedAll(f, xs[..|xs| - 1]), xs[|xs| - 1];
      OthersLeaveIt(f, xs[..|xs| - 1], key);
      if x.MovesInvoice? && x.key in before.invoices && CanMove(before.invoices[x.key].status, x.to) {
        MoveIsQuietElsewhere(before, x.key, x.to, key);
      }
    }
  }

  lemma SettlingLeavesIt(f: Formal, row: Staged, n: Normalized, key: RowKey)
    requires key in f.invoices && !f.invoices[key].status.Normal? && !FormalDisposition(f, n).New?
    ensures QuietAt(f, Settle(f, row, n, FormalDisposition(f, n)).formal, key)
  {
    if FormalDisposition(f, n).StatusUpdate? {
      MoveIsQuietElsewhere(f, KeyOf(n), n.invoice.status, key);
    }
  }

  lemma ConfirmingLeavesIt(f: Formal, row: Staged, x: Interference, key: RowKey)
    requires key in f.invoices && !f.invoices[key].status.Normal?
    ensures QuietAt(f, ConfirmRow(f, row, x).formal, key)
  {
    OthersLeaveIt(f, x.before, key);
    var met := MergedAll(f, x.before);
    if Pending(row) {
      var n := row.normalized.value;
      if !FormalDisposition(met, n).New? {
        SettlingLeavesIt(met, row, n, key);
      } else if Resolves(x.master, n) {
        OthersLeaveIt(met, x.during, key);
        var now := MergedAll(met, x.during);
        if !FormalDisposition(now, n).New? {
          SettlingLeavesIt(now, row, n, key);
        }
      }
    }
  }

  // The rows after the first so many.
  lemma {:induction false} TheRestLeavesIt(f: Formal, rows: seq<Staged>, xs: seq<Interference>, k: nat, key: RowKey)
    requires |rows| == |xs| && k <= |rows|
    requires var g := Replay(f, rows[..k], xs[..k]).formal; key in g.invoices && !g.invoices[key].status.Normal?
    ensures QuietAt(Replay(f, rows[..k], xs[..k]).formal, Replay(f, rows, xs).formal, key)
  {
    if k == |rows| {
      assert rows[..k] == rows && xs[..k] == xs;
    } else {
      var n := |rows| - 1;
      assert rows[..n][..k] == rows[..k] && xs[..n][..k] == xs[..k];
      TheRestLeavesIt(f, rows[..n], xs[..n], k, key);
      var r := Replay(f, rows[..n], xs[..n]);
      if !r.failed {
        ConfirmingLeavesIt(r.formal, rows[n], xs[n], key);
      }
    }
  }

  predicate Knows(f: Formal, n: Normalized) {
    match n
    case InvoiceLine(r) => InvoiceNumber(r.business.number, r.business.sellerTax) in f.invoices
    case MoneyLine(r) => FingerprintOf(r) in f.money
  }

  // The ledger that decides a row: the one it finds when its turn comes, or, for a row that one does not know, the one
  // its insertion meets.
  function Deciding(f: Formal, n: Normalized, x: Interference): Formal {
    var met := MergedAll(f, x.before);
    if Knows(met, n) then met else MergedAll(met, x.during)
  }

  // A row the ledger does not know, when its turn comes, and whose names no longer resolve.
  predicate CannotPost(f: Formal, row: Staged, x: Interference) {
    && Pending(row) && !Knows(MergedAll(f, x.before), row.normalized.value)
    && !Resolves(x.master, row.normalized.value)
  }

  // The replay comes as far as row k and cannot post it.
  predicate FailsAt(f: Formal, rows: seq<Staged>, xs: seq<Interference>, k: nat)
    requires k < |rows| == |xs|
  {
    var r := Replay(f, rows[..k], xs[..k]);
    !r.failed && CannotPost(r.formal, rows[k], xs[k])
  }

  // A replay fails exactly over such a row.
  lemma {:induction false} ReplayFailsExactly(f: Formal, rows: seq<Staged>, xs: seq<Interference>)
    requires |rows| == |xs|
    ensures Replay(f, rows, xs).failed <==> exists k :: 0 <= k < |rows| && FailsAt(f, rows, xs, k)
  {
    if rows != [] {
      var n := |rows| - 1;
      LastRowFails(f, rows, xs);
      ReplayFailsExactly(f, rows[..n], xs[..n]);
      forall k | 0 <= k < n ensures FailsAt(f, rows, xs, k) <==> FailsAt(f, rows[..n], xs[..n], k) {
        assert rows[..n][..k] == rows[..k] && xs[..n][..k] == xs[..k];
      }
      hide Replay, FailsAt;
    }
  }

  lemma LastRowFails(f: Formal, rows: seq<Staged>, xs: seq<Interference>)
    requires |rows| == |xs| > 0
    ensures var n := |rows| - 1;
            Replay(f, rows, xs).failed <==> Replay(f, rows[..n], xs[..n]).failed || FailsAt(f, rows, xs, n)
  {
    var n := |rows| - 1;
    RowFailsExactly(Replay(f, rows[..n], xs[..n]).formal, rows[n], xs[n]);
    hide CannotPost, ConfirmRow;
  }

  lemma RowFailsExactly(f: Formal, row: Staged, x: Interference)
    ensures ConfirmRow(f, row, x).outcome.Failed? <==> CannotPost(f, row, x)
  {
  }

  // What the confirmed row and the final ledger say of a row, by the ledger that decided it.
  predicate RowTold(decided: Formal, row: Staged, after: Staged, final: Formal) {
    && row.normalized.Some?
    && match row.normalized.value
       case InvoiceLine(r) =>
         var key := InvoiceNumber(r.business.number, r.business.sellerTax);
         if key !in decided.invoices then
           && after == row.(posted := true)
           && key in final.invoices
           && final.invoices[key] == FormalInvoice(r.business, Some(r.names), final.invoices[key].status)
         else if HasInvoice(decided, r) && decided.invoices[key].status == r.status then
           after == row.(duplicate := true)
         else if HasInvoice(decided, r) && decided.invoices[key].status == Normal then
           // The invoice has the row's status from now on, and the move is its one further audit.
           && after == row.(posted := true)
           && key in final.invoices && final.invoices[key] == decided.invoices[key].(status := r.status)
           && AuditsOf(final.audits, key) == AuditsOf(decided.audits, key) + [StatusChange(key, Normal, r.status)]
         else
           after == row.(issue := Some(
             if decided.invoices[key].status != Normal && r.status == Normal then CannotRestore else BusinessConflict))
       case MoneyLine(r) =>
         if FingerprintOf(r) in decided.money then after == row.(duplicate := true)
         else after == row.(posted := true) && FingerprintOf(r) in final.money
  }

  lemma MovedRowIsTold(f: Formal, row: Staged, r: InvoiceRow, x: Interference)
    requires Pending(row) && row.normalized == Some(InvoiceLine(r)) && !ConfirmRow(f, row, x).outcome.Failed?
    requires Moves(Deciding(f, InvoiceLine(r), x), r)
    ensures var key := InvoiceNumber(r.business.number, r.business.sellerTax);
            var decided, c := Deciding(f, InvoiceLine(r), x), ConfirmRow(f, row, x);
            && c.row == row.(posted := true)
            && key in c.formal.invoices && c.formal.invoices[key] == decided.invoices[key].(status := r.status)
            && AuditsOf(c.formal.audits, key) == AuditsOf(decided.audits, key) + [StatusChange(key, Normal, r.status)]
  {
    var key := InvoiceNumber(r.business.number, r.business.sellerTax);
    var decided := Deciding(f, InvoiceLine(r), x);
    LedgerDecides(MergedAll(f, x.before), r);
    LedgerDecides(decided, r);
    AuditsOneMore(decided.audits, StatusChange(key, Normal, r.status), key);
  }

  lemma OtherRowIsTold(f: Formal, row: Staged, x: Interference)
    requires Pending(row) && !ConfirmRow(f, row, x).outcome.Failed?
    requires var n := row.normalized.value; var decided := Deciding(f, n, x);
             n.InvoiceLine? ==> !Moves(decided, n.invoice)
    ensures RowTold(Deciding(f, row.normalized.value, x), row, ConfirmRow(f, row, x).row, ConfirmRow(f, row, x).formal)
  {
    if row.normalized.value.InvoiceLine? {
      LedgerDecides(MergedAll(f, x.before), row.normalized.value.invoice);
      LedgerDecides(Deciding(f, row.normalized.value, x), row.normalized.value.invoice);
    }
  }

  lemma {:induction false} TheRestMovesOneWay(f: Formal, rows: seq<Staged>, xs: seq<Interference>, k: nat)
    requires |rows| == |xs| && k <= |rows|
    ensures OneWay(Replay(f, rows[..k], xs[..k]).formal, Replay(f, rows, xs).formal)
  {
    if k == |rows| {
      assert rows[..k] == rows && xs[..k] == xs;
    } else {
      var n := |rows| - 1;
      assert rows[..n][..k] == rows[..k] && xs[..n][..k] == xs[..k];
      TheRestMovesOneWay(f, rows[..n], xs[..n], k);
      var r := Replay(f, rows[..n], xs[..n]);
      if !r.failed {
        RowMovesOneWay(r.formal, rows[n], xs[n]);
        OneWayTwice(Replay(f, rows[..k], xs[..k]).formal, r.formal, ConfirmRow(r.formal, rows[n], xs[n]).formal);
      }
    }
  }

  // Rows already through are not touched again.
  lemma {:induction false} RowsStayTold(f: Formal, rows: seq<Staged>, xs: seq<Interference>, k: nat)
    requires k < |rows| == |xs| && !Replay(f, rows, xs).failed
    ensures var r := Replay(f, rows[..k], xs[..k]);
            && !r.failed && !ConfirmRow(r.formal, rows[k], xs[k]).outcome.Failed?
            && |Replay(f, rows, xs).rows| == |rows|
            && Replay(f, rows, xs).rows[k] == ConfirmRow(r.formal, rows[k], xs[k]).row
            && Replay(f, rows[..k + 1], xs[..k + 1]).formal == ConfirmRow(r.formal, rows[k], xs[k]).formal
  {
    var n := |rows| - 1;
    ReplayOneMore(f, rows, xs);
    ReplayLength(f, rows[..n], xs[..n]);
    if k == n {
      assert rows[..k + 1] == rows && xs[..k + 1] == xs;
    } else {
      assert rows[..n][..k] == rows[..k] && xs[..n][..k] == xs[..k];
      assert rows[..n][..k + 1] == rows[..k + 1] && xs[..n][..k + 1] == xs[..k + 1];
      RowsStayTold(f, rows[..n], xs[..n], k);
    }
  }

  lemma {:induction false} ReplayLength(f: Formal, rows: seq<Staged>, xs: seq<Interference>)
    requires |rows| == |xs| && !Replay(f, rows, xs).failed
    ensures |Replay(f, rows, xs).rows| == |rows|
  {
    if rows != [] {
      ReplayOneMore(f, rows, xs);
      ReplayLength(f, rows[..|rows| - 1], xs[..|xs| - 1]);
    }
  }

  // Through a whole confirmation, under any interference during and after it, every pending row ends as the ledger
  // decides, for good.
  lemma PendingRowIsTold(f: Formal, rows: seq<Staged>, xs: seq<Interference>, late: seq<Foreign>, k: nat)
    requires k < |rows| == |xs| && !Replay(f, rows, xs).failed && Pending(rows[k])
    ensures |Replay(f, rows, xs).rows| == |rows|
    ensures RowTold(Deciding(Replay(f, rows[..k], xs[..k]).formal, rows[k].normalized.value, xs[k]),
                    rows[k], Replay(f, rows, xs).rows[k], MergedAll(Replay(f, rows, xs).formal, late))
  {
    hide Replay, ConfirmRow, OneWay, Deciding;
    RowsStayTold(f, rows, xs, k);
    var before, row, x := Replay(f, rows[..k], xs[..k]).formal, rows[k], xs[k];
    var here, end := ConfirmRow(before, row, x).formal, Replay(f, rows, xs).formal;
    var decided := Deciding(before, row.normalized.value, x);
    if r :| row.normalized == Some(InvoiceLine(r)) && Moves(decided, r) {
      var key := InvoiceNumber(r.business.number, r.business.sellerTax);
      MovedRowIsTold(before, row, r, x);
      TheRestLeavesIt(f, rows, xs, k + 1, key);
      OthersLeaveIt(end, late, key);
    } else {
      OtherRowIsTold(before, row, x);
      TheRestMovesOneWay(f, rows, xs, k + 1);
      OthersMoveOneWay(end, late);
      OneWayTwice(here, end, MergedAll(end, late));
      ToldForGood(decided, row, ConfirmRow(before, row, x).row, here, MergedAll(end, late));
    }
  }

  lemma ToldForGood(decided: Formal, row: Staged, after: Staged, here: Formal, final: Formal)
    requires RowTold(decided, row, after, here) && OneWay(here, final)
    requires row.normalized.value.InvoiceLine? ==>
               !Moves(decided, row.normalized.value.invoice)
    ensures RowTold(decided, row, after, final)
  {
  }

  // The same of all rows at once, with the balances taken on top.
  ghost predicate AllTold(f: Formal, rows: seq<Staged>, xs: seq<Interference>, after: seq<Staged>, final: Formal)
    requires |rows| == |xs|
  {
    && |after| == |rows|
    && forall k :: 0 <= k < |rows| && Pending(rows[k]) ==>
         RowTold(Deciding(Replay(f, rows[..k], xs[..k]).formal, rows[k].normalized.value, xs[k]), rows[k], after[k], final)
  }

  lemma ConfirmationIsTold(f: Formal, rows: seq<Staged>, xs: seq<Interference>, late: seq<Foreign>, final: Formal)
    requires |rows| == |xs| && !Replay(f, rows, xs).failed
    requires var end := MergedAll(Replay(f, rows, xs).formal, late); final == end.(snapshots := final.snapshots)
    ensures AllTold(f, rows, xs, Replay(f, rows, xs).rows, final)
  {
    hide Replay, MergedAll, Deciding;
    ReplayLength(f, rows, xs);
    forall k | 0 <= k < |rows| && Pending(rows[k])
      ensures RowTold(Deciding(Replay(f, rows[..k], xs[..k]).formal, rows[k].normalized.value, xs[k]),
                      rows[k], Replay(f, rows, xs).rows[k], final)
    {
      PendingRowIsTold(f, rows, xs, late, k);
    }
  }
}

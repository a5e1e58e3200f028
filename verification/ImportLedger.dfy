// The import against the ledger: what a confirmed row does to the formal ledger (apps/imports/services.py:114-185,
// 313-356, 470-484) is one event of the ledger's history.

module ImportLedger {
  import opened Common
  import opened LedgerModel
  import opened Settlements
  import opened LedgerEvents
  import opened ImportModel

  // Which ledger record stands for a key of the import.
  datatype Link = Link(invoices: map<RowKey, Id>, money: map<Fingerprint, Id>)

  // The local day and the stored value's own day of a moment.
  datatype Calendar = Calendar(local: int -> int, own: int -> int)

  // Every line that passes the field checks has a positive amount, and so has every record others post.
  predicate Positive(n: Normalized) {
    match n case InvoiceLine(r) => r.business.total > 0 case MoneyLine(r) => r.amount > 0
  }

  predicate PositiveForeign(x: Foreign) {
    x.PostsInvoice? ==> x.invoice.business.total > 0
  }

  predicate PositiveRows(rows: seq<Staged>) {
    forall k :: 0 <= k < |rows| && Pending(rows[k]) ==> Positive(rows[k].normalized.value)
  }

  predicate PositiveInterference(x: Interference) {
    (forall y :: y in x.before ==> PositiveForeign(y)) && forall y :: y in x.during ==> PositiveForeign(y)
  }

  // The two pictures of the same records.

  predicate Shows(i: Invoice, x: FormalInvoice) {
    && i.direction == x.business.direction && i.total == x.business.total && i.issueDate == x.business.issueDate
    && i.status == x.status
  }

  ghost predicate InvoicesAgree(f: Formal, db: Db, link: Link) {
    && link.invoices.Keys == f.invoices.Keys && link.invoices.Values == db.invoices.Keys
    && (forall k :: k in f.invoices ==> Shows(db.invoices[link.invoices[k]], f.invoices[k]))
    && forall k, l :: k in link.invoices && l in link.invoices && link.invoices[k] == link.invoices[l] ==> k == l
  }

  ghost predicate MoneyAgrees(f: Formal, db: Db, link: Link) {
    && link.money.Keys == f.money && link.money.Values == db.money.Keys
    && forall p, q :: p in link.money && q in link.money && link.money[p] == link.money[q] ==> p == q
  }

  ghost predicate AuditsAgree(f: Formal, db: Db, link: Link) {
    && |f.audits| == |db.audits|
    && forall j :: 0 <= j < |f.audits| ==>
         && f.audits[j].key in link.invoices && db.audits[j].invoice == link.invoices[f.audits[j].key]
         && db.audits[j].from == f.audits[j].from && db.audits[j].to == f.audits[j].to
  }

  ghost predicate Agrees(f: Formal, db: Db, link: Link) {
    InvoicesAgree(f, db, link) && MoneyAgrees(f, db, link) && AuditsAgree(f, db, link)
  }

  // The event a posted row amounts to.

  function InvoiceOf(r: InvoiceRow, party: Id): Invoice {
    Invoice(r.business.direction, party, r.business.total, r.status, r.business.issueDate)
  }

  function MoneyOf(r: MoneyRow, party: Id, c: Calendar): Money {
    Money(r.direction, Some(party), r.amount, c.local(r.occurredAt), c.own(r.occurredAt))
  }

  function PartyOf(m: Master, n: Normalized): Id
    requires Resolves(m, n)
  {
    match n
    case InvoiceLine(r) =>
      m.invoiceParties[(r.business.direction, if r.business.direction.Input? then r.business.sellerTax else r.business.buyerTax)]
    case MoneyLine(r) => m.moneyParties[(r.channel, r.partyName, r.partyAccount)]
  }

  // Posting a new row under a fresh identifier.
  function Arrival(m: Master, n: Normalized, id: Id, c: Calendar): Event
    requires Resolves(m, n)
  {
    match n
    case InvoiceLine(r) => AddsInvoice(id, InvoiceOf(r, PartyOf(m, n)))
    case MoneyLine(r) => AddsMoney(id, MoneyOf(r, PartyOf(m, n), c))
  }

  function Linked(link: Link, n: Normalized, id: Id): Link {
    match n
    case InvoiceLine(_) => link.(invoices := link.invoices[KeyOf(n) := id])
    case MoneyLine(r) => link.(money := link.money[FingerprintOf(r) := id])
  }

  // A fresh pair extends a one-to-one link.
  lemma LinkGrows<K>(link: map<K, Id>, ids: set<Id>, key: K, id: Id)
    requires link.Values == ids && key !in link && id !in ids
    requires forall k, l :: k in link && l in link && link[k] == link[l] ==> k == l
    ensures var more := link[key := id];
            && more.Values == ids + {id}
            && forall k, l :: k in more && l in more && more[k] == more[l] ==> k == l
  {
    var more := link[key := id];
    forall k | k in link ensures link[k] != id {
      assert link[k] in link.Values;
    }
    forall i ensures i in more.Values <==> i in ids + {id} {
      if i == id {
        assert more[key] == id;
      } else if i in ids {
        var k :| k in link && link[k] == i;
        assert more[k] == i;
      }
    }
  }

  lemma NewInvoiceAgrees(f: Formal, db: Db, link: Link, key: RowKey, x: FormalInvoice, id: Id, invoice: Invoice)
    requires Agrees(f, db, link) && key !in f.invoices && id !in db.invoices && Shows(invoice, x)
    ensures Agrees(f.(invoices := f.invoices[key := x]), db.(invoices := db.invoices[id := invoice]),
                   link.(invoices := link.invoices[key := id]))
  {
    hide Shows;
    LinkGrows(link.invoices, db.invoices.Keys, key, id);
    forall k | k in f.invoices ensures link.invoices[k] in db.invoices && link.invoices[k] != id {
      assert link.invoices[k] in link.invoices.Values;
    }
  }

  lemma NewMoneyAgrees(f: Formal, db: Db, link: Link, p: Fingerprint, id: Id, money: Money)
    requires Agrees(f, db, link) && p !in f.money && id !in db.money
    ensures Agrees(f.(money := f.money + {p}), db.(money := db.money[id := money]), link.(money := link.money[p := id]))
  {
    hide Shows;
    LinkGrows(link.money, db.money.Keys, p, id);
  }

  // A new row is the arrival of its record.
  lemma PostedIsAnArrival(
    f: Formal, db: Db, link: Link, m: Master, n: Normalized, id: Id, at: int, c: Calendar)
    requires Agrees(f, db, link) && FormalDisposition(f, n).New? && Resolves(m, n) && Positive(n)
    requires id !in db.invoices && id !in db.money
    ensures var e := Arrival(m, n, id, c);
            Allowed(db, e) && Agrees(Posted(f, n), Next(db, Timed(at, e)), Linked(link, n, id))
  {
    hide Agrees, CanCreate, CanConfirm;
    match n
    case InvoiceLine(r) =>
      NewInvoiceAgrees(f, db, link, KeyOf(n), FormalInvoice(r.business, Some(r.names), r.status), id, InvoiceOf(r, PartyOf(m, n)));
    case MoneyLine(r) => NewMoneyAgrees(f, db, link, FingerprintOf(r), id, MoneyOf(r, PartyOf(m, n), c));
  }

  // A status update is the ledger's status move, audit and all.
  lemma MovedIsAStatusMove(f: Formal, db: Db, link: Link, key: RowKey, to: InvoiceStatus, at: int)
    requires Agrees(f, db, link) && key in f.invoices && CanMove(f.invoices[key].status, to)
    ensures key in link.invoices && Allowed(db, MovesStatus(link.invoices[key], to))
    ensures Agrees(Moved(f, key, to), Next(db, Timed(at, MovesStatus(link.invoices[key], to))), link)
  {
    hide CanCreate, CanConfirm;
    var i := link.invoices[key];
    assert i in link.invoices.Values;
    hide Allowed;
    MovedInvoicesAgree(f, db, link, key, to, at);
    MovedAuditsAgree(f, db, link, key, to, at);
    assert StatusChanged(db, i, to, at) == Next(db, Timed(at, MovesStatus(i, to)));
    hide InvoicesAgree, AuditsAgree;
  }

  lemma MovedInvoicesAgree(f: Formal, db: Db, link: Link, key: RowKey, to: InvoiceStatus, at: int)
    requires InvoicesAgree(f, db, link) && key in f.invoices && link.invoices[key] in db.invoices
    ensures InvoicesAgree(Moved(f, key, to), StatusChanged(db, link.invoices[key], to, at), link)
  {
  }

  lemma MovedAuditsAgree(f: Formal, db: Db, link: Link, key: RowKey, to: InvoiceStatus, at: int)
    requires InvoicesAgree(f, db, link) && AuditsAgree(f, db, link)
    requires key in f.invoices && link.invoices[key] in db.invoices
    ensures AuditsAgree(Moved(f, key, to), StatusChanged(db, link.invoices[key], to, at), link)
  {
  }

  // What others do to invoices, transactions and statuses meanwhile are events as well.

  lemma FreshId(db: Db) returns (id: Id)
    ensures id !in db.invoices && id !in db.money
  {
    id := AboveAll(db.invoices.Keys + db.money.Keys);
  }

  lemma {:induction false} AboveAll(ids: set<Id>) returns (id: Id)
    ensures forall i :: i in ids ==> i < id
  {
    if ids == {} {
      id := 0;
    } else {
      var i :| i in ids;
      var rest := AboveAll(ids - {i});
      id := if i < rest then rest else i + 1;
      forall j | j in ids ensures j < id {
        assert j == i || j in ids - {i};
      }
    }
  }

  // The events in order lead from one ledger to the other.
  ghost predicate LeadTo(db: Db, events: seq<Timed>, after: Db)
    decreases |events|
  {
    if events == [] then after == db
    else
      var n := |events| - 1;
      exists mid :: LeadTo(db, events[..n], mid) && Allowed(mid, events[n].event) && after == Next(mid, events[n])
  }

  lemma OneMoreEvent(db: Db, events: seq<Timed>, mid: Db, t: Timed)
    requires LeadTo(db, events, mid) && Allowed(mid, t.event)
    ensures LeadTo(db, events + [t], Next(mid, t))
  {
    hide Allowed, Next;
    assert (events + [t])[..|events|] == events;
  }

  lemma {:induction false} EventsKeepConsistent(db: Db, events: seq<Timed>, after: Db)
    requires Consistent(db) && LeadTo(db, events, after)
    ensures Consistent(after)
    decreases |events|
  {
    hide Consistent, Allowed, Next;
    if events != [] {
      var n := |events| - 1;
      var mid :| LeadTo(db, events[..n], mid) && Allowed(mid, events[n].event) && after == Next(mid, events[n]);
      EventsKeepConsistent(db, events[..n], mid);
      NextKeepsConsistent(mid, events[n]);
    }
  }

  lemma MergedIsEvents(db: Db, events: seq<Timed>, mid: Db, f: Formal, link: Link, x: Foreign, at: int)
    returns (more: seq<Timed>, after: Db, next: Link)
    requires LeadTo(db, events, mid) && Agrees(f, mid, link) && PositiveForeign(x)
    ensures events <= more && LeadTo(db, more, after) && Agrees(Merged(f, x), after, next)
  {
    hide LeadTo, Agrees, CanCreate, CanConfirm;
    more, after, next := events, mid, link;
    match x {
      case PostsInvoice(i) =>
        var key := InvoiceNumber(i.business.number, i.business.sellerTax);
        if key !in f.invoices {
          var id := FreshId(mid);
          var invoice := Invoice(i.business.direction, 0, i.business.total, i.status, i.business.issueDate);
          NewInvoiceAgrees(f, mid, link, key, i, id, invoice);
          OneMoreEvent(db, events, mid, Timed(at, AddsInvoice(id, invoice)));
          more := events + [Timed(at, AddsInvoice(id, invoice))];
          after, next := Next(mid, Timed(at, AddsInvoice(id, invoice))), link.(invoices := link.invoices[key := id]);
        }
      case PostsMoney(p) =>
        if p !in f.money {
          var id := FreshId(mid);
          var money := Money(Inflow, None, 1, 0, 0);
          NewMoneyAgrees(f, mid, link, p, id, money);
          OneMoreEvent(db, events, mid, Timed(at, AddsMoney(id, money)));
          more := events + [Timed(at, AddsMoney(id, money))];
          after, next := Next(mid, Timed(at, AddsMoney(id, money))), link.(money := link.money[p := id]);
        } else {
          assert f.money + {p} == f.money;
        }
      case MovesInvoice(key, to) =>
        if key in f.invoices && CanMove(f.invoices[key].status, to) {
          MovedIsAStatusMove(f, mid, link, key, to, at);
          OneMoreEvent(db, events, mid, Timed(at, MovesStatus(link.invoices[key], to)));
          more := events + [Timed(at, MovesStatus(link.invoices[key], to))];
          after := Next(mid, Timed(at, MovesStatus(link.invoices[key], to)));
        }
      case PostsSnapshot(account, moment, balance) =>
        SnapshotsDoNotMatter(f, mid, link, Merged(f, x));
    }
  }

  lemma SnapshotsDoNotMatter(f: Formal, db: Db, link: Link, g: Formal)
    requires Agrees(f, db, link) && g == f.(snapshots := g.snapshots)
    ensures Agrees(g, db, link)
  {
  }

  lemma {:induction false} MergedAllIsEvents(
    db: Db, events: seq<Timed>, mid: Db, f: Formal, link: Link, xs: seq<Foreign>, at: int)
    returns (more: seq<Timed>, after: Db, next: Link)
    requires LeadTo(db, events, mid) && Agrees(f, mid, link) && forall x :: x in xs ==> PositiveForeign(x)
    ensures events <= more && LeadTo(db, more, after) && Agrees(MergedAll(f, xs), after, next)
  {
    hide LeadTo, Agrees, Merged, PositiveForeign;
    more, after, next := events, mid, link;
    if xs != [] {
      var n := |xs| - 1;
      more, after, next := MergedAllIsEvents(db, events, mid, f, link, xs[..n], at);
      more, after, next := MergedIsEvents(db, more, after, MergedAll(f, xs[..n]), next, xs[n], at);
    }
  }

  // What the row itself did, the last event: its arrival, or the move of its invoice's status.
  ghost predicate IsOwnEvent(e: Event, n: Normalized, m: Master, link: Link, c: Calendar) {
    || (Resolves(m, n) && exists id :: e == Arrival(m, n, id, c))
    || (n.InvoiceLine? && KeyOf(n) in link.invoices && e == MovesStatus(link.invoices[KeyOf(n)], n.invoice.status))
  }

  lemma SettledIsEvents(
    db: Db, events: seq<Timed>, mid: Db, f: Formal, link: Link, row: Staged, n: Normalized, m: Master, at: int, c: Calendar)
    returns (more: seq<Timed>, after: Db)
    requires LeadTo(db, events, mid) && Agrees(f, mid, link) && !FormalDisposition(f, n).New?
    ensures var s := Settle(f, row, n, FormalDisposition(f, n));
            && LeadTo(db, more, after) && Agrees(s.formal, after, link)
            && if s.outcome.RowPosted? then
                 |more| == |events| + 1 && events <= more && IsOwnEvent(more[|events|].event, n, m, link, c)
               else more == events
  {
    hide LeadTo, Agrees;
    more, after := events, mid;
    if FormalDisposition(f, n).StatusUpdate? {
      MovedIsAStatusMove(f, mid, link, KeyOf(n), n.invoice.status, at);
      var t := Timed(at, MovesStatus(link.invoices[KeyOf(n)], n.invoice.status));
      OneMoreEvent(db, events, mid, t);
      hide Next, Allowed;
      more, after := events + [t], Next(mid, t);
    }
  }

  // Confirming one row under any interference is a stretch of the ledger's history.  A posted row adds exactly
  // one event of its own, at the end; a row that is not posted adds none.
  lemma ConfirmedRowIsEvents(
    db: Db, events: seq<Timed>, mid: Db, f: Formal, link: Link, row: Staged, x: Interference, at: int, c: Calendar)
    returns (others: seq<Timed>, more: seq<Timed>, after: Db, next: Link)
    requires LeadTo(db, events, mid) && Agrees(f, mid, link)
    requires PositiveInterference(x) && (Pending(row) ==> Positive(row.normalized.value))
    ensures events <= others <= more && LeadTo(db, more, after) && Agrees(ConfirmRow(f, row, x).formal, after, next)
    ensures if ConfirmRow(f, row, x).outcome.RowPosted? then
              && |more| == |others| + 1 && Pending(row)
              && IsOwnEvent(more[|others|].event, row.normalized.value, x.master, next, c)
            else more == others
  {
    hide LeadTo, Agrees, FormalDisposition, Settle, Resolves, Posted, MergedAll, Positive, IsOwnEvent, KeyOf;
    var seen := MergedAll(f, x.before);
    others, after, next := MergedAllIsEvents(db, events, mid, f, link, x.before, at);
    more := others;
    if Pending(row) {
      var n := row.normalized.value;
      if !FormalDisposition(seen, n).New? {
        more, after := SettledIsEvents(db, others, after, seen, next, row, n, x.master, at, c);
      } else if Resolves(x.master, n) {
        var now := MergedAll(seen, x.during);
        others, after, next := MergedAllIsEvents(db, others, after, seen, next, x.during, at);
        more := others;
        if FormalDisposition(now, n).New? {
          more, after, next := PostedIsEvents(db, others, after, now, next, n, x.master, at, c);
        } else {
          more, after := SettledIsEvents(db, others, after, now, next, row, n, x.master, at, c);
        }
      }
    }
  }

  lemma PostedIsEvents(
    db: Db, events: seq<Timed>, mid: Db, f: Formal, link: Link, n: Normalized, m: Master, at: int, c: Calendar)
    returns (more: seq<Timed>, after: Db, next: Link)
    requires LeadTo(db, events, mid) && Agrees(f, mid, link) && FormalDisposition(f, n).New?
    requires Resolves(m, n) && Positive(n)
    ensures LeadTo(db, more, after) && Agrees(Posted(f, n), after, next)
    ensures |more| == |events| + 1 && events <= more && IsOwnEvent(more[|events|].event, n, m, next, c)
  {
    hide LeadTo, Agrees, Posted, Next, Allowed;
    var id := FreshId(mid);
    PostedIsAnArrival(f, mid, link, m, n, id, at, c);
    var t := Timed(at, Arrival(m, n, id, c));
    OneMoreEvent(db, events, mid, t);
    more, after, next := events + [t], Next(mid, t), Linked(link, n, id);
  }

  // The whole confirmation, under any interference, is a stretch of the ledger's history.
  lemma {:induction false} ReplayIsEvents(
    db: Db, f: Formal, link: Link, rows: seq<Staged>, xs: seq<Interference>, at: int, c: Calendar)
    returns (events: seq<Timed>, after: Db, next: Link)
    requires |rows| == |xs| && Agrees(f, db, link) && PositiveRows(rows)
    requires forall x :: x in xs ==> PositiveInterference(x)
    ensures LeadTo(db, events, after) && Agrees(Replay(f, rows, xs).formal, after, next)
    ensures Consistent(db) ==> Consistent(after)
  {
    hide Agrees, Consistent, ConfirmRow, PositiveInterference, Positive, Allowed, Next;
    events, after, next := [], db, link;
    if rows != [] {
      var n := |rows| - 1;
      events, after, next := ReplayIsEvents(db, f, link, rows[..n], xs[..n], at, c);
      var r := Replay(f, rows[..n], xs[..n]);
      hide LeadTo;
      if !r.failed {
        var others;
        others, events, after, next := ConfirmedRowIsEvents(db, events, after, r.formal, next, rows[n], xs[n], at, c);
      }
    }
    if Consistent(db) {
      EventsKeepConsistent(db, events, after);
    }
  }

  // What others do to reconciliations and batches meanwhile leaves the agreement alone.
  lemma SettlingKeepsAgreement(f: Formal, db: Db, link: Link, t: Timed)
    requires Agrees(f, db, link) && Allowed(db, t.event)
    requires t.event.Creates? || t.event.Reverses? || t.event.Drafts? || t.event.Confirms?
    ensures Agrees(f, Next(db, t), link)
  {
    hide CanCreate, CanConfirm;
    var next := Next(db, t);
    assert next.invoices == db.invoices && next.money == db.money && next.audits == db.audits;
  }
}

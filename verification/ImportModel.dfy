// Importing invoices and bank lines (apps/imports/services.py) on values: what a row does to the formal
// ledger, how staging predicts it with an overlay of the rows already seen, and how confirmation replays it.

module ImportModel {
  import opened Common
  import opened LedgerModel

  datatype SourceKind = InputInvoice | OutputInvoice | Bank | Wechat

  datatype Channel = BankChannel | WechatChannel

  datatype Business = Business(
    direction: InvoiceDirection, number: string, sellerTax: string, buyerTax: string, issueDate: int, total: int)

  datatype Names = Names(seller: string, buyer: string)

  datatype InvoiceRow = InvoiceRow(business: Business, names: Names, status: InvoiceStatus)

  // Texts are in their canonical form, amounts in cents.
  datatype MoneyRow = MoneyRow(
    channel: Channel, direction: MoneyDirection, occurredAt: int, amount: int, balanceAfter: Option<int>,
    account: string, partyName: string, partyAccount: string, transactionId: string)

  datatype Normalized = InvoiceLine(invoice: InvoiceRow) | MoneyLine(money: MoneyRow)

  // transaction_fingerprint, before hashing.
  datatype Fingerprint =
    | ById(channel: Channel, account: string, transactionId: string)
    | Fallback(channel: Channel, account: string, occurredAt: int, direction: MoneyDirection, amount: int,
               partyName: string, partyAccount: string)

  function FingerprintOf(r: MoneyRow): Fingerprint {
    if r.transactionId != "" then ById(r.channel, r.account, r.transactionId)
    else Fallback(r.channel, r.account, r.occurredAt, r.direction, r.amount, r.partyName, r.partyAccount)
  }

  datatype RowKey = InvoiceNumber(number: string, sellerTax: string) | Transaction(fingerprint: Fingerprint)

  function KeyOf(n: Normalized): RowKey {
    match n
    case InvoiceLine(r) => InvoiceNumber(r.business.number, r.business.sellerTax)
    case MoneyLine(r) => Transaction(FingerprintOf(r))
  }

  // An invoice in the formal ledger.  The names it was imported with are known through its source row, when
  // there still is one.
  datatype FormalInvoice = FormalInvoice(business: Business, names: Option<Names>, status: InvoiceStatus)

  datatype StatusChange = StatusChange(key: RowKey, from: InvoiceStatus, to: InvoiceStatus)

  datatype Formal = Formal(
    invoices: map<RowKey, FormalInvoice>, money: set<Fingerprint>, snapshots: map<(Id, int), int>,
    audits: seq<StatusChange>)

  // Which names and accounts resolve to exactly one active record.
  datatype Master = Master(
    invoiceParties: map<(InvoiceDirection, string), Id>, accounts: map<(Channel, string), Id>,
    moneyParties: map<(Channel, string, string), Id>)

  predicate Resolves(m: Master, n: Normalized) {
    match n
    case InvoiceLine(r) =>
      var tax := if r.business.direction.Input? then r.business.sellerTax else r.business.buyerTax;
      (r.business.direction, tax) in m.invoiceParties
    case MoneyLine(r) =>
      (r.channel, r.account) in m.accounts && (r.channel, r.partyName, r.partyAccount) in m.moneyParties
  }

  // A row as its parser delivers it: clean when the parser and the field checks found no fault.
  datatype Parsed = Parsed(number: nat, clean: bool, normalized: Option<Normalized>)

  predicate KindFits(kind: SourceKind, n: Normalized) {
    match n
    case InvoiceLine(r) => kind == (if r.business.direction.Input? then InputInvoice else OutputInvoice)
    case MoneyLine(r) => kind == (if r.channel.BankChannel? then Bank else Wechat)
  }

  // No issue from validate_parsed_row.
  predicate Sound(kind: SourceKind, m: Master, p: Parsed) {
    && p.clean && p.normalized.Some? && KindFits(kind, p.normalized.value)
    && Resolves(m, p.normalized.value)
  }

  // Dispositions.

  datatype Disposition = New | Duplicate | Conflict | StatusUpdate

  predicate CanMove(from: InvoiceStatus, to: InvoiceStatus) {
    from.Normal? && (to.Red? || to.Void?)
  }

  function InvoiceDisposition(existing: FormalInvoice, r: InvoiceRow): Disposition {
    if existing.business != r.business || (existing.names.Some? && existing.names.value != r.names) then Conflict
    else if existing.status == r.status then Duplicate
    else if CanMove(existing.status, r.status) then StatusUpdate
    else Conflict
  }

  function RowsDisposition(previous: InvoiceRow, r: InvoiceRow): Disposition {
    if previous.business != r.business || previous.names != r.names then Conflict
    else if previous.status == r.status then Duplicate
    else if CanMove(previous.status, r.status) then StatusUpdate
    else Conflict
  }

  function FormalDisposition(f: Formal, n: Normalized): Disposition {
    match n
    case InvoiceLine(r) => if KeyOf(n) in f.invoices then InvoiceDisposition(f.invoices[KeyOf(n)], r) else New
    case MoneyLine(r) => if FingerprintOf(r) in f.money then Duplicate else New
  }

  // Staging.

  datatype Issue = Invalid | BusinessConflict | CannotRestore

  datatype Staged = Staged(
    number: nat, normalized: Option<Normalized>, issue: Option<Issue>, duplicate: bool, posted: bool)

  type Overlay = map<RowKey, Normalized>

  predicate Keyed(seen: Overlay) {
    forall k :: k in seen ==> KeyOf(seen[k]) == k
  }

  function StageDisposition(f: Formal, seen: Overlay, n: Normalized): Disposition
    requires Keyed(seen)
  {
    if KeyOf(n) !in seen then FormalDisposition(f, n)
    else match n
      case InvoiceLine(r) => RowsDisposition(seen[KeyOf(n)].invoice, r)
      case MoneyLine(_) => Duplicate
  }

  function ConflictIssue(current: InvoiceStatus, incoming: InvoiceStatus): Issue {
    if !current.Normal? && incoming.Normal? then CannotRestore else BusinessConflict
  }

  function CurrentStatus(f: Formal, seen: Overlay, n: Normalized): InvoiceStatus
    requires Keyed(seen) && StageDisposition(f, seen, n).Conflict?
  {
    if KeyOf(n) !in seen then f.invoices[KeyOf(n)].status else seen[KeyOf(n)].invoice.status
  }

  // _prepare_staged_row: the row it stages and the overlay it leaves.

  function StageRow(kind: SourceKind, m: Master, f: Formal, seen: Overlay, p: Parsed): Staged
    requires Keyed(seen)
  {
    if !Sound(kind, m, p) then Staged(p.number, None, Some(Invalid), false, false)
    else
      var n := p.normalized.value;
      match StageDisposition(f, seen, n)
      case Conflict => Staged(p.number, None, Some(ConflictIssue(CurrentStatus(f, seen, n), n.invoice.status)), false, false)
      case Duplicate => Staged(p.number, Some(n), None, true, false)
      case _ => Staged(p.number, Some(n), None, false, false)
  }

  function SeenAfter(kind: SourceKind, m: Master, f: Formal, seen: Overlay, p: Parsed): (next: Overlay)
    requires Keyed(seen)
    ensures Keyed(next)
  {
    if Sound(kind, m, p) && !StageDisposition(f, seen, p.normalized.value).Conflict?
    then seen[KeyOf(p.normalized.value) := p.normalized.value] else seen
  }

  function OverlayOf(kind: SourceKind, m: Master, f: Formal, parsed: seq<Parsed>): (seen: Overlay)
    ensures Keyed(seen)
  {
    if parsed == [] then map[]
    else SeenAfter(kind, m, f, OverlayOf(kind, m, f, parsed[..|parsed| - 1]), parsed[|parsed| - 1])
  }

  function StagedRows(kind: SourceKind, m: Master, f: Formal, parsed: seq<Parsed>): (rows: seq<Staged>)
    ensures |rows| == |parsed|
  {
    if parsed == [] then []
    else
      var front := parsed[..|parsed| - 1];
      StagedRows(kind, m, f, front) + [StageRow(kind, m, f, OverlayOf(kind, m, f, front), parsed[|parsed| - 1])]
  }

  lemma StagingOneMore(kind: SourceKind, m: Master, f: Formal, parsed: seq<Parsed>, p: Parsed)
    ensures var seen := OverlayOf(kind, m, f, parsed);
            && OverlayOf(kind, m, f, parsed + [p]) == SeenAfter(kind, m, f, seen, p)
            && StagedRows(kind, m, f, parsed + [p]) == StagedRows(kind, m, f, parsed) + [StageRow(kind, m, f, seen, p)]
  {
    assert (parsed + [p])[..|parsed|] == parsed;
  }

  // A row that confirmation will take up.
  predicate Pending(row: Staged) {
    !row.posted && !row.duplicate && row.issue.None? && row.normalized.Some?
  }

  // What other transactions commit while this one runs.

  datatype Foreign =
    | PostsInvoice(invoice: FormalInvoice)
    | PostsMoney(fingerprint: Fingerprint)
    | MovesInvoice(key: RowKey, to: InvoiceStatus)
    | PostsSnapshot(account: Id, at: int, balance: int)

  function Merged(f: Formal, x: Foreign): Formal {
    match x
    case PostsInvoice(i) =>
      var key := InvoiceNumber(i.business.number, i.business.sellerTax);
      if key in f.invoices then f else f.(invoices := f.invoices[key := i])
    case PostsMoney(p) => f.(money := f.money + {p})
    case MovesInvoice(key, to) =>
      if key in f.invoices && CanMove(f.invoices[key].status, to) then Moved(f, key, to) else f
    case PostsSnapshot(account, at, balance) =>
      if (account, at) in f.snapshots then f else f.(snapshots := f.snapshots[(account, at) := balance])
  }

  function MergedAll(f: Formal, xs: seq<Foreign>): Formal {
    if xs == [] then f else Merged(MergedAll(f, xs[..|xs| - 1]), xs[|xs| - 1])
  }

  // _update_invoice_status.
  function Moved(f: Formal, key: RowKey, to: InvoiceStatus): Formal
    requires key in f.invoices
  {
    f.(invoices := f.invoices[key := f.invoices[key].(status := to)],
       audits := f.audits + [StatusChange(key, f.invoices[key].status, to)])
  }

  // _post_normalized_row, once nothing stands in the way.
  function Posted(f: Formal, n: Normalized): Formal {
    match n
    case InvoiceLine(r) => f.(invoices := f.invoices[KeyOf(n) := FormalInvoice(r.business, Some(r.names), r.status)])
    case MoneyLine(r) => f.(money := f.money + {FingerprintOf(r)})
  }

  // Confirmation of one row: what others do before it, what they do between its check and its insertion, and
  // the master data it finds.
  datatype Interference = Interference(before: seq<Foreign>, during: seq<Foreign>, master: Master)

  datatype Outcome = Untouched | RowPosted | FoundDuplicate | FoundConflict | Failed

  datatype Confirmed = Confirmed(formal: Formal, row: Staged, outcome: Outcome)

  // A disposition other than new settles the row.
  function Settle(f: Formal, row: Staged, n: Normalized, d: Disposition): Confirmed
    requires !d.New? && d == FormalDisposition(f, n)
  {
    match d
    case Duplicate => Confirmed(f, row.(duplicate := true), FoundDuplicate)
    case Conflict =>
      Confirmed(f, row.(issue := Some(ConflictIssue(f.invoices[KeyOf(n)].status, n.invoice.status))), FoundConflict)
    case StatusUpdate => Confirmed(Moved(f, KeyOf(n), n.invoice.status), row.(posted := true), RowPosted)
  }

  // The body of confirm_batch's loop.
  function ConfirmRow(f: Formal, row: Staged, x: Interference): Confirmed {
    var seen := MergedAll(f, x.before);
    if !Pending(row) then Confirmed(seen, row, Untouched)
    else
      var n := row.normalized.value;
      var d := FormalDisposition(seen, n);
      if !d.New? then Settle(seen, row, n, d)
      else if !Resolves(x.master, n) then Confirmed(seen, row, Failed)
      else
        // The insertion fails when somebody else was quicker; the row is then looked at again.
        var now := MergedAll(seen, x.during);
        var again := FormalDisposition(now, n);
        if again.New? then Confirmed(Posted(now, n), row.(posted := true), RowPosted)
        else Settle(now, row, n, again)
  }

  datatype Replayed = Replayed(formal: Formal, rows: seq<Staged>, duplicates: nat, errors: nat, failed: bool)

  // The loop up to a row; a failure ends it.
  function Replay(f: Formal, rows: seq<Staged>, xs: seq<Interference>): Replayed
    requires |rows| == |xs|
  {
    if rows == [] then Replayed(f, [], 0, 0, false)
    else
      var n := |rows| - 1;
      var r := Replay(f, rows[..n], xs[..n]);
      if r.failed then r
      else
        var c := ConfirmRow(r.formal, rows[n], xs[n]);
        Replayed(c.formal, r.rows + [c.row],
                 r.duplicates + (if c.outcome.FoundDuplicate? then 1 else 0),
                 r.errors + (if c.outcome.FoundConflict? then 1 else 0),
                 c.outcome.Failed?)
  }

  function Undisturbed(m: Master, n: nat): seq<Interference> {
    seq(n, _ => Interference([], [], m))
  }

  // The overlay predicts the replay.

  // What the overlay holds for a key is what the formal ledger holds by then, up to names it does not know.
  predicate Foretells(previous: Normalized, f: Formal) {
    match previous
    case InvoiceLine(r) =>
      && KeyOf(previous) in f.invoices
      && var existing := f.invoices[KeyOf(previous)];
         && existing.business == r.business && existing.status == r.status
         && (existing.names.None? || existing.names.value == r.names)
    case MoneyLine(r) => FingerprintOf(r) in f.money
  }

  // The formal ledger at a key.
  predicate SameAt(f: Formal, g: Formal, k: RowKey) {
    match k
    case InvoiceNumber(_, _) => (k in f.invoices <==> k in g.invoices) && (k in f.invoices ==> f.invoices[k] == g.invoices[k])
    case Transaction(p) => p in f.money <==> p in g.money
  }

  ghost predicate OverlayAgrees(seen: Overlay, start: Formal, now: Formal) {
    && Keyed(seen)
    && (forall k :: k in seen ==> Foretells(seen[k], now))
    && (forall k :: k !in seen ==> SameAt(start, now, k))
  }

  lemma ForetoldDisposition(previous: InvoiceRow, r: InvoiceRow, existing: FormalInvoice)
    requires existing.business == previous.business && existing.status == previous.status
    requires existing.names.None? || existing.names.value == previous.names
    requires !RowsDisposition(previous, r).Conflict?
    ensures InvoiceDisposition(existing, r) == RowsDisposition(previous, r)
  {
  }

  // Where the overlay does not see a conflict, the formal ledger will say the same.
  lemma OverlayPredicts(seen: Overlay, start: Formal, now: Formal, n: Normalized)
    requires OverlayAgrees(seen, start, now) && !StageDisposition(start, seen, n).Conflict?
    ensures FormalDisposition(now, n) == StageDisposition(start, seen, n)
  {
    var k := KeyOf(n);
    if k in seen {
      assert Foretells(seen[k], now);
      match n {
        case InvoiceLine(r) => ForetoldDisposition(seen[k].invoice, r, now.invoices[k]);
        case MoneyLine(_) =>
      }
    } else {
      assert SameAt(start, now, k);
    }
  }

  // One row: it is confirmed as staged, and the overlay stays right.
  lemma RowIsPredicted(kind: SourceKind, m: Master, start: Formal, now: Formal, seen: Overlay, p: Parsed)
    requires OverlayAgrees(seen, start, now)
    ensures var row := StageRow(kind, m, start, seen, p);
            var c := ConfirmRow(now, row, Interference([], [], m));
            && c.outcome == (if Pending(row) then RowPosted else Untouched)
            && c.row == row.(posted := Pending(row))
            && OverlayAgrees(SeenAfter(kind, m, start, seen, p), start, c.formal)
  {
    if Sound(kind, m, p) && !StageDisposition(start, seen, p.normalized.value).Conflict? {
      var n := p.normalized.value;
      OverlayPredicts(seen, start, now, n);
      SeenRowIsForetold(start, now, seen, n);
    }
  }

  lemma SeenRowIsForetold(start: Formal, now: Formal, seen: Overlay, n: Normalized)
    requires OverlayAgrees(seen, start, now)
    requires FormalDisposition(now, n) == StageDisposition(start, seen, n) != Conflict
    ensures var d := FormalDisposition(now, n);
            var after := if d.New? then Posted(now, n) else if d.StatusUpdate? then Moved(now, KeyOf(n), n.invoice.status) else now;
            OverlayAgrees(seen[KeyOf(n) := n], start, after)
  {
  }

  // Every pending row is posted, all others stand, and nothing new is found.
  ghost predicate AsPredicted(rows: seq<Staged>, r: Replayed, seen: Overlay, start: Formal) {
    && !r.failed && r.duplicates == 0 && r.errors == 0 && |r.rows| == |rows|
    && (forall k :: 0 <= k < |rows| ==> r.rows[k] == rows[k].(posted := Pending(rows[k])))
    && OverlayAgrees(seen, start, r.formal)
  }

  lemma PredictedOneMore(
    kind: SourceKind, m: Master, f: Formal, seen: Overlay, p: Parsed, rows: seq<Staged>, xs: seq<Interference>)
    requires |rows| == |xs| && AsPredicted(rows, Replay(f, rows, xs), seen, f)
    ensures var row := StageRow(kind, m, f, seen, p);
            AsPredicted(rows + [row], Replay(f, rows + [row], xs + [Interference([], [], m)]),
                        SeenAfter(kind, m, f, seen, p), f)
  {
    var row, x := StageRow(kind, m, f, seen, p), Interference([], [], m);
    var before := Replay(f, rows, xs);
    RowIsPredicted(kind, m, f, before.formal, seen, p);
    assert (rows + [row])[..|rows|] == rows && (xs + [x])[..|xs|] == xs;
    var c := ConfirmRow(before.formal, row, x);
    var after := Replay(f, rows + [row], xs + [x]);
    hide OverlayAgrees, ConfirmRow, StageRow, SeenAfter, Pending;
    assert after.rows == before.rows + [c.row];
  }

  lemma {:induction false} RowsArePredicted(kind: SourceKind, m: Master, f: Formal, parsed: seq<Parsed>)
    ensures var rows := StagedRows(kind, m, f, parsed);
            AsPredicted(rows, Replay(f, rows, Undisturbed(m, |rows|)), OverlayOf(kind, m, f, parsed), f)
  {
    if parsed != [] {
      hide AsPredicted, Replay;
      var n := |parsed| - 1;
      var front := StagedRows(kind, m, f, parsed[..n]);
      RowsArePredicted(kind, m, f, parsed[..n]);
      PredictedOneMore(kind, m, f, OverlayOf(kind, m, f, parsed[..n]), parsed[n], front, Undisturbed(m, n));
      assert Undisturbed(m, n + 1) == Undisturbed(m, n) + [Interference([], [], m)];
    }
  }

  // The rows as an undisturbed confirmation leaves them.
  function AllPosted(rows: seq<Staged>): seq<Staged> {
    seq(|rows|, k requires 0 <= k < |rows| => rows[k].(posted := Pending(rows[k])))
  }

  // Balances are not touched before all rows are through.
  lemma {:induction false} ReplayKeepsSnapshots(f: Formal, rows: seq<Staged>, m: Master)
    ensures Replay(f, rows, Undisturbed(m, |rows|)).formal.snapshots == f.snapshots
  {
    if rows != [] {
      var n := |rows| - 1;
      ReplayKeepsSnapshots(f, rows[..n], m);
      assert Undisturbed(m, n + 1)[..n] == Undisturbed(m, n);
    }
  }

  // Counts.

  function CountPosted(rows: seq<Staged>): nat {
    if rows == [] then 0 else CountPosted(rows[..|rows| - 1]) + (if rows[|rows| - 1].posted then 1 else 0)
  }

  function CountDuplicates(rows: seq<Staged>): nat {
    if rows == [] then 0
    else CountDuplicates(rows[..|rows| - 1]) + (if rows[|rows| - 1].issue.None? && rows[|rows| - 1].duplicate then 1 else 0)
  }

  function CountErrors(rows: seq<Staged>): nat {
    if rows == [] then 0 else CountErrors(rows[..|rows| - 1]) + (if rows[|rows| - 1].issue.Some? then 1 else 0)
  }

  function CountPending(rows: seq<Staged>): nat {
    if rows == [] then 0 else CountPending(rows[..|rows| - 1]) + (if Pending(rows[|rows| - 1]) then 1 else 0)
  }

  // Every row is exactly one of pending, duplicate or faulty, and none is posted.
  predicate FreshlyStaged(rows: seq<Staged>) {
    forall k :: 0 <= k < |rows| ==>
      !rows[k].posted && (rows[k].issue.None? ==> rows[k].normalized.Some?) && (rows[k].issue.Some? ==> !rows[k].duplicate)
  }

  lemma {:induction false} StagingIsFresh(kind: SourceKind, m: Master, f: Formal, parsed: seq<Parsed>)
    ensures FreshlyStaged(StagedRows(kind, m, f, parsed))
  {
    if parsed != [] {
      StagingIsFresh(kind, m, f, parsed[..|parsed| - 1]);
    }
  }

  lemma {:induction false} FreshCountsAddUp(rows: seq<Staged>)
    requires FreshlyStaged(rows)
    ensures CountPending(rows) + CountDuplicates(rows) + CountErrors(rows) == |rows|
    ensures CountPosted(rows) == 0
  {
    if rows != [] {
      FreshCountsAddUp(rows[..|rows| - 1]);
    }
  }

  lemma ConfirmedRowStands(f: Formal, row: Staged, x: Interference)
    requires !row.posted && (row.issue.Some? ==> !row.duplicate) && (row.issue.None? ==> row.normalized.Some?)
    requires !ConfirmRow(f, row, x).outcome.Failed?
    ensures var c := ConfirmRow(f, row, x);
            && !Pending(c.row) && (!Pending(row) ==> c.row == row && c.outcome.Untouched?)
            && (Pending(row) <==> !c.outcome.Untouched?)
            && c.row.posted == c.outcome.RowPosted?
            && (c.row.issue.Some? <==> row.issue.Some? || c.outcome.FoundConflict?)
            && (c.row.issue.None? && c.row.duplicate <==> (row.issue.None? && row.duplicate) || c.outcome.FoundDuplicate?)
  {
    hide MergedAll, FormalDisposition, Moved, Posted, Resolves;
  }

  lemma CountOneMore(rows: seq<Staged>, row: Staged)
    ensures var more := rows + [row];
            && CountPosted(more) == CountPosted(rows) + (if row.posted then 1 else 0)
            && CountDuplicates(more) == CountDuplicates(rows) + (if row.issue.None? && row.duplicate then 1 else 0)
            && CountErrors(more) == CountErrors(rows) + (if row.issue.Some? then 1 else 0)
            && CountPending(more) == CountPending(rows) + (if Pending(row) then 1 else 0)
  {
    assert (rows + [row])[..|rows|] == rows;
  }

  lemma ReplayOneMore(f: Formal, rows: seq<Staged>, xs: seq<Interference>)
    requires |rows| == |xs| > 0 && !Replay(f, rows, xs).failed
    ensures var n := |rows| - 1; var before, after := Replay(f, rows[..n], xs[..n]), Replay(f, rows, xs);
            var c := ConfirmRow(before.formal, rows[n], xs[n]);
            && !before.failed && !c.outcome.Failed?
            && after.rows == before.rows + [c.row]
            && after.duplicates == before.duplicates + (if c.outcome.FoundDuplicate? then 1 else 0)
            && after.errors == before.errors + (if c.outcome.FoundConflict? then 1 else 0)
  {
  }

  // Every pending row is posted, found duplicate or found in conflict, and nothing else changes.
  predicate Conserves(rows: seq<Staged>, r: Replayed) {
    && |r.rows| == |rows|
    && CountPosted(r.rows) + r.duplicates + r.errors == CountPending(rows)
    && CountDuplicates(r.rows) == CountDuplicates(rows) + r.duplicates
    && CountErrors(r.rows) == CountErrors(rows) + r.errors
    && (forall k :: 0 <= k < |rows| && !Pending(rows[k]) ==> r.rows[k] == rows[k])
    && (forall k :: 0 <= k < |rows| ==> !Pending(r.rows[k]))
  }

  lemma ConservesOneMore(rows: seq<Staged>, before: Replayed, row: Staged, x: Interference, after: Replayed)
    requires Conserves(rows, before)
    requires !row.posted && (row.issue.Some? ==> !row.duplicate) && (row.issue.None? ==> row.normalized.Some?)
    requires var c := ConfirmRow(before.formal, row, x);
             && !c.outcome.Failed? && after.rows == before.rows + [c.row]
             && after.duplicates == before.duplicates + (if c.outcome.FoundDuplicate? then 1 else 0)
             && after.errors == before.errors + (if c.outcome.FoundConflict? then 1 else 0)
    ensures Conserves(rows + [row], after)
  {
    hide ConfirmRow, CountPosted, CountDuplicates, CountErrors, CountPending;
    var c := ConfirmRow(before.formal, row, x);
    ConfirmedRowStands(before.formal, row, x);
    CountOneMore(before.rows, c.row);
    CountOneMore(rows, row);
    var more := rows + [row];
    forall k | 0 <= k < |more| ensures (!Pending(more[k]) ==> after.rows[k] == more[k]) && !Pending(after.rows[k]) {
      if k < |rows| {
        assert more[k] == rows[k] && after.rows[k] == before.rows[k];
      }
    }
  }

  lemma NextIsFresh(rows: seq<Staged>)
    requires FreshlyStaged(rows) && rows != []
    ensures var n := |rows| - 1;
            && FreshlyStaged(rows[..n])
            && !rows[n].posted && (rows[n].issue.Some? ==> !rows[n].duplicate)
            && (rows[n].issue.None? ==> rows[n].normalized.Some?)
  {
  }

  // Whatever the others do.
  lemma {:induction false} ReplayConservesRows(f: Formal, rows: seq<Staged>, xs: seq<Interference>)
    requires |rows| == |xs| && FreshlyStaged(rows) && !Replay(f, rows, xs).failed
    ensures Conserves(rows, Replay(f, rows, xs))
  {
    if rows == [] {
      return;
    }
    var n := |rows| - 1;
    ReplayOneMore(f, rows, xs);
    NextIsFresh(rows);
    hide Replay, Conserves, FreshlyStaged, ConfirmRow;
    ReplayConservesRows(f, rows[..n], xs[..n]);
    ConservesOneMore(rows[..n], Replay(f, rows[..n], xs[..n]), rows[n], xs[n], Replay(f, rows, xs));
    assert rows == rows[..n] + [rows[n]];
  }

  // Status moves one way, and every move is on record: through any replay under any interference an invoice
  // keeps its business fields and names, and leaves normal at most once, with an audit.

  ghost predicate OneWay(f: Formal, g: Formal) {
    && f.money <= g.money && f.audits <= g.audits
    && (forall k :: k in f.invoices ==>
          && k in g.invoices
          && g.invoices[k] == f.invoices[k].(status := g.invoices[k].status)
          && (g.invoices[k].status != f.invoices[k].status ==>
                CanMove(f.invoices[k].status, g.invoices[k].status)
                && StatusChange(k, f.invoices[k].status, g.invoices[k].status) in g.audits[|f.audits|..]))
  }

  lemma OneWayTwice(f: Formal, g: Formal, h: Formal)
    requires OneWay(f, g) && OneWay(g, h)
    ensures OneWay(f, h)
  {
    forall k | k in f.invoices && h.invoices[k].status != f.invoices[k].status
      ensures CanMove(f.invoices[k].status, h.invoices[k].status)
              && StatusChange(k, f.invoices[k].status, h.invoices[k].status) in h.audits[|f.audits|..]
    {
      if g.invoices[k].status != f.invoices[k].status {
        var a := StatusChange(k, f.invoices[k].status, g.invoices[k].status);
        var j :| 0 <= j < |g.audits[|f.audits|..]| && g.audits[|f.audits|..][j] == a;
        assert h.audits[|f.audits|..][j] == a;
      } else {
        var a := StatusChange(k, g.invoices[k].status, h.invoices[k].status);
        var j :| 0 <= j < |h.audits[|g.audits|..]| && h.audits[|g.audits|..][j] == a;
        assert h.audits[|f.audits|..][j + |g.audits| - |f.audits|] == a;
      }
    }
  }

  lemma MoveIsOneWay(f: Formal, key: RowKey, to: InvoiceStatus)
    requires key in f.invoices && CanMove(f.invoices[key].status, to)
    ensures OneWay(f, Moved(f, key, to))
  {
    var g := Moved(f, key, to);
    assert g.audits[|f.audits|..][0] == StatusChange(key, f.invoices[key].status, to);
  }

  lemma {:induction false} OthersMoveOneWay(f: Formal, xs: seq<Foreign>)
    ensures OneWay(f, MergedAll(f, xs))
  {
    if xs != [] {
      var before, x := MergedAll(f, xs[..|xs| - 1]), xs[|xs| - 1];
      OthersMoveOneWay(f, xs[..|xs| - 1]);
      if x.MovesInvoice? && x.key in before.invoices && CanMove(before.invoices[x.key].status, x.to) {
        MoveIsOneWay(before, x.key, x.to);
      }
      assert OneWay(before, Merged(before, x));
      OneWayTwice(f, before, Merged(before, x));
    }
  }

  lemma RowMovesOneWay(f: Formal, row: Staged, x: Interference)
    ensures OneWay(f, ConfirmRow(f, row, x).formal)
  {
    var seen := MergedAll(f, x.before);
    OthersMoveOneWay(f, x.before);
    if Pending(row) {
      var n := row.normalized.value;
      var d := FormalDisposition(seen, n);
      if !d.New? {
        SettlingMovesOneWay(seen, row, n, d);
        OneWayTwice(f, seen, Settle(seen, row, n, d).formal);
      } else if Resolves(x.master, n) {
        var now := MergedAll(seen, x.during);
        OthersMoveOneWay(seen, x.during);
        OneWayTwice(f, seen, now);
        var again := FormalDisposition(now, n);
        if !again.New? {
          SettlingMovesOneWay(now, row, n, again);
          OneWayTwice(f, now, Settle(now, row, n, again).formal);
        } else {
          assert OneWay(now, Posted(now, n));
          OneWayTwice(f, now, Posted(now, n));
        }
      }
    }
  }

  lemma SettlingMovesOneWay(f: Formal, row: Staged, n: Normalized, d: Disposition)
    requires !d.New? && d == FormalDisposition(f, n)
    ensures OneWay(f, Settle(f, row, n, d).formal)
  {
    if d.StatusUpdate? {
      MoveIsOneWay(f, KeyOf(n), n.invoice.status);
    }
  }

  lemma {:induction false} ReplayMovesOneWay(f: Formal, rows: seq<Staged>, xs: seq<Interference>)
    requires |rows| == |xs|
    ensures OneWay(f, Replay(f, rows, xs).formal)
  {
    if rows != [] {
      var n := |rows| - 1;
      ReplayMovesOneWay(f, rows[..n], xs[..n]);
      var r := Replay(f, rows[..n], xs[..n]);
      if !r.failed {
        RowMovesOneWay(r.formal, rows[n], xs[n]);
        OneWayTwice(f, r.formal, ConfirmRow(r.formal, rows[n], xs[n]).formal);
      }
    }
  }
}

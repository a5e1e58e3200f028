// Staging and confirming an import batch (apps/imports/services.py:47-260, 498-551) as the service performs it:
// loops over rows that update the overlay, the counters, the rows and the formal ledger.

module ImportService {
  import opened Common
  import opened LedgerModel
  import opened ImportModel
  import opened ImportOutcome

  datatype BatchStatus = Previewed | Partial | Completed

  datatype Counters = Counters(total: nat, valid: int, duplicate: int, error: int)

  datatype Batch = Batch(kind: SourceKind, rows: seq<Staged>, counters: Counters, status: BatchStatus, confirmed: bool)

  datatype ImportError = TooManyRows | Unresolved | SnapshotConflict

  predicate Balanced(c: Counters) {
    c.total == c.valid + c.duplicate + c.error && c.valid >= 0 && c.duplicate >= 0 && c.error >= 0
  }

  // Before confirmation the counters count what is pending, afterwards what was posted.
  ghost predicate BatchValid(b: Batch) {
    && b.counters.total == |b.rows| && Balanced(b.counters)
    && b.counters.duplicate == CountDuplicates(b.rows) && b.counters.error == CountErrors(b.rows)
    && (!b.confirmed ==>
          FreshlyStaged(b.rows) && b.counters.valid == CountPending(b.rows) && b.status.Previewed?)
    && (b.confirmed ==>
          && b.counters.valid == CountPosted(b.rows)
          && b.status == (if b.counters.error > 0 then Partial else Completed)
          && forall k :: 0 <= k < |b.rows| ==> !Pending(b.rows[k]))
  }

  lemma StagedRowIsOneOfThree(kind: SourceKind, m: Master, f: Formal, seen: Overlay, p: Parsed)
    requires Keyed(seen)
    ensures var row := StageRow(kind, m, f, seen, p);
            && (row.issue.Some? ==> !row.duplicate)
            && (Pending(row) <==> row.issue.None? && !row.duplicate)
  {
  }

  // One step of the counters.
  function Counted(c: Counters, row: Staged): Counters {
    if row.issue.Some? then c.(total := c.total + 1, error := c.error + 1)
    else if row.duplicate then c.(total := c.total + 1, duplicate := c.duplicate + 1)
    else c.(total := c.total + 1, valid := c.valid + 1)
  }

  function CountersOf(rows: seq<Staged>): Counters {
    Counters(|rows|, CountPending(rows), CountDuplicates(rows), CountErrors(rows))
  }

  lemma CountedOneMore(kind: SourceKind, m: Master, f: Formal, seen: Overlay, p: Parsed, rows: seq<Staged>)
    requires Keyed(seen)
    ensures var row := StageRow(kind, m, f, seen, p);
            Counted(CountersOf(rows), row) == CountersOf(rows + [row])
  {
    CountOneMore(rows, StageRow(kind, m, f, seen, p));
    StagedRowIsOneOfThree(kind, m, f, seen, p);
    hide StageRow, CountPending, CountDuplicates, CountErrors, Pending;
  }

  // The loop's state after the rows so far.
  ghost predicate Prepared(
    kind: SourceKind, m: Master, f: Formal, parsed: seq<Parsed>, seen: Overlay, rows: seq<Staged>, counters: Counters)
  {
    seen == OverlayOf(kind, m, f, parsed) && rows == StagedRows(kind, m, f, parsed) && counters == CountersOf(rows)
  }

  lemma PreparedOneMore(
    kind: SourceKind, m: Master, f: Formal, parsed: seq<Parsed>, p: Parsed, seen: Overlay, rows: seq<Staged>,
    counters: Counters)
    requires Prepared(kind, m, f, parsed, seen, rows, counters)
    ensures Keyed(seen)
    ensures var row := StageRow(kind, m, f, seen, p);
            Prepared(kind, m, f, parsed + [p], SeenAfter(kind, m, f, seen, p), rows + [row], Counted(counters, row))
  {
    hide StageRow, SeenAfter, OverlayOf, StagedRows, CountersOf, Counted, Keyed;
    StagingOneMore(kind, m, f, parsed, p);
    CountedOneMore(kind, m, f, seen, p, rows);
  }

  lemma NothingPrepared(kind: SourceKind, m: Master, f: Formal)
    ensures Prepared(kind, m, f, [], map[], [], Counters(0, 0, 0, 0))
  {
  }

  lemma PreparedStands(
    kind: SourceKind, m: Master, f: Formal, parsed: seq<Parsed>, seen: Overlay, rows: seq<Staged>, counters: Counters)
    requires Prepared(kind, m, f, parsed, seen, rows, counters)
    ensures rows == StagedRows(kind, m, f, parsed) && FreshlyStaged(rows)
    ensures counters == CountersOf(rows) && Balanced(counters)
  {
    hide StagedRows, CountersOf, FreshlyStaged;
    StagingIsFresh(kind, m, f, parsed);
    CountersBalance(rows);
  }

  // _prepare_rows.
  method PrepareRows(kind: SourceKind, m: Master, f: Formal, parsed: seq<Parsed>, maxRows: nat)
    returns (result: Result<(seq<Staged>, Counters), ImportError>)
    ensures result.Ok? <==> |parsed| <= maxRows
    ensures result.Ok? ==>
              var (rows, counters) := result.value;
              && rows == StagedRows(kind, m, f, parsed) && FreshlyStaged(rows)
              && counters == CountersOf(rows) && Balanced(counters)
  {
    hide *;
    var rows: seq<Staged>, seen: Overlay, counters := [], map[], Counters(0, 0, 0, 0);
    NothingPrepared(kind, m, f);
    assert parsed[..0] == [];
    for k := 0 to |parsed|
      invariant k <= maxRows && Prepared(kind, m, f, parsed[..k], seen, rows, counters)
    {
      if k + 1 > maxRows {
        return Err(TooManyRows);
      }
      assert parsed[..k + 1] == parsed[..k] + [parsed[k]];
      PreparedOneMore(kind, m, f, parsed[..k], parsed[k], seen, rows, counters);
      var row := StageRow(kind, m, f, seen, parsed[k]);
      seen := SeenAfter(kind, m, f, seen, parsed[k]);
      rows := rows + [row];
      counters := Counted(counters, row);
    }
    assert parsed[..|parsed|] == parsed;
    PreparedStands(kind, m, f, parsed, seen, rows, counters);
    result := Ok((rows, counters));
  }

  lemma CountersBalance(rows: seq<Staged>)
    requires FreshlyStaged(rows)
    ensures Balanced(CountersOf(rows))
  {
    FreshCountsAddUp(rows);
  }

  // Balance snapshots.

  datatype Latest = Latest(at: int, row: nat, balance: int)

  // The account and balance a posted bank line reports.
  function Reported(m: Master, row: Staged): Option<(Id, Latest)> {
    if row.posted && row.issue.None? && row.normalized.Some? && row.normalized.value.MoneyLine?
       && row.normalized.value.money.balanceAfter.Some?
       && (row.normalized.value.money.channel, row.normalized.value.money.account) in m.accounts
    then
      var money := row.normalized.value.money;
      Some((m.accounts[(money.channel, money.account)], Latest(money.occurredAt, row.number, money.balanceAfter.value)))
    else None
  }

  // Later, or at the same moment but higher up in the file.
  predicate Prevails(a: Latest, b: Latest) {
    a.at > b.at || (a.at == b.at && a.row <= b.row)
  }

  ghost predicate LatestOf(latest: map<Id, Latest>, m: Master, rows: seq<Staged>) {
    && (forall account :: account in latest ==>
          exists k :: 0 <= k < |rows| && Reported(m, rows[k]) == Some((account, latest[account])))
    && (forall k :: 0 <= k < |rows| && Reported(m, rows[k]).Some? ==>
          var (account, reported) := Reported(m, rows[k]).value;
          account in latest && Prevails(latest[account], reported))
  }

  // A row reports a balance exactly when it is a posted line with one, on an account that resolves.
  lemma WhatARowReports(m: Master, row: Staged, account: Id, latest: Latest)
    ensures Reported(m, row) == Some((account, latest)) <==>
              && row.posted && row.issue == None
              && (exists money: MoneyRow ::
                    && row.normalized == Some(MoneyLine(money)) && money.balanceAfter == Some(latest.balance)
                    && latest.at == money.occurredAt
                    && (money.channel, money.account) in m.accounts && m.accounts[(money.channel, money.account)] == account)
              && latest.row == row.number
  {
    if Reported(m, row) == Some((account, latest)) {
      assert row.normalized == Some(MoneyLine(row.normalized.value.money));
    }
  }

  function WithReport(latest: map<Id, Latest>, reported: Option<(Id, Latest)>): map<Id, Latest> {
    if reported.None? then latest
    else
      var (account, candidate) := reported.value;
      if account !in latest || candidate.at > latest[account].at
         || (candidate.at == latest[account].at && candidate.row < latest[account].row)
      then latest[account := candidate] else latest
  }

  lemma LatestOneMore(latest: map<Id, Latest>, m: Master, rows: seq<Staged>, row: Staged)
    requires LatestOf(latest, m, rows)
    ensures LatestOf(WithReport(latest, Reported(m, row)), m, rows + [row])
  {
    hide Reported;
    var next, more := WithReport(latest, Reported(m, row)), rows + [row];
    forall account | account in next
      ensures exists k :: 0 <= k < |more| && Reported(m, more[k]) == Some((account, next[account]))
    {
      if account in latest && next[account] == latest[account] {
        var k :| 0 <= k < |rows| && Reported(m, rows[k]) == Some((account, latest[account]));
        assert Reported(m, more[k]) == Some((account, next[account]));
      } else {
        var (reporting, candidate) := Reported(m, row).value;
        assert account == reporting && next[account] == candidate && more[|rows|] == row;
      }
    }
    forall k | 0 <= k < |more| && Reported(m, more[k]).Some?
      ensures var (account, reported) := Reported(m, more[k]).value;
              account in next && Prevails(next[account], reported)
    {
      if k < |rows| {
        assert Reported(m, rows[k]).Some?;
      }
    }
  }

  // The balances a list of rows reports, one per account.
  function LatestIn(m: Master, rows: seq<Staged>): map<Id, Latest> {
    if rows == [] then map[]
    else WithReport(LatestIn(m, rows[..|rows| - 1]), Reported(m, rows[|rows| - 1]))
  }

  // The selection loop of _create_balance_snapshots.
  method LatestBalances(m: Master, rows: seq<Staged>) returns (latest: map<Id, Latest>)
    ensures LatestOf(latest, m, rows) && latest == LatestIn(m, rows)
  {
    latest := map[];
    assert LatestOf(latest, m, []);
    hide LatestOf, WithReport, Reported;
    for k := 0 to |rows|
      invariant LatestOf(latest, m, rows[..k]) && latest == LatestIn(m, rows[..k])
    {
      assert rows[..k + 1] == rows[..k] + [rows[k]];
      assert rows[..k + 1][..k] == rows[..k];
      LatestOneMore(latest, m, rows[..k], rows[k]);
      latest := WithReport(latest, Reported(m, rows[k]));
    }
    assert rows[..|rows|] == rows;
  }

  // No snapshot on record says otherwise.
  predicate SnapshotsAgree(f: Formal, latest: map<Id, Latest>) {
    forall account :: account in latest && (account, latest[account].at) in f.snapshots ==>
      f.snapshots[(account, latest[account].at)] == latest[account].balance
  }

  ghost predicate SnapshotsTaken(f: Formal, after: Formal, latest: map<Id, Latest>) {
    && after == f.(snapshots := after.snapshots)
    && (forall s :: s in after.snapshots <==> s in f.snapshots || (s.0 in latest && s.1 == latest[s.0].at))
    && (forall s :: s in f.snapshots ==> after.snapshots[s] == f.snapshots[s])
    && (forall account :: account in latest ==> after.snapshots[(account, latest[account].at)] == latest[account].balance)
  }

  // _create_balance_snapshot for every account.
  method TakeSnapshots(f: Formal, latest: map<Id, Latest>) returns (ok: bool, after: Formal)
    ensures ok <==> SnapshotsAgree(f, latest)
    ensures ok ==> SnapshotsTaken(f, after, latest)
  {
    var todo := latest.Keys;
    after := f;
    while todo != {}
      invariant todo <= latest.Keys
      invariant forall account :: account in todo ==>
        ((account, latest[account].at) in after.snapshots <==> (account, latest[account].at) in f.snapshots)
      invariant SnapshotsAgree(f, latest - todo) && SnapshotsTaken(f, after, latest - todo)
      decreases todo
    {
      var account :| account in todo;
      var taken := latest[account];
      assert (latest - (todo - {account})) == (latest - todo)[account := taken];
      if (account, taken.at) in after.snapshots {
        if after.snapshots[(account, taken.at)] != taken.balance {
          assert f.snapshots[(account, taken.at)] != taken.balance;
          return false, f;
        }
      } else {
        after := after.(snapshots := after.snapshots[(account, taken.at) := taken.balance]);
      }
      todo := todo - {account};
    }
    assert latest - todo == latest;
    ok := true;
  }

  // What the other transactions alone make of the ledger.
  function OthersAlone(f: Formal, xs: seq<Interference>): Formal {
    if xs == [] then f
    else MergedAll(MergedAll(OthersAlone(f, xs[..|xs| - 1]), xs[|xs| - 1].before), xs[|xs| - 1].during)
  }

  // The row loop of confirm_batch.
  method ReplayRows(f: Formal, rows: seq<Staged>, xs: seq<Interference>) returns (r: Replayed)
    requires |rows| == |xs|
    ensures r == Replay(f, rows, xs)
  {
    r := Replayed(f, [], 0, 0, false);
    for k := 0 to |rows|
      invariant r == Replay(f, rows[..k], xs[..k]) && !r.failed
    {
      assert rows[..k + 1][..k] == rows[..k] && xs[..k + 1][..k] == xs[..k];
      var c := ConfirmRow(r.formal, rows[k], xs[k]);
      r := Replayed(c.formal, r.rows + [c.row],
             r.duplicates + (if c.outcome.FoundDuplicate? then 1 else 0),
             r.errors + (if c.outcome.FoundConflict? then 1 else 0),
             c.outcome.Failed?);
      if r.failed {
        FailureEnds(f, rows, xs, k + 1);
        return;
      }
    }
    assert rows[..|rows|] == rows && xs[..|rows|] == xs;
  }

  lemma {:induction false} FailureEnds(f: Formal, rows: seq<Staged>, xs: seq<Interference>, k: nat)
    requires |rows| == |xs| && k <= |rows| && Replay(f, rows[..k], xs[..k]).failed
    ensures Replay(f, rows, xs) == Replay(f, rows[..k], xs[..k])
    decreases |rows| - k
  {
    if k == |rows| {
      assert rows[..k] == rows && xs[..k] == xs;
    } else {
      assert rows[..k + 1][..k] == rows[..k] && xs[..k + 1][..k] == xs[..k];
      FailureEnds(f, rows, xs, k + 1);
    }
  }

  lemma TakenIsToldToo(
    f: Formal, rows: seq<Staged>, xs: seq<Interference>, late: seq<Foreign>, final: Formal, latest: map<Id, Latest>)
    requires |rows| == |xs| && !Replay(f, rows, xs).failed
    requires SnapshotsTaken(MergedAll(Replay(f, rows, xs).formal, late), final, latest)
    ensures AllTold(f, rows, xs, Replay(f, rows, xs).rows, final)
  {
    hide AllTold, Replay, MergedAll;
    ConfirmationIsTold(f, rows, xs, late, final);
  }

  // Only bank batches carry balances.
  function BalanceRows(kind: SourceKind, rows: seq<Staged>): seq<Staged> {
    if kind.Bank? then rows else []
  }

  lemma NothingWithoutBalances(kind: SourceKind, rows: seq<Staged>, f: Formal, m: Master)
    requires kind != Bank
    ensures SnapshotsAgree(f, LatestIn(m, BalanceRows(kind, rows)))
    ensures forall after :: SnapshotsTaken(f, after, LatestIn(m, BalanceRows(kind, rows))) ==> after == f
  {
    forall after | SnapshotsTaken(f, after, map[]) ensures after == f {
      assert after.snapshots == f.snapshots;
    }
  }

  // The row loop and the balances: what confirm_batch leaves, or why it fails.
  method PostRows(
    kind: SourceKind, f: Formal, rows: seq<Staged>, xs: seq<Interference>, late: seq<Foreign>, m: Master)
    returns (result: Result<(Replayed, Formal), ImportError>)
    requires |rows| == |xs|
    ensures result == Err(Unresolved) <==> Replay(f, rows, xs).failed
    ensures result == Err(SnapshotConflict) <==>
              var r := Replay(f, rows, xs);
              && !r.failed && !SnapshotsAgree(MergedAll(r.formal, late), LatestIn(m, BalanceRows(kind, r.rows)))
    ensures result.Err? ==> result.error == Unresolved || result.error == SnapshotConflict
    ensures result.Ok? ==>
              var (r, after) := result.value;
              && r == Replay(f, rows, xs)
              && SnapshotsTaken(MergedAll(r.formal, late), after, LatestIn(m, BalanceRows(kind, r.rows)))
              && AllTold(f, rows, xs, r.rows, after)
    // Only bank batches bring balances.
    ensures kind != Bank && result.Err? ==> result.error == Unresolved
    ensures kind != Bank && result.Ok? ==> result.value.1 == MergedAll(Replay(f, rows, xs).formal, late)
  {
    hide Replay, LatestOf, LatestIn, SnapshotsTaken, SnapshotsAgree, MergedAll, BalanceRows, AllTold;
    var r := ReplayRows(f, rows, xs);
    if r.failed {
      return Err(Unresolved);
    }
    var latest := LatestBalances(m, BalanceRows(kind, r.rows));
    if kind != Bank {
      NothingWithoutBalances(kind, r.rows, MergedAll(r.formal, late), m);
    }
    var ok, after := TakeSnapshots(MergedAll(r.formal, late), latest);
    if !ok {
      return Err(SnapshotConflict);
    }
    TakenIsToldToo(f, rows, xs, late, after, latest);
    result := Ok((r, after));
  }

  // The batch after a confirmation that goes through.
  lemma ConfirmedIsValid(b: Batch, f: Formal, xs: seq<Interference>)
    requires BatchValid(b) && !b.confirmed && |xs| == |b.rows| && !Replay(f, b.rows, xs).failed
    ensures var r := Replay(f, b.rows, xs);
            var counters := b.counters.(
              valid := b.counters.valid - r.duplicates - r.errors,
              duplicate := b.counters.duplicate + r.duplicates,
              error := b.counters.error + r.errors);
            BatchValid(Batch.Batch(b.kind, r.rows, counters, if counters.error > 0 then Partial else Completed, true))
  {
    hide Replay, CountPosted, CountPending, CountDuplicates, CountErrors, FreshlyStaged, Pending;
    ReplayConservesRows(f, b.rows, xs);
    FreshCountsAddUp(b.rows);
  }

  class ImportJob {
    var formal: Formal
    var batch: Batch

    ghost predicate Valid()
      reads this
    {
      BatchValid(batch)
    }

    // stage_upload: a batch of previewed rows; the formal ledger is not touched.
    constructor Stage(kind: SourceKind, m: Master, f: Formal, parsed: seq<Parsed>)
      ensures Valid() && formal == f && !batch.confirmed
      ensures batch.kind == kind && batch.rows == StagedRows(kind, m, f, parsed)
    {
      var prepared := PrepareRows(kind, m, f, parsed, |parsed|);
      formal := f;
      batch := Batch.Batch(kind, prepared.value.0, prepared.value.1, Previewed, false);
    }

    // confirm_batch: all of it or none, once, with counters that always add up.
    method Confirm(xs: seq<Interference>, late: seq<Foreign>, m: Master) returns (result: Result<Counters, ImportError>)
      requires Valid() && |xs| == |batch.rows|
      modifies this
      ensures Valid()
      ensures old(batch.confirmed) ==> result == Ok(batch.counters) && batch == old(batch) && formal == old(formal)
      ensures !old(batch.confirmed) && result.Err? ==>
                batch == old(batch) && formal == MergedAll(OthersAlone(old(formal), xs), late)
      ensures !old(batch.confirmed) && result.Ok? ==>
                var r := Replay(old(formal), old(batch.rows), xs);
                && !r.failed && batch.confirmed && batch.rows == r.rows && batch.kind == old(batch.kind)
                && result.value == batch.counters
                && batch.counters == old(batch.counters).(
                     valid := old(batch.counters.valid) - r.duplicates - r.errors,
                     duplicate := old(batch.counters.duplicate) + r.duplicates,
                     error := old(batch.counters.error) + r.errors)
                && SnapshotsTaken(MergedAll(r.formal, late), formal, LatestIn(m, BalanceRows(batch.kind, r.rows)))
      ensures !old(batch.confirmed) && result.Ok? ==>
                AllTold(old(formal), old(batch.rows), xs, batch.rows, formal)
      // Only bank batches bring balances.
      ensures !old(batch.confirmed) && !old(batch.kind).Bank? ==>
                result.Ok? || Replay(old(formal), old(batch.rows), xs).failed
      ensures !old(batch.confirmed) && !old(batch.kind).Bank? && result.Ok? ==>
                formal == MergedAll(Replay(old(formal), old(batch.rows), xs).formal, late)
      ensures !old(batch.confirmed) ==>
                (result == Err(Unresolved) <==> Replay(old(formal), old(batch.rows), xs).failed)
      ensures !old(batch.confirmed) ==>
                var r := Replay(old(formal), old(batch.rows), xs);
                && (result.Ok? <==>
                      !r.failed
                      && SnapshotsAgree(MergedAll(r.formal, late), LatestIn(m, BalanceRows(old(batch.kind), r.rows))))
                && (result.Err? ==> result.error == Unresolved || result.error == SnapshotConflict)
    {
      hide Replay, LatestIn, SnapshotsTaken, SnapshotsAgree, MergedAll, OthersAlone, BalanceRows, AllTold, BatchValid;
      if batch.confirmed {
        return Ok(batch.counters);
      }
      var posted := PostRows(batch.kind, formal, batch.rows, xs, late, m);
      if posted.Err? {
        formal := MergedAll(OthersAlone(formal, xs), late);
        return Err(posted.error);
      }
      var (r, after) := posted.value;
      ConfirmedIsValid(batch, formal, xs);
      formal := after;
      var counters := batch.counters.(
        valid := batch.counters.valid - r.duplicates - r.errors,
        duplicate := batch.counters.duplicate + r.duplicates,
        error := batch.counters.error + r.errors);
      batch := Batch.Batch(batch.kind, r.rows, counters, if counters.error > 0 then Partial else Completed, true);
      result := Ok(counters);
    }
  }

  // Staging, then confirming twice with nobody interfering: the preview was exact, and the second call
  // changes nothing.  The first is refused exactly when a balance on record contradicts the latest one the
  // previewed rows report for its account and moment.
  method ImportUndisturbed(kind: SourceKind, m: Master, f: Formal, parsed: seq<Parsed>)
    returns (preview: Counters, first: Result<Counters, ImportError>, second: Result<Counters, ImportError>,
             before: seq<Staged>, rows: seq<Staged>, after: Formal)
    ensures before == StagedRows(kind, m, f, parsed) && Balanced(preview)
    ensures first.Ok? ==>
              && first.value == preview && second == first && |rows| == |before|
              && forall k :: 0 <= k < |rows| ==> rows[k] == before[k].(posted := Pending(before[k]))
    ensures first.Ok? ==> OverlayAgrees(OverlayOf(kind, m, f, parsed), f, after)
    ensures first.Err? ==> first.error == SnapshotConflict && rows == before && after == f
    ensures first.Ok? <==> SnapshotsAgree(f, LatestIn(m, BalanceRows(kind, AllPosted(before))))
  {
    hide LatestIn, BalanceRows, Replay, StagedRows, OverlayOf, OverlayAgrees, FreshlyStaged, Balanced;
    var job := new ImportJob.Stage(kind, m, f, parsed);
    before, preview := job.batch.rows, job.batch.counters;
    RowsArePredicted(kind, m, f, parsed);
    ReplayKeepsSnapshots(f, before, m);
    assert Replay(f, before, Undisturbed(m, |before|)).rows == AllPosted(before);
    assert MergedAll(Replay(f, before, Undisturbed(m, |before|)).formal, []) == Replay(f, before, Undisturbed(m, |before|)).formal;
    first := job.Confirm(Undisturbed(m, |before|), [], m);
    rows, after := job.batch.rows, job.formal;
    if first.Ok? {
      SnapshotsAreApart(OverlayOf(kind, m, f, parsed), f, Replay(f, before, Undisturbed(m, |before|)).formal, after);
    } else {
      NobodyAlone(f, m, |before|);
    }
    second := job.Confirm(Undisturbed(m, |rows|), [], m);
  }

  lemma SnapshotsAreApart(seen: Overlay, start: Formal, now: Formal, after: Formal)
    requires OverlayAgrees(seen, start, now) && after == now.(snapshots := after.snapshots)
    ensures OverlayAgrees(seen, start, after)
  {
  }

  lemma {:induction false} NobodyAlone(f: Formal, m: Master, n: nat)
    ensures OthersAlone(f, Undisturbed(m, n)) == f
  {
    if n > 0 {
      NobodyAlone(f, m, n - 1);
      assert Undisturbed(m, n)[..n - 1] == Undisturbed(m, n - 1);
    }
  }

  // A bank line staged as valid, whose reported balance of 1 meets a snapshot of 2 on record.

  const BANK_MASTER := Master(map[], map[(BankChannel, "6222") := 0], map[(BankChannel, "ACME", "") := 7])

  const BANK_LINE := MoneyRow(BankChannel, Outflow, 5, 100, Some(1), "6222", "ACME", "", "T1")

  const SNAPSHOT_OF_TWO := Formal(map[], {}, map[(0, 5) := 2], [])

  lemma ContradictedBalanceRefusesTheImport()
    ensures var before := StagedRows(Bank, BANK_MASTER, SNAPSHOT_OF_TWO, [Parsed(1, true, Some(MoneyLine(BANK_LINE)))]);
            && |before| == 1 && Pending(before[0])
            && LatestIn(BANK_MASTER, BalanceRows(Bank, AllPosted(before))) == map[0 := Latest(5, 1, 1)]
            && !SnapshotsAgree(SNAPSHOT_OF_TWO, LatestIn(BANK_MASTER, BalanceRows(Bank, AllPosted(before))))
  {
    var p := Parsed(1, true, Some(MoneyLine(BANK_LINE)));
    StagingOneMore(Bank, BANK_MASTER, SNAPSHOT_OF_TWO, [], p);
    assert [] + [p] == [p];
    var row := Staged(1, Some(MoneyLine(BANK_LINE)), None, false, false);
    assert StagedRows(Bank, BANK_MASTER, SNAPSHOT_OF_TWO, [p]) == [] + [row];
    var posted := row.(posted := true);
    assert AllPosted([row]) == [posted];
    assert [posted][..0] == [];
    assert LatestIn(BANK_MASTER, [posted]) == WithReport(LatestIn(BANK_MASTER, []), Reported(BANK_MASTER, posted));
  }
}

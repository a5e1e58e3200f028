// Importing the same rows twice: after a confirmed import, staging the same rows again finds nothing to post.

module ImportAgain {
  import opened ImportModel

  // The formal ledger once the rows have been staged and confirmed with nobody interfering.
  function Imported(kind: SourceKind, m: Master, f: Formal, parsed: seq<Parsed>): Formal {
    var rows := StagedRows(kind, m, f, parsed);
    Replay(f, rows, Undisturbed(m, |rows|)).formal
  }

  // One row further.
  lemma ImportedStep(kind: SourceKind, m: Master, f: Formal, parsed: seq<Parsed>, p: Parsed)
    ensures Imported(kind, m, f, parsed + [p])
         == ConfirmRow(Imported(kind, m, f, parsed), StageRow(kind, m, f, OverlayOf(kind, m, f, parsed), p),
                       Interference([], [], m)).formal
  {
    var front := StagedRows(kind, m, f, parsed);
    var row := StageRow(kind, m, f, OverlayOf(kind, m, f, parsed), p);
    RowsArePredicted(kind, m, f, parsed);
    StagingOneMore(kind, m, f, parsed, p);
    hide StagedRows, OverlayOf, OverlayAgrees, ConfirmRow, StageRow, Replay;
    ReplayedStep(f, front, Undisturbed(m, |front|), row, Interference([], [], m));
    assert Undisturbed(m, |front| + 1) == Undisturbed(m, |front|) + [Interference([], [], m)];
  }

  lemma ReplayedStep(f: Formal, rows: seq<Staged>, xs: seq<Interference>, row: Staged, x: Interference)
    requires |rows| == |xs| && !Replay(f, rows, xs).failed
    ensures Replay(f, rows + [row], xs + [x]).formal == ConfirmRow(Replay(f, rows, xs).formal, row, x).formal
  {
    hide ConfirmRow;
    assert (rows + [row])[..|rows|] == rows && (xs + [x])[..|xs|] == xs;
  }

  lemma ImportedOneMore(kind: SourceKind, m: Master, f: Formal, parsed: seq<Parsed>, p: Parsed)
    ensures OneWay(Imported(kind, m, f, parsed), Imported(kind, m, f, parsed + [p]))
    ensures OverlayAgrees(OverlayOf(kind, m, f, parsed + [p]), f, Imported(kind, m, f, parsed + [p]))
  {
    hide StagedRows, OverlayOf, OneWay, OverlayAgrees, ConfirmRow, StageRow, Replay;
    RowsArePredicted(kind, m, f, parsed + [p]);
    ImportedStep(kind, m, f, parsed, p);
    RowMovesOneWay(Imported(kind, m, f, parsed), StageRow(kind, m, f, OverlayOf(kind, m, f, parsed), p), Interference([], [], m));
  }

  lemma {:induction false} LaterImportIsOneWay(kind: SourceKind, m: Master, f: Formal, parsed: seq<Parsed>, k: nat)
    requires k <= |parsed|
    ensures OneWay(Imported(kind, m, f, parsed[..k]), Imported(kind, m, f, parsed))
    decreases |parsed| - k
  {
    if k == |parsed| {
      assert parsed[..k] == parsed;
      return;
    }
    hide Imported, OneWay;
    assert parsed[..k + 1] == parsed[..k] + [parsed[k]];
    ImportedOneMore(kind, m, f, parsed[..k], parsed[k]);
    LaterImportIsOneWay(kind, m, f, parsed, k + 1);
    OneWayTwice(Imported(kind, m, f, parsed[..k]), Imported(kind, m, f, parsed[..k + 1]), Imported(kind, m, f, parsed));
  }

  // The two stagings side by side: the second overlay foretells the ledger it started from, and where the
  // import left the ledger alone the overlays are the same.
  ghost predicate SideBySide(first: Overlay, second: Overlay, f: Formal, g: Formal) {
    && Keyed(first) && Keyed(second)
    && (forall k :: k in second ==> Foretells(second[k], g))
    && (forall k :: SameAt(f, g, k) ==> (k in first <==> k in second) && (k in first ==> first[k] == second[k]))
  }

  // What the first staging of a row says about the ledger after the whole import: the row, unless in
  // conflict, is in it, and a status away from normal stays.
  ghost predicate Absorbed(f: Formal, first: Overlay, g: Formal, n: Normalized)
    requires Keyed(first)
  {
    var k := KeyOf(n);
    match n
    case MoneyLine(r) => FingerprintOf(r) in g.money
    case InvoiceLine(r) =>
      && k in g.invoices
      && (!StageDisposition(f, first, n).Conflict? && !r.status.Normal? ==> !g.invoices[k].status.Normal?)
      && (StageDisposition(f, first, n).Conflict? && k in first ==>
            var previous := first[k].invoice;
            && g.invoices[k].business == previous.business
            && (g.invoices[k].names.None? || g.invoices[k].names.value == previous.names)
            && (g.invoices[k].status.Normal? ==> previous.status.Normal?))
      && (k in f.invoices ==>
            && g.invoices[k] == f.invoices[k].(status := g.invoices[k].status)
            && (g.invoices[k].status.Normal? ==> f.invoices[k].status.Normal?))
      && (k !in f.invoices ==> g.invoices[k].names.Some?)
  }

  // Hence the second staging never finds the row new, nor a status to move.
  lemma AbsorbedIsNotPending(f: Formal, g: Formal, first: Overlay, second: Overlay, n: Normalized)
    requires SideBySide(first, second, f, g) && Absorbed(f, first, g, n)
    ensures StageDisposition(g, second, n).Duplicate? || StageDisposition(g, second, n).Conflict?
  {
    var k := KeyOf(n);
    if k in second {
      assert Foretells(second[k], g);
    }
    if n.InvoiceLine? && SameAt(f, g, k) {
      assert StageDisposition(g, second, n) == StageDisposition(f, first, n);
    }
  }

  lemma SecondRow(
    kind: SourceKind, m: Master, f: Formal, g: Formal, first: Overlay, second: Overlay, p: Parsed)
    requires SideBySide(first, second, f, g)
    requires Sound(kind, m, p) ==> Absorbed(f, first, g, p.normalized.value)
    ensures !Pending(StageRow(kind, m, g, second, p))
    ensures SideBySide(SeenAfter(kind, m, f, first, p), SeenAfter(kind, m, g, second, p), f, g)
  {
    if Sound(kind, m, p) {
      var n := p.normalized.value;
      AbsorbedIsNotPending(f, g, first, second, n);
      var k := KeyOf(n);
      if SameAt(f, g, k) {
        assert StageDisposition(g, second, n) == StageDisposition(f, first, n);
      }
      if k in second {
        assert Foretells(second[k], g);
      }
      if StageDisposition(g, second, n).Duplicate? {
        assert Foretells(n, g);
      }
    }
  }

  // An invoice the import created came with its names.
  lemma {:induction false} CreatedWithNames(kind: SourceKind, m: Master, f: Formal, parsed: seq<Parsed>, k: RowKey)
    requires k !in f.invoices && k in Imported(kind, m, f, parsed).invoices
    ensures Imported(kind, m, f, parsed).invoices[k].names.Some?
  {
    if parsed != [] {
      var n := |parsed| - 1;
      var front := parsed[..n];
      var row := StageRow(kind, m, f, OverlayOf(kind, m, f, front), parsed[n]);
      assert parsed == front + [parsed[n]];
      ImportedStep(kind, m, f, front, parsed[n]);
      if k in Imported(kind, m, f, front).invoices {
        CreatedWithNames(kind, m, f, front, k);
      }
      RowKeepsNames(Imported(kind, m, f, front), row, m, k);
    }
  }

  lemma RowKeepsNames(f: Formal, row: Staged, m: Master, k: RowKey)
    ensures var after := ConfirmRow(f, row, Interference([], [], m)).formal;
            k in after.invoices && (k in f.invoices ==> f.invoices[k].names.Some?) ==> after.invoices[k].names.Some?
  {
  }

  lemma RowIsAbsorbed(kind: SourceKind, m: Master, f: Formal, parsed: seq<Parsed>, j: nat)
    requires j < |parsed| && Sound(kind, m, parsed[j])
    ensures Absorbed(f, OverlayOf(kind, m, f, parsed[..j]), Imported(kind, m, f, parsed), parsed[j].normalized.value)
  {
    var n, g := parsed[j].normalized.value, Imported(kind, m, f, parsed);
    var before, after := Imported(kind, m, f, parsed[..j]), Imported(kind, m, f, parsed[..j + 1]);
    assert parsed[..j + 1] == parsed[..j] + [parsed[j]];
    assert parsed[..j + 1][..j] == parsed[..j];
    RowsArePredicted(kind, m, f, parsed[..j]);
    ImportedOneMore(kind, m, f, parsed[..j], parsed[j]);
    LaterImportIsOneWay(kind, m, f, parsed, j);
    LaterImportIsOneWay(kind, m, f, parsed, j + 1);
    ReplayMovesOneWay(f, StagedRows(kind, m, f, parsed), Undisturbed(m, |parsed|));
    if KeyOf(n) !in f.invoices && KeyOf(n) in g.invoices {
      CreatedWithNames(kind, m, f, parsed, KeyOf(n));
    }
    RowEndsUp(kind, m, f, OverlayOf(kind, m, f, parsed[..j]), OverlayOf(kind, m, f, parsed[..j + 1]), before, after, g, parsed[j]);
  }

  lemma RowEndsUp(
    kind: SourceKind, m: Master, f: Formal, first: Overlay, next: Overlay, before: Formal, after: Formal, g: Formal, p: Parsed)
    requires Sound(kind, m, p) && Keyed(first) && next == SeenAfter(kind, m, f, first, p)
    requires OverlayAgrees(first, f, before) && OverlayAgrees(next, f, after)
    requires OneWay(before, g) && OneWay(after, g) && OneWay(f, g)
    requires KeyOf(p.normalized.value) !in f.invoices && KeyOf(p.normalized.value) in g.invoices ==>
               g.invoices[KeyOf(p.normalized.value)].names.Some?
    ensures Absorbed(f, first, g, p.normalized.value)
  {
    var n := p.normalized.value;
    var k := KeyOf(n);
    if !StageDisposition(f, first, n).Conflict? {
      assert k in next && next[k] == n && Foretells(next[k], after);
    } else if k in first {
      assert Foretells(first[k], before);
    }
  }

  lemma {:induction false} StagingAgain(kind: SourceKind, m: Master, f: Formal, parsed: seq<Parsed>, j: nat)
    requires j <= |parsed|
    ensures var g := Imported(kind, m, f, parsed);
            && SideBySide(OverlayOf(kind, m, f, parsed[..j]), OverlayOf(kind, m, g, parsed[..j]), f, g)
            && forall i :: 0 <= i < j ==> !Pending(StagedRows(kind, m, g, parsed[..j])[i])
  {
    if j > 0 {
      var g := Imported(kind, m, f, parsed);
      hide Imported, SideBySide, Absorbed, Pending, StageRow, SeenAfter;
      StagingAgain(kind, m, f, parsed, j - 1);
      assert parsed[..j][..j - 1] == parsed[..j - 1];
      if Sound(kind, m, parsed[j - 1]) {
        RowIsAbsorbed(kind, m, f, parsed, j - 1);
      }
      SecondRow(kind, m, f, g, OverlayOf(kind, m, f, parsed[..j - 1]), OverlayOf(kind, m, g, parsed[..j - 1]), parsed[j - 1]);
    }
  }

  // The same rows a second time: every row is a duplicate or in error, none is left to post.
  lemma ImportingAgainPostsNothing(kind: SourceKind, m: Master, f: Formal, parsed: seq<Parsed>)
    ensures var again := StagedRows(kind, m, Imported(kind, m, f, parsed), parsed);
            && (forall i :: 0 <= i < |again| ==> !Pending(again[i]))
            && CountDuplicates(again) + CountErrors(again) == |parsed|
  {
    var g := Imported(kind, m, f, parsed);
    StagingAgain(kind, m, f, parsed, |parsed|);
    assert parsed[..|parsed|] == parsed;
    StagingIsFresh(kind, m, g, parsed);
    FreshCountsAddUp(StagedRows(kind, m, g, parsed));
    NothingPendingCounts(StagedRows(kind, m, g, parsed));
  }

  lemma {:induction false} NothingPendingCounts(rows: seq<Staged>)
    requires forall i :: 0 <= i < |rows| ==> !Pending(rows[i])
    ensures CountPending(rows) == 0
  {
    if rows != [] {
      NothingPendingCounts(rows[..|rows| - 1]);
    }
  }
}

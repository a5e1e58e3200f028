// The concurrent writers refine the atomic ledger: every commit is one atomic step, valid against the ledger at
// that very moment, because what a transaction decides on is held by its locks.

module LedgerConcurrency {
  import opened Common
  import opened LedgerModel
  import opened LedgerConservation
  import opened Settlements
  import opened LedgerEvents
  import opened LedgerWriters

  // The atomic ledger: the only ways its committed content may change.
  ghost predicate LedgerStep(before: Db, after: Db) {
    after == before || exists t: Timed :: Allowed(before, t.event) && after == Next(before, t)
  }

  // The invariant of the protocol.

  predicate Owns(s: State, p: Pid, row: Row) {
    row in s.owner && s.owner[row] == p
  }

  function RowOf(k: Key): Row {
    match k case InvoiceKey(i) => InvoiceRow(i) case MoneyKey(m) => MoneyRow(m)
  }

  // Every record a transaction has seen is locked by it and still as it saw it.
  predicate SeesTruth(s: State, p: Pid, pr: Proc) {
    && (forall i :: i in pr.seenInvoices ==>
          && i in pr.invoices && Owns(s, p, InvoiceRow(i))
          && i in s.db.invoices && s.db.invoices[i] == pr.seenInvoices[i])
    && (forall m :: m in pr.seenMoney ==>
          && m in pr.money && Owns(s, p, MoneyRow(m))
          && m in s.db.money && s.db.money[m] == pr.seenMoney[m])
  }

  predicate HasReadInvoices(pr: Proc) {
    !pr.job.ReverseJob? && (pr.phase.ReadingMoney? || pr.phase.Deciding?)
  }

  predicate HasReadMoney(pr: Proc) {
    !pr.job.ReverseJob? && pr.phase.Deciding?
  }

  // The sums it has read of records it holds are still the sums.
  predicate SumsHold(s: State, pr: Proc) {
    && (HasReadInvoices(pr) ==>
          && pr.invoiceAllocated.Keys == pr.invoices
          && forall i :: i in pr.seenInvoices && i in pr.invoiceAllocated ==>
               pr.invoiceAllocated[i] == Allocated(s.db.recons, InvoiceKey(i), Now))
    && (HasReadMoney(pr) ==>
          && pr.moneyAllocated.Keys == pr.money
          && forall m :: m in pr.seenMoney && m in pr.moneyAllocated ==>
               pr.moneyAllocated[m] == Allocated(s.db.recons, MoneyKey(m), Now))
  }

  // A reversal and a confirmation see every record they are about, in order.
  predicate SeesAll(pr: Proc) {
    !pr.job.CreateJob? ==>
      && (forall i :: i in pr.invoices ==>
            || i in pr.seenInvoices || pr.phase.LockingBatch?
            || (pr.phase.LockingInvoices? && InvoiceRow(i) in pr.wanted))
      && (forall m :: m in pr.money ==>
            || m in pr.seenMoney || pr.phase.LockingBatch? || pr.phase.LockingInvoices?
            || (pr.phase.LockingMoney? && MoneyRow(m) in pr.wanted))
  }

  // A reversal comes to hold the reconciliation itself.
  predicate ReversalHolds(s: State, p: Pid, pr: Proc) {
    pr.job.ReverseJob? && pr.job.target < |s.db.recons| ==>
      var target := pr.job.target;
      && (pr.phase.LockingRecons? ==> Owns(s, p, ReconRow(target)) || ReconRow(target) in pr.wanted)
      && (!Locking(pr.phase) ==> Owns(s, p, ReconRow(target)))
      && (pr.phase.ReadingMoney? || pr.phase.Deciding? ==> (pr.sawReversal <==> s.db.recons[target].reversedAt.Some?))
  }

  predicate AfterOccupied(phase: Phase) {
    phase.ReadingInvoiceOpen? || AfterInvoiceOpen(phase)
  }

  predicate AfterInvoiceOpen(phase: Phase) {
    || phase.ReadingMoneyOpen? || phase.LockingLines? || phase.LockingRecons?
    || phase.ReadingInvoices? || phase.ReadingMoney? || phase.Deciding?
  }

  predicate AfterMoneyOpen(phase: Phase) {
    AfterInvoiceOpen(phase) && !phase.ReadingMoneyOpen?
  }

  ghost predicate NoneOccupied(db: Db, batch: nat, invoices: set<Id>, money: set<Id>) {
    && (forall i :: i in invoices ==> !Occupied(db, batch, InvoiceKey(i)))
    && (forall m :: m in money ==> !Occupied(db, batch, MoneyKey(m)))
  }

  // A confirmation holds its batch from the first lock on, and what it found of its items is still so.
  ghost predicate ConfirmHolds(s: State, p: Pid, pr: Proc) {
    pr.job.ConfirmJob? && pr.job.id < |s.db.batches| ==>
      && (pr.seenBatch.Some? ==> Owns(s, p, BatchRow(pr.job.id)) && s.db.batches[pr.job.id] == pr.seenBatch.value)
      && (pr.seenBatch.Some? || (pr.phase.LockingBatch? && BatchRow(pr.job.id) in pr.wanted))
      && (AfterOccupied(pr.phase) ==> (pr.occupied <==> !NoneOccupied(s.db, pr.job.id, pr.invoices, pr.money)))
      && (AfterInvoiceOpen(pr.phase) ==> pr.invoices <= pr.invoiceOpen.Keys)
      && (AfterMoneyOpen(pr.phase) ==> pr.money <= pr.moneyOpen.Keys)
      && (!AfterOccupied(pr.phase) ==> pr.invoiceOpen == map[])
      && (AfterOccupied(pr.phase) ==>
            forall i :: i in pr.invoiceOpen ==>
              i in pr.invoices && i in s.db.invoices && pr.invoiceOpen[i] == Open(s.db, InvoiceKey(i)))
      && (!AfterInvoiceOpen(pr.phase) ==> pr.moneyOpen == map[])
      && (AfterInvoiceOpen(pr.phase) ==>
            forall m :: m in pr.moneyOpen ==>
              m in pr.money && m in s.db.money && pr.moneyOpen[m] == Open(s.db, MoneyKey(m)))
  }

  predicate JobKeys(s: State, pr: Proc) {
    Aimed(s.db, pr.job) && pr.invoices == InvoicesOf(s.db, pr.job) && pr.money == MoneyOf(s.db, pr.job)
  }

  predicate OnlyConfirming(phase: Phase) {
    phase.LockingBatch? || phase.CheckingOccupied? || phase.ReadingInvoiceOpen? || phase.ReadingMoneyOpen?
  }

  ghost predicate WantedFits(pr: Proc) {
    && (!Locking(pr.phase) ==> pr.wanted == {})
    && (forall b :: BatchRow(b) in pr.wanted ==> pr.job.ConfirmJob? && b == pr.job.id)
    && (forall i :: InvoiceRow(i) in pr.wanted ==> pr.phase.LockingInvoices? && i in pr.invoices)
    && (forall m :: MoneyRow(m) in pr.wanted ==> pr.phase.LockingMoney? && m in pr.money)
    && (OnlyConfirming(pr.phase) ==> pr.job.ConfirmJob?)
  }

  ghost predicate ProcInv(s: State, p: Pid, pr: Proc) {
    && JobKeys(s, pr) && WantedFits(pr) && SeesTruth(s, p, pr) && SeesAll(pr) && SumsHold(s, pr)
    && ReversalHolds(s, p, pr) && ConfirmHolds(s, p, pr)
  }

  ghost predicate Inv(s: State) {
    && Consistent(s.db) && SettledWhole(s.db)
    && (forall row :: row in s.owner ==> s.owner[row] in s.procs)
    && (forall p :: p in s.procs ==> ProcInv(s, p, s.procs[p]))
  }

  lemma InvOf(s: State, p: Pid)
    requires Inv(s) && p in s.procs
    ensures ProcInv(s, p, s.procs[p]) && Consistent(s.db)
  {
  }

  // A commit touches only records its transaction holds.

  lemma CommittedLinesAreHeld(s: State, p: Pid, pr: Proc, a: Allocation)
    requires ProcInv(s, p, pr) && Resolved(pr) && a in Lines(s.db, pr.job)
    ensures Owns(s, p, InvoiceRow(a.invoice)) && Owns(s, p, MoneyRow(a.money))
  {
    assert a.invoice in InvoiceIds(Lines(s.db, pr.job)) && a.money in MoneyIds(Lines(s.db, pr.job));
    hide Accepts, Consistent, ConfirmHolds, SumsHold, ReversalHolds, InvoiceIds, MoneyIds, SeenOpenFits;
    if pr.job.CreateJob? {
      AcceptedReadingCovers(ReadingSoFar(pr), pr.job.q);
    }
  }

  lemma CommitMovesOnlyItsLines(db: Db, job: Job, at: int, k: Key)
    requires Aimed(db, job) && (job.ReverseJob? ==> CanReverse(db, job.target))
    requires forall a :: a in Lines(db, job) ==> !Touches(a, k)
    ensures Allocated(Committed(db, job, at).recons, k, Now) == Allocated(db.recons, k, Now)
  {
    UntouchedSums(Lines(db, job), k);
    match job
    case CreateJob(q) => AllocatedAppend(db.recons, NewReconciliation(q, at), k, Now);
    case ReverseJob(target) =>
      AllocatedUpdate(db.recons, target, db.recons[target].(reversedAt := Some(at)), k, Now);
    case ConfirmJob(id, allocations, _) =>
      AllocatedAppend(db.recons, NewReconciliation(BatchRequest(db.batches[id], id, allocations), at), k, Now);
  }

  // Nor does it occupy or free anything else.
  lemma CommitOccupiesOnlyItsLines(db: Db, job: Job, at: int, batch: nat, k: Key)
    requires Aimed(db, job) && forall a :: a in Lines(db, job) ==> !Touches(a, k)
    ensures Occupied(Committed(db, job, at), batch, k) <==> Occupied(db, batch, k)
  {
    var next := Committed(db, job, at);
    if Occupied(db, batch, k) {
      var r :| r in db.recons && OccupiedBy(r, batch, k);
      var j :| 0 <= j < |db.recons| && db.recons[j] == r;
      assert next.recons[j] == r;
      assert r in next.recons;
    }
    if Occupied(next, batch, k) {
      var r :| r in next.recons && OccupiedBy(r, batch, k);
      assert r in db.recons;
    }
  }

  // What another transaction holds, a commit does not move.
  lemma HeldElsewhereIsUnmoved(s: State, p: Pid, pr: Proc, at: int, other: Pid, k: Key)
    requires ProcInv(s, p, pr) && Resolved(pr) && other != p && Owns(s, other, RowOf(k))
    ensures var next := Committed(s.db, pr.job, at);
            && Allocated(next.recons, k, Now) == Allocated(s.db.recons, k, Now)
            && forall batch :: Occupied(next, batch, k) <==> Occupied(s.db, batch, k)
  {
    ResolvedReversal(s, p, pr);
    forall a | a in Lines(s.db, pr.job) ensures !Touches(a, k) {
      CommittedLinesAreHeld(s, p, pr, a);
    }
    hide Committed, Occupied, ProcInv, Resolved, Owns;
    CommitMovesOnlyItsLines(s.db, pr.job, at, k);
    forall batch ensures Occupied(Committed(s.db, pr.job, at), batch, k) <==> Occupied(s.db, batch, k) {
      CommitOccupiesOnlyItsLines(s.db, pr.job, at, batch, k);
    }
  }

  lemma ResolvedReversal(s: State, p: Pid, pr: Proc)
    requires ProcInv(s, p, pr) && Resolved(pr)
    ensures Aimed(s.db, pr.job)
    ensures pr.job.ReverseJob? ==> CanReverse(s.db, pr.job.target) && Owns(s, p, ReconRow(pr.job.target))
    ensures pr.job.ConfirmJob? ==> Owns(s, p, BatchRow(pr.job.id))
  {
    hide SumsHold, SeesTruth, SeesAll, Accepts, NoneOccupied, WantedFits;
  }

  // What a transaction has read of records it holds is what a single reading at this very moment would give.
  lemma ReadingIsCurrent(s: State, p: Pid, pr: Proc, q: CreateRequest)
    requires !pr.job.ReverseJob? && pr.phase.Deciding?
    requires pr.invoices == InvoiceIds(q.allocations) && pr.money == MoneyIds(q.allocations)
    requires SeesTruth(s, p, pr) && SumsHold(s, pr)
    requires Covers(ReadingSoFar(pr), q)
    ensures ReadingOf(s.db, q.allocations) == ReadingSoFar(pr)
  {
    var now := ReadingOf(s.db, q.allocations);
    assert now.invoices == pr.seenInvoices;
    assert now.money == pr.seenMoney;
    assert now.invoiceAllocated == pr.invoiceAllocated;
    assert now.moneyAllocated == pr.moneyAllocated;
  }

  lemma AcceptedReadingCovers(r: Reading, q: CreateRequest)
    requires Complete(r, q.allocations) && Accepts(r, q)
    ensures Covers(r, q)
  {
  }

  lemma AcceptedReadingCreates(db: Db, q: CreateRequest, r: Reading)
    requires ModeFits(q) && q.allocations != []
    requires Complete(r, q.allocations) && Accepts(r, q) && ReadingOf(db, q.allocations) == r
    ensures CanCreate(db, q)
  {
  }

  // The decision, taken on what was read while the locks were collected, is right for the database as it
  // is at the commit.

  lemma CreationIsCurrent(s: State, p: Pid, pr: Proc)
    requires ProcInv(s, p, pr) && Resolved(pr) && pr.job.CreateJob?
    ensures CanCreate(s.db, pr.job.q)
  {
    hide CanCreate, Accepts, ConfirmHolds;
    AcceptedReadingCovers(ReadingSoFar(pr), pr.job.q);
    ReadingIsCurrent(s, p, pr, pr.job.q);
    AcceptedReadingCreates(s.db, pr.job.q, ReadingSoFar(pr));
  }

  lemma SeenBatchIsCurrent(s: State, p: Pid, pr: Proc)
    requires ProcInv(s, p, pr) && Resolved(pr) && pr.job.ConfirmJob?
    ensures pr.job.id < |s.db.batches|
    ensures var b := s.db.batches[pr.job.id];
            && pr.seenBatch == Some(b) && b.invoices == pr.invoices && b.money == pr.money
            && ItemsKnown(s.db, b) && RecordsFit(s.db, b)
  {
    hide Accepts, NoneOccupied, Open, SumsHold, ReversalHolds, InvoiceIds, MoneyIds, SeenOpenFits, NoPairTwice, WantedFits;
  }

  lemma ItemIsCurrent(s: State, p: Pid, pr: Proc, k: Key)
    requires ProcInv(s, p, pr) && Resolved(pr) && pr.job.ConfirmJob?
    requires match k case InvoiceKey(i) => i in pr.invoices case MoneyKey(m) => m in pr.money
    ensures Aimed(s.db, pr.job) && Exists(s.db, k) && !Occupied(s.db, pr.job.id, k)
    ensures Open(s.db, k) > 0 && AllocSum(pr.job.allocations, k) == Open(s.db, k)
  {
    hide Accepts, Occupied, Open, SumsHold, ReversalHolds, InvoiceIds, MoneyIds, AllocSum, NoPairTwice, SeesTruth, SeesAll,
         SeenRecordsFit, WantedFits;
  }

  lemma ResolvedLines(pr: Proc)
    requires Resolved(pr) && pr.job.ConfirmJob?
    ensures pr.seenBatch.Some?
    ensures var b, allocations := pr.seenBatch.value, pr.job.allocations;
            && NoPairTwice(allocations) && b.invoices != {} && b.money != {} && allocations != []
            && InvoiceIds(allocations) == b.invoices && MoneyIds(allocations) == b.money
  {
    hide Accepts, SeenRecordsFit, SeenOpenFits, InvoiceIds, MoneyIds, NoPairTwice;
  }

  lemma BatchIsCurrent(s: State, p: Pid, pr: Proc)
    requires ProcInv(s, p, pr) && Resolved(pr) && pr.job.ConfirmJob?
    ensures pr.job.id < |s.db.batches|
    ensures var b := s.db.batches[pr.job.id];
            && pr.seenBatch == Some(b) && b.invoices == pr.invoices && b.money == pr.money
            && ItemsKnown(s.db, b) && RecordsFit(s.db, b)
            && LinesFitBatch(s.db, pr.job.id, pr.job.allocations)
  {
    SeenBatchIsCurrent(s, p, pr);
    ResolvedLines(pr);
    hide *;
    var b := s.db.batches[pr.job.id];
    forall k | ItemOf(b, k)
      ensures !Occupied(s.db, pr.job.id, k) && Exists(s.db, k) && Open(s.db, k) > 0
      ensures AllocSum(pr.job.allocations, k) == Open(s.db, k)
    {
      assert match k case InvoiceKey(i) => i in pr.invoices case MoneyKey(m) => m in pr.money by {
        ItemsOfBatch(b, k);
      }
      ItemIsCurrent(s, p, pr, k);
    }
    LinesFitItems(s.db, pr.job.id, pr.job.allocations);
  }

  lemma ItemsOfBatch(b: Batch, k: Key)
    ensures ItemOf(b, k) <==> match k case InvoiceKey(i) => i in b.invoices case MoneyKey(m) => m in b.money
  {
  }

  lemma ConfirmationIsCurrent(s: State, p: Pid, pr: Proc)
    requires ProcInv(s, p, pr) && Resolved(pr) && pr.job.ConfirmJob?
    ensures pr.job.id < |s.db.batches| && ItemsKnown(s.db, s.db.batches[pr.job.id])
    ensures CanConfirm(s.db, pr.job.id, pr.job.allocations, pr.job.version)
  {
    BatchIsCurrent(s, p, pr);
    hide CanCreate, Accepts, ConfirmHolds, LinesFitBatch, RecordsFit, SeenRecordsFit, SeenOpenFits, InvoiceIds, MoneyIds;
    var q := BatchRequest(s.db.batches[pr.job.id], pr.job.id, pr.job.allocations);
    AcceptedReadingCovers(ReadingSoFar(pr), q);
    ReadingIsCurrent(s, p, pr, q);
    AcceptedReadingCreates(s.db, q, ReadingSoFar(pr));
  }

  // The event a commit amounts to.
  function EventOf(job: Job): Event {
    match job
    case CreateJob(q) => Creates(q)
    case ReverseJob(target) => Reverses(target)
    case ConfirmJob(id, allocations, version) => Confirms(id, allocations, version)
  }

  lemma DecisionIsCurrent(s: State, p: Pid, pr: Proc, at: int)
    requires ProcInv(s, p, pr) && Resolved(pr)
    ensures Aimed(s.db, pr.job) && Allowed(s.db, EventOf(pr.job))
    ensures Committed(s.db, pr.job, at) == Next(s.db, Timed(at, EventOf(pr.job)))
  {
    hide *;
    ResolvedReversal(s, p, pr);
    if pr.job.CreateJob? {
      CreationIsCurrent(s, p, pr);
      ResolvedCreation(pr);
      CreationIsAllowed(s.db, pr.job);
    } else if pr.job.ConfirmJob? {
      ConfirmationIsCurrent(s, p, pr);
      ConfirmationIsAllowed(s.db, pr.job);
    } else {
      ReversalIsAllowed(s.db, pr.job);
    }
    CommittedIsNext(s.db, pr.job, at);
  }

  // And a refusal is right, too: a transaction that has seen every record it is about commits if and only if the
  // ledger, as it is at that moment, allows it.

  predicate HasSeenAll(pr: Proc) {
    pr.invoices <= pr.seenInvoices.Keys && pr.money <= pr.seenMoney.Keys
  }

  lemma SeenReadingIsCurrent(s: State, p: Pid, pr: Proc, q: CreateRequest)
    requires ProcInv(s, p, pr) && pr.phase.Deciding? && !pr.job.ReverseJob? && HasSeenAll(pr)
    requires pr.invoices == InvoiceIds(q.allocations) && pr.money == MoneyIds(q.allocations)
    ensures Complete(ReadingSoFar(pr), q.allocations) && ReadingOf(s.db, q.allocations) == ReadingSoFar(pr)
  {
    hide JobKeys, WantedFits, SeesAll, ReversalHolds, ConfirmHolds, InvoiceIds, MoneyIds, Allocated;
    ReadingIsCurrent(s, p, pr, q);
  }

  lemma AllowedCreationResolves(s: State, p: Pid, pr: Proc)
    requires ProcInv(s, p, pr) && pr.phase.Deciding? && pr.job.CreateJob? && HasSeenAll(pr)
    requires Allowed(s.db, EventOf(pr.job))
    ensures Resolved(pr)
  {
    SeenReadingIsCurrent(s, p, pr, pr.job.q);
    hide Accepts, SeesTruth, SeesAll, SumsHold, ReversalHolds, ConfirmHolds;
  }

  lemma AllowedReversalResolves(s: State, p: Pid, pr: Proc)
    requires ProcInv(s, p, pr) && pr.phase.Deciding? && pr.job.ReverseJob?
    requires Allowed(s.db, EventOf(pr.job))
    ensures Resolved(pr)
  {
    hide SeesTruth, SeesAll, SumsHold, ConfirmHolds, WantedFits;
  }

  lemma AllowedConfirmationResolves(s: State, p: Pid, pr: Proc)
    requires ProcInv(s, p, pr) && pr.phase.Deciding? && pr.job.ConfirmJob?
    requires Allowed(s.db, EventOf(pr.job))
    ensures Resolved(pr)
  {
    var b := s.db.batches[pr.job.id];
    ConfirmerHasSeenAll(s, p, pr);
    SeenReadingIsCurrent(s, p, pr, BatchRequest(b, pr.job.id, pr.job.allocations));
    AllowedBatchChecks(s, p, pr);
    hide Accepts, BatchChecks, SeesTruth, SeesAll, SumsHold, ReversalHolds, LinesFitBatch, RecordsFit, NoneOccupied;
  }

  lemma ConfirmerHasSeenAll(s: State, p: Pid, pr: Proc)
    requires ProcInv(s, p, pr) && pr.phase.Deciding? && pr.job.ConfirmJob?
    ensures HasSeenAll(pr)
    ensures pr.job.id < |s.db.batches| && pr.seenBatch == Some(s.db.batches[pr.job.id])
    ensures pr.invoices == s.db.batches[pr.job.id].invoices && pr.money == s.db.batches[pr.job.id].money
  {
    hide SumsHold, ReversalHolds, NoneOccupied, Open;
  }

  lemma AllowedBatchChecks(s: State, p: Pid, pr: Proc)
    requires ProcInv(s, p, pr) && pr.phase.Deciding? && pr.job.ConfirmJob?
    requires Allowed(s.db, EventOf(pr.job))
    ensures BatchChecks(pr, pr.job.allocations, pr.job.version)
  {
    ConfirmerHasSeenAll(s, p, pr);
    AllowedRecordsFit(s, p, pr);
    AllowedOpenFits(s, p, pr);
    NobodyElse(s, p, pr);
    hide CanCreate, SeenRecordsFit, SeenOpenFits, ProcInv, NoPairTwice, InvoiceIds, MoneyIds, RecordsFit, Occupied, Open;
  }

  lemma AllowedConfirmation(db: Db, job: Job)
    requires job.ConfirmJob? && Allowed(db, EventOf(job))
    ensures job.id < |db.batches| && ItemsKnown(db, db.batches[job.id]) && RecordsFit(db, db.batches[job.id])
    ensures forall k :: ItemOf(db.batches[job.id], k) ==>
              && Exists(db, k) && !Occupied(db, job.id, k) && Open(db, k) > 0
              && AllocSum(job.allocations, k) == Open(db, k)
  {
    hide CanCreate, RecordsFit, Occupied, Open, AllocSum, NoPairTwice, InvoiceIds, MoneyIds;
  }

  lemma AllowedRecordsFit(s: State, p: Pid, pr: Proc)
    requires ProcInv(s, p, pr) && pr.phase.Deciding? && pr.job.ConfirmJob?
    requires Allowed(s.db, EventOf(pr.job))
    ensures pr.job.id < |s.db.batches| && SeenRecordsFit(pr, s.db.batches[pr.job.id])
  {
    hide JobKeys, WantedFits, SeesAll, SumsHold, ReversalHolds, ConfirmHolds, Allowed, Occupied, Open, InvoiceFitsBatch,
         MoneyFitsBatch;
    ConfirmerHasSeenAll(s, p, pr);
    AllowedConfirmation(s.db, pr.job);
  }

  lemma OpenIsRead(s: State, p: Pid, pr: Proc)
    requires ProcInv(s, p, pr) && pr.phase.Deciding? && pr.job.ConfirmJob?
    ensures forall i :: i in pr.invoices ==>
              i in s.db.invoices && i in pr.invoiceOpen && pr.invoiceOpen[i] == Open(s.db, InvoiceKey(i))
    ensures forall m :: m in pr.money ==>
              m in s.db.money && m in pr.moneyOpen && pr.moneyOpen[m] == Open(s.db, MoneyKey(m))
  {
    hide WantedFits, SeesTruth, SeesAll, SumsHold, ReversalHolds, NoneOccupied, Open;
  }

  lemma AllowedOpenFits(s: State, p: Pid, pr: Proc)
    requires ProcInv(s, p, pr) && pr.phase.Deciding? && pr.job.ConfirmJob?
    requires Allowed(s.db, EventOf(pr.job))
    ensures SeenOpenFits(pr, pr.job.allocations)
  {
    hide ProcInv, Allowed, Open, Occupied, AllocSum, RecordsFit;
    ConfirmerHasSeenAll(s, p, pr);
    AllowedConfirmation(s.db, pr.job);
    OpenIsRead(s, p, pr);
    var b := s.db.batches[pr.job.id];
    assert forall i :: i in pr.invoices ==> ItemOf(b, InvoiceKey(i));
    assert forall m :: m in pr.money ==> ItemOf(b, MoneyKey(m));
  }

  lemma NobodyElse(s: State, p: Pid, pr: Proc)
    requires ProcInv(s, p, pr) && pr.phase.Deciding? && pr.job.ConfirmJob?
    requires Allowed(s.db, EventOf(pr.job))
    ensures !pr.occupied
  {
    hide JobKeys, WantedFits, SeesTruth, SeesAll, SumsHold, ReversalHolds, Allowed, Occupied, Open, RecordsFit;
    ConfirmerHasSeenAll(s, p, pr);
    AllowedConfirmation(s.db, pr.job);
    var b := s.db.batches[pr.job.id];
    assert forall i :: i in pr.invoices ==> ItemOf(b, InvoiceKey(i));
    assert forall m :: m in pr.money ==> ItemOf(b, MoneyKey(m));
  }

  lemma DecisionIsExact(s: State, p: Pid, pr: Proc)
    requires ProcInv(s, p, pr) && pr.phase.Deciding? && (pr.job.CreateJob? ==> HasSeenAll(pr))
    ensures Resolved(pr) <==> Allowed(s.db, EventOf(pr.job))
  {
    hide *;
    if Resolved(pr) {
      DecisionIsCurrent(s, p, pr, 0);
    } else if Allowed(s.db, EventOf(pr.job)) {
      if pr.job.CreateJob? {
        AllowedCreationResolves(s, p, pr);
      } else if pr.job.ReverseJob? {
        AllowedReversalResolves(s, p, pr);
      } else {
        AllowedConfirmationResolves(s, p, pr);
      }
    }
  }

  lemma CreationIsAllowed(db: Db, job: Job)
    requires job.CreateJob? && CanCreate(db, job.q) && job.q.batch.None?
    ensures Allowed(db, EventOf(job))
  {
  }

  lemma ReversalIsAllowed(db: Db, job: Job)
    requires job.ReverseJob? && CanReverse(db, job.target)
    ensures Allowed(db, EventOf(job))
  {
  }

  lemma ConfirmationIsAllowed(db: Db, job: Job)
    requires job.ConfirmJob? && job.id < |db.batches| && ItemsKnown(db, db.batches[job.id])
    requires CanConfirm(db, job.id, job.allocations, job.version)
    ensures Allowed(db, EventOf(job))
  {
  }

  lemma CommittedIsNext(db: Db, job: Job, at: int)
    requires Aimed(db, job) && Allowed(db, EventOf(job))
    ensures Committed(db, job, at) == Next(db, Timed(at, EventOf(job)))
  {
    hide CanCreate, CanConfirm, CanReverse;
  }

  lemma ResolvedCreation(pr: Proc)
    requires Resolved(pr) && pr.job.CreateJob?
    ensures pr.job.q.batch.None?
  {
    hide Accepts;
  }

  // Every step of every interleaving is an atomic ledger step or leaves the ledger alone.
  lemma StepRefinesLedger(s: State, step: Step)
    requires Inv(s) && Enabled(s, step)
    ensures LedgerStep(s.db, Apply(s, step).db)
  {
    hide Allowed, Next, Consistent, SettledWhole, Committed, Resolved, ProcInv;
    match step
    case Commit(p, at) =>
      InvOf(s, p);
      DecisionIsCurrent(s, p, s.procs[p], at);
      assert Apply(s, step).db == Next(s.db, Timed(at, EventOf(s.procs[p].job)));
    case Other(t) => assert Apply(s, step).db == Next(s.db, t);
    case _ => assert Apply(s, step).db == s.db;
  }

  lemma LedgerStepKeepsConsistent(before: Db, after: Db)
    requires Consistent(before) && SettledWhole(before) && LedgerStep(before, after)
    ensures Consistent(after) && SettledWhole(after)
  {
    hide Consistent, SettledWhole, Allowed, Next;
    if after != before {
      var t: Timed :| Allowed(before, t.event) && after == Next(before, t);
      NextKeepsConsistent(before, t);
      NextKeepsSettledWhole(before, t);
    }
  }

  // Each transaction's part of the invariant survives whatever the others do.

  // From the point of view of p: its locks, the records under them, their sums and their occupation are as they
  // were, no reconciliation's lines and no batch's items change.
  ghost predicate Respects(s: State, next: State, p: Pid) {
    && (forall row :: Owns(s, p, row) ==> Owns(next, p, row))
    && |s.db.recons| <= |next.db.recons|
    && (forall r :: 0 <= r < |s.db.recons| ==> next.db.recons[r].allocations == s.db.recons[r].allocations)
    && |s.db.batches| <= |next.db.batches|
    && (forall b :: 0 <= b < |s.db.batches| ==>
          next.db.batches[b].invoices == s.db.batches[b].invoices && next.db.batches[b].money == s.db.batches[b].money)
    && (forall i :: Owns(s, p, InvoiceRow(i)) && i in s.db.invoices ==>
          i in next.db.invoices && next.db.invoices[i] == s.db.invoices[i])
    && (forall m :: Owns(s, p, MoneyRow(m)) && m in s.db.money ==>
          m in next.db.money && next.db.money[m] == s.db.money[m])
    && (forall k :: Owns(s, p, RowOf(k)) ==> Undisturbed(s.db, next.db, k))
    && (forall r: nat :: r < |s.db.recons| && Owns(s, p, ReconRow(r)) ==> next.db.recons[r] == s.db.recons[r])
    && (forall b: nat :: b < |s.db.batches| && Owns(s, p, BatchRow(b)) ==> next.db.batches[b] == s.db.batches[b])
  }

  ghost predicate Undisturbed(db: Db, next: Db, k: Key) {
    && Allocated(next.recons, k, Now) == Allocated(db.recons, k, Now)
    && forall batch :: Occupied(next, batch, k) <==> Occupied(db, batch, k)
  }

  lemma RespectedKeys(s: State, next: State, p: Pid, pr: Proc)
    requires JobKeys(s, pr) && Respects(s, next, p)
    ensures JobKeys(next, pr)
  {
    hide Undisturbed;
    if !pr.job.ConfirmJob? {
      assert Lines(next.db, pr.job) == Lines(s.db, pr.job);
    }
  }

  lemma RespectedSight(s: State, next: State, p: Pid, pr: Proc)
    requires SeesTruth(s, p, pr) && SumsHold(s, pr) && ReversalHolds(s, p, pr) && Aimed(s.db, pr.job) && Respects(s, next, p)
    ensures SeesTruth(next, p, pr) && SumsHold(next, pr) && ReversalHolds(next, p, pr)
  {
    forall i | i in pr.seenInvoices ensures Allocated(next.db.recons, InvoiceKey(i), Now) == Allocated(s.db.recons, InvoiceKey(i), Now) {
      assert Owns(s, p, RowOf(InvoiceKey(i)));
      assert Undisturbed(s.db, next.db, InvoiceKey(i));
    }
    forall m | m in pr.seenMoney ensures Allocated(next.db.recons, MoneyKey(m), Now) == Allocated(s.db.recons, MoneyKey(m), Now) {
      assert Owns(s, p, RowOf(MoneyKey(m)));
      assert Undisturbed(s.db, next.db, MoneyKey(m));
    }
    hide Undisturbed, Allocated;
  }

  lemma RespectedConfirmation(s: State, next: State, p: Pid, pr: Proc)
    requires ConfirmHolds(s, p, pr) && SeesTruth(s, p, pr) && SeesAll(pr) && JobKeys(s, pr) && WantedFits(pr)
    requires Respects(s, next, p)
    ensures ConfirmHolds(next, p, pr)
  {
    hide Occupied, Allocated;
    if pr.job.ConfirmJob? && AfterOccupied(pr.phase) {
      forall i | i in pr.invoices
        ensures i in s.db.invoices && i in next.db.invoices && next.db.invoices[i] == s.db.invoices[i]
        ensures Undisturbed(s.db, next.db, InvoiceKey(i))
      {
        assert Owns(s, p, RowOf(InvoiceKey(i)));
      }
      forall m | m in pr.money
        ensures m in s.db.money && m in next.db.money && next.db.money[m] == s.db.money[m]
        ensures Undisturbed(s.db, next.db, MoneyKey(m))
      {
        assert Owns(s, p, RowOf(MoneyKey(m)));
      }
    }
  }

  lemma UndisturbedKeepsInv(s: State, next: State, p: Pid, pr: Proc)
    requires ProcInv(s, p, pr) && Respects(s, next, p)
    ensures ProcInv(next, p, pr)
  {
    hide JobKeys, SeesTruth, SumsHold, SeesAll, ReversalHolds, ConfirmHolds, WantedFits, Respects, Aimed;
    RespectedKeys(s, next, p, pr);
    AimedByKeys(s, pr);
    RespectedSight(s, next, p, pr);
    RespectedConfirmation(s, next, p, pr);
  }

  lemma AimedByKeys(s: State, pr: Proc)
    requires JobKeys(s, pr)
    ensures Aimed(s.db, pr.job)
  {
  }

  predicate Acts(step: Step, p: Pid) {
    match step
    case Begin(q, _) => p == q
    case Lock(q, _) => p == q
    case NextPhase(q) => p == q
    case Read(q) => p == q
    case ReadOpen(q, _) => p == q
    case Commit(q, _) => p == q
    case Abort(q) => p == q
    case Other(_) => false
  }

  // Locks alone keep the writers apart: no step of one disturbs what another holds.
  lemma StepRespectsOthers(s: State, step: Step, p: Pid)
    requires Inv(s) && Enabled(s, step) && !Acts(step, p)
    ensures Respects(s, Apply(s, step), p)
  {
    LocksStay(s, step, p);
    match step {
      case Commit(q, at) =>
        InvOf(s, q);
        CommitRespectsOthers(s, Apply(s, step), q, s.procs[q], at, p);
      case Other(t) => OthersRespect(s, Apply(s, step), t, p);
      case _ =>
        DbStays(s, step);
        SameDbRespects(s, Apply(s, step), p);
    }
    hide *;
  }

  lemma LocksStay(s: State, step: Step, p: Pid)
    requires Enabled(s, step) && !Acts(step, p)
    ensures forall row :: Owns(s, p, row) ==> Owns(Apply(s, step), p, row)
  {
    hide Resolved, Allowed, Committed, Next, Moved, Locked, WithRead, Fresh;
  }

  lemma DbStays(s: State, step: Step)
    requires Enabled(s, step) && !step.Commit? && !step.Other?
    ensures Apply(s, step).db == s.db
  {
  }

  lemma SameDbRespects(s: State, next: State, p: Pid)
    requires next.db == s.db && forall row :: Owns(s, p, row) ==> Owns(next, p, row)
    ensures Respects(s, next, p)
  {
    hide Occupied, Allocated, Owns;
  }

  lemma OthersRespect(s: State, next: State, t: Timed, p: Pid)
    requires Enabled(s, Other(t)) && next.db == Next(s.db, t)
    requires forall row :: Owns(s, p, row) ==> Owns(next, p, row)
    ensures Respects(s, next, p)
  {
    hide Occupied, Allocated, CanCreate, CanConfirm;
    assert Next(s.db, t).recons == s.db.recons;
    OccupiedByRecons(s.db, Next(s.db, t));
  }

  lemma OccupiedByRecons(db: Db, next: Db)
    requires next.recons == db.recons
    ensures forall batch, k :: Occupied(next, batch, k) <==> Occupied(db, batch, k)
  {
  }

  lemma CommitRespectsOthers(s: State, next: State, p: Pid, pr: Proc, at: int, other: Pid)
    requires ProcInv(s, p, pr) && Resolved(pr) && other != p && next.db == Committed(s.db, pr.job, at)
    requires forall row :: Owns(s, other, row) ==> Owns(next, other, row)
    ensures Respects(s, next, other)
  {
    hide Resolved, ProcInv, Committed, Allocated, Occupied;
    ResolvedReversal(s, p, pr);
    CommitChangesOnlyItsTarget(s.db, pr.job, at);
    forall k | Owns(s, other, RowOf(k)) ensures Undisturbed(s.db, next.db, k) {
      HeldElsewhereIsUnmoved(s, p, pr, at, other, k);
    }
    hide Undisturbed;
  }

  lemma CommitChangesOnlyItsTarget(db: Db, job: Job, at: int)
    requires Aimed(db, job)
    ensures var next := Committed(db, job, at);
            && next.invoices == db.invoices && next.money == db.money
            && |db.recons| <= |next.recons| && |db.batches| == |next.batches|
            && (forall r :: 0 <= r < |db.recons| ==> next.recons[r].allocations == db.recons[r].allocations)
            && (forall r :: 0 <= r < |db.recons| && (job.ReverseJob? ==> r != job.target) ==> next.recons[r] == db.recons[r])
            && (forall b :: 0 <= b < |db.batches| ==>
                  next.batches[b].invoices == db.batches[b].invoices && next.batches[b].money == db.batches[b].money)
            && (forall b :: 0 <= b < |db.batches| && (job.ConfirmJob? ==> b != job.id) ==> next.batches[b] == db.batches[b])
  {
  }

  // Each of a transaction's own steps keeps its part.

  // The records of a reversal or a confirmation are there to be locked.
  ghost predicate RowsExist(db: Db, pr: Proc) {
    !pr.job.CreateJob? ==> pr.invoices <= db.invoices.Keys && pr.money <= db.money.Keys
  }

  lemma ReversalLinesExist(db: Db, target: nat)
    requires Consistent(db) && target < |db.recons|
    ensures InvoiceIds(db.recons[target].allocations) <= db.invoices.Keys
    ensures MoneyIds(db.recons[target].allocations) <= db.money.Keys
  {
    var lines := db.recons[target].allocations;
    assert Recorded(db, db.recons[target]);
    forall i | i in InvoiceIds(lines) ensures i in db.invoices {
      var a := InvoiceIdWitness(lines, i);
    }
    forall m | m in MoneyIds(lines) ensures m in db.money {
      var a := MoneyIdWitness(lines, m);
    }
  }

  lemma RowsOfJobExist(s: State, pr: Proc)
    requires Consistent(s.db) && JobKeys(s, pr)
    ensures RowsExist(s.db, pr)
  {
    if pr.job.ReverseJob? {
      ReversalLinesExist(s.db, pr.job.target);
    }
  }

  lemma BeginKeepsInv(s: State, p: Pid, job: Job)
    requires Inv(s) && Enabled(s, Begin(p, job))
    ensures var next := Apply(s, Begin(p, job)); ProcInv(next, p, next.procs[p])
  {
    var next := Apply(s, Begin(p, job));
    var pr := Fresh(s.db, job);
    assert Consistent(s.db) && next.procs[p] == pr && next.db == s.db;
    hide Consistent, SettledWhole, InvoiceIds, MoneyIds, Inv;
    assert JobKeys(next, pr);
    RowsOfJobExist(next, pr);
  }

  // Locking.

  // What a lock changes of its transaction.
  lemma LockedFrame(db: Db, pr: Proc, row: Row)
    ensures var after := Locked(db, pr, row);
            && after.job == pr.job && after.phase == pr.phase
            && after.invoices == pr.invoices && after.money == pr.money && after.wanted == pr.wanted - {row}
            && after.occupied == pr.occupied && after.invoiceOpen == pr.invoiceOpen && after.moneyOpen == pr.moneyOpen
            && after.invoiceAllocated == pr.invoiceAllocated && after.moneyAllocated == pr.moneyAllocated
            && after.sawReversal == pr.sawReversal
  {
  }

  lemma LockedSeen(db: Db, pr: Proc, row: Row)
    ensures var after := Locked(db, pr, row);
            && after.seenBatch == (if row.BatchRow? && row.batch < |db.batches|
                                   then Some(db.batches[row.batch]) else pr.seenBatch)
            && after.seenInvoices == (if row.InvoiceRow? && row.id in db.invoices
                                      then pr.seenInvoices[row.id := db.invoices[row.id]] else pr.seenInvoices)
            && after.seenMoney == (if row.MoneyRow? && row.id in db.money
                                   then pr.seenMoney[row.id := db.money[row.id]] else pr.seenMoney)
  {
  }

  lemma LockKeepsSight(s: State, p: Pid, pr: Proc, row: Row, next: State)
    requires SeesTruth(s, p, pr) && WantedFits(pr) && row in pr.wanted
    requires next.db == s.db && next.owner == s.owner[row := p]
    ensures SeesTruth(next, p, Locked(s.db, pr, row))
  {
    assert row.InvoiceRow? ==> row.id in pr.invoices;
    assert row.MoneyRow? ==> row.id in pr.money;
    hide WantedFits, Locked;
    LockedFrame(s.db, pr, row);
    LockedSeen(s.db, pr, row);
  }

  lemma LockKeepsWants(db: Db, pr: Proc, row: Row)
    requires WantedFits(pr) && row in pr.wanted
    ensures WantedFits(Locked(db, pr, row))
  {
    LockedFrame(db, pr, row);
    hide Locked;
  }

  lemma LockKeepsSums(s: State, pr: Proc, row: Row, next: State)
    requires SumsHold(s, pr) && WantedFits(pr) && row in pr.wanted && next.db == s.db
    ensures SumsHold(next, Locked(s.db, pr, row))
  {
    assert Locking(pr.phase);
    hide Locked, WantedFits, Allocated;
    LockedFrame(s.db, pr, row);
  }

  lemma LockKeepsSeeing(db: Db, pr: Proc, row: Row)
    requires SeesAll(pr) && RowsExist(db, pr) && WantedFits(pr) && row in pr.wanted
    ensures SeesAll(Locked(db, pr, row))
  {
    LockedFrame(db, pr, row);
    LockedSeen(db, pr, row);
    hide Locked;
  }

  lemma LockKeepsReversal(s: State, p: Pid, pr: Proc, row: Row, next: State)
    requires ReversalHolds(s, p, pr) && WantedFits(pr) && row in pr.wanted
    requires next.db == s.db && next.owner == s.owner[row := p]
    ensures ReversalHolds(next, p, Locked(s.db, pr, row))
  {
    assert Locking(pr.phase);
    hide Locked, WantedFits;
    LockedFrame(s.db, pr, row);
  }

  lemma LockKeepsConfirmation(s: State, p: Pid, pr: Proc, row: Row, next: State)
    requires ConfirmHolds(s, p, pr) && WantedFits(pr) && row in pr.wanted
    requires next.db == s.db && next.owner == s.owner[row := p]
    ensures ConfirmHolds(next, p, Locked(s.db, pr, row))
  {
    assert row.BatchRow? ==> row.batch == pr.job.id;
    hide WantedFits, Locked, NoneOccupied, Open;
    LockedFrame(s.db, pr, row);
    LockedSeen(s.db, pr, row);
  }

  lemma LockKeepsKeys(s: State, next: State, pr: Proc, row: Row)
    requires JobKeys(s, pr) && next.db == s.db
    ensures JobKeys(next, Locked(s.db, pr, row))
  {
    LockedFrame(s.db, pr, row);
    hide InvoicesOf, MoneyOf, Aimed, Locked;
  }

  lemma LockKeepsInv(s: State, p: Pid, row: Row)
    requires Inv(s) && Enabled(s, Lock(p, row))
    ensures var next := Apply(s, Lock(p, row)); ProcInv(next, p, next.procs[p])
  {
    var pr, next := s.procs[p], Apply(s, Lock(p, row));
    InvOf(s, p);
    assert row in pr.wanted && next.db == s.db && next.owner == s.owner[row := p] && next.procs[p] == Locked(s.db, pr, row);
    hide Inv, Consistent, SettledWhole, JobKeys, WantedFits, SeesTruth, SeesAll, SumsHold, ReversalHolds, ConfirmHolds,
         RowsExist, Locked, Apply, Enabled;
    RowsOfJobExist(s, pr);
    LockKeepsSight(s, p, pr, row, next);
    LockKeepsWants(s.db, pr, row);
    LockKeepsSums(s, pr, row, next);
    LockKeepsSeeing(s.db, pr, row);
    LockKeepsReversal(s, p, pr, row, next);
    LockKeepsConfirmation(s, p, pr, row, next);
    LockKeepsKeys(s, next, pr, row);
  }

  // Going on to the next phase, after locking or reading.

  // What a finished phase has established, beside the invariant.
  ghost predicate PhaseDone(s: State, pr: Proc) {
    && pr.wanted == {}
    && (pr.phase.ReadingInvoices? && !pr.job.ReverseJob? ==> pr.invoiceAllocated == SumsOf(s.db, pr.invoices, true))
    && (pr.phase.ReadingMoney? && !pr.job.ReverseJob? ==> pr.moneyAllocated == SumsOf(s.db, pr.money, false))
    && (pr.phase.ReadingInvoices? && pr.job.ReverseJob? && Aimed(s.db, pr.job) ==>
          (pr.sawReversal <==> s.db.recons[pr.job.target].reversedAt.Some?))
    && (pr.phase.CheckingOccupied? && pr.job.ConfirmJob? ==>
          (pr.occupied <==> !NoneOccupied(s.db, pr.job.id, pr.invoices, pr.money)))
    && (pr.phase.ReadingInvoiceOpen? ==> pr.invoices <= pr.invoiceOpen.Keys)
    && (pr.phase.ReadingMoneyOpen? ==> pr.money <= pr.moneyOpen.Keys)
  }

  lemma MoveKeepsWants(db: Db, pr: Proc)
    requires WantedFits(pr) && !pr.phase.Deciding?
    ensures WantedFits(Moved(db, pr))
  {
  }

  lemma MoveKeepsSums(s: State, pr: Proc)
    requires SumsHold(s, pr) && PhaseDone(s, pr) && !pr.phase.Deciding?
    ensures SumsHold(s, Moved(s.db, pr))
  {
    hide Allocated, Wanted, NoneOccupied;
  }

  lemma MoveKeepsSeeing(db: Db, pr: Proc)
    requires SeesAll(pr) && RowsExist(db, pr) && pr.wanted == {} && WantedFits(pr)
    ensures SeesAll(Moved(db, pr))
  {
  }

  lemma MoveKeepsReversal(s: State, p: Pid, pr: Proc)
    requires ReversalHolds(s, p, pr) && PhaseDone(s, pr) && WantedFits(pr) && Aimed(s.db, pr.job)
    ensures ReversalHolds(s, p, Moved(s.db, pr))
  {
    hide NoneOccupied, SumsOf;
  }

  lemma MoveKeepsConfirmation(s: State, p: Pid, pr: Proc)
    requires ConfirmHolds(s, p, pr) && PhaseDone(s, pr)
    ensures ConfirmHolds(s, p, Moved(s.db, pr))
  {
    hide NoneOccupied, SumsOf, Open, Wanted;
  }

  lemma MoveKeepsInv(s: State, p: Pid, pr: Proc)
    requires ProcInv(s, p, pr) && Consistent(s.db) && PhaseDone(s, pr) && !pr.phase.Deciding?
    ensures ProcInv(s, p, Moved(s.db, pr))
  {
    AimedByKeys(s, pr);
    assert pr.wanted == {};
    RowsOfJobExist(s, pr);
    MoveKeepsWants(s.db, pr);
    MoveKeepsSums(s, pr);
    MoveKeepsSeeing(s.db, pr);
    MoveKeepsReversal(s, p, pr);
    MoveKeepsConfirmation(s, p, pr);
    MoveKeepsKeysAndSight(s, p, pr);
    hide JobKeys, WantedFits, SeesTruth, SeesAll, SumsHold, ReversalHolds, ConfirmHolds, Moved;
  }

  lemma MoveKeepsKeysAndSight(s: State, p: Pid, pr: Proc)
    requires JobKeys(s, pr) && SeesTruth(s, p, pr)
    ensures JobKeys(s, Moved(s.db, pr)) && SeesTruth(s, p, Moved(s.db, pr))
  {
    hide InvoicesOf, MoneyOf, Wanted;
  }

  lemma HolderKeepsInv(s: State, next: State, p: Pid, pr: Proc)
    requires ProcInv(s, p, pr) && next.db == s.db && next.owner == s.owner
    ensures ProcInv(next, p, pr)
  {
    assert forall row :: Owns(s, p, row) ==> Owns(next, p, row);
    SameDbRespects(s, next, p);
    UndisturbedKeepsInv(s, next, p, pr);
  }

  lemma NextPhaseEffect(s: State, p: Pid)
    requires Enabled(s, NextPhase(p))
    ensures var next := Apply(s, NextPhase(p));
            && p in s.procs && PhaseOver(s.procs[p])
            && next.db == s.db && next.owner == s.owner && p in next.procs && next.procs[p] == Moved(s.db, s.procs[p])
  {
    hide Moved, PhaseOver;
  }

  lemma PhaseOverIsDone(s: State, pr: Proc)
    requires PhaseOver(pr) && WantedFits(pr)
    ensures PhaseDone(s, pr) && !pr.phase.Deciding?
  {
  }

  lemma NextPhaseKeepsInv(s: State, p: Pid)
    requires Inv(s) && Enabled(s, NextPhase(p))
    ensures var next := Apply(s, NextPhase(p)); p in next.procs && ProcInv(next, p, next.procs[p])
  {
    hide Inv, Consistent, SettledWhole, Moved, PhaseOver, PhaseDone, Apply, Enabled, JobKeys, WantedFits, SeesTruth,
         SeesAll, SumsHold, ReversalHolds, ConfirmHolds;
    NextPhaseEffect(s, p);
    InvOf(s, p);
    PhaseOverIsDone(s, s.procs[p]);
    MoveKeepsInv(s, p, s.procs[p]);
    HolderKeepsInv(s, Apply(s, NextPhase(p)), p, Moved(s.db, s.procs[p]));
  }

  // Reading.

  lemma OccupiedMeansTouched(db: Db, batch: nat, invoices: set<Id>, money: set<Id>, k: Key)
    requires match k case InvoiceKey(i) => i in invoices case MoneyKey(m) => m in money
    requires Occupied(db, batch, k)
    ensures TouchedByOthers(db, batch, invoices, money)
  {
    var r :| r in db.recons && OccupiedBy(r, batch, k);
    var a :| a in r.allocations && Touches(a, k);
    assert a.invoice in invoices || a.money in money;
  }

  lemma TouchedMeansOccupied(db: Db, batch: nat, invoices: set<Id>, money: set<Id>)
    requires TouchedByOthers(db, batch, invoices, money)
    ensures !NoneOccupied(db, batch, invoices, money)
  {
    var r :| r in db.recons && r.reversedAt.None? && r.batch != Some(batch)
             && exists a :: a in r.allocations && (a.invoice in invoices || a.money in money);
    var a :| a in r.allocations && (a.invoice in invoices || a.money in money);
    if a.invoice in invoices {
      assert OccupiedBy(r, batch, InvoiceKey(a.invoice));
    } else {
      assert OccupiedBy(r, batch, MoneyKey(a.money));
    }
  }

  // The one occupancy query asks about all items at once.
  lemma TouchedIsOccupied(db: Db, batch: nat, invoices: set<Id>, money: set<Id>)
    ensures TouchedByOthers(db, batch, invoices, money) <==> !NoneOccupied(db, batch, invoices, money)
  {
    hide Occupied, TouchedByOthers;
    if TouchedByOthers(db, batch, invoices, money) {
      TouchedMeansOccupied(db, batch, invoices, money);
    }
    forall i | i in invoices && Occupied(db, batch, InvoiceKey(i)) ensures TouchedByOthers(db, batch, invoices, money) {
      OccupiedMeansTouched(db, batch, invoices, money, InvoiceKey(i));
    }
    forall m | m in money && Occupied(db, batch, MoneyKey(m)) ensures TouchedByOthers(db, batch, invoices, money) {
      OccupiedMeansTouched(db, batch, invoices, money, MoneyKey(m));
    }
  }

  lemma ReadIsDone(s: State, pr: Proc)
    requires Aimed(s.db, pr.job) && WantedFits(pr) && Reads(pr.phase)
    ensures PhaseDone(s, WithRead(s.db, pr))
  {
    if pr.phase.CheckingOccupied? {
      TouchedIsOccupied(s.db, pr.job.id, pr.invoices, pr.money);
    }
    hide NoneOccupied, TouchedByOthers, SumsOf;
  }

  // A reading changes nothing that an earlier phase has established.
  lemma ReadKeepsEarlier(s: State, p: Pid, pr: Proc)
    requires ProcInv(s, p, pr) && Aimed(s.db, pr.job) && Reads(pr.phase)
    ensures ProcInv(s, p, WithRead(s.db, pr))
  {
    hide JobKeys, WantedFits, SeesTruth, SeesAll, SumsHold, ReversalHolds, ConfirmHolds, Aimed, WithRead;
    ReadKeepsRows(s, p, pr);
    ReadKeepsSums(s, pr);
    ReadKeepsConfirmation(s, p, pr);
  }

  lemma ReadKeepsRows(s: State, p: Pid, pr: Proc)
    requires JobKeys(s, pr) && WantedFits(pr) && SeesTruth(s, p, pr) && SeesAll(pr) && ReversalHolds(s, p, pr)
    requires Aimed(s.db, pr.job) && Reads(pr.phase)
    ensures var read := WithRead(s.db, pr);
            && JobKeys(s, read) && WantedFits(read) && SeesTruth(s, p, read) && SeesAll(read) && ReversalHolds(s, p, read)
  {
    hide TouchedByOthers, InvoicesOf, MoneyOf, SumsOf;
  }

  lemma ReadKeepsSums(s: State, pr: Proc)
    requires SumsHold(s, pr) && Aimed(s.db, pr.job) && Reads(pr.phase)
    ensures SumsHold(s, WithRead(s.db, pr))
  {
    hide TouchedByOthers, Allocated;
  }

  lemma ReadKeepsConfirmation(s: State, p: Pid, pr: Proc)
    requires ConfirmHolds(s, p, pr) && Aimed(s.db, pr.job) && Reads(pr.phase)
    ensures ConfirmHolds(s, p, WithRead(s.db, pr))
  {
    hide TouchedByOthers, Open, NoneOccupied, SumsOf;
  }

  lemma ReadKeepsInv(s: State, p: Pid)
    requires Inv(s) && Enabled(s, Read(p))
    ensures var next := Apply(s, Read(p)); ProcInv(next, p, next.procs[p])
  {
    var pr, next := s.procs[p], Apply(s, Read(p));
    InvOf(s, p);
    assert Aimed(s.db, pr.job) && Reads(pr.phase) && WantedFits(pr);
    var read := WithRead(s.db, pr);
    assert read.phase == pr.phase;
    assert next.db == s.db && next.owner == s.owner && next.procs[p] == Moved(s.db, read);
    hide Inv, ProcInv, Consistent, Moved, WithRead, WithOpen, PhaseDone, Apply, Enabled;
    ReadIsDone(s, pr);
    ReadKeepsEarlier(s, p, pr);
    MoveKeepsInv(s, p, read);
    HolderKeepsInv(s, next, p, Moved(s.db, read));
  }

  // Reading what is open of one item.

  lemma OpenKeepsConfirmation(s: State, p: Pid, pr: Proc, id: Id)
    requires ConfirmHolds(s, p, pr) && WantedFits(pr)
    requires pr.phase.ReadingInvoiceOpen? ==> id in pr.invoices && id in s.db.invoices
    requires pr.phase.ReadingMoneyOpen? ==> id in pr.money && id in s.db.money
    ensures ConfirmHolds(s, p, WithOpen(s.db, pr, id))
  {
    hide Open, NoneOccupied;
  }

  lemma OpenKeepsTheRest(s: State, p: Pid, pr: Proc, id: Id)
    requires ProcInv(s, p, pr)
    ensures var read := WithOpen(s.db, pr, id);
            && JobKeys(s, read) && WantedFits(read) && SeesTruth(s, p, read) && SeesAll(read) && SumsHold(s, read)
            && ReversalHolds(s, p, read)
  {
    hide ConfirmHolds, InvoicesOf, MoneyOf, Open, Allocated;
  }

  lemma OpenEffect(s: State, p: Pid, id: Id)
    requires Enabled(s, ReadOpen(p, id))
    ensures p in s.procs
    ensures var pr, next := s.procs[p], Apply(s, ReadOpen(p, id));
            && (pr.phase.ReadingInvoiceOpen? ==> id in pr.invoices && id in s.db.invoices)
            && (pr.phase.ReadingMoneyOpen? ==> id in pr.money && id in s.db.money)
            && next.db == s.db && next.owner == s.owner && p in next.procs && next.procs[p] == WithOpen(s.db, pr, id)
  {
    hide WithOpen;
  }

  lemma OpenKeepsInv(s: State, p: Pid, id: Id)
    requires Inv(s) && Enabled(s, ReadOpen(p, id))
    ensures var next := Apply(s, ReadOpen(p, id)); p in next.procs && ProcInv(next, p, next.procs[p])
  {
    hide Inv, Consistent, SettledWhole, Apply, Enabled, WithOpen, JobKeys, WantedFits, SeesTruth, SeesAll, SumsHold,
         ReversalHolds, ConfirmHolds;
    OpenEffect(s, p, id);
    InvOf(s, p);
    OpenKeepsConfirmation(s, p, s.procs[p], id);
    OpenKeepsTheRest(s, p, s.procs[p], id);
    HolderKeepsInv(s, Apply(s, ReadOpen(p, id)), p, WithOpen(s.db, s.procs[p], id));
  }

  lemma OwnStepKeepsInv(s: State, step: Step, p: Pid)
    requires Inv(s) && Enabled(s, step) && Acts(step, p)
    ensures var next := Apply(s, step); p in next.procs ==> ProcInv(next, p, next.procs[p])
  {
    hide Inv, ProcInv, Moved, WithRead, WithOpen, Committed, Locked, Fresh, Resolved, Allowed;
    match step
    case Begin(_, job) => BeginKeepsInv(s, p, job);
    case Lock(_, row) => LockKeepsInv(s, p, row);
    case NextPhase(_) => NextPhaseKeepsInv(s, p);
    case Read(_) => ReadKeepsInv(s, p);
    case ReadOpen(_, id) => OpenKeepsInv(s, p, id);
    case _ =>
  }

  lemma OtherProcsStay(s: State, step: Step, p: Pid)
    requires Enabled(s, step) && !Acts(step, p) && p in Apply(s, step).procs
    ensures p in s.procs && Apply(s, step).procs[p] == s.procs[p]
  {
    hide Moved, WithRead, WithOpen, Committed, Locked, Fresh, Resolved, Allowed, Next;
  }

  lemma StepKeepsProcs(s: State, step: Step, p: Pid)
    requires Inv(s) && Enabled(s, step) && p in Apply(s, step).procs
    ensures ProcInv(Apply(s, step), p, Apply(s, step).procs[p])
  {
    hide *;
    if Acts(step, p) {
      OwnStepKeepsInv(s, step, p);
    } else {
      OtherProcsStay(s, step, p);
      InvOf(s, p);
      StepRespectsOthers(s, step, p);
      UndisturbedKeepsInv(s, Apply(s, step), p, s.procs[p]);
    }
  }

  lemma LocksHaveHolders(s: State, step: Step)
    requires Enabled(s, step) && forall row :: row in s.owner ==> s.owner[row] in s.procs
    ensures var next := Apply(s, step); forall row :: row in next.owner ==> next.owner[row] in next.procs
  {
    hide Moved, WithRead, WithOpen, Committed, Locked, Fresh, Resolved, Allowed, Next;
  }

  lemma StepKeepsInv(s: State, step: Step)
    requires Inv(s) && Enabled(s, step)
    ensures Inv(Apply(s, step))
  {
    hide Consistent, SettledWhole, ProcInv, Enabled, Apply, LedgerStep;
    StepRefinesLedger(s, step);
    LedgerStepKeepsConsistent(s.db, Apply(s, step).db);
    LocksHaveHolders(s, step);
    forall p | p in Apply(s, step).procs ensures ProcInv(Apply(s, step), p, Apply(s, step).procs[p]) {
      StepKeepsProcs(s, step, p);
    }
  }

  // Runs.

  ghost predicate IsRun(states: seq<State>, steps: seq<Step>) {
    && |states| == |steps| + 1
    && Consistent(states[0].db) && SettledWhole(states[0].db) && states[0].owner == map[] && states[0].procs == map[]
    && forall i :: 0 <= i < |steps| ==> Enabled(states[i], steps[i]) && states[i + 1] == Apply(states[i], steps[i])
  }

  lemma {:induction false} RunKeepsInv(states: seq<State>, steps: seq<Step>, i: nat)
    requires IsRun(states, steps) && i < |states|
    ensures Inv(states[i])
  {
    hide Consistent, SettledWhole, Enabled, Apply;
    if i > 0 {
      RunKeepsInv(states, steps, i - 1);
      StepKeepsInv(states[i - 1], steps[i - 1]);
    }
  }

  // What every reachable ledger satisfies: no record is allocated beyond its amount, both sides add up to the
  // same, and a record a batch has settled is nobody else's.
  ghost predicate Sane(db: Db) {
    && (forall k :: Exists(db, k) ==> 0 <= Allocated(db.recons, k, Now) <= Amount(db, k))
    && Sum(InForce(db.recons, db.invoices.Keys, true, Now)) == Sum(InForce(db.recons, db.money.Keys, false, Now))
    && Exclusive(db)
  }

  lemma InvIsSane(s: State)
    requires Inv(s)
    ensures Sane(s.db)
  {
    forall k | Exists(s.db, k) ensures 0 <= Allocated(s.db.recons, k, Now) <= Amount(s.db, k) {
      WithinCapacity(s.db, k);
    }
    SidesAgree(s.db, Now);
    WholeIsExclusive(s.db);
  }

  // Any interleaving of any number of creations, reversals and confirmations, with records, drafts and status
  // changes arriving in between, is a run of the atomic ledger, and every state it reaches is sane.
  lemma InterleavingsRefineTheLedger(states: seq<State>, steps: seq<Step>)
    requires IsRun(states, steps)
    ensures forall i :: 0 <= i < |steps| ==> LedgerStep(states[i].db, states[i + 1].db)
    ensures forall i :: 0 <= i < |states| ==> Sane(states[i].db)
  {
    hide Enabled, Apply, LedgerStep, Sane, Inv, Consistent, SettledWhole;
    forall i | 0 <= i < |states| ensures Sane(states[i].db) {
      RunKeepsInv(states, steps, i);
      InvIsSane(states[i]);
    }
    forall i | 0 <= i < |steps| ensures LedgerStep(states[i].db, states[i + 1].db) {
      RunKeepsInv(states, steps, i);
      StepRefinesLedger(states[i], steps[i]);
    }
  }

  // In every interleaving, what a transaction decides is what the ledger would have answered at that moment: nothing
  // unsound is committed, and nothing allowed is refused.
  lemma InterleavingsDecideExactly(states: seq<State>, steps: seq<Step>, i: nat, p: Pid)
    requires IsRun(states, steps) && i < |states| && p in states[i].procs && states[i].procs[p].phase.Deciding?
    requires states[i].procs[p].job.CreateJob? ==> HasSeenAll(states[i].procs[p])
    ensures Resolved(states[i].procs[p]) <==> Allowed(states[i].db, EventOf(states[i].procs[p].job))
  {
    hide *;
    RunKeepsInv(states, steps, i);
    InvOf(states[i], p);
    DecisionIsExact(states[i], p, states[i].procs[p]);
  }
}

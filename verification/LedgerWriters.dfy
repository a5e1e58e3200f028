// Concurrent writers of the ledger (apps/reconciliation/services.py:33-152, settlements.py:144-234).  Creations,
// reversals and batch confirmations run as database transactions at READ COMMITTED that lock rows one at a time
// and read one query at a time; their locks, reads and commits interleave freely.

module LedgerWriters {
  import opened Common
  import opened LedgerModel
  import opened Settlements
  import opened LedgerEvents

  type Pid = nat

  datatype Row =
    | BatchRow(batch: nat) | InvoiceRow(id: Id) | MoneyRow(id: Id) | LineRow(recon: nat, line: nat) | ReconRow(recon: nat)

  datatype Job =
    | CreateJob(q: CreateRequest)
    | ReverseJob(target: nat)
    | ConfirmJob(id: nat, allocations: seq<Allocation>, version: nat)

  // A confirmation locks its batch, its items, looks for other reconciliations of them and reads what is open of
  // them; then it creates its reconciliation as any creation does.
  datatype Phase =
    | LockingBatch | LockingInvoices | LockingMoney
    | CheckingOccupied | ReadingInvoiceOpen | ReadingMoneyOpen
    | LockingLines | LockingRecons | ReadingInvoices | ReadingMoney | Deciding

  // A transaction in progress: the rows its current query still has to lock, and what it has read so far.
  datatype Proc = Proc(
    job: Job, invoices: set<Id>, money: set<Id>, phase: Phase, wanted: set<Row>,
    seenBatch: Option<Batch>, seenInvoices: map<Id, Invoice>, seenMoney: map<Id, Money>,
    occupied: bool, invoiceOpen: map<Id, int>, moneyOpen: map<Id, int>,
    invoiceAllocated: map<Id, int>, moneyAllocated: map<Id, int>, sawReversal: bool)

  // The committed database, who holds which row lock, and the open transactions.
  datatype State = State(db: Db, owner: map<Row, Pid>, procs: map<Pid, Proc>)

  datatype Step =
    | Begin(p: Pid, job: Job)
    | Lock(p: Pid, row: Row)
    | NextPhase(p: Pid)
    | Read(p: Pid)
    | ReadOpen(p: Pid, id: Id)
    | Commit(p: Pid, at: int)
    | Abort(p: Pid)
    | Other(t: Timed)

  // The job's target is there.
  predicate Aimed(db: Db, job: Job) {
    match job
    case CreateJob(_) => true
    case ReverseJob(target) => target < |db.recons|
    case ConfirmJob(id, _, _) => id < |db.batches|
  }

  function Lines(db: Db, job: Job): seq<Allocation>
    requires Aimed(db, job)
  {
    match job
    case CreateJob(q) => q.allocations
    case ReverseJob(target) => db.recons[target].allocations
    case ConfirmJob(_, allocations, _) => allocations
  }

  // The records a job is about.  A batch's items never change.
  function InvoicesOf(db: Db, job: Job): set<Id>
    requires Aimed(db, job)
  {
    if job.ConfirmJob? then db.batches[job.id].invoices else InvoiceIds(Lines(db, job))
  }

  function MoneyOf(db: Db, job: Job): set<Id>
    requires Aimed(db, job)
  {
    if job.ConfirmJob? then db.batches[job.id].money else MoneyIds(Lines(db, job))
  }

  predicate LineConcerns(db: Db, pr: Proc, r: nat, l: nat)
    requires r < |db.recons| && l < |db.recons[r].allocations|
  {
    if pr.job.ReverseJob? then r == pr.job.target
    else db.recons[r].allocations[l].invoice in pr.invoices || db.recons[r].allocations[l].money in pr.money
  }

  // The rows the query of each locking phase finds in the committed database.
  function Wanted(db: Db, pr: Proc, phase: Phase): set<Row> {
    match phase
    case LockingBatch => if pr.job.ConfirmJob? then {BatchRow(pr.job.id)} else {}
    case LockingInvoices => set i | i in pr.invoices && i in db.invoices :: InvoiceRow(i)
    case LockingMoney => set m | m in pr.money && m in db.money :: MoneyRow(m)
    case LockingLines =>
      set r: nat, l: nat | r < |db.recons| && l < |db.recons[r].allocations| && LineConcerns(db, pr, r, l) :: LineRow(r, l)
    case LockingRecons =>
      if pr.job.ReverseJob? then {ReconRow(pr.job.target)}
      else set r: nat, l: nat | r < |db.recons| && l < |db.recons[r].allocations| && LineConcerns(db, pr, r, l) :: ReconRow(r)
    case _ => {}
  }

  function PhaseAfter(job: Job, phase: Phase): Phase {
    match phase
    case LockingBatch => LockingInvoices
    case LockingInvoices => LockingMoney
    case LockingMoney => if job.ConfirmJob? then CheckingOccupied else LockingLines
    case CheckingOccupied => ReadingInvoiceOpen
    case ReadingInvoiceOpen => ReadingMoneyOpen
    case ReadingMoneyOpen => LockingLines
    case LockingLines => LockingRecons
    case LockingRecons => ReadingInvoices
    case ReadingInvoices => ReadingMoney
    case ReadingMoney => Deciding
    case Deciding => Deciding
  }

  predicate Locking(phase: Phase) {
    phase.LockingBatch? || phase.LockingInvoices? || phase.LockingMoney? || phase.LockingLines? || phase.LockingRecons?
  }

  // The phases of one query each.
  predicate Reads(phase: Phase) {
    phase.CheckingOccupied? || phase.ReadingInvoices? || phase.ReadingMoney?
  }

  // All rows of the query are locked, or the open amount of every item is read.
  predicate PhaseOver(pr: Proc) {
    || (Locking(pr.phase) && pr.wanted == {})
    || (pr.phase.ReadingInvoiceOpen? && pr.invoices <= pr.invoiceOpen.Keys)
    || (pr.phase.ReadingMoneyOpen? && pr.money <= pr.moneyOpen.Keys)
  }

  function ReadingSoFar(pr: Proc): Reading {
    Reading(pr.seenInvoices, pr.seenMoney, pr.invoiceAllocated, pr.moneyAllocated)
  }

  // The record checks of a confirmation, on the rows it has seen.
  predicate SeenRecordsFit(pr: Proc, b: Batch) {
    && (forall i :: i in pr.invoices ==> i in pr.seenInvoices && InvoiceFitsBatch(pr.seenInvoices[i], b))
    && (forall m :: m in pr.money ==> m in pr.seenMoney && MoneyFitsBatch(pr.seenMoney[m], b))
  }

  // The open-amount checks of a confirmation, on the amounts it has read.
  predicate SeenOpenFits(pr: Proc, allocations: seq<Allocation>) {
    && (forall i :: i in pr.invoices ==>
          i in pr.invoiceOpen && pr.invoiceOpen[i] > 0 && AllocSum(allocations, InvoiceKey(i)) == pr.invoiceOpen[i])
    && (forall m :: m in pr.money ==>
          m in pr.moneyOpen && pr.moneyOpen[m] > 0 && AllocSum(allocations, MoneyKey(m)) == pr.moneyOpen[m])
  }

  // The checks of a confirmation before its creation.
  predicate BatchChecks(pr: Proc, allocations: seq<Allocation>, version: nat) {
    && pr.seenBatch.Some?
    && var b := pr.seenBatch.value;
       && !b.confirmed && version == b.version
       && NoPairTwice(allocations)
       && b.invoices != {} && b.money != {} && allocations != []
       && InvoiceIds(allocations) == b.invoices && MoneyIds(allocations) == b.money
       && SeenRecordsFit(pr, b) && !pr.occupied && SeenOpenFits(pr, allocations)
  }

  // What a transaction decides on: only what it has read, never the database itself.
  predicate Resolved(pr: Proc) {
    && pr.phase.Deciding?
    && match pr.job
       case CreateJob(q) =>
         ModeFits(q) && q.batch.None? && q.allocations != []
         && Complete(ReadingSoFar(pr), q.allocations) && Accepts(ReadingSoFar(pr), q)
       case ReverseJob(_) => !pr.sawReversal
       case ConfirmJob(id, allocations, version) =>
         && BatchChecks(pr, allocations, version)
         && Complete(ReadingSoFar(pr), allocations)
         && Accepts(ReadingSoFar(pr), BatchRequest(pr.seenBatch.value, id, allocations))
  }

  // What others do in one step: import records, draft batches, and change the status of an invoice nobody holds
  // (the import locks its row, too).
  predicate FromElsewhere(s: State, e: Event) {
    match e
    case AddsInvoice(_, _) => true
    case AddsMoney(_, _) => true
    case Drafts(_) => true
    case MovesStatus(i, _) => InvoiceRow(i) !in s.owner
    case _ => false
  }

  ghost predicate Enabled(s: State, step: Step) {
    match step
    case Begin(p, job) => p !in s.procs && Aimed(s.db, job)
    case Lock(p, row) => p in s.procs && row in s.procs[p].wanted && (row in s.owner ==> s.owner[row] == p)
    case NextPhase(p) => p in s.procs && PhaseOver(s.procs[p])
    case Read(p) => p in s.procs && Reads(s.procs[p].phase) && Aimed(s.db, s.procs[p].job)
    case ReadOpen(p, id) =>
      && p in s.procs
      && (|| (s.procs[p].phase.ReadingInvoiceOpen? && id in s.procs[p].invoices && id in s.db.invoices)
          || (s.procs[p].phase.ReadingMoneyOpen? && id in s.procs[p].money && id in s.db.money))
    case Commit(p, at) => p in s.procs && Resolved(s.procs[p]) && Aimed(s.db, s.procs[p].job)
    case Abort(p) => p in s.procs
    case Other(t) => FromElsewhere(s, t.event) && Allowed(s.db, t.event)
  }

  function Released(owner: map<Row, Pid>, p: Pid): map<Row, Pid> {
    map row | row in owner && owner[row] != p :: owner[row]
  }

  // Locking a row also reads it.
  function Locked(db: Db, pr: Proc, row: Row): Proc {
    pr.(wanted := pr.wanted - {row},
        seenBatch := if row.BatchRow? && row.batch < |db.batches| then Some(db.batches[row.batch]) else pr.seenBatch,
        seenInvoices := if row.InvoiceRow? && row.id in db.invoices then pr.seenInvoices[row.id := db.invoices[row.id]]
                        else pr.seenInvoices,
        seenMoney := if row.MoneyRow? && row.id in db.money then pr.seenMoney[row.id := db.money[row.id]]
                     else pr.seenMoney)
  }

  // The query of externally_occupied.
  predicate TouchedByOthers(db: Db, batch: nat, invoices: set<Id>, money: set<Id>) {
    exists r :: r in db.recons && r.reversedAt.None? && r.batch != Some(batch)
      && exists a :: a in r.allocations && (a.invoice in invoices || a.money in money)
  }

  function SumsOf(db: Db, ids: set<Id>, invoiceSide: bool): map<Id, int> {
    map i | i in ids :: Allocated(db.recons, if invoiceSide then InvoiceKey(i) else MoneyKey(i), Now)
  }

  // invoice_open_amount and transaction_open_amount of one item.
  function WithOpen(db: Db, pr: Proc, id: Id): Proc {
    pr.(invoiceOpen := if pr.phase.ReadingInvoiceOpen? && id in db.invoices
                       then pr.invoiceOpen[id := Open(db, InvoiceKey(id))] else pr.invoiceOpen,
        moneyOpen := if pr.phase.ReadingMoneyOpen? && id in db.money
                     then pr.moneyOpen[id := Open(db, MoneyKey(id))] else pr.moneyOpen)
  }

  // The other reading phases run one query each.  A reversal's only question is whether it has been reversed already.
  function WithRead(db: Db, pr: Proc): Proc
    requires Aimed(db, pr.job)
  {
    var (phase, reversing) := (pr.phase, pr.job.ReverseJob?);
    pr.(occupied := if phase.CheckingOccupied? then
                      pr.job.ConfirmJob? && TouchedByOthers(db, pr.job.id, pr.invoices, pr.money)
                    else pr.occupied,
        invoiceAllocated := if phase.ReadingInvoices? && !reversing then SumsOf(db, pr.invoices, true)
                            else pr.invoiceAllocated,
        moneyAllocated := if phase.ReadingMoney? && !reversing then SumsOf(db, pr.money, false) else pr.moneyAllocated,
        sawReversal := if phase.ReadingInvoices? && reversing then db.recons[pr.job.target].reversedAt.Some?
                       else pr.sawReversal)
  }

  // Entering a phase issues its query.
  function Moved(db: Db, pr: Proc): Proc {
    var phase := PhaseAfter(pr.job, pr.phase);
    pr.(phase := phase, wanted := Wanted(db, pr, phase))
  }

  function Fresh(db: Db, job: Job): Proc
    requires Aimed(db, job)
  {
    var phase := if job.ConfirmJob? then LockingBatch else LockingInvoices;
    var pr := Proc(job, InvoicesOf(db, job), MoneyOf(db, job), phase, {},
                   None, map[], map[], false, map[], map[], map[], map[], false);
    pr.(wanted := Wanted(db, pr, phase))
  }

  function Committed(db: Db, job: Job, at: int): Db
    requires Aimed(db, job)
  {
    match job
    case CreateJob(q) => Created(db, q, at)
    case ReverseJob(target) => Reversed(db, target, at)
    case ConfirmJob(id, allocations, _) => Confirmed(db, id, allocations, at)
  }

  function Apply(s: State, step: Step): State
    requires Enabled(s, step)
  {
    match step
    case Begin(p, job) => s.(procs := s.procs[p := Fresh(s.db, job)])
    case Lock(p, row) => s.(owner := s.owner[row := p], procs := s.procs[p := Locked(s.db, s.procs[p], row)])
    case NextPhase(p) => s.(procs := s.procs[p := Moved(s.db, s.procs[p])])
    case Read(p) => s.(procs := s.procs[p := Moved(s.db, WithRead(s.db, s.procs[p]))])
    case ReadOpen(p, id) => s.(procs := s.procs[p := WithOpen(s.db, s.procs[p], id)])
    case Commit(p, at) => State(Committed(s.db, s.procs[p].job, at), Released(s.owner, p), s.procs - {p})
    case Abort(p) => s.(owner := Released(s.owner, p), procs := s.procs - {p})
    case Other(t) => s.(db := Next(s.db, t))
  }
}

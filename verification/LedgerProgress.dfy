// What the locking queries of the concurrent writers come to (apps/reconciliation/services.py:55-85, 115-152): a
// transaction that decides holds every standing line of its records, and none is ever stuck but behind another's lock.

module LedgerProgress {
  import opened LedgerModel
  import opened LedgerEvents
  import opened LedgerWriters
  import opened LedgerConcurrency

  // The records are locked; the lines and reconciliations are being locked or are.
  predicate PastRecords(phase: Phase) {
    || phase.LockingLines? || phase.LockingRecons?
    || phase.ReadingInvoices? || phase.ReadingMoney? || phase.Deciding?
  }

  predicate IsLine(db: Db, r: nat, l: nat) {
    r < |db.recons| && l < |db.recons[r].allocations|
  }

  // The line is of the reconciliation to be reversed, or of a record the transaction has locked.
  predicate Meets(db: Db, pr: Proc, r: nat, l: nat)
    requires IsLine(db, r, l)
  {
    var a := db.recons[r].allocations[l];
    match pr.job
    case ReverseJob(target) => r == target
    case _ => a.invoice in pr.seenInvoices || a.money in pr.seenMoney
  }

  // Line r, l: locked by now, or among the rows its query still has to lock; and then its reconciliation likewise.
  predicate HoldsLine(s: State, p: Pid, pr: Proc, r: nat, l: nat) {
    && (Owns(s, p, LineRow(r, l)) || (pr.phase.LockingLines? && LineRow(r, l) in pr.wanted))
    && (pr.phase.LockingLines? || Owns(s, p, ReconRow(r)) || (pr.phase.LockingRecons? && ReconRow(r) in pr.wanted))
  }

  ghost predicate LinesHeld(s: State, p: Pid, pr: Proc) {
    PastRecords(pr.phase) ==>
      forall r: nat, l: nat :: IsLine(s.db, r, l) && Meets(s.db, pr, r, l) ==> HoldsLine(s, p, pr, r, l)
  }

  ghost predicate AllLinesHeld(s: State) {
    forall p :: p in s.procs ==> LinesHeld(s, p, s.procs[p])
  }

  // What others do leaves it so: the lines there were are still there, and a new one is of records somebody else holds.

  lemma UnheldIsUnseen(s: State, p: Pid, pr: Proc, a: Allocation)
    requires SeesTruth(s, p, pr) && !pr.job.ReverseJob?
    requires !Owns(s, p, InvoiceRow(a.invoice)) && !Owns(s, p, MoneyRow(a.money))
    ensures a.invoice !in pr.seenInvoices && a.money !in pr.seenMoney
  {
  }

  lemma CommittedAddsItsLines(db: Db, job: Job, at: int, r: nat, l: nat)
    requires Aimed(db, job) && |db.recons| <= r && IsLine(Committed(db, job, at), r, l)
    ensures Committed(db, job, at).recons[r].allocations[l] in Lines(db, job)
  {
  }

  lemma NewLinesAreElsewhere(s: State, step: Step, p: Pid, r: nat, l: nat)
    requires Inv(s) && Enabled(s, step) && !Acts(step, p) && p in s.procs && !s.procs[p].job.ReverseJob?
    requires |s.db.recons| <= r && IsLine(Apply(s, step).db, r, l)
    ensures !Meets(Apply(s, step).db, s.procs[p], r, l)
  {
    if step.Commit? {
      var q := step.p;
      var job := s.procs[q].job;
      assert Resolved(s.procs[q]) && Aimed(s.db, job) && Apply(s, step).db == Committed(s.db, job, step.at);
      InvOf(s, p);
      InvOf(s, q);
      hide Inv, Enabled, Apply, Committed, Resolved, JobKeys, WantedFits, SeesAll, SumsHold, ReversalHolds, ConfirmHolds;
      CommittedAddsItsLines(s.db, job, step.at, r, l);
      var a := Apply(s, step).db.recons[r].allocations[l];
      CommittedLinesAreHeld(s, q, s.procs[q], a);
      UnheldIsUnseen(s, p, s.procs[p], a);
    } else {
      hide Inv;
      RecordsOnly(s, step);
    }
  }

  lemma RecordsOnly(s: State, step: Step)
    requires Enabled(s, step) && !step.Commit?
    ensures Apply(s, step).db.recons == s.db.recons
  {
    hide Resolved, CanCreate, Moved, Locked, WithRead, WithOpen, Fresh;
  }

  lemma OthersKeepLines(s: State, step: Step, p: Pid)
    requires Inv(s) && Enabled(s, step) && !Acts(step, p) && p in s.procs && LinesHeld(s, p, s.procs[p])
    ensures LinesHeld(Apply(s, step), p, s.procs[p])
  {
    var next, pr := Apply(s, step), s.procs[p];
    InvOf(s, p);
    AimedByKeys(s, pr);
    StepRespectsOthers(s, step, p);
    hide Inv, ProcInv, Enabled, Apply, Undisturbed, Acts;
    if PastRecords(pr.phase) {
      forall r: nat, l: nat | IsLine(next.db, r, l) && Meets(next.db, pr, r, l) ensures HoldsLine(next, p, pr, r, l) {
        if r < |s.db.recons| {
          assert IsLine(s.db, r, l) && Meets(s.db, pr, r, l);
          assert HoldsLine(s, p, pr, r, l);
        } else {
          NewLinesAreElsewhere(s, step, p, r, l);
        }
      }
    }
  }

  // Its own steps: a lock moves a row from wanted to held, and the query of each phase finds every line.

  lemma LockedKeepsLines(s: State, p: Pid, pr: Proc, row: Row, next: State)
    requires LinesHeld(s, p, pr) && WantedFits(pr) && row in pr.wanted
    requires next.db == s.db && next.owner == s.owner[row := p]
    ensures LinesHeld(next, p, Locked(s.db, pr, row))
  {
    var after := Locked(s.db, pr, row);
    LockedFrame(s.db, pr, row);
    LockedSeen(s.db, pr, row);
    hide Locked;
    if PastRecords(pr.phase) {
      assert !row.InvoiceRow? && !row.MoneyRow?;
      forall r: nat, l: nat | IsLine(next.db, r, l) && Meets(next.db, after, r, l) ensures HoldsLine(next, p, after, r, l) {
        assert Meets(s.db, pr, r, l);
        assert HoldsLine(s, p, pr, r, l);
      }
    }
  }

  lemma MovedKeepsLines(s: State, p: Pid, pr: Proc)
    requires LinesHeld(s, p, pr) && pr.wanted == {} && !pr.phase.Deciding?
    requires pr.seenInvoices.Keys <= pr.invoices && pr.seenMoney.Keys <= pr.money
    ensures LinesHeld(s, p, Moved(s.db, pr))
  {
    var after := Moved(s.db, pr);
    if PastRecords(after.phase) {
      forall r: nat, l: nat | IsLine(s.db, r, l) && Meets(s.db, after, r, l) ensures HoldsLine(s, p, after, r, l) {
        assert LineConcerns(s.db, pr, r, l);
        assert after.phase.LockingRecons? ==> ReconRow(r) in Wanted(s.db, pr, LockingRecons);
        if PastRecords(pr.phase) {
          assert Meets(s.db, pr, r, l);
          assert HoldsLine(s, p, pr, r, l);
        }
      }
    }
  }

  lemma ReadKeepsLines(s: State, p: Pid, pr: Proc)
    requires LinesHeld(s, p, pr) && Aimed(s.db, pr.job)
    ensures var read := WithRead(s.db, pr);
            && LinesHeld(s, p, read) && read.phase == pr.phase && read.wanted == pr.wanted
            && read.invoices == pr.invoices && read.seenInvoices == pr.seenInvoices
            && read.money == pr.money && read.seenMoney == pr.seenMoney
  {
    hide TouchedByOthers, SumsOf;
    var read := WithRead(s.db, pr);
    assert read.job == pr.job && read.phase == pr.phase && read.wanted == pr.wanted;
    assert read.seenInvoices == pr.seenInvoices && read.seenMoney == pr.seenMoney;
    hide WithRead;
    if PastRecords(read.phase) {
      forall r: nat, l: nat | IsLine(s.db, r, l) && Meets(s.db, read, r, l) ensures HoldsLine(s, p, read, r, l) {
        assert Meets(s.db, pr, r, l);
        assert HoldsLine(s, p, pr, r, l);
      }
    }
  }

  lemma SeenIsAsked(s: State, p: Pid, pr: Proc)
    requires ProcInv(s, p, pr)
    ensures pr.seenInvoices.Keys <= pr.invoices && pr.seenMoney.Keys <= pr.money
    ensures WantedFits(pr) && (!Locking(pr.phase) ==> pr.wanted == {})
  {
    hide SumsHold, ReversalHolds, ConfirmHolds, SeesAll, JobKeys;
  }

  lemma SameStateKeepsLines(s: State, next: State, p: Pid, pr: Proc)
    requires LinesHeld(s, p, pr) && next.db == s.db && next.owner == s.owner
    ensures LinesHeld(next, p, pr)
  {
    if PastRecords(pr.phase) {
      forall r: nat, l: nat | IsLine(next.db, r, l) && Meets(next.db, pr, r, l) ensures HoldsLine(next, p, pr, r, l) {
        assert HoldsLine(s, p, pr, r, l);
      }
    }
  }

  lemma ReadEffect(s: State, p: Pid)
    requires Enabled(s, Read(p))
    ensures p in s.procs && Reads(s.procs[p].phase) && Aimed(s.db, s.procs[p].job)
    ensures var next := Apply(s, Read(p));
            && next.db == s.db && next.owner == s.owner && p in next.procs
            && next.procs[p] == Moved(s.db, WithRead(s.db, s.procs[p]))
  {
    hide Moved, WithRead;
  }

  lemma LockEffect(s: State, p: Pid, row: Row)
    requires Enabled(s, Lock(p, row))
    ensures p in s.procs && row in s.procs[p].wanted
    ensures var next := Apply(s, Lock(p, row));
            && next.db == s.db && next.owner == s.owner[row := p] && p in next.procs
            && next.procs[p] == Locked(s.db, s.procs[p], row)
  {
    hide Locked;
  }

  // Beginning, and reading what is open, happen before the records are past.
  lemma EarlyStep(s: State, step: Step, p: Pid)
    requires Enabled(s, step) && Acts(step, p) && (step.Begin? || step.ReadOpen? || step.Commit? || step.Abort?)
    ensures var next := Apply(s, step); p in next.procs ==> !PastRecords(next.procs[p].phase)
  {
    hide Wanted, Resolved, Committed;
  }

  lemma OwnStepKeepsLines(s: State, step: Step, p: Pid)
    requires Inv(s) && Enabled(s, step) && Acts(step, p)
    requires p in s.procs ==> LinesHeld(s, p, s.procs[p])
    ensures var next := Apply(s, step); p in next.procs ==> LinesHeld(next, p, next.procs[p])
  {
    hide Inv, ProcInv, Enabled, Apply, Moved, WithRead, Locked, WantedFits;
    var next := Apply(s, step);
    match step
    case Lock(_, row) =>
      LockEffect(s, p, row);
      InvOf(s, p);
      SeenIsAsked(s, p, s.procs[p]);
      LockedKeepsLines(s, p, s.procs[p], row, next);
    case NextPhase(_) =>
      NextPhaseEffect(s, p);
      InvOf(s, p);
      SeenIsAsked(s, p, s.procs[p]);
      PhaseOverIsDone(s, s.procs[p]);
      MovedKeepsLines(s, p, s.procs[p]);
      SameStateKeepsLines(s, next, p, next.procs[p]);
    case Read(_) =>
      ReadEffect(s, p);
      InvOf(s, p);
      SeenIsAsked(s, p, s.procs[p]);
      ReadKeepsLines(s, p, s.procs[p]);
      MovedKeepsLines(s, p, WithRead(s.db, s.procs[p]));
      SameStateKeepsLines(s, next, p, next.procs[p]);
    case Other(_) =>
    case _ => EarlyStep(s, step, p);
  }

  lemma StepKeepsLines(s: State, step: Step)
    requires Inv(s) && Enabled(s, step) && AllLinesHeld(s)
    ensures AllLinesHeld(Apply(s, step))
  {
    hide Inv, Enabled, Apply, Acts, LinesHeld;
    forall p | p in Apply(s, step).procs ensures LinesHeld(Apply(s, step), p, Apply(s, step).procs[p]) {
      if Acts(step, p) {
        OwnStepKeepsLines(s, step, p);
      } else {
        OtherProcsStay(s, step, p);
        OthersKeepLines(s, step, p);
      }
    }
  }

  lemma {:induction false} RunHoldsLines(states: seq<State>, steps: seq<Step>, i: nat)
    requires IsRun(states, steps) && i < |states|
    ensures AllLinesHeld(states[i])
  {
    hide Enabled, Apply, LinesHeld, Consistent, SettledWhole;
    if i > 0 {
      RunKeepsInv(states, steps, i - 1);
      RunHoldsLines(states, steps, i - 1);
      StepKeepsLines(states[i - 1], steps[i - 1]);
    }
  }

  // In every interleaving, a transaction that decides holds the row of every line there is of the reconciliation it
  // reverses, or of any record it has locked, and that line's reconciliation; lines committed meanwhile are no exception.
  lemma DecidesHoldingEveryLine(states: seq<State>, steps: seq<Step>, i: nat, p: Pid, r: nat, l: nat)
    requires IsRun(states, steps) && i < |states| && p in states[i].procs && states[i].procs[p].phase.Deciding?
    requires IsLine(states[i].db, r, l) && Meets(states[i].db, states[i].procs[p], r, l)
    ensures Owns(states[i], p, LineRow(r, l)) && Owns(states[i], p, ReconRow(r))
  {
    RunHoldsLines(states, steps, i);
    hide IsRun, Meets;
    assert LinesHeld(states[i], p, states[i].procs[p]);
    assert HoldsLine(states[i], p, states[i].procs[p], r, l);
  }

  // Who may do what, at any time: anybody may begin or give up, records and drafts always arrive, and an invoice's status
  // moves unless a transaction holds the invoice.
  lemma AlwaysOpen(s: State, p: Pid, job: Job, t: Timed)
    ensures p !in s.procs && Aimed(s.db, job) ==> Enabled(s, Begin(p, job))
    ensures p in s.procs ==> Enabled(s, Abort(p))
    ensures Allowed(s.db, t.event) && (t.event.AddsInvoice? || t.event.AddsMoney? || t.event.Drafts?) ==> Enabled(s, Other(t))
    ensures t.event.MovesStatus? && Allowed(s.db, t.event) ==>
              (Enabled(s, Other(t)) <==> InvoiceRow(t.event.i) !in s.owner)
  {
    hide CanCreate, Resolved;
  }

  // Progress.

  function PhaseRank(phase: Phase): nat {
    match phase
    case LockingBatch => 0
    case LockingInvoices => 1
    case LockingMoney => 2
    case CheckingOccupied => 3
    case ReadingInvoiceOpen => 4
    case ReadingMoneyOpen => 5
    case LockingLines => 6
    case LockingRecons => 7
    case ReadingInvoices => 8
    case ReadingMoney => 9
    case Deciding => 10
  }

  // What the current phase still has to lock or to read.
  function Left(pr: Proc): nat {
    if pr.phase.ReadingInvoiceOpen? then |pr.invoices - pr.invoiceOpen.Keys|
    else if pr.phase.ReadingMoneyOpen? then |pr.money - pr.moneyOpen.Keys|
    else |pr.wanted|
  }

  predicate Advances(pr: Proc, next: Proc) {
    || PhaseRank(pr.phase) < PhaseRank(next.phase)
    || (pr.phase == next.phase && Left(next) < Left(pr))
  }

  // A row it wants is another's.
  predicate Waits(s: State, p: Pid, pr: Proc) {
    exists row :: row in pr.wanted && row in s.owner && s.owner[row] != p
  }

  lemma MoveAdvances(db: Db, pr: Proc)
    requires !pr.phase.Deciding?
    ensures Advances(pr, Moved(db, pr))
  {
    hide Wanted;
  }

  lemma FewerLeft<T>(a: set<T>, b: set<T>, x: T)
    requires x in a && x !in b && b <= a
    ensures |b| < |a|
  {
    assert b <= a - {x};
    MoreElements(b, a - {x});
  }

  lemma {:induction false} MoreElements<T>(a: set<T>, b: set<T>)
    requires a <= b
    ensures |a| <= |b|
  {
    if a != {} {
      var x :| x in a;
      MoreElements(a - {x}, b - {x});
    }
  }

  lemma LockAdvances(db: Db, pr: Proc, row: Row)
    requires Locking(pr.phase) && row in pr.wanted
    ensures Advances(pr, Locked(db, pr, row))
  {
    LockedFrame(db, pr, row);
    hide Locked;
    FewerLeft(pr.wanted, pr.wanted - {row}, row);
  }

  lemma OpenAdvances(db: Db, pr: Proc, id: Id)
    requires || (pr.phase.ReadingInvoiceOpen? && id in pr.invoices - pr.invoiceOpen.Keys && id in db.invoices)
             || (pr.phase.ReadingMoneyOpen? && id in pr.money - pr.moneyOpen.Keys && id in db.money)
    ensures Advances(pr, WithOpen(db, pr, id))
  {
    var next := WithOpen(db, pr, id);
    if pr.phase.ReadingInvoiceOpen? {
      FewerLeft(pr.invoices - pr.invoiceOpen.Keys, next.invoices - next.invoiceOpen.Keys, id);
    } else {
      FewerLeft(pr.money - pr.moneyOpen.Keys, next.money - next.moneyOpen.Keys, id);
    }
  }

  lemma ItemIsThere(s: State, p: Pid, pr: Proc, id: Id)
    requires ProcInv(s, p, pr)
    ensures pr.phase.ReadingInvoiceOpen? && id in pr.invoices ==> id in s.db.invoices
    ensures pr.phase.ReadingMoneyOpen? && id in pr.money ==> id in s.db.money
  {
    hide JobKeys, SumsHold, ReversalHolds, ConfirmHolds;
  }

  // A step of its own, other than giving up, that leaves the database alone and brings a transaction nearer its decision.
  ghost predicate Nearer(s: State, step: Step, p: Pid) {
    && Enabled(s, step) && Acts(step, p) && (step.Lock? || step.NextPhase? || step.Read? || step.ReadOpen?)
    && var next := Apply(s, step);
       && next.db == s.db && p in s.procs && next.procs == s.procs[p := next.procs[p]]
       && next.procs[p].job == s.procs[p].job && Advances(s.procs[p], next.procs[p])
  }

  lemma NextPhaseIsNearer(s: State, p: Pid)
    requires p in s.procs && PhaseOver(s.procs[p]) && !s.procs[p].phase.Deciding?
    ensures Nearer(s, NextPhase(p), p)
  {
    MoveAdvances(s.db, s.procs[p]);
    JobStays(s.db, s.procs[p]);
    hide Moved, Advances, PhaseOver;
  }

  lemma LockIsNearer(s: State, p: Pid, row: Row)
    requires p in s.procs && Locking(s.procs[p].phase) && row in s.procs[p].wanted && !Waits(s, p, s.procs[p])
    ensures Nearer(s, Lock(p, row), p)
  {
    LockAdvances(s.db, s.procs[p], row);
    LockedFrame(s.db, s.procs[p], row);
    hide Locked, Advances;
  }

  lemma ReadIsNearer(s: State, p: Pid)
    requires p in s.procs && Reads(s.procs[p].phase) && Aimed(s.db, s.procs[p].job)
    ensures Nearer(s, Read(p), p)
  {
    ReadAdvances(s.db, s.procs[p]);
    hide Moved, WithRead, Advances;
  }

  lemma OpenIsNearer(s: State, p: Pid, id: Id)
    requires p in s.procs
    requires var pr := s.procs[p];
             || (pr.phase.ReadingInvoiceOpen? && id in pr.invoices - pr.invoiceOpen.Keys && id in s.db.invoices)
             || (pr.phase.ReadingMoneyOpen? && id in pr.money - pr.moneyOpen.Keys && id in s.db.money)
    ensures Nearer(s, ReadOpen(p, id), p)
  {
    OpenAdvances(s.db, s.procs[p], id);
    JobStaysOpen(s.db, s.procs[p], id);
    hide WithOpen, Advances;
  }

  // An open transaction that has not come to its decision either waits for a row another holds, or has a step of its
  // own that brings it nearer.
  lemma NobodyIsStuck(s: State, p: Pid) returns (step: Step)
    requires Inv(s) && p in s.procs && !s.procs[p].phase.Deciding? && !Waits(s, p, s.procs[p])
    ensures Nearer(s, step, p)
  {
    var pr := s.procs[p];
    InvOf(s, p);
    hide Inv, ProcInv, Nearer, Waits;
    if PhaseOver(pr) {
      step := NextPhase(p);
      NextPhaseIsNearer(s, p);
    } else if Locking(pr.phase) {
      var row :| row in pr.wanted;
      step := Lock(p, row);
      LockIsNearer(s, p, row);
    } else if Reads(pr.phase) {
      step := Read(p);
      AimedOf(s, p, pr);
      ReadIsNearer(s, p);
    } else {
      var id :| id in if pr.phase.ReadingInvoiceOpen? then pr.invoices - pr.invoiceOpen.Keys else pr.money - pr.moneyOpen.Keys;
      step := ReadOpen(p, id);
      ItemIsThere(s, p, pr, id);
      OpenIsNearer(s, p, id);
    }
  }

  lemma AimedOf(s: State, p: Pid, pr: Proc)
    requires ProcInv(s, p, pr)
    ensures Aimed(s.db, pr.job)
  {
    hide WantedFits, SeesTruth, SeesAll, SumsHold, ReversalHolds, ConfirmHolds;
  }

  lemma JobStays(db: Db, pr: Proc)
    ensures Moved(db, pr).job == pr.job
  {
    hide Wanted;
  }

  lemma JobStaysOpen(db: Db, pr: Proc, id: Id)
    ensures WithOpen(db, pr, id).job == pr.job
  {
    hide Open;
  }

  lemma ReadAdvances(db: Db, pr: Proc)
    requires Aimed(db, pr.job) && Reads(pr.phase)
    ensures Advances(pr, Moved(db, WithRead(db, pr))) && Moved(db, WithRead(db, pr)).job == pr.job
  {
    hide TouchedByOthers, SumsOf, Wanted;
  }

  // Alone.

  // Of the records that were there when it asked, a transaction has seen all it has asked for.
  predicate SeesExisting(db: Db, pr: Proc) {
    && (forall i :: i in pr.invoices && i in db.invoices ==>
          || i in pr.seenInvoices || pr.phase.LockingBatch?
          || (pr.phase.LockingInvoices? && InvoiceRow(i) in pr.wanted))
    && (forall m :: m in pr.money && m in db.money ==>
          || m in pr.seenMoney || pr.phase.LockingBatch? || pr.phase.LockingInvoices?
          || (pr.phase.LockingMoney? && MoneyRow(m) in pr.wanted))
  }

  lemma FreshSeesExisting(db: Db, job: Job)
    requires Aimed(db, job)
    ensures SeesExisting(db, Fresh(db, job)) && Fresh(db, job).job == job
  {
    hide InvoicesOf, MoneyOf;
  }

  lemma LockedSeesExisting(db: Db, pr: Proc, row: Row)
    requires SeesExisting(db, pr) && WantedFits(pr) && row in pr.wanted
    ensures SeesExisting(db, Locked(db, pr, row))
  {
    LockedFrame(db, pr, row);
    LockedSeen(db, pr, row);
    hide Locked;
  }

  lemma MovedSeesExisting(db: Db, pr: Proc)
    requires SeesExisting(db, pr) && WantedFits(pr) && pr.wanted == {}
    ensures SeesExisting(db, Moved(db, pr))
  {
  }

  lemma ReadSeesExisting(db: Db, pr: Proc)
    requires SeesExisting(db, pr) && Aimed(db, pr.job)
    ensures SeesExisting(db, WithRead(db, pr))
  {
    hide TouchedByOthers, SumsOf;
  }

  lemma OpenSeesExisting(db: Db, pr: Proc, id: Id)
    requires SeesExisting(db, pr)
    ensures SeesExisting(db, WithOpen(db, pr, id))
  {
    hide Open;
  }

  lemma NearerSeesExisting(s: State, step: Step, p: Pid)
    requires Inv(s) && Nearer(s, step, p) && SeesExisting(s.db, s.procs[p])
    ensures SeesExisting(s.db, Apply(s, step).procs[p])
  {
    var pr := s.procs[p];
    InvOf(s, p);
    SeenIsAsked(s, p, pr);
    assert Enabled(s, step) && Acts(step, p);
    hide Inv, ProcInv, Nearer, SeesExisting, Enabled, Apply, Moved, WithRead, WithOpen, Locked, WantedFits;
    match step
    case Lock(_, row) =>
      LockEffect(s, p, row);
      LockedSeesExisting(s.db, pr, row);
    case NextPhase(_) =>
      NextPhaseEffect(s, p);
      PhaseOverIsDone(s, pr);
      MovedSeesExisting(s.db, pr);
    case Read(_) =>
      ReadEffect(s, p);
      ReadKeepsWanted(s.db, pr);
      ReadSeesExisting(s.db, pr);
      MovedSeesExisting(s.db, WithRead(s.db, pr));
    case ReadOpen(_, id) =>
      OpenEffect(s, p, id);
      OpenSeesExisting(s.db, pr, id);
    case _ =>
  }

  lemma ReadKeepsWanted(db: Db, pr: Proc)
    requires Aimed(db, pr.job) && Reads(pr.phase) && WantedFits(pr)
    ensures WantedFits(WithRead(db, pr)) && WithRead(db, pr).wanted == {}
  {
    hide TouchedByOthers, SumsOf;
  }

  ghost predicate Leads(s: State, steps: seq<Step>, t: State)
    decreases |steps|
  {
    if steps == [] then s == t
    else Enabled(s, steps[0]) && Leads(Apply(s, steps[0]), steps[1..], t)
  }

  lemma {:induction false} LeadsOn(s: State, steps: seq<Step>, t: State, step: Step)
    requires Leads(s, steps, t) && Enabled(t, step)
    ensures Leads(s, steps + [step], Apply(t, step))
    decreases |steps|
  {
    hide Enabled, Apply;
    if steps != [] {
      LeadsOn(Apply(s, steps[0]), steps[1..], t, step);
      assert (steps + [step])[1..] == steps[1..] + [step];
    } else {
      assert (steps + [step])[1..] == [];
    }
  }

  lemma NobodyWaitsAlone(s: State, p: Pid)
    requires Inv(s) && s.procs.Keys == {p}
    ensures !Waits(s, p, s.procs[p])
  {
    hide ProcInv, Consistent, SettledWhole;
  }

  lemma StepAlone(s: State, p: Pid) returns (step: Step, next: State)
    requires Inv(s) && s.procs.Keys == {p} && SeesExisting(s.db, s.procs[p]) && !s.procs[p].phase.Deciding?
    ensures Enabled(s, step) && next == Apply(s, step) && Inv(next) && next.db == s.db && next.procs.Keys == {p}
    ensures next.procs[p].job == s.procs[p].job && SeesExisting(next.db, next.procs[p])
    ensures Advances(s.procs[p], next.procs[p])
  {
    NobodyWaitsAlone(s, p);
    step := NobodyIsStuck(s, p);
    NearerSeesExisting(s, step, p);
    assert Enabled(s, step);
    hide Inv, Enabled, Apply, Acts, SeesExisting, Waits, Advances;
    StepKeepsInv(s, step);
    next := Apply(s, step);
  }

  // A transaction with nobody beside it comes to its decision.
  lemma {:induction false} AloneDecides(s: State, p: Pid) returns (steps: seq<Step>, t: State)
    requires Inv(s) && s.procs.Keys == {p} && SeesExisting(s.db, s.procs[p])
    ensures Leads(s, steps, t) && Inv(t) && t.db == s.db && t.procs.Keys == {p}
    ensures t.procs[p].phase.Deciding? && t.procs[p].job == s.procs[p].job && SeesExisting(t.db, t.procs[p])
    decreases 10 - PhaseRank(s.procs[p].phase), Left(s.procs[p])
  {
    hide Inv, Enabled, Apply, SeesExisting, Left;
    if s.procs[p].phase.Deciding? {
      steps, t := [], s;
    } else {
      var step, next := StepAlone(s, p);
      var rest;
      rest, t := AloneDecides(next, p);
      steps := [step] + rest;
      assert steps[1..] == rest;
    }
  }

  lemma AllowedHasSeenAll(s: State, p: Pid, pr: Proc)
    requires ProcInv(s, p, pr) && pr.job.CreateJob? && pr.phase.Deciding? && SeesExisting(s.db, pr)
    requires Allowed(s.db, EventOf(pr.job))
    ensures HasSeenAll(pr)
  {
    var q := pr.job.q;
    var r := ReadingOf(s.db, q.allocations);
    assert pr.invoices == InvoiceIds(q.allocations) && pr.money == MoneyIds(q.allocations);
    assert Accepts(r, q);
    assert Covers(r, q);
  }

  // In a ledger at rest, every creation, reversal or confirmation that the ledger allows goes through, step by step, and
  // leaves it at rest again.
  lemma AllowedJobGoesThrough(s: State, p: Pid, job: Job, at: int) returns (steps: seq<Step>, t: State)
    requires Inv(s) && s.procs == map[] && Aimed(s.db, job) && Allowed(s.db, EventOf(job))
    ensures Leads(s, steps, t) && t.db == Committed(s.db, job, at) && t.procs == map[] && t.owner == map[]
  {
    var begun := Apply(s, Begin(p, job));
    assert Enabled(s, Begin(p, job)) && begun.db == s.db && begun.procs == map[p := Fresh(s.db, job)];
    FreshSeesExisting(s.db, job);
    StepKeepsInv(s, Begin(p, job));
    var rest, ready;
    hide Inv, SeesExisting, Fresh, Allowed;
    rest, ready := AloneDecides(begun, p);
    InvOf(ready, p);
    if job.CreateJob? {
      AllowedHasSeenAll(ready, p, ready.procs[p]);
    }
    DecisionIsExact(ready, p, ready.procs[p]);
    t := CommitEnds(ready, p, at);
    LeadsOn(begun, rest, ready, Commit(p, at));
    steps := [Begin(p, job)] + (rest + [Commit(p, at)]);
    assert steps[1..] == rest + [Commit(p, at)];
  }

  lemma CommitEnds(s: State, p: Pid, at: int) returns (t: State)
    requires Inv(s) && s.procs.Keys == {p} && Resolved(s.procs[p]) && Aimed(s.db, s.procs[p].job)
    ensures Enabled(s, Commit(p, at)) && t == Apply(s, Commit(p, at))
    ensures t.db == Committed(s.db, s.procs[p].job, at) && t.procs == map[] && t.owner == map[]
  {
    hide ProcInv, Consistent, SettledWhole, Resolved, Committed;
    t := Apply(s, Commit(p, at));
  }
}

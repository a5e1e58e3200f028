// UpdateManager (updater/manager.py): one upgrade through its persisted stages, its failure handling,
// the recovery after a crash and the journalled cleanup.
//
// Every method keeps Sound(): each atomic point of the run so far satisfies the invariant and follows
// from the point before.  A method that answers Gone was cut off at an arbitrary action, so Sound()
// after Gone speaks about a crash between any two actions.

module UpdaterManager {
  import opened Common
  import opened UpdaterTypes
  import opened UpdaterPlatform
  import opened UpdaterInvariant

  const STARTUP_HEALTH_MAX_ATTEMPTS := 30
  const CHECK_MAX_AGE := 120

  datatype RecoveryPlan = GiveUp | CompleteTarget | FailUntouched | RollBack(restoreVersion: bool)

  predicate HasCompleteIdentity(identity: ImageIdentity) { identity.tags != [] }

  // The decision of recover() once the container's identity is known.
  function PlanRecovery(t: UpdateTask, actual: ImageIdentity): RecoveryPlan {
    var isOriginal := SameRuntime(actual, t.original);
    var isTarget := SameRuntime(actual, t.target);
    if !HasCompleteIdentity(actual) || isOriginal == isTarget then GiveUp
    else if (t.stage.PersistingVersion? || t.stage.Cleaning?) && isTarget then CompleteTarget
    else if PreTag(t.stage) then
      if isOriginal then FailUntouched else GiveUp
    else if t.original.rollbackAlias.None? then GiveUp
    else RollBack(t.stage.PersistingVersion? || t.stage.Cleaning? || t.stage.RollingBack?)
  }

  // How an interrupted task may end, by its stage and the container that recovery found: it succeeds only with its own
  // target after its proof, fails untouched only with its original before the stop, and is rolled back only after the
  // stop, from one of the two and with an alias on record.
  predicate Decided(before: UpdateTask, w: World, after: UpdateTask) {
    && (after.stage.Succeeded? ==>
          && (before.stage.PersistingVersion? || before.stage.Cleaning?)
          && w.web.Some? && w.web.value.image == before.target.image)
    && (before.original.tags == [] || before.target.tags == [] || (before.stage.Cleaning? && before.journal.None?) ==>
          !after.stage.Succeeded? && (before.original.tags == [] || before.target.tags == [] ==> !after.stage.Failed?))
    && (after.stage.Failed? && !after.rolledBack ==>
          && (before.stage.Checking? || before.stage.BackingUp? || before.stage.Pulling?)
          && w.web.Some? && w.web.value.image == before.original.image)
    && (after.stage.Failed? && after.rolledBack ==>
          && !before.stage.Checking? && !before.stage.BackingUp? && !before.stage.Pulling?
          && before.original.rollbackAlias.Some?
          && w.web.Some? && (w.web.value.image == before.original.image || w.web.value.image == before.target.image))
  }

  predicate CompletesTarget(t: UpdateTask, w: World) {
    w.web.Some? && (t.stage.PersistingVersion? || t.stage.Cleaning?) && w.web.value.image == t.target.image
  }

  // A plan is only made where it may be followed.
  lemma PlanMayBeFollowed(s: Snapshot)
    requires Inv(s) && s.disk.task.Some? && !Terminal(s.disk.task.value.stage) && s.world.web.Some?
    ensures var t := s.disk.task.value;
            match PlanRecovery(t, Inspect(s.world, s.world.web.value.image))
            case GiveUp => true
            case CompleteTarget => CompletesTarget(t, s.world)
            case FailUntouched => PreTag(t.stage) && s.world.web.value.image == t.original.image
            case RollBack(restoreVersion) =>
              && !PreTag(t.stage)
              && (s.world.web.value.image == t.original.image || s.world.web.value.image == t.target.image)
              && (Replacing(t.stage) || t.stage.Cleaning?)
              && (if restoreVersion then t.stage.PersistingVersion? || t.stage.Cleaning? || t.stage.RollingBack?
                  else s.world.envTag == t.original.image.version)
  {
  }

  // What can be recovered is completed when its target runs at the end, and rolled back otherwise.
  lemma PlanOfRecoverable(s: Snapshot)
    requires Inv(s) && Recoverable(s.disk, s.world)
    ensures var t, w := s.disk.task.value, s.world;
            && !Terminal(t.stage)
            && HasCompleteIdentity(t.original) && HasCompleteIdentity(t.target) && w.web.value.image in w.images
            && var plan := PlanRecovery(t, Inspect(w, w.web.value.image));
               if CompletesTarget(t, w) then plan.CompleteTarget? && t.journal.Some? && Answers(w, t.target)
               else plan.RollBack? && CanStartRollback(t, w)
  {
  }

  lemma PlanOfUntouched(s: Snapshot)
    requires Inv(s) && s.disk.task.Some?
    requires var t := s.disk.task.value;
             PreTag(t.stage) && HasTargetTag(t) && HasCompleteIdentity(t.original) && Answers(s.world, t.original)
    ensures var t, w := s.disk.task.value, s.world;
            && HasCompleteIdentity(t.target) && w.web.value.image in w.images
            && PlanRecovery(t, Inspect(w, w.web.value.image)).FailUntouched?
  {
  }

  // A success whose cleanup was refused or interrupted.
  predicate CleanupPending(d: PersistentState) {
    && d.task.Some? && d.task.value.stage.Succeeded? && d.task.value.cleanup.Pending?
    && d.task.value.journal.Some?
  }

  function FreshTask(id: TaskId, checked: CheckResult): UpdateTask {
    UpdateTask(id, checked.current, checked.target, Checking, None, None, false, NotRun, Some(BLANK_JOURNAL), NoError)
  }

  function SafeErrorCode(code: ErrorCode): ErrorCode {
    if code.BackupFailed? || code.PullFailed? || code.MigrationFailed? || code.HealthCheckFailed?
    then code else UpdateFailed
  }

  // Four codes are shown as they are, any other as a failed update.
  lemma SafeCodes(code: ErrorCode)
    ensures code in {BackupFailed, PullFailed, MigrationFailed, HealthCheckFailed} ==> SafeErrorCode(code) == code
    ensures code !in {BackupFailed, PullFailed, MigrationFailed, HealthCheckFailed} ==> SafeErrorCode(code) == UpdateFailed
  {
  }

  // What a failed task shows of the command it failed at.
  predicate CodeTells(code: ErrorCode, issued: nat) {
    match issued
    case 1 => code.BackupFailed? || code.PullFailed? || code.UpdateFailed?
    case 2 => code.UpdateFailed?
    case 3 => code.MigrationFailed?
    case _ => issued == 4 && (code.HealthCheckFailed? || code.UpdateFailed?)
  }

  // What the updater does in order, where it gets through.

  // So many health calls for an image.
  function Tries(n: nat, expected: ImageIdentity): (deeds: seq<Deed>)
    ensures |deeds| == n
  {
    seq(n, _ => Asks(expected))
  }

  // Its container must answer on three more occasions, each under a fresh record of the stage.
  function StabilizingDeeds(target: ImageIdentity): seq<Deed> {
    [Saves(Some(Stabilizing)),
     Saves(Some(Stabilizing)), Asks(target), Saves(Some(Stabilizing)), Asks(target), Saves(Some(Stabilizing)), Asks(target)]
  }

  function PreparingDeeds(target: ImageIdentity): seq<Deed> {
    [Saves(Some(BackingUp)), BacksUp, Saves(Some(BackingUp)),
     Saves(Some(Pulling)), Verifies(target), Saves(Some(Pulling)), Tags, Saves(Some(Pulling))]
  }

  const REPLACING_DEEDS: seq<Deed> :=
    [Saves(Some(StoppingWeb)), Stops, Saves(Some(Migrating)), Migrates, Saves(Some(StartingWeb)), Starts]

  // The whole pipeline up to the installed version, its target answering at the n-th call.
  function PipelineDeeds(target: ImageIdentity, n: nat): seq<Deed> {
    PreparingDeeds(target) + REPLACING_DEEDS + ProvingDeeds(target, n)
  }

  function ProvingDeeds(target: ImageIdentity, n: nat): seq<Deed> {
    [Saves(Some(CheckingHealth))] + Tries(n, target) + StabilizingDeeds(target)
    + [Saves(Some(PersistingVersion)), Persists(target.image.version)]
  }

  function ConfirmingDeeds(target: ImageIdentity, stage: Stage, install: bool): seq<Deed> {
    [Saves(Some(stage)), Asks(target)] + if install then [Saves(Some(stage)), Persists(target.image.version)] else []
  }

  // The way back, under the stage on record.
  function RestoringDeeds(original: ImageIdentity, stage: Stage, n: nat, restoreVersion: bool): seq<Deed> {
    [StartsOriginal, Saves(Some(stage))] + Tries(n, original)
    + if restoreVersion then [Saves(Some(stage)), Persists(original.image.version)] else []
  }

  function RollbackDeeds(original: ImageIdentity, stage: Stage, n: nat, restoreVersion: bool): seq<Deed> {
    [Saves(Some(stage))] + RestoringDeeds(original, stage, n, restoreVersion) + [Saves(Some(Failed))]
  }

  // All of the pipeline, then the cleanup under its stage, and the outcome last.
  ghost predicate Upgraded(before: seq<Deed>, target: ImageIdentity, after: seq<Deed>) {
    && (exists n :: 1 <= n <= 30 && before + PipelineDeeds(target, n) + [Saves(Some(Cleaning))] <= after)
    && after != [] && after[|after| - 1] == Saves(Some(Succeeded))
  }

  lemma UpgradeIsDone(before: seq<Deed>, target: ImageIdentity, made: seq<Deed>, after: seq<Deed>)
    requires exists n :: 1 <= n <= 30 && Did(before, PipelineDeeds(target, n), made)
    requires made + [Saves(Some(Cleaning))] <= after && after[|after| - 1] == Saves(Some(Succeeded))
    ensures Upgraded(before, target, after)
  {
    hide PipelineDeeds;
    var n :| 1 <= n <= 30 && Did(before, PipelineDeeds(target, n), made);
    assert before + PipelineDeeds(target, n) + [Saves(Some(Cleaning))] <= after;
  }

  predicate Did(before: seq<Deed>, more: seq<Deed>, after: seq<Deed>) {
    after == before + more
  }

  lemma DidBoth(before: seq<Deed>, first: seq<Deed>, between: seq<Deed>, second: seq<Deed>, after: seq<Deed>)
    requires Did(before, first, between) && Did(between, second, after)
    ensures Did(before, first + second, after)
  {
  }

  class UpdateManager {
    const host: Host

    constructor (host: Host)
      ensures this.host == host
    {
      this.host := host;
    }

    ghost predicate Sound()
      reads host
    {
      host.trace.s == host.Point() && Root(host.trace) == host.initial && GoodTrace(host.trace)
    }

    predicate Holds(id: TaskId)
      reads host
    {
      host.disk.task.Some? && host.disk.task.value.id == id
    }

    function Task(): UpdateTask
      requires host.disk.task.Some?
      reads host
    {
      host.disk.task.value
    }

    // _save_task: one atomic replacement of the task's record.
    method SaveTask(task: UpdateTask) returns (s: Signal)
      requires !host.cut
      requires Sound() && Holds(task.id)
      requires var next := host.Point().(disk := host.disk.(task := Some(task)));
               Inv(next) && Evolves(host.Point(), next)
      modifies host
      ensures host.Trouble() <= old(host.Trouble()) && (host.cut <==> s.Gone?)
      ensures Sound() && Holds(task.id)
      ensures s.Returned? || s.Gone?
      ensures host.world == old(host.world) && host.issued == old(host.issued)
      ensures host.disk.lastCheck == old(host.disk.lastCheck)
      ensures s.Returned? ==> Task() == task
      ensures old(host.Alive()) ==> s.Returned?
      ensures Did(old(host.deeds), [Saves(Some(task.stage))], host.deeds)
    {
      s := host.Save(host.disk.(task := Some(task)));
    }

    // _checkpoint.
    method Checkpoint(id: TaskId, stage: Stage) returns (s: Signal)
      requires !host.cut
      requires Sound() && Holds(id)
      requires CanAdvance(Task(), host.world, host.issued, stage)
      modifies host
      ensures host.Trouble() <= old(host.Trouble()) && (host.cut <==> s.Gone?)
      ensures Sound() && Holds(id)
      ensures s.Returned? || s.Gone?
      ensures host.world == old(host.world) && host.issued == old(host.issued)
      ensures s.Returned? ==> Task() == old(Task()).(stage := stage)
      ensures old(host.Alive()) ==> s.Returned?
      ensures Did(old(host.deeds), [Saves(Some(stage))], host.deeds)
    {
      ghost var here := host.Point();
      var task := Task().(stage := stage);
      AdvancingFollows(here, here.(disk := here.disk.(task := Some(task))), stage);
      s := SaveTask(task);
    }

    method FinishFailed(id: TaskId, code: ErrorCode, rolledBack: bool) returns (s: Signal)
      requires !host.cut
      requires Sound() && Holds(id)
      requires !Terminal(Task().stage) && !NoReturn(host.Point())
      requires Settled(host.world, Task().original.image)
      requires if rolledBack then Replacing(Task().stage) || Task().stage.Cleaning? else PreTag(Task().stage)
      modifies host
      ensures host.Trouble() <= old(host.Trouble()) && (host.cut <==> s.Gone?)
      ensures Sound() && Holds(id)
      ensures s.Returned? || s.Gone?
      ensures host.world == old(host.world) && host.issued == old(host.issued)
      ensures s.Returned? ==> Task() == old(Task()).(stage := Failed, rolledBack := rolledBack, errorCode := code)
      ensures old(host.Alive()) ==> s.Returned?
      ensures Did(old(host.deeds), [Saves(Some(Failed))], host.deeds)
    {
      s := SaveTask(Task().(stage := Failed, rolledBack := rolledBack, errorCode := code));
    }

    method FinishManual(id: TaskId) returns (s: Signal)
      requires !host.cut
      requires Sound() && Holds(id)
      requires !Terminal(Task().stage)
      modifies host
      ensures host.Trouble() <= old(host.Trouble()) && (host.cut <==> s.Gone?)
      ensures Sound() && Holds(id)
      ensures s.Returned? || s.Gone?
      ensures host.world == old(host.world) && host.issued == old(host.issued)
      ensures s.Returned? ==> Task() == old(Task()).(stage := ManualIntervention, errorCode := RollbackFailed)
      ensures old(host.Alive()) ==> s.Returned?
      ensures Did(old(host.deeds), [Saves(Some(ManualIntervention))], host.deeds)
    {
      s := SaveTask(Task().(stage := ManualIntervention, errorCode := RollbackFailed));
    }

    // Up to thirty health calls, a pause between them.
    method WaitForStartupHealth(expected: ImageIdentity) returns (s: Signal)
      requires !host.cut
      requires Sound()
      modifies host`tick, host`deeds, host`cut
      ensures host.Trouble() <= old(host.Trouble()) && (host.cut <==> s.Gone?)
      ensures s.Returned? || s.Gone? || s == Raised(HealthCheckFailed)
      ensures old(host.Alive()) ==> !s.Gone?
      ensures s.Returned? ==> Answers(host.world, expected) && Runs(host.world, expected.image)
      ensures old(host.OnceFaulty()) && Answers(host.world, expected) ==> s.Returned?
      ensures exists n :: 1 <= n <= 30 && Did(old(host.deeds), Tries(n, expected), host.deeds)
      ensures s.Raised? ==> Did(old(host.deeds), Tries(30, expected), host.deeds)
      ensures old(host.Faultless()) && Answers(host.world, expected) ==> Did(old(host.deeds), Tries(1, expected), host.deeds)
    {
      s := Raised(HealthCheckFailed);
      for attempt := 0 to STARTUP_HEALTH_MAX_ATTEMPTS
        invariant s == Raised(HealthCheckFailed) && !host.cut
        invariant Did(old(host.deeds), Tries(attempt, expected), host.deeds)
        invariant old(host.Faultless()) && Answers(host.world, expected) ==> attempt == 0
        invariant host.Trouble() <= old(host.Trouble())
        invariant old(host.OnceFaulty()) && Answers(host.world, expected) ==>
                    attempt == 0 || (attempt == 1 && host.Faultless())
      {
        s := host.Health(expected);
        assert Tries(attempt + 1, expected) == Tries(attempt, expected) + [Asks(expected)];
        assert host.deeds == old(host.deeds) + Tries(attempt + 1, expected);
        if !s.Raised? {
          return;
        }
      }
    }

    // Three more health calls, five seconds apart, each preceded by a checkpoint.
    method Stabilize(id: TaskId) returns (s: Signal)
      requires !host.cut
      requires Sound() && Holds(id) && Task().stage.CheckingHealth?
      modifies host
      ensures host.Trouble() <= old(host.Trouble()) && (host.cut <==> s.Gone?)
      ensures Sound() && Holds(id)
      ensures s.Returned? || s.Gone? || s == Raised(HealthCheckFailed)
      ensures host.world == old(host.world) && host.issued == old(host.issued)
      ensures s.Returned? || s.Raised? ==> Task() == old(Task()).(stage := Stabilizing)
      ensures s.Returned? ==> Runs(host.world, Task().target.image)
      ensures old(host.Faultless() && Answers(host.world, Task().target)) ==> s.Returned?
      ensures old(host.Alive()) ==> !s.Gone?
      ensures old(host.OnceFaulty() && Answers(host.world, Task().target)) ==> s.Returned? || host.Faultless()
      ensures s.Returned? ==> Did(old(host.deeds), StabilizingDeeds(old(Task()).target), host.deeds)
    {
      hide GoodTrace, Root, Runs, Answers;
      s := Checkpoint(id, Stabilizing);
      hide Did, StabilizingDeeds;
      FirstRound(old(host.deeds), Task().target, host.deeds);
      for round := 0 to 3
        invariant Sound() && Holds(id)
        invariant s.Returned? || s.Gone?
        invariant host.world == old(host.world) && host.issued == old(host.issued)
        invariant s.Returned? ==> Task() == old(Task()).(stage := Stabilizing)
        invariant s.Returned? ==> Did(old(host.deeds), StabilizingDeeds(old(Task()).target)[..1 + 2 * round], host.deeds)
        invariant s.Returned? && round > 0 ==> Runs(host.world, Task().target.image)
        invariant old(host.Alive()) ==> !s.Gone?
        invariant host.Trouble() <= old(host.Trouble()) && (host.cut <==> s.Gone?)
      {
        if s.Returned? {
          ghost var between := host.deeds;
          s := StabilizeOnce(id);
          if s.Raised? {
            return;
          }
          if s.Returned? {
            OneMoreRound(old(host.deeds), Task().target, round, between, host.deeds);
          }
        }
      }
    }

    lemma FirstRound(before: seq<Deed>, target: ImageIdentity, after: seq<Deed>)
      ensures Did(before, [Saves(Some(Stabilizing))], after) ==> Did(before, StabilizingDeeds(target)[..1], after)
    {
    }

    lemma OneMoreRound(before: seq<Deed>, target: ImageIdentity, round: nat, between: seq<Deed>, after: seq<Deed>)
      requires round < 3 && Did(before, StabilizingDeeds(target)[..1 + 2 * round], between)
      requires Did(between, [Saves(Some(Stabilizing)), Asks(target)], after)
      ensures Did(before, StabilizingDeeds(target)[..1 + 2 * (round + 1)], after)
      ensures round == 2 ==> Did(before, StabilizingDeeds(target), after)
    {
      var deeds := StabilizingDeeds(target);
      assert deeds[1 + 2 * round..][..2] == [Saves(Some(Stabilizing)), Asks(target)];
      assert deeds[..7] == deeds;
    }

    method StabilizeOnce(id: TaskId) returns (s: Signal)
      requires !host.cut
      requires Sound() && Holds(id) && Task().stage.Stabilizing?
      modifies host
      ensures host.Trouble() <= old(host.Trouble()) && (host.cut <==> s.Gone?)
      ensures Sound() && Holds(id)
      ensures s.Returned? || s.Gone? || s == Raised(HealthCheckFailed)
      ensures host.world == old(host.world) && host.issued == old(host.issued)
      ensures s.Returned? || s.Raised? ==> Task() == old(Task())
      ensures s.Returned? ==> Runs(host.world, Task().target.image)
      ensures old(host.Faultless() && Answers(host.world, Task().target)) ==> s.Returned?
      ensures old(host.Alive()) ==> !s.Gone?
      ensures old(host.OnceFaulty() && Answers(host.world, Task().target)) ==> s.Returned? || host.Faultless()
      ensures s.Returned? ==> Did(old(host.deeds), [Saves(Some(Stabilizing)), Asks(old(Task()).target)], host.deeds)
    {
      s := Checkpoint(id, Stabilizing);
      if s.Returned? {
        s := host.Health(Task().target);
      }
    }

    // One step of the cleanup: journal it as started, act, journal it as completed.
    method CleanupOneStep(id: TaskId, step: CleanupStep) returns (s: Signal, done: bool)
      requires !host.cut
      requires Sound() && Holds(id) && CleaningUp(host.disk, host.world)
      requires step.AliasStep? ==> Task().journal.value.versionTag.Completed?
      requires step.ImageStep? ==> Task().journal.value.rollbackAlias.Completed?
      modifies host
      ensures host.Trouble() <= old(host.Trouble()) && (host.cut <==> s.Gone?)
      ensures Sound() && Holds(id)
      ensures s.Returned? || s.Gone?
      ensures host.world.web == old(host.world.web) && host.world.envTag == old(host.world.envTag)
      ensures s.Returned? ==>
                && CleaningUp(host.disk, host.world)
                && Task() == old(Task()).(journal := Task().journal)
                && (done <==> Task().journal.value.Get(step).Completed?)
      ensures old(Task().journal.value.Get(step).Completed?) ==> s.Returned? && host.Point() == old(host.Point())
      ensures s.Returned? && done && !old(Task().journal.value.Get(step).Completed?) ==>
                && old(StepPossible(Task(), step, host.world))
                && Task().journal.value == old(Task()).journal.value.Put(step, Completed)
                && Cleaned(old(Task()), step, old(host.world), host.world)
      ensures old(host.Faultless() && StepPossible(Task(), step, host.world)) ==> s.Returned? && done
      ensures old(host.Alive()) ==> s.Returned?
      ensures old(host.deeds) <= host.deeds
      ensures s.Returned? && done ==> Did(old(host.deeds),
                match old(Task().journal.value.Get(step))
                case Completed => []
                case Started => [Cleans(step), Saves(Some(old(Task()).stage))]
                case NotStarted => [Saves(Some(old(Task()).stage)), Cleans(step), Saves(Some(old(Task()).stage))],
                host.deeds)
    {
      hide GoodTrace, Root, CleanupStepAllowed;
      s := Returned;
      if Task().journal.value.Get(step).Completed? {
        done := true;
        return;
      }
      done := false;
      if Task().journal.value.Get(step).NotStarted? {
        s := SetStep(id, step, Started);
      }
      if s.Returned? {
        s := RunStep(id, step);
      }
      if s.Returned? && StepStarted(Task(), step) {
        done := true;
        s := SetStep(id, step, Completed);
      } else if s.Raised? {
        s := Returned;
      }
    }

    method SetStep(id: TaskId, step: CleanupStep, status: StepStatus) returns (s: Signal)
      requires !host.cut
      requires Sound() && Holds(id) && CleaningUp(host.disk, host.world)
      requires var j := Task().journal.value;
               if status.Started? then j.Get(step).NotStarted?
               else status.Completed? && j.Get(step).Started? && StepDone(Task(), step, host.world)
      requires step.AliasStep? ==> Task().journal.value.versionTag.Completed?
      requires step.ImageStep? ==> Task().journal.value.rollbackAlias.Completed?
      modifies host
      ensures host.Trouble() <= old(host.Trouble()) && (host.cut <==> s.Gone?)
      ensures Sound() && Holds(id)
      ensures s.Returned? || s.Gone?
      ensures host.world == old(host.world)
      ensures s.Returned? ==> CleaningUp(host.disk, host.world)
      ensures s.Returned? ==> Task() == old(Task()).(journal := Some(old(Task()).journal.value.Put(step, status)))
      ensures old(host.Alive()) ==> s.Returned?
      ensures Did(old(host.deeds), [Saves(Some(old(Task()).stage))], host.deeds)
    {
      ghost var here := host.Point();
      var task := Task().(journal := Some(Task().journal.value.Put(step, status)));
      JournalAdvanceKeepsInv(here, here.(disk := here.disk.(task := Some(task))), step, status);
      s := SaveTask(task);
    }

    method RunStep(id: TaskId, step: CleanupStep) returns (s: Signal)
      requires !host.cut
      requires Sound() && Holds(id) && CleaningUp(host.disk, host.world)
      requires StepStarted(Task(), step)
      modifies host
      ensures host.Trouble() <= old(host.Trouble()) && (host.cut <==> s.Gone?)
      ensures Sound() && Holds(id) && CleaningUp(host.disk, host.world)
      ensures host.disk == old(host.disk)
      ensures host.world.web == old(host.world.web) && host.world.envTag == old(host.world.envTag)
      ensures s.Returned? || s.Gone? || s.Raised?
      ensures s.Returned? ==>
                && StepDone(Task(), step, host.world) && CleanupStepAllowed(Task(), step, old(host.world))
                && Cleaned(Task(), step, old(host.world), host.world)
      ensures old(host.Faultless() && CleanupStepAllowed(Task(), step, host.world)) ==> s.Returned?
      ensures old(host.Alive()) ==> !s.Gone?
      ensures Did(old(host.deeds), [Cleans(step)], host.deeds)
    {
      ghost var here := host.Point();
      s := host.CleanupOriginalStep(Task(), step);
      if host.world != here.world {
        CleanupActionKeepsInv(here, host.Point(), step);
      }
    }

    // _cleanup_original: answers whether all three steps are recorded as completed.
    method CleanupOriginal(id: TaskId) returns (s: Signal, complete: bool)
      requires !host.cut
      requires Sound() && Holds(id)
      requires Task().stage.Cleaning? || (Task().stage.Succeeded? && Task().cleanup.Pending?)
      requires Settled(host.world, Task().target.image)
      modifies host
      ensures host.Trouble() <= old(host.Trouble()) && (host.cut <==> s.Gone?)
      ensures Sound() && Holds(id)
      ensures s.Returned? || s.Gone?
      ensures host.world.web == old(host.world.web) && host.world.envTag == old(host.world.envTag)
      ensures s.Returned? ==>
                && Task() == old(Task()).(journal := Task().journal, cleanup := Task().cleanup)
                && !Task().cleanup.Complete?
      ensures s.Returned? ==> (complete <==> Task().journal.Some? && Task().journal.value.IsComplete())
      ensures old(host.Alive()) ==> s.Returned?
      ensures s.Returned? && complete ==> old(CleanupOpen(Task(), host.world))
      ensures old(host.Faultless() && CleanupOpen(Task(), host.world)) ==> complete
      ensures old(host.deeds) <= host.deeds
    {
      s, complete := Returned, false;
      if Task().journal.Some? {
        if Task().cleanup.NotRun? {
          ghost var here := host.Point();
          var task := Task().(cleanup := Pending);
          BeginningCleanupFollows(here, here.(disk := here.disk.(task := Some(task))));
          s := SaveTask(task);
        }
        if s.Returned? {
          s, complete := RunCleanupSteps(id);
        }
      }
    }

    // The loop over the three steps; the first one that is not done ends it.
    method RunCleanupSteps(id: TaskId) returns (s: Signal, complete: bool)
      requires !host.cut
      requires Sound() && Holds(id) && CleaningUp(host.disk, host.world)
      modifies host
      ensures host.Trouble() <= old(host.Trouble()) && (host.cut <==> s.Gone?)
      ensures Sound() && Holds(id)
      ensures s.Returned? || s.Gone?
      ensures host.world.web == old(host.world.web) && host.world.envTag == old(host.world.envTag)
      ensures s.Returned? ==>
                && CleaningUp(host.disk, host.world)
                && Task() == old(Task()).(journal := Task().journal)
      ensures s.Returned? ==> (complete <==> Task().journal.value.IsComplete())
      ensures old(host.Alive()) ==> s.Returned?
      ensures s.Returned? && complete ==> old(CleanupOpen(Task(), host.world))
      ensures old(host.Faultless() && CleanupOpen(Task(), host.world)) ==> complete
      ensures old(host.deeds) <= host.deeds
    {
      CleaningJournalIsLegal(host.Point());
      hide GoodTrace, Root, CleanupOpen, Sound, Settled, CleanupJournal.Legal, CleanupJournal.IsComplete, StepsDone;
      assert StepsDone(Task().journal.value, 0) by {
        NothingDone(Task().journal.value);
      }
      s, complete := Returned, true;
      for k := 0 to 3
        invariant Sound() && Holds(id) && CleaningUp(host.disk, host.world)
        invariant !host.cut && s.Returned? && complete && Task().journal.value.Legal() && StepsDone(Task().journal.value, k)
        invariant host.Trouble() <= old(host.Trouble()) && old(host.deeds) <= host.deeds
        invariant host.world.web == old(host.world.web) && host.world.envTag == old(host.world.envTag)
        invariant Task() == old(Task()).(journal := Task().journal)
        invariant CleanupOpen(Task(), host.world) ==> old(CleanupOpen(Task(), host.world))
        invariant old(host.Faultless() && CleanupOpen(Task(), host.world)) ==> CleanupOpen(Task(), host.world)
      {
        s, complete := PerformStep(id, k);
        if s.Gone? || !complete {
          return;
        }
      }
      AllDone(Task(), host.world);
    }

    // One turn of that loop, and what it makes of the steps still to come.
    method PerformStep(id: TaskId, k: nat) returns (s: Signal, done: bool)
      requires !host.cut
      requires Sound() && Holds(id) && CleaningUp(host.disk, host.world)
      requires k < 3 && Task().journal.value.Legal() && StepsDone(Task().journal.value, k)
      modifies host
      ensures host.Trouble() <= old(host.Trouble()) && (host.cut <==> s.Gone?)
      ensures Sound() && Holds(id)
      ensures s.Returned? || s.Gone?
      ensures host.world.web == old(host.world.web) && host.world.envTag == old(host.world.envTag)
      ensures s.Returned? ==>
                && CleaningUp(host.disk, host.world)
                && Task() == old(Task()).(journal := Task().journal)
                && Task().journal.value.Legal()
                && (if done then StepsDone(Task().journal.value, k + 1) else !Task().journal.value.IsComplete())
      ensures old(host.Alive()) ==> s.Returned?
      ensures s.Returned? && done && CleanupOpen(Task(), host.world) ==> old(CleanupOpen(Task(), host.world))
      ensures old(host.Faultless() && CleanupOpen(Task(), host.world)) ==> done && CleanupOpen(Task(), host.world)
      ensures old(host.deeds) <= host.deeds
    {
      ghost var task, before, step := Task(), host.world, CLEANUP_STEPS[k];
      StepIsNext(task.journal.value, k);
      hide GoodTrace, Root;
      s, done := CleanupOneStep(id, CLEANUP_STEPS[k]);
      if s.Returned? {
        CleaningStaysLegal();
        if done && !task.journal.value.Get(step).Completed? {
          hide StepPossible, Cleaned;
          StepOpensNext(task, step, before, host.world);
        }
      }
    }

    lemma CleaningStaysLegal()
      requires Sound() && CleaningUp(host.disk, host.world)
      ensures Task().journal.value.Legal()
    {
      CleaningJournalIsLegal(host.Point());
    }

    // _commit_success: the task's outcome and the installed version in one save.
    method CommitSuccess(id: TaskId, cleanupComplete: bool, now: int) returns (s: Signal)
      requires !host.cut
      requires Sound() && Holds(id) && Task().stage.Cleaning?
      requires Settled(host.world, Task().target.image)
      requires cleanupComplete ==> Task().journal.Some? && Task().journal.value.IsComplete()
      modifies host
      ensures host.Trouble() <= old(host.Trouble()) && (host.cut <==> s.Gone?)
      ensures Sound() && Holds(id)
      ensures s.Returned? || s.Gone?
      ensures host.world == old(host.world)
      ensures s.Returned? ==>
                && Task() == old(Task()).(stage := Succeeded, cleanup := if cleanupComplete then Complete else Pending)
                && host.disk.lastCheck == Some(CheckResult(Task().target, Task().target, false, now))
      ensures old(host.Alive()) ==> s.Returned?
      ensures Did(old(host.deeds), [Saves(Some(Succeeded))], host.deeds)
    {
      var task := Task().(stage := Succeeded, cleanup := if cleanupComplete then Complete else Pending);
      var next := PersistentState(Some(CheckResult(task.target, task.target, false, now)), Some(task));
      ghost var here := host.Point();
      LosingASaveFollows(here);
      CommittingFollows(here, here.(disk := next), cleanupComplete, now);
      hide Inv, Evolves, Settled;
      s := host.Save(next);
    }

    // _rollback_to_original.  Recovery keeps the interrupted stage on record while it rolls back.
    method RollbackToOriginal(id: TaskId, code: ErrorCode, restoreVersion: bool, preserveStage: bool) returns (s: Signal)
      requires !host.cut
      requires Sound() && Holds(id)
      requires Replacing(Task().stage) || Task().stage.Cleaning?
      requires !preserveStage ==> Replacing(Task().stage)
      requires restoreVersion ==>
                 Task().stage.PersistingVersion? || Task().stage.Cleaning? || Task().stage.RollingBack?
      requires !restoreVersion ==> host.world.envTag == Task().original.image.version
      modifies host
      ensures host.Trouble() <= old(host.Trouble()) && (host.cut <==> s.Gone?)
      ensures Sound() && Holds(id) && host.issued == old(host.issued)
      ensures s.Returned? || s.Gone?
      ensures s.Returned? ==> Task().stage.Failed? || Task().stage.ManualIntervention?
      ensures s.Returned? && Task().stage.Failed? ==>
                && Task().rolledBack && Task().errorCode == code && Settled(host.world, Task().original.image)
                && old(Task().original.rollbackAlias.Some?)
      ensures old(host.Alive()) ==> s.Returned?
      ensures old(host.Faultless()) && old(CanStartRollback(Task(), host.world)) ==> Task().stage.Failed?
      ensures s.Returned? && Task().stage.Failed? ==>
                var stage := if preserveStage then old(Task()).stage else RollingBack;
                exists n ::
                  1 <= n <= 30 && Did(old(host.deeds), RollbackDeeds(old(Task()).original, stage, n, restoreVersion), host.deeds)
    {
      s := RecordRollback(id, code, if preserveStage then Task().stage else RollingBack);
      ghost var task := Task();
      hide GoodTrace, Root, Did, CanStartRollback, Settled, NoReturn, CanAdvance;
      ghost var recorded, restored := host.deeds, host.deeds;
      if s.Returned? {
        s := RestoreOriginal(id, restoreVersion);
        restored := host.deeds;
        if s.Raised? {
          s := FinishManual(id);
        } else if s.Returned? {
          s := FinishFailed(id, code, true);
          RolledBackDeeds(old(host.deeds), task.original, task.stage, restoreVersion, recorded, restored, host.deeds);
        }
      }
    }

    // The stage and the code that a rollback leaves on record while it is under way.
    method RecordRollback(id: TaskId, code: ErrorCode, stage: Stage) returns (s: Signal)
      requires !host.cut
      requires Sound() && Holds(id) && (Replacing(Task().stage) || Task().stage.Cleaning?)
      requires stage == Task().stage || (Replacing(Task().stage) && stage == RollingBack)
      modifies host
      ensures host.Trouble() <= old(host.Trouble()) && (host.cut <==> s.Gone?)
      ensures Sound() && Holds(id) && host.issued == old(host.issued) && host.world == old(host.world)
      ensures s.Returned? || s.Gone?
      ensures s.Returned? ==> Task() == old(Task()).(stage := stage, errorCode := code)
      ensures old(host.Alive()) ==> s.Returned?
      ensures Did(old(host.deeds), [Saves(Some(stage))], host.deeds)
    {
      ghost var here := host.Point();
      var task := Task().(stage := stage, errorCode := code);
      RecordingRollbackKeepsInv(here, here.(disk := here.disk.(task := Some(task))));
      s := SaveTask(task);
    }

    lemma RolledBackDeeds(
      before: seq<Deed>, original: ImageIdentity, stage: Stage, restoreVersion: bool,
      recorded: seq<Deed>, restored: seq<Deed>, after: seq<Deed>)
      requires Did(before, [Saves(Some(stage))], recorded) && Did(restored, [Saves(Some(Failed))], after)
      requires exists n :: 1 <= n <= 30 && Did(recorded, RestoringDeeds(original, stage, n, restoreVersion), restored)
      ensures exists n :: 1 <= n <= 30 && Did(before, RollbackDeeds(original, stage, n, restoreVersion), after)
    {
      var n :| 1 <= n <= 30 && Did(recorded, RestoringDeeds(original, stage, n, restoreVersion), restored);
      hide RestoringDeeds;
      assert Did(before, RollbackDeeds(original, stage, n, restoreVersion), after);
    }

    // The guarded part of the rollback: start, wait for health, put the version back.
    method RestoreOriginal(id: TaskId, restoreVersion: bool) returns (s: Signal)
      requires !host.cut
      requires Sound() && Holds(id)
      requires Replacing(Task().stage) || Task().stage.Cleaning?
      requires restoreVersion ==>
                 Task().stage.PersistingVersion? || Task().stage.Cleaning? || Task().stage.RollingBack?
      requires !restoreVersion ==> host.world.envTag == Task().original.image.version
      modifies host
      ensures host.Trouble() <= old(host.Trouble()) && (host.cut <==> s.Gone?)
      ensures Sound() && Holds(id) && host.issued == old(host.issued)
      ensures s.Returned? || s.Gone? || s.Raised?
      ensures !s.Gone? ==> Task() == old(Task())
      ensures s.Returned? ==> Settled(host.world, Task().original.image) && !NoReturn(host.Point())
      ensures s.Returned? ==> Task().original.rollbackAlias.Some?
      ensures old(host.Alive()) ==> !s.Gone?
      ensures old(host.Faultless()) && old(CanStartRollback(Task(), host.world)) ==> s.Returned?
      ensures s.Returned? ==> exists n ::
                1 <= n <= 30 && Did(old(host.deeds), RestoringDeeds(old(Task()).original, old(Task()).stage, n, restoreVersion), host.deeds)
    {
      hide GoodTrace, Root, CanStartRollback, Answers, Did;
      s := AwaitOriginal(id);
      ghost var up := host.deeds;
      if s.Returned? && restoreVersion {
        s := Checkpoint(id, Task().stage);
        ghost var recorded := host.deeds;
        if s.Returned? {
          s := ReinstateVersion(id);
        }
        if s.Returned? {
          RestoredDeeds(old(host.deeds), Task().original, Task().stage, up, recorded, host.deeds);
        }
      }
    }

    lemma RestoredDeeds(
      before: seq<Deed>, original: ImageIdentity, stage: Stage, up: seq<Deed>, recorded: seq<Deed>, after: seq<Deed>)
      requires exists n :: 1 <= n <= 30 && Did(before, RestoringDeeds(original, stage, n, false), up)
      requires Did(up, [Saves(Some(stage))], recorded) && Did(recorded, [Persists(original.image.version)], after)
      ensures exists n :: 1 <= n <= 30 && Did(before, RestoringDeeds(original, stage, n, true), after)
    {
      var n :| 1 <= n <= 30 && Did(before, RestoringDeeds(original, stage, n, false), up);
      assert Did(before, RestoringDeeds(original, stage, n, true), after);
    }

    // Start and wait.
    method AwaitOriginal(id: TaskId) returns (s: Signal)
      requires !host.cut
      requires Sound() && Holds(id)
      requires Replacing(Task().stage) || Task().stage.Cleaning?
      modifies host
      ensures host.Trouble() <= old(host.Trouble()) && (host.cut <==> s.Gone?)
      ensures Sound() && Holds(id) && host.issued == old(host.issued)
      ensures host.world == old(host.world).(web := host.world.web)
      ensures s.Returned? || s.Gone? || s.Raised?
      ensures !s.Gone? ==> Task() == old(Task())
      ensures s.Returned? ==> Runs(host.world, Task().original.image) && !NoReturn(host.Point())
      ensures s.Returned? ==> Task().original.rollbackAlias.Some?
      ensures old(host.Alive()) ==> !s.Gone?
      ensures old(host.Faultless()) && old(CanStartRollback(Task(), host.world)) ==> s.Returned?
      ensures s.Returned? ==> exists n ::
                1 <= n <= 30 && Did(old(host.deeds), RestoringDeeds(old(Task()).original, old(Task()).stage, n, false), host.deeds)
    {
      hide GoodTrace, Root, CanStartRollback, Answers, Did;
      s := StartOriginal(id);
      ghost var started := host.deeds;
      if s.Returned? {
        s := Checkpoint(id, Task().stage);
      }
      ghost var recorded := host.deeds;
      if s.Returned? {
        s := WaitForStartupHealth(Task().original);
      }
      if s.Returned? {
        StartedDeeds(old(host.deeds), Task().original, Task().stage, started, recorded, host.deeds);
      }
    }

    lemma StartedDeeds(
      before: seq<Deed>, original: ImageIdentity, stage: Stage, started: seq<Deed>, recorded: seq<Deed>, after: seq<Deed>)
      requires Did(before, [StartsOriginal], started) && Did(started, [Saves(Some(stage))], recorded)
      requires exists n :: 1 <= n <= 30 && Did(recorded, Tries(n, original), after)
      ensures exists n :: 1 <= n <= 30 && Did(before, RestoringDeeds(original, stage, n, false), after)
    {
      var n :| 1 <= n <= 30 && Did(recorded, Tries(n, original), after);
      assert Did(before, RestoringDeeds(original, stage, n, false), after);
    }

    method StartOriginal(id: TaskId) returns (s: Signal)
      requires !host.cut
      requires Sound() && Holds(id)
      requires Replacing(Task().stage) || Task().stage.Cleaning?
      modifies host
      ensures host.Trouble() <= old(host.Trouble()) && (host.cut <==> s.Gone?)
      ensures Sound() && host.disk == old(host.disk) && host.issued == old(host.issued)
      ensures host.world == old(host.world).(web := host.world.web)
      ensures s.Returned? || s.Gone? || s.Raised?
      ensures s.Returned? ==> !NoReturn(host.Point()) && Task().original.rollbackAlias.Some?
      ensures old(host.Alive()) ==> !s.Gone?
      ensures old(host.Faultless()) && old(CanStartRollback(Task(), host.world)) ==>
                s.Returned? && Answers(host.world, Task().original)
      ensures Did(old(host.deeds), [StartsOriginal], host.deeds)
    {
      ghost var here := host.Point();
      s := host.StartRollback(Task());
      StartingRollbackKeepsInv(here, host.Point());
    }

    // persist_version of the original.
    method ReinstateVersion(id: TaskId) returns (s: Signal)
      requires !host.cut
      requires Sound() && Holds(id)
      requires Task().stage.PersistingVersion? || Task().stage.Cleaning? || Task().stage.RollingBack?
      requires Runs(host.world, Task().original.image)
      modifies host
      ensures host.Trouble() <= old(host.Trouble()) && (host.cut <==> s.Gone?)
      ensures Sound() && host.disk == old(host.disk) && host.issued == old(host.issued)
      ensures host.world == old(host.world).(envTag := host.world.envTag)
      ensures s.Returned? || s.Gone? || s.Raised?
      ensures s.Returned? ==> host.world.envTag == Task().original.image.version
      ensures old(host.Faultless()) ==> s.Returned?
      ensures old(host.Alive()) ==> !s.Gone?
      ensures old(host.OnceFaulty()) ==> s.Returned? || host.Faultless()
      ensures Did(old(host.deeds), [Persists(old(Task()).original.image.version)], host.deeds)
    {
      ghost var here := host.Point();
      s := host.PersistVersion(Task().original.image.version);
      RestoringVersionKeepsInv(here, host.Point());
    }

    // persist_version of the target.
    method InstallVersion(id: TaskId) returns (s: Signal)
      requires !host.cut
      requires Sound() && Holds(id) && Task().stage.PersistingVersion?
      modifies host
      ensures host.Trouble() <= old(host.Trouble()) && (host.cut <==> s.Gone?)
      ensures Sound() && Holds(id)
      ensures s.Returned? || s.Gone? || s == Raised(OtherFailure)
      ensures host.disk == old(host.disk) && host.issued == old(host.issued)
      ensures host.world == old(host.world).(envTag := host.world.envTag)
      ensures s.Returned? ==> host.world.envTag == Task().target.image.version
      ensures old(host.Faultless()) ==> s.Returned?
      ensures old(host.Alive()) ==> !s.Gone?
      ensures old(host.OnceFaulty()) ==> s.Returned? || host.Faultless()
      ensures Did(old(host.deeds), [Persists(old(Task()).target.image.version)], host.deeds)
    {
      ghost var here := host.Point();
      s := host.PersistVersion(Task().target.image.version);
      InstallingVersionFollows(here, host.Point());
    }

    // _complete_recovered_target: the crash came after the target had proved itself.
    method CompleteRecoveredTarget(id: TaskId, now: int) returns (s: Signal)
      requires !host.cut
      requires Sound() && Holds(id)
      requires Task().stage.PersistingVersion? || Task().stage.Cleaning?
      requires host.world.web.Some? && host.world.web.value.image == Task().target.image
      modifies host
      ensures host.Trouble() <= old(host.Trouble()) && (host.cut <==> s.Gone?)
      ensures Sound() && Holds(id)
      ensures s.Returned? || s.Gone?
      ensures s.Returned? ==> Terminal(Task().stage)
      ensures old(host.Alive()) ==> s.Returned?
      ensures s.Returned? && Task().stage.Failed? ==> Task().rolledBack && old(Task().original.rollbackAlias.Some?)
      ensures old(host.Faultless() && Task().journal.Some? && Answers(host.world, Task().target)) ==> Task().stage.Succeeded?
      ensures old(host.OnceFaulty() && Task().journal.Some? && CanStartRollback(Task(), host.world)
                  && (Answers(host.world, Task().target) || host.Faultless())) ==>
                Task().stage.Succeeded? || Task().stage.Failed?
      ensures s.Returned? && old(Task().stage.Cleaning? && Task().journal.None?) ==> Task().stage.ManualIntervention?
    {
      assert |host.issued| == 4;
      hide GoodTrace, Root, Answers, CleanupOpen;
      if Task().stage.Cleaning? && Task().journal.None? {
        s := FinishManual(id);
        return;
      }
      var persistTargetVersion := Task().stage.PersistingVersion?;
      s := ConfirmTarget(id, persistTargetVersion);
      if s.Raised? {
        s := RollbackToOriginal(id, UpdateFailed, true, true);
      } else if s.Returned? && persistTargetVersion {
        s := Conclude(id, now);
      } else if s.Returned? {
        s := CleanUpAndCommit(id, now);
      }
    }

    // The guarded part of the completion: the target must still answer, and its version is installed if need be.
    method ConfirmTarget(id: TaskId, install: bool) returns (s: Signal)
      requires !host.cut
      requires Sound() && Holds(id)
      requires if install then Task().stage.PersistingVersion? else Task().stage.Cleaning?
      requires host.world.web.Some? && host.world.web.value.image == Task().target.image
      modifies host
      ensures host.Trouble() <= old(host.Trouble()) && (host.cut <==> s.Gone?)
      ensures Sound() && Holds(id) && host.issued == old(host.issued)
      ensures s.Returned? || s.Gone? || s.Raised?
      ensures !s.Gone? ==> Task() == old(Task())
      ensures host.world == old(host.world).(envTag := host.world.envTag)
      ensures s.Returned? ==> Settled(host.world, Task().target.image)
      ensures old(host.Alive()) ==> !s.Gone?
      ensures old(host.Faultless() && Answers(host.world, Task().target)) ==> s.Returned?
      ensures old(host.OnceFaulty() && (Answers(host.world, Task().target) || host.Faultless())) ==>
                s.Returned? || host.Faultless()
      ensures s.Returned? ==>
                Did(old(host.deeds), ConfirmingDeeds(old(Task()).target, old(Task()).stage, install), host.deeds)
    {
      assert !install && Runs(host.world, Task().target.image) ==> Settled(host.world, Task().target.image);
      hide GoodTrace, Root, Answers;
      s := TargetAnswers(id);
      ghost var answered := host.deeds;
      hide Did;
      if s.Returned? && install {
        s := Checkpoint(id, Task().stage);
        ghost var recorded := host.deeds;
        if s.Returned? {
          s := InstallVersion(id);
        }
        if s.Returned? {
          ghost var stage, target := Task().stage, Task().target;
          DidBoth(old(host.deeds), [Saves(Some(stage)), Asks(target)], answered, [Saves(Some(stage))], recorded);
          DidBoth(old(host.deeds), [Saves(Some(stage)), Asks(target)] + [Saves(Some(stage))], recorded,
                  [Persists(target.image.version)], host.deeds);
          assert [Saves(Some(stage)), Asks(target)] + [Saves(Some(stage))] + [Persists(target.image.version)]
              == ConfirmingDeeds(target, stage, true);
        }
      } else {
        assert ConfirmingDeeds(Task().target, Task().stage, false) == [Saves(Some(Task().stage)), Asks(Task().target)];
      }
    }

    method TargetAnswers(id: TaskId) returns (s: Signal)
      requires !host.cut
      requires Sound() && Holds(id) && (Task().stage.PersistingVersion? || Task().stage.Cleaning?)
      requires host.world.web.Some? && host.world.web.value.image == Task().target.image
      modifies host
      ensures host.Trouble() <= old(host.Trouble()) && (host.cut <==> s.Gone?)
      ensures Sound() && Holds(id) && host.issued == old(host.issued) && host.world == old(host.world)
      ensures s.Returned? || s.Gone? || s.Raised?
      ensures !s.Gone? ==> Task() == old(Task())
      ensures s.Returned? ==> Runs(host.world, Task().target.image)
      ensures old(host.Alive()) ==> !s.Gone?
      ensures old(host.Faultless() && Answers(host.world, Task().target)) ==> s.Returned?
      ensures old(host.OnceFaulty() && (Answers(host.world, Task().target) || host.Faultless())) ==>
                s.Returned? || host.Faultless()
      ensures s.Returned? ==>
                Did(old(host.deeds), [Saves(Some(old(Task()).stage)), Asks(old(Task()).target)], host.deeds)
    {
      hide GoodTrace, Root;
      s := Checkpoint(id, Task().stage);
      if s.Returned? {
        s := host.Health(Task().target);
      }
    }

    // recover(): runs when the updater process starts.
    method Recover(now: int) returns (s: Signal)
      requires !host.cut
      requires Sound()
      modifies host
      ensures host.Trouble() <= old(host.Trouble()) && (host.cut <==> s.Gone?)
      ensures Sound()
      ensures s.Returned? || s.Gone?
      ensures s.Returned? && host.disk.task.Some? ==> Terminal(Task().stage)
      ensures old(host.disk.task.None? || Terminal(Task().stage)) ==>
                s.Returned? && host.Point() == old(host.Point()) && host.trace == old(host.trace)
      ensures old(host.Alive()) ==> s.Returned?
      // Who is in the container decides.
      ensures s.Returned? && old(host.disk.task.Some? && !Terminal(Task().stage)) ==>
                host.disk.task.Some? && Decided(old(Task()), old(host.world), Task())
      ensures old(host.Faultless()) && old(Recoverable(host.disk, host.world)) ==>
                && host.disk.task.Some?
                && if old((Task().stage.PersistingVersion? || Task().stage.Cleaning?)
                          && host.world.web.value.image == Task().target.image)
                   then Task().stage.Succeeded? else Task().stage.Failed? && Task().rolledBack
      ensures old(host.Faultless()) && old(host.disk.task.Some? && PreTag(Task().stage) && HasTargetTag(Task())
                                      && HasCompleteIdentity(Task().original)
                                      && Answers(host.world, Task().original)) ==>
                && host.disk.task.Some? && Task().stage.Failed? && !Task().rolledBack
    {
      hide GoodTrace, Root, Recoverable, PlanRecovery, Answers, CanStartRollback, Inspect, Replacing, HasTargetTag;
      s := Returned;
      if host.disk.task.None? {
        NothingToRecover();
        return;
      }
      PlansFit();
      if Terminal(Task().stage) {
        return;
      }
      var id := Task().id;
      if !HasCompleteIdentity(Task().original) || !HasCompleteIdentity(Task().target) {
        s := FinishManual(id);
        return;
      }
      var actual;
      s, actual := host.InspectWeb();
      if s.Gone? {
        return;
      }
      var plan := if s.Returned? then PlanRecovery(Task(), actual) else GiveUp;
      match plan
      case GiveUp => s := FinishManual(id);
      case CompleteTarget => s := CompleteRecoveredTarget(id, now);
      case FailUntouched => s := FailUntouchedTask(id);
      case RollBack(restoreVersion) => s := RollbackToOriginal(id, UpdateFailed, restoreVersion, true);
    }

    lemma NothingToRecover()
      requires host.disk.task.None?
      ensures !Recoverable(host.disk, host.world)
    {
    }

    lemma PlansFit()
      requires Sound() && host.disk.task.Some?
      ensures Recoverable(host.disk, host.world) ==> !Terminal(Task().stage)
      ensures !Terminal(Task().stage) && host.world.web.Some? ==>
                match PlanRecovery(Task(), Inspect(host.world, host.world.web.value.image))
                case GiveUp => true
                case CompleteTarget => CompletesTarget(Task(), host.world)
                case FailUntouched => PreTag(Task().stage) && host.world.web.value.image == Task().original.image
                case RollBack(restoreVersion) =>
                  && !PreTag(Task().stage)
                  && (host.world.web.value.image == Task().original.image || host.world.web.value.image == Task().target.image)
                  && (Replacing(Task().stage) || Task().stage.Cleaning?)
                  && (if restoreVersion then Task().stage.PersistingVersion? || Task().stage.Cleaning? || Task().stage.RollingBack?
                      else host.world.envTag == Task().original.image.version)
      ensures Recoverable(host.disk, host.world) ==>
                && HasCompleteIdentity(Task().original) && HasCompleteIdentity(Task().target)
                && host.world.web.Some? && host.world.web.value.image in host.world.images
                && var plan := PlanRecovery(Task(), Inspect(host.world, host.world.web.value.image));
                   if CompletesTarget(Task(), host.world)
                   then plan.CompleteTarget? && Task().journal.Some? && Answers(host.world, Task().target)
                   else plan.RollBack? && CanStartRollback(Task(), host.world)
      ensures PreTag(Task().stage) && HasTargetTag(Task()) && HasCompleteIdentity(Task().original)
              && Answers(host.world, Task().original) ==>
                && HasCompleteIdentity(Task().target)
                && host.world.web.Some? && host.world.web.value.image in host.world.images
                && PlanRecovery(Task(), Inspect(host.world, host.world.web.value.image)).FailUntouched?
    {
      assert Inv(host.Point());
      hide Inv, GoodTrace, PlanRecovery, Inspect;
      if !Terminal(Task().stage) && host.world.web.Some? {
        PlanMayBeFollowed(host.Point());
      }
      if Recoverable(host.disk, host.world) {
        PlanOfRecoverable(host.Point());
      }
      hide Recoverable;
      if PreTag(Task().stage) && HasTargetTag(Task()) && HasCompleteIdentity(Task().original)
         && Answers(host.world, Task().original)
      {
        PlanOfUntouched(host.Point());
      }
    }

    // Recovery of a task that never stopped the web container.
    method FailUntouchedTask(id: TaskId) returns (s: Signal)
      requires !host.cut
      requires Sound() && Holds(id) && PreTag(Task().stage)
      modifies host
      ensures host.Trouble() <= old(host.Trouble()) && (host.cut <==> s.Gone?)
      ensures Sound() && Holds(id)
      ensures s.Returned? || s.Gone?
      ensures s.Returned? ==> Task().stage.ManualIntervention? || (Task().stage.Failed? && !Task().rolledBack)
      ensures old(host.Alive()) ==> s.Returned?
      ensures old(host.Faultless()) && old(Answers(host.world, Task().original)) ==>
                Task().stage.Failed? && !Task().rolledBack
      ensures s.Returned? && Task().stage.Failed? ==>
                Did(old(host.deeds), [Saves(Some(old(Task()).stage)), Asks(old(Task()).original), Saves(Some(Failed))], host.deeds)
    {
      hide GoodTrace, Root, Did;
      s := Checkpoint(id, Task().stage);
      ghost var recorded := host.deeds;
      if s.Returned? {
        s := AskOriginal(id);
      }
      ghost var asked := host.deeds;
      if s.Raised? {
        s := FinishManual(id);
      } else if s.Returned? {
        s := FinishFailed(id, UpdateFailed, false);
        DidBoth(old(host.deeds), [Saves(Some(old(Task()).stage))], recorded, [Asks(old(Task()).original)], asked);
        DidBoth(old(host.deeds), [Saves(Some(old(Task()).stage))] + [Asks(old(Task()).original)], asked,
                [Saves(Some(Failed))], host.deeds);
        assert [Saves(Some(old(Task()).stage))] + [Asks(old(Task()).original)] + [Saves(Some(Failed))]
            == [Saves(Some(old(Task()).stage)), Asks(old(Task()).original), Saves(Some(Failed))];
      }
    }

    method AskOriginal(id: TaskId) returns (s: Signal)
      requires !host.cut
      requires Sound() && Holds(id) && PreTag(Task().stage)
      modifies host`tick, host`deeds, host`cut
      ensures host.Trouble() <= old(host.Trouble()) && (host.cut <==> s.Gone?)
      ensures s.Returned? || s.Gone? || s.Raised?
      ensures s.Returned? ==> Settled(host.world, Task().original.image) && !NoReturn(host.Point())
      ensures old(host.Alive()) ==> !s.Gone?
      ensures old(host.Faultless()) && Answers(host.world, Task().original) ==> s.Returned?
      ensures Did(old(host.deeds), [Asks(Task().original)], host.deeds)
    {
      s := host.Health(Task().original);
    }

    // The first half of _execute: back up, verify the target, tag the way back.
    method Prepare(id: TaskId) returns (s: Signal)
      requires !host.cut
      requires Sound() && Holds(id) && Task().stage.Checking?
      modifies host
      ensures host.Trouble() <= old(host.Trouble()) && (host.cut <==> s.Gone?)
      ensures Sound() && Holds(id)
      ensures s.Returned? || s.Gone? || s.Raised?
      ensures old(host.Alive()) ==> !s.Gone?
      ensures s.Raised? ==> s.code.BackupFailed? || s.code.PullFailed? || s.code.OtherFailure?
      ensures s.Raised? ==> PreTag(Task().stage) && |host.issued| == 1
      ensures s.Returned? ==> Installable(host.world, Task().target)
      ensures s.Returned? ==>
                && Task().stage.Pulling? && RollbackReady(Task(), host.world) && |host.issued| == 1
                && Task().journal == old(Task()).journal && Task().target == old(Task()).target
      ensures old(host.Faultless()) && old(TaggableAsOriginal(Task(), host.world) && UpgradePossible(Task(), host.world)) ==>
                s.Returned? && UpgradePossible(Task(), host.world)
      ensures s.Returned? ==> Did(old(host.deeds), PreparingDeeds(old(Task()).target), host.deeds)
    {
      hide GoodTrace, Root, Did;
      s := BackUpData(id);
      ghost var backedUp := host.deeds;
      if s.Returned? {
        s := Checkpoint(id, Pulling);
      }
      ghost var pulling := host.deeds;
      if s.Returned? {
        s := VerifyAndTag(id);
      }
      if s.Returned? {
        DidBoth(old(host.deeds), PreparingDeeds(Task().target)[..3], backedUp, [Saves(Some(Pulling))], pulling);
        DidBoth(old(host.deeds), PreparingDeeds(Task().target)[..3] + [Saves(Some(Pulling))], pulling,
                PreparingDeeds(Task().target)[4..], host.deeds);
        PreparingParts(Task().target);
      }
    }

    lemma PreparingParts(target: ImageIdentity)
      ensures var deeds := PreparingDeeds(target); deeds[..3] + [Saves(Some(Pulling))] + deeds[4..] == deeds
      ensures PreparingDeeds(target)[4..] == [Verifies(target), Saves(Some(Pulling))] + [Tags, Saves(Some(Pulling))]
      ensures PreparingDeeds(target)[..3] == [Saves(Some(BackingUp))] + [BacksUp] + [Saves(Some(BackingUp))]
    {
    }

    method VerifyAndTag(id: TaskId) returns (s: Signal)
      requires !host.cut
      requires Sound() && Holds(id) && Task().stage.Pulling?
      modifies host
      ensures host.Trouble() <= old(host.Trouble()) && (host.cut <==> s.Gone?)
      ensures Sound() && Holds(id)
      ensures s.Returned? || s.Gone? || s == Raised(PullFailed) || s == Raised(OtherFailure)
      ensures old(host.Alive()) ==> !s.Gone?
      ensures s.Raised? ==> Task() == old(Task())
      ensures s.Returned? ==> Installable(host.world, Task().target)
      ensures s.Returned? ==>
                && Task().stage.Pulling? && RollbackReady(Task(), host.world)
                && Task().journal == old(Task()).journal && Task().target == old(Task()).target
      ensures host.issued == old(host.issued)
      ensures old(host.Faultless()) && old(TaggableAsOriginal(Task(), host.world) && UpgradePossible(Task(), host.world)) ==>
                s.Returned? && UpgradePossible(Task(), host.world)
      ensures s.Returned? ==> Did(old(host.deeds), PreparingDeeds(old(Task()).target)[4..], host.deeds)
    {
      s := PullTarget(id);
      hide GoodTrace, Root, Did, TaggableAsOriginal, UpgradePossible;
      ghost var pulled := host.deeds;
      if s.Returned? {
        s := TagOriginal(id);
      }
      if s.Returned? {
        DidBoth(old(host.deeds), [Verifies(Task().target), Saves(Some(Pulling))], pulled, [Tags, Saves(Some(Pulling))], host.deeds);
        PreparingParts(Task().target);
      }
    }

    method PullTarget(id: TaskId) returns (s: Signal)
      requires !host.cut
      requires Sound() && Holds(id) && Task().stage.Pulling?
      modifies host
      ensures host.Trouble() <= old(host.Trouble()) && (host.cut <==> s.Gone?)
      ensures Sound() && Holds(id)
      ensures s.Returned? || s.Gone? || s == Raised(PullFailed) || s == Raised(OtherFailure)
      ensures old(host.Alive()) ==> !s.Gone?
      ensures s.Returned? || s.Raised? ==> Task() == old(Task())
      ensures s.Returned? ==> Installable(host.world, Task().target)
      ensures host.issued == old(host.issued)
      ensures old(host.Faultless()) && old(TaggableAsOriginal(Task(), host.world) && UpgradePossible(Task(), host.world)) ==>
                s.Returned? && TaggableAsOriginal(Task(), host.world) && UpgradePossible(Task(), host.world)
      ensures s.Returned? ==> Did(old(host.deeds), [Verifies(old(Task()).target), Saves(Some(Pulling))], host.deeds)
    {
      ghost var here := host.Point();
      s := host.VerifyTarget(Task().target);
      PullingFollows(here, host.Point());
      if s.Returned? {
        s := Checkpoint(id, Pulling);
      }
    }

    // tag_rollback and the save that records the alias.
    method TagOriginal(id: TaskId) returns (s: Signal)
      requires !host.cut
      requires Sound() && Holds(id) && Task().stage.Pulling?
      modifies host
      ensures host.Trouble() <= old(host.Trouble()) && (host.cut <==> s.Gone?)
      ensures Sound() && Holds(id)
      ensures s.Returned? || s.Gone? || s == Raised(OtherFailure)
      ensures old(host.Alive()) ==> !s.Gone?
      ensures s.Raised? ==> Task() == old(Task())
      ensures s.Returned? && old(Installable(host.world, Task().target)) ==> Installable(host.world, Task().target)
      ensures s.Returned? ==>
                && Task().stage.Pulling? && RollbackReady(Task(), host.world)
                && Task().journal == old(Task()).journal && Task().target == old(Task()).target
      ensures host.issued == old(host.issued)
      ensures old(host.Faultless()) && old(TaggableAsOriginal(Task(), host.world)) ==> s.Returned?
      ensures s.Returned? && old(UpgradePossible(Task(), host.world)) ==> UpgradePossible(Task(), host.world)
      ensures s.Returned? ==> Did(old(host.deeds), [Tags, Saves(Some(Pulling))], host.deeds)
    {
      ghost var here := host.Point();
      var tagged;
      s, tagged := host.TagRollback(Task());
      TaggingFollows(here, host.Point());
      if s.Returned? {
        here := host.Point();
        RecordingAliasFollows(here, here.(disk := here.disk.(task := Some(tagged))));
        s := SaveTask(tagged);
      }
    }

    // The first checkpoint, create_backup and _record_backups.
    method BackUpData(id: TaskId) returns (s: Signal)
      requires !host.cut
      requires Sound() && Holds(id) && Task().stage.Checking?
      modifies host
      ensures host.Trouble() <= old(host.Trouble()) && (host.cut <==> s.Gone?)
      ensures Sound() && Holds(id)
      ensures s.Returned? || s.Gone? || s.Raised?
      ensures s.Raised? ==> s.code.BackupFailed?
      ensures s.Raised? ==> PreTag(Task().stage) && |host.issued| == 1
      ensures s.Returned? ==> BackupsRecorded(Task(), host.world) && host.issued == [BackUp]
      ensures host.world == old(host.world).(backups := host.world.backups)
      ensures s.Returned? ==>
                Task() == old(Task()).(stage := BackingUp,
                                       databaseBackup := Task().databaseBackup, uploadsBackup := Task().uploadsBackup)
      ensures old(host.Faultless()) ==> s.Returned?
      ensures old(host.Alive()) ==> !s.Gone?
      ensures s.Returned? ==> Did(old(host.deeds), PreparingDeeds(old(Task()).target)[..3], host.deeds)
    {
      s := Checkpoint(id, BackingUp);
      if s.Gone? {
        return;
      }
      var database, uploads;
      ghost var here, recorded := host.Point(), host.deeds;
      s, database, uploads := host.CreateBackup();
      BackingUpFollows(here, host.Point());
      assert Did(recorded, [BacksUp], host.deeds);
      hide Did, GoodTrace, Root;
      ghost var backedUp := host.deeds;
      if s.Returned? {
        s := RecordBackups(id, database, uploads);
        DidBoth(old(host.deeds), [Saves(Some(BackingUp))], recorded, [BacksUp], backedUp);
        DidBoth(old(host.deeds), [Saves(Some(BackingUp))] + [BacksUp], backedUp, [Saves(Some(BackingUp))], host.deeds);
        PreparingParts(Task().target);
      }
    }

    // _record_backups.
    method RecordBackups(id: TaskId, database: BackupFile, uploads: BackupFile) returns (s: Signal)
      requires !host.cut
      requires Sound() && Holds(id) && Task().stage.BackingUp? && host.issued == [BackUp]
      requires database in host.world.backups && uploads in host.world.backups
      modifies host
      ensures host.Trouble() <= old(host.Trouble()) && (host.cut <==> s.Gone?)
      ensures Sound() && Holds(id)
      ensures s.Returned? || s.Gone?
      ensures host.world == old(host.world) && host.issued == old(host.issued)
      ensures s.Returned? ==>
                Task() == old(Task()).(databaseBackup := Some(database), uploadsBackup := Some(uploads))
      ensures s.Returned? ==> BackupsRecorded(Task(), host.world)
      ensures old(host.Alive()) ==> s.Returned?
      ensures Did(old(host.deeds), [Saves(Some(BackingUp))], host.deeds)
    {
      ghost var here := host.Point();
      var task := Task().(databaseBackup := Some(database), uploadsBackup := Some(uploads));
      RecordingBackupsFollows(here, here.(disk := here.disk.(task := Some(task))));
      s := SaveTask(task);
    }

    // The second half: stop, migrate, start the target.
    method ReplaceWeb(id: TaskId) returns (s: Signal)
      requires !host.cut
      requires Sound() && Holds(id) && Task().stage.Pulling? && RollbackReady(Task(), host.world)
      requires |host.issued| == 1
      modifies host
      ensures host.Trouble() <= old(host.Trouble()) && (host.cut <==> s.Gone?)
      ensures Sound() && Holds(id)
      ensures s.Returned? || s.Gone? || s.Raised?
      ensures old(host.Alive()) ==> !s.Gone?
      ensures s.Raised? ==> Replacing(Task().stage) && !Task().stage.PersistingVersion? && !Task().stage.RollingBack?
      ensures s.Raised? ==> 1 < |host.issued| <= 4 && s.code == (if |host.issued| == 3 then MigrationFailed else OtherFailure)
      ensures s.Returned? ==> Task() == old(Task()).(stage := StartingWeb) && |host.issued| == 4
      ensures host.world == old(host.world).(web := host.world.web)
      ensures old(host.Faultless()) && old(Installable(host.world, Task().target)) ==>
                s.Returned? && Answers(host.world, Task().target)
      ensures old(host.OnceFaulty() && Installable(host.world, Task().target)) ==>
                (s.Returned? && Answers(host.world, Task().target)) || host.Faultless()
      ensures s.Returned? ==> Did(old(host.deeds), REPLACING_DEEDS, host.deeds)
    {
      hide GoodTrace, Root, Installable, Answers, RollbackReady, CanStartRollback, Did;
      s := StopAndMigrate(id);
      ghost var migrated := host.deeds;
      if s.Returned? {
        s := Checkpoint(id, StartingWeb);
      }
      ghost var starting := host.deeds;
      if s.Returned? {
        s := StartNewWeb(id);
      }
      if s.Returned? {
        DidBoth(old(host.deeds), REPLACING_DEEDS[..4], migrated, [Saves(Some(StartingWeb))], starting);
        DidBoth(old(host.deeds), REPLACING_DEEDS[..4] + [Saves(Some(StartingWeb))], starting, [Starts], host.deeds);
        assert REPLACING_DEEDS[..4] + [Saves(Some(StartingWeb))] + [Starts] == REPLACING_DEEDS;
      }
    }

    method StopAndMigrate(id: TaskId) returns (s: Signal)
      requires !host.cut
      requires Sound() && Holds(id) && Task().stage.Pulling? && RollbackReady(Task(), host.world)
      requires |host.issued| == 1
      modifies host
      ensures host.Trouble() <= old(host.Trouble()) && (host.cut <==> s.Gone?)
      ensures Sound() && Holds(id)
      ensures s.Returned? || s.Gone? || s.Raised?
      ensures old(host.Alive()) ==> !s.Gone?
      ensures s.Raised? ==> Replacing(Task().stage) && !Task().stage.PersistingVersion? && !Task().stage.RollingBack?
      ensures s.Raised? ==> 1 < |host.issued| <= 3 && s.code == (if |host.issued| == 3 then MigrationFailed else OtherFailure)
      ensures s.Returned? ==> Task() == old(Task()).(stage := Migrating) && |host.issued| == 3
      ensures host.world == old(host.world).(web := host.world.web)
      ensures old(Installable(host.world, Task().target)) ==> Installable(host.world, old(Task()).target)
      ensures old(host.Faultless()) && old(Installable(host.world, Task().target)) ==> s.Returned?
      ensures old(host.OnceFaulty() && Installable(host.world, Task().target)) ==> s.Returned? || host.Faultless()
      ensures s.Returned? ==> Did(old(host.deeds), REPLACING_DEEDS[..4], host.deeds)
    {
      hide GoodTrace, Root, Installable, RollbackReady, CanStartRollback, Did;
      s := Checkpoint(id, StoppingWeb);
      ghost var stopping := host.deeds;
      if s.Returned? {
        s := StopOriginal(id);
      }
      ghost var stopped := host.deeds;
      if s.Returned? {
        s := Checkpoint(id, Migrating);
      }
      ghost var migrating := host.deeds;
      if s.Returned? {
        s := MigrateDatabase(id);
      }
      if s.Returned? {
        DidBoth(old(host.deeds), [Saves(Some(StoppingWeb))], stopping, [Stops], stopped);
        DidBoth(stopped, [Saves(Some(Migrating))], migrating, [Migrates], host.deeds);
        DidBoth(old(host.deeds), [Saves(Some(StoppingWeb))] + [Stops], stopped,
                [Saves(Some(Migrating))] + [Migrates], host.deeds);
        assert REPLACING_DEEDS[..4] == [Saves(Some(StoppingWeb))] + [Stops] + ([Saves(Some(Migrating))] + [Migrates]);
      }
    }

    method StopOriginal(id: TaskId) returns (s: Signal)
      requires !host.cut
      requires Sound() && Holds(id) && Task().stage.StoppingWeb? && |host.issued| == 1
      modifies host
      ensures host.Trouble() <= old(host.Trouble()) && (host.cut <==> s.Gone?)
      ensures Sound() && host.disk == old(host.disk) && |host.issued| == 2
      ensures host.world == old(host.world).(web := host.world.web)
      ensures s.Returned? || s.Gone? || s == Raised(OtherFailure)
      ensures old(Installable(host.world, Task().target)) ==> Installable(host.world, Task().target)
      ensures old(host.Faultless()) ==> s.Returned?
      ensures old(host.Alive()) ==> !s.Gone?
      ensures old(host.OnceFaulty()) ==> s.Returned? || host.Faultless()
      ensures Did(old(host.deeds), [Stops], host.deeds)
    {
      ghost var here := host.Point();
      s := host.StopWebContainer();
      ReplacingFollows(here, host.Point());
    }

    method MigrateDatabase(id: TaskId) returns (s: Signal)
      requires !host.cut
      requires Sound() && Holds(id) && Task().stage.Migrating? && |host.issued| == 2
      modifies host
      ensures host.Trouble() <= old(host.Trouble()) && (host.cut <==> s.Gone?)
      ensures Sound() && host.disk == old(host.disk) && |host.issued| == 3 && host.world == old(host.world)
      ensures s.Returned? || s.Gone? || s == Raised(MigrationFailed)
      ensures old(host.Alive()) ==> !s.Gone?
      ensures old(host.Faultless()) && Installable(host.world, Task().target) ==> s.Returned?
      ensures old(host.OnceFaulty()) && Installable(host.world, Task().target) ==> s.Returned? || host.Faultless()
      ensures Did(old(host.deeds), [Migrates], host.deeds)
    {
      ghost var here := host.Point();
      s := host.MigrateTarget(Task().target);
      ReplacingFollows(here, host.Point());
    }

    method StartNewWeb(id: TaskId) returns (s: Signal)
      requires !host.cut
      requires Sound() && Holds(id) && Task().stage.StartingWeb? && |host.issued| == 3
      modifies host
      ensures host.Trouble() <= old(host.Trouble()) && (host.cut <==> s.Gone?)
      ensures Sound() && host.disk == old(host.disk) && |host.issued| == 4
      ensures host.world == old(host.world).(web := host.world.web)
      ensures s.Returned? || s.Gone? || s == Raised(OtherFailure)
      ensures old(host.Faultless()) && old(Installable(host.world, Task().target)) ==>
                s.Returned? && Answers(host.world, Task().target)
      ensures old(host.Alive()) ==> !s.Gone?
      ensures old(host.OnceFaulty() && Installable(host.world, Task().target)) ==>
                (s.Returned? && Answers(host.world, Task().target)) || host.Faultless()
      ensures Did(old(host.deeds), [Starts], host.deeds)
    {
      ghost var here := host.Point();
      s := host.StartTargetContainer(Task().target);
      ReplacingFollows(here, host.Point());
    }

    // The target must answer before its version becomes the installed one.
    method ProveTarget(id: TaskId) returns (s: Signal)
      requires !host.cut
      requires Sound() && Holds(id) && Task().stage.StartingWeb? && |host.issued| == 4
      modifies host
      ensures host.Trouble() <= old(host.Trouble()) && (host.cut <==> s.Gone?)
      ensures Sound() && Holds(id)
      ensures s.Returned? || s.Gone? || s.Raised?
      ensures old(host.Alive()) ==> !s.Gone?
      ensures s.Raised? ==> s.code.HealthCheckFailed? || s.code.OtherFailure?
      ensures s.Raised? ==> Replacing(Task().stage) && !Task().stage.RollingBack? && |host.issued| == 4
      ensures old(host.OnceFaulty() && (Answers(host.world, Task().target) || host.Faultless())) ==>
                s.Returned? || host.Faultless()
      ensures s.Returned? ==> Task() == old(Task()).(stage := PersistingVersion) && Settled(host.world, Task().target.image)
      ensures s.Returned? ==> |host.issued| == 4 && (Task().journal.Some? ==> Task().journal == Some(BLANK_JOURNAL))
      ensures host.world == old(host.world).(envTag := host.world.envTag)
      ensures old(host.Faultless()) && old(Answers(host.world, Task().target)) ==> s.Returned?
      ensures s.Returned? ==> exists n :: 1 <= n <= 30 && Did(old(host.deeds), ProvingDeeds(old(Task()).target, n), host.deeds)
    {
      assert Task().journal.Some? ==> Task().journal == Some(BLANK_JOURNAL);
      hide GoodTrace, Root, Did;
      s := AwaitTarget(id);
      ghost var proved := host.deeds;
      if s.Returned? {
        s := Checkpoint(id, PersistingVersion);
      }
      ghost var persisting := host.deeds;
      if s.Returned? {
        s := InstallVersion(id);
      }
      if s.Returned? {
        ghost var target := Task().target;
        ghost var n :| 1 <= n <= 30
          && Did(old(host.deeds), [Saves(Some(CheckingHealth))] + Tries(n, target) + StabilizingDeeds(target), proved);
        DidBoth(proved, [Saves(Some(PersistingVersion))], persisting, [Persists(target.image.version)], host.deeds);
        DidBoth(old(host.deeds), [Saves(Some(CheckingHealth))] + Tries(n, target) + StabilizingDeeds(target), proved,
                [Saves(Some(PersistingVersion))] + [Persists(target.image.version)], host.deeds);
        assert [Saves(Some(PersistingVersion))] + [Persists(target.image.version)]
            == [Saves(Some(PersistingVersion)), Persists(target.image.version)];
        assert Did(old(host.deeds), ProvingDeeds(target, n), host.deeds);
      }
    }

    method AwaitTarget(id: TaskId) returns (s: Signal)
      requires !host.cut
      requires Sound() && Holds(id) && Task().stage.StartingWeb? && |host.issued| == 4
      modifies host
      ensures host.Trouble() <= old(host.Trouble()) && (host.cut <==> s.Gone?)
      ensures Sound() && Holds(id)
      ensures s.Returned? || s.Gone? || s == Raised(HealthCheckFailed)
      ensures old(host.Alive()) ==> !s.Gone?
      ensures s.Raised? ==> Replacing(Task().stage) && !Task().stage.RollingBack? && !Task().stage.PersistingVersion?
      ensures old(host.OnceFaulty() && (Answers(host.world, Task().target) || host.Faultless())) ==>
                s.Returned? || host.Faultless()
      ensures s.Returned? ==> Task() == old(Task()).(stage := Stabilizing) && Runs(host.world, Task().target.image)
      ensures host.world == old(host.world) && host.issued == old(host.issued)
      ensures old(host.Faultless()) && old(Answers(host.world, Task().target)) ==> s.Returned?
      ensures s.Returned? ==> exists n :: 1 <= n <= 30 && Did(old(host.deeds),
                [Saves(Some(CheckingHealth))] + Tries(n, old(Task()).target) + StabilizingDeeds(old(Task()).target), host.deeds)
    {
      hide GoodTrace, Root, Did;
      s := Checkpoint(id, CheckingHealth);
      ghost var checking := host.deeds;
      if s.Returned? {
        s := WaitForStartupHealth(Task().target);
      }
      ghost var answered := host.deeds;
      if s.Returned? {
        s := Stabilize(id);
      }
      if s.Returned? {
        ghost var target := Task().target;
        ghost var n :| 1 <= n <= 30 && Did(checking, Tries(n, target), answered);
        DidBoth(old(host.deeds), [Saves(Some(CheckingHealth))], checking, Tries(n, target), answered);
        DidBoth(old(host.deeds), [Saves(Some(CheckingHealth))] + Tries(n, target), answered,
                StabilizingDeeds(target), host.deeds);
      }
    }

    // _handle_failure.
    method HandleFailure(id: TaskId, code: ErrorCode, webWasStopped: bool) returns (s: Signal)
      requires !host.cut
      requires Sound() && Holds(id)
      requires if webWasStopped then Replacing(Task().stage) && !Task().stage.RollingBack? else PreTag(Task().stage)
      modifies host
      ensures host.Trouble() <= old(host.Trouble()) && (host.cut <==> s.Gone?)
      ensures Sound() && Holds(id)
      ensures s.Returned? || s.Gone?
      ensures s.Returned? ==> Task().stage.Failed? || (webWasStopped && Task().stage.ManualIntervention?)
      ensures s.Returned? && Task().stage.Failed? ==>
                && Task().errorCode == code && Task().rolledBack == webWasStopped
                && Settled(host.world, Task().original.image)
      ensures host.issued == old(host.issued)
      ensures old(host.Alive()) ==> s.Returned?
      ensures old(host.Faultless()) ==> Task().stage.Failed?
      ensures s.Returned? && Task().stage.Failed? ==>
                if webWasStopped then
                  exists n :: 1 <= n <= 30 && Did(old(host.deeds),
                    RollbackDeeds(old(Task()).original, RollingBack, n, old(Task()).stage.PersistingVersion?), host.deeds)
                else Did(old(host.deeds), [Saves(Some(Failed))], host.deeds)
    {
      if webWasStopped {
        s := RollbackToOriginal(id, code, Task().stage.PersistingVersion?, false);
      } else {
        s := FinishFailed(id, code, false);
      }
    }

    // The stop is the second command of the pipeline.
    lemma StopIsSecond()
      requires Sound() && host.disk.task.Some?
      ensures StopWeb in host.issued <==> |host.issued| > 1
    {
      assert Inv(host.Point());
      hide GoodTrace, StageInv;
      assert host.issued <= PIPELINE;
      if |host.issued| > 1 {
        assert host.issued[1] == PIPELINE[1];
      }
    }

    // The guarded part of _execute, and whether it came to the stop.
    method Upgrade(id: TaskId) returns (s: Signal, webWasStopped: bool)
      requires !host.cut
      requires Sound() && Holds(id) && Task().stage.Checking?
      modifies host
      ensures host.Trouble() <= old(host.Trouble()) && (host.cut <==> s.Gone?)
      ensures Sound() && Holds(id)
      ensures s.Returned? || s.Gone? || s.Raised?
      ensures old(host.Alive()) ==> !s.Gone?
      ensures s.Returned? ==>
                && Task().stage.PersistingVersion? && |host.issued| == 4 && Settled(host.world, Task().target.image)
                && Task().target == old(Task()).target
      ensures s.Raised? ==>
                && (if webWasStopped then Replacing(Task().stage) && !Task().stage.RollingBack? else PreTag(Task().stage))
                && (webWasStopped <==> |host.issued| > 1) && CodeTells(SafeErrorCode(s.code), |host.issued|)
      ensures old(host.OnceFaulty()) && s.Raised? && webWasStopped ==> host.Faultless()
      ensures old(host.Faultless() && Task().journal.Some?
                  && TaggableAsOriginal(Task(), host.world) && UpgradePossible(Task(), host.world)) ==>
                s.Returned? && CleanupOpen(Task(), host.world)
      ensures s.Returned? ==> exists n :: 1 <= n <= 30 && Did(old(host.deeds), PipelineDeeds(old(Task()).target, n), host.deeds)
    {
      hide GoodTrace, Root, Installable, Answers, RollbackReady, UpgradePossible, CleanupOpen, Did, ProvingDeeds,
           PreparingDeeds;
      webWasStopped := false;
      s := Prepare(id);
      ghost var prepared, before, made := Task(), host.world, host.deeds;
      if s.Returned? {
        webWasStopped := true;
        s := ReplaceWeb(id);
      }
      ghost var replaced := host.deeds;
      if s.Returned? {
        s := ProveTarget(id);
      }
      if s.Returned? && UpgradePossible(prepared, before) && Task().journal == Some(BLANK_JOURNAL) {
        TargetIsOther();
        PreparedCleanupIsOpen(prepared, before, Task(), host.world);
      }
      if s.Returned? {
        PipelineDone(old(host.deeds), Task().target, made, replaced, host.deeds);
      }
    }

    lemma TargetIsOther()
      requires Sound() && host.disk.task.Some?
      ensures Task().original.image.version != Task().target.image.version
    {
      NewerIsOther(host.Point());
    }

    lemma PipelineDone(before: seq<Deed>, target: ImageIdentity, made: seq<Deed>, replaced: seq<Deed>, after: seq<Deed>)
      requires Did(before, PreparingDeeds(target), made) && Did(made, REPLACING_DEEDS, replaced)
      requires exists n :: 1 <= n <= 30 && Did(replaced, ProvingDeeds(target, n), after)
      ensures exists n :: 1 <= n <= 30 && Did(before, PipelineDeeds(target, n), after)
    {
      hide Did, ProvingDeeds, PreparingDeeds;
      var n :| 1 <= n <= 30 && Did(replaced, ProvingDeeds(target, n), after);
      DidBoth(before, PreparingDeeds(target), made, REPLACING_DEEDS, replaced);
      DidBoth(before, PreparingDeeds(target) + REPLACING_DEEDS, replaced, ProvingDeeds(target, n), after);
      assert Did(before, PipelineDeeds(target, n), after);
    }

    // _execute: refused unless the task waits in CHECKING; otherwise it ends in a terminal stage.
    method Execute(id: TaskId, now: int) returns (s: Signal)
      requires !host.cut
      requires Sound()
      modifies host
      ensures host.Trouble() <= old(host.Trouble()) && (host.cut <==> s.Gone?)
      ensures Sound()
      ensures s.Returned? || s.Gone? || s.Refused?
      ensures s.Refused? <==> !old(Holds(id) && Task().stage.Checking?)
      ensures s.Refused? ==> host.Point() == old(host.Point()) && host.trace == old(host.trace)
      ensures s.Returned? ==> Holds(id) && Terminal(Task().stage)
      ensures old(host.Alive()) ==> !s.Gone?
      // The code on record tells how far it got.
      ensures s.Returned? && Task().stage.Failed? ==> CodeTells(Task().errorCode, |host.issued|)
      // One failure anywhere: the target is in place, or the original is back whenever it had been stopped.
      ensures old(host.OnceFaulty() && Holds(id) && Task().stage.Checking?) ==>
                && s.Returned?
                && (if Task().stage.Succeeded? then Settled(host.world, Task().target.image)
                    else
                      && Task().stage.Failed? && Settled(host.world, Task().original.image)
                      && (Task().rolledBack <==> StopWeb in host.issued))
      ensures old(host.Faultless()) && old(Holds(id) && Task().stage.Checking? && Task().journal.Some?
                  && TaggableAsOriginal(Task(), host.world) && UpgradePossible(Task(), host.world)) ==>
                && s.Returned? && Task().stage.Succeeded? && Task().cleanup.Complete?
                && Task().target == old(Task()).target
      ensures s.Returned? && Task().stage.Succeeded? ==>
                Upgraded(old(host.deeds), Task().target, host.deeds)
    {
      hide GoodTrace, Root, TaggableAsOriginal, UpgradePossible, CleanupOpen, Did, Upgraded, Settled, CodeTells;
      if !Holds(id) || !Task().stage.Checking? {
        return Refused;
      }
      var webWasStopped;
      s, webWasStopped := Upgrade(id);
      if s.Raised? {
        s := HandleFailure(id, SafeErrorCode(s.code), webWasStopped);
        StopIsSecond();
      } else if s.Returned? {
        ghost var made := host.deeds;
        s := Conclude(id, now);
        if s.Returned? {
          UpgradeIsDone(old(host.deeds), Task().target, made, host.deeds);
        }
      }
    }

    // The end of _execute: the point of no return, the cleanup and the commit.
    method Conclude(id: TaskId, now: int) returns (s: Signal)
      requires !host.cut
      requires Sound() && Holds(id) && Task().stage.PersistingVersion?
      requires |host.issued| == 4 && Settled(host.world, Task().target.image)
      modifies host
      ensures host.Trouble() <= old(host.Trouble()) && (host.cut <==> s.Gone?)
      ensures Sound() && Holds(id)
      ensures s.Returned? || s.Gone?
      ensures s.Returned? ==>
                Task().stage.Succeeded? && Task().target == old(Task()).target && Settled(host.world, Task().target.image)
      ensures old(host.Alive()) ==> s.Returned?
      ensures s.Returned? && Task().cleanup.Complete? ==> old(CleanupOpen(Task(), host.world))
      ensures old(host.Faultless() && CleanupOpen(Task(), host.world)) ==> Task().cleanup.Complete?
      ensures old(host.deeds) + [Saves(Some(Cleaning))] <= host.deeds
      ensures s.Returned? ==> host.deeds[|host.deeds| - 1] == Saves(Some(Succeeded))
    {
      hide GoodTrace, Root;
      s := Checkpoint(id, Cleaning);
      if s.Returned? {
        s := CleanUpAndCommit(id, now);
      }
    }

    method CleanUpAndCommit(id: TaskId, now: int) returns (s: Signal)
      requires !host.cut
      requires Sound() && Holds(id) && Task().stage.Cleaning? && Settled(host.world, Task().target.image)
      modifies host
      ensures host.Trouble() <= old(host.Trouble()) && (host.cut <==> s.Gone?)
      ensures Sound() && Holds(id)
      ensures s.Returned? || s.Gone?
      ensures s.Returned? ==>
                Task().stage.Succeeded? && Task().target == old(Task()).target && Settled(host.world, Task().target.image)
      ensures old(host.Alive()) ==> s.Returned?
      ensures s.Returned? && Task().cleanup.Complete? ==> old(CleanupOpen(Task(), host.world))
      ensures old(host.Faultless() && CleanupOpen(Task(), host.world)) ==> Task().cleanup.Complete?
      ensures old(host.deeds) <= host.deeds
      ensures s.Returned? ==> host.deeds != [] && host.deeds[|host.deeds| - 1] == Saves(Some(Succeeded))
    {
      hide GoodTrace, Root, CleanupOpen;
      var complete;
      s, complete := CleanupOriginal(id);
      if s.Returned? {
        s := CommitSuccess(id, complete, now);
      }
    }

    // check(): refused over a task that is not over; otherwise it records what is installed and on offer.
    method Check(now: int) returns (s: Signal)
      requires !host.cut
      requires Sound()
      modifies host
      ensures host.Trouble() <= old(host.Trouble()) && (host.cut <==> s.Gone?)
      ensures Sound()
      ensures s.Refused? <==> old(host.disk.task.Some? && !Task().stage.Failed?
                                  && !(Task().stage.Succeeded? && Task().cleanup.Complete?))
      ensures s.Refused? ==> host.Point() == old(host.Point()) && host.trace == old(host.trace)
      ensures host.disk.task == old(host.disk.task) && host.world.web == old(host.world.web)
      ensures s.Returned? ==>
                && host.disk.lastCheck.Some?
                && var c := host.disk.lastCheck.value;
                   && host.world.web.Some? && c.current.image == host.world.web.value.image
                   && c.checkedAt == now
                   && (c.available <==> Newer(c.target.image.version, c.current.image.version))
      ensures forall image ::
                old(host.Faultless()) && host.Serves(image) && old(Idle(host.disk) && WebInspectable(host.world)) ==>
                  && s.Returned? && host.world == Pulled(old(host.world), image)
                  && host.disk.lastCheck == Some(CheckResult(
                       Inspect(old(host.world), old(host.world).web.value.image),
                       Inspect(Pulled(old(host.world), image), image),
                       Newer(image.version, old(host.world).web.value.image.version), now))
    {
      if !Idle(host.disk) {
        return Refused;
      }
      var current;
      s, current := host.InspectWeb();
      if s.Returned? {
        s := RecordCheck(current, now);
      }
    }

    // What is on offer, and the record of it.
    method RecordCheck(current: ImageIdentity, now: int) returns (s: Signal)
      requires !host.cut
      requires Sound() && Idle(host.disk)
      requires host.world.web.Some? && current == Inspect(host.world, host.world.web.value.image)
      modifies host
      ensures host.Trouble() <= old(host.Trouble()) && (host.cut <==> s.Gone?)
      ensures Sound() && !s.Refused?
      ensures host.disk.task == old(host.disk.task) && host.world.web == old(host.world.web)
      ensures s.Returned? ==>
                && host.disk.lastCheck.Some?
                && var c := host.disk.lastCheck.value;
                   && c.current.image == host.world.web.value.image && c.checkedAt == now
                   && (c.available <==> Newer(c.target.image.version, c.current.image.version))
      ensures forall image ::
                old(host.Faultless()) && host.Serves(image) ==>
                  && s.Returned? && host.world == Pulled(old(host.world), image)
                  && host.disk.lastCheck == Some(CheckResult(
                       current, Inspect(Pulled(old(host.world), image), image),
                       Newer(image.version, current.image.version), now))
    {
      var target;
      ghost var here := host.Point();
      s, target := host.ResolveStable();
      ResolvingFollows(here, host.Point());
      if s.Returned? {
        var result := CheckResult(current, target, Newer(target.image.version, current.image.version), now);
        s := host.Save(PersistentState(Some(result), host.disk.task));
      }
    }

    predicate FreshCheck(version: Version, now: int)
      reads host
    {
      && host.disk.lastCheck.Some?
      && var c := host.disk.lastCheck.value;
         && version == c.target.image.version && c.available
         && 0 <= now - c.checkedAt < CHECK_MAX_AGE
    }

    // The task before is over, and an update to this version was found available within the last two minutes.
    ghost predicate Startable(version: Version, now: int)
      reads host
    {
      && (host.disk.task.Some? && !Task().stage.Failed? ==> Task().stage.Succeeded? && Task().cleanup.Complete?)
      && host.disk.lastCheck.Some? && host.disk.lastCheck.value.available
      && host.disk.lastCheck.value.target.image.version == version
      && 0 <= now - host.disk.lastCheck.value.checkedAt < 120
    }

    // start(): answers whether the caller gets a pipeline to execute.  A repeated id creates nothing.
    method StartUpdate(version: Version, id: TaskId, now: int) returns (s: Signal, execute: bool)
      requires !host.cut
      requires Sound()
      modifies host
      ensures host.Trouble() <= old(host.Trouble()) && (host.cut <==> s.Gone?)
      ensures Sound()
      ensures old(Holds(id)) ==>
                && host.Point() == old(host.Point()) && host.trace == old(host.trace)
                && (s.Refused? <==> Task().target.image.version != version)
                && (s.Refused? || s.Returned?)
                && (execute <==> s.Returned? && Task().stage.Checking?)
      ensures !old(Holds(id)) && !old(Startable(version, now)) ==>
                s.Refused? && host.Point() == old(host.Point())
      ensures !old(Holds(id)) && s.Returned? ==>
                && execute && Holds(id) && Task().stage.Checking?
                && Task().target.image.version == version
                && Runs(host.world, Task().original.image)
                && Task().journal == Some(BLANK_JOURNAL) && host.issued == []
                && Task().original == old(host.disk.lastCheck).value.current
                && Task().target == old(host.disk.lastCheck).value.target
                && Task().cleanup.NotRun? && !Task().rolledBack
                && VersionTag(version) in host.world.refs
                && host.world.refs[VersionTag(version)].digest == Task().target.image.digest
      ensures !s.Returned? ==> !execute
      ensures forall image ::
                old(host.Faultless()) && host.Serves(image) && !old(Holds(id))
                && old(Startable(version, now)) && image == old(host.disk.lastCheck.value.target.image) ==>
                  && s.Returned? && host.world == Pulled(old(host.world), image)
                  && Task() == FreshTask(id, old(host.disk.lastCheck.value))
    {
      execute := false;
      if Holds(id) {
        s := if Task().target.image.version == version then Returned else Refused;
        execute := s.Returned? && Task().stage.Checking?;
        return;
      }
      if !Idle(host.disk) || !FreshCheck(version, now) {
        return Refused, false;
      }
      s := Admit(id);
      execute := s.Returned?;
    }

    // The image on offer must still be the one that was checked; then the task is recorded.
    method Admit(id: TaskId) returns (s: Signal)
      requires !host.cut
      requires Sound() && Idle(host.disk) && !Holds(id)
      requires host.disk.lastCheck.Some? && host.disk.lastCheck.value.available
      modifies host
      ensures host.Trouble() <= old(host.Trouble()) && (host.cut <==> s.Gone?)
      ensures Sound()
      ensures s.Refused? ==> host.disk == old(host.disk)
      ensures s.Returned? ==>
                var checked := old(host.disk.lastCheck).value;
                && Holds(id) && Task() == FreshTask(id, checked) && host.issued == []
                && Runs(host.world, Task().original.image)
                && VersionTag(checked.target.image.version) in host.world.refs
                && host.world.refs[VersionTag(checked.target.image.version)].digest == checked.target.image.digest
      ensures forall image ::
                old(host.Faultless()) && host.Serves(image) && image == old(host.disk.lastCheck.value.target.image) ==>
                  s.Returned? && host.world == Pulled(old(host.world), image)
    {
      var checked := host.disk.lastCheck.value;
      var resolved;
      ghost var here := host.Point();
      s, resolved := host.ResolveStable();
      ResolvingFollows(here, host.Point());
      if s.Returned? {
        if resolved.image.version != checked.target.image.version || resolved.image.digest != checked.target.image.digest {
          return Refused;
        }
        s := host.Save(PersistentState(Some(checked), Some(FreshTask(id, checked))));
      }
    }

    // complete_pending_cleanup: the manual way to finish a cleanup that was refused or interrupted.
    method CompletePendingCleanup() returns (s: Signal)
      requires !host.cut
      requires Sound()
      modifies host
      ensures host.Trouble() <= old(host.Trouble()) && (host.cut <==> s.Gone?)
      ensures Sound()
      ensures s.Returned? || s.Gone? || s.Refused?
      ensures host.world.web == old(host.world.web) && host.world.envTag == old(host.world.envTag)
      ensures s.Returned? ==> host.disk.task.Some? && Task().stage.Succeeded? && Task().cleanup.Complete?
      ensures old(host.Alive()) ==> !s.Gone?
      ensures s.Returned? ==> old(CleanupPending(host.disk) && CleanupOpen(Task(), host.world))
      ensures old(host.Faultless() && CleanupPending(host.disk) && CleanupOpen(Task(), host.world)) ==> s.Returned?
      ensures !old(CleanupPending(host.disk)) ==>
                s.Refused? && host.Point() == old(host.Point()) && host.trace == old(host.trace)
    {
      if !CleanupPending(host.disk) {
        return Refused;
      }
      var id := Task().id;
      var complete;
      s, complete := CleanupOriginal(id);
      if s.Returned? && !complete {
        s := Refused;
      }
      if s.Returned? {
        ghost var here := host.Point();
        CompletingCleanupFollows(here, here.(disk := here.disk.(task := Some(Task().(cleanup := Complete)))));
        s := SaveTask(Task().(cleanup := Complete));
      }
    }
  }
}

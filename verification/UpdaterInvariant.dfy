// What holds of the state file and the world at every atomic point of every run of the updater,
// and how two consecutive points of one task may differ.

module UpdaterInvariant {
  import opened Common
  import opened UpdaterTypes
  import opened UpdaterPlatform

  predicate Terminal(s: Stage) { s.Succeeded? || s.Failed? || s.ManualIntervention? }

  predicate PreTag(s: Stage) { s.Checking? || s.BackingUp? || s.Pulling? }

  // From the save of STOPPING_WEB to the save of CLEANING.
  predicate Replacing(s: Stage) {
    || s.StoppingWeb? || s.Migrating? || s.StartingWeb? || s.CheckingHealth? || s.Stabilizing?
    || s.PersistingVersion? || s.RollingBack?
  }

  // A new upgrade may replace the persisted task.
  predicate Idle(d: PersistentState) {
    d.task.Some? ==>
      || d.task.value.stage.Failed?
      || (d.task.value.stage.Succeeded? && d.task.value.cleanup.Complete?)
  }

  predicate BackupsRecorded(t: UpdateTask, w: World) {
    && t.databaseBackup.Some? && t.databaseBackup.value in w.backups
    && t.uploadsBackup.Some? && t.uploadsBackup.value in w.backups
  }

  // The way back exists: both backups are on disk and recorded, the alias is recorded and names the
  // original image, and start_rollback would accept it.
  predicate RollbackReady(t: UpdateTask, w: World) {
    && BackupsRecorded(t, w)
    && CanStartRollback(t, w)
  }

  predicate CleanupUntouched(t: UpdateTask) {
    t.cleanup.NotRun? && (t.journal.Some? ==> t.journal.value == BLANK_JOURNAL)
  }

  // The version tag no longer names the original image.
  predicate TagGone(t: UpdateTask, w: World) {
    !Names(w, VersionTag(t.original.image.version), t.original.image)
  }

  // A step recorded as completed has left nothing behind.
  predicate JournalTruthful(t: UpdateTask, w: World) {
    t.journal.Some? ==>
      var j := t.journal.value;
      && j.Legal()
      && (j.versionTag.Completed? ==> StepDone(t, VersionTagStep, w))
      && (j.rollbackAlias.Completed? ==> StepDone(t, AliasStep, w))
      && (j.imageId.Completed? ==> StepDone(t, ImageStep, w))
  }

  // How far the pipeline's commands can be, stage by stage.
  predicate IssuedFits(t: UpdateTask, issued: seq<Command>) {
    && issued <= PIPELINE
    && match t.stage
       case Checking => |issued| == 0
       case BackingUp => |issued| <= 1
       case Pulling => |issued| == 1
       case StoppingWeb => 1 <= |issued| <= 2
       case Migrating => 2 <= |issued| <= 3
       case StartingWeb => 3 <= |issued|
       case RollingBack => 1 <= |issued|
       case CheckingHealth | Stabilizing | PersistingVersion | Cleaning | Succeeded => |issued| == 4
       case Failed => !t.rolledBack ==> |issued| <= 1
       case ManualIntervention => true
  }

  // An update that was found available and not yet consumed still describes the task's original image.
  predicate CheckFits(d: PersistentState, image: Image) {
    d.lastCheck.Some? && d.lastCheck.value.available ==>
      && d.lastCheck.value.current.image == image
      && Newer(d.lastCheck.value.target.image.version, image.version)
  }

  predicate WebKnown(w: World) {
    w.web.Some? ==> w.web.value.image in w.images
  }

  predicate StageInv(t: UpdateTask, w: World) {
    var original, target := t.original.image, t.target.image;
    match t.stage
    case Checking | BackingUp =>
      Settled(w, original) && CleanupUntouched(t)
    case Pulling =>
      Settled(w, original) && CleanupUntouched(t) && BackupsRecorded(t, w)
    case StoppingWeb | Migrating | StartingWeb | CheckingHealth | Stabilizing =>
      RollbackReady(t, w) && CleanupUntouched(t) && w.envTag == original.version
    case PersistingVersion | RollingBack =>
      && RollbackReady(t, w) && CleanupUntouched(t)
      && (w.envTag == original.version || w.envTag == target.version)
    case Cleaning =>
      && BackupsRecorded(t, w)
      && (w.envTag == original.version || w.envTag == target.version)
      && (w.web.Some? && w.web.value.image == target ==> w.envTag == target.version)
      && !t.cleanup.Complete?
      && (t.cleanup.NotRun? ==> CleanupUntouched(t))
      && JournalTruthful(t, w)
      && (t.journal.Some? && t.journal.value.versionTag.NotStarted? ==> RollbackReady(t, w))
      && (TagGone(t, w) ==> w.web.Some? && w.web.value.image == target)
    case Succeeded =>
      && Settled(w, target)
      && !t.cleanup.NotRun?
      && (t.cleanup.Pending? ==> JournalTruthful(t, w))
      && (t.cleanup.Complete? ==> t.journal.Some? && t.journal.value.Legal() && t.journal.value.IsComplete())
    case Failed =>
      && Settled(w, original)
      && !t.cleanup.Complete?
      && (t.journal.Some? ==> t.journal.value.Legal() && !t.journal.value.versionTag.Completed?)
      && (t.rolledBack ==> BackupsRecorded(t, w))
    case ManualIntervention =>
      t.errorCode.RollbackFailed? && !t.cleanup.Complete? && (t.journal.Some? ==> t.journal.value.Legal())
  }

  ghost predicate Inv(s: Snapshot) {
    && WebKnown(s.world)
    && match s.disk.task
       case None =>
         && s.world.web.Some? && Settled(s.world, s.world.web.value.image)
         && CheckFits(s.disk, s.world.web.value.image)
       case Some(t) =>
         && Newer(t.target.image.version, t.original.image.version)
         && IssuedFits(t, s.issued)
         && StageInv(t, s.world)
         && (t.stage.Succeeded? ==> CheckFits(s.disk, t.target.image))
         && (!t.stage.Succeeded? && !t.stage.ManualIntervention? ==> CheckFits(s.disk, t.original.image))
  }

  function JournalRank(t: UpdateTask): nat {
    if t.journal.None? then 0 else t.journal.value.Rank()
  }

  function StepStarted(t: UpdateTask, step: CleanupStep): bool {
    t.journal.Some? && t.journal.value.Get(step).Started?
  }

  // References and images of the original disappear only while the step that removes them is recorded as
  // started, and only once the target runs and the env file names it.
  predicate RemovalsJournalled(t: UpdateTask, before: World, after: World) {
    var original := t.original.image;
    && (VersionTag(original.version) in before.refs && VersionTag(original.version) !in after.refs
        ==> StepStarted(t, VersionTagStep) && RemovalTime(t, before))
    && (RollbackAlias(t.id) in before.refs && RollbackAlias(t.id) !in after.refs
        ==> StepStarted(t, AliasStep) && RemovalTime(t, before))
    && (original in before.images && original !in after.images
        ==> (StepStarted(t, AliasStep) || StepStarted(t, ImageStep)) && RemovalTime(t, before))
  }

  predicate RemovalTime(t: UpdateTask, w: World) {
    (t.stage.Cleaning? || t.stage.Succeeded?) && Settled(w, t.target.image)
  }

  // Both points belong to one task.
  predicate SameTask(a: Snapshot, b: Snapshot) {
    a.disk.task.Some? && b.disk.task.Some? && a.disk.task.value.id == b.disk.task.value.id
  }

  // Past the point of no return: a cleanup step took the version tag off the original image.
  predicate NoReturn(s: Snapshot) {
    && s.disk.task.Some?
    && var t := s.disk.task.value;
       || t.stage.Succeeded? || t.stage.ManualIntervention?
       || (t.stage.Cleaning? && TagGone(t, s.world))
  }

  predicate Evolves(a: Snapshot, b: Snapshot) {
    if SameTask(a, b) then
      var before, after := a.disk.task.value, b.disk.task.value;
      && after.original.image == before.original.image && after.target == before.target
      && a.issued <= b.issued
      && JournalRank(before) <= JournalRank(after)
      && before.journal.Some? == after.journal.Some?
      && RemovalsJournalled(before, a.world, b.world)
      && (Terminal(before.stage) ==> after.stage == before.stage)
      && (NoReturn(a) ==> NoReturn(b))
      && (after.stage.ManualIntervention? ==> b.world.web == a.world.web)
      && (after.cleanup.Complete? && !before.cleanup.Complete? ==>
            forall step :: StepDone(after, step, b.world))
    else
      // A task is only ever replaced by a new one, and only when nothing is left to do for it.
      && (a.disk.task.Some? ==> b.disk.task.Some?)
      && (b.disk.task.Some? ==>
            && Idle(a.disk) && b.issued == []
            && b.disk.task.value.stage.Checking?
            && (a.disk.task.Some? ==> b.disk.task.value.id != a.disk.task.value.id))
  }

  function Root(t: Trace): Snapshot {
    match t case Start(s) => s case Then(before, _) => Root(before)
  }

  // Every point of a run satisfies the invariant and follows from the one before.
  ghost predicate GoodTrace(t: Trace) {
    match t
    case Start(s) => Inv(s)
    case Then(before, s) => GoodTrace(before) && Inv(s) && Evolves(before.s, s)
  }

  // One atomic point may follow another.
  ghost predicate Follows(a: Snapshot, b: Snapshot) {
    Inv(b) && Evolves(a, b)
  }

  lemma StartingRollbackKeepsInv(a: Snapshot, b: Snapshot)
    requires Inv(a) && a.disk.task.Some?
    requires Replacing(a.disk.task.value.stage) || a.disk.task.value.stage.Cleaning?
    requires b == a.(world := a.world.(web := b.world.web))
    requires b.world.web != a.world.web ==>
               && CanStartRollback(a.disk.task.value, a.world)
               && (b.world.web.Some? ==> b.world.web.value.image == a.disk.task.value.original.image)
    ensures Follows(a, b)
  {
    if b.world.web != a.world.web {
      assert !TagGone(a.disk.task.value, a.world);
    } else {
      assert b == a;
    }
  }

  lemma RecordingRollbackKeepsInv(a: Snapshot, b: Snapshot)
    requires Inv(a) && a.disk.task.Some? && b.disk.task.Some?
    requires var before, after := a.disk.task.value, b.disk.task.value;
             && (Replacing(before.stage) || before.stage.Cleaning?)
             && (after.stage == before.stage || (after.stage.RollingBack? && Replacing(before.stage)))
             && after == before.(stage := after.stage, errorCode := after.errorCode)
    requires b == a.(disk := a.disk.(task := b.disk.task))
    ensures Follows(a, b)
  {
  }

  lemma RestoringVersionKeepsInv(a: Snapshot, b: Snapshot)
    requires Inv(a) && a.disk.task.Some?
    requires Replacing(a.disk.task.value.stage) || a.disk.task.value.stage.Cleaning?
    requires Runs(a.world, a.disk.task.value.original.image)
    requires b == a.(world := a.world.(envTag := b.world.envTag))
    requires b.world.envTag == a.world.envTag || b.world.envTag == a.disk.task.value.original.image.version
    requires a.disk.task.value.stage.PersistingVersion? || a.disk.task.value.stage.Cleaning? || a.disk.task.value.stage.RollingBack?
      || a.world.envTag == a.disk.task.value.original.image.version
    ensures Follows(a, b)
  {
  }

  // The state in which cleanup steps run.
  predicate CleaningUp(d: PersistentState, w: World) {
    && d.task.Some?
    && var t := d.task.value;
       && (t.stage.Cleaning? || t.stage.Succeeded?)
       && t.cleanup.Pending? && t.journal.Some?
       && Settled(w, t.target.image)
  }

  lemma CleanupActionKeepsInv(a: Snapshot, b: Snapshot, step: CleanupStep)
    requires Inv(a) && CleaningUp(a.disk, a.world)
    requires CleanupStepAllowed(a.disk.task.value, step, a.world)
    requires b == a.(world := b.world) && Cleaned(a.disk.task.value, step, a.world, b.world)
    ensures Follows(a, b) && CleaningUp(b.disk, b.world)
  {
    match step
    case VersionTagStep =>
    case AliasStep =>
    case ImageStep =>
  }

  lemma BeginningCleanupFollows(a: Snapshot, b: Snapshot)
    requires Inv(a) && a.disk.task.Some? && a.disk.task.value.stage.Cleaning? && a.disk.task.value.cleanup.NotRun?
    requires b == a.(disk := a.disk.(task := Some(a.disk.task.value.(cleanup := Pending))))
    ensures Follows(a, b)
  {
  }

  lemma CleaningJournalIsLegal(a: Snapshot)
    requires Inv(a) && CleaningUp(a.disk, a.world)
    ensures a.disk.task.value.journal.value.Legal()
  {
  }

  lemma NewerIsOther(a: Snapshot)
    requires Inv(a) && a.disk.task.Some?
    ensures a.disk.task.value.original.image.version != a.disk.task.value.target.image.version
  {
  }

  // The journal may advance one legal position, provided a completed step is really done.
  lemma JournalAdvanceKeepsInv(a: Snapshot, b: Snapshot, step: CleanupStep, status: StepStatus)
    requires Inv(a) && CleaningUp(a.disk, a.world)
    requires var t := a.disk.task.value; var j := t.journal.value;
             && (if status.Started? then j.Get(step).NotStarted?
                 else status.Completed? && j.Get(step).Started? && StepDone(t, step, a.world))
             && (step.AliasStep? ==> j.versionTag.Completed?)
             && (step.ImageStep? ==> j.rollbackAlias.Completed?)
             && b == a.(disk := a.disk.(task := Some(t.(journal := Some(j.Put(step, status))))))
    ensures Follows(a, b) && CleaningUp(b.disk, b.world)
  {
  }

  // Lemmas about single actions: each one keeps the invariant and is a step the history allows.

  // When the pipeline may record its next stage.
  predicate CanAdvance(t: UpdateTask, w: World, issued: seq<Command>, stage: Stage) {
    match (t.stage, stage)
    case (Checking, BackingUp) => true
    case (BackingUp, Pulling) => BackupsRecorded(t, w) && issued == [BackUp]
    case (Pulling, StoppingWeb) => RollbackReady(t, w)
    case (StoppingWeb, Migrating) => |issued| == 2
    case (Migrating, StartingWeb) => |issued| == 3
    case (StartingWeb, CheckingHealth) => |issued| == 4
    case (CheckingHealth, Stabilizing) => true
    case (Stabilizing, PersistingVersion) => true
    case (PersistingVersion, Cleaning) => |issued| == 4 && Settled(w, t.target.image)
    case _ => stage == t.stage
  }

  lemma AdvancingFollows(a: Snapshot, b: Snapshot, stage: Stage)
    requires Inv(a) && a.disk.task.Some?
    requires CanAdvance(a.disk.task.value, a.world, a.issued, stage)
    requires b == a.(disk := a.disk.(task := Some(a.disk.task.value.(stage := stage))))
    ensures Follows(a, b)
  {
    if stage == a.disk.task.value.stage {
      assert a == b;
    }
  }

  // A save may also be lost.
  lemma LosingASaveFollows(a: Snapshot)
    requires Inv(a)
    ensures Follows(a, a)
  {
  }

  lemma CommittingFollows(a: Snapshot, b: Snapshot, complete: bool, now: int)
    requires Inv(a) && a.disk.task.Some? && a.disk.task.value.stage.Cleaning?
    requires Settled(a.world, a.disk.task.value.target.image)
    requires complete ==> a.disk.task.value.journal.Some? && a.disk.task.value.journal.value.IsComplete()
    requires var t := a.disk.task.value;
             b == a.(disk := PersistentState(
               Some(CheckResult(t.target, t.target, false, now)),
               Some(t.(stage := Succeeded, cleanup := if complete then Complete else Pending))))
    ensures Follows(a, b)
  {
  }

  lemma CompletingCleanupFollows(a: Snapshot, b: Snapshot)
    requires Inv(a) && a.disk.task.Some? && a.disk.task.value.stage.Succeeded? && a.disk.task.value.cleanup.Pending?
    requires a.disk.task.value.journal.Some? && a.disk.task.value.journal.value.IsComplete()
    requires b == a.(disk := a.disk.(task := Some(a.disk.task.value.(cleanup := Complete))))
    ensures Follows(a, b)
  {
  }

  lemma BackingUpFollows(a: Snapshot, b: Snapshot)
    requires Inv(a) && a.disk.task.Some? && a.disk.task.value.stage.BackingUp? && a.issued == []
    requires b == a.(world := a.world.(backups := b.world.backups), issued := [BackUp])
    requires a.world.backups <= b.world.backups
    ensures Follows(a, b)
  {
  }

  lemma RecordingBackupsFollows(a: Snapshot, b: Snapshot)
    requires Inv(a) && a.disk.task.Some? && a.disk.task.value.stage.BackingUp?
    requires b.disk.task.Some? && b == a.(disk := a.disk.(task := b.disk.task))
    requires b.disk.task.value == a.disk.task.value.(
               databaseBackup := b.disk.task.value.databaseBackup, uploadsBackup := b.disk.task.value.uploadsBackup)
    ensures Follows(a, b)
  {
  }

  // A pull by digest.
  lemma PullingFollows(a: Snapshot, b: Snapshot)
    requires Inv(a) && a.disk.task.Some? && a.disk.task.value.stage.Pulling?
    requires b == a.(world := a.world.(images := b.world.images)) && a.world.images <= b.world.images
    ensures Follows(a, b)
  {
  }

  lemma TaggingFollows(a: Snapshot, b: Snapshot)
    requires Inv(a) && a.disk.task.Some? && a.disk.task.value.stage.Pulling?
    requires b == a.(world := a.world.(refs := b.world.refs))
    requires a.world.refs.Keys <= b.world.refs.Keys
    ensures Follows(a, b)
  {
  }

  lemma RecordingAliasFollows(a: Snapshot, b: Snapshot)
    requires Inv(a) && a.disk.task.Some? && a.disk.task.value.stage.Pulling?
    requires b.disk.task.Some? && b == a.(disk := a.disk.(task := b.disk.task))
    requires var t := a.disk.task.value;
             b.disk.task.value == t.(original := t.original.(rollbackAlias := b.disk.task.value.original.rollbackAlias))
    ensures Follows(a, b)
  {
  }

  // Stopping, migrating and starting: the container changes and the command is counted.
  lemma ReplacingFollows(a: Snapshot, b: Snapshot)
    requires Inv(a) && a.disk.task.Some?
    requires b == a.(world := a.world.(web := b.world.web), issued := b.issued)
    requires WebKnown(b.world) && a.issued <= b.issued <= PIPELINE
    requires match a.disk.task.value.stage
             case StoppingWeb => |b.issued| <= 2
             case Migrating => |b.issued| <= 3
             case StartingWeb => true
             case _ => false
    ensures Follows(a, b)
  {
  }

  lemma InstallingVersionFollows(a: Snapshot, b: Snapshot)
    requires Inv(a) && a.disk.task.Some? && a.disk.task.value.stage.PersistingVersion?
    requires b == a.(world := a.world.(envTag := b.world.envTag))
    requires b.world.envTag == a.world.envTag || b.world.envTag == a.disk.task.value.target.image.version
    ensures Follows(a, b)
  {
  }

  // Pulling from the registry while no task is under way.
  lemma ResolvingFollows(a: Snapshot, b: Snapshot)
    requires Inv(a) && Idle(a.disk)
    requires b.disk == a.disk && b.issued == a.issued
    requires b.world.web == a.world.web && b.world.envTag == a.world.envTag && b.world.backups == a.world.backups
    requires a.world.images <= b.world.images && a.world.refs.Keys <= b.world.refs.Keys
    ensures Follows(a, b)
  {
  }

  // Conditions under which a faultless run gets through.

  // The target is at hand and nothing unexpected refers to the original image.
  predicate UpgradePossible(t: UpdateTask, w: World) {
    && Installable(w, t.target) && t.original.image.digest != t.target.image.digest
    && AllTags(w, t.original.image) <= {VersionTag(t.original.image.version), RollbackAlias(t.id)}
  }

  predicate StepPossible(t: UpdateTask, step: CleanupStep, w: World) {
    && t.journal.Some? && !t.journal.value.Get(step).Completed?
    && CleanupStepAllowed(t.(journal := Some(t.journal.value.Put(step, Started))), step, w)
  }

  // The first step not yet recorded as completed.
  function NextStep(j: CleanupJournal): CleanupStep {
    if !j.versionTag.Completed? then VersionTagStep else if !j.rollbackAlias.Completed? then AliasStep else ImageStep
  }

  // The cleanup is over, or its next step would be let through.
  predicate CleanupOpen(t: UpdateTask, w: World) {
    t.journal.Some? && (t.journal.value.IsComplete() || StepPossible(t, NextStep(t.journal.value), w))
  }

  // After a pipeline that was prepared with nothing unexpected referring to the original, the cleanup may begin.
  lemma PreparedCleanupIsOpen(prepared: UpdateTask, before: World, t: UpdateTask, w: World)
    requires UpgradePossible(prepared, before) && RollbackReady(prepared, before)
    requires t == prepared.(stage := t.stage) && w == before.(web := w.web, envTag := w.envTag)
    requires Settled(w, t.target.image) && t.original.image.version != t.target.image.version
    requires t.journal == Some(BLANK_JOURNAL)
    ensures CleanupOpen(t, w)
  {
    assert AllTags(w, t.original.image) == AllTags(before, t.original.image);
  }

  const CLEANUP_STEPS: seq<CleanupStep> := [VersionTagStep, AliasStep, ImageStep]

  // The first so many steps are recorded as completed.
  predicate StepsDone(j: CleanupJournal, count: nat) {
    forall k :: 0 <= k < count <= 3 ==> j.Get(CLEANUP_STEPS[k]).Completed?
  }

  lemma NothingDone(j: CleanupJournal)
    ensures StepsDone(j, 0)
  {
  }

  lemma StepIsNext(j: CleanupJournal, k: nat)
    requires k < 3 && j.Legal() && StepsDone(j, k)
    ensures j.IsComplete() || j.Get(CLEANUP_STEPS[k]).Completed? || CLEANUP_STEPS[k] == NextStep(j)
    ensures CLEANUP_STEPS[k].AliasStep? ==> j.versionTag.Completed?
    ensures CLEANUP_STEPS[k].ImageStep? ==> j.rollbackAlias.Completed?
  {
    assert k > 0 ==> j.Get(CLEANUP_STEPS[0]).Completed?;
    assert k > 1 ==> j.Get(CLEANUP_STEPS[1]).Completed?;
  }

  lemma AllDone(t: UpdateTask, w: World)
    requires t.journal.Some? && StepsDone(t.journal.value, 3)
    ensures t.journal.value.IsComplete() && CleanupOpen(t, w)
  {
    assert t.journal.value.Get(CLEANUP_STEPS[2]).Completed?;
  }

  // A step that was let through opens the next one.
  lemma StepOpensNext(t: UpdateTask, step: CleanupStep, before: World, after: World)
    requires t.journal.Some? && t.journal.value.Legal() && !t.journal.value.IsComplete()
    requires step == NextStep(t.journal.value) && StepPossible(t, step, before) && Cleaned(t, step, before, after)
    ensures CleanupOpen(t.(journal := Some(t.journal.value.Put(step, Completed))), after)
  {
    assert AllTags(after, t.original.image) <= AllTags(before, t.original.image);
  }

  // An interrupted replacement whose container is identifiably the original or the target.
  predicate Recoverable(d: PersistentState, w: World) {
    && d.task.Some?
    && var t := d.task.value;
       && (Replacing(t.stage) || t.stage.Cleaning?) && t.journal.Some?
       && CanStartRollback(t, w) && HasTargetTag(t)
       && w.web.Some?
       && (SameRuntime(Inspect(w, w.web.value.image), t.original)
           || Answers(w, t.target))
  }

  predicate HasTargetTag(t: UpdateTask) { t.target.tags != [] }
}

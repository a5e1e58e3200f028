// What a good trace means over time: the promises of the updater about whole runs.

module UpdaterHistory {
  import opened Common
  import opened UpdaterTypes
  import opened UpdaterPlatform
  import opened UpdaterInvariant

  ghost predicate Within(a: Trace, t: Trace) {
    a == t || (t.Then? && Within(a, t.before))
  }

  // From a to t the same task stays persisted.
  ghost predicate OneTask(a: Trace, t: Trace) {
    && a.s.disk.task.Some? && t.s.disk.task.Some?
    && (a == t || (t.Then? && SameTask(t.before.s, t.s) && OneTask(a, t.before)))
  }

  function TaskAt(t: Trace): UpdateTask
    requires t.s.disk.task.Some?
  {
    t.s.disk.task.value
  }

  lemma {:induction false} PrefixesAreGood(a: Trace, t: Trace)
    requires GoodTrace(t) && Within(a, t)
    ensures GoodTrace(a) && Inv(a.s)
  {
    if a != t {
      PrefixesAreGood(a, t.before);
    }
  }

  // Wherever a run stands or is cut off: SUCCEEDED means the target runs and is the version on file,
  // FAILED means the original runs and is the version on file.
  lemma TerminalAgreement(a: Trace, t: Trace)
    requires GoodTrace(t) && Within(a, t) && a.s.disk.task.Some?
    ensures TaskAt(a).stage.Succeeded? ==>
              a.s.world.web == Some(Container(TaskAt(a).target.image, true))
              && a.s.world.envTag == TaskAt(a).target.image.version
    ensures TaskAt(a).stage.Failed? ==>
              a.s.world.web == Some(Container(TaskAt(a).original.image, true))
              && a.s.world.envTag == TaskAt(a).original.image.version
    ensures TaskAt(a).original.image.version != TaskAt(a).target.image.version
  {
    PrefixesAreGood(a, t);
  }

  // From the save of STOPPING_WEB until CLEANING is saved the way back is complete: both backups exist and
  // are recorded, the alias is recorded and still names the original image, and start_rollback accepts it.
  lemma RollbackSourceStays(a: Trace, t: Trace)
    requires GoodTrace(t) && Within(a, t) && a.s.disk.task.Some?
    requires Replacing(TaskAt(a).stage)
    ensures TaskAt(a).databaseBackup.Some? && TaskAt(a).databaseBackup.value in a.s.world.backups
    ensures TaskAt(a).uploadsBackup.Some? && TaskAt(a).uploadsBackup.value in a.s.world.backups
    ensures TaskAt(a).original.rollbackAlias == Some(RollbackAlias(TaskAt(a).id))
    ensures Names(a.s.world, RollbackAlias(TaskAt(a).id), TaskAt(a).original.image)
    ensures CanStartRollback(TaskAt(a), a.s.world)
    ensures TaskAt(a).cleanup.NotRun?
  {
    PrefixesAreGood(a, t);
  }

  // What lasts while one task stays persisted.
  lemma {:induction false} Lasting(a: Trace, t: Trace)
    requires GoodTrace(t) && OneTask(a, t)
    ensures SameTask(a.s, t.s) && GoodTrace(a)
    ensures TaskAt(t).original.image == TaskAt(a).original.image && TaskAt(t).target == TaskAt(a).target
    ensures JournalRank(TaskAt(a)) <= JournalRank(TaskAt(t))
    ensures a.s.issued <= t.s.issued
    ensures Terminal(TaskAt(a).stage) ==> TaskAt(t).stage == TaskAt(a).stage
    ensures NoReturn(a.s) ==> NoReturn(t.s)
  {
    if a != t {
      Lasting(a, t.before);
    }
  }

  // Past the point of no return with the target in the container.
  ghost predicate HasTarget(s: Snapshot) {
    && NoReturn(s)
    && s.world.web.Some? && s.world.web.value.image == s.disk.task.value.target.image
  }

  lemma TargetStays(a: Snapshot, b: Snapshot)
    requires HasTarget(a) && SameTask(a, b) && Evolves(a, b) && Inv(b)
    ensures HasTarget(b)
  {
  }

  // Once the version tag is off the original image during cleanup, no continuation of the task ends in FAILED, and
  // the container keeps the target on every continuation, manual intervention included.
  lemma {:induction false} TagRemovalIsFinal(a: Trace, t: Trace)
    requires GoodTrace(t) && OneTask(a, t)
    requires TaskAt(a).stage.Cleaning? && TagGone(TaskAt(a), a.s.world)
    ensures TaskAt(t).stage.Cleaning? || TaskAt(t).stage.Succeeded? || TaskAt(t).stage.ManualIntervention?
    ensures t.s.world.web.Some? && t.s.world.web.value.image == TaskAt(t).target.image
    ensures HasTarget(t.s)
  {
    if a != t {
      TagRemovalIsFinal(a, t.before);
      hide Inv, Evolves, NoReturn;
      TargetStays(t.before.s, t.s);
    }
    hide Evolves;
  }

  // The cleanup journal is always one of its seven legal values and only moves forward among them.
  lemma JournalMovesForward(a: Trace, t: Trace)
    requires GoodTrace(t) && OneTask(a, t)
    requires TaskAt(a).journal.Some? && TaskAt(t).journal.Some?
    ensures TaskAt(a).journal.value.Legal() && TaskAt(t).journal.value.Legal()
    ensures forall step :: StatusRank(TaskAt(a).journal.value.Get(step)) <= StatusRank(TaskAt(t).journal.value.Get(step))
  {
    Lasting(a, t);
    StagesKeepJournalLegal(a.s);
    StagesKeepJournalLegal(t.s);
    RankDeterminesJournal(TaskAt(a).journal.value, TaskAt(t).journal.value);
  }

  lemma StagesKeepJournalLegal(s: Snapshot)
    requires Inv(s) && s.disk.task.Some? && s.disk.task.value.journal.Some?
    ensures s.disk.task.value.journal.value.Legal()
  {
  }

  lemma RankDeterminesJournal(a: CleanupJournal, b: CleanupJournal)
    requires a.Legal() && b.Legal() && a.Rank() <= b.Rank()
    ensures forall step :: StatusRank(a.Get(step)) <= StatusRank(b.Get(step))
  {
  }

  // What a cleanup step takes away is still there.
  predicate StillThere(s: Snapshot, step: CleanupStep)
    requires s.disk.task.Some?
  {
    match step
    case VersionTagStep => VersionTag(s.disk.task.value.original.image.version) in s.world.refs
    case AliasStep => RollbackAlias(s.disk.task.value.id) in s.world.refs
    case ImageStep => s.disk.task.value.original.image in s.world.images
  }

  // Version tag, alias and image of the original disappear only while the very step that removes them is recorded
  // as started, with the target running and named by the env file.  The image may also go with its last reference.
  lemma {:induction false} RemovalsWaitForTheTarget(a: Trace, t: Trace, step: CleanupStep) returns (moment: Trace)
    requires GoodTrace(t) && OneTask(a, t)
    requires StillThere(a.s, step) && !StillThere(t.s, step)
    ensures Within(moment, t) && moment.s.disk.task.Some? && OneTask(a, moment)
    ensures StepStarted(TaskAt(moment), step) || (step.ImageStep? && StepStarted(TaskAt(moment), AliasStep))
    ensures Settled(moment.s.world, TaskAt(moment).target.image)
    ensures TaskAt(moment).stage.Cleaning? || TaskAt(moment).stage.Succeeded?
  {
    if StillThere(t.before.s, step) {
      moment := t.before;
    } else {
      moment := RemovalsWaitForTheTarget(a, t.before, step);
    }
  }

  // A succeeded task whose cleanup is recorded as complete has all three steps recorded as completed, and
  // the moment it was recorded nothing of the original was left.
  lemma {:induction false} CleanupCompleteIsTrue(a: Trace, t: Trace) returns (moment: Trace)
    requires GoodTrace(t) && OneTask(a, t)
    requires !TaskAt(a).cleanup.Complete? && TaskAt(t).cleanup.Complete?
    ensures Within(moment, t) && OneTask(a, moment) && TaskAt(moment).cleanup.Complete?
    ensures VersionTag(TaskAt(moment).original.image.version) !in moment.s.world.refs
    ensures RollbackAlias(TaskAt(moment).id) !in moment.s.world.refs
    ensures TaskAt(moment).original.image !in moment.s.world.images
    ensures TaskAt(t).stage.Succeeded? && TaskAt(t).journal == Some(CleanupJournal(Completed, Completed, Completed))
  {
    if TaskAt(t.before).cleanup.Complete? {
      moment := CleanupCompleteIsTrue(a, t.before);
    } else {
      moment := t;
      assert StepDone(TaskAt(t), VersionTagStep, t.s.world);
      assert StepDone(TaskAt(t), AliasStep, t.s.world);
      assert StepDone(TaskAt(t), ImageStep, t.s.world);
    }
  }

  // While one task stays persisted, backup, stop, migrate and start-target are each issued at most once,
  // in that order, however often it is retried, crashed and recovered.
  lemma PipelineRunsAtMostOnce(a: Trace, t: Trace)
    requires GoodTrace(t) && OneTask(a, t)
    ensures a.s.issued <= t.s.issued <= PIPELINE
    ensures forall i, j :: 0 <= i < j < |t.s.issued| ==> t.s.issued[i] != t.s.issued[j]
    ensures TaskAt(t).stage.Failed? && !TaskAt(t).rolledBack ==> StopWeb !in t.s.issued
  {
    Lasting(a, t);
  }

  // Manual intervention is never left: no request, retry or restart touches such a task again.
  lemma {:induction false} ManualInterventionIsFinal(a: Trace, t: Trace)
    requires GoodTrace(t) && Within(a, t) && a.s.disk.task.Some?
    requires TaskAt(a).stage.ManualIntervention?
    ensures OneTask(a, t) && TaskAt(t).stage.ManualIntervention?
  {
    if a != t {
      ManualInterventionIsFinal(a, t.before);
    }
  }

  predicate Finished(task: UpdateTask) {
    task.stage.Failed? || (task.stage.Succeeded? && task.cleanup.Complete?)
  }

  // Where a task is no longer the persisted one, it had finished: failed, or succeeded with its cleanup complete.
  // Its successor begins in CHECKING with nothing issued.
  lemma {:induction false} NoTaskIsOverwritten(a: Trace, t: Trace) returns (moment: Trace, next: Trace)
    requires GoodTrace(t) && Within(a, t) && a.s.disk.task.Some? && !OneTask(a, t)
    ensures Within(moment, t) && OneTask(a, moment) && Finished(TaskAt(moment))
    ensures Within(next, t) && next.Then? && next.before == moment
    ensures next.s.disk.task.Some? && TaskAt(next).id != TaskAt(a).id
    ensures TaskAt(next).stage.Checking? && next.s.issued == []
  {
    if OneTask(a, t.before) {
      moment, next := t.before, t;
      PrefixesAreGood(t.before, t);
      Lasting(a, t.before);
    } else {
      moment, next := NoTaskIsOverwritten(a, t.before);
    }
  }

  // The meaning of the two good endings at one point.
  predicate EndingsAreTrue(s: Snapshot) {
    s.disk.task.Some? ==>
      var task := s.disk.task.value;
      && (task.stage.Succeeded? ==> Settled(s.world, task.target.image))
      && (task.stage.Failed? ==> Settled(s.world, task.original.image))
  }

  lemma EndingsAreTrueThroughout(t: Trace)
    requires GoodTrace(t)
    ensures forall a :: Within(a, t) ==> EndingsAreTrue(a.s)
  {
    forall a | Within(a, t) ensures EndingsAreTrue(a.s) {
      PrefixesAreGood(a, t);
      if a.s.disk.task.Some? {
        TerminalAgreement(a, t);
      }
    }
  }
}

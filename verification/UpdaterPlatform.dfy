// The machine under the updater: the state file (updater/store.py, an atomic replacement) and the
// platform calls of updater/platform.py as guarded actions on the world.
//
// Every action consults a script of fates, one per action, so a statement about an arbitrary script
// is a statement about every run: the action may do nothing, half of its work or all of it, and may
// then return, raise or take the process down.  Each action that can change something appends the
// resulting atomic point to a ghost trace.

module UpdaterPlatform {
  import opened Common
  import opened UpdaterTypes

  datatype Effect = Nothing | Partly | Fully
  datatype Ending = Returns | Raises | Dies

  datatype Fate = Fate(
    effect: Effect,
    ending: Ending,
    store: Effect,  // what a save does instead: nothing, the record without returning, or all of it
    up: bool,       // whether a created container stays up
    prunes: bool,   // which half of a partial effect happened, and whether docker drops an unreferenced image
    stable: Image,  // what the registry serves for the stable tag
    pinned: Image)  // what it serves for that image's version tag

  // Returned and Raised are Python's two ways out of a call.  Refused is an UpdateConflict.  Gone covers
  // a dead process and an error nobody catches: no further code of the operation runs.
  datatype Signal = Returned | Raised(code: ErrorCode) | Refused | Gone

  // What the updater does to its machine, one entry for each action, whether it works or not.
  datatype Deed =
    | Saves(stage: Option<Stage>) | Inspects | Asks(expected: ImageIdentity) | Resolves
    | BacksUp | Verifies(target: ImageIdentity) | Tags | Stops | Migrates | Starts
    | StartsOriginal | Persists(version: Version) | Cleans(step: CleanupStep)

  function StageOf(d: PersistentState): Option<Stage> {
    if d.task.Some? then Some(d.task.value.stage) else None
  }

  function SignalOf(f: Fate, code: ErrorCode): Signal {
    if f.ending.Dies? then Gone
    else if f.ending.Raises? || !f.effect.Fully? then Raised(code)
    else Returned
  }

  // Nothing is wrong with this action, whatever it is.
  predicate Clean(f: Fate) {
    f.effect.Fully? && f.ending.Returns? && f.store.Fully? && f.up
  }

  // The process outlives this action.
  predicate Outlived(f: Fate) {
    f.store.Fully? && !f.ending.Dies?
  }

  predicate IsOriginal(original: ImageIdentity) {
    original.tags == [VersionTag(original.image.version)]
  }

  predicate IsRecordedTarget(target: ImageIdentity) {
    target.tags == [VersionTag(target.image.version)] && target.rollbackAlias.None?
  }

  // What health(expected=...) needs to find.
  predicate Answers(w: World, expected: ImageIdentity) {
    && w.web.Some? && w.web.value.up && w.web.value.image in w.images
    && SameRuntime(Inspect(w, w.web.value.image), expected)
  }

  // What verify_target needs to find.
  predicate Installable(w: World, target: ImageIdentity) {
    && IsRecordedTarget(target) && target.image in w.images
    && SameRuntime(Inspect(w, target.image), target)
  }

  function WithImage(w: World, image: Image): World {
    w.(images := w.images + {image})
  }

  // What pulling the stable tag and its version tag leaves when the registry serves one image for both.
  function Pulled(w: World, image: Image): World {
    w.(images := w.images + {image}, refs := w.refs[Stable := image][VersionTag(image.version) := image])
  }

  predicate WebInspectable(w: World) {
    w.web.Some? && w.web.value.image in w.images
  }

  // What tag_rollback needs to find.
  predicate TaggableAsOriginal(task: UpdateTask, w: World) {
    && (task.original.rollbackAlias.None? || task.original.rollbackAlias == Some(RollbackAlias(task.id)))
    && IsOriginal(task.original)
    && w.web.Some? && w.web.value.image in w.images
    && SameRuntime(Inspect(w, w.web.value.image), task.original)
  }

  // What start_rollback demands before it touches the container.
  predicate CanStartRollback(task: UpdateTask, w: World) {
    && task.original.rollbackAlias == Some(RollbackAlias(task.id))
    && IsOriginal(task.original)
    && Names(w, RollbackAlias(task.id), task.original.image)
    && task.original.image in w.images
    && SameRuntime(Inspect(w, task.original.image), task.original)
  }

  // The part of a cleanup step's refusals that every step shares.
  predicate CleanupAllowed(task: UpdateTask, step: CleanupStep, w: World) {
    && IsOriginal(task.original)
    && task.original.rollbackAlias == Some(RollbackAlias(task.id))
    && IsRecordedTarget(task.target)
    && task.original.image.version != task.target.image.version
    && task.original.image.digest != task.target.image.digest
    && w.envTag == task.target.image.version
    && task.journal.Some?
    && task.journal.value.Get(step) == Started
    && (w.web.Some? ==> w.web.value.image != task.original.image)
  }

  predicate CleanupStepAllowed(task: UpdateTask, step: CleanupStep, w: World) {
    var original := task.original.image;
    var version, alias := VersionTag(original.version), RollbackAlias(task.id);
    && CleanupAllowed(task, step, w)
    && match step
       case VersionTagStep =>
         && original in w.images
         && AllTags(w, original) <= {version, alias}
         && Names(w, alias, original)
         && (version in w.refs ==> w.refs[version] == original)
       case AliasStep =>
         && original in w.images
         && AllTags(w, original) <= {version, alias}
         && version !in w.refs
         && (alias in w.refs ==> w.refs[alias] == original)
       case ImageStep =>
         && (original in w.images ==> AllTags(w, original) == {})
         && version !in w.refs && alias !in w.refs
  }

  function CleanedUp(task: UpdateTask, step: CleanupStep, w: World, prunes: bool): World {
    var original := task.original.image;
    match step
    case VersionTagStep =>
      w.(refs := w.refs - {VersionTag(original.version)})
    case AliasStep =>
      w.(refs := w.refs - {RollbackAlias(task.id)},
         images := if prunes then w.images - {original} else w.images)
    case ImageStep =>
      w.(images := w.images - {original})
  }

  predicate Cleaned(task: UpdateTask, step: CleanupStep, before: World, after: World) {
    after == CleanedUp(task, step, before, false) || after == CleanedUp(task, step, before, true)
  }

  // Nothing but the step's own reference to the original is at stake: it is recorded as started, the env file names
  // the target, no container has the original, and nobody else refers to it.
  predicate MayRemove(task: UpdateTask, step: CleanupStep, w: World) {
    var original := task.original.image;
    var version, alias := VersionTag(original.version), RollbackAlias(task.id);
    && task.journal.Some? && task.journal.value.Get(step).Started?
    && w.envTag == task.target.image.version != original.version
    && task.target.image.digest != original.digest
    && (w.web.None? || w.web.value.image != original)
    && (original in w.images ==>
          forall ref :: ref in w.refs && w.refs[ref] == original ==> ref == version || ref == alias)
    && match step
       case VersionTagStep => original in w.images && Names(w, alias, original)
       case AliasStep => original in w.images && version !in w.refs
       case ImageStep => version !in w.refs && alias !in w.refs
  }

  // The step takes at most its own reference to the original away, or the image once nothing refers to it.
  predicate OnlyRemoved(task: UpdateTask, step: CleanupStep, before: World, after: World) {
    && after == before.(refs := after.refs, images := after.images)
    && (forall ref :: ref in after.refs ==> ref in before.refs && after.refs[ref] == before.refs[ref])
    && (forall ref :: ref in before.refs && ref !in after.refs ==>
          && before.refs[ref] == task.original.image
          && ((step.VersionTagStep? && ref == VersionTag(task.original.image.version))
              || (step.AliasStep? && ref == RollbackAlias(task.id))))
    && after.images <= before.images <= after.images + {task.original.image}
    && (after.images != before.images ==> !step.VersionTagStep? && AllTags(after, task.original.image) == {})
  }

  // What a finished step leaves behind.
  predicate StepDone(task: UpdateTask, step: CleanupStep, w: World) {
    match step
    case VersionTagStep => VersionTag(task.original.image.version) !in w.refs
    case AliasStep => RollbackAlias(task.id) !in w.refs
    case ImageStep => task.original.image !in w.images
  }

  // What the guard of a step protects.
  lemma GuardedStepIsSafe(task: UpdateTask, step: CleanupStep, before: World, after: World)
    requires CleanupStepAllowed(task, step, before)
    ensures MayRemove(task, step, before)
    ensures Cleaned(task, step, before, after) ==> OnlyRemoved(task, step, before, after)
  {
    forall ref | task.original.image in before.images && ref in before.refs && before.refs[ref] == task.original.image
      ensures ref == VersionTag(task.original.image.version) || ref == RollbackAlias(task.id)
    {
      assert ref in AllTags(before, task.original.image);
    }
  }

  // The guards in terms of what the machine holds.
  lemma GuardsMean(w: World, identity: ImageIdentity)
    ensures WebInspectable(w) <==> exists c: Container :: w.web == Some(c) && c.image in w.images
    ensures Answers(w, identity) <==>
              && w.web == Some(Container(identity.image, true)) && identity.image in w.images
              && (identity.tags == [VersionTag(identity.image.version)] || identity.tags == [])
              && (identity.tags == [] <==> !Names(w, VersionTag(identity.image.version), identity.image))
    ensures Installable(w, identity) <==>
              && identity.tags == [VersionTag(identity.image.version)] && identity.rollbackAlias == None
              && identity.image in w.images && Names(w, VersionTag(identity.image.version), identity.image)
  {
    if WebInspectable(w) {
      assert w.web == Some(w.web.value);
    }
  }

  lemma RollbackGuardsMean(task: UpdateTask, w: World)
    ensures TaggableAsOriginal(task, w) <==>
              && (task.original.rollbackAlias == None || task.original.rollbackAlias == Some(RollbackAlias(task.id)))
              && task.original.tags == [VersionTag(task.original.image.version)]
              && w.web.Some? && w.web.value.image == task.original.image && task.original.image in w.images
              && Names(w, VersionTag(task.original.image.version), task.original.image)
    ensures CanStartRollback(task, w) <==>
              && task.original.rollbackAlias == Some(RollbackAlias(task.id))
              && task.original.tags == [VersionTag(task.original.image.version)]
              && Names(w, RollbackAlias(task.id), task.original.image) && task.original.image in w.images
              && Names(w, VersionTag(task.original.image.version), task.original.image)
  {
  }

  // An action dies exactly when it is to, and leaves the world alone when it is to have no effect.
  predicate Obeys(f: Fate, s: Signal, before: World, after: World) {
    && (s.Gone? <==> f.ending == Dies)
    && (f.effect == Nothing ==> after == before)
  }

  // What a signal says of an action's fate.
  lemma SignalsMean(f: Fate, code: ErrorCode)
    ensures SignalOf(f, code) == Gone <==> f.ending == Dies
    ensures SignalOf(f, code) == Returned <==> f.ending == Returns && f.effect == Fully
    ensures SignalOf(f, code) == Gone || SignalOf(f, code) == Returned || SignalOf(f, code) == Raised(code)
  {
  }

  class Host {
    var disk: PersistentState
    var world: World
    var tick: nat
    const fates: nat -> Fate
    ghost var issued: seq<Command>
    ghost var trace: Trace
    ghost var deeds: seq<Deed>
    ghost var cut: bool  // the operation under way was cut off
    ghost const initial: Snapshot

    constructor (disk: PersistentState, world: World, fates: nat -> Fate)
      ensures this.disk == disk && this.world == world && this.fates == fates
      ensures deeds == [] && !cut
      ensures issued == [] && initial == Snapshot(disk, world, []) && trace == Start(initial)
    {
      this.disk, this.world, this.fates, this.tick := disk, world, fates, 0;
      this.issued, this.initial := [], Snapshot(disk, world, []);
      this.deeds, this.cut := [], false;
      this.trace := Start(Snapshot(disk, world, []));
    }

    ghost function Point(): Snapshot
      reads this
    {
      Snapshot(disk, world, issued)
    }

    ghost predicate CleanBut(k: int)
      reads this`tick
    {
      forall i: nat :: tick <= i && i != k ==> Clean(fates(i))
    }

    ghost predicate StaysUp()
      reads this`tick
    {
      forall i: nat :: tick <= i ==> Outlived(fates(i))
    }

    // How much may still go wrong: nothing (0); one action that the process outlives (1); anything the process
    // outlives (2); anything (3).
    ghost function Trouble(): (trouble: nat)
      reads this`tick
      ensures trouble <= 3
    {
      if CleanBut(-1) then 0
      else if StaysUp() then
        if exists k :: CleanBut(k) then 1 else 2
      else 3
    }

    // From here on every action does all of its work and returns, and every container comes up.
    ghost predicate Faultless()
      reads this`tick
    {
      Trouble() == 0
    }

    // One action at most goes wrong.
    ghost predicate OnceFaulty()
      reads this`tick
    {
      Trouble() <= 1
    }

    // The process is not cut off.
    ghost predicate Alive()
      reads this`tick
    {
      Trouble() <= 2
    }

    // The registry serves this image whenever it is asked for the stable one.
    ghost predicate Serves(image: Image) {
      forall i :: fates(i).stable == fates(i).pinned == image
    }

    method NextFate() returns (f: Fate)
      modifies this`tick
      ensures f == fates(old(tick)) && tick == old(tick) + 1
      ensures Trouble() <= old(Trouble())
      ensures old(Faultless()) ==> Clean(f)
      ensures old(OnceFaulty()) ==> Clean(f) || Faultless()
      ensures old(Alive()) ==> Outlived(f)
    {
      ghost var k := if exists k :: CleanBut(k) then var k :| CleanBut(k); k else -1;
      f := fates(tick);
      tick := tick + 1;
      assert old(exists k :: CleanBut(k)) ==> CleanBut(k);
      assert old(CleanBut(-1)) ==> CleanBut(-1);
    }

    // Another operation begins, in this process or the next.
    ghost method Resume()
      modifies this`cut
      ensures !cut
    {
      cut := false;
    }

    // FileStateStore.save: the old state or the new one, never anything between.  An error here is not
    // one the manager catches.
    method Save(next: PersistentState) returns (s: Signal)
      requires !cut
      modifies this
      ensures deeds == old(deeds) + [Saves(StageOf(next))] && (cut <==> s.Gone?)
      ensures s.Returned? || s.Gone?
      ensures s.Returned? ==> disk == next
      ensures disk == old(disk) || disk == next
      ensures old(Alive()) ==> s.Returned?
      ensures Trouble() <= old(Trouble())
      ensures world == old(world)
      ensures issued == if StartsNewTask(old(disk), disk) then [] else old(issued)
      ensures trace == Then(old(trace), Point())
      ensures disk == (if fates(old(tick)).store.Nothing? then old(disk) else next) && (s.Gone? <==> !fates(old(tick)).store.Fully?)
    {
      var f := NextFate();
      ghost var before := disk;
      if !f.store.Nothing? {
        disk := next;
      }
      issued := if StartsNewTask(before, disk) then [] else issued;
      trace := Then(trace, Point());
      s := if f.store.Fully? then Returned else Gone;
      deeds, cut := deeds + [Saves(StageOf(next))], s.Gone?;
    }

    method InspectWeb() returns (s: Signal, actual: ImageIdentity)
      requires !cut
      modifies this`tick, this`deeds, this`cut
      ensures deeds == old(deeds) + [Inspects] && (cut <==> s.Gone?)
      ensures s.Returned? || s.Gone? || s == Raised(OtherFailure)
      ensures old(Alive()) ==> !s.Gone?
      ensures Trouble() <= old(Trouble())
      ensures s.Returned? ==>
                && world.web.Some? && world.web.value.image in world.images
                && actual == Inspect(world, world.web.value.image)
      ensures old(Faultless()) && world.web.Some? && world.web.value.image in world.images ==> s.Returned?
      ensures Obeys(fates(old(tick)), s, world, world)
    {
      var f := NextFate();
      s := SignalOf(f, OtherFailure);
      if world.web.Some? && world.web.value.image in world.images {
        actual := Inspect(world, world.web.value.image);
      } else {
        actual := Inspect(world, f.stable);
        s := if s.Gone? then Gone else Raised(OtherFailure);
      }
      deeds, cut := deeds + [Inspects], s.Gone?;
    }

    // health(expected=...): answers only while the container is up, and insists on its identity.
    method Health(expected: ImageIdentity) returns (s: Signal)
      requires !cut
      modifies this`tick, this`deeds, this`cut
      ensures deeds == old(deeds) + [Asks(expected)] && (cut <==> s.Gone?)
      ensures s.Returned? || s.Gone? || s == Raised(HealthCheckFailed)
      ensures old(Alive()) ==> !s.Gone?
      ensures Trouble() <= old(Trouble())
      ensures s.Returned? ==>
                && Answers(world, expected)
                && world.web == Some(Container(expected.image, true)) && expected.image in world.images
                && (expected.tags == [VersionTag(expected.image.version)] ==>
                      Names(world, VersionTag(expected.image.version), expected.image))
      ensures old(Faultless()) && Answers(world, expected) ==> s.Returned?
      ensures old(OnceFaulty()) && Answers(world, expected) ==> s.Returned? || Faultless()
      ensures Obeys(fates(old(tick)), s, world, world)
    {
      var f := NextFate();
      s := SignalOf(f, HealthCheckFailed);
      if s.Returned? && !Answers(world, expected) {
        s := Raised(HealthCheckFailed);
      }
      deeds, cut := deeds + [Asks(expected)], s.Gone?;
    }

    // Two pulls: the stable tag, then the version tag its image carries.  Both move local tags even when
    // the pair does not match and the call raises.
    method ResolveStable() returns (s: Signal, resolved: ImageIdentity)
      requires !cut
      modifies this
      ensures deeds == old(deeds) + [Resolves] && (cut <==> s.Gone?)
      ensures s.Returned? || s.Gone? || s == Raised(PullFailed)
      ensures old(Alive()) ==> !s.Gone?
      ensures Trouble() <= old(Trouble())
      ensures disk == old(disk) && issued == old(issued)
      ensures trace == Then(old(trace), Point())
      ensures world.web == old(world).web && world.envTag == old(world).envTag
      ensures world.backups == old(world).backups && old(world).images <= world.images
      ensures old(world).refs.Keys <= world.refs.Keys
      ensures s.Returned? ==>
                && resolved.image in world.images
                && resolved == Inspect(world, resolved.image)
                && resolved.tags == [VersionTag(resolved.image.version)]
      ensures forall image :: old(Faultless()) && Serves(image) ==>
                && s.Returned? && world == Pulled(old(world), image)
                && resolved == Inspect(Pulled(old(world), image), image)
      ensures Obeys(fates(old(tick)), s, old(world), world)
    {
      var f := NextFate();
      var tag := VersionTag(f.stable.version);
      var first := world.(images := world.images + {f.stable}, refs := world.refs[Stable := f.stable]);
      var second := first.(images := first.images + {f.pinned}, refs := first.refs[tag := f.pinned]);
      world := match f.effect case Nothing => world case Partly => first case Fully => second;
      trace := Then(trace, Point());
      s := SignalOf(f, PullFailed);
      resolved := Inspect(world, f.stable);
      if s.Returned? && f.pinned != f.stable {
        s := Raised(PullFailed);
      }
      deeds, cut := deeds + [Resolves], s.Gone?;
    }

    method CreateBackup() returns (s: Signal, database: BackupFile, uploads: BackupFile)
      requires !cut
      modifies this
      ensures deeds == old(deeds) + [BacksUp] && (cut <==> s.Gone?)
      ensures s.Returned? || s.Gone? || s == Raised(BackupFailed)
      ensures old(Alive()) ==> !s.Gone?
      ensures Trouble() <= old(Trouble())
      ensures disk == old(disk) && issued == old(issued) + [BackUp]
      ensures trace == Then(old(trace), Point())
      ensures world == old(world).(backups := world.backups)
      ensures old(world).backups <= world.backups
      ensures s.Returned? ==> database in world.backups && uploads in world.backups
      ensures old(Faultless()) && old(world).web.Some? && old(world).web.value.up ==> s.Returned?
      ensures Obeys(fates(old(tick)), s, old(world), world)
      ensures s.Returned? || world != old(world) ==> old(world).web.Some? && old(world).web.value.up
    {
      var f := NextFate();
      database, uploads := DatabaseDump(tick), UploadsArchive(tick);
      issued := issued + [BackUp];
      s := SignalOf(f, BackupFailed);
      if world.web.Some? && world.web.value.up {
        world := match f.effect
          case Nothing => world
          case Partly => world.(backups := world.backups + {database})
          case Fully => world.(backups := world.backups + {database, uploads});
      } else {
        s := if s.Gone? then Gone else Raised(BackupFailed);
      }
      trace := Then(trace, Point());
      deeds, cut := deeds + [BacksUp], s.Gone?;
    }

    // The pull by digest may add the target to the images at hand even when the call then fails.
    method VerifyTarget(target: ImageIdentity) returns (s: Signal)
      requires !cut
      modifies this
      ensures deeds == old(deeds) + [Verifies(target)] && (cut <==> s.Gone?)
      ensures s.Returned? || s.Gone? || s == Raised(PullFailed) || s == Raised(OtherFailure)
      ensures old(Alive()) ==> !s.Gone?
      ensures Trouble() <= old(Trouble())
      ensures disk == old(disk) && issued == old(issued)
      ensures trace == Then(old(trace), Point())
      ensures world == old(world).(images := world.images)
      ensures world.images == old(world).images || world.images == old(world).images + {target.image}
      ensures s.Returned? ==> Installable(world, target) && WebInspectable(world)
      ensures s.Returned? ==>
                && target.image in world.images && target.tags == [VersionTag(target.image.version)]
                && Names(world, VersionTag(target.image.version), target.image)
      ensures old(Faultless()) && WebInspectable(old(world)) && Installable(WithImage(old(world), target.image), target) ==>
                s.Returned?
      ensures Obeys(fates(old(tick)), s, old(world), world)
      ensures world != old(world) ==> target.tags == [VersionTag(target.image.version)] && target.rollbackAlias == None
      ensures s.Returned? ==> target.rollbackAlias == None
    {
      var f := NextFate();
      s := SignalOf(f, PullFailed);
      if IsRecordedTarget(target) && f.effect.Fully? {
        world := WithImage(world, target.image);
      }
      if s.Returned? && !(Installable(world, target) && WebInspectable(world)) {
        s := Raised(OtherFailure);
      }
      trace := Then(trace, Point());
      deeds, cut := deeds + [Verifies(target)], s.Gone?;
    }

    method TagRollback(task: UpdateTask) returns (s: Signal, tagged: UpdateTask)
      requires !cut
      modifies this
      ensures deeds == old(deeds) + [Tags] && (cut <==> s.Gone?)
      ensures s.Returned? || s.Gone? || s == Raised(OtherFailure)
      ensures old(Alive()) ==> !s.Gone?
      ensures Trouble() <= old(Trouble())
      ensures disk == old(disk) && issued == old(issued)
      ensures trace == Then(old(trace), Point())
      ensures world == old(world).(refs := world.refs)
      ensures world.refs == old(world).refs || world.refs == old(world).refs[RollbackAlias(task.id) := task.original.image]
      ensures s.Returned? ==>
                && tagged == task.(original := task.original.(rollbackAlias := Some(RollbackAlias(task.id))))
                && CanStartRollback(tagged, world)
                && Names(world, RollbackAlias(task.id), task.original.image)
                && old(world).web.Some? && old(world).web.value.image == task.original.image
      ensures old(Faultless()) && TaggableAsOriginal(task, old(world)) ==> s.Returned?
      ensures Obeys(fates(old(tick)), s, old(world), world)
      ensures s.Returned? || world != old(world) ==>
                && task.original.tags == [VersionTag(task.original.image.version)]
                && (task.original.rollbackAlias == None || task.original.rollbackAlias == Some(RollbackAlias(task.id)))
    {
      var f := NextFate();
      var alias := RollbackAlias(task.id);
      tagged := task;
      s := SignalOf(f, OtherFailure);
      var original := task.original;
      if TaggableAsOriginal(task, world) {
        if f.effect.Fully? {
          world := world.(refs := world.refs[alias := original.image]);
          tagged := task.(original := original.(rollbackAlias := Some(alias)));
        }
      } else {
        s := if s.Gone? then Gone else Raised(OtherFailure);
      }
      trace := Then(trace, Point());
      deeds, cut := deeds + [Tags], s.Gone?;
    }

    method StopWebContainer() returns (s: Signal)
      requires !cut
      modifies this
      ensures deeds == old(deeds) + [Stops] && (cut <==> s.Gone?)
      ensures s.Returned? || s.Gone? || s == Raised(OtherFailure)
      ensures old(Alive()) ==> !s.Gone?
      ensures Trouble() <= old(Trouble())
      ensures disk == old(disk) && issued == old(issued) + [StopWeb]
      ensures trace == Then(old(trace), Point())
      ensures world == old(world).(web := world.web)
      ensures world.web == old(world).web
        || (old(world).web.Some? && world.web == Some(old(world).web.value.(up := false)))
      ensures s.Returned? && world.web.Some? ==> !world.web.value.up
      ensures old(OnceFaulty()) ==> s.Returned? || Faultless()
      ensures old(Faultless()) ==> s.Returned?
      ensures Obeys(fates(old(tick)), s, old(world), world)
    {
      var f := NextFate();
      issued := issued + [StopWeb];
      if f.effect.Fully? && world.web.Some? {
        world := world.(web := Some(world.web.value.(up := false)));
      }
      trace := Then(trace, Point());
      s := SignalOf(f, OtherFailure);
      deeds, cut := deeds + [Stops], s.Gone?;
    }

    // The schema migration; its effect on the database is not part of this model.
    method MigrateTarget(target: ImageIdentity) returns (s: Signal)
      requires !cut
      modifies this
      ensures deeds == old(deeds) + [Migrates] && (cut <==> s.Gone?)
      ensures s.Returned? || s.Gone? || s == Raised(MigrationFailed)
      ensures old(Alive()) ==> !s.Gone?
      ensures Trouble() <= old(Trouble())
      ensures disk == old(disk) && world == old(world) && issued == old(issued) + [Migrate]
      ensures old(Faultless()) && IsRecordedTarget(target) ==> s.Returned?
      ensures old(OnceFaulty()) && IsRecordedTarget(target) ==> s.Returned? || Faultless()
      ensures trace == Then(old(trace), Point())
      ensures Obeys(fates(old(tick)), s, world, world)
      ensures s.Returned? ==> target.tags == [VersionTag(target.image.version)] && target.rollbackAlias == None
    {
      var f := NextFate();
      issued := issued + [Migrate];
      trace := Then(trace, Point());
      s := SignalOf(f, MigrationFailed);
      if s.Returned? && !IsRecordedTarget(target) {
        s := Raised(MigrationFailed);
      }
      deeds, cut := deeds + [Migrates], s.Gone?;
    }

    method StartTargetContainer(target: ImageIdentity) returns (s: Signal)
      requires !cut
      modifies this
      ensures deeds == old(deeds) + [Starts] && (cut <==> s.Gone?)
      ensures s.Returned? || s.Gone? || s == Raised(OtherFailure)
      ensures old(Alive()) ==> !s.Gone?
      ensures Trouble() <= old(Trouble())
      ensures disk == old(disk) && issued == old(issued) + [StartTarget]
      ensures trace == Then(old(trace), Point())
      ensures world == old(world).(web := world.web)
      ensures world.web != old(world).web && world.web.Some? ==>
                world.web.value.image == target.image && target.image in world.images
      ensures s.Returned? ==> world.web.Some? && world.web.value.image == target.image
      ensures old(Faultless()) && IsRecordedTarget(target) && target.image in old(world).images ==>
                s.Returned? && world.web.value.up
      ensures old(OnceFaulty()) && IsRecordedTarget(target) && target.image in old(world).images ==>
                (s.Returned? && world.web.value.up) || Faultless()
      ensures Obeys(fates(old(tick)), s, old(world), world)
      ensures s.Returned? || world != old(world) ==> target.tags == [VersionTag(target.image.version)] && target.rollbackAlias == None
    {
      var f := NextFate();
      issued := issued + [StartTarget];
      s := SignalOf(f, OtherFailure);
      if IsRecordedTarget(target) && target.image in world.images {
        world := Recreated(world, target.image, f);
      } else {
        s := if s.Gone? then Gone else Raised(OtherFailure);
      }
      trace := Then(trace, Point());
      deeds, cut := deeds + [Starts], s.Gone?;
    }

    method StartRollback(task: UpdateTask) returns (s: Signal)
      requires !cut
      modifies this
      ensures deeds == old(deeds) + [StartsOriginal] && (cut <==> s.Gone?)
      ensures s.Returned? || s.Gone? || s == Raised(OtherFailure)
      ensures old(Alive()) ==> !s.Gone?
      ensures Trouble() <= old(Trouble())
      ensures disk == old(disk) && issued == old(issued)
      ensures trace == Then(old(trace), Point())
      ensures world == old(world).(web := world.web)
      ensures world.web != old(world).web ==>
                && CanStartRollback(task, old(world))
                && (world.web.Some? ==> world.web.value.image == task.original.image)
      ensures s.Returned? ==>
                && CanStartRollback(task, old(world))
                && Names(old(world), RollbackAlias(task.id), task.original.image)
                && task.original.rollbackAlias == Some(RollbackAlias(task.id))
                && world.web.Some? && world.web.value.image == task.original.image
      ensures old(Faultless()) && CanStartRollback(task, old(world)) ==> s.Returned? && world.web.value.up
      ensures Obeys(fates(old(tick)), s, old(world), world)
    {
      var f := NextFate();
      s := SignalOf(f, OtherFailure);
      if CanStartRollback(task, world) {
        world := Recreated(world, task.original.image, f);
      } else {
        s := if s.Gone? then Gone else Raised(OtherFailure);
      }
      trace := Then(trace, Point());
      deeds, cut := deeds + [StartsOriginal], s.Gone?;
    }

    // persist_version as one atomic replacement of the env file (its text is the subject of EnvFile).
    method PersistVersion(version: Version) returns (s: Signal)
      requires !cut
      modifies this
      ensures deeds == old(deeds) + [Persists(version)] && (cut <==> s.Gone?)
      ensures s.Returned? || s.Gone? || s == Raised(OtherFailure)
      ensures old(Alive()) ==> !s.Gone?
      ensures Trouble() <= old(Trouble())
      ensures disk == old(disk) && issued == old(issued)
      ensures trace == Then(old(trace), Point())
      ensures world == old(world).(envTag := world.envTag)
      ensures world.envTag == old(world).envTag || world.envTag == version
      ensures s.Returned? ==> world.envTag == version
      ensures old(Faultless()) ==> s.Returned?
      ensures old(OnceFaulty()) ==> s.Returned? || Faultless()
      ensures Obeys(fates(old(tick)), s, old(world), world)
    {
      var f := NextFate();
      if f.effect.Fully? {
        world := world.(envTag := version);
      }
      trace := Then(trace, Point());
      s := SignalOf(f, OtherFailure);
      deeds, cut := deeds + [Persists(version)], s.Gone?;
    }

    method CleanupOriginalStep(task: UpdateTask, step: CleanupStep) returns (s: Signal)
      requires !cut
      modifies this
      ensures deeds == old(deeds) + [Cleans(step)] && (cut <==> s.Gone?)
      ensures s.Returned? || s.Gone? || s == Raised(OtherFailure)
      ensures old(Alive()) ==> !s.Gone?
      ensures Trouble() <= old(Trouble())
      ensures disk == old(disk) && issued == old(issued)
      ensures trace == Then(old(trace), Point())
      ensures world == old(world) ||
        (CleanupStepAllowed(task, step, old(world)) && Cleaned(task, step, old(world), world))
      ensures s.Returned? ==> StepDone(task, step, world) && CleanupStepAllowed(task, step, old(world))
      ensures s.Returned? || world != old(world) ==> MayRemove(task, step, old(world))
      ensures OnlyRemoved(task, step, old(world), world)
      ensures old(Faultless()) && CleanupStepAllowed(task, step, old(world)) ==>
                s.Returned? && Cleaned(task, step, old(world), world)
      ensures Obeys(fates(old(tick)), s, old(world), world)
      ensures s.Returned? || world != old(world) ==>
                && task.original.tags == [VersionTag(task.original.image.version)]
                && task.original.rollbackAlias == Some(RollbackAlias(task.id))
                && task.target.tags == [VersionTag(task.target.image.version)] && task.target.rollbackAlias == None
    {
      var f := NextFate();
      s := SignalOf(f, OtherFailure);
      if CleanupStepAllowed(task, step, world) {
        GuardedStepIsSafe(task, step, world, CleanedUp(task, step, world, f.prunes));
        if f.effect.Fully? {
          world := CleanedUp(task, step, world, f.prunes);
        }
      } else {
        s := if s.Gone? then Gone else Raised(OtherFailure);
      }
      trace := Then(trace, Point());
      deeds, cut := deeds + [Cleans(step)], s.Gone?;
    }
  }

  // `compose up -d`: it may have removed the old container, created the new one or started it.
  function Recreated(w: World, image: Image, f: Fate): World {
    w.(web := match f.effect
      case Nothing => w.web
      case Partly => if f.prunes then None else Some(Container(image, false))
      case Fully => Some(Container(image, f.up)))
  }

  predicate StartsNewTask(before: PersistentState, after: PersistentState) {
    && after.task.Some?
    && (before.task.None? || before.task.value.id != after.task.value.id)
  }
}

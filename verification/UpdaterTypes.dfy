// Durable records of the web updater (updater/types.py) and the outside world it drives
// (the docker daemon, the compose file's container and the env file of updater/platform.py).

module UpdaterTypes {
  import opened Common

  // vMAJOR.MINOR.PATCH; the textual form is canonical, so the key is the version itself.
  datatype Version = Version(major: nat, minor: nat, patch: nat)

  predicate Newer(a: Version, b: Version) {
    || a.major > b.major
    || (a.major == b.major && a.minor > b.minor)
    || (a.major == b.major && a.minor == b.minor && a.patch > b.patch)
  }

  // Newer is greater, the parts read as digits of any base they fit.
  lemma NewerIsGreater(a: Version, b: Version, base: nat)
    requires a.major < base && a.minor < base && a.patch < base && b.major < base && b.minor < base && b.patch < base
    ensures Newer(a, b) <==> (a.major * base + a.minor) * base + a.patch > (b.major * base + b.minor) * base + b.patch
  {
    FirstDigitDecides(a.major, a.minor, b.major, b.minor, base);
    FirstDigitDecides(a.major * base + a.minor, a.patch, b.major * base + b.minor, b.patch, base);
  }

  lemma FirstDigitDecides(a: nat, x: nat, b: nat, y: nat, base: nat)
    requires x < base && y < base
    ensures a * base + x > b * base + y <==> a > b || (a == b && x > y)
    ensures a * base + x == b * base + y <==> a == b && x == y
  {
    if a > b {
      assert a * base >= (b + 1) * base;
    } else if a < b {
      assert b * base >= (a + 1) * base;
    }
  }

  // An image id is the hash of the image's content, so the content stands for the id.
  datatype Image = Image(version: Version, digest: nat, publishedAt: nat, config: nat)

  type TaskId = nat

  datatype Ref = VersionTag(version: Version) | RollbackAlias(task: TaskId) | Stable

  datatype ImageIdentity = ImageIdentity(image: Image, tags: seq<Ref>, rollbackAlias: Option<Ref>)

  predicate SameRuntime(actual: ImageIdentity, expected: ImageIdentity) {
    actual.image == expected.image && actual.tags == expected.tags
  }

  datatype CheckResult = CheckResult(
    current: ImageIdentity, target: ImageIdentity, available: bool, checkedAt: int)

  datatype Stage =
    | Checking | BackingUp | Pulling
    | StoppingWeb | Migrating | StartingWeb | CheckingHealth | Stabilizing
    | PersistingVersion | Cleaning | RollingBack
    | Succeeded | Failed | ManualIntervention

  datatype CleanupStatus = NotRun | Complete | Pending

  datatype CleanupStep = VersionTagStep | AliasStep | ImageStep

  datatype StepStatus = NotStarted | Started | Completed

  datatype CleanupJournal = CleanupJournal(
    versionTag: StepStatus, rollbackAlias: StepStatus, imageId: StepStatus)
  {
    // The ordering rule the constructor of the record enforces.
    predicate Legal() {
      && (rollbackAlias != NotStarted ==> versionTag == Completed)
      && (imageId != NotStarted ==> rollbackAlias == Completed)
    }

    predicate IsComplete() { imageId == Completed }

    function Get(step: CleanupStep): StepStatus {
      match step
      case VersionTagStep => versionTag
      case AliasStep => rollbackAlias
      case ImageStep => imageId
    }

    function Put(step: CleanupStep, status: StepStatus): CleanupJournal {
      match step
      case VersionTagStep => this.(versionTag := status)
      case AliasStep => this.(rollbackAlias := status)
      case ImageStep => this.(imageId := status)
    }

    // Position among the seven legal journals.
    function Rank(): nat {
      StatusRank(versionTag) + StatusRank(rollbackAlias) + StatusRank(imageId)
    }
  }

  function StatusRank(s: StepStatus): nat {
    match s case NotStarted => 0 case Started => 1 case Completed => 2
  }

  const BLANK_JOURNAL := CleanupJournal(NotStarted, NotStarted, NotStarted)

  datatype BackupFile = DatabaseDump(stamp: nat) | UploadsArchive(stamp: nat)

  datatype ErrorCode =
    | NoError | BackupFailed | PullFailed | MigrationFailed | HealthCheckFailed
    | RollbackFailed | UpdateFailed
    | OtherFailure // every code that is not shown to the user as itself

  // A journal of None is what a record written by an older updater decodes to.
  datatype UpdateTask = UpdateTask(
    id: TaskId,
    original: ImageIdentity,
    target: ImageIdentity,
    stage: Stage,
    databaseBackup: Option<BackupFile>,
    uploadsBackup: Option<BackupFile>,
    rolledBack: bool,
    cleanup: CleanupStatus,
    journal: Option<CleanupJournal>,
    errorCode: ErrorCode)

  datatype PersistentState = PersistentState(
    lastCheck: Option<CheckResult>, task: Option<UpdateTask>)

  // The outside world.

  datatype Container = Container(image: Image, up: bool)

  datatype World = World(
    images: set<Image>,
    refs: map<Ref, Image>,
    web: Option<Container>,
    envTag: Version,
    backups: set<BackupFile>)

  predicate Names(w: World, ref: Ref, image: Image) {
    ref in w.refs && w.refs[ref] == image
  }

  function AllTags(w: World, image: Image): set<Ref> {
    set ref | ref in w.refs && w.refs[ref] == image
  }

  // Identity read back from the daemon: the version tag is reported only while it still names the image.
  function Inspect(w: World, image: Image): ImageIdentity {
    ImageIdentity(
      image,
      if Names(w, VersionTag(image.version), image) then [VersionTag(image.version)] else [],
      None)
  }

  predicate Runs(w: World, image: Image) {
    w.web == Some(Container(image, true))
  }

  // The image is the running web image and the env file names its version.
  predicate Settled(w: World, image: Image) {
    Runs(w, image) && w.envTag == image.version
  }

  // The pipeline's irreversible commands, in the order the code issues them.
  datatype Command = BackUp | StopWeb | Migrate | StartTarget

  const PIPELINE: seq<Command> := [BackUp, StopWeb, Migrate, StartTarget]

  // One atomic point of a run: what a crash right now would leave behind, together with
  // the pipeline commands issued since the persisted task was created.
  datatype Snapshot = Snapshot(disk: PersistentState, world: World, issued: seq<Command>)

  datatype Trace = Start(s: Snapshot) | Then(before: Trace, s: Snapshot)
}

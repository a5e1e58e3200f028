// The service around the manager: the retry front door (_OperationRunner of updater/http_server.py),
// process restarts (updater/main.py runs recover() first) and the manual cleanup command, in any order.

module UpdaterService {
  import opened Common
  import opened UpdaterTypes
  import opened UpdaterPlatform
  import opened UpdaterInvariant
  import opened UpdaterManager
  import opened UpdaterHistory

  datatype Request =
    | CheckForUpdate
    | StartUpdate(version: Version, id: TaskId)
    | RunWorker
    | Restart
    | FinishCleanup

  class OperationRunner {
    const manager: UpdateManager
    var worker: Option<TaskId>    // the thread that is to execute a task, while it is alive
    var shown: Option<UpdateTask> // the task last answered
    ghost var served: seq<Request>

    constructor (manager: UpdateManager)
      ensures this.manager == manager && worker.None? && shown.None? && served == []
    {
      this.manager, worker, shown, served := manager, None, None, [];
    }

    // The status can be told: a check is on record, or the container can be looked at.
    ghost predicate Known()
      reads manager.host
    {
      manager.host.disk.lastCheck.Some? || (manager.host.Faultless() && WebInspectable(manager.host.world))
    }

    // start(): whoever repeats the persisted id gets the persisted task back; nobody starts a second
    // worker beside a living one.
    method Start(version: Version, id: TaskId, now: int) returns (s: Signal, answer: Option<UpdateTask>)
      requires manager.Sound() && !manager.host.cut
      modifies this, manager.host
      ensures manager.Sound() && (manager.host.cut <==> s.Gone?) && served == old(served)
      ensures old(worker.Some?) ==> worker == old(worker)
      ensures old(worker.Some? || manager.Holds(id)) ==>
                && worker == old(worker)
                && manager.host.Point() == old(manager.host.Point()) && manager.host.trace == old(manager.host.trace)
      // Once the status is known, a repeated id gets the persisted task, or is refused for another version.
      ensures old(manager.Holds(id) && Known()) ==>
                if old(manager.Task()).target.image.version == version
                then s.Returned? && answer == Some(old(manager.Task()))
                else s.Refused? && answer.None?
      // Beside a living worker its own request gets the task it was started with, and any other is refused.
      ensures old(worker.Some? && !manager.Holds(id) && Known()) ==>
                if old(shown.Some? && shown.value.id == id && shown.value.target.image.version == version)
                then s.Returned? && answer == old(shown)
                else s.Refused? && answer.None?
      ensures old(worker.None? && !manager.Holds(id) && Known() && !manager.Startable(version, now)) ==> s.Refused?
      ensures old(manager.host.disk.lastCheck.None? && !WebInspectable(manager.host.world)) ==>
                (s.Raised? || s.Gone?) && answer.None? && worker == old(worker)
      ensures s.Refused? ==> answer.None? && worker == old(worker)
      ensures old(manager.Holds(id)) && s.Returned? ==>
                answer == Some(manager.Task()) && answer.value.target.image.version == version
      ensures worker != old(worker) ==>
                && s.Returned? && worker == Some(id)
                && manager.Holds(id) && manager.Task().stage.Checking? && manager.host.issued == []
      ensures s.Returned? ==> answer.Some? && answer.value.id == id && shown == answer
      ensures s.Returned? ==> answer.value.target.image.version == version
      ensures old(worker.None? && !manager.Holds(id)) && s.Returned? ==> worker == Some(id)
      ensures forall image ::
                && old(manager.host.Faultless()) && manager.host.Serves(image) && old(worker.None? && !manager.Holds(id))
                && old(manager.Startable(version, now))
                && image == old(manager.host.disk.lastCheck.value.target.image) ==>
                  && s.Returned? && worker == Some(id) && manager.host.world == Pulled(old(manager.host.world), image)
                  && manager.Holds(id) && manager.Task() == FreshTask(id, old(manager.host.disk.lastCheck.value))
    {
      answer := None;
      // status(): without a recorded check it has to look at the container first.
      s := Returned;
      if manager.host.disk.lastCheck.None? {
        var actual;
        s, actual := manager.host.InspectWeb();
        if !s.Returned? {
          return;
        }
      }
      if manager.Holds(id) {
        if manager.Task().target.image.version != version {
          return Refused, None;
        }
        shown := Some(manager.Task());
        return Returned, shown;
      }
      if worker.Some? {
        if shown.Some? && shown.value.id == id && shown.value.target.image.version == version {
          return Returned, shown;
        }
        return Refused, None;
      }
      var execute;
      s, execute := manager.StartUpdate(version, id, now);
      if s.Returned? {
        shown := Some(manager.Task());
        worker := Some(id);
        answer := shown;
      }
    }

    // _run: the worker executes its task once and is gone, whatever came of it.
    method Run(now: int) returns (s: Signal)
      requires manager.Sound() && !manager.host.cut
      modifies this, manager.host
      ensures manager.Sound() && worker.None? && (manager.host.cut <==> s.Gone?) && served == old(served)
      ensures old(worker.Some?) && s.Returned? ==>
                manager.Holds(old(worker).value) && Terminal(manager.Task().stage)
      ensures old(manager.host.OnceFaulty() && worker.Some? && manager.Holds(worker.value) && manager.Task().stage.Checking?) ==>
                && s.Returned?
                && (manager.Task().stage.Succeeded? || manager.Task().stage.Failed?)
                && EndingsAreTrue(manager.host.Point())
      ensures old(manager.host.Faultless()) &&
              old(worker.Some? && manager.Holds(worker.value) && Upgradable(manager.Task(), manager.host.world)) ==>
                && s.Returned? && manager.Holds(old(worker).value)
                && manager.Task().stage.Succeeded? && manager.Task().cleanup.Complete?
                && manager.Task().target == old(manager.Task()).target
    {
      s := Returned;
      if worker.Some? {
        s := manager.Execute(worker.value, now);
      }
      worker := None;
    }

    // One request.  After a restart no worker of the old process is left and recover() runs.
    method ServeOne(request: Request, now: int) returns (s: Signal)
      requires manager.Sound()
      modifies this, manager.host
      ensures manager.Sound() && served == old(served) + [request]
      ensures request.CheckForUpdate? ==>
                && (s.Refused? <==> !old(Idle(manager.host.disk)))
                && (s.Returned? ==> manager.host.disk.lastCheck.Some? && manager.host.disk.lastCheck.value.checkedAt == now)
      ensures request.StartUpdate? && s.Returned? ==>
                shown.Some? && shown.value.id == request.id && shown.value.target.image.version == request.version
      ensures request.StartUpdate? && old(worker.None? && !manager.Holds(request.id)) && s.Returned? ==>
                worker == Some(request.id) && manager.Holds(request.id) && manager.Task().stage.Checking?
      ensures request.RunWorker? ==> worker.None?
      ensures request.RunWorker? && old(worker.Some?) && s.Returned? ==>
                manager.Holds(old(worker).value) && Terminal(manager.Task().stage)
      ensures request.Restart? ==> worker.None?
      ensures request.Restart? && s.Returned? && manager.host.disk.task.Some? ==> Terminal(manager.Task().stage)
      ensures request.FinishCleanup? && s.Returned? ==>
                manager.host.disk.task.Some? && manager.Task().stage.Succeeded? && manager.Task().cleanup.Complete?
    {
      hide GoodTrace, Root;
      manager.host.Resume();
      match request {
        case CheckForUpdate => s := manager.Check(now);
        case StartUpdate(version, id) =>
          var answer;
          s, answer := Start(version, id, now);
        case RunWorker => s := Run(now);
        case Restart =>
          worker, shown := None, None;
          s := manager.Recover(now);
        case FinishCleanup => s := manager.CompletePendingCleanup();
      }
      served := served + [request];
    }

    // Any sequence of requests, restarts and crashes.  A request cut off by a crash may be followed by anything.
    method Serve(requests: seq<Request>, now: int -> int)
      requires manager.Sound()
      modifies this, manager.host
      ensures manager.Sound() && served == old(served) + requests
    {
      for i := 0 to |requests|
        invariant manager.Sound() && served == old(served) + requests[..i]
      {
        var _ := ServeOne(requests[i], now(i));
        assert requests[..i + 1] == requests[..i] + [requests[i]];
      }
      assert requests[..|requests|] == requests;
    }
  }

  // A machine whose only persisted fact is that nothing is under way, and whose web container runs the
  // version its env file names.
  ghost predicate FreshMachine(w: World) {
    w.web.Some? && Settled(w, w.web.value.image) && w.web.value.image in w.images
  }

  // Every run from a fresh machine, cut off anywhere: at each atomic point of it a succeeded task means that the
  // target runs and is the version on file, a failed one that the original runs and is; and the run is good.
  method Lifetime(w: World, fates: nat -> Fate, requests: seq<Request>, now: int -> int)
    returns (host: Host, runner: OperationRunner)
    requires FreshMachine(w)
    ensures fresh(runner) && runner.manager.host == host && runner.served == requests
    ensures fresh(host) && GoodTrace(host.trace) && host.trace.s == host.Point()
    ensures forall a :: Within(a, host.trace) ==> EndingsAreTrue(a.s)
    ensures Root(host.trace) == Snapshot(PersistentState(None, None), w, [])
  {
    host := new Host(PersistentState(None, None), w, fates);
    var manager := new UpdateManager(host);
    runner := new OperationRunner(manager);
    runner.Serve(requests, now);
    EndingsAreTrueThroughout(host.trace);
  }

  // A waiting task that nothing but a fault keeps from its end.
  predicate Upgradable(t: UpdateTask, w: World) {
    t.stage.Checking? && t.journal.Some? && TaggableAsOriginal(t, w) && UpgradePossible(t, w)
  }

  // The original carries its version tag and no reference of anybody else; the stable tag will move.
  predicate NothingForeign(w: World, original: Image, id: TaskId) {
    && Names(w, VersionTag(original.version), original)
    && AllTags(w, original) <= {VersionTag(original.version), RollbackAlias(id), Stable}
  }

  lemma CheckedTaskIsUpgradable(w: World, target: Image, id: TaskId, now: int)
    requires FreshMachine(w) && NothingForeign(w, w.web.value.image, id)
    requires Newer(target.version, w.web.value.image.version) && target.digest != w.web.value.image.digest
    ensures Pulled(Pulled(w, target), target) == Pulled(w, target)
    ensures var current, found := Inspect(w, w.web.value.image), Inspect(Pulled(w, target), target);
            Upgradable(FreshTask(id, CheckResult(current, found, true, now)), Pulled(w, target))
  {
    var original, pulled := w.web.value.image, Pulled(w, target);
    forall ref | ref in AllTags(pulled, original) ensures ref in {VersionTag(original.version), RollbackAlias(id)} {
      assert ref in AllTags(w, original);
    }
  }

  // One whole upgrade: a fresh machine, nothing foreign on its image, a registry with one newer image and nothing
  // going wrong: check, start and worker end with the task succeeded and its cleanup complete.
  method UpgradeOnce(w: World, fates: nat -> Fate, target: Image, id: TaskId, checkedAt: int, startedAt: int, endedAt: int)
    returns (host: Host)
    requires FreshMachine(w) && NothingForeign(w, w.web.value.image, id)
    requires Newer(target.version, w.web.value.image.version) && target.digest != w.web.value.image.digest
    requires forall i :: Clean(fates(i))
    requires forall i :: fates(i).stable == fates(i).pinned == target
    requires 0 <= startedAt - checkedAt < CHECK_MAX_AGE
    ensures fresh(host) && GoodTrace(host.trace) && host.trace.s == host.Point()
    ensures host.disk.task.Some?
    ensures var task := host.disk.task.value;
            && task.id == id && task.target.image == target && task.stage.Succeeded? && task.cleanup.Complete?
    ensures Settled(host.world, target)
  {
    hide NothingForeign, Upgradable, Pulled, GoodTrace, Newer;
    FreshIsGood(w);
    host := new Host(PersistentState(None, None), w, fates);
    var manager := new UpdateManager(host);
    var runner := new OperationRunner(manager);
    CheckedTaskIsUpgradable(w, target, id, checkedAt);
    var s := manager.Check(checkedAt);
    var answer;
    s, answer := runner.Start(target.version, id, startedAt);
    s := runner.Run(endedAt);
    EndingsAreTrueThroughout(host.trace);
    assert EndingsAreTrue(host.trace.s);
  }

  lemma FreshIsGood(w: World)
    requires FreshMachine(w)
    ensures GoodTrace(Trace.Start(Snapshot(PersistentState(None, None), w, [])))
  {
  }
}

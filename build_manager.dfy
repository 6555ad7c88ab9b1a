/** The request side of `BuildManager` (app/controllers/buildManager.go):
    `CreateOrReturnStatusBuild`, `NewBuild` and `RetryBuild`, over the
    in-memory store and the synchronous dispatcher. */
module Manager {
  import opened Text
  import opened Projects
  import opened Builds
  import opened Store
  import opened DockerProtocol
  import opened Docker
  import opened Dispatch

  /** `Project.Reload`: the configuration is read again from the project's
      `.packer.json`, given here as what each project's file holds; a
      project without a readable file keeps its configuration. */
  function Reload(p: Project, disk: map<string, Configuration>): (r: Project)
    ensures r.name == p.name
    ensures r.config == (if p.name in disk then disk[p.name] else p.config)
  {
    if p.name in disk then p.(config := disk[p.name]) else p
  }

  /** Reloading reads the same file again, so a second reload changes
      nothing; and a reload touches the configuration only. This holds
      because `disk` is one fixed snapshot of the files: both reads see the
      same file, which `ReloadProjectCmd`, not modelled, could have changed
      in Go. */
  lemma ReloadIdempotent(p: Project, disk: map<string, Configuration>)
    ensures Reload(Reload(p, disk), disk) == Reload(p, disk)
    ensures Reload(p, disk).(config := p.config) == p
  {
  }

  /** The record `NewBuild` creates: dated now, never updated, in state
      Created, for the reloaded project; no `_id` yet. */
  function NewRecord(projects: map<string, Project>, disk: map<string, Configuration>,
                     name: string, sys: string, commit: string, now: int): (b: Build)
    ensures b.id.NoId? && b.date == now && b.lastUpdated == ZeroTime && b.state == Created
    ensures b.project == Reload(GetProjectByName(projects, name), disk)
    ensures b.targetSys == sys && b.commit == commit
  {
    Build(NoId, now, ZeroTime, Reload(GetProjectByName(projects, name), disk), sys, Created, commit, ZeroTime, 0, "")
  }

  /** A new record is still waiting: not retryable, not downloadable, of
      no duration yet, and one that a maintenance pass would fail. */
  lemma NewRecordWaits(projects: map<string, Project>, disk: map<string, Configuration>,
                       name: string, sys: string, commit: string, now: int)
    ensures var b := NewRecord(projects, disk, name, sys, commit, now);
      && !IsRetryable(b) && !IsDownloadable(b) && Duration(b) == 0
      && IsPending(b.state) && Reconciled(b) == b.(state := Fail)
  {
  }

  /** The store tells the records of one project apart by their dates:
      requests at different clock readings get different keys, and so
      never update each other's row. */
  lemma NewRecordKeys(projects: map<string, Project>, disk: map<string, Configuration>,
                      name: string, sys: string, commit: string, now1: int, sys2: string, commit2: string, now2: int)
    ensures KeyOf(NewRecord(projects, disk, name, sys, commit, now1)) == KeyOf(NewRecord(projects, disk, name, sys2, commit2, now2))
        <==> now1 == now2
  {
  }

  /** What `CreateOrReturnStatusBuild` does with a request. */
  datatype Decision = StartNew | Retry(found: Build) | Report(found: Build)

  function Decide(rows: seq<Build>, name: string, sys: string, commit: string): Decision
  {
    if commit == Master || commit == RefreshJob then StartNew
    else match Find(rows, name, sys, commit)
      case None => StartNew
      case Some(b) => if b.state == Fail then Retry(b) else Report(b)
  }

  /** The state `CreateOrReturnStatusBuild` answers with. */
  function Answer(d: Decision): State
  {
    match d
    case StartNew => Created
    case Retry(_) => Fail
    case Report(b) => b.state
  }

  /** The primary branch and the refresh job always start a new build; any
      other revision starts one only when no build of that request is
      stored, and otherwise reports the first stored one, re-dispatching it
      exactly when it failed. */
  lemma DecideCases(rows: seq<Build>, name: string, sys: string, commit: string)
    ensures commit == Master || commit == RefreshJob ==> Decide(rows, name, sys, commit) == StartNew
    ensures Decide(rows, name, sys, commit) == StartNew <==>
      commit == Master || commit == RefreshJob || forall j :: 0 <= j < |rows| ==> !SameRequest(rows[j], name, sys, commit)
    ensures Decide(rows, name, sys, commit).Retry? || Decide(rows, name, sys, commit).Report? ==>
      var b := Decide(rows, name, sys, commit).found;
      && b in rows && SameRequest(b, name, sys, commit)
      && Answer(Decide(rows, name, sys, commit)) == b.state
      && (Decide(rows, name, sys, commit).Retry? <==> b.state == Fail)
  {
    if !(commit == Master || commit == RefreshJob) && Find(rows, name, sys, commit).None? {
      assert forall j :: 0 <= j < |rows| ==> !SameRequest(rows[j], name, sys, commit);
    }
  }

  /** Only a retryable build is retried: a failed one, of a revision other
      than the primary branch. */
  lemma RetryOnlyRetryable(rows: seq<Build>, name: string, sys: string, commit: string)
    requires Decide(rows, name, sys, commit).Retry?
    ensures IsRetryable(Decide(rows, name, sys, commit).found)
    ensures Decide(rows, name, sys, commit).found.commit != RefreshJob
  {
  }

  /** Updates of a key that no stored build has change nothing. */
  lemma {:induction false} RunAllUnmatched(rows: seq<Build>, b: Build, ls: seq<Launch>, host: Host)
    requires forall i :: 0 <= i < |ls| ==> ls[i].build == b
    requires forall j :: 0 <= j < |rows| ==> !Matches(rows[j], KeyOf(b))
    ensures RunAll(rows, ls, host) == rows
    decreases |ls|
  {
    if |ls| > 0 {
      RunAllUnmatched(rows, b, ls[..|ls| - 1], host);
      FirstMatchIsFirst(rows, KeyOf(b));
    }
  }

  /** `NewBuild` dispatches the record before it saves it: when no stored
      build has the same project and date, the workers' updates reach no
      row, and the record is saved in the state it had when dispatched,
      Created for a Docker build and Fail otherwise. */
  lemma NewBuildSavesDispatchedState(rows: seq<Build>, b: Build, ls: seq<Launch>, host: Host, id: nat)
    requires b.state == Created && LaunchesFor(b, ls)
    requires forall j :: 0 <= j < |rows| ==> !Matches(rows[j], KeyOf(b))
    ensures RunAll(rows, ls, host) + [Dispatched(b).(id := ObjectId(id))] == rows + [Dispatched(b).(id := ObjectId(id))]
    ensures Dispatched(b).state == if b.project.config.buildType == DockerType then Created else Fail
  {
    if b.project.config.buildType == DockerType {
      RunAllUnmatched(rows, b, ls, host);
    }
  }

  class BuildManager {
    const store: BuildStore
    const workers: WorkerManager
    /** The projects manager's table, by name. */
    const projects: map<string, Project>
    /** What each project's `.packer.json` holds. */
    const disk: map<string, Configuration>

    constructor (store: BuildStore, projects: map<string, Project>, disk: map<string, Configuration>)
      ensures this.store == store && workers.store == store
      ensures this.projects == projects && this.disk == disk
    {
      this.store := store;
      workers := new WorkerManager(store);
      this.projects := projects;
      this.disk := disk;
    }

    /** `NewBuild`: create the record for the reloaded project, dispatch
        it, then insert it; the error is always nil. The record is dated
        by the request's clock reading. */
    method NewBuild(name: string, sys: string, commit: string, host: Host) returns (err: Option<string>, ghost launched: seq<Launch>)
      requires workers.store == store && store.Valid()
      modifies store
      ensures store.Valid() && err == None
      ensures var b := NewRecord(projects, disk, name, sys, commit, host.now);
        && LaunchesFor(b, launched)
        && store.nextId == old(store.nextId) + 1
        && store.rows == RunAll(old(store.rows), launched, host) + [Dispatched(b).(id := ObjectId(old(store.nextId)))]
    {
      var project := GetProjectByName(projects, name);
      project := Reload(project, disk);
      var build := Build(NoId, host.now, ZeroTime, project, sys, Created, commit, ZeroTime, 0, "");
      var dispatchErr;
      build, dispatchErr, launched := workers.Build(build, host);
      var saveErr := store.SaveBuild(build);
      err := None;
    }

    /** `RetryBuild`: reload the record's project and dispatch the record
        again; nothing is inserted. */
    method RetryBuild(b: Build, host: Host) returns (caller: Build, ghost launched: seq<Launch>)
      requires workers.store == store && store.Valid()
      modifies store`rows
      ensures store.Valid()
      ensures caller == Dispatched(b.(project := Reload(b.project, disk)))
      ensures LaunchesFor(b.(project := Reload(b.project, disk)), launched)
      ensures store.rows == RunAll(old(store.rows), launched, host)
    {
      caller := b.(project := Reload(b.project, disk));
      var err;
      caller, err, launched := workers.Build(caller, host);
    }

    /** `CreateOrReturnStatusBuild`: start a new build, or report the state
        of the stored one, retrying it when it failed. */
    method CreateOrReturnStatusBuild(name: string, sys: string, commit: string, host: Host)
      returns (st: State, err: Option<string>, ghost launched: seq<Launch>)
      requires workers.store == store && store.Valid()
      modifies store
      ensures store.Valid() && err == None
      ensures st == Answer(Decide(old(store.rows), name, sys, commit))
      ensures Decide(old(store.rows), name, sys, commit).StartNew? ==>
        var b := NewRecord(projects, disk, name, sys, commit, host.now);
        && LaunchesFor(b, launched)
        && store.nextId == old(store.nextId) + 1
        && store.rows == RunAll(old(store.rows), launched, host) + [Dispatched(b).(id := ObjectId(old(store.nextId)))]
      ensures Decide(old(store.rows), name, sys, commit).Retry? ==>
        var b := Decide(old(store.rows), name, sys, commit).found;
        && LaunchesFor(b.(project := Reload(b.project, disk)), launched)
        && store.nextId == old(store.nextId)
        && store.rows == RunAll(old(store.rows), launched, host)
      ensures Decide(old(store.rows), name, sys, commit).Report? ==>
        launched == [] && store.rows == old(store.rows) && store.nextId == old(store.nextId)
    {
      launched := [];
      if commit == Master || commit == RefreshJob {
        err, launched := NewBuild(name, sys, commit, host);
        return Created, err, launched;
      }
      var found := Find(store.rows, name, sys, commit);
      if found.None? {
        err, launched := NewBuild(name, sys, commit, host);
        return Created, err, launched;
      }
      var build := found.value;
      if build.state == Fail {
        build, launched := RetryBuild(build, host);
      }
      st := build.state;
      err := None;
    }
  }
}

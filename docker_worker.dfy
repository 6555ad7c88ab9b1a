/** `DockerWorker` (app/controllers/dockerWorker.go): the object that drives
    one build through the Docker daemon. Its fields are updated step by step
    as in the Go struct; every Docker call and every `UpdateBuild` is logged
    in a ghost trace, which each method is proved to extend by exactly the
    protocol's events, and the store is proved to hold what those writes
    leave. */
module Docker {
  import opened Text
  import opened Projects
  import opened Builds
  import opened Store
  import opened DockerProtocol

  /** What one request finds around it: `revel.BasePath`, the daemon behind
      `docker.NewClient`, how `Date.Format` prints a date with the release
      layout in the server's time zone, and the clock's reading. */
  datatype Host = Host(basePath: string, daemon: Daemon, format: int -> string, now: int)

  /** Two builds agree on everything but the fields a worker sets. */
  predicate Agrees(b: Build, b0: Build)
  {
    && b.id == b0.id && b.date == b0.date && b.lastUpdated == b0.lastUpdated && b.project == b0.project
    && b.targetSys == b0.targetSys && b.commit == b0.commit && b.gitCommitID == b0.gitCommitID
  }

  /** Replaying a run's writes on the store leaves the run's last written
      state on the build's row, and nothing else changed. */
  lemma RunLeavesLastWrite(j: Job, rows: seq<Build>, now: int)
    ensures ApplyWrites(rows, KeyOf(j.build), Writes(RunEvents(j)), now)
         == SetState(rows, KeyOf(j.build), LastWrite(j), now)
  {
    RunLastWrite(j);
    ApplyWritesLast(rows, KeyOf(j.build), Writes(RunEvents(j)), now);
  }

  class DockerWorker {
    var build: Build
    const targetSys: string
    /** `gogobuild/<name>_<target>:`; `fmt.Sprintf(imageName, tag)` appends the tag
        (the name and the target are taken to hold no `%`, see README). */
    var imageName: string
    var outputDir: string
    var commitToFallback: bool
    /** How many containers the current Docker client has created. */
    var created: nat
    const store: BuildStore
    const host: Host
    /** Docker calls and state writes of the current run, in order. */
    ghost var events: seq<Event>

    /** The worker `launchDockerBuild` makes: its own copy of the build. */
    constructor (b: Build, sys: string, store: BuildStore, host: Host)
      ensures build == b && targetSys == sys && this.store == store && this.host == host
      ensures !commitToFallback && imageName == "" && outputDir == "" && created == 0 && events == []
    {
      build := b;
      targetSys := sys;
      imageName := "";
      outputDir := "";
      commitToFallback := false;
      created := 0;
      this.store := store;
      this.host := host;
      events := [];
    }

    /** The store holds the build's current state, written over `rows0`. */
    ghost predicate Synced(rows0: seq<Build>)
      reads this`build, store`rows
    {
      store.rows == SetState(rows0, KeyOf(build), build.state, host.now)
    }

    /** The worker is set up for job `j`: its target, host, image name and
        output directory. */
    ghost predicate Setup(j: Job)
      reads this`imageName, this`outputDir
    {
      && targetSys == j.sys && host.basePath == j.basePath && host.format == j.format && host.daemon == j.daemon
      && imageName == Repository(j.build.project.name, j.sys) + ":"
      && outputDir == OutputDir(j.basePath, j.build)
    }

    /** A Docker call, logged. */
    method Emit(e: Event)
      modifies this`events
      ensures events == old(events) + [e]
    {
      events := events + [e];
    }

    /** `d.build.State = s` followed by `BMInstance().UpdateBuild(&d.build)`,
        logged. */
    method SaveState(s: State, ghost rows0: seq<Build>)
      requires store.rows == rows0 || Synced(rows0)
      modifies this`build, this`events, store`rows
      ensures Synced(rows0)
      ensures build == old(build).(state := s)
      ensures events == old(events) + [Persist(s)]
    {
      if store.rows != rows0 {
        SetStateTwice(rows0, KeyOf(build), build.state, s, host.now);
      }
      build := build.(state := s);
      var err := store.UpdateBuild(build, host.now);
      events := events + [Persist(s)];
    }

    /** `destroy`: force-remove a container. */
    method Destroy(id: nat)
      modifies this`events
      ensures events == old(events) + [RemoveContainer(id)]
    {
      Emit(RemoveContainer(id));
    }

    /** `Run`: the whole life of one build on the Docker back end. The store
        ends up holding exactly what the protocol's writes leave, which is
        the run's last written state. */
    method Run()
      requires !commitToFallback
      modifies this, store`rows
      ensures events == RunEvents(Job(old(build), targetSys, host.basePath, host.format, host.daemon))
      ensures build.state == LastWrite(Job(old(build), targetSys, host.basePath, host.format, host.daemon))
      ensures store.rows == SetState(old(store.rows), KeyOf(old(build)), build.state, host.now)
      ensures build.startDate == host.now
    {
      ghost var j := Job(build, targetSys, host.basePath, host.format, host.daemon);
      ghost var rows0 := store.rows;
      events := [];
      build := build.(startDate := host.now);
      SaveState(build.state, rows0);
      outputDir := OutputDir(host.basePath, build);
      // `init`: a new client, which can fail
      created := 0;
      if host.daemon.reachable {
        imageName := Repository(build.project.name, targetSys) + ":";
        Emit(InspectImage(imageName + "fallback"));
        ghost var e1 := events;
        assert e1 == [Persist(j.build.state)] + [InspectImage(FallbackImage(j))];
        match host.daemon.inspect
        case NoSuchImage =>
          var err := BuildImage(j, rows0);
        case InspectFailed =>
          SaveState(Fail, rows0);
        case ImagePresent =>
          StartBuild(j, rows0);
        assert events == e1 + AfterInspect(j);
        ExtendTwo([Persist(j.build.state)], [InspectImage(FallbackImage(j))], AfterInspect(j));
      }
    }

    /** `buildImage`: bootstrap the fallback image from the target's
        Dockerfile, then build; the error is that of reading the Dockerfile. */
    method BuildImage(ghost j: Job, ghost rows0: seq<Build>) returns (err: Option<string>)
      requires Setup(j) && Agrees(build, j.build) && Synced(rows0) && created == 0 && !commitToFallback
      modifies this`build, this`events, this`created, this`commitToFallback, store`rows
      ensures Agrees(build, j.build) && Synced(rows0)
      ensures events == old(events) + BootstrapEvents(j)
      ensures build.state == if j.daemon.dockerfileReadable && j.daemon.imageBuildOk then FinalState(j) else Fail
      ensures err.Some? <==> !j.daemon.dockerfileReadable
      ensures build.startDate == old(build.startDate)
    {
      if !host.daemon.dockerfileReadable {
        SaveState(Fail, rows0);
        err := Some("cannot read Dockerfile");
      } else {
        ghost var e0 := events;
        Emit(Event.BuildImage(imageName + "fallback", true));
        ghost var rest: seq<Event> := if !j.daemon.imageBuildOk then [Persist(Fail)] else StartBuildEvents(j);
        ghost var e1 := events;
        if !host.daemon.imageBuildOk {
          SaveState(Fail, rows0);
        } else {
          StartBuild(j, rows0);
        }
        assert events == e1 + rest;
        ExtendTwo(e0, [Event.BuildImage(FallbackImage(j), true)], rest);
        err := None;
      }
    }

    /** `startBuild`: the update phase, up to two build attempts, and the
        final state. */
    method StartBuild(ghost j: Job, ghost rows0: seq<Build>)
      requires Setup(j) && Agrees(build, j.build) && Synced(rows0) && created == 0 && !commitToFallback
      modifies this`build, this`events, this`created, this`commitToFallback, store`rows
      ensures Agrees(build, j.build) && Synced(rows0)
      ensures events == old(events) + StartBuildEvents(j)
      ensures build.state == FinalState(j)
      ensures build.startDate == old(build.startDate)
      ensures build.updateWorkerDuration == MeasuredDuration(j, old(build.updateWorkerDuration))
    {
      ghost var e0 := events;
      if build.commit == RefreshJob {
        commitToFallback := true;
      }
      SaveState(Init, rows0);
      var failed, useFallbackImage := UpdatePhase(j, rows0);
      failed, useFallbackImage := BuildPhase(j, failed, useFallbackImage, rows0);
      var final := Resolve(failed, useFallbackImage, commitToFallback);
      SaveState(final, rows0);
      ExtendFour(e0, [Persist(Init)], if TriesUpdate(j) then UpdateEvents(j) else [], BuildPhaseEvents(j), [Persist(final)]);
    }

    /** The update phase of `startBuild`: `tryUpdate` runs for the primary
        branch and the refresh job, and a failed update switches the build to
        the "fallback" image. */
    method UpdatePhase(ghost j: Job, ghost rows0: seq<Build>) returns (failed: bool, useFallbackImage: bool)
      requires Setup(j) && Agrees(build, j.build) && Synced(rows0)
      requires created == 0 && commitToFallback == IsRefresh(j) && build.state == Init
      modifies this`build, this`events, this`created, store`rows
      ensures Agrees(build, j.build) && Synced(rows0)
      ensures created == FirstAttempt(j)
      ensures events == old(events) + if TriesUpdate(j) then UpdateEvents(j) else []
      ensures useFallbackImage == FirstUsesFallback(j)
      ensures failed == (TriesUpdate(j) && !UpdateOk(j))
      ensures build.startDate == old(build.startDate)
      ensures build.updateWorkerDuration == MeasuredDuration(j, old(build.updateWorkerDuration))
    {
      failed := false;
      useFallbackImage := build.commit != Master;
      if !useFallbackImage || commitToFallback {
        var ok := TryUpdate(j, rows0);
        failed := !ok;
        if !ok {
          useFallbackImage := true;
        }
      }
    }

    /** The build phase of `startBuild`: nothing for the refresh job;
        otherwise one `buildProject` on the image `useFallbackImage` selects
        and, when that one fails on "latest", a second one on "fallback". */
    method BuildPhase(ghost j: Job, failed0: bool, useFallbackImage: bool, ghost rows0: seq<Build>)
      returns (failed: bool, usedFallback: bool)
      requires Setup(j) && Agrees(build, j.build) && Synced(rows0) && commitToFallback == IsRefresh(j)
      requires created == FirstAttempt(j) && useFallbackImage == FirstUsesFallback(j)
      requires failed0 == (TriesUpdate(j) && !UpdateOk(j))
      modifies this`build, this`events, this`created, store`rows
      ensures Agrees(build, j.build) && Synced(rows0)
      ensures events == old(events) + BuildPhaseEvents(j)
      ensures failed == LastFailed(j) && usedFallback == (FirstUsesFallback(j) || Retries(j))
      ensures build == old(build).(state := build.state)
    {
      failed, usedFallback := failed0, useFallbackImage;
      if !commitToFallback {
        var ok := BuildProject(j, usedFallback, rows0);
        if !ok && !usedFallback {
          usedFallback := true;
          ok := BuildProject(j, usedFallback, rows0);
        }
        failed := !ok;
      }
    }

    /** `tryUpdate`: run the update instructions in a container from
        "fallback", persist, then replace "latest" (or, for the refresh job,
        "fallback") by the updated container. */
    method TryUpdate(ghost j: Job, ghost rows0: seq<Build>) returns (ok: bool)
      requires Setup(j) && Agrees(build, j.build) && Synced(rows0)
      requires created == 0 && commitToFallback == IsRefresh(j) && build.state == Init
      modifies this`build, this`events, this`created, store`rows
      ensures Agrees(build, j.build) && Synced(rows0)
      ensures created == 1 && build.state == Init
      ensures events == old(events) + UpdateEvents(j)
      ensures ok == UpdateOk(j)
      ensures build.startDate == old(build.startDate)
      ensures build.updateWorkerDuration
           == if Started(Container(j.daemon, 0)) then j.daemon.updateSeconds else old(build.updateWorkerDuration)
    {
      ghost var e0 := events;
      var id := created;
      var c := Container(host.daemon, id);
      created := created + 1;
      var create := UpdateOptions(j);
      UpdateEventsFlat(j);
      Emit(create);
      ok := false;
      if c.createOk {
        Emit(StartContainer(id));
        if c.startOk {
          Emit(WaitContainer(id));
          build := build.(updateWorkerDuration := host.daemon.updateSeconds);
          SaveState(build.state, rows0);
          ok := CommitUpdate(j, id, c);
          AppendFourThen(e0, create, StartContainer(0), WaitContainer(0), Persist(Init), UpdateFinish(j));
        } else {
          AppendTwo(e0, create, StartContainer(0));
        }
      }
    }

    /** The container options `tryUpdate` assembles: `bash -c` with the
        update instructions joined by " && " and the revision, on the
        "fallback" image, with the output directory mounted. */
    method UpdateOptions(ghost j: Job) returns (create: Event)
      requires Setup(j) && Agrees(build, j.build)
      ensures create == UpdateCreate(j)
    {
      var cmds: seq<string> := ["bash", "-c"];
      cmds := cmds + [Join(Instructions(build.project.config.updateInstructions, targetSys), " && "), build.commit];
      assert cmds == UpdateCommand(j);
      create := CreateContainer(imageName + "fallback", cmds, [outputDir + ":/output"]);
    }

    /** The end of `tryUpdate` once the update container has exited:
        destroy it when it failed; otherwise remove "latest", commit the
        container under the tag the job's kind selects and destroy it. */
    method CommitUpdate(ghost j: Job, id: nat, c: ContainerScript) returns (ok: bool)
      requires Setup(j) && Agrees(build, j.build) && commitToFallback == IsRefresh(j)
      requires id == 0 && c == Container(j.daemon, 0)
      modifies this`events
      ensures events == old(events) + UpdateFinish(j)
      ensures ok == (c.exitCode == 0 && c.waitOk && j.daemon.removeLatest != RemoveFailed && j.daemon.commitOk)
    {
      ghost var e0 := events;
      ok := false;
      if c.exitCode != 0 || !c.waitOk {
        Destroy(id);
      } else {
        Emit(RemoveImage(imageName + "latest"));
        if host.daemon.removeLatest != RemoveFailed {
          var suffix := if commitToFallback then "fallback" else "latest";
          Emit(CommitContainer(id, Repository(build.project.name, targetSys), suffix));
          Destroy(id);
          ok := host.daemon.commitOk;
        }
      }
    }

    /** `buildProject`: run the build script in a container from "fallback"
        or "latest"; Building is persisted once the container has started. */
    method BuildProject(ghost j: Job, fallBack: bool, ghost rows0: seq<Build>) returns (ok: bool)
      requires Setup(j) && Agrees(build, j.build) && Synced(rows0)
      modifies this`build, this`events, this`created, store`rows
      ensures Agrees(build, j.build) && Synced(rows0)
      ensures created == old(created) + 1
      ensures events == old(events) + AttemptEvents(j, old(created), fallBack)
      ensures ok == RanOk(Container(j.daemon, old(created)))
      ensures build == old(build).(state := if Started(Container(j.daemon, old(created))) then Building else old(build.state))
    {
      ghost var e0 := events;
      var id := created;
      var c := Container(host.daemon, id);
      created := created + 1;
      var create := BuildOptions(j, fallBack);
      AttemptEventsFlat(j, id, fallBack);
      Emit(create);
      ok := false;
      if c.createOk {
        Emit(StartContainer(id));
        if c.startOk {
          SaveState(Building, rows0);
          Emit(WaitContainer(id));
          Destroy(id);
          AppendFive(e0, create, StartContainer(id), Persist(Building), WaitContainer(id), RemoveContainer(id));
          ok := c.exitCode == 0 && c.waitOk;
        } else {
          AppendTwo(e0, create, StartContainer(id));
        }
      }
    }

    /** The container options `buildProject` assembles: `bash -c` with the
        build script, on the image `fallBack` selects, with the output and
        source directories mounted. */
    method BuildOptions(ghost j: Job, fallBack: bool) returns (create: Event)
      requires Setup(j) && Agrees(build, j.build)
      ensures create == AttemptCreate(j, fallBack)
    {
      var releaseString := host.format(build.date) + "~git" + build.gitCommitID;
      var script := Join(Instructions(build.project.config.buildInstructions, targetSys), " && ");
      var cmds: seq<string> := ["bash", "-c"];
      cmds := cmds + [ReplaceAll(ReplaceAll(script, RefPlaceholder, build.commit), ReleasePlaceholder, releaseString)];
      var suffix := if fallBack then "fallback" else "latest";
      var sourceDir := host.basePath + "/" + "public/projects/" + "/" + build.project.name + ":/" + build.project.name;
      assert cmds == BuildCommand(j);
      assert imageName + suffix == ImageRef(j.build.project.name, j.sys, Tag(fallBack));
      assert sourceDir == SourceBind(j.basePath, j.build);
      create := CreateContainer(imageName + suffix, cmds, [outputDir + ":/output", sourceDir]);
    }
  }
}

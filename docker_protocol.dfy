/** What one `DockerWorker` run does (app/controllers/dockerWorker.go),
    as a pure function from the job and the Docker daemon's answers to the
    ordered trace of Docker calls and state writes. The imperative worker
    in `Docker` is proved to produce exactly this trace; the lemmas here
    state the protocol's promises about it. */
module DockerProtocol {
  import opened Text
  import opened Projects
  import opened Builds

  /** How one container behaves: whether `CreateContainer` and
      `StartContainer` succeed, and what `WaitContainer` returns. */
  datatype ContainerScript = ContainerScript(createOk: bool, startOk: bool, exitCode: int, waitOk: bool)

  datatype InspectReply = ImagePresent | NoSuchImage | InspectFailed
  datatype RemoveReply = ImageRemoved | RemoveNoSuchImage | RemoveFailed

  /** The Docker daemon (and the Dockerfile on disk) as an oracle: the
      `k`-th `CreateContainer` call of a run gets `containers[k]`. */
  datatype Daemon = Daemon(
    reachable: bool,
    inspect: InspectReply,
    dockerfileReadable: bool,
    imageBuildOk: bool,
    containers: seq<ContainerScript>,
    removeLatest: RemoveReply,
    commitOk: bool,
    updateSeconds: int)

  /** A container the daemon was not scripted for cannot be created. */
  function Container(d: Daemon, k: nat): ContainerScript
  {
    if k < |d.containers| then d.containers[k] else ContainerScript(false, false, 0, false)
  }

  predicate Started(c: ContainerScript)
  {
    c.createOk && c.startOk
  }

  /** The container ran and `WaitContainer` reported exit code 0. */
  predicate RanOk(c: ContainerScript)
  {
    c.createOk && c.startOk && c.waitOk && c.exitCode == 0
  }

  /** One step of the run: a call into the Docker client, or an
      `UpdateBuild` of the build's current state. */
  datatype Event =
    | InspectImage(image: string)
    | BuildImage(image: string, noCache: bool)
    | CreateContainer(image: string, cmd: seq<string>, binds: seq<string>)
    | StartContainer(id: nat)
    | WaitContainer(id: nat)
    | RemoveContainer(id: nat)
    | RemoveImage(image: string)
    | CommitContainer(id: nat, repository: string, tag: string)
    | Persist(state: State)

  /** What one worker is handed: its copy of the build, the target it
      builds, the server's base path, how the server's `Date.Format` prints
      a date with the release layout (it depends on the server's time
      zone), and the daemon. */
  datatype Job = Job(build: Build, sys: string, basePath: string, format: int -> string, daemon: Daemon)

  // ---- names, paths and commands ----

  function Repository(name: string, sys: string): string
  {
    "gogobuild/" + name + "_" + Lower(sys)
  }

  function ImageRef(name: string, sys: string, tag: string): string
  {
    Repository(name, sys) + ":" + tag
  }

  function Tag(fallBack: bool): string
  {
    if fallBack then "fallback" else "latest"
  }

  function FallbackImage(j: Job): string
  {
    ImageRef(j.build.project.name, j.sys, "fallback")
  }

  function LatestImage(j: Job): string
  {
    ImageRef(j.build.project.name, j.sys, "latest")
  }

  /** `<base>/public/output/<name>/<Date.Unix>/<TargetSys>`: keyed by the
      build's own TargetSys, which is "all" for a fanned-out build. */
  function OutputDir(basePath: string, b: Build): string
  {
    basePath + "/public/output/" + b.project.name + "/" + IntStr(b.date) + "/" + b.targetSys
  }

  function SourceBind(basePath: string, b: Build): string
  {
    basePath + "/" + "public/projects/" + "/" + b.project.name + ":/" + b.project.name
  }

  /** `tryUpdate`'s command: the update instructions joined with " && ",
      with the revision passed as the script's `$0`. */
  function UpdateCommand(j: Job): seq<string>
  {
    ["bash", "-c", Join(Instructions(j.build.project.config.updateInstructions, j.sys), " && "), j.build.commit]
  }

  /** `Date.Format("20060102150400") + "~git" + GitCommitID`, of the
      build's own date. */
  function ReleaseString(j: Job): string
  {
    j.format(j.build.date) + "~git" + j.build.gitCommitID
  }

  const RefPlaceholder := "{{REF_NUMBER}}"
  const ReleasePlaceholder := "{{RELEASE_NUMBER}}"

  /** The build script: instructions joined with " && ", then the reference
      placeholder replaced by the revision, then the release placeholder
      replaced by the release string. The replacements are taken literally:
      `ReplaceAllString` would expand `$` in them, so this agrees with Go
      only for a revision and a release string without `$`. */
  function BuildScript(j: Job): string
  {
    ReplaceAll(
      ReplaceAll(Join(Instructions(j.build.project.config.buildInstructions, j.sys), " && "), RefPlaceholder, j.build.commit),
      ReleasePlaceholder, ReleaseString(j))
  }

  function BuildCommand(j: Job): seq<string>
  {
    ["bash", "-c", BuildScript(j)]
  }

  // ---- the phases ----

  predicate IsRefresh(j: Job)
  {
    j.build.commit == RefreshJob
  }

  /** `useFallbackImage == false || commitToFallback == true`. */
  predicate TriesUpdate(j: Job)
  {
    j.build.commit == Master || IsRefresh(j)
  }

  /** The update duration the worker's copy holds after `startBuild`: set
      once the update container has started, even when the update then
      fails; the incoming value otherwise. */
  function MeasuredDuration(j: Job, d0: int): int
  {
    if TriesUpdate(j) && Started(Container(j.daemon, 0)) then j.daemon.updateSeconds else d0
  }

  /** `tryUpdate` returned nil. */
  predicate UpdateOk(j: Job)
  {
    RanOk(Container(j.daemon, 0)) && j.daemon.removeLatest != RemoveFailed && j.daemon.commitOk
  }

  /** The container `tryUpdate` creates: the update command on "fallback",
      with the output directory mounted. */
  function UpdateCreate(j: Job): Event
  {
    CreateContainer(FallbackImage(j), UpdateCommand(j), [OutputDir(j.basePath, j.build) + ":/output"])
  }

  /** `tryUpdate`, which always creates the run's first container. */
  function UpdateEvents(j: Job): seq<Event>
  {
    var c := Container(j.daemon, 0);
    [UpdateCreate(j)]
    + if !c.createOk then [] else
      [StartContainer(0)]
      + if !c.startOk then [] else [WaitContainer(0), Persist(Init)] + UpdateFinish(j)
  }

  /** `UpdateEvents` branch by branch. */
  lemma UpdateEventsFlat(j: Job)
    ensures var c := Container(j.daemon, 0); var create := UpdateCreate(j);
      UpdateEvents(j)
      == if !c.createOk then [create]
         else if !c.startOk then [create, StartContainer(0)]
         else [create, StartContainer(0), WaitContainer(0), Persist(Init)] + UpdateFinish(j)
  {
  }

  /** What `tryUpdate` does once the update duration is persisted: destroy
      a failed container, or remove "latest", commit and destroy. */
  function UpdateFinish(j: Job): seq<Event>
  {
    var c := Container(j.daemon, 0);
    if c.exitCode != 0 || !c.waitOk then [RemoveContainer(0)]
    else
      [RemoveImage(LatestImage(j))]
      + if j.daemon.removeLatest == RemoveFailed then [] else
        [CommitContainer(0, Repository(j.build.project.name, j.sys), if IsRefresh(j) then "fallback" else "latest"),
         RemoveContainer(0)]
  }

  /** The container `buildProject(fallBack)` creates: the build command on
      the image the flag selects, with the output and source directories
      mounted. */
  function AttemptCreate(j: Job, fallBack: bool): Event
  {
    CreateContainer(ImageRef(j.build.project.name, j.sys, Tag(fallBack)), BuildCommand(j),
                    [OutputDir(j.basePath, j.build) + ":/output", SourceBind(j.basePath, j.build)])
  }

  /** `buildProject(fallBack)` on the run's `id`-th container. */
  function AttemptEvents(j: Job, id: nat, fallBack: bool): seq<Event>
  {
    var c := Container(j.daemon, id);
    [AttemptCreate(j, fallBack)]
    + if !c.createOk then [] else
      [StartContainer(id)]
      + if !c.startOk then [] else [Persist(Building), WaitContainer(id), RemoveContainer(id)]
  }

  /** `AttemptEvents` branch by branch. */
  lemma AttemptEventsFlat(j: Job, id: nat, fallBack: bool)
    ensures var c := Container(j.daemon, id); var create := AttemptCreate(j, fallBack);
      AttemptEvents(j, id, fallBack)
      == if !c.createOk then [create]
         else if !c.startOk then [create, StartContainer(id)]
         else [create, StartContainer(id), Persist(Building), WaitContainer(id), RemoveContainer(id)]
  {
  }

  /** The ordinal of the first build container. */
  function FirstAttempt(j: Job): nat
  {
    if TriesUpdate(j) then 1 else 0
  }

  /** `useFallbackImage` when `buildProject` is first called. */
  predicate FirstUsesFallback(j: Job)
  {
    j.build.commit != Master || (TriesUpdate(j) && !UpdateOk(j))
  }

  /** The second `buildProject` call happens. */
  predicate Retries(j: Job)
  {
    !IsRefresh(j) && !RanOk(Container(j.daemon, FirstAttempt(j))) && !FirstUsesFallback(j)
  }

  function BuildPhaseEvents(j: Job): seq<Event>
  {
    if IsRefresh(j) then []
    else
      AttemptEvents(j, FirstAttempt(j), FirstUsesFallback(j))
      + (if Retries(j) then AttemptEvents(j, FirstAttempt(j) + 1, true) else [])
  }

  /** The last error of `startBuild` is non-nil. */
  predicate LastFailed(j: Job)
  {
    if IsRefresh(j) then !UpdateOk(j)
    else if Retries(j) then !RanOk(Container(j.daemon, FirstAttempt(j) + 1))
    else !RanOk(Container(j.daemon, FirstAttempt(j)))
  }

  /** The terminal-state rule at the end of `startBuild`. */
  function Resolve(failed: bool, useFallbackImage: bool, commitToFallback: bool): State
  {
    if failed then Fail
    else if useFallbackImage && !commitToFallback then FallbackSuccess
    else Success
  }

  function FinalState(j: Job): State
  {
    Resolve(LastFailed(j), FirstUsesFallback(j) || Retries(j), IsRefresh(j))
  }

  function StartBuildEvents(j: Job): seq<Event>
  {
    [Persist(Init)]
    + (if TriesUpdate(j) then UpdateEvents(j) else [])
    + BuildPhaseEvents(j)
    + [Persist(FinalState(j))]
  }

  /** A trace extended by two pieces is extended by their concatenation. */
  lemma ExtendTwo(e0: seq<Event>, a: seq<Event>, b: seq<Event>)
    ensures e0 + a + b == e0 + (a + b)
  {
  }

  /** Single calls logged one by one make up the call list. */
  lemma AppendTwo(e0: seq<Event>, a: Event, b: Event)
    ensures e0 + [a] + [b] == e0 + [a, b]
  {
  }

  lemma AppendFourThen(e0: seq<Event>, a: Event, b: Event, c: Event, d: Event, rest: seq<Event>)
    ensures e0 + [a] + [b] + [c] + [d] + rest == e0 + ([a, b, c, d] + rest)
  {
  }

  lemma AppendFive(e0: seq<Event>, a: Event, b: Event, c: Event, d: Event, f: Event)
    ensures e0 + [a] + [b] + [c] + [d] + [f] == e0 + [a, b, c, d, f]
  {
  }

  /** A trace extended by four pieces is extended by their concatenation. */
  lemma ExtendFour(e0: seq<Event>, a: seq<Event>, b: seq<Event>, c: seq<Event>, d: seq<Event>)
    ensures e0 + a + b + c + d == e0 + (a + b + c + d)
  {
  }

  /** `Run`: persist the start date, connect, look for the fallback image,
      bootstrap it when missing (`buildImage`), then `startBuild`. */
  function RunEvents(j: Job): seq<Event>
  {
    [Persist(j.build.state)]
    + if !j.daemon.reachable then [] else [InspectImage(FallbackImage(j))] + AfterInspect(j)
  }

  /** What `Run` does on the daemon's answer about the fallback image. */
  function AfterInspect(j: Job): seq<Event>
  {
    match j.daemon.inspect
    case InspectFailed => [Persist(Fail)]
    case ImagePresent => StartBuildEvents(j)
    case NoSuchImage => BootstrapEvents(j)
  }

  /** `buildImage`: Fail when the Dockerfile cannot be read; otherwise build
      "fallback" without cache, then Fail or `startBuild`. */
  function BootstrapEvents(j: Job): seq<Event>
  {
    if !j.daemon.dockerfileReadable then [Persist(Fail)]
    else
      [BuildImage(FallbackImage(j), true)]
      + (if !j.daemon.imageBuildOk then [Persist(Fail)] else StartBuildEvents(j))
  }

  // ---- views of a trace ----

  /** The states written, in order. */
  function Writes(es: seq<Event>): seq<State>
  {
    if |es| == 0 then []
    else (if es[0].Persist? then [es[0].state] else []) + Writes(es[1..])
  }

  /** The images of the containers created with the given command. */
  function RunsOf(es: seq<Event>, cmd: seq<string>): seq<string>
  {
    if |es| == 0 then []
    else (if es[0].CreateContainer? && es[0].cmd == cmd then [es[0].image] else []) + RunsOf(es[1..], cmd)
  }

  function BuildRuns(j: Job, es: seq<Event>): seq<string>
  {
    RunsOf(es, BuildCommand(j))
  }

  function UpdateRuns(j: Job, es: seq<Event>): seq<string>
  {
    RunsOf(es, UpdateCommand(j))
  }

  predicate CreatesContainer(es: seq<Event>)
  {
    exists i :: 0 <= i < |es| && es[i].CreateContainer?
  }

  predicate NonDecreasing(ws: seq<State>)
  {
    forall i, k :: 0 <= i < k < |ws| ==> ws[i] <= ws[k]
  }

  lemma {:induction false} WritesAppend(a: seq<Event>, b: seq<Event>)
    ensures Writes(a + b) == Writes(a) + Writes(b)
    decreases |a|
  {
    if |a| == 0 {
      assert a + b == b;
    } else {
      var h := if a[0].Persist? then [a[0].state] else [];
      assert (a + b)[0] == a[0] && (a + b)[1..] == a[1..] + b;
      WritesAppend(a[1..], b);
      assert Writes(a + b) == h + (Writes(a[1..]) + Writes(b));
      assert Writes(a) == h + Writes(a[1..]);
      SeqAssoc(h, Writes(a[1..]), Writes(b));
    }
  }

  lemma {:induction false} RunsOfAppend(a: seq<Event>, b: seq<Event>, cmd: seq<string>)
    ensures RunsOf(a + b, cmd) == RunsOf(a, cmd) + RunsOf(b, cmd)
    decreases |a|
  {
    if |a| == 0 {
      assert a + b == b;
    } else {
      var h := if a[0].CreateContainer? && a[0].cmd == cmd then [a[0].image] else [];
      assert (a + b)[0] == a[0] && (a + b)[1..] == a[1..] + b;
      RunsOfAppend(a[1..], b, cmd);
      assert RunsOf(a + b, cmd) == h + (RunsOf(a[1..], cmd) + RunsOf(b, cmd));
      assert RunsOf(a, cmd) == h + RunsOf(a[1..], cmd);
      SeqAssoc(h, RunsOf(a[1..], cmd), RunsOf(b, cmd));
    }
  }

  lemma SeqAssoc<T>(x: seq<T>, y: seq<T>, z: seq<T>)
    ensures x + (y + z) == x + y + z
  {
  }

  lemma WritesCons(e: Event, es: seq<Event>)
    ensures Writes([e] + es) == (if e.Persist? then [e.state] else []) + Writes(es)
  {
    assert ([e] + es)[1..] == es;
  }

  lemma RunsOfCons(e: Event, es: seq<Event>, cmd: seq<string>)
    ensures RunsOf([e] + es, cmd) == (if e.CreateContainer? && e.cmd == cmd then [e.image] else []) + RunsOf(es, cmd)
  {
    assert ([e] + es)[1..] == es;
  }

  lemma {:induction false} WritesNone(es: seq<Event>)
    requires forall i :: 0 <= i < |es| ==> !es[i].Persist?
    ensures Writes(es) == []
    decreases |es|
  {
    if |es| > 0 {
      WritesNone(es[1..]);
    }
  }

  lemma {:induction false} RunsOfNone(es: seq<Event>, cmd: seq<string>)
    requires forall i :: 0 <= i < |es| ==> !es[i].CreateContainer?
    ensures RunsOf(es, cmd) == []
    decreases |es|
  {
    if |es| > 0 {
      RunsOfNone(es[1..], cmd);
    }
  }

  /** The update phase writes once, after its container started. */
  lemma WritesOfUpdate(j: Job)
    ensures Writes(UpdateEvents(j)) == if Started(Container(j.daemon, 0)) then [Init] else []
  {
    var c := Container(j.daemon, 0);
    var create := CreateContainer(FallbackImage(j), UpdateCommand(j), [OutputDir(j.basePath, j.build) + ":/output"]);
    var fin := UpdateFinish(j);
    WritesNone(fin);
    if !c.createOk {
      WritesCons(create, []);
    } else if !c.startOk {
      WritesCons(create, [StartContainer(0)]);
      WritesCons(StartContainer(0), []);
    } else {
      var t := [WaitContainer(0), Persist(Init)] + fin;
      assert t == [WaitContainer(0)] + ([Persist(Init)] + fin);
      WritesCons(create, [StartContainer(0)] + t);
      WritesCons(StartContainer(0), t);
      WritesCons(WaitContainer(0), [Persist(Init)] + fin);
      WritesCons(Persist(Init), fin);
    }
  }

  lemma WritesOfAttempt(j: Job, id: nat, fallBack: bool)
    ensures Writes(AttemptEvents(j, id, fallBack)) == if Started(Container(j.daemon, id)) then [Building] else []
  {
    var c := Container(j.daemon, id);
    var create := CreateContainer(ImageRef(j.build.project.name, j.sys, Tag(fallBack)), BuildCommand(j),
                                  [OutputDir(j.basePath, j.build) + ":/output", SourceBind(j.basePath, j.build)]);
    if !c.createOk {
      WritesCons(create, []);
    } else if !c.startOk {
      WritesCons(create, [StartContainer(id)]);
      WritesCons(StartContainer(id), []);
    } else {
      var t: seq<Event> := [Persist(Building), WaitContainer(id), RemoveContainer(id)];
      WritesCons(create, [StartContainer(id)] + t);
      WritesCons(StartContainer(id), t);
      assert t == [Persist(Building)] + t[1..];
      WritesCons(Persist(Building), t[1..]);
      WritesNone(t[1..]);
    }
  }

  lemma RunsOfUpdate(j: Job, cmd: seq<string>)
    ensures RunsOf(UpdateEvents(j), cmd) == if cmd == UpdateCommand(j) then [FallbackImage(j)] else []
  {
    var c := Container(j.daemon, 0);
    var create := CreateContainer(FallbackImage(j), UpdateCommand(j), [OutputDir(j.basePath, j.build) + ":/output"]);
    var es := UpdateEvents(j);
    assert es == [create] + es[1..];
    RunsOfCons(create, es[1..], cmd);
    RunsOfNone(UpdateFinish(j), cmd);
    RunsOfNone(es[1..], cmd);
  }

  lemma RunsOfAttempt(j: Job, id: nat, fallBack: bool, cmd: seq<string>)
    ensures RunsOf(AttemptEvents(j, id, fallBack), cmd)
         == if cmd == BuildCommand(j) then [ImageRef(j.build.project.name, j.sys, Tag(fallBack))] else []
  {
    var create := CreateContainer(ImageRef(j.build.project.name, j.sys, Tag(fallBack)), BuildCommand(j),
                                  [OutputDir(j.basePath, j.build) + ":/output", SourceBind(j.basePath, j.build)]);
    var es := AttemptEvents(j, id, fallBack);
    assert es == [create] + es[1..];
    RunsOfCons(create, es[1..], cmd);
    RunsOfNone(es[1..], cmd);
  }

  // ---- how a run decomposes ----

  /** The run gets to `startBuild`: the daemon answered and the fallback
      image was present or has just been built. */
  predicate ReachesStart(j: Job)
  {
    var d := j.daemon;
    d.reachable && (d.inspect.ImagePresent? || (d.inspect.NoSuchImage? && d.dockerfileReadable && d.imageBuildOk))
  }

  /** `Run`'s Docker calls before `startBuild`. */
  function Prelude(j: Job): seq<Event>
  {
    [InspectImage(FallbackImage(j))] + if j.daemon.inspect.ImagePresent? then [] else [BuildImage(FallbackImage(j), true)]
  }

  lemma RunDecomposes(j: Job)
    requires ReachesStart(j)
    ensures RunEvents(j) == [Persist(j.build.state)] + Prelude(j) + StartBuildEvents(j)
    ensures Writes(RunEvents(j)) == [j.build.state] + Writes(StartBuildEvents(j))
    ensures forall cmd :: RunsOf(RunEvents(j), cmd) == RunsOf(StartBuildEvents(j), cmd)
  {
    var head := [Persist(j.build.state)] + Prelude(j);
    RunSplits(j);
    HeadViews(j);
    WritesAppend(head, StartBuildEvents(j));
    forall cmd
      ensures RunsOf(RunEvents(j), cmd) == RunsOf(StartBuildEvents(j), cmd)
    {
      RunsOfAppend(head, StartBuildEvents(j), cmd);
    }
  }

  lemma RunSplits(j: Job)
    requires ReachesStart(j)
    ensures RunEvents(j) == [Persist(j.build.state)] + Prelude(j) + StartBuildEvents(j)
  {
    var p := [Persist(j.build.state)];
    var ins := [InspectImage(FallbackImage(j))];
    var sb := StartBuildEvents(j);
    if j.daemon.inspect.NoSuchImage? {
      var bi := [BuildImage(FallbackImage(j), true)];
      assert RunEvents(j) == p + (ins + (bi + sb));
      GroupThree(p, ins, bi, sb);
    } else {
      assert RunEvents(j) == p + (ins + sb);
      assert Prelude(j) == ins;
      GroupTwo(p, ins, sb);
    }
  }

  /** Before `startBuild` a run writes only the incoming state and creates
      no container. */
  lemma HeadViews(j: Job)
    ensures Writes([Persist(j.build.state)] + Prelude(j)) == [j.build.state]
    ensures forall cmd :: RunsOf([Persist(j.build.state)] + Prelude(j), cmd) == []
  {
    var head := [Persist(j.build.state)] + Prelude(j);
    WritesCons(Persist(j.build.state), Prelude(j));
    WritesNone(Prelude(j));
    forall cmd
      ensures RunsOf(head, cmd) == []
    {
      RunsOfNone(head, cmd);
    }
  }

  lemma GroupTwo(a: seq<Event>, b: seq<Event>, c: seq<Event>)
    ensures a + (b + c) == a + b + c
  {
  }

  lemma GroupThree(a: seq<Event>, b: seq<Event>, c: seq<Event>, d: seq<Event>)
    ensures a + (b + (c + d)) == a + (b + c) + d
  {
  }


  lemma WritesOne(e: Event)
    ensures Writes([e]) == if e.Persist? then [e.state] else []
  {
    WritesCons(e, []);
  }

  lemma RunsOfOne(e: Event, cmd: seq<string>)
    ensures RunsOf([e], cmd) == if e.CreateContainer? && e.cmd == cmd then [e.image] else []
  {
    RunsOfCons(e, [], cmd);
  }

  /** The states `startBuild` writes: Init; Init again once the update
      container has started; Building for each build container that
      started; then the final state. */
  function StartWrites(j: Job): seq<State>
  {
    [Init]
    + (if TriesUpdate(j) && Started(Container(j.daemon, 0)) then [Init] else [])
    + BuildPhaseWrites(j)
    + [FinalState(j)]
  }

  function BuildPhaseWrites(j: Job): seq<State>
  {
    var d := j.daemon;
    (if !IsRefresh(j) && Started(Container(d, FirstAttempt(j))) then [Building] else [])
    + (if Retries(j) && Started(Container(d, FirstAttempt(j) + 1)) then [Building] else [])
  }

  lemma WritesOfBuildPhase(j: Job)
    ensures Writes(BuildPhaseEvents(j)) == BuildPhaseWrites(j)
  {
    if !IsRefresh(j) {
      var first := AttemptEvents(j, FirstAttempt(j), FirstUsesFallback(j));
      var second: seq<Event> := if Retries(j) then AttemptEvents(j, FirstAttempt(j) + 1, true) else [];
      WritesOfAttempt(j, FirstAttempt(j), FirstUsesFallback(j));
      WritesOfAttempt(j, FirstAttempt(j) + 1, true);
      WritesAppend(first, second);
    }
  }

  lemma WritesOfStartBuild(j: Job)
    ensures Writes(StartBuildEvents(j)) == StartWrites(j)
  {
    var up := if TriesUpdate(j) then UpdateEvents(j) else [];
    var bp := BuildPhaseEvents(j);
    var fin := [Persist(FinalState(j))];
    assert StartBuildEvents(j) == [Persist(Init)] + up + bp + fin;
    WritesOfUpdate(j);
    WritesOfBuildPhase(j);
    WritesOne(Persist(Init));
    WritesOne(Persist(FinalState(j)));
    WritesAppend([Persist(Init)] + up + bp, fin);
    WritesAppend([Persist(Init)] + up, bp);
    WritesAppend([Persist(Init)], up);
  }

  lemma RunsOfStartBuild(j: Job, cmd: seq<string>)
    ensures RunsOf(StartBuildEvents(j), cmd)
         == (if TriesUpdate(j) then RunsOf(UpdateEvents(j), cmd) else []) + RunsOf(BuildPhaseEvents(j), cmd)
  {
    var up := if TriesUpdate(j) then UpdateEvents(j) else [];
    var bp := BuildPhaseEvents(j);
    var fin := [Persist(FinalState(j))];
    var s1 := [Persist(Init)] + up;
    var s2 := s1 + bp;
    assert StartBuildEvents(j) == s2 + fin;
    RunsOfAppend(s2, fin, cmd);
    RunsOfOne(Persist(FinalState(j)), cmd);
    assert RunsOf(StartBuildEvents(j), cmd) == RunsOf(s2, cmd);
    RunsOfAppend(s1, bp, cmd);
    RunsOfAppend([Persist(Init)], up, cmd);
    RunsOfOne(Persist(Init), cmd);
    assert RunsOf(s1, cmd) == RunsOf(up, cmd);
  }

  /** The build containers a run starts that reaches `startBuild`: none for a
      refresh job, else one on the image `useFallbackImage` selects, then a
      second one on "fallback" when the retry happens. */
  lemma BuildRunsOfRun(j: Job)
    requires ReachesStart(j)
    ensures BuildRuns(j, RunEvents(j))
         == if IsRefresh(j) then []
            else [ImageRef(j.build.project.name, j.sys, Tag(FirstUsesFallback(j)))]
                 + (if Retries(j) then [FallbackImage(j)] else [])
  {
    RunDecomposes(j);
    RunsOfStartBuild(j, BuildCommand(j));
    RunsOfUpdate(j, BuildCommand(j));
    assert UpdateCommand(j) != BuildCommand(j);
    RunsOfAttempt(j, FirstAttempt(j), FirstUsesFallback(j), BuildCommand(j));
    RunsOfAttempt(j, FirstAttempt(j) + 1, true, BuildCommand(j));
    if !IsRefresh(j) {
      RunsOfAppend(AttemptEvents(j, FirstAttempt(j), FirstUsesFallback(j)),
                   if Retries(j) then AttemptEvents(j, FirstAttempt(j) + 1, true) else [], BuildCommand(j));
    }
  }

  lemma UpdateRunsOfRun(j: Job)
    requires ReachesStart(j)
    ensures UpdateRuns(j, RunEvents(j)) == if TriesUpdate(j) then [FallbackImage(j)] else []
  {
    RunDecomposes(j);
    RunsOfStartBuild(j, UpdateCommand(j));
    RunsOfUpdate(j, UpdateCommand(j));
    assert UpdateCommand(j) != BuildCommand(j);
    RunsOfAttempt(j, FirstAttempt(j), FirstUsesFallback(j), UpdateCommand(j));
    RunsOfAttempt(j, FirstAttempt(j) + 1, true, UpdateCommand(j));
    if !IsRefresh(j) {
      RunsOfAppend(AttemptEvents(j, FirstAttempt(j), FirstUsesFallback(j)),
                   if Retries(j) then AttemptEvents(j, FirstAttempt(j) + 1, true) else [], UpdateCommand(j));
    }
  }

  // ---- what the protocol promises ----

  /** The update phase runs, once and from "fallback", exactly when the
      revision is the primary branch or the refresh job; every other
      revision goes straight to the build with `useFallbackImage` set. */
  lemma UpdateAttemptedIff(j: Job)
    requires ReachesStart(j)
    ensures |UpdateRuns(j, RunEvents(j))| > 0 <==> (j.build.commit == Master || j.build.commit == RefreshJob)
    ensures |UpdateRuns(j, RunEvents(j))| <= 1
    ensures forall img :: img in UpdateRuns(j, RunEvents(j)) ==> img == FallbackImage(j)
    ensures !(j.build.commit == Master || j.build.commit == RefreshJob) ==> FirstUsesFallback(j)
  {
    UpdateRunsOfRun(j);
  }

  /** After a failed update the build runs on "fallback" only, and cannot
      end in Success. */
  lemma FailedUpdateFallsBack(j: Job)
    requires ReachesStart(j) && j.build.commit == Master && !UpdateOk(j)
    ensures BuildRuns(j, RunEvents(j)) == [FallbackImage(j)]
    ensures FinalState(j) != Success
  {
    BuildRunsOfRun(j);
  }

  /** An update container that started but did not exit 0 is destroyed
      only after the update duration has been persisted, and the update
      counts as failed. */
  lemma FailedUpdateOrder(j: Job)
    requires Started(Container(j.daemon, 0)) && !RanOk(Container(j.daemon, 0))
    ensures UpdateEvents(j)
         == [CreateContainer(FallbackImage(j), UpdateCommand(j), [OutputDir(j.basePath, j.build) + ":/output"]),
             StartContainer(0), WaitContainer(0), Persist(Init), RemoveContainer(0)]
    ensures !UpdateOk(j)
  {
  }

  /** Once the update container exited 0, "latest" is removed. A missing
      "latest" is no error; any other removal error aborts before the
      commit and leaves the update container behind. */
  lemma UpdateRemovesLatest(j: Job)
    requires RanOk(Container(j.daemon, 0))
    ensures RemoveImage(LatestImage(j)) in UpdateEvents(j)
    ensures (exists e :: e in UpdateEvents(j) && e.CommitContainer?) <==> j.daemon.removeLatest != RemoveFailed
    ensures j.daemon.removeLatest == RemoveFailed ==> RemoveContainer(0) !in UpdateEvents(j) && !UpdateOk(j)
  {
    var fin := UpdateFinish(j);
    assert UpdateEvents(j) == [UpdateEvents(j)[0], StartContainer(0), WaitContainer(0), Persist(Init)] + fin;
    if j.daemon.removeLatest != RemoveFailed {
      var e := CommitContainer(0, Repository(j.build.project.name, j.sys), if IsRefresh(j) then "fallback" else "latest");
      assert e in fin;
      assert e in UpdateEvents(j) && e.CommitContainer?;
    } else {
      assert fin == [RemoveImage(LatestImage(j))];
    }
  }

  /** A refresh job never builds the project: it ends in Success exactly
      when the update succeeded, and in Fail otherwise. */
  lemma RefreshOnlyUpdates(j: Job)
    requires ReachesStart(j) && IsRefresh(j)
    ensures BuildRuns(j, RunEvents(j)) == [] && UpdateRuns(j, RunEvents(j)) == [FallbackImage(j)]
    ensures FinalState(j) == if UpdateOk(j) then Success else Fail
  {
    BuildRunsOfRun(j);
    UpdateRunsOfRun(j);
  }

  /** At most two build containers run. There are two only on a
      primary-branch build whose update succeeded and whose first build,
      from "latest", failed; the second runs from "fallback". */
  lemma AtMostTwoAttempts(j: Job)
    requires ReachesStart(j)
    ensures |BuildRuns(j, RunEvents(j))| <= 2
    ensures |BuildRuns(j, RunEvents(j))| == 0 <==> IsRefresh(j)
    ensures |BuildRuns(j, RunEvents(j))| == 2 ==>
      && BuildRuns(j, RunEvents(j)) == [LatestImage(j), FallbackImage(j)]
      && j.build.commit == Master && UpdateOk(j) && !RanOk(Container(j.daemon, 1))
  {
    BuildRunsOfRun(j);
  }

  /** The outcome of a run that reaches `startBuild`, read off the results
      of its containers for each kind of revision. */
  function Outcome(j: Job): State
  {
    var d := j.daemon;
    if IsRefresh(j) then (if UpdateOk(j) then Success else Fail)
    else if j.build.commit == Master then
      if UpdateOk(j) then
        if RanOk(Container(d, 1)) then Success else if RanOk(Container(d, 2)) then FallbackSuccess else Fail
      else if RanOk(Container(d, 1)) then FallbackSuccess else Fail
    else if RanOk(Container(d, 0)) then FallbackSuccess else Fail
  }

  lemma FinalStateTable(j: Job)
    ensures FinalState(j) == Outcome(j)
  {
  }

  /** The final state is terminal; Success needs a successful update, so a
      revision other than the primary branch and the refresh job ends in
      Fail or FallbackSuccess. */
  lemma SuccessNeedsUpdate(j: Job)
    ensures IsEnumValue(FinalState(j)) && FinalState(j) >= Fail
    ensures FinalState(j) == Success ==> TriesUpdate(j) && UpdateOk(j)
    ensures !TriesUpdate(j) ==> FinalState(j) == Fail || FinalState(j) == FallbackSuccess
  {
  }

  lemma NonDecreasingAppend(a: seq<State>, b: seq<State>)
    requires NonDecreasing(a) && NonDecreasing(b)
    requires |a| > 0 && |b| > 0 ==> a[|a| - 1] <= b[0]
    ensures NonDecreasing(a + b)
  {
    forall i, k | 0 <= i < k < |a + b|
      ensures (a + b)[i] <= (a + b)[k]
    {
      if i < |a| && k >= |a| {
        assert a[i] <= a[|a| - 1];
        assert b[0] <= b[k - |a|];
      }
    }
  }

  /** `startBuild` writes Init first, the final state last, and never goes
      back in the enum order. */
  lemma StartWritesOrder(j: Job)
    ensures var sw := StartWrites(j);
      |sw| >= 2 && sw[0] == Init && sw[|sw| - 1] == FinalState(j) && NonDecreasing(sw)
  {
    var u: seq<State> := if TriesUpdate(j) && Started(Container(j.daemon, 0)) then [Init] else [];
    var bp := BuildPhaseWrites(j);
    assert StartWrites(j) == [Init] + u + bp + [FinalState(j)];
    AllBuilding(j);
    SuccessNeedsUpdate(j);
    Ascending(Init, Building, FinalState(j), u, bp);
  }

  /** The build phase writes nothing but Building. */
  lemma AllBuilding(j: Job)
    ensures forall i :: 0 <= i < |BuildPhaseWrites(j)| ==> BuildPhaseWrites(j)[i] == Building
  {
  }

  /** A state, copies of it, copies of a later state, then a still later
      state: the sequence never goes back. */
  lemma Ascending(x: State, y: State, z: State, u: seq<State>, v: seq<State>)
    requires x <= y <= z
    requires forall i :: 0 <= i < |u| ==> u[i] == x
    requires forall i :: 0 <= i < |v| ==> v[i] == y
    ensures var w := [x] + u + v + [z]; |w| >= 2 && w[0] == x && w[|w| - 1] == z && NonDecreasing(w)
  {
    var w := [x] + u + v + [z];
    forall i | 0 <= i < |w|
      ensures w[i] == if i <= |u| then x else if i <= |u| + |v| then y else z
    {
      if 0 < i <= |u| {
        assert w[i] == u[i - 1];
      } else if |u| < i <= |u| + |v| {
        assert w[i] == v[i - |u| - 1];
      }
    }
  }

  /** From `startBuild`'s Init on, the states written never go back in the
      enum order, and the last one is the final state. */
  lemma WritesOrder(j: Job)
    requires ReachesStart(j)
    ensures var w := Writes(RunEvents(j));
      && |w| >= 3 && w[0] == j.build.state && w[1] == Init
      && w[|w| - 1] == FinalState(j) && NonDecreasing(w[1..])
  {
    RunWrites(j);
    StartWritesOrder(j);
    var sw := StartWrites(j);
    assert ([j.build.state] + sw)[1..] == sw;
  }

  /** A run that reaches `startBuild` writes the incoming state, then what
      `startBuild` writes. */
  lemma RunWrites(j: Job)
    requires ReachesStart(j)
    ensures Writes(RunEvents(j)) == [j.build.state] + StartWrites(j)
  {
    RunDecomposes(j);
    WritesOfStartBuild(j);
  }

  /** `startBuild` writes Building exactly when a build container started. */
  lemma BuildingWrittenIff(j: Job)
    requires ReachesStart(j)
    ensures Building in Writes(RunEvents(j))[1..]
       <==> !IsRefresh(j) && (Started(Container(j.daemon, FirstAttempt(j)))
                              || (Retries(j) && Started(Container(j.daemon, FirstAttempt(j) + 1))))
  {
    RunWrites(j);
    var sw := StartWrites(j);
    assert Writes(RunEvents(j))[1..] == sw by {
      assert ([j.build.state] + sw)[1..] == sw;
    }
    BuildingInStartWrites(j);
  }

  /** The only Building writes of `startBuild` are those of its build phase. */
  lemma BuildingInStartWrites(j: Job)
    ensures Building in StartWrites(j) <==> Building in BuildPhaseWrites(j)
  {
    SuccessNeedsUpdate(j);
    var u: seq<State> := if TriesUpdate(j) && Started(Container(j.daemon, 0)) then [Init] else [];
    assert StartWrites(j) == [Init] + u + BuildPhaseWrites(j) + [FinalState(j)];
  }

  /** When the daemon cannot be reached, or the fallback image is missing and
      cannot be built, no container is created, `startBuild` never runs, and
      the only write after the start-date write is Fail. */
  lemma StartupFailure(j: Job)
    requires !ReachesStart(j)
    ensures Writes(RunEvents(j)) == [j.build.state] + (if j.daemon.reachable then [Fail] else [])
    ensures forall e :: e in RunEvents(j) ==> !e.CreateContainer?
  {
    var p := Persist(j.build.state);
    var ins := InspectImage(FallbackImage(j));
    var f := Persist(Fail);
    if !j.daemon.reachable {
      assert RunEvents(j) == [p];
      WritesOne(p);
    } else if j.daemon.inspect.NoSuchImage? && j.daemon.dockerfileReadable {
      var bi := BuildImage(FallbackImage(j), true);
      assert RunEvents(j) == [p] + [ins, bi, f];
      WritesCons(p, [ins, bi, f]);
      WritesCons(ins, [bi, f]);
      WritesCons(bi, [f]);
      WritesOne(f);
    } else {
      assert RunEvents(j) == [p] + [ins, f];
      WritesCons(p, [ins, f]);
      WritesCons(ins, [f]);
      WritesOne(f);
    }
  }

  /** The state a run leaves in the store: the final state when it got to
      `startBuild`, Fail when it stopped at the image step, and the incoming
      state when the daemon was unreachable. */
  function LastWrite(j: Job): State
  {
    if ReachesStart(j) then FinalState(j)
    else if j.daemon.reachable then Fail
    else j.build.state
  }

  /** Every run writes at least once, and its last write is `LastWrite`. */
  lemma RunLastWrite(j: Job)
    ensures var w := Writes(RunEvents(j)); |w| > 0 && w[|w| - 1] == LastWrite(j)
  {
    if ReachesStart(j) {
      WritesOrder(j);
    } else {
      StartupFailure(j);
    }
  }

  /** What a single event may do to images, given the job it belongs to. */
  predicate TagsConform(j: Job, e: Event)
  {
    match e
    case CreateContainer(img, _, _) => img == FallbackImage(j) || img == LatestImage(j)
    case RemoveImage(img) => img == LatestImage(j)
    case BuildImage(img, noCache) => img == FallbackImage(j) && noCache
    case CommitContainer(_, repo, tag) =>
      repo == Repository(j.build.project.name, j.sys) && tag == (if IsRefresh(j) then "fallback" else "latest")
    case _ => true
  }

  lemma StartBuildTagsConform(j: Job)
    ensures forall e :: e in StartBuildEvents(j) ==> TagsConform(j, e)
  {
    var up := if TriesUpdate(j) then UpdateEvents(j) else [];
    var bp := BuildPhaseEvents(j);
    var s1 := [Persist(Init)] + up;
    var s2 := s1 + bp;
    UpdateTagsConform(j);
    BuildPhaseTagsConform(j);
    ConformAppend(j, [Persist(Init)], up);
    ConformAppend(j, s1, bp);
    ConformAppend(j, s2, [Persist(FinalState(j))]);
    assert StartBuildEvents(j) == s2 + [Persist(FinalState(j))];
  }

  lemma BuildPhaseTagsConform(j: Job)
    ensures forall e :: e in BuildPhaseEvents(j) ==> TagsConform(j, e)
  {
    if !IsRefresh(j) {
      var second := if Retries(j) then AttemptEvents(j, FirstAttempt(j) + 1, true) else [];
      AttemptTagsConform(j, FirstAttempt(j), FirstUsesFallback(j));
      AttemptTagsConform(j, FirstAttempt(j) + 1, true);
      ConformAppend(j, AttemptEvents(j, FirstAttempt(j), FirstUsesFallback(j)), second);
    }
  }

  lemma ConformAppend(j: Job, a: seq<Event>, b: seq<Event>)
    requires forall e :: e in a ==> TagsConform(j, e)
    requires forall e :: e in b ==> TagsConform(j, e)
    ensures forall e :: e in a + b ==> TagsConform(j, e)
  {
  }

  lemma UpdateTagsConform(j: Job)
    ensures forall e :: e in UpdateEvents(j) ==> TagsConform(j, e)
  {
    UpdateEventsFlat(j);
    assert TagsConform(j, UpdateCreate(j));
    assert forall e :: e in UpdateFinish(j) ==> TagsConform(j, e);
  }

  lemma AttemptTagsConform(j: Job, id: nat, fallBack: bool)
    ensures forall e :: e in AttemptEvents(j, id, fallBack) ==> TagsConform(j, e)
  {
    AttemptEventsFlat(j, id, fallBack);
    assert TagsConform(j, AttemptCreate(j, fallBack));
  }

  lemma RunTagsConform(j: Job)
    ensures forall e :: e in RunEvents(j) ==> TagsConform(j, e)
  {
    var d := j.daemon;
    var p := Persist(j.build.state);
    var ins := InspectImage(FallbackImage(j));
    if ReachesStart(j) {
      RunDecomposes(j);
      StartBuildTagsConform(j);
      assert forall e :: e in Prelude(j) ==> TagsConform(j, e);
    } else if !d.reachable {
      assert RunEvents(j) == [p];
    } else if d.inspect.NoSuchImage? && d.dockerfileReadable {
      assert RunEvents(j) == [p, ins, BuildImage(FallbackImage(j), true), Persist(Fail)];
    } else {
      assert RunEvents(j) == [p, ins, Persist(Fail)];
    }
  }

  /** Which images a run touches. Containers run from "fallback" or
      "latest"; only "latest" is ever removed; a bootstrap builds
      "fallback" without cache; and a commit lands in the run's repository,
      under "fallback" for the refresh job and under "latest" otherwise. */
  lemma ImageTags(j: Job)
    ensures forall e :: e in RunEvents(j) && e.CreateContainer? ==> e.image == FallbackImage(j) || e.image == LatestImage(j)
    ensures forall e :: e in RunEvents(j) && e.RemoveImage? ==> e.image == LatestImage(j)
    ensures forall e :: e in RunEvents(j) && e.BuildImage? ==> e.image == FallbackImage(j) && e.noCache
    ensures forall e :: e in RunEvents(j) && e.CommitContainer? ==>
      e.repository == Repository(j.build.project.name, j.sys) && e.tag == (if IsRefresh(j) then "fallback" else "latest")
  {
    RunTagsConform(j);
    forall e | e in RunEvents(j)
      ensures e.CreateContainer? ==> e.image == FallbackImage(j) || e.image == LatestImage(j)
      ensures e.RemoveImage? ==> e.image == LatestImage(j)
      ensures e.BuildImage? ==> e.image == FallbackImage(j) && e.noCache
      ensures e.CommitContainer? ==>
        e.repository == Repository(j.build.project.name, j.sys) && e.tag == (if IsRefresh(j) then "fallback" else "latest")
    {
      assert TagsConform(j, e);
    }
  }

  /** An image reference is the repository and the tag around the one ':'. */
  lemma ImageRefParts(name: string, sys: string, tag: string)
    requires ':' !in name && ':' !in sys && ':' !in tag
    ensures Split(ImageRef(name, sys, tag), ':') == [Repository(name, sys), tag]
  {
    var low := Lower(sys);
    LowerKeeps(sys, ':');
    var repo := Repository(name, sys);
    assert ':' !in repo by {
      assert repo == "gogobuild/" + name + "_" + low;
    }
    assert ImageRef(name, sys, tag) == repo + [':'] + tag;
    SplitAtFirst(repo, tag, ':');
    SplitNoSep(tag, ':');
  }

  /** The target's letter case does not matter to an image reference. */
  lemma ImageRefIgnoresCase(name: string, sys: string, tag: string)
    ensures ImageRef(name, sys, tag) == ImageRef(name, Lower(sys), tag)
  {
    LowerIdempotent(sys);
  }

  // ---- the build script ----

  /** `{{REF_NUMBER}}` cannot match where `{{RELEASE_NUMBER}}` starts. */
  lemma RefSkipsRelease(z: string, rep: string)
    requires '{' !in z
    ensures ReplaceAll(ReleasePlaceholder + z, RefPlaceholder, rep) == ReleasePlaceholder + z
  {
    ReleaseSkippedByRef(z, rep);
    NoStartUnchanged(z, RefPlaceholder, rep);
  }

  /** The reference pass copies a release placeholder through, whatever
      follows it. */
  lemma ReleaseSkippedByRef(z: string, rep: string)
    ensures ReplaceAll(ReleasePlaceholder + z, RefPlaceholder, rep)
         == ReleasePlaceholder + ReplaceAll(z, RefPlaceholder, rep)
  {
    var s := ReleasePlaceholder + z;
    assert s[..|RefPlaceholder|][4] == 'L' && RefPlaceholder[4] == 'F';
    var s1 := s[1..];
    assert s1[..|RefPlaceholder|][1] == 'R';
    var s2 := s1[1..];
    assert s2 == "RELEASE_NUMBER}}" + z;
    ReplaceAllSkipsPrefix("RELEASE_NUMBER}}", z, RefPlaceholder, rep);
    assert [s[0]] + ([s1[0]] + ("RELEASE_NUMBER}}" + ReplaceAll(z, RefPlaceholder, rep)))
        == ReleasePlaceholder + ReplaceAll(z, RefPlaceholder, rep);
  }

  /** With the reference placeholder ahead of the release placeholder, and no
      other '{' in the instructions, revision or release string, the build
      command runs the instructions with the revision and the release string
      in their places. */
  lemma BuildScriptSubstitutes(j: Job, x: string, y: string, z: string)
    requires Join(Instructions(j.build.project.config.buildInstructions, j.sys), " && ")
          == x + RefPlaceholder + y + ReleasePlaceholder + z
    requires '{' !in x && '{' !in y && '{' !in z && '{' !in j.build.commit && '{' !in ReleaseString(j)
    requires '$' !in j.build.commit && '$' !in ReleaseString(j)
    ensures BuildCommand(j) == ["bash", "-c", x + j.build.commit + y + ReleaseString(j) + z]
  {
    RefSkipsRelease(z, j.build.commit);
    ReplaceTwoInOrder(x, y, z, RefPlaceholder, j.build.commit, ReleasePlaceholder, ReleaseString(j));
  }

  /** The reference is substituted first: a revision that itself reads
      `{{RELEASE_NUMBER}}` ends up as the release string. */
  lemma RefSubstitutedFirst(j: Job)
    requires Join(Instructions(j.build.project.config.buildInstructions, j.sys), " && ") == RefPlaceholder
    requires j.build.commit == ReleasePlaceholder && '$' !in ReleaseString(j)
    ensures BuildScript(j) == ReleaseString(j)
  {
    ReplaceAllAtStart(RefPlaceholder, [], j.build.commit);
    assert RefPlaceholder + [] == RefPlaceholder;
    ReplaceAllAtStart(ReleasePlaceholder, [], ReleaseString(j));
    assert ReleasePlaceholder + [] == ReleasePlaceholder;
  }

  /** Instructions without '{' run exactly as joined. */
  lemma BuildScriptPlain(j: Job)
    requires '{' !in Join(Instructions(j.build.project.config.buildInstructions, j.sys), " && ")
    ensures BuildCommand(j) == ["bash", "-c", Join(Instructions(j.build.project.config.buildInstructions, j.sys), " && ")]
  {
    var s := Join(Instructions(j.build.project.config.buildInstructions, j.sys), " && ");
    NoStartUnchanged(s, RefPlaceholder, j.build.commit);
    NoStartUnchanged(s, ReleasePlaceholder, ReleaseString(j));
  }

  /** A piece of a build-instruction template: literal text, or one of the
      two placeholders, each of which may occur any number of times. */
  datatype Piece = Lit(text: string) | RefMark | ReleaseMark

  /** The template with `ref` and `release` standing where its
      placeholders are. */
  function Fill(ps: seq<Piece>, ref: string, release: string): string
    decreases |ps|
  {
    if |ps| == 0 then ""
    else
      (match ps[0] case Lit(t) => t case RefMark => ref case ReleaseMark => release)
      + Fill(ps[1..], ref, release)
  }

  /** No literal text of the template holds a '{'. */
  predicate PlainLits(ps: seq<Piece>)
  {
    forall i :: 0 <= i < |ps| && ps[i].Lit? ==> '{' !in ps[i].text
  }

  /** The reference pass replaces every reference placeholder and copies
      every release placeholder through. */
  lemma {:induction false} RefPass(ps: seq<Piece>, c: string)
    requires PlainLits(ps)
    ensures ReplaceAll(Fill(ps, RefPlaceholder, ReleasePlaceholder), RefPlaceholder, c)
         == Fill(ps, c, ReleasePlaceholder)
    decreases |ps|
  {
    if |ps| > 0 {
      var rest := Fill(ps[1..], RefPlaceholder, ReleasePlaceholder);
      assert PlainLits(ps[1..]) by {
        forall i | 0 <= i < |ps[1..]| && ps[1..][i].Lit? ensures '{' !in ps[1..][i].text {
          assert ps[1..][i] == ps[i + 1];
        }
      }
      RefPass(ps[1..], c);
      match ps[0]
      case Lit(t) => ReplaceAllSkipsPrefix(t, rest, RefPlaceholder, c);
      case RefMark => ReplaceAllAtStart(RefPlaceholder, rest, c);
      case ReleaseMark => ReleaseSkippedByRef(rest, c);
    }
  }

  /** The release pass, over what the reference pass left, replaces every
      release placeholder and nothing else. */
  lemma {:induction false} ReleasePass(ps: seq<Piece>, c: string, r: string)
    requires PlainLits(ps) && '{' !in c
    ensures ReplaceAll(Fill(ps, c, ReleasePlaceholder), ReleasePlaceholder, r) == Fill(ps, c, r)
    decreases |ps|
  {
    if |ps| > 0 {
      var rest := Fill(ps[1..], c, ReleasePlaceholder);
      assert PlainLits(ps[1..]) by {
        forall i | 0 <= i < |ps[1..]| && ps[1..][i].Lit? ensures '{' !in ps[1..][i].text {
          assert ps[1..][i] == ps[i + 1];
        }
      }
      ReleasePass(ps[1..], c, r);
      match ps[0]
      case Lit(t) => ReplaceAllSkipsPrefix(t, rest, ReleasePlaceholder, r);
      case RefMark => ReplaceAllSkipsPrefix(c, rest, ReleasePlaceholder, r);
      case ReleaseMark => ReplaceAllAtStart(ReleasePlaceholder, rest, r);
    }
  }

  /** Filling plain text into a plain template leaves no '{', so no
      placeholder survives. */
  lemma {:induction false} FillPlain(ps: seq<Piece>, c: string, r: string)
    requires PlainLits(ps) && '{' !in c && '{' !in r
    ensures '{' !in Fill(ps, c, r)
    decreases |ps|
  {
    if |ps| > 0 {
      assert PlainLits(ps[1..]) by {
        forall i | 0 <= i < |ps[1..]| && ps[1..][i].Lit? ensures '{' !in ps[1..][i].text {
          assert ps[1..][i] == ps[i + 1];
        }
      }
      FillPlain(ps[1..], c, r);
    }
  }

  /** For instructions made of plain text and any number of both
      placeholders, in any order, the build script has every reference
      placeholder replaced by the revision and every release placeholder by
      the release string; with a plain release string no placeholder is
      left. */
  lemma BuildScriptFills(j: Job, ps: seq<Piece>)
    requires Join(Instructions(j.build.project.config.buildInstructions, j.sys), " && ")
          == Fill(ps, RefPlaceholder, ReleasePlaceholder)
    requires PlainLits(ps) && '{' !in j.build.commit
    requires '$' !in j.build.commit && '$' !in ReleaseString(j)
    ensures BuildScript(j) == Fill(ps, j.build.commit, ReleaseString(j))
    ensures '{' !in ReleaseString(j) ==> '{' !in BuildScript(j)
  {
    RefPass(ps, j.build.commit);
    ReleasePass(ps, j.build.commit, ReleaseString(j));
    if '{' !in ReleaseString(j) {
      FillPlain(ps, j.build.commit, ReleaseString(j));
    }
  }
}

/** `WorkerManager` (app/controllers/workerManager.go): checks the build
    type and launches one Docker worker per target, one after the other.
    Each worker gets its own copy of the build, so nothing a worker does
    reaches the caller's record; what reaches the store is each run's last
    written state. */
module Dispatch {
  import opened Text
  import opened Projects
  import opened Builds
  import opened Store
  import opened DockerProtocol
  import opened Docker

  const DockerType := "Docker"
  /** The target that fans out over every configured target. */
  const AllTargets := "all"
  const InvalidBuildType := "Not a valid build type"

  /** One `launchDockerBuild` call: the copy of the build the worker gets
      and the target it builds. */
  datatype Launch = Launch(build: Build, sys: string)

  /** The job a launched worker runs on the given host. */
  function JobOf(l: Launch, host: Host): Job
  {
    Job(l.build, l.sys, host.basePath, host.format, host.daemon)
  }

  /** The rows after the launched workers have run one after the other:
      each run leaves its last written state on its build's row. */
  function RunAll(rows: seq<Build>, ls: seq<Launch>, host: Host): (r: seq<Build>)
    ensures |r| == |rows|
    decreases |ls|
  {
    if |ls| == 0 then rows
    else
      var l := ls[|ls| - 1];
      SetState(RunAll(rows, ls[..|ls| - 1], host), KeyOf(l.build), LastWrite(JobOf(l, host)), host.now)
  }

  /** The caller's record after `Build`: failed in place for a type other
      than "Docker", untouched otherwise. */
  function Dispatched(b: Build): (r: Build)
  {
    if b.project.config.buildType == DockerType then b else b.(state := Fail)
  }

  /** The targets `Build` launches workers for. */
  function TargetsOf(b: Build): set<string>
  {
    if b.targetSys == AllTargets then b.project.config.buildInstructions.Keys else {b.targetSys}
  }

  /** The targets of a series of launches. */
  function Targets(ls: seq<Launch>): set<string>
    decreases |ls|
  {
    if |ls| == 0 then {} else Targets(ls[..|ls| - 1]) + {ls[|ls| - 1].sys}
  }

  lemma TargetsSnoc(ls: seq<Launch>, l: Launch)
    ensures Targets(ls + [l]) == Targets(ls) + {l.sys}
  {
    assert (ls + [l])[..|ls|] == ls;
  }

  /** A target is launched when some launch has it. */
  lemma {:induction false} InTargets(ls: seq<Launch>, x: string)
    ensures x in Targets(ls) <==> exists i :: 0 <= i < |ls| && ls[i].sys == x
    decreases |ls|
  {
    if |ls| > 0 {
      var init := ls[..|ls| - 1];
      InTargets(init, x);
      if x in Targets(init) {
        var i :| 0 <= i < |init| && init[i].sys == x;
        assert ls[i].sys == x;
      }
      if exists i :: 0 <= i < |ls| && ls[i].sys == x {
        var i :| 0 <= i < |ls| && ls[i].sys == x;
        if i < |init| {
          assert init[i].sys == x;
        }
      }
    }
  }

  /** `Build` launches one worker per target: the same copy of the record
      each time, each target exactly once, and nothing for a bad type. */
  predicate LaunchesFor(b: Build, ls: seq<Launch>)
  {
    if b.project.config.buildType != DockerType then ls == []
    else
      && (forall i :: 0 <= i < |ls| ==> ls[i].build == b)
      && Targets(ls) == TargetsOf(b)
      && (forall i, k :: 0 <= i < k < |ls| ==> ls[i].sys != ls[k].sys)
  }

  /** A worker never writes the caller's record: `Build` changes it only
      for a bad type, and then only its state, to Fail. */
  lemma DispatchedOnlyFails(b: Build)
    ensures Dispatched(b) == b <==> b.project.config.buildType == DockerType || b.state == Fail
    ensures Dispatched(b).state == (if b.project.config.buildType == DockerType then b.state else Fail)
    ensures Dispatched(b).(state := b.state) == b
  {
  }

  /** Every launch of a fanned-out build gets the record as it is, whose
      TargetSys stays "all", and a configured target as its own. */
  lemma FanOutTargets(b: Build, ls: seq<Launch>)
    requires LaunchesFor(b, ls) && b.project.config.buildType == DockerType && b.targetSys == AllTargets
    ensures forall i :: 0 <= i < |ls| ==>
      ls[i].build.targetSys == AllTargets && ls[i].sys in b.project.config.buildInstructions
    ensures forall sys :: sys in b.project.config.buildInstructions ==> exists i :: 0 <= i < |ls| && ls[i].sys == sys
  {
    forall i | 0 <= i < |ls|
      ensures ls[i].sys in b.project.config.buildInstructions
    {
      InTargets(ls, ls[i].sys);
    }
    forall sys | sys in b.project.config.buildInstructions
      ensures exists i :: 0 <= i < |ls| && ls[i].sys == sys
    {
      InTargets(ls, sys);
    }
  }

  /** Any other target launches exactly one worker, for that target. */
  lemma SingleTarget(b: Build, ls: seq<Launch>)
    requires LaunchesFor(b, ls) && b.project.config.buildType == DockerType && b.targetSys != AllTargets
    ensures ls == [Launch(b, b.targetSys)]
  {
    InTargets(ls, b.targetSys);
    forall i | 0 <= i < |ls|
      ensures ls[i].sys == b.targetSys
    {
      InTargets(ls, ls[i].sys);
    }
    if |ls| > 1 {
      assert false;
    }
    assert ls == [Launch(b, b.targetSys)];
  }

  /** When every launch is of the same record, the row ends up with what
      the last worker wrote. */
  lemma {:induction false} RunAllLast(rows: seq<Build>, b: Build, ls: seq<Launch>, host: Host)
    requires |ls| > 0 && forall i :: 0 <= i < |ls| ==> ls[i].build == b
    ensures RunAll(rows, ls, host) == SetState(rows, KeyOf(b), LastWrite(JobOf(ls[|ls| - 1], host)), host.now)
    decreases |ls|
  {
    var init := ls[..|ls| - 1];
    if |init| > 0 {
      RunAllLast(rows, b, init, host);
      assert init[|init| - 1] == ls[|ls| - 2];
      SetStateTwice(rows, KeyOf(b), LastWrite(JobOf(ls[|ls| - 2], host)), LastWrite(JobOf(ls[|ls| - 1], host)), host.now);
    }
  }

  /** Workers only write states and times, so the table stays valid. */
  lemma {:induction false} RunAllKeepsValid(rows: seq<Build>, ls: seq<Launch>, host: Host, nextId: nat)
    requires ValidRows(rows, nextId)
    ensures ValidRows(RunAll(rows, ls, host), nextId)
    decreases |ls|
  {
    if |ls| > 0 {
      var l := ls[|ls| - 1];
      RunAllKeepsValid(rows, ls[..|ls| - 1], host, nextId);
      SetStateKeepsValid(RunAll(rows, ls[..|ls| - 1], host), KeyOf(l.build), LastWrite(JobOf(l, host)), host.now, nextId);
    }
  }

  lemma RunAllSnoc(rows: seq<Build>, ls: seq<Launch>, l: Launch, host: Host)
    ensures RunAll(rows, ls + [l], host)
         == SetState(RunAll(rows, ls, host), KeyOf(l.build), LastWrite(JobOf(l, host)), host.now)
  {
    assert (ls + [l])[..|ls + [l]| - 1] == ls;
  }

  class WorkerManager {
    const store: BuildStore

    constructor (store: BuildStore)
      ensures this.store == store
    {
      this.store := store;
    }

    /** `Build`: fail a build of another type in place with an error;
        otherwise launch a worker for every target (every configured one
        for "all"), each run to its end before the next one starts, all
        of them in the request's `host`. */
    method Build(b: Build, host: Host) returns (caller: Build, err: Option<string>, ghost launched: seq<Launch>)
      requires store.Valid()
      modifies store`rows
      ensures store.Valid()
      ensures caller == Dispatched(b)
      ensures err == (if b.project.config.buildType == DockerType then None else Some(InvalidBuildType))
      ensures LaunchesFor(b, launched)
      ensures store.rows == RunAll(old(store.rows), launched, host)
    {
      caller := b;
      launched := [];
      if b.project.config.buildType != DockerType {
        caller := caller.(state := Fail);
        err := Some(InvalidBuildType);
        return;
      }
      if b.targetSys == AllTargets {
        launched := LaunchAll(b, host);
      } else {
        launched := LaunchOne(b, host);
      }
      err := None;
    }

    /** The single-target branch of `Build`. */
    method LaunchOne(b: Build, host: Host) returns (ghost launched: seq<Launch>)
      requires store.Valid()
      modifies store`rows
      ensures store.Valid()
      ensures launched == [Launch(b, b.targetSys)] && Targets(launched) == {b.targetSys}
      ensures store.rows == RunAll(old(store.rows), launched, host)
    {
      LaunchDockerBuild(b, b.targetSys, host);
      launched := [Launch(b, b.targetSys)];
      RunAllSnoc(old(store.rows), [], launched[0], host);
      TargetsSnoc([], launched[0]);
      assert [] + launched == launched;
    }

    /** The fan-out loop of `Build`: one launch per key of the build
        instructions, in whichever order the map yields them. */
    method LaunchAll(b: Build, host: Host) returns (ghost launched: seq<Launch>)
      requires store.Valid()
      modifies store`rows
      ensures store.Valid()
      ensures forall i :: 0 <= i < |launched| ==> launched[i].build == b
      ensures Targets(launched) == b.project.config.buildInstructions.Keys
      ensures forall i, k :: 0 <= i < k < |launched| ==> launched[i].sys != launched[k].sys
      ensures store.rows == RunAll(old(store.rows), launched, host)
    {
      ghost var rows0 := store.rows;
      var keys := b.project.config.buildInstructions.Keys;
      launched := [];
      while keys != {}
        invariant store.Valid()
        invariant keys <= b.project.config.buildInstructions.Keys
        invariant forall i :: 0 <= i < |launched| ==> launched[i].build == b
        invariant Targets(launched) + keys == b.project.config.buildInstructions.Keys
        invariant forall i :: 0 <= i < |launched| ==> launched[i].sys !in keys
        invariant forall i, k :: 0 <= i < k < |launched| ==> launched[i].sys != launched[k].sys
        invariant store.rows == RunAll(rows0, launched, host)
        decreases keys
      {
        var sys :| sys in keys;
        LaunchDockerBuild(b, sys, host);
        RunAllSnoc(rows0, launched, Launch(b, sys), host);
        TargetsSnoc(launched, Launch(b, sys));
        launched := launched + [Launch(b, sys)];
        keys := keys - {sys};
      }
    }

    /** `launchDockerBuild`: a new worker with its own copy of the build
        and the given target, run to its end. */
    method LaunchDockerBuild(b: Build, sys: string, host: Host)
      requires store.Valid()
      modifies store`rows
      ensures store.Valid()
      ensures store.rows == SetState(old(store.rows), KeyOf(b), LastWrite(JobOf(Launch(b, sys), host)), host.now)
    {
      var d := new DockerWorker(b, sys, store, host);
      d.Run();
      SetStateKeepsValid(old(store.rows), KeyOf(b), d.build.state, host.now, store.nextId);
    }
  }
}

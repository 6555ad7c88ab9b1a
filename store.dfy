/** The "builds" collection that `BuildManager` keeps in MongoDB, as an
    in-memory table in insertion order (app/controllers/buildManager.go:
    `SaveBuild`, `UpdateBuild`, `BuildMaintenance` and the `Find(...).One`
    lookup of `CreateOrReturnStatusBuild`). */
module Store {
  import opened Text
  import opened Projects
  import opened Builds

  /** The selector `UpdateBuild` uses: project name and creation date. */
  datatype Key = Key(name: string, date: int)

  function KeyOf(b: Build): Key
  {
    Key(b.project.name, b.date)
  }

  predicate Matches(b: Build, k: Key)
  {
    b.project.name == k.name && b.date == k.date
  }

  /** The document a single-document Mongo `Update` selects: the first
      matching row in natural order. */
  function FirstMatch(rows: seq<Build>, k: Key): (r: Option<nat>)
    ensures r.Some? ==> r.value < |rows| && Matches(rows[r.value], k)
  {
    if |rows| == 0 then None
    else if Matches(rows[0], k) then Some(0)
    else match FirstMatch(rows[1..], k)
      case None => None
      case Some(i) => Some(i + 1)
  }

  /** `FirstMatch` finds the first matching row, and finds none only when
      no row matches. */
  lemma {:induction false} FirstMatchIsFirst(rows: seq<Build>, k: Key)
    ensures FirstMatch(rows, k).Some? ==> forall j :: 0 <= j < FirstMatch(rows, k).value ==> !Matches(rows[j], k)
    ensures FirstMatch(rows, k).None? ==> forall j :: 0 <= j < |rows| ==> !Matches(rows[j], k)
    decreases |rows|
  {
    if |rows| > 0 && !Matches(rows[0], k) {
      FirstMatchIsFirst(rows[1..], k);
      assert forall j :: 1 <= j < |rows| ==> rows[j] == rows[1..][j - 1];
    }
  }

  /** The table after `Update({name, date}, {$set: {state, lastupdated}})`. */
  function SetState(rows: seq<Build>, k: Key, s: State, now: int): (r: seq<Build>)
    ensures |r| == |rows|
  {
    match FirstMatch(rows, k)
    case None => rows
    case Some(i) => rows[i := rows[i].(state := s, lastUpdated := now)]
  }

  /** `SetState` changes only the state and time of the first matching row,
      sets them there, and changes nothing when no row matches. */
  lemma SetStateFrame(rows: seq<Build>, k: Key, s: State, now: int)
    ensures var r := SetState(rows, k, s, now);
      && (forall j :: 0 <= j < |rows| ==>
            r[j].(state := rows[j].state, lastUpdated := rows[j].lastUpdated) == rows[j])
      && (forall j :: 0 <= j < |rows| && r[j] != rows[j] ==> FirstMatch(rows, k) == Some(j))
      && (FirstMatch(rows, k).Some? ==>
            r[FirstMatch(rows, k).value].state == s && r[FirstMatch(rows, k).value].lastUpdated == now)
      && (FirstMatch(rows, k).None? ==> r == rows)
  {
  }

  /** The table after a series of `UpdateBuild` calls for one build, all
      stamped with the same time. */
  function ApplyWrites(rows: seq<Build>, k: Key, ws: seq<State>, now: int): seq<Build>
    decreases |ws|
  {
    if |ws| == 0 then rows
    else SetState(ApplyWrites(rows, k, ws[..|ws| - 1], now), k, ws[|ws| - 1], now)
  }

  /** The selected row does not move when only its state and time change. */
  lemma SetStateKeepsMatch(rows: seq<Build>, k: Key, s: State, now: int)
    ensures FirstMatch(SetState(rows, k, s, now), k) == FirstMatch(rows, k)
  {
    var r := SetState(rows, k, s, now);
    SetStateFrame(rows, k, s, now);
    assert forall j :: 0 <= j < |rows| ==> (Matches(r[j], k) <==> Matches(rows[j], k));
    FirstMatchDependsOnMatches(rows, r, k);
  }

  lemma {:induction false} FirstMatchDependsOnMatches(a: seq<Build>, b: seq<Build>, k: Key)
    requires |a| == |b|
    requires forall j :: 0 <= j < |a| ==> (Matches(a[j], k) <==> Matches(b[j], k))
    ensures FirstMatch(a, k) == FirstMatch(b, k)
  {
    if |a| > 0 && !Matches(a[0], k) {
      FirstMatchDependsOnMatches(a[1..], b[1..], k);
    }
  }

  /** Of two updates of the same build, the second one wins. */
  lemma SetStateTwice(rows: seq<Build>, k: Key, s1: State, s2: State, now: int)
    ensures SetState(SetState(rows, k, s1, now), k, s2, now) == SetState(rows, k, s2, now)
  {
    SetStateKeepsMatch(rows, k, s1, now);
  }

  /** A series of updates leaves what its last write says. */
  lemma {:induction false} ApplyWritesLast(rows: seq<Build>, k: Key, ws: seq<State>, now: int)
    requires |ws| > 0
    ensures ApplyWrites(rows, k, ws, now) == SetState(rows, k, ws[|ws| - 1], now)
    decreases |ws|
  {
    var init := ws[..|ws| - 1];
    if |init| > 0 {
      ApplyWritesLast(rows, k, init, now);
      assert init[|init| - 1] == ws[|ws| - 2];
      SetStateTwice(rows, k, ws[|ws| - 2], ws[|ws| - 1], now);
    } else {
      assert ApplyWrites(rows, k, init, now) == rows;
    }
  }

  /** Two series of updates in a row are one series. */
  lemma {:induction false} ApplyWritesAppend(rows: seq<Build>, k: Key, a: seq<State>, b: seq<State>, now: int)
    ensures ApplyWrites(ApplyWrites(rows, k, a, now), k, b, now) == ApplyWrites(rows, k, a + b, now)
    decreases |b|
  {
    if |b| == 0 {
      assert a + b == a;
    } else {
      var b' := b[..|b| - 1];
      ApplyWritesAppend(rows, k, a, b', now);
      assert (a + b)[..|a + b| - 1] == a + b';
      assert (a + b)[|a + b| - 1] == b[|b| - 1];
    }
  }

  /** After an update stamped `now`, the selected build's `Duration` is the
      time from its creation to `now`. */
  lemma UpdatedDuration(rows: seq<Build>, k: Key, s: State, now: int)
    requires FirstMatch(rows, k).Some? && now != ZeroTime
    ensures Duration(SetState(rows, k, s, now)[FirstMatch(rows, k).value])
         == now - rows[FirstMatch(rows, k).value].date
  {
  }

  predicate IsPending(s: State)
  {
    s == Created || s == Init || s == Building
  }

  /** One document under `UpdateAll({state: {$in: [Created, Init, Building]}},
      {$set: {state: Fail}})`. */
  function Reconciled(b: Build): Build
  {
    if IsPending(b.state) then b.(state := Fail) else b
  }

  function Maintained(rows: seq<Build>): (r: seq<Build>)
    ensures |r| == |rows|
    ensures forall i :: 0 <= i < |rows| ==> r[i] == Reconciled(rows[i])
  {
    seq(|rows|, i requires 0 <= i < |rows| => Reconciled(rows[i]))
  }

  /** After maintenance no build is left in Created, Init or Building, the
      pending ones have become Fail with everything else kept, and all other
      builds are unchanged. */
  lemma MaintenanceOutcome(rows: seq<Build>)
    ensures forall i :: 0 <= i < |rows| ==> !IsPending(Maintained(rows)[i].state)
    ensures forall i :: 0 <= i < |rows| && IsPending(rows[i].state) ==>
      Maintained(rows)[i] == rows[i].(state := Fail)
    ensures forall i :: 0 <= i < |rows| && !IsPending(rows[i].state) ==>
      Maintained(rows)[i] == rows[i]
  {
  }

  /** Maintenance is idempotent. */
  lemma MaintenanceIdempotent(rows: seq<Build>)
    ensures Maintained(Maintained(rows)) == Maintained(rows)
  {
  }

  predicate SameRequest(b: Build, name: string, sys: string, commit: string)
  {
    b.project.name == name && b.targetSys == sys && b.commit == commit
  }

  /** `Find({projecttobuild.name, targetsys, commit}).One`: the first build
      of that request in natural order, or "not found". */
  function Find(rows: seq<Build>, name: string, sys: string, commit: string): (r: Option<Build>)
    ensures r.Some? ==> r.value in rows && SameRequest(r.value, name, sys, commit)
    ensures r.None? ==> forall j :: 0 <= j < |rows| ==> !SameRequest(rows[j], name, sys, commit)
    ensures r.Some? ==>
      exists j :: 0 <= j < |rows| && rows[j] == r.value && forall i :: 0 <= i < j ==> !SameRequest(rows[i], name, sys, commit)
  {
    if |rows| == 0 then None
    else if SameRequest(rows[0], name, sys, commit) then Some(rows[0])
    else
      var r := Find(rows[1..], name, sys, commit);
      if r.Some? then
        var j :| 0 <= j < |rows[1..]| && rows[1..][j] == r.value &&
          forall i :: 0 <= i < j ==> !SameRequest(rows[1..][i], name, sys, commit);
        assert rows[j + 1] == r.value;
        assert forall i :: 0 <= i < j + 1 ==> !SameRequest(rows[i], name, sys, commit) by {
          forall i | 0 <= i < j + 1 ensures !SameRequest(rows[i], name, sys, commit) {
            if i > 0 { assert rows[i] == rows[1..][i - 1]; }
          }
        }
        r
      else r
  }

  /** Every stored build has an `_id`, the ids are distinct, and none is
      at or above the next one to be handed out. */
  predicate ValidRows(rows: seq<Build>, nextId: nat)
  {
    && (forall i :: 0 <= i < |rows| ==> rows[i].id.ObjectId? && rows[i].id.n < nextId)
    && (forall i, j :: 0 <= i < j < |rows| ==> rows[i].id != rows[j].id)
  }

  /** `UpdateBuild` keeps every `_id`, so the table stays valid. */
  lemma SetStateKeepsValid(rows: seq<Build>, k: Key, s: State, now: int, nextId: nat)
    requires ValidRows(rows, nextId)
    ensures ValidRows(SetState(rows, k, s, now), nextId)
  {
    SetStateFrame(rows, k, s, now);
    var r := SetState(rows, k, s, now);
    assert forall j :: 0 <= j < |rows| ==> r[j].id == rows[j].id;
  }

  /** The in-memory "builds" collection. */
  class BuildStore {
    var rows: seq<Build>
    /** The next `_id` the store hands out. */
    var nextId: nat

    ghost predicate Valid()
      reads this
    {
      ValidRows(rows, nextId)
    }

    constructor ()
      ensures Valid() && rows == [] && nextId == 0
    {
      rows := [];
      nextId := 0;
    }

    predicate HasId(id: BuildId)
      reads this
    {
      exists i :: 0 <= i < |rows| && rows[i].id == id
    }

    /** `SaveBuild`: insert the build, with a fresh `_id` when it has none;
        inserting an `_id` already present is a duplicate-key error. */
    method SaveBuild(b: Build) returns (err: Option<string>)
      requires Valid()
      modifies this
      ensures Valid()
      ensures b.id.NoId? ==>
        (err == None && nextId == old(nextId) + 1 && rows == old(rows) + [b.(id := ObjectId(old(nextId)))])
      ensures b.id.ObjectId? && old(HasId(b.id)) ==>
        (err == Some("duplicate key") && rows == old(rows) && nextId == old(nextId))
      ensures b.id.ObjectId? && !old(HasId(b.id)) ==>
        (err == None && rows == old(rows) + [b] && nextId == (if b.id.n < old(nextId) then old(nextId) else b.id.n + 1))
    {
      if b.id.NoId? {
        rows := rows + [b.(id := ObjectId(nextId))];
        nextId := nextId + 1;
        err := None;
      } else if HasId(b.id) {
        err := Some("duplicate key");
      } else {
        rows := rows + [b];
        if b.id.n >= nextId {
          nextId := b.id.n + 1;
        }
        err := None;
      }
    }

    /** `UpdateBuild`: set `state` and `lastupdated` of the first build with
        this build's project name and date; "not found" when there is none. */
    method UpdateBuild(b: Build, now: int) returns (err: Option<string>)
      modifies this`rows
      ensures rows == SetState(old(rows), KeyOf(b), b.state, now)
      ensures err == None <==> FirstMatch(old(rows), KeyOf(b)).Some?
    {
      var found := FirstMatch(rows, KeyOf(b)).Some?;
      rows := SetState(rows, KeyOf(b), b.state, now);
      err := if found then None else Some("not found");
    }

    /** `BuildMaintenance`: every build left in Created, Init or Building
        becomes Fail. */
    method BuildMaintenance() returns (err: Option<string>)
      requires Valid()
      modifies this`rows
      ensures Valid()
      ensures rows == Maintained(old(rows)) && err == None
    {
      rows := Maintained(rows);
      err := None;
    }
  }
}

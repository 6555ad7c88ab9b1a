/** The build record, its ordered state enum and the pure predicates over
    it (app/controllers/buildManager.go). */
module Builds {
  import opened Text
  import opened Projects

  /** Go's `type State int`: any integer is a value of the type, the six
      named constants are the enum. */
  newtype State = int

  const Created: State := 0
  const Init: State := 1
  const Building: State := 2
  const Fail: State := 3
  const Success: State := 4
  const FallbackSuccess: State := 5

  predicate IsEnumValue(s: State)
  {
    Created <= s <= FallbackSuccess
  }

  /** `State.String`. */
  function StateName(s: State): string
  {
    if s == Created then "Created"
    else if s == Init then "Init"
    else if s == Building then "Building"
    else if s == Fail then "Fail"
    else if s == Success then "Success"
    else if s == FallbackSuccess then "FallbackSuccess"
    else "Unknown"
  }

  /** The inverse of `StateName` on the six names. */
  function ParseStateName(name: string): Option<State>
  {
    if name == "Created" then Some(Created)
    else if name == "Init" then Some(Init)
    else if name == "Building" then Some(Building)
    else if name == "Fail" then Some(Fail)
    else if name == "Success" then Some(Success)
    else if name == "FallbackSuccess" then Some(FallbackSuccess)
    else None
  }

  /** Every enum value has its own name, and every other value reads
      "Unknown", which names no enum value. */
  lemma StateNameRoundTrip(s: State)
    ensures IsEnumValue(s) ==> ParseStateName(StateName(s)) == Some(s)
    ensures !IsEnumValue(s) ==> StateName(s) == "Unknown" && ParseStateName(StateName(s)) == None
  {
  }

  /** The terminal states are exactly the enum values at or above Fail, and
      the states with an artifact exactly those above Fail. */
  lemma StateOrder(s: State)
    requires IsEnumValue(s)
    ensures s >= Fail <==> (s == Fail || s == Success || s == FallbackSuccess)
    ensures s > Fail <==> (s == Success || s == FallbackSuccess)
    ensures s < Fail <==> (s == Created || s == Init || s == Building)
  {
  }

  /** Go's zero `time.Time` (January 1, year 1 UTC) in Unix seconds; every
      time in the model is a count of Unix seconds. */
  const ZeroTime: int := -62135596800

  /** A Mongo `_id`: empty until the store assigns one. */
  datatype BuildId = NoId | ObjectId(n: nat)

  /** The primary branch and the refresh-only sentinel revision. */
  const Master := "master"
  const RefreshJob := "updateWorker"

  /** `Build`. StartDate, UpdateWorkerDuration and GitCommitID are used by
      the worker but missing from the Go struct; they are opaque fields here. */
  datatype Build = Build(
    id: BuildId,
    date: int,
    lastUpdated: int,
    project: Project,
    targetSys: string,
    state: State,
    commit: string,
    startDate: int,
    updateWorkerDuration: int,
    gitCommitID: string)

  /** `Build.IsDownloadable`. */
  predicate IsDownloadable(b: Build)
  {
    b.state > Fail && b.commit != RefreshJob
  }

  /** `Build.IsRetryable`. */
  predicate IsRetryable(b: Build)
  {
    b.commit != Master && b.state == Fail
  }

  /** `Build.Duration`, in seconds. */
  function Duration(b: Build): int
  {
    if b.lastUpdated == ZeroTime then 0 else b.lastUpdated - b.date
  }

  /** A build of an enum state is downloadable exactly when it ended in
      Success or FallbackSuccess and is not a refresh-only job. */
  lemma DownloadableIff(b: Build)
    requires IsEnumValue(b.state)
    ensures IsDownloadable(b) <==> (b.state == Success || b.state == FallbackSuccess) && b.commit != RefreshJob
  {
  }

  /** A retryable build has failed and is not a primary-branch build, and
      every such build is retryable. */
  lemma RetryableIff(b: Build)
    ensures IsRetryable(b) <==> b.state == Fail && b.commit != Master
    ensures IsRetryable(b) ==> !IsDownloadable(b)
  {
  }
}

/** The decisions of `BuildController` (app/controllers/buildController.go)
    that do not depend on the web framework: which address `Download`
    serves, where `Detail` reads the logs, and when `Deploy` starts. The
    file system is an input: the set of paths that exist and what the files
    hold. */
module Controller {
  import opened Text
  import opened Projects
  import opened Builds
  import opened DockerProtocol

  /** What a handler answers: a JSON value or a redirect. */
  datatype Reply = Json(body: string) | Redirect(url: string)

  /** The record a failed `GetBuildByID` leaves behind: Go's zero `Build`. */
  const ZeroBuild := Build(NoId, ZeroTime, ZeroTime, ZeroProject, "", Created, "", ZeroTime, 0, "")

  /** The build a handler goes on with: the one found, or the zero record
      when the lookup failed (the handlers flash the error and carry on). */
  function Lookup(found: Option<Build>): (b: Build)
    ensures found.Some? ==> b == found.value
    ensures found.None? ==> b.state == Created && b.project.name == ""
  {
    if found.Some? then found.value else ZeroBuild
  }

  predicate IsHexDigit(c: char)
  {
    '0' <= c <= '9' || 'a' <= c <= 'f'
  }

  function HexChar(d: nat): (c: char)
    requires d < 16
    ensures IsHexDigit(c)
  {
    if d < 10 then Digit(d) else ('a' as int + (d - 10)) as char
  }

  /** The lowest `w` hexadecimal digits of `n`, most significant first. */
  function HexDigits(n: nat, w: nat): (r: string)
    ensures |r| == w
    ensures forall k :: 0 <= k < |r| ==> IsHexDigit(r[k])
  {
    if w == 0 then "" else HexDigits(n / 16, w - 1) + [HexChar(n % 16)]
  }

  function HexDigitValue(c: char): nat
    requires IsHexDigit(c)
  {
    if c <= '9' then c as int - '0' as int else c as int - 'a' as int + 10
  }

  /** The number a string of hexadecimal digits spells, most significant
      digit first. */
  function HexValue(s: string): nat
    requires forall k :: 0 <= k < |s| ==> IsHexDigit(s[k])
  {
    if |s| == 0 then 0 else HexValue(s[..|s| - 1]) * 16 + HexDigitValue(s[|s| - 1])
  }

  function Pow16(w: nat): (p: nat)
    ensures p > 0
  {
    if w == 0 then 1 else 16 * Pow16(w - 1)
  }

  lemma MulAtLeast(m: int, k: int)
    requires m > 0 && k >= 1
    ensures m * k >= m
  {
  }

  /** Euclidean division is unique: a quotient and a remainder in range
      are the ones `/` and `%` give. */
  lemma DivModUnique(n: int, m: int, a: int, c: int)
    requires m > 0 && 0 <= c < m && n == m * a + c
    ensures n % m == c && n / m == a
  {
    var a', c' := n / m, n % m;
    assert m * a' + c' == m * a + c;
    if a < a' {
      MulAtLeast(m, a' - a);
      assert false;
    } else if a' < a {
      MulAtLeast(m, a - a');
      assert false;
    }
  }

  /** The remainder modulo `16 p` is the remainder of `n / 16` modulo `p`
      followed by the last hexadecimal digit. */
  lemma ModSixteenTimes(n: nat, p: nat)
    requires p > 0
    ensures n % (16 * p) == 16 * ((n / 16) % p) + n % 16
  {
    var q, r := n / 16, n % 16;
    var a, b := q / p, q % p;
    assert q == p * a + b;
    assert n == (16 * p) * a + (16 * b + r) by {
      assert n == 16 * q + r;
      assert 16 * q == 16 * (p * a) + 16 * b;
      assert 16 * (p * a) == (16 * p) * a;
    }
    assert 16 * b + r < 16 * p by {
      assert b <= p - 1;
      assert 16 * b <= 16 * p - 16;
    }
    DivModUnique(n, 16 * p, a, 16 * b + r);
  }

  lemma HexCharValue(d: nat)
    requires d < 16
    ensures HexDigitValue(HexChar(d)) == d
  {
  }

  /** `w` hexadecimal digits of `n` spell `n` modulo `16^w`. */
  lemma {:induction false} HexDigitsValue(n: nat, w: nat)
    ensures HexValue(HexDigits(n, w)) == n % Pow16(w)
    decreases w
  {
    if w == 0 {
      DivModUnique(n, 1, n, 0);
    } else {
      var s := HexDigits(n, w);
      assert s[..|s| - 1] == HexDigits(n / 16, w - 1);
      HexDigitsValue(n / 16, w - 1);
      HexCharValue(n % 16);
      ModSixteenTimes(n, Pow16(w - 1));
    }
  }

  /** `ObjectId.Hex`: 24 hexadecimal digits of the 12-byte id, empty for
      an id never assigned. */
  function IdHex(id: BuildId): (r: string)
    ensures id.NoId? ==> r == ""
    ensures id.ObjectId? ==> |r| == 24 && forall k :: 0 <= k < |r| ==> IsHexDigit(r[k])
  {
    match id
    case NoId => ""
    case ObjectId(n) => HexDigits(n, 24)
  }

  /** An id of twelve bytes reads back from its hexadecimal form. */
  lemma IdHexRoundTrip(n: nat)
    requires n < Pow16(24)
    ensures HexValue(IdHex(ObjectId(n))) == n
  {
    HexDigitsValue(n, 24);
    DivModUnique(n, Pow16(24), 0, n);
  }

  /** Two twelve-byte ids have the same hexadecimal form only when they are
      the same id. */
  lemma IdHexInjective(m: nat, n: nat)
    requires m < Pow16(24) && n < Pow16(24)
    ensures IdHex(ObjectId(m)) == IdHex(ObjectId(n)) <==> m == n
  {
    IdHexRoundTrip(m);
    IdHexRoundTrip(n);
  }

  /** `/projects/<name>/builds/<id>`, the build's page. */
  function BuildPage(b: Build): string
  {
    "/projects/" + b.project.name + "/builds/" + IdHex(b.id)
  }

  /** `/public/output/<name>/<Date.Unix>/<TargetSys>`, relative to the
      server's base path. */
  function ArtifactDir(b: Build): string
  {
    "/public/output/" + b.project.name + "/" + IntStr(b.date) + "/" + b.targetSys
  }

  /** The package configured for the build's target, empty when none. */
  function PackageOf(b: Build): string
  {
    PackageName(b.project.config, b.targetSys)
  }

  function TarPath(b: Build): string
  {
    ArtifactDir(b) + "/output.tar"
  }

  /** The address `Download` serves for a finished build: the tar archive
      of the output directory when no package is configured for the target,
      and the package file otherwise. */
  function ArtifactAddress(b: Build): string
  {
    if |PackageOf(b)| == 0 then TarPath(b) else ArtifactDir(b) + "/" + PackageOf(b)
  }

  /** `Download`. `files` are the paths that exist, `tarCreated` whether
      creating a missing archive succeeds. A build above Fail gets its
      artifact address, unless the archive is missing and cannot be made,
      which redirects to the build page; any other build gets an empty
      JSON value or the build page. */
  function Download(b: Build, json: bool, basePath: string, files: set<string>, tarCreated: bool): (r: Reply)
  {
    if b.state > Fail then
      if |PackageOf(b)| == 0 && basePath + TarPath(b) !in files && !tarCreated then
        Redirect(BuildPage(b))
      else if json then Json(ArtifactAddress(b))
      else Redirect(ArtifactAddress(b))
    else if json then Json("")
    else Redirect(BuildPage(b))
  }

  /** The reply hands out the given address. */
  predicate Serves(r: Reply, addr: string)
  {
    r == Json(addr) || r == Redirect(addr)
  }

  lemma AddressIsNotPage(b: Build)
    ensures ArtifactAddress(b) != BuildPage(b) && ArtifactAddress(b) != ""
  {
    var a, p := ArtifactAddress(b), BuildPage(b);
    assert a[..2] == "/p" && a[2] == 'u';
    assert p[2] == 'r';
  }

  /** A build's artifact is handed out exactly when its state is above
      Fail and the artifact is there: a configured package, an existing
      archive, or one that can be made. */
  lemma DownloadGate(b: Build, json: bool, basePath: string, files: set<string>, tarCreated: bool)
    ensures Serves(Download(b, json, basePath, files, tarCreated), ArtifactAddress(b))
        <==> b.state > Fail && (|PackageOf(b)| > 0 || basePath + TarPath(b) in files || tarCreated)
  {
    AddressIsNotPage(b);
  }

  /** An answer that is not the artifact is the refusal the format calls
      for: the empty JSON value only for a build at or below Fail, the build
      page otherwise. */
  lemma DownloadRefusal(b: Build, json: bool, basePath: string, files: set<string>, tarCreated: bool)
    requires !Serves(Download(b, json, basePath, files, tarCreated), ArtifactAddress(b))
    ensures Download(b, json, basePath, files, tarCreated) == Json("") ==> json && b.state <= Fail
    ensures Download(b, json, basePath, files, tarCreated) != Json("") ==>
      Download(b, json, basePath, files, tarCreated) == Redirect(BuildPage(b))
  {
  }

  /** The gate looks at the state and not at the revision. */
  lemma DownloadIgnoresCommit(b: Build, commit: string, json: bool, basePath: string, files: set<string>, tarCreated: bool)
    ensures Download(b.(commit := commit), json, basePath, files, tarCreated) == Download(b, json, basePath, files, tarCreated)
  {
  }

  /** Every downloadable build passes the gate, but so does a refresh job
      that succeeded, which `IsDownloadable` rejects. */
  lemma GateWiderThanDownloadable(b: Build)
    ensures IsDownloadable(b) ==> b.state > Fail
    ensures b.commit == RefreshJob && b.state == Success ==> !IsDownloadable(b) && b.state > Fail
  {
  }

  /** A failed lookup never hands out an artifact. */
  lemma MissingBuildRefused(json: bool, basePath: string, files: set<string>, tarCreated: bool)
    ensures Download(Lookup(None), json, basePath, files, tarCreated) == (if json then Json("") else Redirect("/projects//builds/"))
  {
    assert BuildPage(ZeroBuild) == "/projects/" + "" + "/builds/" + "";
  }

  lemma PathNested(base: string, name: string, date: string, sys: string)
    ensures base + ("/public/output/" + name + "/" + date + "/" + sys)
         == base + "/public/output/" + name + "/" + date + "/" + sys
  {
  }

  /** The artifact lives in the output directory the worker mounts as the
      container's `/output`: the archive under its fixed name, a package
      under its configured one. */
  lemma ArtifactInOutputDir(basePath: string, b: Build)
    ensures basePath + ArtifactDir(b) == OutputDir(basePath, b)
    ensures basePath + ArtifactAddress(b)
         == OutputDir(basePath, b) + "/" + (if |PackageOf(b)| == 0 then "output.tar" else PackageOf(b))
  {
    PathNested(basePath, b.project.name, IntStr(b.date), b.targetSys);
    var d := ArtifactDir(b);
    var s := if |PackageOf(b)| == 0 then "output.tar" else PackageOf(b);
    assert ArtifactAddress(b) == d + "/" + s;
    assert basePath + (d + "/" + s) == (basePath + d) + "/" + s;
  }

  /** `Detail`'s log file, `<base>/public/output/<name>/<Date.Unix>/<TargetSys>/logs.txt`. */
  function LogsPath(basePath: string, b: Build): string
  {
    basePath + "/public/output/" + b.project.name + "/" + IntStr(b.date) + "/" + b.targetSys + "/logs.txt"
  }

  /** What `Detail` renders. */
  datatype Page = ErrorPage | BuildJson(build: Build) | BuildDetail(build: Build, logContent: string)

  /** `Detail`: the error page when the lookup fails, the record as JSON
      when asked for, otherwise the record and its log, empty when the log
      cannot be read. `logs` maps each readable file to its content. */
  function Detail(found: Option<Build>, json: bool, basePath: string, logs: map<string, string>): (p: Page)
  {
    if found.None? then ErrorPage
    else if json then BuildJson(found.value)
    else
      var path := LogsPath(basePath, found.value);
      BuildDetail(found.value, if path in logs then logs[path] else "")
  }

  /** `Detail` reads the log the worker creates in the build's output
      directory. */
  lemma DetailReadsWorkerLog(b: Build, basePath: string, logs: map<string, string>)
    ensures LogsPath(basePath, b) == OutputDir(basePath, b) + "/logs.txt"
    ensures var p := Detail(Some(b), false, basePath, logs);
      && p.BuildDetail? && p.build == b
      && p.logContent == (if OutputDir(basePath, b) + "/logs.txt" in logs then logs[OutputDir(basePath, b) + "/logs.txt"] else "")
  {
  }

  /** What `Deploy` does: whether it starts the deployment, and where it
      redirects. */
  datatype DeployReply = DeployReply(launched: bool, redirect: string)

  function Deploy(b: Build): (r: DeployReply)
  {
    DeployReply(b.state > Fail, BuildPage(b))
  }

  /** Deployment starts only for a build that succeeded, with or without
      the fallback image, whatever its revision: exactly when Download's
      `State > Fail` gate passes, so exactly when Download serves an archive
      it can make. Every answer goes back to the build's page. */
  lemma DeployGate(b: Build, commit: string)
    requires IsEnumValue(b.state)
    ensures Deploy(b).launched <==> b.state == Success || b.state == FallbackSuccess
    ensures Deploy(b).launched <==> b.state > Fail
    ensures Deploy(b.(commit := commit)).launched == Deploy(b).launched
    ensures Deploy(b).redirect == BuildPage(b)
    ensures Deploy(b).launched <==> Serves(Download(b, true, "", {}, true), ArtifactAddress(b))
  {
    DownloadGate(b, true, "", {}, true);
  }
}

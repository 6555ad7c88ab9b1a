/** `GerritManager` (app/controllers/gerritManager.go): the open changes of
    a project, as the git refs their latest patch sets live under. The
    Gerrit server is an input that answers a query sent to an address. */
module Gerrit {
  import opened Text
  import opened Projects

  /** What the server reports of a change: its number and how many
      revisions (patch sets) it has. */
  datatype Change = Change(number: int, revisions: nat)

  /** The answer to `QueryChanges`. */
  datatype QueryReply = Changes(changes: seq<Change>) | QueryError(message: string)

  /** The query for the open changes of a project. */
  function Query(project: string): (q: string)
  {
    "project:" + project + " status:open"
  }

  /** The query has two space-separated terms, the project and the status,
      whenever the project name has no space in it. */
  lemma QueryTerms(project: string)
    requires ' ' !in project
    ensures Split(Query(project), ' ') == ["project:" + project, "status:open"]
  {
    var a := "project:" + project;
    assert ' ' !in a by {
      assert ' ' !in "project:";
      NotInConcat("project:", project, ' ');
    }
    SplitNoSep("status:open", ' ');
    SplitAtFirst(a, "status:open", ' ');
    QueryShape(project);
  }

  lemma QueryShape(project: string)
    ensures Query(project) == "project:" + project + [' '] + "status:open"
  {
    assert " status:open" == [' '] + "status:open";
  }

  lemma NotInConcat(x: string, y: string, c: char)
    requires c !in x && c !in y
    ensures c !in x + y
  {
  }

  /** `refs/changes/%02d/%d/%d` of the change number modulo 100 (Go's
      truncating remainder), the change number and its revision count. */
  function ChangeRef(c: Change): (r: string)
  {
    "refs/changes/" + Pad2(GoRem100(c.number)) + "/" + IntStr(c.number) + "/" + NatStr(c.revisions)
  }

  /** Reads a change ref back: five `/`-separated fields, the third agreeing
      with the number in the fourth. */
  function ParseChangeRef(s: string): Option<Change>
  {
    var parts := Split(s, '/');
    if |parts| == 5 && parts[0] == "refs" && parts[1] == "changes" then
      match (ParseInt(parts[3]), ParseNat(parts[4]))
      case (Some(n), Some(r)) => if parts[2] == Pad2(GoRem100(n)) then Some(Change(n, r)) else None
      case _ => None
    else None
  }

  lemma NoSlash(s: string)
    requires forall k :: 0 <= k < |s| ==> IsDigit(s[k]) || s[k] == '-'
    ensures '/' !in s
  {
    forall k | 0 <= k < |s| ensures s[k] != '/' {
      assert IsDigit(s[k]) || s[k] == '-';
    }
  }

  /** Splitting five separator-free pieces joined by the separator. */
  lemma SplitFive(a: string, b: string, c: string, d: string, e: string, sep: char)
    requires sep !in a && sep !in b && sep !in c && sep !in d && sep !in e
    ensures Split(a + [sep] + (b + [sep] + (c + [sep] + (d + [sep] + e))), sep) == [a, b, c, d, e]
  {
    SplitNoSep(e, sep);
    SplitAtFirst(d, e, sep);
    SplitAtFirst(c, d + [sep] + e, sep);
    SplitAtFirst(b, c + [sep] + (d + [sep] + e), sep);
    SplitAtFirst(a, b + [sep] + (c + [sep] + (d + [sep] + e)), sep);
  }

  lemma RefNested(p: string, n: string, r: string)
    ensures "refs/changes/" + p + "/" + n + "/" + r
         == "refs" + ['/'] + ("changes" + ['/'] + (p + ['/'] + (n + ['/'] + r)))
  {
    var t3 := n + ['/'] + r;
    var t2 := p + ['/'] + t3;
    assert p + "/" + n + "/" + r == t2;
    var t1 := "changes" + ['/'] + t2;
    assert "refs/changes/" == "refs" + ['/'] + "changes" + ['/'];
    assert "refs/changes/" + t2 == "refs" + ['/'] + t1;
  }

  /** The fields of a change ref. */
  lemma ChangeRefFields(c: Change)
    ensures Split(ChangeRef(c), '/')
         == ["refs", "changes", Pad2(GoRem100(c.number)), IntStr(c.number), NatStr(c.revisions)]
  {
    NoSlash(Pad2(GoRem100(c.number)));
    NoSlash(IntStr(c.number));
    NoSlash(NatStr(c.revisions));
    RefNested(Pad2(GoRem100(c.number)), IntStr(c.number), NatStr(c.revisions));
    SplitFive("refs", "changes", Pad2(GoRem100(c.number)), IntStr(c.number), NatStr(c.revisions), '/');
  }

  /** A change ref gives back the change it was made from. */
  lemma ChangeRefRoundTrip(c: Change)
    ensures ParseChangeRef(ChangeRef(c)) == Some(c)
  {
    ChangeRefFields(c);
    IntStrRoundTrip(c.number);
    NatStrRoundTrip(c.revisions);
  }

  /** Different changes have different refs. */
  lemma ChangeRefInjective(a: Change, b: Change)
    ensures ChangeRef(a) == ChangeRef(b) <==> a == b
  {
    ChangeRefRoundTrip(a);
    ChangeRefRoundTrip(b);
  }

  /** For a non-negative change number the third field is exactly two
      characters: the number's last two decimal digits, a single digit
      number getting a leading zero. */
  lemma ChangeRefShard(c: Change)
    requires c.number >= 0
    ensures |Split(ChangeRef(c), '/')| == 5
    ensures var shard := Split(ChangeRef(c), '/')[2];
      && |shard| == 2
      && shard == ("0" + NatStr(c.number))[|NatStr(c.number)| - 1..]
  {
    ChangeRefFields(c);
    Pad2IsLastTwoDigits(c.number);
  }

  /** `f` applied to each element, in order. */
  function Map<T, U>(f: T -> U, xs: seq<T>): (r: seq<U>)
    ensures |r| == |xs|
    decreases |xs|
  {
    if |xs| == 0 then [] else Map(f, xs[..|xs| - 1]) + [f(xs[|xs| - 1])]
  }

  lemma {:induction false} MapAt<T, U>(f: T -> U, xs: seq<T>)
    ensures forall i :: 0 <= i < |xs| ==> Map(f, xs)[i] == f(xs[i])
    decreases |xs|
  {
    if |xs| > 0 {
      var init := xs[..|xs| - 1];
      MapAt(f, init);
      forall i | 0 <= i < |xs|
        ensures Map(f, xs)[i] == f(xs[i])
      {
        if i < |init| {
          assert xs[i] == init[i];
        }
      }
    }
  }

  /** The formatting loop of `GetOpenChanges`. */
  method FormatChanges(changes: seq<Change>) returns (refs: seq<string>)
    ensures refs == Map(ChangeRef, changes)
  {
    refs := [];
    for i := 0 to |changes|
      invariant refs == Map(ChangeRef, changes[..i])
    {
      assert changes[..i + 1][..i] == changes[..i];
      refs := refs + [ChangeRef(changes[i])];
    }
    assert changes[..|changes|] == changes;
  }

  class GerritManager {
    /** The address the client talks to. */
    var reviewAddress: string
    var project: string

    /** The zero value a `GerritManager` starts with. */
    constructor ()
      ensures reviewAddress == "" && project == ""
    {
      reviewAddress := "";
      project := "";
    }

    /** `Init`: a client for the project's review server, and its name. */
    method Init(p: Project)
      modifies this
      ensures reviewAddress == p.config.reviewAddress && project == p.name
    {
      reviewAddress := p.config.reviewAddress;
      project := p.name;
    }

    /** `GetOpenChanges`: the refs of the open changes, one per change and
        in the server's order; a query error gives no refs and the error. */
    method GetOpenChanges(server: (string, string) -> QueryReply) returns (refs: seq<string>, err: Option<string>)
      ensures server(reviewAddress, Query(project)).QueryError? ==>
        refs == [] && err == Some(server(reviewAddress, Query(project)).message)
      ensures server(reviewAddress, Query(project)).Changes? ==>
        var cs := server(reviewAddress, Query(project)).changes;
        && err == None
        && |refs| == |cs|
        && forall i :: 0 <= i < |cs| ==> refs[i] == ChangeRef(cs[i])
    {
      var query := Query(project);
      var reply := server(reviewAddress, query);
      if reply.QueryError? {
        return [], Some(reply.message);
      }
      refs := FormatChanges(reply.changes);
      MapAt(ChangeRef, reply.changes);
      err := None;
    }
  }
}

/** Issue and pull-request references derived from a github.com URL: the two URL patterns,
    `resolveRepoItemRef`, and the closed `RepoItemRefType` enum. */
module RepoItems {
  import opened Wrappers
  import Json

  /** `RepoItemRefType`: the singular and plural resource names of an item kind. */
  datatype RepoItemRefType = RepoItemRefType(singular: string, plural: string)
  {
    /** `RepoItemRefType.MarshalJSON`: the singular name. Both constants round-trip through
        `UnmarshalJSON`, whatever the receiver held. */
    function MarshalJSON(): (r: Json.Value)
      ensures Json.DecodeString(r) == Success(singular)
      ensures this == Issue || this == Pull ==>
                forall recv: RepoItemRefType :: recv.UnmarshalJSON(r) == Json.Unmarshalled(this, None)
    {
      Json.Str(singular)
    }

    /** `(*RepoItemRefType).UnmarshalJSON` with `this` as the receiver before the call: accepts
        exactly "issue" and "pull" and fills in the matching plural; anything else is an error
        and leaves the receiver as it was. */
    function UnmarshalJSON(data: Json.Value): (r: Json.Unmarshalled<RepoItemRefType>)
      ensures r.err.None? <==> data == Json.Str("issue") || data == Json.Str("pull")
      ensures data == Json.Str("issue") ==> r.receiver == Issue
      ensures data == Json.Str("pull") ==> r.receiver == Pull
      ensures r.err.Some? ==> r.receiver == this
      ensures !data.NonString? && r.err.Some? ==>
                r.err == Some("invalid repo item ref type: " + Json.DecodeString(data).value)
      ensures data.NonString? ==> r.err == Some(Json.NotAStringError)
    {
      match Json.DecodeString(data)
      case Failure(e) => Json.Unmarshalled(this, Some(e))
      case Success(s) =>
        if s == Issue.singular then Json.Unmarshalled(RepoItemRefType(s, Issue.plural), None)
        else if s == Pull.singular then Json.Unmarshalled(RepoItemRefType(s, Pull.plural), None)
        else Json.Unmarshalled(this, Some("invalid repo item ref type: " + s))
    }
  }

  const Issue: RepoItemRefType := RepoItemRefType("issue", "issues")
  const Pull: RepoItemRefType := RepoItemRefType("pull", "pulls")

  /** `repoItemRef`: an issue or pull request named by a URL. */
  datatype RepoItemRef = RepoItemRef(
    kind: RepoItemRefType, owner: string, repo: string, number: int, page: string, hash: string,
    url: string, api: string)

  /** `Issue` and `PullRequest` embed a `repoItemRef`. */
  datatype IssueRef = IssueRef(item: RepoItemRef)
  datatype PullRequestRef = PullRequestRef(item: RepoItemRef)

  /** Largest value of Go's 64-bit `int`. */
  const MaxInt: int := 0x7fff_ffff_ffff_ffff

  // ---------------------------------------------------------------------------------------
  // The patterns
  //   issueRe: https://github.com/(?P<owner>[^/]+)/(?P<repo>[^/]+)/issues/(?P<number>\d+)(?:#(?P<hash>.+))?
  //   pullRe:  https://github.com/(?P<owner>[^/]+)/(?P<repo>[^/]+)/pull/(?P<number>\d+)
  //              (?:/(?P<page>commits|checks|files))?(?:#(?P<hash>.+))?
  // are unanchored searches. Their `.` in "github.com" matches any character but a newline,
  // `[^/]+` matches any run of non-slash characters, `\d` is an ASCII digit, and the hash's
  // `.+` runs up to the first newline. At a given start position every group is determined
  // (each `[^/]+` must stop at the next '/', the greedy `\d+` and the optional suffixes take as
  // much as they can), so a search is the first start position where an anchored match exists.
  // ---------------------------------------------------------------------------------------

  /** Captured groups of one match; a group that did not take part is "". */
  datatype Groups = Groups(owner: string, repo: string, number: string, page: string, hash: string)

  /** The literal "https://github" at `i`, one non-newline character, then "com/". */
  predicate HostAt(s: string, i: nat)
  {
    && i + 19 <= |s|
    && s[i..i + 14] == "https://github"
    && s[i + 14] != '\n'
    && s[i + 15..i + 19] == "com/"
  }

  /** End of the run of characters other than `stop` starting at `p`: `[^/]+` stops at a
      '/', and the hash group's `.+` at a newline. */
  function RunEnd(s: string, p: nat, stop: char): (q: nat)
    requires p <= |s|
    ensures p <= q <= |s|
    ensures q < |s| ==> s[q] == stop
    ensures forall k :: p <= k < q ==> s[k] != stop
    decreases |s| - p
  {
    if p == |s| || s[p] == stop then p else RunEnd(s, p + 1, stop)
  }

  predicate IsDigit(c: char)
  {
    '0' <= c <= '9'
  }

  /** End of the run of ASCII digits starting at `p`. */
  function DigitsEnd(s: string, p: nat): (q: nat)
    requires p <= |s|
    ensures p <= q <= |s|
    ensures q < |s| ==> !IsDigit(s[q])
    ensures forall k :: p <= k < q ==> IsDigit(s[k])
    decreases |s| - p
  {
    if p == |s| || !IsDigit(s[p]) then p else DigitsEnd(s, p + 1)
  }

  /** The optional `#(?P<hash>.+)` suffix at `p`. */
  function HashAt(s: string, p: nat): string
    requires p <= |s|
  {
    if p + 1 < |s| && s[p] == '#' && s[p + 1] != '\n' then s[p + 1..RunEnd(s, p + 1, '\n')] else ""
  }

  /** `s[p..]` begins with `lit`. */
  predicate LiteralAt(s: string, p: nat, lit: string)
  {
    p + |lit| <= |s| && s[p..p + |lit|] == lit
  }

  /** The optional `/(?P<page>commits|checks|files)` suffix at `p`. */
  function PageAt(s: string, p: nat): string
  {
    if LiteralAt(s, p, "/commits") then "commits"
    else if LiteralAt(s, p, "/checks") then "checks"
    else if LiteralAt(s, p, "/files") then "files"
    else ""
  }

  /** Owner and repo segments after the host at `i`: the end of the repo segment, which is
      followed by a '/', or `None`. */
  function OwnerRepoAt(s: string, i: nat): (r: Option<(nat, nat)>)
    requires HostAt(s, i)
    ensures r.Some? ==> i + 19 < r.value.0 && r.value.0 + 1 < r.value.1 < |s| && s[r.value.1] == '/'
  {
    var o1 := RunEnd(s, i + 19, '/');
    if o1 == i + 19 || o1 == |s| then None
    else
      var r1 := RunEnd(s, o1 + 1, '/');
      if r1 == o1 + 1 || r1 == |s| then None else Some((o1, r1))
  }

  /** Anchored match of `issueRe` at `i`. */
  function IssueMatchAt(s: string, i: nat): Option<Groups>
  {
    if !HostAt(s, i) || OwnerRepoAt(s, i).None? then None
    else
      var o1, r1 := OwnerRepoAt(s, i).value.0, OwnerRepoAt(s, i).value.1;
      if !LiteralAt(s, r1, "/issues/") then None
      else
        var n1 := DigitsEnd(s, r1 + 8);
        if n1 == r1 + 8 then None
        else Some(Groups(s[i + 19..o1], s[o1 + 1..r1], s[r1 + 8..n1], "", HashAt(s, n1)))
  }

  /** Anchored match of `pullRe` at `i`. */
  function PullMatchAt(s: string, i: nat): Option<Groups>
  {
    if !HostAt(s, i) || OwnerRepoAt(s, i).None? then None
    else
      var o1, r1 := OwnerRepoAt(s, i).value.0, OwnerRepoAt(s, i).value.1;
      if !LiteralAt(s, r1, "/pull/") then None
      else
        var n1 := DigitsEnd(s, r1 + 6);
        if n1 == r1 + 6 then None
        else
          var page := PageAt(s, n1);
          var h := if page == "" then n1 else n1 + 1 + |page|;
          assert h <= |s|;
          Some(Groups(s[i + 19..o1], s[o1 + 1..r1], s[r1 + 6..n1], page, HashAt(s, h)))
  }

  /** `issueRe.FindStringSubmatch` from start position `i` on: the leftmost match. */
  function FindIssue(s: string, i: nat): (r: Option<Groups>)
    decreases |s| - i
  {
    if i >= |s| then None
    else if IssueMatchAt(s, i).Some? then IssueMatchAt(s, i)
    else FindIssue(s, i + 1)
  }

  /** `pullRe.FindStringSubmatch` from start position `i` on: the leftmost match. */
  function FindPull(s: string, i: nat): (r: Option<Groups>)
    decreases |s| - i
  {
    if i >= |s| then None
    else if PullMatchAt(s, i).Some? then PullMatchAt(s, i)
    else FindPull(s, i + 1)
  }

  /** Decimal value of a digit string. */
  function DigitsValue(d: string): (n: nat)
    requires forall k :: 0 <= k < |d| ==> IsDigit(d[k])
  {
    if |d| == 0 then 0
    else
      var c := d[|d| - 1];
      assert IsDigit(c);
      DigitsValue(d[..|d| - 1]) * 10 + (c as int - '0' as int)
  }

  /** `strconv.Atoi` on a non-empty digit string: its value, or a range error above `MaxInt`. */
  function Atoi(d: string): (r: Result<int, string>)
    requires forall k :: 0 <= k < |d| ==> IsDigit(d[k])
    ensures r.Success? <==> DigitsValue(d) <= MaxInt
    ensures r.Success? ==> 0 <= r.value == DigitsValue(d)
  {
    var n := DigitsValue(d);
    if n > MaxInt then Failure("strconv.Atoi: value out of range") else Success(n)
  }

  /** Canonical web URL: `https://github.com/{owner}/{repo}/{plural}/{number}`. */
  function WebUrl(kind: RepoItemRefType, owner: string, repo: string, number: string): string
  {
    "https://github.com/" + owner + "/" + repo + "/" + kind.plural + "/" + number
  }

  /** Canonical API URL: `https://api.github.com/repos/{owner}/{repo}/{plural}/{number}`. */
  function ApiUrl(kind: RepoItemRefType, owner: string, repo: string, number: string): string
  {
    "https://api.github.com/repos/" + owner + "/" + repo + "/" + kind.plural + "/" + number
  }

  /** A set of groups as a match produces them: non-empty slash-free owner and repo, a
      non-empty digit string. */
  predicate WellFormed(g: Groups)
  {
    && |g.owner| > 0 && '/' !in g.owner
    && |g.repo| > 0 && '/' !in g.repo
    && |g.number| > 0 && (forall k :: 0 <= k < |g.number| ==> IsDigit(g.number[k]))
  }

  lemma {:induction false} IssueMatchWellFormed(s: string, i: nat)
    requires IssueMatchAt(s, i).Some?
    ensures WellFormed(IssueMatchAt(s, i).value) && IssueMatchAt(s, i).value.page == ""
  {
    var o1 := OwnerRepoAt(s, i).value.0;
    var r1 := OwnerRepoAt(s, i).value.1;
    var g := IssueMatchAt(s, i).value;
    assert g.owner == s[i + 19..o1];
    assert g.repo == s[o1 + 1..r1];
    assert forall k :: 0 <= k < |g.owner| ==> g.owner[k] == s[i + 19 + k];
    assert forall k :: 0 <= k < |g.repo| ==> g.repo[k] == s[o1 + 1 + k];
  }

  lemma {:induction false} PullMatchWellFormed(s: string, i: nat)
    requires PullMatchAt(s, i).Some?
    ensures WellFormed(PullMatchAt(s, i).value)
    ensures PullMatchAt(s, i).value.page in {"", "commits", "checks", "files"}
  {
    var o1 := OwnerRepoAt(s, i).value.0;
    var r1 := OwnerRepoAt(s, i).value.1;
    var g := PullMatchAt(s, i).value;
    assert g.owner == s[i + 19..o1];
    assert g.repo == s[o1 + 1..r1];
    assert forall k :: 0 <= k < |g.owner| ==> g.owner[k] == s[i + 19 + k];
    assert forall k :: 0 <= k < |g.repo| ==> g.repo[k] == s[o1 + 1 + k];
  }

  lemma {:induction false} FindIssueWellFormed(s: string, i: nat)
    requires FindIssue(s, i).Some?
    ensures WellFormed(FindIssue(s, i).value) && FindIssue(s, i).value.page == ""
    decreases |s| - i
  {
    if IssueMatchAt(s, i).Some? {
      IssueMatchWellFormed(s, i);
    } else {
      FindIssueWellFormed(s, i + 1);
    }
  }

  lemma {:induction false} FindPullWellFormed(s: string, i: nat)
    requires FindPull(s, i).Some?
    ensures WellFormed(FindPull(s, i).value)
    ensures FindPull(s, i).value.page in {"", "commits", "checks", "files"}
    decreases |s| - i
  {
    if PullMatchAt(s, i).Some? {
      PullMatchWellFormed(s, i);
    } else {
      FindPullWellFormed(s, i + 1);
    }
  }

  /** A match whose number group is beyond what `strconv.Atoi` accepts. */
  predicate TooLarge(g: Groups)
  {
    WellFormed(g) && DigitsValue(g.number) > MaxInt
  }

  /** The item named by a match of the pattern for `kind`. */
  function Build(kind: RepoItemRefType, g: Groups, url: string): (r: Result<RepoItemRef, string>)
    requires WellFormed(g)
  {
    match Atoi(g.number)
    case Failure(_) => Failure("invalid " + kind.singular + " url: " + url)
    case Success(n) =>
      Success(RepoItemRef(kind, g.owner, g.repo, n, g.page, g.hash,
                          WebUrl(kind, g.owner, g.repo, g.number), ApiUrl(kind, g.owner, g.repo, g.number)))
  }

  /** `resolveRepoItemRef`: the issue pattern is tried first, then the pull-request pattern;
      a URL neither matches yields no item and no error; a number too large for `int` is an
      error. */
  function ResolveRepoItemRef(url: string): (r: Result<Option<RepoItemRef>, string>)
    ensures r == Success(None) <==> FindIssue(url, 0).None? && FindPull(url, 0).None?
    ensures r.Failure? <==>
              || (FindIssue(url, 0).Some? && TooLarge(FindIssue(url, 0).value))
              || (FindIssue(url, 0).None? && FindPull(url, 0).Some? && TooLarge(FindPull(url, 0).value))
    ensures r.Failure? ==>
              || (FindIssue(url, 0).Some? && r.error == "invalid issue url: " + url)
              || (FindIssue(url, 0).None? && FindPull(url, 0).Some? && r.error == "invalid pull url: " + url)
    ensures r.Success? && r.value.Some? ==>
              var it := r.value.value;
              && (it.kind == Issue <==> FindIssue(url, 0).Some?)
              && (it.kind == Pull <==> FindIssue(url, 0).None?)
              && |it.owner| > 0 && '/' !in it.owner
              && |it.repo| > 0 && '/' !in it.repo
              && 0 <= it.number <= MaxInt
              && (it.kind == Issue ==> it.page == "")
              && it.page in {"", "commits", "checks", "files"}
              && var g := if it.kind == Issue then FindIssue(url, 0).value else FindPull(url, 0).value;
                 && g.owner == it.owner && g.repo == it.repo && g.page == it.page && g.hash == it.hash
                 && WellFormed(g) && DigitsValue(g.number) == it.number
                 && it.url == WebUrl(it.kind, it.owner, it.repo, g.number)
                 && it.api == ApiUrl(it.kind, it.owner, it.repo, g.number)
  {
    match FindIssue(url, 0)
    case Some(g) =>
      FindIssueWellFormed(url, 0);
      (match Build(Issue, g, url)
       case Failure(e) => Failure(e)
       case Success(it) => Success(Some(it)))
    case None =>
      match FindPull(url, 0)
      case Some(g) =>
        FindPullWellFormed(url, 0);
        (match Build(Pull, g, url)
         case Failure(e) => Failure(e)
         case Success(it) => Success(Some(it)))
      case None => Success(None)
  }

  /** Where the pieces of a canonical web URL sit. */
  lemma WebUrlLayout(kind: RepoItemRefType, o: string, r: string, d: string)
    ensures var s := WebUrl(kind, o, r, d);
            var o1 := 19 + |o|;
            var r1 := o1 + 1 + |r|;
            var n0 := r1 + |kind.plural| + 2;
            && |s| == n0 + |d|
            && s[..19] == "https://github.com/"
            && s[19..o1] == o
            && s[o1] == '/'
            && s[o1 + 1..r1] == r
            && s[r1..n0] == "/" + kind.plural + "/"
            && s[n0..] == d
  {
    var s := WebUrl(kind, o, r, d);
    assert s == "https://github.com/" + o + "/" + r + ("/" + kind.plural + "/") + d;
  }

  /** A run of non-slash characters from `p` that stops at a '/' at `q`. */
  lemma RunEndIs(s: string, p: nat, q: nat)
    requires p <= q < |s| && s[q] == '/'
    requires forall k :: p <= k < q ==> s[k] != '/'
    ensures RunEnd(s, p, '/') == q
  {
  }

  /** A run of digits from `p` to the end of the string. */
  lemma DigitsEndIsEnd(s: string, p: nat)
    requires p <= |s|
    requires forall k :: p <= k < |s| ==> IsDigit(s[k])
    ensures DigitsEnd(s, p) == |s|
  {
  }

  /** The host, owner and repo of a canonical web URL are found at its start. */
  lemma {:induction false} WebUrlOwnerRepo(kind: RepoItemRefType, o: string, r: string, d: string)
    requires WellFormed(Groups(o, r, d, "", "")) && |kind.plural| > 0
    ensures var s := WebUrl(kind, o, r, d);
            && HostAt(s, 0)
            && OwnerRepoAt(s, 0) == Some((19 + |o|, 20 + |o| + |r|))
  {
    var s := WebUrl(kind, o, r, d);
    WebUrlLayout(kind, o, r, d);
    var o1 := 19 + |o|;
    var r1 := o1 + 1 + |r|;
    var n0 := r1 + |kind.plural| + 2;
    assert s[..14] == "https://github" by { assert s[..14] == s[..19][..14]; }
    assert s[15..19] == "com/" by { assert s[15..19] == s[..19][15..19]; }
    assert HostAt(s, 0);
    assert s[o1] == '/';
    assert forall k :: 19 <= k < o1 ==> s[k] != '/' by {
      forall k | 19 <= k < o1 ensures s[k] != '/' {
        assert s[k] == s[19..o1][k - 19];
      }
    }
    RunEndIs(s, 19, o1);
    assert s[r1] == '/' by { assert s[r1] == s[r1..n0][0]; }
    assert forall k :: o1 + 1 <= k < r1 ==> s[k] != '/' by {
      forall k | o1 + 1 <= k < r1 ensures s[k] != '/' {
        assert s[k] == s[o1 + 1..r1][k - o1 - 1];
      }
    }
    RunEndIs(s, o1 + 1, r1);
  }

  /** The anchored issue pattern on a string laid out as host, owner, repo, "/issues/" and
      digits up to the end. */
  lemma IssueMatchAtStart(s: string, o1: nat, r1: nat)
    requires HostAt(s, 0) && OwnerRepoAt(s, 0) == Some((o1, r1))
    requires LiteralAt(s, r1, "/issues/") && r1 + 8 < |s| && DigitsEnd(s, r1 + 8) == |s|
    ensures IssueMatchAt(s, 0) == Some(Groups(s[19..o1], s[o1 + 1..r1], s[r1 + 8..], "", ""))
  {
    assert HashAt(s, |s|) == "";
    assert s[r1 + 8..|s|] == s[r1 + 8..];
  }

  /** The pieces of a canonical issue URL the anchored issue pattern looks for. */
  lemma IssueWebUrlShape(o: string, r: string, d: string)
    requires WellFormed(Groups(o, r, d, "", ""))
    ensures var s := WebUrl(Issue, o, r, d);
            var o1 := 19 + |o|;
            var r1 := o1 + 1 + |r|;
            && HostAt(s, 0) && OwnerRepoAt(s, 0) == Some((o1, r1))
            && LiteralAt(s, r1, "/issues/") && r1 + 8 < |s| && DigitsEnd(s, r1 + 8) == |s|
            && s[19..o1] == o && s[o1 + 1..r1] == r && s[r1 + 8..] == d
  {
    var s := WebUrl(Issue, o, r, d);
    var o1 := 19 + |o|;
    var r1 := o1 + 1 + |r|;
    var n0 := r1 + 8;
    assert HostAt(s, 0) && OwnerRepoAt(s, 0) == Some((o1, r1)) by {
      WebUrlOwnerRepo(Issue, o, r, d);
    }
    assert |s| == n0 + |d| && s[19..o1] == o && s[o1 + 1..r1] == r && s[n0..] == d
        && LiteralAt(s, r1, "/issues/") by {
      WebUrlLayout(Issue, o, r, d);
    }
    DigitsTail(s, n0);
  }

  /** A text whose tail from `p` is all digits has its digit run end at its end. */
  lemma DigitsTail(s: string, p: nat)
    requires p <= |s| && forall k :: 0 <= k < |s[p..]| ==> IsDigit(s[p..][k])
    ensures DigitsEnd(s, p) == |s|
  {
    forall k | p <= k < |s| ensures IsDigit(s[k]) {
      assert s[k] == s[p..][k - p];
    }
    DigitsEndIsEnd(s, p);
  }

  /** The anchored issue pattern matches a canonical issue URL at its start, capturing the
      owner, repo and number it was built from and no hash. */
  lemma IssueWebUrlMatches(o: string, r: string, d: string)
    requires WellFormed(Groups(o, r, d, "", ""))
    ensures IssueMatchAt(WebUrl(Issue, o, r, d), 0) == Some(Groups(o, r, d, "", ""))
  {
    IssueWebUrlShape(o, r, d);
    IssueMatchAtStart(WebUrl(Issue, o, r, d), 19 + |o|, 20 + |o| + |r|);
  }

  /** Canonicalising an issue URL is idempotent: resolving the canonical web URL of a resolved
      issue gives the same issue, without the hash fragment. */
  lemma {:induction false} IssueWebUrlRoundTrip(url: string)
    requires ResolveRepoItemRef(url).Success? && ResolveRepoItemRef(url).value.Some?
    requires ResolveRepoItemRef(url).value.value.kind == Issue
    ensures var it := ResolveRepoItemRef(url).value.value;
            ResolveRepoItemRef(it.url) == Success(Some(it.(hash := "")))
  {
    var it := ResolveRepoItemRef(url).value.value;
    var g := FindIssue(url, 0).value;
    var s := it.url;
    assert s == WebUrl(Issue, g.owner, g.repo, g.number);
    IssueWebUrlMatches(g.owner, g.repo, g.number);
    assert FindIssue(s, 0) == Some(Groups(g.owner, g.repo, g.number, "", ""));
  }

  /** After the scheme, a canonical web URL never has two slashes in a row. */
  lemma WebUrlNoDoubleSlash(kind: RepoItemRefType, o: string, r: string, d: string)
    requires WellFormed(Groups(o, r, d, "", "")) && |kind.plural| > 0 && '/' !in kind.plural
    ensures var s := WebUrl(kind, o, r, d);
            forall k :: 7 <= k && k + 1 < |s| ==> !(s[k] == '/' && s[k + 1] == '/')
  {
    WebUrlLayout(kind, o, r, d);
    LayoutNoDoubleSlash(WebUrl(kind, o, r, d), o, r, kind.plural, d);
  }

  /** The slash pattern of any text laid out as host, owner, repo, plural and number. */
  lemma LayoutNoDoubleSlash(s: string, o: string, r: string, plural: string, d: string)
    requires |o| > 0 && '/' !in o && |r| > 0 && '/' !in r && |plural| > 0 && '/' !in plural
    requires |d| > 0 && forall k :: 0 <= k < |d| ==> IsDigit(d[k])
    requires var o1 := 19 + |o|;
             var r1 := o1 + 1 + |r|;
             var n0 := r1 + |plural| + 2;
             && |s| == n0 + |d|
             && s[..19] == "https://github.com/"
             && s[19..o1] == o
             && s[o1] == '/'
             && s[o1 + 1..r1] == r
             && s[r1..n0] == "/" + plural + "/"
             && s[n0..] == d
    ensures forall k :: 7 <= k && k + 1 < |s| ==> !(s[k] == '/' && s[k + 1] == '/')
  {
    var o1 := 19 + |o|;
    var r1 := o1 + 1 + |r|;
    var n0 := r1 + |plural| + 2;
    var mid := "/" + plural + "/";
    forall k | 7 <= k && k + 1 < |s|
      ensures !(s[k] == '/' && s[k + 1] == '/')
    {
      if k < 18 {
        assert s[k] == s[..19][k] && s[k + 1] == s[..19][k + 1];
      } else if k == 18 {
        assert s[19] == s[19..o1][0];
      } else if k < o1 {
        assert s[k] == s[19..o1][k - 19];
      } else if k == o1 {
        assert s[o1 + 1] == s[o1 + 1..r1][0];
      } else if k < r1 {
        assert s[k] == s[o1 + 1..r1][k - o1 - 1];
      } else if k < n0 - 2 {
        assert s[k + 1] == s[r1..n0][k + 1 - r1] == mid[k + 1 - r1] == plural[k - r1];
      } else if k == n0 - 2 {
        assert s[k] == s[r1..n0][k - r1] == mid[k - r1] == plural[k - r1 - 1];
      } else if k == n0 - 1 {
        assert s[k + 1] == s[n0..][0] == d[0];
      } else {
        assert s[k] == s[n0..][k - n0] == d[k - n0];
      }
    }
  }

  /** The host pattern puts two slashes at offsets 6 and 7 of a match. */
  lemma HostAtSlashes(s: string, i: nat)
    requires HostAt(s, i)
    ensures s[i + 6] == '/' && s[i + 7] == '/'
  {
    assert s[i + 6] == s[i..i + 14][6];
    assert s[i + 7] == s[i..i + 14][7];
  }

  /** Neither pattern can start anywhere but at the very beginning of such a string. */
  lemma NoHostLater(s: string, i: nat)
    requires forall k :: 7 <= k && k + 1 < |s| ==> !(s[k] == '/' && s[k + 1] == '/')
    requires 1 <= i
    ensures !HostAt(s, i)
  {
    if HostAt(s, i) {
      HostAtSlashes(s, i);
    }
  }

  /** No start position at or after `i` yields a match of either pattern. */
  lemma {:induction false} NoMatchFrom(s: string, i: nat)
    requires forall k :: 7 <= k && k + 1 < |s| ==> !(s[k] == '/' && s[k + 1] == '/')
    requires i >= 1 || (IssueMatchAt(s, 0).None? && PullMatchAt(s, 0).None?)
    ensures FindIssue(s, i).None? && FindPull(s, i).None?
    decreases |s| - i
  {
    if i < |s| {
      if i >= 1 {
        NoHostLater(s, i);
      }
      NoMatchFrom(s, i + 1);
    }
  }

  /** Where the path continues with "/pulls/", neither anchored pattern matches at the start. */
  lemma PullsNoMatchAtStart(s: string, o1: nat, r1: nat)
    requires HostAt(s, 0) && OwnerRepoAt(s, 0) == Some((o1, r1))
    requires r1 + 7 <= |s| && s[r1..r1 + 7] == "/pulls/"
    ensures IssueMatchAt(s, 0).None? && PullMatchAt(s, 0).None?
  {
    assert s[r1 + 1] == s[r1..r1 + 7][1];
    assert s[r1 + 5] == s[r1..r1 + 7][5];
    if r1 + 8 <= |s| {
      assert s[r1..r1 + 8][1] == s[r1 + 1] == 'p';
      assert s[r1..r1 + 8] != "/issues/";
    }
    assert !LiteralAt(s, r1, "/issues/");
    assert !LiteralAt(s, r1, "/pull/") by {
      assert s[r1..r1 + 6][5] == s[r1 + 5];
    }
  }

  /** Neither pattern matches anywhere in the canonical web URL of a pull request. */
  lemma PullWebUrlNoMatch(o: string, r: string, d: string)
    requires WellFormed(Groups(o, r, d, "", ""))
    ensures FindIssue(WebUrl(Pull, o, r, d), 0).None? && FindPull(WebUrl(Pull, o, r, d), 0).None?
  {
    var s := WebUrl(Pull, o, r, d);
    var r1 := 20 + |o| + |r|;
    assert IssueMatchAt(s, 0).None? && PullMatchAt(s, 0).None? by {
      assert HostAt(s, 0) && OwnerRepoAt(s, 0) == Some((19 + |o|, r1)) by {
        WebUrlOwnerRepo(Pull, o, r, d);
      }
      assert r1 + 7 <= |s| && s[r1..r1 + 7] == "/pulls/" by {
        WebUrlLayout(Pull, o, r, d);
      }
      PullsNoMatchAtStart(s, 19 + |o|, r1);
    }
    WebUrlNoDoubleSlash(Pull, o, r, d);
    NoMatchFrom(s, 0);
  }

  /** The canonical web URL of a pull request uses the plural "pulls", which the pull-request
      pattern ("/pull/") does not accept: resolving it finds neither an issue nor a pull
      request. */
  lemma PullWebUrlUnresolved(url: string)
    requires ResolveRepoItemRef(url).Success? && ResolveRepoItemRef(url).value.Some?
    requires ResolveRepoItemRef(url).value.value.kind == Pull
    ensures ResolveRepoItemRef(ResolveRepoItemRef(url).value.value.url) == Success(None)
  {
    var it := ResolveRepoItemRef(url).value.value;
    var g := FindPull(url, 0).value;
    assert it.url == WebUrl(Pull, g.owner, g.repo, g.number);
    PullWebUrlNoMatch(g.owner, g.repo, g.number);
  }
}

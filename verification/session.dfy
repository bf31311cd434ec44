/** The session-context resolver: a walk over the conversation, newest message first, that
    fills four slots (current URL, issue or pull-request item, repository, agent), then
    cross-checks them case-insensitively and builds a `SessionInfo`. */
module Session {
  import opened Wrappers
  import Strings
  import References
  import Chat
  import RepoItems

  // ---------------------------------------------------------------------------------------
  // Newest and oldest present value of a sequence.

  /** The value `f` gives for the element with the highest index where it gives one. */
  function Latest<X, T>(xs: seq<X>, f: X -> Option<T>): Option<T>
  {
    if |xs| == 0 then None
    else if f(xs[|xs| - 1]).Some? then f(xs[|xs| - 1])
    else Latest(xs[..|xs| - 1], f)
  }

  /** The value `f` gives for the element with the lowest index where it gives one. */
  function Earliest<X, T>(xs: seq<X>, f: X -> Option<T>): Option<T>
  {
    if |xs| == 0 then None
    else if f(xs[0]).Some? then f(xs[0])
    else Earliest(xs[1..], f)
  }

  function Flatten<T>(o: Option<Option<T>>): Option<T>
  {
    if o.Some? then o.value else None
  }

  /** `Latest` is absent exactly when no element gives a value. */
  lemma {:induction false} LatestNone<X, T>(xs: seq<X>, f: X -> Option<T>)
    ensures Latest(xs, f).None? <==> forall k :: 0 <= k < |xs| ==> f(xs[k]).None?
  {
    if |xs| > 0 {
      var p := xs[..|xs| - 1];
      LatestNone(p, f);
      assert forall k :: 0 <= k < |p| ==> p[k] == xs[k];
    }
  }

  /** `Latest` is the value of the last element that gives one. */
  lemma {:induction false} LatestIs<X, T>(xs: seq<X>, f: X -> Option<T>, j: nat)
    requires j < |xs| && f(xs[j]).Some?
    requires forall k :: j < k < |xs| ==> f(xs[k]).None?
    ensures Latest(xs, f) == f(xs[j])
  {
    if j < |xs| - 1 {
      var p := xs[..|xs| - 1];
      assert forall k :: 0 <= k < |p| ==> p[k] == xs[k];
      LatestIs(p, f, j);
    }
  }

  /** `Earliest` is absent exactly when no element gives a value. */
  lemma {:induction false} EarliestNone<X, T>(xs: seq<X>, f: X -> Option<T>)
    ensures Earliest(xs, f).None? <==> forall k :: 0 <= k < |xs| ==> f(xs[k]).None?
  {
    if |xs| > 0 {
      EarliestNone(xs[1..], f);
      assert forall k :: 1 <= k < |xs| ==> xs[1..][k - 1] == xs[k];
    }
  }

  /** `Earliest` is the value of the first element that gives one. */
  lemma {:induction false} EarliestIs<X, T>(xs: seq<X>, f: X -> Option<T>, j: nat)
    requires j < |xs| && f(xs[j]).Some?
    requires forall k :: 0 <= k < j ==> f(xs[k]).None?
    ensures Earliest(xs, f) == f(xs[j])
  {
    if j > 0 {
      assert forall k :: 0 <= k < j - 1 ==> xs[1..][k] == xs[k + 1];
      EarliestIs(xs[1..], f, j - 1);
    }
  }

  /** Putting an element in front changes `Latest` only where the rest gives no value. */
  lemma {:induction false} LatestCons<X, T>(x: X, xs: seq<X>, f: X -> Option<T>)
    ensures Latest([x] + xs, f) == if Latest(xs, f).Some? then Latest(xs, f) else f(x)
    decreases |xs|
  {
    var ys := [x] + xs;
    if |xs| > 0 {
      assert ys[..|ys| - 1] == [x] + xs[..|xs| - 1];
      LatestCons(x, xs[..|xs| - 1], f);
    } else {
      assert ys[..0] == [];
    }
  }

  // ---------------------------------------------------------------------------------------
  // The session carrier.

  const SessionName: string := "_session"

  /** `(*Message).IsSessionMessage`: the test looks at the name only. */
  predicate IsSessionMessage(m: Chat.Message)
  {
    m.name == SessionName
  }

  /** Whatever the role, the session test answers the same. */
  lemma IsSessionMessageIgnoresRole(m: Chat.Message, role: Chat.ChatRole)
    ensures IsSessionMessage(m.(role := role)) == IsSessionMessage(m)
    ensures IsSessionMessage(m) <==> m.name == "_session"
  {
  }

  /** The message the web client sends to carry the session context. */
  predicate IsSessionCarrier(m: Chat.Message)
  {
    m.role == Chat.System && IsSessionMessage(m)
  }

  /** `(*Request).GetSessionMessage`: the newest system message named `_session`. */
  method GetSessionMessage(req: Chat.Request) returns (m: Option<Chat.Message>)
    ensures m.None? <==> forall k :: 0 <= k < |req.messages| ==> !IsSessionCarrier(req.messages[k])
    ensures m.Some? ==>
              exists k :: 0 <= k < |req.messages| && req.messages[k] == m.value
                          && IsSessionCarrier(m.value)
                          && forall j :: k < j < |req.messages| ==> !IsSessionCarrier(req.messages[j])
  {
    var i: int := |req.messages| - 1;
    while i >= 0
      invariant -1 <= i < |req.messages|
      invariant forall j :: i < j < |req.messages| ==> !IsSessionCarrier(req.messages[j])
    {
      var msg := req.messages[i];
      if msg.role == Chat.System {
        if IsSessionMessage(msg) {
          return Some(msg);
        }
      }
      i := i - 1;
    }
    return None;
  }

  // ---------------------------------------------------------------------------------------
  // What a single reference contributes to each slot.

  /** A reference whose data is repository data. */
  function RepoPick(ref: References.Reference): Option<References.RepositoryData>
  {
    if ref.data.Some? && ref.data.value.Repository? then Some(ref.data.value.repository) else None
  }

  /** A reference whose data is agent data. */
  function AgentPick(ref: References.Reference): Option<References.AgentData>
  {
    if ref.data.Some? && ref.data.value.Agent? then Some(ref.data.value.agent) else None
  }

  /** A reference that settles the current URL: current-url data settles it to that data, a
      redacted current-url reference settles it to nothing. */
  function UrlPick(ref: References.Reference): Option<Option<References.CurrentUrlData>>
  {
    if ref.data.None? then None
    else if ref.data.value.CurrentUrl? then Some(Some(ref.data.value.currentUrl))
    else if ref.data.value.Redacted? && ref.data.value.redactedType == References.TypeCurrentUrl then Some(None)
    else None
  }

  /** A reference whose type says repository but whose data is not repository data: the
      unchecked type assertion on it panics. */
  predicate BadRepoRef(ref: References.Reference)
  {
    ref.typ == References.TypeRepository && RepoPick(ref).None?
  }

  /** `cetCurrentURLData` as a function: nothing outside the session message; inside it, the
      first reference that settles the URL. */
  function CurrentUrlOf(m: Chat.Message): Option<References.CurrentUrlData>
  {
    if !IsSessionMessage(m) then None else Flatten(Earliest(m.references, UrlPick))
  }

  /** The current URL is the first current-url data of the session message, provided no
      redacted current-url reference comes before it. */
  lemma CurrentUrlOfFirst(m: Chat.Message, j: nat)
    requires IsSessionMessage(m) && j < |m.references|
    requires m.references[j].data.Some? && m.references[j].data.value.CurrentUrl?
    requires forall k :: 0 <= k < j ==> UrlPick(m.references[k]).None?
    ensures CurrentUrlOf(m) == Some(m.references[j].data.value.currentUrl)
  {
    EarliestIs(m.references, UrlPick, j);
  }

  /** A redacted current-url reference ahead of any current-url data hides the URL. */
  lemma CurrentUrlOfRedacted(m: Chat.Message, j: nat)
    requires j < |m.references|
    requires m.references[j].data == Some(References.Redacted(References.TypeCurrentUrl))
    requires forall k :: 0 <= k < j ==> UrlPick(m.references[k]).None?
    ensures CurrentUrlOf(m).None?
  {
    EarliestIs(m.references, UrlPick, j);
  }

  /** `cetCurrentURLData`: scans the session message's references and returns at the first
      one that settles the URL. */
  method CetCurrentUrlData(m: Chat.Message) returns (d: Option<References.CurrentUrlData>)
    ensures d == CurrentUrlOf(m)
    ensures d.Some? ==> IsSessionMessage(m) && exists k :: 0 <= k < |m.references| && m.references[k].data == Some(References.CurrentUrl(d.value))
  {
    if !IsSessionMessage(m) {
      return None;
    }
    var j := 0;
    while j < |m.references|
      invariant 0 <= j <= |m.references|
      invariant forall k :: 0 <= k < j ==> UrlPick(m.references[k]).None?
    {
      var ref := m.references[j];
      if ref.data.Some? && ref.data.value.CurrentUrl? {
        EarliestIs(m.references, UrlPick, j);
        return Some(ref.data.value.currentUrl);
      } else if ref.data.Some? && ref.data.value.Redacted? {
        if ref.data.value.redactedType == References.TypeCurrentUrl {
          EarliestIs(m.references, UrlPick, j);
          return None;
        }
      }
      j := j + 1;
    }
    EarliestNone(m.references, UrlPick);
    return None;
  }

  // ---------------------------------------------------------------------------------------
  // What a whole message contributes to each slot.

  /** Repository candidate: the last repository data of a user or system message. */
  function RepoCandidate(m: Chat.Message): Option<References.RepositoryData>
  {
    if m.role == Chat.User || m.role == Chat.System then Latest(m.references, RepoPick) else None
  }

  /** Agent candidate: the last agent data of an assistant message. */
  function AgentCandidate(m: Chat.Message): Option<References.AgentData>
  {
    if m.role == Chat.Assistant then Latest(m.references, AgentPick) else None
  }

  /** URL candidate: the current URL of a system session message. */
  function UrlCandidate(m: Chat.Message): Option<References.CurrentUrlData>
  {
    if m.role == Chat.System then CurrentUrlOf(m) else None
  }

  /** Item candidate: where a message supplies a URL and resolving it does not fail, the
      resolution (which is itself nothing when neither pattern matches). */
  function ItemCandidate(m: Chat.Message): Option<Option<RepoItems.RepoItemRef>>
  {
    match UrlCandidate(m)
    case None => None
    case Some(u) =>
      match RepoItems.ResolveRepoItemRef(u.url)
      case Success(it) => Some(it)
      case Failure(_) => None
  }

  // ---------------------------------------------------------------------------------------
  // The walk.

  /** The four local slots of `GetSessionInfo`. */
  datatype Slots = Slots(
    url: Option<References.CurrentUrlData>,
    item: Option<RepoItems.RepoItemRef>,
    repo: Option<References.RepositoryData>,
    agent: Option<References.AgentData>)

  /** One iteration of the walk: the repository and agent slots are filled only while
      empty; the URL and item slots are overwritten by every session message with a URL. */
  function Step(s: Slots, m: Chat.Message): Slots
  {
    match m.role
    case User =>
      if s.repo.None? then s.(repo := Latest(m.references, RepoPick)) else s
    case Assistant =>
      if s.agent.None? then s.(agent := Latest(m.references, AgentPick)) else s
    case System =>
      var s1 :=
        match CurrentUrlOf(m)
        case None => s
        case Some(u) =>
          s.(url := Some(u),
             item := match RepoItems.ResolveRepoItemRef(u.url)
                     case Success(it) => it
                     case Failure(_) => s.item);
      if s1.repo.None? then s1.(repo := Latest(m.references, RepoPick)) else s1
    case _ => s
  }

  /** The slots after walking `ms` from its last element to its first. */
  function Walk(ms: seq<Chat.Message>): Slots
  {
    if |ms| == 0 then Slots(None, None, None, None) else Step(Walk(ms[1..]), ms[0])
  }

  /** The walk panics at `m` when it scans `m` for a repository with the slot still empty and
      meets a reference typed as a repository that does not hold repository data. */
  predicate PanicsAt(s: Slots, m: Chat.Message)
  {
    && (m.role == Chat.User || m.role == Chat.System)
    && s.repo.None?
    && exists k :: 0 <= k < |m.references| && BadRepoRef(m.references[k])
  }

  /** No iteration of the walk panics. */
  predicate NoPanic(ms: seq<Chat.Message>)
  {
    forall i :: 0 <= i < |ms| ==> !PanicsAt(Walk(ms[i + 1..]), ms[i])
  }

  /** A decoded reference never makes the walk panic: a successful decode of a reference typed
      as a repository always holds repository data. */
  lemma DecodedReferenceIsNotBad(recv: References.Reference, text: string, c: References.Codec)
    requires References.ValidCodec(c)
    requires References.UnmarshalReference(recv, text, c).err.None?
    ensures !BadRepoRef(References.UnmarshalReference(recv, text, c).receiver)
  {
    var r := References.UnmarshalReference(recv, text, c).receiver;
    if r.typ == References.TypeRepository {
      assert References.TypeOf(r.data.value) == References.TypeRepository;
    }
  }

  /** The repository slot is the repository candidate of the newest message that has one. */
  lemma {:induction false} WalkRepo(ms: seq<Chat.Message>)
    ensures Walk(ms).repo == Latest(ms, RepoCandidate)
  {
    if |ms| == 0 {
    } else {
      WalkRepo(ms[1..]);
      assert ms == [ms[0]] + ms[1..];
      LatestCons(ms[0], ms[1..], RepoCandidate);
    }
  }

  /** The agent slot is the agent candidate of the newest message that has one. */
  lemma {:induction false} WalkAgent(ms: seq<Chat.Message>)
    ensures Walk(ms).agent == Latest(ms, AgentCandidate)
  {
    if |ms| == 0 {
    } else {
      WalkAgent(ms[1..]);
      assert ms == [ms[0]] + ms[1..];
      LatestCons(ms[0], ms[1..], AgentCandidate);
    }
  }

  /** The URL slot is the URL candidate of the OLDEST message that has one. */
  lemma {:induction false} WalkUrl(ms: seq<Chat.Message>)
    ensures Walk(ms).url == Earliest(ms, UrlCandidate)
  {
    if |ms| > 0 {
      WalkUrl(ms[1..]);
    }
  }

  /** The item slot is the resolution of the oldest URL whose resolution did not fail. */
  lemma {:induction false} WalkItem(ms: seq<Chat.Message>)
    ensures Walk(ms).item == Flatten(Earliest(ms, ItemCandidate))
  {
    if |ms| > 0 {
      WalkItem(ms[1..]);
    }
  }

  /** There is an item only when there is a URL, and when the URL's own resolution did not
      fail, the item is that resolution (possibly nothing). */
  predicate ItemMatchesUrl(s: Slots)
  {
    && (s.item.Some? ==> s.url.Some?)
    && (s.url.Some? && RepoItems.ResolveRepoItemRef(s.url.value.url).Success? ==>
          s.item == RepoItems.ResolveRepoItemRef(s.url.value.url).value)
  }

  /** Every step keeps the item in line with the URL. */
  lemma StepKeepsItemMatchesUrl(s: Slots, m: Chat.Message)
    requires ItemMatchesUrl(s)
    ensures ItemMatchesUrl(Step(s, m))
  {
    var t := Step(s, m);
    if m.role == Chat.System && CurrentUrlOf(m).Some? {
      assert t.url == CurrentUrlOf(m);
    } else {
      assert t.url == s.url && t.item == s.item;
    }
  }

  lemma {:induction false} ItemFollowsUrl(ms: seq<Chat.Message>)
    ensures ItemMatchesUrl(Walk(ms))
  {
    if |ms| > 0 {
      ItemFollowsUrl(ms[1..]);
      StepKeepsItemMatchesUrl(Walk(ms[1..]), ms[0]);
    }
  }

  // ---------------------------------------------------------------------------------------
  // Validation and the result.

  /** `SessionInfo`: issue and pull request are never both set; the agent is always set. */
  datatype SessionInfo = SessionInfo(
    url: Option<References.CurrentUrlData>,
    issue: Option<RepoItems.IssueRef>,
    pullRequest: Option<RepoItems.PullRequestRef>,
    repo: Option<References.RepositoryData>,
    agent: References.AgentData)

  /** The agent reference made up when no assistant message carried one. */
  function SynthesisedAgent(login: string): (a: References.AgentData)
    ensures a.login == login && a.typ == References.TypeAgent
    ensures a.url == "https://github.com/apps/" + login
    ensures a.avatarUrl == "" && a.id == 0
  {
    References.AgentData("", 0, login, References.TypeAgent, "https://github.com/apps/" + login)
  }

  /** Two values conflict when both are non-empty and differ ignoring case. */
  predicate Conflict(a: string, b: string)
  {
    a != "" && b != "" && !Strings.EqualFold(a, b)
  }

  function AgentOf(s: Slots, declared: string): References.AgentData
  {
    if s.agent.Some? then s.agent.value else SynthesisedAgent(declared)
  }

  /** The validation and assembly after the walk. Checks run in the source's order and the
      first failing one is reported. */
  function Validate(s: Slots, declared: string): (r: Result<SessionInfo, string>)
    ensures var a := AgentOf(s, declared);
            r.Success? <==>
              && Strings.EqualFold(a.login, declared)
              && (s.url.Some? && s.item.Some? ==>
                    !Conflict(s.url.value.owner, s.item.value.owner) && !Conflict(s.url.value.repo, s.item.value.repo))
              && (s.url.Some? && s.repo.Some? ==>
                    !Conflict(s.url.value.owner, s.repo.value.ownerLogin) && !Conflict(s.url.value.repo, s.repo.value.name))
    ensures !Strings.EqualFold(AgentOf(s, declared).login, declared) ==>
              r == Failure("warning: agent login " + declared + " does not match session agent login " + AgentOf(s, declared).login)
    ensures Strings.EqualFold(AgentOf(s, declared).login, declared) && s.url.Some? && s.item.Some? ==>
              var u, it := s.url.value, s.item.value;
              && (Conflict(u.owner, it.owner) ==>
                    r == Failure("warning: session url owner " + u.owner + " does not match item ref owner " + it.owner))
              && (!Conflict(u.owner, it.owner) && Conflict(u.repo, it.repo) ==>
                    r == Failure("warning: session url repo " + u.repo + " does not match item ref repo " + it.repo))
    ensures && Strings.EqualFold(AgentOf(s, declared).login, declared) && s.url.Some? && s.repo.Some?
            && (s.item.Some? ==> !Conflict(s.url.value.owner, s.item.value.owner) && !Conflict(s.url.value.repo, s.item.value.repo))
            ==>
              var u, rp := s.url.value, s.repo.value;
              && (Conflict(u.owner, rp.ownerLogin) ==>
                    r == Failure("warning: session url owner " + u.owner + " does not match repo owner " + rp.ownerLogin))
              && (!Conflict(u.owner, rp.ownerLogin) && Conflict(u.repo, rp.name) ==>
                    r == Failure("warning: session url repo " + u.repo + " does not match repo name " + rp.name))
    ensures r.Success? ==>
              && r.value.url == s.url && r.value.repo == s.repo && r.value.agent == AgentOf(s, declared)
              && (r.value.issue.Some? <==> s.item.Some? && s.item.value.kind == RepoItems.Issue)
              && (r.value.pullRequest.Some? <==> s.item.Some? && s.item.value.kind == RepoItems.Pull)
              && (r.value.issue.Some? ==> r.value.issue.value.item == s.item.value)
              && (r.value.pullRequest.Some? ==> r.value.pullRequest.value.item == s.item.value)
              && !(r.value.issue.Some? && r.value.pullRequest.Some?)
  {
    var a := AgentOf(s, declared);
    if !Strings.EqualFold(a.login, declared) then
      Failure("warning: agent login " + declared + " does not match session agent login " + a.login)
    else if s.url.Some? && s.item.Some? && Conflict(s.url.value.owner, s.item.value.owner) then
      Failure("warning: session url owner " + s.url.value.owner + " does not match item ref owner " + s.item.value.owner)
    else if s.url.Some? && s.item.Some? && Conflict(s.url.value.repo, s.item.value.repo) then
      Failure("warning: session url repo " + s.url.value.repo + " does not match item ref repo " + s.item.value.repo)
    else if s.url.Some? && s.repo.Some? && Conflict(s.url.value.owner, s.repo.value.ownerLogin) then
      Failure("warning: session url owner " + s.url.value.owner + " does not match repo owner " + s.repo.value.ownerLogin)
    else if s.url.Some? && s.repo.Some? && Conflict(s.url.value.repo, s.repo.value.name) then
      Failure("warning: session url repo " + s.url.value.repo + " does not match repo name " + s.repo.value.name)
    else
      var issue := if s.item.Some? && s.item.value.kind == RepoItems.Issue then Some(RepoItems.IssueRef(s.item.value)) else None;
      var pull := if s.item.Some? && s.item.value.kind == RepoItems.Pull then Some(RepoItems.PullRequestRef(s.item.value)) else None;
      Success(SessionInfo(s.url, issue, pull, s.repo, a))
  }

  /** The repository-slot scan of one message: every repository reference assigns the slot,
      so the last one wins. */
  method ScanRepository(refs: seq<References.Reference>) returns (repo: Option<References.RepositoryData>)
    requires forall k :: 0 <= k < |refs| ==> !BadRepoRef(refs[k])
    ensures repo == Latest(refs, RepoPick)
  {
    repo := None;
    var j := 0;
    while j < |refs|
      invariant 0 <= j <= |refs|
      invariant repo == Latest(refs[..j], RepoPick)
    {
      var ref := refs[j];
      if ref.data.Some? && ref.data.value.Repository? {
        repo := Some(ref.data.value.repository);
      }
      if ref.typ == References.TypeRepository {
        assert !BadRepoRef(ref);
        repo := Some(ref.data.value.repository);
      }
      assert refs[..j + 1][..j] == refs[..j];
      j := j + 1;
    }
    assert refs[..j] == refs;
  }

  /** The agent-slot scan of one message: the last agent reference wins. */
  method ScanAgent(refs: seq<References.Reference>) returns (agent: Option<References.AgentData>)
    ensures agent == Latest(refs, AgentPick)
  {
    agent := None;
    var j := 0;
    while j < |refs|
      invariant 0 <= j <= |refs|
      invariant agent == Latest(refs[..j], AgentPick)
    {
      var ref := refs[j];
      if ref.data.Some? && ref.data.value.Agent? {
        agent := Some(ref.data.value.agent);
      }
      assert refs[..j + 1][..j] == refs[..j];
      j := j + 1;
    }
    assert refs[..j] == refs;
  }

  /** `(*Request).GetSessionInfo`: the walk, newest message first, then validation. */
  method GetSessionInfo(req: Chat.Request) returns (r: Result<SessionInfo, string>)
    requires NoPanic(req.messages)
    ensures r == Validate(Walk(req.messages), req.agent)
  {
    var ms := req.messages;
    var url: Option<References.CurrentUrlData> := None;
    var item: Option<RepoItems.RepoItemRef> := None;
    var repo: Option<References.RepositoryData> := None;
    var agent: Option<References.AgentData> := None;
    var i: int := |ms| - 1;
    while i >= 0
      invariant -1 <= i < |ms|
      invariant Slots(url, item, repo, agent) == Walk(ms[i + 1..])
    {
      var msg := ms[i];
      assert ms[i..][1..] == ms[i + 1..];
      assert !PanicsAt(Walk(ms[i + 1..]), msg);
      match msg.role {
        case User =>
          if repo.None? {
            repo := ScanRepository(msg.references);
          }
        case Assistant =>
          if agent.None? {
            agent := ScanAgent(msg.references);
          }
        case System =>
          if IsSessionMessage(msg) {
            var urlData := CetCurrentUrlData(msg);
            if urlData.Some? {
              url := urlData;
              var resolved := RepoItems.ResolveRepoItemRef(urlData.value.url);
              if resolved.Success? {
                item := resolved.value;
              }
            }
          }
          if repo.None? {
            repo := ScanRepository(msg.references);
          }
        case _ =>
      }
      i := i - 1;
    }
    assert ms[0..] == ms;
    r := Validate(Slots(url, item, repo, agent), req.agent);
  }

  /** What a successful resolution reports, in terms of the conversation: the repository of
      the newest message that names one, the agent of the newest assistant message that names
      one (else the made-up agent), and the URL of the oldest session message. */
  lemma SessionInfoSlots(req: Chat.Request)
    requires Validate(Walk(req.messages), req.agent).Success?
    ensures var info := Validate(Walk(req.messages), req.agent).value;
            && info.repo == Latest(req.messages, RepoCandidate)
            && info.url == Earliest(req.messages, UrlCandidate)
            && info.agent == (if Latest(req.messages, AgentCandidate).Some?
                              then Latest(req.messages, AgentCandidate).value
                              else SynthesisedAgent(req.agent))
  {
    WalkRepo(req.messages);
    WalkUrl(req.messages);
    WalkAgent(req.messages);
  }

  /** Without an agent reference in any assistant message, the made-up agent always passes
      the login check, so only the URL checks can fail. */
  lemma SynthesisedAgentPasses(req: Chat.Request)
    requires forall k :: 0 <= k < |req.messages| ==> AgentCandidate(req.messages[k]).None?
    ensures var s := Walk(req.messages);
            Validate(s, req.agent).Failure? ==> s.url.Some? && (s.item.Some? || s.repo.Some?)
  {
    WalkAgent(req.messages);
    LatestNone(req.messages, AgentCandidate);
    Strings.EqualFoldReflexive(req.agent);
  }
}

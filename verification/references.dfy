/** Copilot references: typed attachments on chat messages, decoded by a closed switch on
    their `type` string into one of eight data variants. */
module References {
  import opened Wrappers
  import Json

  // `ReferenceType` values: the `type` field of a reference.
  const TypeRedacted: string := "github.redacted"
  const TypeAgent: string := "github.agent"
  const TypeCurrentUrl: string := "github.current-url"
  const TypeFile: string := "github.file"
  const TypeRepository: string := "github.repository"
  const TypeSnippet: string := "github.snippet"
  const TypeClientFile: string := "client.file"
  const TypeClientSelection: string := "client.selection"

  // The `ReferenceDataType` values the decoder writes into a variant before decoding it.
  const DataTypeCurrentUrl: string := "github.current-url"
  const DataTypeClientFile: string := "client.file"
  const DataTypeClientSelection: string := "client.selection"

  /** The eight reference types the decoder knows. */
  predicate IsKnownType(t: string)
  {
    t in {TypeRedacted, TypeAgent, TypeCurrentUrl, TypeFile, TypeRepository, TypeSnippet,
          TypeClientFile, TypeClientSelection}
  }

  datatype Metadata = Metadata(displayName: string, displayIcon: string, displayUrl: string)

  datatype AgentData = AgentData(avatarUrl: string, id: int, login: string, typ: string, url: string)

  /** Current page of the web client; owner, repo, path and hash are re-derived from `url`
      when it matches the repository-URL pattern. */
  datatype CurrentUrlData = CurrentUrlData(typ: string, url: string, owner: string, repo: string, path: string, hash: string)

  datatype FileData = FileData(
    commitOid: string, languageId: int, languageName: string, path: string, ref: string,
    repoId: int, repoName: string, repoOwner: string, typ: string, url: string)

  datatype Language = Language(name: string, percent: real)

  datatype RefInfo = RefInfo(name: string, typ: string)

  datatype RepositoryData = RepositoryData(
    commitOid: string, description: string, id: int, languages: seq<Language>, name: string,
    ownerLogin: string, ownerType: string, readmePath: string, ref: string, refInfo: RefInfo,
    typ: string, visibility: string)

  datatype SnippetRange = SnippetRange(end: int, start: int)

  datatype SnippetData = SnippetData(
    commitOid: string, languageId: int, languageName: string, path: string, range: SnippetRange,
    ref: string, repoId: int, repoName: string, repoOwner: string, typ: string, url: string)

  datatype ClientFileData = ClientFileData(content: string, language: string, typ: string)

  datatype Location = Location(col: int, line: int)

  datatype ClientSelectionData = ClientSelectionData(content: string, end: Location, start: Location, typ: string)

  /** `ReferenceData`: one variant per known reference type. */
  datatype ReferenceData =
    | Redacted(redactedType: string)
    | Agent(agent: AgentData)
    | CurrentUrl(currentUrl: CurrentUrlData)
    | File(file: FileData)
    | Repository(repository: RepositoryData)
    | Snippet(snippet: SnippetData)
    | ClientFile(clientFile: ClientFileData)
    | ClientSelection(clientSelection: ClientSelectionData)

  /** The reference `type` string whose switch arm builds this variant. */
  function TypeOf(d: ReferenceData): string
  {
    match d
    case Redacted(_) => TypeRedacted
    case Agent(_) => TypeAgent
    case CurrentUrl(_) => TypeCurrentUrl
    case File(_) => TypeFile
    case Repository(_) => TypeRepository
    case Snippet(_) => TypeSnippet
    case ClientFile(_) => TypeClientFile
    case ClientSelection(_) => TypeClientSelection
  }

  /** `Reference`: `data` stays `None` until a successful decode assigns it; `rawData` is the
      undecoded `data` member. */
  datatype Reference = Reference(
    typ: string, id: string, isImplicit: bool, metadata: Metadata,
    data: Option<ReferenceData>, rawData: string)

  /** The groups of the repository-URL pattern; `None` for a group the pattern lacks. */
  datatype RepoMatch = RepoMatch(owner: Option<string>, repo: Option<string>, path: Option<string>, hash: Option<string>)

  /** The JSON library and the repository-URL pattern, which this model does not define:
      `header` decodes a reference's own members into the receiver, `fields` decodes a raw
      payload into a variant, and `repoRe` is the repository-URL matcher. Both decoders are
      all or nothing: a failure yields no partly filled value. */
  datatype Codec = Codec(
    header: (Reference, string) -> Result<Reference, string>,
    fields: (ReferenceData, string) -> Result<ReferenceData, string>,
    repoRe: string -> Option<RepoMatch>)

  /** What the JSON library guarantees: `data` carries a `json:"-"` tag, so decoding the
      reference's members never touches it, and decoding into a struct yields that struct. */
  ghost predicate ValidCodec(c: Codec)
  {
    && (forall r, s :: c.header(r, s).Success? ==> c.header(r, s).value.data == r.data)
    && (forall d, s :: c.fields(d, s).Success? ==> TypeOf(c.fields(d, s).value) == TypeOf(d))
  }

  /** The variant the switch allocates for a reference type, or `None` for an unknown type.
      Only the current-url, client.file and client.selection variants start with their type
      field set; the others start from the zero value. */
  function Prototype(t: string): (r: Option<ReferenceData>)
    ensures r.Some? <==> IsKnownType(t)
    ensures r.Some? ==> TypeOf(r.value) == t
    ensures t == TypeCurrentUrl ==> r == Some(CurrentUrl(CurrentUrlData(DataTypeCurrentUrl, "", "", "", "", "")))
    ensures t == TypeClientFile ==> r == Some(ClientFile(ClientFileData("", "", DataTypeClientFile)))
    ensures t == TypeClientSelection ==>
              r == Some(ClientSelection(ClientSelectionData("", Location(0, 0), Location(0, 0), DataTypeClientSelection)))
  {
    if t == TypeRedacted then Some(Redacted(""))
    else if t == TypeAgent then Some(Agent(AgentData("", 0, "", "", "")))
    else if t == TypeCurrentUrl then Some(CurrentUrl(CurrentUrlData(DataTypeCurrentUrl, "", "", "", "", "")))
    else if t == TypeFile then Some(File(FileData("", 0, "", "", "", 0, "", "", "", "")))
    else if t == TypeRepository then
      Some(Repository(RepositoryData("", "", 0, [], "", "", "", "", "", RefInfo("", ""), "", "")))
    else if t == TypeSnippet then
      Some(Snippet(SnippetData("", 0, "", "", SnippetRange(0, 0), "", 0, "", "", "", "")))
    else if t == TypeClientFile then Some(ClientFile(ClientFileData("", "", DataTypeClientFile)))
    else if t == TypeClientSelection then
      Some(ClientSelection(ClientSelectionData("", Location(0, 0), Location(0, 0), DataTypeClientSelection)))
    else None
  }

  /** The re-derivation step of `(*ReferenceDataGitHubCurrentUrl).UnmarshalJSON`: when the
      pattern matched, each group it has replaces the transmitted field; otherwise the
      transmitted fields stay. The URL and type are never changed. */
  function ApplyRepoMatch(u: CurrentUrlData, m: Option<RepoMatch>): (r: CurrentUrlData)
    ensures r.typ == u.typ && r.url == u.url
    ensures m.None? ==> r == u
    ensures m.Some? && m.value.owner.Some? ==> r.owner == m.value.owner.value
    ensures m.Some? && m.value.owner.None? ==> r.owner == u.owner
    ensures m.Some? && m.value.repo.Some? ==> r.repo == m.value.repo.value
    ensures m.Some? && m.value.repo.None? ==> r.repo == u.repo
    ensures m.Some? && m.value.path.Some? ==> r.path == m.value.path.value
    ensures m.Some? && m.value.path.None? ==> r.path == u.path
    ensures m.Some? && m.value.hash.Some? ==> r.hash == m.value.hash.value
    ensures m.Some? && m.value.hash.None? ==> r.hash == u.hash
  {
    match m
    case None => u
    case Some(g) =>
      var u1 := if g.owner.Some? then u.(owner := g.owner.value) else u;
      var u2 := if g.repo.Some? then u1.(repo := g.repo.value) else u1;
      var u3 := if g.path.Some? then u2.(path := g.path.value) else u2;
      if g.hash.Some? then u3.(hash := g.hash.value) else u3
  }

  /** `(*ReferenceDataGitHubCurrentUrl).UnmarshalJSON` with `recv` as the receiver before the
      call: decode the transmitted members, then re-derive owner/repo/path/hash from the URL.
      A URL the pattern does not match is not an error. */
  function UnmarshalCurrentUrl(recv: CurrentUrlData, raw: string, c: Codec): (r: Json.Unmarshalled<CurrentUrlData>)
    requires ValidCodec(c)
    ensures c.fields(CurrentUrl(recv), raw).Failure? ==>
              r == Json.Unmarshalled(recv, Some(c.fields(CurrentUrl(recv), raw).error))
    ensures c.fields(CurrentUrl(recv), raw).Success? ==>
              var sent := c.fields(CurrentUrl(recv), raw).value.currentUrl;
              && r.err.None?
              && r.receiver == ApplyRepoMatch(sent, c.repoRe(sent.url))
  {
    match c.fields(CurrentUrl(recv), raw)
    case Failure(e) => Json.Unmarshalled(recv, Some(e))
    case Success(d) =>
      assert TypeOf(d) == TypeCurrentUrl;
      var u := d.currentUrl;
      Json.Unmarshalled(ApplyRepoMatch(u, c.repoRe(u.url)), None)
  }

  /** `json.Unmarshal(r.RawData, d)` for the allocated variant `d`: the generic decoder, except
      that the current-url variant runs its own `UnmarshalJSON`. The variant never changes. */
  function DecodeData(proto: ReferenceData, raw: string, c: Codec): (r: Result<ReferenceData, string>)
    requires ValidCodec(c)
    ensures r.Success? ==> TypeOf(r.value) == TypeOf(proto)
  {
    if proto.CurrentUrl? then
      var u := UnmarshalCurrentUrl(proto.currentUrl, raw, c);
      if u.err.Some? then Failure(u.err.value) else Success(CurrentUrl(u.receiver))
    else
      c.fields(proto, raw)
  }

  /** `(*Reference).UnmarshalJSON` with `recv` as the receiver before the call. A known type
      selects exactly its own variant; an unknown type is an error; `data` is assigned only
      when every step succeeded. */
  function UnmarshalReference(recv: Reference, text: string, c: Codec): (r: Json.Unmarshalled<Reference>)
    requires ValidCodec(c)
    ensures r.err.Some? ==> r.receiver.data == recv.data
    ensures r.err.None? ==> IsKnownType(r.receiver.typ)
    ensures r.err.None? ==> r.receiver.data.Some? && TypeOf(r.receiver.data.value) == r.receiver.typ
    ensures c.header(recv, text).Failure? ==> r == Json.Unmarshalled(recv, Some(c.header(recv, text).error))
    ensures c.header(recv, text).Success? ==>
              var h := c.header(recv, text).value;
              && r.receiver.(data := h.data) == h
              && (!IsKnownType(h.typ) ==> r.err == Some("unknown reference type: " + h.typ))
              && (IsKnownType(h.typ) ==>
                    var d := DecodeData(Prototype(h.typ).value, h.rawData, c);
                    && (d.Failure? ==> r.err == Some(d.error))
                    && (d.Success? ==> r.err.None? && r.receiver.data == Some(d.value)))
  {
    match c.header(recv, text)
    case Failure(e) => Json.Unmarshalled(recv, Some(e))
    case Success(h) =>
      match Prototype(h.typ)
      case None => Json.Unmarshalled(h, Some("unknown reference type: " + h.typ))
      case Some(proto) =>
        match DecodeData(proto, h.rawData, c)
        case Failure(e) => Json.Unmarshalled(h, Some(e))
        case Success(d) => Json.Unmarshalled(h.(data := Some(d)), None)
  }
}

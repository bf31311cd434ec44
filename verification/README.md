# copilot-go core, modelled in Dafny

This project models the logic at the centre of `copilot-go`, a Go library for writing
Copilot agents. It covers four pieces:

- **Session-context resolver** (`session.go`): `GetSessionInfo` walks a chat request's
  messages from newest to oldest and fills four slots: current URL, issue or pull-request
  item, repository and agent. It then cross-checks them case-insensitively and builds a
  `SessionInfo`.
  - `resolveRepoItemRef` searches a URL for the issue pattern, then for the pull-request
    pattern.
  - `RepoItemRefType` is a closed enum with its JSON marshal and unmarshal.
- **Reference decoding** (`reference.go`): a closed switch maps a reference's `type` to
  one of eight data variants. The current-url variant re-derives owner, repo, path and hash
  from its URL.
- **Event-stream writer** (`sse/sse.go`): the exact framing of `data:` frames, `event:`
  lines, the `[DONE]` terminator and the composite event-then-data writes. The writes go
  to a response writer that may start refusing writes and may or may not flush.
- **Event-stream parser** (`sse/parser.go`): keeps each scanned event's `event` and `data`
  fields, dispatches on the event name to typed decoders, and emits the decoded values in
  order. The first decoding failure stops it.
- **Closed enums** (`error.go`, `confirmation.go`): `ErrorType`, `ConfirmationType` and
  `ClientConfirmationState`, with their marshal and unmarshal.

`chat.go` supplies the request and response datatypes (module `Chat`). It has no
behaviour of its own.

## Module layout

| file | module | models |
|---|---|---|
| `wrappers.dfy` | `Wrappers`, `Json` | `Option`/`Result`; `json.Unmarshal` into a Go `string` |
| `strings.dfy` | `Strings` | `strings.EqualFold` (ASCII folding), concatenation, `IndexOf` |
| `errors.dfy` | `Errors` | `error.go` |
| `confirmations.dfy` | `Confirmations` | `confirmation.go` |
| `references.dfy` | `References` | `reference.go` |
| `chat.dfy` | `Chat` | `chat.go` (types only) |
| `repo_items.dfy` | `RepoItems` | the issue and pull-request patterns, `resolveRepoItemRef`, `RepoItemRefType` |
| `session.dfy` | `Session` | `GetSessionMessage`, `GetSessionInfo`, `cetCurrentURLData` |
| `sse_writer.dfy` | `SseWriter` | `sse/sse.go` |
| `sse_scanner.dfy` | `SseScanner` | a small line scanner standing in for the third-party event-stream scanner |
| `sse_parser.dfy` | `SseParser` | `sse/parser.go` |
| `sse_roundtrip.dfy` | `SseRoundTrip` | writer output scanned and parsed back |

## How the model is built

**Functions and methods.** Code that computes a value is a function. Each Go
`UnmarshalJSON` with a pointer receiver becomes a function from the old receiver to the
new receiver and the error, returned as `Json.Unmarshalled`.

Loops that update variables step by step are methods proved against a specification
function:
- `GetSessionMessage`, `GetSessionInfo` and `cetCurrentURLData`;
- the per-message reference scans;
- the parser's field loop, its `emit*` loops and `ParseAndEmit`.

For example, `GetSessionInfo`'s loop keeps the invariant that its four locals equal
`Walk` of the messages already visited. The lemmas `WalkRepo`, `WalkAgent`, `WalkUrl` and
`WalkItem` then say which message each slot comes from.

**The writer.** The response writer is a class with four fields:
- the bytes written so far;
- a flush counter;
- the header map;
- a write budget: how many more writes the connection accepts.

Every write function ensures that the new buffer is the old one plus
`Deliver(parts, budget)`. That is, the function's successive writes, cut off at the first
refused one. The lemmas `DataFrameText` and `CompositeText` then give the exact bytes of
a fully accepted frame.

**The parser.** The parser is a class whose `emitted` field records every value handed
to the emit callback.

**The round trip.** `SseRoundTrip` connects the two halves of the event stream. What a
fully accepting writer receives for a run of frames is scanned into one event per frame.
Parsing those events emits exactly the frames' payloads, in order, and skips the
terminator.

**Modelling choices.** The model follows the statements of the code, also where they
do less or more than its doc comments say:
- `IsSessionMessage` is documented (session.go:21-22) as checking role `system` and name
  `_session`, but tests the name alone; the role check happens in `GetSessionMessage`
  and in the reverse walk. Messages with role `system` are also scanned for repository
  references.
- The URL and item slots have no "already set" guard. Every session message with a URL
  overwrites them, so the **oldest** such message wins. The repository and agent slots
  are latched, so the newest one wins.
- An unknown reference type is an error. It does not decode to a catch-all variant; the
  catch-all is only a TODO comment (reference.go:188-190).
- Decoding a current-url reference re-derives owner, repo, path and hash only. Issue and
  pull-request items are derived later, by the resolver.

## Model

| member | source | states |
|---|---|---|
| Chat.RoleNameInjective | chat.go:5-13 | the five role constants and every other role string are told apart by their wire text |
| Errors.ErrorType.String | error.go:29-31 | the string form of an error type is the name that its JSON form decodes to |
| Errors.ErrorType.MarshalJSON | error.go:53-55 | marshals to the name; each of the three constants round-trips through `UnmarshalJSON` whatever the receiver held; the zero value marshals to a text that unmarshal rejects |
| Errors.ErrorType.UnmarshalJSON | error.go:39-51 | succeeds exactly on "agent", "function" and "reference", yielding that constant; on rejection the receiver is unchanged and the error names the rejected string (empty for JSON `null`); a text that is neither a string nor `null` fails with the decoder's error |
| Errors.Error.Text | error.go:20-22 | the error text is the message alone |
| Confirmations.ConfirmationType.MarshalJSON | confirmation.go:39-41 | marshals to the name; `Action` round-trips whatever the receiver held; the zero value is rejected |
| Confirmations.ConfirmationType.UnmarshalJSON | confirmation.go:25-37 | succeeds exactly on "action"; on rejection the receiver keeps its old value; a rejected string or JSON `null` gives "invalid agent confirmation type", any other text the decoder's error |
| Confirmations.ClientConfirmationState.MarshalJSON | confirmation.go:73-75 | marshals to the name; `Accepted` and `Dismissed` round-trip; the zero value is rejected |
| Confirmations.ClientConfirmationState.UnmarshalJSON | confirmation.go:59-71 | succeeds exactly on "accepted" and "dismissed"; on rejection the receiver keeps its old value; a rejected string or JSON `null` gives "invalid client confirmation state", any other text the decoder's error |
| References.Prototype | reference.go:170-191 | a variant exists exactly for the eight known types, and it is that type's own variant; the current-url, client.file and client.selection variants start with their type field set |
| References.ApplyRepoMatch | reference.go:209-222 | with a match, each group the pattern has replaces the transmitted field and each absent group keeps it; without a match, nothing changes; URL and type are never changed |
| References.UnmarshalCurrentUrl | reference.go:202-225 | a decoding failure is returned and the model keeps the old receiver; otherwise there is no error, and the result is the decoded data with the pattern's groups applied to its URL |
| References.DecodeData | reference.go:193-195 | decoding the raw data keeps the variant chosen by the switch |
| References.UnmarshalReference | reference.go:161-200 | on any error `data` is left as it was; an unknown type is the error "unknown reference type: …"; on success the type is known and `data` holds a variant of exactly that type, decoded from the raw data |
| RepoItems.RepoItemRefType.MarshalJSON | session.go:327-329 | marshals the singular name; both constants round-trip through `UnmarshalJSON` whatever the receiver held |
| RepoItems.RepoItemRefType.UnmarshalJSON | session.go:309-325 | succeeds exactly on "issue" and "pull", filling in the matching plural; any other string, or JSON `null` read as "", is an error naming it, a non-string text fails with the decoder's error, and the receiver is unchanged |
| RepoItems.RunEnd | session.go:295-296 | a run of characters other than a stop character (`[^/]+` stops at '/', the hash's `.+` at a newline) ends at the first stop character or the end, and holds none |
| RepoItems.DigitsEnd | session.go:295-296 | the run of `\d+` from a position stops at the first non-digit, and holds only ASCII digits |
| RepoItems.OwnerRepoAt | session.go:295-296 | non-empty owner and repo segments follow the host, and a '/' follows the repo |
| RepoItems.IssueMatchWellFormed | session.go:295 | an issue-pattern match has non-empty slash-free owner and repo, a non-empty digit number and no page |
| RepoItems.PullMatchWellFormed | session.go:296 | a pull-pattern match has the same shape; its page is "", "commits", "checks" or "files" |
| RepoItems.FindIssueWellFormed | session.go:219 | the leftmost issue match, wherever it starts, has that shape |
| RepoItems.FindPullWellFormed | session.go:222 | the leftmost pull match, wherever it starts, has that shape |
| RepoItems.Atoi | session.go:243-246 | parsing the matched digits succeeds exactly when their value fits in a 64-bit `int`, and then yields that value |
| RepoItems.ResolveRepoItemRef | session.go:214-270 | no item and no error exactly when neither pattern matches; the issue pattern takes precedence; it fails exactly when the chosen match's number exceeds the largest 64-bit int, with "invalid issue url: …" or "invalid pull url: …"; an item carries the match's owner, repo, hash and page, the numeric value of its digits, and web and API URLs built from the plural and the digit text |
| RepoItems.WebUrlLayout | session.go:258-261 | where host, owner, repo, plural and number sit in a canonical web URL |
| RepoItems.WebUrlOwnerRepo | session.go:258-261 | the host, owner and repo of a canonical web URL are found at its start |
| RepoItems.IssueWebUrlMatches | session.go:295 | the issue pattern matches a canonical issue URL at its start, capturing its owner, repo and number and no hash |
| RepoItems.IssueWebUrlRoundTrip | session.go:214-270 | resolving the web URL of a resolved issue gives the same issue, without the hash |
| RepoItems.WebUrlNoDoubleSlash | session.go:258-261 | after the scheme, a canonical web URL never has two slashes in a row |
| RepoItems.NoMatchFrom | session.go:295-296 | in such a URL neither pattern can start past position 0 |
| RepoItems.PullWebUrlNoMatch | session.go:296 | neither pattern matches anywhere in a canonical pull-request web URL, whose path has "pulls" |
| RepoItems.PullWebUrlUnresolved | session.go:257-261 | resolving the web URL of a resolved pull request finds no item: the URL uses the plural "pulls", which the pull pattern's "/pull/" does not accept |
| Session.IsSessionMessageIgnoresRole | session.go:23-25 | the session test depends only on the name being "_session", whatever the role |
| Session.GetSessionMessage | session.go:30-41 | none exactly when no message is a system message named "_session"; otherwise the newest such message |
| Session.CurrentUrlOfFirst | session.go:196-199 | the current URL is the first current-url data of the session message when no redacted current-url reference precedes it |
| Session.CurrentUrlOfRedacted | session.go:200-205 | a redacted current-url reference ahead of any current-url data hides the URL |
| Session.CetCurrentUrlData | session.go:187-210 | the loop returns that first settling reference's URL (or none), and only from a session message |
| Session.DecodedReferenceIsNotBad | session.go:68-69 | a successfully decoded reference typed as a repository holds repository data, so the unchecked type assertion cannot panic on it |
| Session.ScanRepository | session.go:62-71 | the scan of one message's references yields its last repository data |
| Session.ScanAgent | session.go:76-81 | the scan of one message's references yields its last agent data |
| Session.WalkRepo | session.go:60-72 | the repository slot comes from the newest user or system message that has repository data, taking that message's last one |
| Session.WalkAgent | session.go:74-82 | the agent slot comes from the newest assistant message that has agent data, taking that message's last one |
| Session.WalkUrl | session.go:84-94 | the URL slot comes from the oldest system session message with a current URL |
| Session.WalkItem | session.go:88-93 | the item slot is the resolution of the oldest URL whose resolution did not fail |
| Session.StepKeepsItemMatchesUrl | session.go:86-93 | each message keeps the item in line with the URL: an item only with a URL, and the URL's own resolution when that did not fail |
| Session.ItemFollowsUrl | session.go:120-124 | after the walk there is an item only when there is a URL, and the item is the URL's resolution when that did not fail |
| Session.SynthesisedAgent | session.go:132-140 | the made-up agent has the declared login, the agent type and the URL "https://github.com/apps/" + login |
| Session.Validate | session.go:142-183 | succeeds exactly when the agent login matches case-insensitively and no non-empty URL owner or repo conflicts with the item's or the repository's; the checks run login, URL/item owner, URL/item repo, URL/repository owner, URL/repository name, and the first one that fails is reported with its own message; on success URL, repository and agent pass through, `Issue` is set iff the item is an issue, `PullRequest` iff it is a pull request, never both |
| Session.GetSessionInfo | session.go:46-184 | the reverse loop's result equals validating the slots of the walk |
| Session.SessionInfoSlots | session.go:46-184 | a successful result's repository, URL and agent are those of the newest repository message, the oldest session URL, and the newest assistant agent or else the made-up one |
| Session.SynthesisedAgentPasses | session.go:132-146 | with no agent data in any assistant message, the login check cannot fail, so a failure needs a URL and an item or repository |
| SseWriter.Writer.FlushIfFlusher | sse/sse.go:29-31 | one flush exactly when the writer implements flushing; nothing else changes |
| SseWriter.DataFrameText | sse/sse.go:35-42 | a fully accepted data frame is "data: ", the JSON text and two newlines; a marshalling failure leaves only "data: "; the error is absent exactly when marshalling and the encoder's write succeed |
| SseWriter.CompositeText | sse/sse.go:90-93 | a fully accepted composite is the event line immediately followed by the data frame; when the event line fails, no part of the data frame is written |
| SseWriter.DeliverIsPrefix | sse/sse.go:36-40 | a writer that starts refusing writes and keeps refusing them still receives a prefix of the full text |
| SseWriter.DeltaResponse | sse/sse.go:196-206 | the delta chunk carries the id and creation time, exactly one choice whose delta holds the content in the assistant role |
| SseWriter.StopResponse | sse/sse.go:245-249 | the stop chunk has exactly one choice, whose finish reason is "stop" |
| SseWriter.WriteDone | sse/sse.go:22-24 | appends "data: [DONE]\n\n" if accepted; a write error is ignored |
| SseWriter.WriteDoneAndFlush | sse/sse.go:27-32 | the same bytes, then one flush when the writer flushes |
| SseWriter.WriteData | sse/sse.go:35-42 | appends the data frame's writes as far as accepted; the error is the marshalling error, else the encoder's write error |
| SseWriter.WriteDataAndFlush | sse/sse.go:45-53 | the same bytes and error; a flush only after success |
| SseWriter.WriteRawData | sse/sse.go:55-58 | appends "data: " + raw + "\n\n" if accepted and never reports an error |
| SseWriter.WriteEvent | sse/sse.go:61-71 | appends "event: " + name, then "\n", stopping at the first refused write, whose error it returns |
| SseWriter.WriteEventAndFlush | sse/sse.go:74-82 | the same bytes and error; a flush only after success |
| SseWriter.WriteComposite | sse/sse.go:153-159 | the event line, then the data frame only if the event line succeeded; optionally a flush after a successful data frame |
| SseWriter.WriteErrors | sse/sse.go:85-94 | nothing for an empty list; otherwise the `copilot_errors` event line and the list as one data frame |
| SseWriter.WriteErrorsAndFlush | sse/sse.go:97-106 | as `WriteErrors`, with a flush after a successful data frame |
| SseWriter.WriteError | sse/sse.go:109-111 | `WriteErrors` of a one-element list, so it always writes |
| SseWriter.WriteErrorAndFlush | sse/sse.go:114-116 | `WriteErrorsAndFlush` of a one-element list |
| SseWriter.WriteReferences | sse/sse.go:119-128 | nothing for an empty list; otherwise the `copilot_references` event line and the list as one data frame |
| SseWriter.WriteReferencesAndFlush | sse/sse.go:131-140 | as `WriteReferences`, with a flush after a successful data frame |
| SseWriter.WriteReference | sse/sse.go:143-145 | `WriteReferences` of a one-element list, so it always writes |
| SseWriter.WriteReferenceAndFlush | sse/sse.go:148-150 | `WriteReferencesAndFlush` of a one-element list |
| SseWriter.WriteConfirmation | sse/sse.go:153-159 | always the `copilot_confirmation` event line and the confirmation as one data frame |
| SseWriter.WriteConfirmationAndFlush | sse/sse.go:162-168 | as `WriteConfirmation`, with a flush after a successful data frame |
| SseWriter.WriteDeltaWithoutFlush | sse/sse.go:196-212 | one data frame holding the delta chunk |
| SseWriter.WriteDelta | sse/sse.go:178-186 | the same bytes and error; a flush only after success |
| SseWriter.WriteStopWithoutFlush | sse/sse.go:244-255 | the stop chunk's data frame, then the terminator, which a failed data frame suppresses |
| SseWriter.WriteStop | sse/sse.go:226-234 | the same bytes and error; a flush only after success |
| SseWriter.WriteStopAndFlush | sse/sse.go:215-217 | exactly `WriteStop` |
| SseWriter.StopText | sse/sse.go:244-255 | a fully accepted stop sequence is the stop chunk's frame followed by "data: [DONE]\n\n" |
| SseWriter.WriteStreamingHeaders | sse/sse.go:258-263 | sets the four streaming headers, replacing earlier values, and writes no bytes |
| SseParser.BranchOf | sse/parser.go:60-84 | the three event names select their typed arms; any other name, including none, selects the data arm |
| SseParser.DecodeIn | sse/parser.go:88-142 | each arm emits its own decoder's value in that arm's payload, and a decoder error comes back behind the arm's prefix: "failed to unmarshal references: " for both the references and the errors arm, "failed to unmarshal confirmation: " and "failed to unmarshal response: " for the others |
| SseParser.EventNameIsLast | sse/parser.go:51-58 | the event name is empty without an `event` field, and otherwise the value of the last `event` field |
| SseParser.DataFieldsOf | sse/parser.go:51-58 | there is at most one data value per field, none without a `data` field, and every field's value when all fields are `data` fields |
| SseParser.DataFieldsAppend | sse/parser.go:51-58 | the data values of a run of fields are those of its parts, in field order, and one field contributes its value exactly when it is a `data` field |
| SseParser.KeptTyped | sse/parser.go:88-125 | the typed arms skip no value, not even "" or "[DONE]" |
| SseParser.EmitSucceeds | sse/parser.go:127-142 | an arm fails exactly when some value it does not skip fails to decode; otherwise it emits the decoding of every kept value, in order |
| SseParser.EmitAfterError | sse/parser.go:89-96 | once an arm has failed, later values change nothing |
| SseParser.EmitFirstError | sse/parser.go:89-96 | the first failing value decides the arm's error, and what was emitted before it stays emitted |
| SseParser.ParseAfterError | sse/parser.go:62-83 | once an event has failed, later events change nothing |
| SseParser.ParseEventsAppend | sse/parser.go:39-86 | emission follows stream order: more events only append to what earlier events emitted, and an earlier error is final |
| SseParser.CollectFields | sse/parser.go:48-58 | the field loop's map holds only the `event` key, whose value is the event name, and its list holds the data values |
| SseParser.Parser.EmitIn | sse/parser.go:89-96 | the shared `emit*` loop appends to the emitted values exactly what the arm's specification emits, and returns its error |
| SseParser.Parser.EmitErrors | sse/parser.go:88-99 | `emitErrors` as the errors arm |
| SseParser.Parser.EmitReferences | sse/parser.go:101-112 | `emitReferences` as the references arm |
| SseParser.Parser.EmitConfirmation | sse/parser.go:114-125 | `emitConfirmation` as the confirmation arm |
| SseParser.Parser.EmitDatas | sse/parser.go:127-142 | `emitDatas` as the data arm, which skips "" and "[DONE]" |
| SseParser.Parser.HandleOne | sse/parser.go:48-84 | one event's body appends what its arm emits, and prefixes the arm's error with "failed to process …" |
| SseParser.Parser.ParseAndEmit | sse/parser.go:36-86 | the emitted values and the error are those of parsing the stream: events in order, stopping at the first error, then nothing at the end of input or "failed to read from stream: …" |
| SseRoundTrip.FrameTextOf | sse/sse.go:35-42 | a data frame, a composite frame and the terminator are written as their exact texts |
| SseRoundTrip.FrameScan | sse/parser.go:37-40 | a frame that transmits ends with a blank line and scans into exactly its one event |
| SseRoundTrip.ScanText | sse/parser.go:37-40 | a run of frames scans into one event per frame |
| SseRoundTrip.HandleFrame | sse/parser.go:60-84 | the parser turns a frame's event into the frame's payload, and the terminator into nothing |
| SseRoundTrip.ParseFrames | sse/parser.go:39-86 | parsing the frames' events emits their payloads in order |
| SseRoundTrip.RoundTrip | sse/parser.go:36-86 | the text a fully accepting writer receives for frames that transmit parses back into exactly their payloads, in order; a read error afterwards is reported after them |
| SseRoundTrip.StopRoundTrip | sse/sse.go:244-255 | the stop sequence reads back as the one stop chunk; the terminator after it is skipped |

## Left out

- `payload.go`, `agent.go`, `webhooks.go`, `api.go`, `context.go`, `config.go`, `azure/`,
  `github/`, `jsonschema/` and `_examples/` are not part of this model. They are
  cryptography, HTTP, environment and file I/O, and demo programs.
- JSON encoding and decoding are parameters, not definitions:
  - the writer's `Encoder`;
  - the parser's `Decoders`;
  - the reference `Codec`, with `ValidCodec` stating what the library guarantees.

  `json.Encoder`'s trailing newline is written out in `DataParts`.
- `RepoRe` is not defined in the repository's shown files. It is the `repoRe` parameter of
  `References.Codec`.
- The third-party event-stream scanner is replaced by `SseScanner`. It follows section
  9.2.6 of the HTML Living Standard for `\n` line endings only: no `\r`, no `id`/`retry`
  handling, no BOM. The parser's own properties take the scanned events as input and do
  not depend on it; only `SseRoundTrip` does.
- SseRoundTrip.RoundTrip: covers writers that accept every write, and payloads whose
  JSON text is one line that the receiving arm neither skips nor fails on.
- Strings.EqualFold: case folding covers ASCII letters only. Unicode simple folding is
  not modelled.
- Session.GetSessionInfo: requires `NoPanic`. The Go loop panics on a reference typed
  `github.repository` whose data is not repository data. `DecodedReferenceIsNotBad` shows
  that a successfully decoded reference never triggers it.
- RepoItems.Atoi: Go's `int` is taken to be 64 bits wide, so `MaxInt` is 2^63 - 1.
- Go strings are taken as sequences of characters with no encoding. `\d` and `[^/]` are
  read per character.
- Nil pointers are not modelled:
  - a nil `*Message` in the request;
  - a nil `*Reference` in a message's references, which the walk of `GetSessionInfo`
    dereferences without a check (session.go:62-69, 76-80) and which would panic there;
    `NoPanic` does not cover it;
  - a nil `*ClientConfirmation` in a message's confirmations;
  - a nil element in the lists given to `WriteErrors` and `WriteReferences`;
  - a typed nil data pointer.
- SseWriter.Writer.Write: a refused write stays refused. Once the writer's budget runs
  out, every later write fails, as with net/http's response writer after the connection
  breaks. A general `io.Writer` that fails one write and then accepts the next is not
  covered: for it, the ignored errors of the `"data: "` and final `"\n"` writes in
  `WriteData` can let later bytes through, which no `Write*` method's contract here
  describes. `SseWriter.DeliverIsPrefix` depends on this permanence.
- References.UnmarshalCurrentUrl: after a field of the wrong JSON type, Go's
  `json.Unmarshal` goes on filling the other fields and then returns the type error, so
  the receiver can be partly updated. The model's `Codec.fields` decodes all or nothing,
  and on failure the receiver stays as it was.
- References.UnmarshalReference: the same holds for the header decode (`Codec.header`): a
  type mismatch in one field leaves Go's receiver partly updated, while the model keeps the
  old receiver.
- A write either delivers all its bytes or none. Partial writes (`n < len(p)`) are not
  modelled.
- SseWriter.WriteDeltaWithoutFlush: the creation time `time.Now().UTC().Unix()` is the
  parameter `now`.
- The `context.Context` arguments of `WriteDelta`, `WriteDeltaWithoutFlush` and
  `ParseAndEmit` are unused, and are left out.
- `fmt.Println` diagnostics in `GetSessionInfo` and `cetCurrentURLData` are left out.
- The `o == -1 || r == -1 || n == -1` branch of `resolveRepoItemRef` cannot be taken,
  because both patterns have those groups. Neither can a nil `FindStringSubmatchIndex`
  after a match. Both are left out.
- The errors arm of the parser reports decoding failures with the references wording
  ("failed to unmarshal references: …"), as the code does.
- `WriteStopWithoutFlush` does not use its `id` argument, as in the code.
- Floating-point fields: a repository language's percentage is carried as `real` and never
  computed with; the request's `top_p`, `temperature`, `presence_penalty` and
  `frequency_penalty` are dropped from `Chat.Request`.

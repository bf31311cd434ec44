/** Writing Copilot server-sent events: `data:` frames, `event:` lines, the `[DONE]`
    terminator, and the composite event-then-data writes, over a response writer that may
    start refusing writes and may or may not support flushing. */
module SseWriter {
  import opened Wrappers
  import Strings
  import Chat
  import Errors
  import References
  import Confirmations

  const EventNameConfirmation: string := "copilot_confirmation"
  const EventNameReferences: string := "copilot_references"
  const EventNameErrors: string := "copilot_errors"

  /** The values the stream carries: what `WriteData` is given and what the parser emits. */
  datatype Payload =
    | ErrorsPayload(errors: seq<Errors.Error>)
    | ReferencesPayload(references: seq<References.Reference>)
    | ConfirmationPayload(confirmation: Confirmations.Confirmation)
    | ResponsePayload(response: Chat.Response)

  /** `json.Marshal` as used by `json.Encoder`: the JSON text of a payload, or the marshalling
      error. The encoder writes that text and one newline in a single write. */
  type Encoder = Payload -> Result<string, string>

  /** The error a response writer returns once it refuses writes. */
  const WriteFailed: string := "write failed"

  /** Budget left after `n` writes starting with budget `b`. */
  function Spend(b: nat, n: nat): nat
  {
    if b >= n then b - n else 0
  }

  /** What a writer that accepts `b` more writes receives when `parts` are written one write
      each: the parts it accepts, in order. */
  function Deliver(parts: seq<string>, b: nat): string
  {
    if |parts| == 0 || b == 0 then "" else parts[0] + Deliver(parts[1..], b - 1)
  }

  /** Writing two runs of parts one after the other delivers the first run, then the second
      with the budget the first left. */
  lemma {:induction false} DeliverAppend(ps: seq<string>, qs: seq<string>, b: nat)
    ensures Deliver(ps + qs, b) == Deliver(ps, b) + Deliver(qs, Spend(b, |ps|))
    decreases |ps|
  {
    if |ps| == 0 {
      assert ps + qs == qs;
    } else if b == 0 {
      assert Deliver(qs, 0) == "";
    } else {
      assert (ps + qs)[1..] == ps[1..] + qs;
      DeliverAppend(ps[1..], qs, b - 1);
    }
  }

  /** A writer receives the concatenation of the parts it accepted: all of them when the
      budget covers them, the first `b` otherwise. */
  lemma {:induction false} DeliverIsConcat(parts: seq<string>, b: nat)
    ensures Deliver(parts, b) == Strings.Concat(parts[..if b < |parts| then b else |parts|])
    decreases |parts|
  {
    if |parts| == 0 || b == 0 {
      assert parts[..0] == [];
    } else {
      var n := if b < |parts| then b else |parts|;
      var m := if b - 1 < |parts| - 1 then b - 1 else |parts| - 1;
      DeliverIsConcat(parts[1..], b - 1);
      assert parts[..n] == [parts[0]] + parts[1..][..m];
      Strings.ConcatAppend([parts[0]], parts[1..][..m]);
      assert [parts[0]][..0] == [];
    }
  }

  /** `http.ResponseWriter` as the event functions see it: the bytes written so far, the
      number of flushes, the header map, how many more writes the connection accepts, and
      whether the writer implements `http.Flusher`. */
  class Writer {
    var buf: string
    var flushes: nat
    var budget: nat
    var header: map<string, string>
    const canFlush: bool

    constructor (budget: nat, canFlush: bool)
      ensures this.buf == "" && this.flushes == 0 && this.budget == budget
      ensures this.header == map[] && this.canFlush == canFlush
    {
      this.buf := "";
      this.flushes := 0;
      this.budget := budget;
      this.header := map[];
      this.canFlush := canFlush;
    }

    /** `Write`: a write the connection accepts appends its bytes; a refused one appends
        nothing and returns the write error. */
    method Write(p: string) returns (err: Option<string>)
      modifies this
      ensures buf == old(buf) + Deliver([p], old(budget)) && budget == Spend(old(budget), 1)
      ensures err == (if old(budget) > 0 then None else Some(WriteFailed))
      ensures flushes == old(flushes) && header == old(header)
    {
      if budget > 0 {
        buf := buf + p;
        budget := budget - 1;
        err := None;
      } else {
        err := Some(WriteFailed);
      }
    }

    /** `if f, ok := w.(http.Flusher); ok { f.Flush() }`. */
    method FlushIfFlusher()
      modifies this
      ensures flushes == old(flushes) + (if canFlush then 1 else 0)
      ensures buf == old(buf) && budget == old(budget) && header == old(header)
    {
      if canFlush {
        flushes := flushes + 1;
      }
    }
  }

  // ---------------------------------------------------------------------------------------
  // The parts each function writes, one write per part, and the error it returns.

  const DoneFrame: string := "data: [DONE]\n\n"

  /** `WriteData`: the prefix, then the encoder's text and newline, then one more newline; the
      encoder writes nothing when marshalling fails. */
  function DataParts(e: Result<string, string>): seq<string>
  {
    if e.Failure? then ["data: "] else ["data: ", e.value + "\n", "\n"]
  }

  /** `WriteData`'s error: the marshalling error, else the error of the encoder's write. The
      writes of the prefix and of the final newline are unchecked. */
  function DataError(e: Result<string, string>, b: nat): Option<string>
  {
    if e.Failure? then Some(e.error) else if b < 2 then Some(WriteFailed) else None
  }

  function EventParts(name: string): seq<string>
  {
    ["event: " + name, "\n"]
  }

  /** `WriteEvent`'s error: either of its two writes failing. */
  function EventError(b: nat): Option<string>
  {
    if b < 2 then Some(WriteFailed) else None
  }

  /** An event line followed by a data frame. */
  function CompositeParts(name: string, e: Result<string, string>): seq<string>
  {
    EventParts(name) + DataParts(e)
  }

  /** The composite's error: the event's, else the data frame's. */
  function CompositeError(e: Result<string, string>, b: nat): Option<string>
  {
    if b < 2 then Some(WriteFailed) else DataError(e, b - 2)
  }

  /** A data frame that encodes and is fully accepted is the prefix, the JSON text and two
      newlines; one whose marshalling fails leaves only the prefix. */
  lemma DataFrameText(e: Result<string, string>, b: nat)
    ensures e.Success? && b >= 3 ==> Deliver(DataParts(e), b) == "data: " + e.value + "\n\n"
    ensures e.Failure? && b >= 1 ==> Deliver(DataParts(e), b) == "data: "
    ensures DataError(e, b).None? <==> e.Success? && b >= 2
  {
    if e.Success? && b >= 3 {
      var ps := DataParts(e);
      assert ps[1..][1..][1..] == [];
      assert Deliver(ps[1..][1..], b - 2) == "\n";
      assert Deliver(ps[1..], b - 1) == e.value + "\n" + "\n";
      assert "data: " + (e.value + "\n" + "\n") == "data: " + e.value + "\n\n";
    }
  }

  /** A fully accepted composite is the event line immediately followed by the data frame;
      when the event line fails, no part of the data frame is written. */
  lemma CompositeText(name: string, e: Result<string, string>, b: nat)
    ensures e.Success? && b >= 5 ==>
              Deliver(CompositeParts(name, e), b) == "event: " + name + "\n" + "data: " + e.value + "\n\n"
    ensures b < 2 ==> Deliver(CompositeParts(name, e), b) == Deliver(EventParts(name), b)
    ensures CompositeError(e, b).None? <==> e.Success? && b >= 4
  {
    DeliverAppend(EventParts(name), DataParts(e), b);
    DataFrameText(e, Spend(b, 2));
    assert EventParts(name)[1..][1..] == [];
    if b < 2 {
      assert Spend(b, 2) == 0;
    }
  }

  /** A writer that refuses some writes still receives a prefix of the full text. */
  lemma {:induction false} DeliverIsPrefix(parts: seq<string>, b: nat)
    ensures var full := Deliver(parts, |parts|);
            |Deliver(parts, b)| <= |full| && Deliver(parts, b) == full[..|Deliver(parts, b)|]
    decreases |parts|
  {
    if |parts| > 0 && b > 0 {
      DeliverIsPrefix(parts[1..], b - 1);
      var rest := Deliver(parts[1..], b - 1);
      var full := Deliver(parts[1..], |parts| - 1);
      assert (parts[0] + full)[..|parts[0] + rest|] == parts[0] + full[..|rest|];
    }
  }

  // ---------------------------------------------------------------------------------------
  // The payloads the delta and stop helpers build.

  /** The chunk `WriteDeltaWithoutFlush` sends: the given id and creation time, and exactly one
      choice whose delta carries the content in the assistant role. */
  function DeltaResponse(id: string, delta: string, now: int): (r: Chat.Response)
    ensures r.id == id && r.created == now && |r.choices| == 1
    ensures r.choices[0].delta.content == delta && r.choices[0].delta.role == Chat.RoleName(Chat.Assistant)
    ensures r.choices[0].finishReason == "" && r.references == [] && r.confirmation.None? && r.errors == []
  {
    Chat.Response(id, now, "", "", "",
      [Chat.ChatChoice(0, "", Chat.ChatChoiceDelta(delta, "assistant", "", None))], [], None, [])
  }

  /** The chunk `WriteStopWithoutFlush` sends: no id, and exactly one choice whose finish
      reason is "stop". */
  function StopResponse(): (r: Chat.Response)
    ensures r.id == "" && |r.choices| == 1 && r.choices[0].finishReason == Chat.FinishReasonStop
    ensures r.choices[0].delta.content == "" && r.references == [] && r.errors == []
  {
    Chat.Response("", 0, "", "", "",
      [Chat.ChatChoice(0, Chat.FinishReasonStop, Chat.ChatChoiceDelta("", "", "", None))], [], None, [])
  }

  // ---------------------------------------------------------------------------------------
  // The functions of the package.

  /** `WriteDone`: the terminator frame; a write error is ignored. */
  method WriteDone(w: Writer)
    modifies w
    ensures w.buf == old(w.buf) + Deliver([DoneFrame], old(w.budget)) && w.budget == Spend(old(w.budget), 1)
    ensures w.flushes == old(w.flushes) && w.header == old(w.header)
  {
    var _ := w.Write(DoneFrame);
  }

  /** `WriteDoneAndFlush`: the terminator frame, then a flush whatever the write did. */
  method WriteDoneAndFlush(w: Writer)
    modifies w
    ensures w.buf == old(w.buf) + Deliver([DoneFrame], old(w.budget)) && w.budget == Spend(old(w.budget), 1)
    ensures w.flushes == old(w.flushes) + (if w.canFlush then 1 else 0) && w.header == old(w.header)
  {
    var _ := w.Write(DoneFrame);
    w.FlushIfFlusher();
  }

  /** `WriteData`: `data: `, the encoder's line, and a second newline. */
  method WriteData(w: Writer, enc: Encoder, v: Payload) returns (err: Option<string>)
    modifies w
    ensures w.buf == old(w.buf) + Deliver(DataParts(enc(v)), old(w.budget))
    ensures w.budget == Spend(old(w.budget), |DataParts(enc(v))|)
    ensures err == DataError(enc(v), old(w.budget))
    ensures w.flushes == old(w.flushes) && w.header == old(w.header)
  {
    ghost var b0, buf0 := w.budget, w.buf;
    var _ := w.Write("data: ");
    var text := enc(v);
    if text.Failure? {
      return Some(text.error);
    }
    DeliverAppend(["data: "], [text.value + "\n", "\n"], b0);
    DeliverAppend([text.value + "\n"], ["\n"], Spend(b0, 1));
    err := w.Write(text.value + "\n");
    if err.Some? {
      return err;
    }
    var _ := w.Write("\n");
    return None;
  }

  /** `WriteDataAndFlush`: `WriteData`, then a flush only when it succeeded. */
  method WriteDataAndFlush(w: Writer, enc: Encoder, v: Payload) returns (err: Option<string>)
    modifies w
    ensures w.buf == old(w.buf) + Deliver(DataParts(enc(v)), old(w.budget))
    ensures w.budget == Spend(old(w.budget), |DataParts(enc(v))|)
    ensures err == DataError(enc(v), old(w.budget))
    ensures w.flushes == old(w.flushes) + (if err.None? && w.canFlush then 1 else 0) && w.header == old(w.header)
  {
    err := WriteData(w, enc, v);
    if err.Some? {
      return err;
    }
    w.FlushIfFlusher();
  }

  /** `WriteRawData`: one frame around the raw text; it never reports an error. */
  method WriteRawData(w: Writer, raw: string) returns (err: Option<string>)
    modifies w
    ensures w.buf == old(w.buf) + Deliver(["data: " + raw + "\n\n"], old(w.budget))
    ensures w.budget == Spend(old(w.budget), 1)
    ensures err.None?
    ensures w.flushes == old(w.flushes) && w.header == old(w.header)
  {
    var _ := w.Write("data: " + raw + "\n\n");
    return None;
  }

  /** `WriteEvent`: `event: ` and the name, then a newline; a failed first write stops it. */
  method WriteEvent(w: Writer, name: string) returns (err: Option<string>)
    modifies w
    ensures w.buf == old(w.buf) + Deliver(EventParts(name), old(w.budget))
    ensures w.budget == Spend(old(w.budget), 2)
    ensures err == EventError(old(w.budget))
    ensures w.flushes == old(w.flushes) && w.header == old(w.header)
  {
    ghost var b0 := w.budget;
    DeliverAppend(["event: " + name], ["\n"], b0);
    err := w.Write("event: " + name);
    if err.Some? {
      return err;
    }
    err := w.Write("\n");
    if err.Some? {
      return err;
    }
    return None;
  }

  /** `WriteEventAndFlush`: `WriteEvent`, then a flush only when it succeeded. */
  method WriteEventAndFlush(w: Writer, name: string) returns (err: Option<string>)
    modifies w
    ensures w.buf == old(w.buf) + Deliver(EventParts(name), old(w.budget))
    ensures w.budget == Spend(old(w.budget), 2)
    ensures err == EventError(old(w.budget))
    ensures w.flushes == old(w.flushes) + (if err.None? && w.canFlush then 1 else 0) && w.header == old(w.header)
  {
    err := WriteEvent(w, name);
    if err.Some? {
      return err;
    }
    w.FlushIfFlusher();
  }

  /** The event line with a fixed name followed by a data frame, optionally flushing after a
      successful data frame; the shared body of the composite writers. */
  method WriteComposite(w: Writer, enc: Encoder, name: string, v: Payload, flush: bool) returns (err: Option<string>)
    modifies w
    ensures w.buf == old(w.buf) + Deliver(CompositeParts(name, enc(v)), old(w.budget))
    ensures w.budget == Spend(old(w.budget), |CompositeParts(name, enc(v))|)
    ensures err == CompositeError(enc(v), old(w.budget))
    ensures w.flushes == old(w.flushes) + (if flush && err.None? && w.canFlush then 1 else 0)
    ensures w.header == old(w.header)
  {
    ghost var b0 := w.budget;
    DeliverAppend(EventParts(name), DataParts(enc(v)), b0);
    err := WriteEvent(w, name);
    if err.Some? {
      assert Spend(b0, 2) == 0;
      return err;
    }
    if flush {
      err := WriteDataAndFlush(w, enc, v);
    } else {
      err := WriteData(w, enc, v);
    }
  }

  /** `WriteErrors`: nothing for an empty list; otherwise the `copilot_errors` event and the
      list as one data frame. */
  method WriteErrors(w: Writer, enc: Encoder, errs: seq<Errors.Error>) returns (err: Option<string>)
    modifies w
    ensures |errs| == 0 ==> err.None? && w.buf == old(w.buf) && w.budget == old(w.budget)
    ensures |errs| > 0 ==>
              && w.buf == old(w.buf) + Deliver(CompositeParts(EventNameErrors, enc(ErrorsPayload(errs))), old(w.budget))
              && w.budget == Spend(old(w.budget), |CompositeParts(EventNameErrors, enc(ErrorsPayload(errs)))|)
              && err == CompositeError(enc(ErrorsPayload(errs)), old(w.budget))
    ensures w.flushes == old(w.flushes) && w.header == old(w.header)
  {
    if |errs| == 0 {
      return None;
    }
    err := WriteComposite(w, enc, EventNameErrors, ErrorsPayload(errs), false);
  }

  /** `WriteErrorsAndFlush`: as `WriteErrors`, flushing after a successful data frame. */
  method WriteErrorsAndFlush(w: Writer, enc: Encoder, errs: seq<Errors.Error>) returns (err: Option<string>)
    modifies w
    ensures |errs| == 0 ==> err.None? && w.buf == old(w.buf) && w.budget == old(w.budget) && w.flushes == old(w.flushes)
    ensures |errs| > 0 ==>
              && w.buf == old(w.buf) + Deliver(CompositeParts(EventNameErrors, enc(ErrorsPayload(errs))), old(w.budget))
              && w.budget == Spend(old(w.budget), |CompositeParts(EventNameErrors, enc(ErrorsPayload(errs)))|)
              && err == CompositeError(enc(ErrorsPayload(errs)), old(w.budget))
              && w.flushes == old(w.flushes) + (if err.None? && w.canFlush then 1 else 0)
    ensures w.header == old(w.header)
  {
    if |errs| == 0 {
      return None;
    }
    err := WriteComposite(w, enc, EventNameErrors, ErrorsPayload(errs), true);
  }

  /** `WriteError`: `WriteErrors` of a one-element list, so it always writes. */
  method WriteError(w: Writer, enc: Encoder, e: Errors.Error) returns (err: Option<string>)
    modifies w
    ensures w.buf == old(w.buf) + Deliver(CompositeParts(EventNameErrors, enc(ErrorsPayload([e]))), old(w.budget))
    ensures w.budget == Spend(old(w.budget), |CompositeParts(EventNameErrors, enc(ErrorsPayload([e])))|)
    ensures err == CompositeError(enc(ErrorsPayload([e])), old(w.budget))
    ensures w.flushes == old(w.flushes) && w.header == old(w.header)
  {
    err := WriteErrors(w, enc, [e]);
  }

  /** `WriteErrorAndFlush`: `WriteErrorsAndFlush` of a one-element list. */
  method WriteErrorAndFlush(w: Writer, enc: Encoder, e: Errors.Error) returns (err: Option<string>)
    modifies w
    ensures w.buf == old(w.buf) + Deliver(CompositeParts(EventNameErrors, enc(ErrorsPayload([e]))), old(w.budget))
    ensures w.budget == Spend(old(w.budget), |CompositeParts(EventNameErrors, enc(ErrorsPayload([e])))|)
    ensures err == CompositeError(enc(ErrorsPayload([e])), old(w.budget))
    ensures w.flushes == old(w.flushes) + (if err.None? && w.canFlush then 1 else 0) && w.header == old(w.header)
  {
    err := WriteErrorsAndFlush(w, enc, [e]);
  }

  /** `WriteReferences`: nothing for an empty list; otherwise the `copilot_references` event
      and the list as one data frame. */
  method WriteReferences(w: Writer, enc: Encoder, refs: seq<References.Reference>) returns (err: Option<string>)
    modifies w
    ensures |refs| == 0 ==> err.None? && w.buf == old(w.buf) && w.budget == old(w.budget)
    ensures |refs| > 0 ==>
              && w.buf == old(w.buf) + Deliver(CompositeParts(EventNameReferences, enc(ReferencesPayload(refs))), old(w.budget))
              && w.budget == Spend(old(w.budget), |CompositeParts(EventNameReferences, enc(ReferencesPayload(refs)))|)
              && err == CompositeError(enc(ReferencesPayload(refs)), old(w.budget))
    ensures w.flushes == old(w.flushes) && w.header == old(w.header)
  {
    if |refs| == 0 {
      return None;
    }
    err := WriteComposite(w, enc, EventNameReferences, ReferencesPayload(refs), false);
  }

  /** `WriteReferencesAndFlush`: as `WriteReferences`, flushing after a successful data frame. */
  method WriteReferencesAndFlush(w: Writer, enc: Encoder, refs: seq<References.Reference>) returns (err: Option<string>)
    modifies w
    ensures |refs| == 0 ==> err.None? && w.buf == old(w.buf) && w.budget == old(w.budget) && w.flushes == old(w.flushes)
    ensures |refs| > 0 ==>
              && w.buf == old(w.buf) + Deliver(CompositeParts(EventNameReferences, enc(ReferencesPayload(refs))), old(w.budget))
              && w.budget == Spend(old(w.budget), |CompositeParts(EventNameReferences, enc(ReferencesPayload(refs)))|)
              && err == CompositeError(enc(ReferencesPayload(refs)), old(w.budget))
              && w.flushes == old(w.flushes) + (if err.None? && w.canFlush then 1 else 0)
    ensures w.header == old(w.header)
  {
    if |refs| == 0 {
      return None;
    }
    err := WriteComposite(w, enc, EventNameReferences, ReferencesPayload(refs), true);
  }

  /** `WriteReference`: `WriteReferences` of a one-element list, so it always writes. */
  method WriteReference(w: Writer, enc: Encoder, ref: References.Reference) returns (err: Option<string>)
    modifies w
    ensures w.buf == old(w.buf) + Deliver(CompositeParts(EventNameReferences, enc(ReferencesPayload([ref]))), old(w.budget))
    ensures w.budget == Spend(old(w.budget), |CompositeParts(EventNameReferences, enc(ReferencesPayload([ref])))|)
    ensures err == CompositeError(enc(ReferencesPayload([ref])), old(w.budget))
    ensures w.flushes == old(w.flushes) && w.header == old(w.header)
  {
    err := WriteReferences(w, enc, [ref]);
  }

  /** `WriteReferenceAndFlush`: `WriteReferencesAndFlush` of a one-element list. */
  method WriteReferenceAndFlush(w: Writer, enc: Encoder, ref: References.Reference) returns (err: Option<string>)
    modifies w
    ensures w.buf == old(w.buf) + Deliver(CompositeParts(EventNameReferences, enc(ReferencesPayload([ref]))), old(w.budget))
    ensures w.budget == Spend(old(w.budget), |CompositeParts(EventNameReferences, enc(ReferencesPayload([ref])))|)
    ensures err == CompositeError(enc(ReferencesPayload([ref])), old(w.budget))
    ensures w.flushes == old(w.flushes) + (if err.None? && w.canFlush then 1 else 0) && w.header == old(w.header)
  {
    err := WriteReferencesAndFlush(w, enc, [ref]);
  }

  /** `WriteConfirmation`: the `copilot_confirmation` event and the confirmation as one data
      frame, always. */
  method WriteConfirmation(w: Writer, enc: Encoder, c: Confirmations.Confirmation) returns (err: Option<string>)
    modifies w
    ensures w.buf == old(w.buf) + Deliver(CompositeParts(EventNameConfirmation, enc(ConfirmationPayload(c))), old(w.budget))
    ensures w.budget == Spend(old(w.budget), |CompositeParts(EventNameConfirmation, enc(ConfirmationPayload(c)))|)
    ensures err == CompositeError(enc(ConfirmationPayload(c)), old(w.budget))
    ensures w.flushes == old(w.flushes) && w.header == old(w.header)
  {
    err := WriteComposite(w, enc, EventNameConfirmation, ConfirmationPayload(c), false);
  }

  /** `WriteConfirmationAndFlush`: as `WriteConfirmation`, flushing after a successful data
      frame. */
  method WriteConfirmationAndFlush(w: Writer, enc: Encoder, c: Confirmations.Confirmation) returns (err: Option<string>)
    modifies w
    ensures w.buf == old(w.buf) + Deliver(CompositeParts(EventNameConfirmation, enc(ConfirmationPayload(c))), old(w.budget))
    ensures w.budget == Spend(old(w.budget), |CompositeParts(EventNameConfirmation, enc(ConfirmationPayload(c)))|)
    ensures err == CompositeError(enc(ConfirmationPayload(c)), old(w.budget))
    ensures w.flushes == old(w.flushes) + (if err.None? && w.canFlush then 1 else 0) && w.header == old(w.header)
  {
    err := WriteComposite(w, enc, EventNameConfirmation, ConfirmationPayload(c), true);
  }

  /** `WriteDeltaWithoutFlush`: one data frame holding the delta chunk; `now` is the
      creation time in Unix seconds. */
  method WriteDeltaWithoutFlush(w: Writer, enc: Encoder, id: string, delta: string, now: int) returns (err: Option<string>)
    modifies w
    ensures var p := ResponsePayload(DeltaResponse(id, delta, now));
            && w.buf == old(w.buf) + Deliver(DataParts(enc(p)), old(w.budget))
            && w.budget == Spend(old(w.budget), |DataParts(enc(p))|)
            && err == DataError(enc(p), old(w.budget))
    ensures w.flushes == old(w.flushes) && w.header == old(w.header)
  {
    err := WriteData(w, enc, ResponsePayload(DeltaResponse(id, delta, now)));
  }

  /** `WriteDelta`: `WriteDeltaWithoutFlush`, then a flush only when it succeeded. */
  method WriteDelta(w: Writer, enc: Encoder, id: string, delta: string, now: int) returns (err: Option<string>)
    modifies w
    ensures var p := ResponsePayload(DeltaResponse(id, delta, now));
            && w.buf == old(w.buf) + Deliver(DataParts(enc(p)), old(w.budget))
            && w.budget == Spend(old(w.budget), |DataParts(enc(p))|)
            && err == DataError(enc(p), old(w.budget))
    ensures w.flushes == old(w.flushes) + (if err.None? && w.canFlush then 1 else 0) && w.header == old(w.header)
  {
    err := WriteDeltaWithoutFlush(w, enc, id, delta, now);
    if err.Some? {
      return err;
    }
    w.FlushIfFlusher();
  }

  /** The parts of the stop sequence: the stop chunk's data frame, then the terminator. A
      failed data frame leaves out the terminator; the budget model delivers nothing after a
      refused write, so the parts can list it unconditionally. */
  function StopParts(enc: Encoder): seq<string>
  {
    if enc(ResponsePayload(StopResponse())).Failure? then ["data: "]
    else DataParts(enc(ResponsePayload(StopResponse()))) + [DoneFrame]
  }

  /** `WriteStopWithoutFlush`: the stop chunk's data frame, then the terminator. The id
      argument is not used. */
  method WriteStopWithoutFlush(w: Writer, enc: Encoder, id: string) returns (err: Option<string>)
    modifies w
    ensures w.buf == old(w.buf) + Deliver(StopParts(enc), old(w.budget))
    ensures w.budget == Spend(old(w.budget), |StopParts(enc)|)
    ensures err == DataError(enc(ResponsePayload(StopResponse())), old(w.budget))
    ensures w.flushes == old(w.flushes) && w.header == old(w.header)
  {
    ghost var b0 := w.budget;
    var p := ResponsePayload(StopResponse());
    err := WriteData(w, enc, p);
    if err.Some? {
      if enc(p).Success? {
        DeliverAppend(DataParts(enc(p)), [DoneFrame], b0);
        assert Spend(b0, 3) == 0;
      }
      return err;
    }
    DeliverAppend(DataParts(enc(p)), [DoneFrame], b0);
    WriteDone(w);
    return None;
  }

  /** `WriteStop`: `WriteStopWithoutFlush`, then a flush only when it succeeded. */
  method WriteStop(w: Writer, enc: Encoder, id: string) returns (err: Option<string>)
    modifies w
    ensures w.buf == old(w.buf) + Deliver(StopParts(enc), old(w.budget))
    ensures w.budget == Spend(old(w.budget), |StopParts(enc)|)
    ensures err == DataError(enc(ResponsePayload(StopResponse())), old(w.budget))
    ensures w.flushes == old(w.flushes) + (if err.None? && w.canFlush then 1 else 0) && w.header == old(w.header)
  {
    err := WriteStopWithoutFlush(w, enc, id);
    if err.Some? {
      return err;
    }
    w.FlushIfFlusher();
  }

  /** `WriteStopAndFlush`: the same as `WriteStop`. */
  method WriteStopAndFlush(w: Writer, enc: Encoder, id: string) returns (err: Option<string>)
    modifies w
    ensures w.buf == old(w.buf) + Deliver(StopParts(enc), old(w.budget))
    ensures w.budget == Spend(old(w.budget), |StopParts(enc)|)
    ensures err == DataError(enc(ResponsePayload(StopResponse())), old(w.budget))
    ensures w.flushes == old(w.flushes) + (if err.None? && w.canFlush then 1 else 0) && w.header == old(w.header)
  {
    err := WriteStop(w, enc, id);
  }

  /** A fully accepted stop sequence is the stop chunk's frame followed by the terminator. */
  lemma StopText(enc: Encoder, b: nat)
    requires enc(ResponsePayload(StopResponse())).Success? && b >= 4
    ensures Deliver(StopParts(enc), b) ==
              "data: " + enc(ResponsePayload(StopResponse())).value + "\n\n" + DoneFrame
  {
    var e := enc(ResponsePayload(StopResponse()));
    DeliverAppend(DataParts(e), [DoneFrame], b);
    DataFrameText(e, b);
    assert Deliver([DoneFrame], b - 3) == DoneFrame + Deliver([], b - 4);
  }

  /** `WriteStreamingHeaders`: sets the four streaming headers, replacing earlier values. */
  method WriteStreamingHeaders(w: Writer)
    modifies w
    ensures w.header == old(w.header)["Content-Type" := "text/event-stream"]["Cache-Control" := "no-cache"]
                          ["Connection" := "keep-alive"]["Transfer-Encoding" := "chunked"]
    ensures w.buf == old(w.buf) && w.budget == old(w.budget) && w.flushes == old(w.flushes)
  {
    w.header := w.header["Content-Type" := "text/event-stream"];
    w.header := w.header["Cache-Control" := "no-cache"];
    w.header := w.header["Connection" := "keep-alive"];
    w.header := w.header["Transfer-Encoding" := "chunked"];
  }
}

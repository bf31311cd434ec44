/** Reading a Copilot event stream back: each scanned event keeps only its `event` and
    `data` fields, its name selects a typed decoder, every data value is decoded in order and
    handed to the emitter, and the first decoding failure ends the parse. */
module SseParser {
  import opened Wrappers
  import Strings
  import Errors
  import References
  import Confirmations
  import Chat
  import SseScanner
  import SseWriter

  const DataFieldName: string := "data"
  const EventFieldName: string := "event"

  /** How the scanner's stream ended: at the end of the input, or with a read error. */
  datatype StreamEnd = Eof | ReadError(message: string)

  /** `json.Unmarshal` into each of the four target types. */
  datatype Decoders = Decoders(
    errors: string -> Result<seq<Errors.Error>, string>,
    references: string -> Result<seq<References.Reference>, string>,
    confirmation: string -> Result<Confirmations.Confirmation, string>,
    response: string -> Result<Chat.Response, string>)

  /** The four arms of the dispatch on the event name. */
  datatype Branch = ConfirmationBranch | ReferencesBranch | ErrorsBranch | DataBranch

  /** The arm an event name selects; any other name, including none, is plain data. */
  function BranchOf(name: string): (b: Branch)
    ensures b == ConfirmationBranch <==> name == SseWriter.EventNameConfirmation
    ensures b == ReferencesBranch <==> name == SseWriter.EventNameReferences
    ensures b == ErrorsBranch <==> name == SseWriter.EventNameErrors
  {
    if name == "copilot_confirmation" then ConfirmationBranch
    else if name == "copilot_references" then ReferencesBranch
    else if name == "copilot_errors" then ErrorsBranch
    else DataBranch
  }

  /** The arm a payload belongs to. */
  function BranchOfPayload(p: SseWriter.Payload): Branch
  {
    match p
    case ErrorsPayload(_) => ErrorsBranch
    case ReferencesPayload(_) => ReferencesBranch
    case ConfirmationPayload(_) => ConfirmationBranch
    case ResponsePayload(_) => DataBranch
  }

  /** The event name: the value of the last `event` field, or empty when there is none. */
  function EventName(fields: seq<SseScanner.Field>): string
  {
    if |fields| == 0 then ""
    else if fields[|fields| - 1].name == EventFieldName then fields[|fields| - 1].value
    else EventName(fields[..|fields| - 1])
  }

  /** With no `event` field the name is empty; otherwise it is the value of an `event` field
      after which no other `event` field follows. */
  lemma {:induction false} EventNameIsLast(fields: seq<SseScanner.Field>)
    ensures (forall k :: 0 <= k < |fields| ==> fields[k].name != EventFieldName) ==> EventName(fields) == ""
    ensures (exists k :: 0 <= k < |fields| && fields[k].name == EventFieldName) ==>
              exists k :: 0 <= k < |fields| && fields[k].name == EventFieldName && fields[k].value == EventName(fields)
                          && forall j :: k < j < |fields| ==> fields[j].name != EventFieldName
  {
    if |fields| > 0 {
      var p := fields[..|fields| - 1];
      assert forall k :: 0 <= k < |p| ==> p[k] == fields[k];
      EventNameIsLast(p);
      if fields[|fields| - 1].name != EventFieldName && exists k :: 0 <= k < |fields| && fields[k].name == EventFieldName {
        var k :| 0 <= k < |fields| && fields[k].name == EventFieldName;
        assert k < |p| && p[k].name == EventFieldName;
      }
    }
  }

  /** The values of the `data` fields, in order. */
  function DataFields(fields: seq<SseScanner.Field>): seq<string>
  {
    if |fields| == 0 then []
    else
      var last := fields[|fields| - 1];
      DataFields(fields[..|fields| - 1]) + (if last.name == DataFieldName then [last.value] else [])
  }

  /** The data values are at most one per field, none without `data` fields, and exactly the
      field values when every field is a `data` field. */
  lemma {:induction false} DataFieldsOf(fields: seq<SseScanner.Field>)
    ensures |DataFields(fields)| <= |fields|
    ensures (forall k :: 0 <= k < |fields| ==> fields[k].name != DataFieldName) ==> DataFields(fields) == []
    ensures (forall k :: 0 <= k < |fields| ==> fields[k].name == DataFieldName) ==>
              |DataFields(fields)| == |fields| && forall i :: 0 <= i < |fields| ==> DataFields(fields)[i] == fields[i].value
  {
    if |fields| > 0 {
      var p := fields[..|fields| - 1];
      assert forall k :: 0 <= k < |p| ==> p[k] == fields[k];
      DataFieldsOf(p);
    }
  }

  /** The data values of consecutive runs of fields are those of each run, in field order: a
      single field contributes its value exactly when it is a `data` field. */
  lemma {:induction false} DataFieldsAppend(a: seq<SseScanner.Field>, b: seq<SseScanner.Field>)
    ensures DataFields(a + b) == DataFields(a) + DataFields(b)
    ensures |b| == 1 ==> DataFields(b) == (if b[0].name == DataFieldName then [b[0].value] else [])
    decreases |b|
  {
    if |b| == 0 {
      assert a + b == a;
    } else {
      var p := b[..|b| - 1];
      assert (a + b)[..|a + b| - 1] == a + p;
      assert (a + b)[|a + b| - 1] == b[|b| - 1];
      DataFieldsAppend(a, p);
      Strings.AppendAssoc(DataFields(a), DataFields(p),
                          if b[|b| - 1].name == DataFieldName then [b[|b| - 1].value] else []);
      if |b| == 1 {
        assert p == [];
      }
    }
  }

  /** Only the untyped arm skips, and only empty and `[DONE]` values. */
  predicate Skipped(b: Branch, d: string)
  {
    b == DataBranch && (d == "" || d == "[DONE]")
  }

  /** Decoding one data value in an arm; the error carries the arm's unmarshal prefix (the
      errors arm reuses the references wording). */
  function DecodeIn(b: Branch, dec: Decoders, d: string): (r: Result<SseWriter.Payload, string>)
    ensures r.Success? ==> BranchOfPayload(r.value) == b
    ensures b == ErrorsBranch ==> (r.Success? <==> dec.errors(d).Success?)
    ensures b == ReferencesBranch ==> (r.Success? <==> dec.references(d).Success?)
    ensures b == ConfirmationBranch ==> (r.Success? <==> dec.confirmation(d).Success?)
    ensures b == DataBranch ==> (r.Success? <==> dec.response(d).Success?)
    ensures b == ErrorsBranch && dec.errors(d).Success? ==> r == Success(SseWriter.ErrorsPayload(dec.errors(d).value))
    ensures b == ErrorsBranch && dec.errors(d).Failure? ==>
              r == Failure("failed to unmarshal references: " + dec.errors(d).error)
    ensures b == ReferencesBranch && dec.references(d).Success? ==>
              r == Success(SseWriter.ReferencesPayload(dec.references(d).value))
    ensures b == ReferencesBranch && dec.references(d).Failure? ==>
              r == Failure("failed to unmarshal references: " + dec.references(d).error)
    ensures b == ConfirmationBranch && dec.confirmation(d).Success? ==>
              r == Success(SseWriter.ConfirmationPayload(dec.confirmation(d).value))
    ensures b == ConfirmationBranch && dec.confirmation(d).Failure? ==>
              r == Failure("failed to unmarshal confirmation: " + dec.confirmation(d).error)
    ensures b == DataBranch && dec.response(d).Success? ==> r == Success(SseWriter.ResponsePayload(dec.response(d).value))
    ensures b == DataBranch && dec.response(d).Failure? ==>
              r == Failure("failed to unmarshal response: " + dec.response(d).error)
  {
    match b
    case ErrorsBranch =>
      (match dec.errors(d)
       case Success(v) => Success(SseWriter.ErrorsPayload(v))
       case Failure(e) => Failure("failed to unmarshal references: " + e))
    case ReferencesBranch =>
      (match dec.references(d)
       case Success(v) => Success(SseWriter.ReferencesPayload(v))
       case Failure(e) => Failure("failed to unmarshal references: " + e))
    case ConfirmationBranch =>
      (match dec.confirmation(d)
       case Success(v) => Success(SseWriter.ConfirmationPayload(v))
       case Failure(e) => Failure("failed to unmarshal confirmation: " + e))
    case DataBranch =>
      (match dec.response(d)
       case Success(v) => Success(SseWriter.ResponsePayload(v))
       case Failure(e) => Failure("failed to unmarshal response: " + e))
  }

  /** The prefix `ParseAndEmit` puts on an arm's error. */
  function ProcessPrefix(b: Branch): string
  {
    match b
    case ConfirmationBranch => "failed to process confirmation: "
    case ReferencesBranch => "failed to process references: "
    case ErrorsBranch => "failed to process errors: "
    case DataBranch => "failed to process data: "
  }

  /** What a run of the parser produced: the values handed to the emitter, and the error. */
  datatype Outcome = Outcome(emitted: seq<SseWriter.Payload>, err: Option<string>)

  /** The loop of an `emit*` function over its data values: skipped values produce nothing,
      decoded ones are emitted in order, and the first failure stops the loop. */
  function Emit(b: Branch, dec: Decoders, ds: seq<string>): Outcome
  {
    if |ds| == 0 then Outcome([], None)
    else
      var r := Emit(b, dec, ds[..|ds| - 1]);
      var d := ds[|ds| - 1];
      if r.err.Some? || Skipped(b, d) then r
      else
        match DecodeIn(b, dec, d)
        case Failure(e) => Outcome(r.emitted, Some(e))
        case Success(v) => Outcome(r.emitted + [v], None)
  }

  /** The data values an arm does not skip, in order. */
  function Kept(b: Branch, ds: seq<string>): seq<string>
  {
    if |ds| == 0 then []
    else Kept(b, ds[..|ds| - 1]) + (if Skipped(b, ds[|ds| - 1]) then [] else [ds[|ds| - 1]])
  }

  /** The typed arms skip nothing. */
  lemma {:induction false} KeptTyped(b: Branch, ds: seq<string>)
    requires b != DataBranch
    ensures Kept(b, ds) == ds
  {
    if |ds| > 0 {
      var p, d := ds[..|ds| - 1], ds[|ds| - 1];
      KeptTyped(b, p);
      assert !Skipped(b, d);
      assert Kept(b, ds) == p + [d];
      assert p + [d] == ds;
    }
  }

  /** An arm fails exactly when some value it does not skip fails to decode; when it does not
      fail, it emits the decoding of every kept value, in order. */
  lemma {:induction false} EmitSucceeds(b: Branch, dec: Decoders, ds: seq<string>)
    ensures Emit(b, dec, ds).err.None? <==>
              forall k :: 0 <= k < |ds| && !Skipped(b, ds[k]) ==> DecodeIn(b, dec, ds[k]).Success?
    ensures Emit(b, dec, ds).err.None? ==>
              var kept := Kept(b, ds);
              && |Emit(b, dec, ds).emitted| == |kept|
              && forall i :: 0 <= i < |kept| ==>
                   DecodeIn(b, dec, kept[i]).Success? && Emit(b, dec, ds).emitted[i] == DecodeIn(b, dec, kept[i]).value
  {
    if |ds| > 0 {
      var p := ds[..|ds| - 1];
      EmitSucceeds(b, dec, p);
      assert forall k :: 0 <= k < |p| ==> p[k] == ds[k];
    }
  }

  /** Once an arm has failed, later values change nothing. */
  lemma {:induction false} EmitAfterError(b: Branch, dec: Decoders, ds: seq<string>, j: nat)
    requires j <= |ds| && Emit(b, dec, ds[..j]).err.Some?
    ensures Emit(b, dec, ds) == Emit(b, dec, ds[..j])
    decreases |ds| - j
  {
    if j < |ds| {
      assert ds[..j + 1][..j] == ds[..j];
      EmitAfterError(b, dec, ds, j + 1);
    } else {
      assert ds[..j] == ds;
    }
  }

  /** The first value that fails to decode decides the arm's error, and what was emitted
      before it stays emitted. */
  lemma EmitFirstError(b: Branch, dec: Decoders, ds: seq<string>, k: nat)
    requires k < |ds| && !Skipped(b, ds[k]) && DecodeIn(b, dec, ds[k]).Failure?
    requires forall j :: 0 <= j < k && !Skipped(b, ds[j]) ==> DecodeIn(b, dec, ds[j]).Success?
    ensures Emit(b, dec, ds) == Outcome(Emit(b, dec, ds[..k]).emitted, Some(DecodeIn(b, dec, ds[k]).error))
  {
    var p := ds[..k];
    assert forall j :: 0 <= j < |p| ==> p[j] == ds[j];
    EmitSucceeds(b, dec, p);
    assert ds[..k + 1][..k] == p;
    EmitAfterError(b, dec, ds, k + 1);
  }

  /** One event: its name picks the arm, its data values go through it, and an error gets the
      arm's prefix. */
  function HandleEvent(fields: seq<SseScanner.Field>, dec: Decoders): Outcome
  {
    var b := BranchOf(EventName(fields));
    var o := Emit(b, dec, DataFields(fields));
    if o.err.Some? then Outcome(o.emitted, Some(ProcessPrefix(b) + o.err.value)) else o
  }

  /** The events in stream order, stopping at the first one that fails. */
  function ParseEvents(events: seq<seq<SseScanner.Field>>, dec: Decoders): Outcome
  {
    if |events| == 0 then Outcome([], None)
    else
      var r := ParseEvents(events[..|events| - 1], dec);
      if r.err.Some? then r else ParseStep(r, events[|events| - 1], dec)
  }

  /** One more event after a run that has not failed. */
  function ParseStep(r: Outcome, fields: seq<SseScanner.Field>, dec: Decoders): Outcome
  {
    var o := HandleEvent(fields, dec);
    Outcome(r.emitted + o.emitted, o.err)
  }

  /** The whole stream: the events, then the end of input (no error) or the read error. */
  function ParseStream(events: seq<seq<SseScanner.Field>>, end: StreamEnd, dec: Decoders): Outcome
  {
    var o := ParseEvents(events, dec);
    if o.err.Some? then o
    else
      match end
      case Eof => o
      case ReadError(m) => Outcome(o.emitted, Some("failed to read from stream: " + m))
  }

  /** Parsing one more event of a stream. */
  lemma ParseEventsSnoc(events: seq<seq<SseScanner.Field>>, dec: Decoders, i: nat)
    requires i < |events|
    ensures var r := ParseEvents(events[..i], dec);
            ParseEvents(events[..i + 1], dec) == if r.err.Some? then r else ParseStep(r, events[i], dec)
  {
    assert events[..i + 1][..i] == events[..i];
  }

  /** Once an event has failed, later events change nothing. */
  lemma {:induction false} ParseAfterError(events: seq<seq<SseScanner.Field>>, dec: Decoders, j: nat)
    requires j <= |events| && ParseEvents(events[..j], dec).err.Some?
    ensures ParseEvents(events, dec) == ParseEvents(events[..j], dec)
    decreases |events| - j
  {
    if j < |events| {
      assert events[..j + 1][..j] == events[..j];
      ParseAfterError(events, dec, j + 1);
    } else {
      assert events[..j] == events;
    }
  }

  /** Emission follows stream order: parsing more events only appends to what earlier events
      emitted, and an earlier error is final. */
  lemma {:induction false} ParseEventsAppend(es: seq<seq<SseScanner.Field>>, fs: seq<seq<SseScanner.Field>>, dec: Decoders)
    ensures ParseEvents(es, dec).err.Some? ==> ParseEvents(es + fs, dec) == ParseEvents(es, dec)
    ensures ParseEvents(es, dec).err.None? ==>
              ParseEvents(es + fs, dec) ==
                Outcome(ParseEvents(es, dec).emitted + ParseEvents(fs, dec).emitted, ParseEvents(fs, dec).err)
    decreases |fs|
  {
    if ParseEvents(es, dec).err.Some? {
      assert (es + fs)[..|es|] == es;
      ParseAfterError(es + fs, dec, |es|);
    } else {
      ParseEventsAppendOk(es, fs, dec);
    }
  }

  lemma {:induction false} ParseEventsAppendOk(es: seq<seq<SseScanner.Field>>, fs: seq<seq<SseScanner.Field>>, dec: Decoders)
    requires ParseEvents(es, dec).err.None?
    ensures ParseEvents(es + fs, dec) ==
              Outcome(ParseEvents(es, dec).emitted + ParseEvents(fs, dec).emitted, ParseEvents(fs, dec).err)
    decreases |fs|
  {
    if |fs| == 0 {
      assert es + fs == es;
    } else {
      var n := |fs| - 1;
      var ys := es + fs;
      var a := ParseEvents(es, dec).emitted;
      var q := ParseEvents(fs[..n], dec);
      var r := ParseEvents(es + fs[..n], dec);
      assert r == Outcome(a + q.emitted, q.err) by {
        ParseEventsAppendOk(es, fs[..n], dec);
      }
      assert ys[..|ys| - 1] == es + fs[..n];
      assert ys[|ys| - 1] == fs[n];
      ParseEventsLast(ys, dec);
      ParseEventsLast(fs, dec);
      if q.err.None? {
        ParseStepAfter(a, q, fs[n], dec);
      }
    }
  }

  /** The last event of a run is parsed after the others. */
  lemma ParseEventsLast(events: seq<seq<SseScanner.Field>>, dec: Decoders)
    requires |events| > 0
    ensures var r := ParseEvents(events[..|events| - 1], dec);
            ParseEvents(events, dec) == if r.err.Some? then r else ParseStep(r, events[|events| - 1], dec)
  {
  }

  /** A step after a longer history appends to that history. */
  lemma ParseStepAfter(a: seq<SseWriter.Payload>, q: Outcome, fields: seq<SseScanner.Field>, dec: Decoders)
    ensures ParseStep(Outcome(a + q.emitted, q.err), fields, dec) ==
              Outcome(a + ParseStep(q, fields, dec).emitted, ParseStep(q, fields, dec).err)
  {
    Strings.AppendAssoc(a, q.emitted, HandleEvent(fields, dec).emitted);
  }

  /** `Parser`: the scanned events and how the stream ended stand for the reader, and
      `emitted` records every value handed to the emitter callback. */
  class Parser {
    const events: seq<seq<SseScanner.Field>>
    const end: StreamEnd
    const dec: Decoders
    var emitted: seq<SseWriter.Payload>

    /** `NewParser`. */
    constructor (events: seq<seq<SseScanner.Field>>, end: StreamEnd, dec: Decoders)
      ensures this.events == events && this.end == end && this.dec == dec && this.emitted == []
    {
      this.events := events;
      this.end := end;
      this.dec := dec;
      this.emitted := [];
    }

    /** The loop shared by the `emit*` functions. */
    method EmitIn(b: Branch, data: seq<string>) returns (err: Option<string>)
      modifies this
      ensures emitted == old(emitted) + Emit(b, dec, data).emitted
      ensures err == Emit(b, dec, data).err
    {
      var j := 0;
      while j < |data|
        invariant 0 <= j <= |data|
        invariant Emit(b, dec, data[..j]).err.None?
        invariant emitted == old(emitted) + Emit(b, dec, data[..j]).emitted
      {
        var d := data[j];
        assert data[..j + 1][..j] == data[..j];
        if Skipped(b, d) {
          j := j + 1;
          continue;
        }
        var r := DecodeIn(b, dec, d);
        if r.Failure? {
          EmitAfterError(b, dec, data, j + 1);
          return Some(r.error);
        }
        emitted := emitted + [r.value];
        j := j + 1;
      }
      assert data[..j] == data;
      return None;
    }

    /** `emitErrors`. */
    method EmitErrors(data: seq<string>) returns (err: Option<string>)
      modifies this
      ensures emitted == old(emitted) + Emit(ErrorsBranch, dec, data).emitted
      ensures err == Emit(ErrorsBranch, dec, data).err
    {
      err := EmitIn(ErrorsBranch, data);
    }

    /** `emitReferences`. */
    method EmitReferences(data: seq<string>) returns (err: Option<string>)
      modifies this
      ensures emitted == old(emitted) + Emit(ReferencesBranch, dec, data).emitted
      ensures err == Emit(ReferencesBranch, dec, data).err
    {
      err := EmitIn(ReferencesBranch, data);
    }

    /** `emitConfirmation`. */
    method EmitConfirmation(data: seq<string>) returns (err: Option<string>)
      modifies this
      ensures emitted == old(emitted) + Emit(ConfirmationBranch, dec, data).emitted
      ensures err == Emit(ConfirmationBranch, dec, data).err
    {
      err := EmitIn(ConfirmationBranch, data);
    }

    /** `emitDatas`. */
    method EmitDatas(data: seq<string>) returns (err: Option<string>)
      modifies this
      ensures emitted == old(emitted) + Emit(DataBranch, dec, data).emitted
      ensures err == Emit(DataBranch, dec, data).err
    {
      err := EmitIn(DataBranch, data);
    }

    /** The body of `ParseAndEmit`'s loop for one event: collect its fields, dispatch on its
        name, and prefix an arm's error. */
    method HandleOne(fields: seq<SseScanner.Field>) returns (err: Option<string>)
      modifies this
      ensures emitted == old(emitted) + HandleEvent(fields, dec).emitted
      ensures err == HandleEvent(fields, dec).err
    {
      var eventFields, dataFields := CollectFields(fields);
      var name := if EventFieldName in eventFields then eventFields[EventFieldName] else "";
      var e: Option<string>;
      var b := BranchOf(name);
      if b == ConfirmationBranch {
        e := EmitConfirmation(dataFields);
      } else if b == ReferencesBranch {
        e := EmitReferences(dataFields);
      } else if b == ErrorsBranch {
        e := EmitErrors(dataFields);
      } else {
        e := EmitDatas(dataFields);
      }
      if e.Some? {
        return Some(ProcessPrefix(b) + e.value);
      }
      return None;
    }

    /** `ParseAndEmit`. */
    method ParseAndEmit() returns (err: Option<string>)
      modifies this
      ensures emitted == old(emitted) + ParseStream(events, end, dec).emitted
      ensures err == ParseStream(events, end, dec).err
    {
      var i := 0;
      while i < |events|
        invariant 0 <= i <= |events|
        invariant ParseEvents(events[..i], dec).err.None?
        invariant emitted == old(emitted) + ParseEvents(events[..i], dec).emitted
      {
        ParseEventsSnoc(events, dec, i);
        ghost var before := emitted;
        var e := HandleOne(events[i]);
        ghost var done := ParseEvents(events[..i], dec).emitted;
        ghost var more := HandleEvent(events[i], dec).emitted;
        Strings.AppendAssoc(old(emitted), done, more);
        if e.Some? {
          ParseAfterError(events, dec, i + 1);
          return e;
        }
        i := i + 1;
      }
      assert events[..i] == events;
      if end.ReadError? {
        return Some("failed to read from stream: " + end.message);
      }
      return None;
    }
  }

  /** The field loop of `ParseAndEmit`: the `event` field goes into a map (the last one
      stays), `data` values are appended to a list, every other field is dropped. */
  method CollectFields(fields: seq<SseScanner.Field>) returns (eventFields: map<string, string>, dataFields: seq<string>)
    ensures eventFields.Keys <= {EventFieldName}
    ensures (if EventFieldName in eventFields then eventFields[EventFieldName] else "") == EventName(fields)
    ensures dataFields == DataFields(fields)
  {
    eventFields := map[];
    dataFields := [];
    var j := 0;
    while j < |fields|
      invariant 0 <= j <= |fields|
      invariant eventFields.Keys <= {EventFieldName}
      invariant (if EventFieldName in eventFields then eventFields[EventFieldName] else "") == EventName(fields[..j])
      invariant dataFields == DataFields(fields[..j])
    {
      var field := fields[j];
      FieldsSnoc(fields, j);
      if field.name == EventFieldName {
        eventFields := eventFields[EventFieldName := field.value];
      } else if field.name == DataFieldName {
        dataFields := dataFields + [field.value];
      }
      j := j + 1;
    }
    assert fields[..j] == fields;
  }

  /** One more field: an `event` field replaces the name, a `data` field adds a value. */
  lemma FieldsSnoc(fields: seq<SseScanner.Field>, j: nat)
    requires j < |fields|
    ensures EventName(fields[..j + 1]) ==
              if fields[j].name == EventFieldName then fields[j].value else EventName(fields[..j])
    ensures DataFields(fields[..j + 1]) ==
              DataFields(fields[..j]) + if fields[j].name == DataFieldName then [fields[j].value] else []
  {
    assert fields[..j + 1][..j] == fields[..j];
  }
}

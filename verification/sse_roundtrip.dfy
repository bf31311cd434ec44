/** What the writer puts on the wire is what the parser reads back: a stream made of data
    frames, composite event-then-data frames and the `[DONE]` terminator, written to a writer
    that accepts every write, scans into one event per frame, and the parser emits exactly the
    payloads of the frames, in order, with the terminator skipped. */
module SseRoundTrip {
  import opened Wrappers
  import Strings
  import SseWriter
  import SseScanner
  import SseParser

  /** One write of the package: a `WriteData` frame, an event line followed by a data frame
      (`WriteComposite` and the functions built on it), or the `WriteDone` terminator. */
  datatype Frame =
    | DataFrame(p: SseWriter.Payload)
    | EventFrame(name: string, p: SseWriter.Payload)
    | DoneMarker

  /** The writes each frame makes, as the writer's own functions list them. */
  function FrameParts(enc: SseWriter.Encoder, f: Frame): seq<string>
  {
    match f
    case DataFrame(p) => SseWriter.DataParts(enc(p))
    case EventFrame(n, p) => SseWriter.CompositeParts(n, enc(p))
    case DoneMarker => [SseWriter.DoneFrame]
  }

  /** What a writer that accepts every write receives for one frame. */
  function FrameText(enc: SseWriter.Encoder, f: Frame): string
  {
    SseWriter.Deliver(FrameParts(enc, f), |FrameParts(enc, f)|)
  }

  /** What a writer that accepts every write receives for a run of frames. */
  function Text(enc: SseWriter.Encoder, fs: seq<Frame>): string
  {
    if |fs| == 0 then "" else Text(enc, fs[..|fs| - 1]) + FrameText(enc, fs[|fs| - 1])
  }

  /** The JSON text of a payload, or nothing when it does not marshal. */
  function Marshalled(enc: SseWriter.Encoder, p: SseWriter.Payload): string
  {
    match enc(p)
    case Success(t) => t
    case Failure(_) => ""
  }

  /** The arm of the parser a frame lands in. */
  function FrameBranch(f: Frame): SseParser.Branch
  {
    match f
    case EventFrame(n, _) => SseParser.BranchOf(n)
    case _ => SseParser.DataBranch
  }

  /** A frame survives the trip: its payload marshals to a single line the parser's arm neither
      skips nor fails on, and decodes back to the same payload; an event name is one line. */
  predicate Transmits(enc: SseWriter.Encoder, dec: SseParser.Decoders, f: Frame)
  {
    f.DoneMarker? ||
    (&& (f.EventFrame? ==> '\n' !in f.name)
     && enc(f.p).Success?
     && '\n' !in enc(f.p).value
     && !SseParser.Skipped(FrameBranch(f), enc(f.p).value)
     && SseParser.DecodeIn(FrameBranch(f), dec, enc(f.p).value) == Success(f.p))
  }

  /** The payloads a run of frames carries, in order; the terminator carries none. */
  function Payloads(fs: seq<Frame>): seq<SseWriter.Payload>
  {
    if |fs| == 0 then []
    else Payloads(fs[..|fs| - 1]) + (if fs[|fs| - 1].DoneMarker? then [] else [fs[|fs| - 1].p])
  }

  /** The fields of the one event a frame scans into. */
  function FrameFields(enc: SseWriter.Encoder, f: Frame): seq<SseScanner.Field>
  {
    match f
    case DataFrame(p) => [SseScanner.Field(SseParser.DataFieldName, Marshalled(enc, p))]
    case EventFrame(n, p) =>
      [SseScanner.Field(SseParser.EventFieldName, n), SseScanner.Field(SseParser.DataFieldName, Marshalled(enc, p))]
    case DoneMarker => [SseScanner.Field(SseParser.DataFieldName, "[DONE]")]
  }

  /** The events a run of frames scans into, one per frame. */
  function Events(enc: SseWriter.Encoder, fs: seq<Frame>): seq<seq<SseScanner.Field>>
  {
    if |fs| == 0 then [] else Events(enc, fs[..|fs| - 1]) + [FrameFields(enc, fs[|fs| - 1])]
  }

  /** A frame whose payload marshals is the text the writer's functions promise. */
  lemma FrameTextOf(enc: SseWriter.Encoder, f: Frame)
    requires f.DoneMarker? || enc(f.p).Success?
    ensures f.DataFrame? ==> FrameText(enc, f) == "data: " + enc(f.p).value + "\n\n"
    ensures f.EventFrame? ==>
              FrameText(enc, f) == "event: " + f.name + "\n" + "data: " + enc(f.p).value + "\n\n"
    ensures f.DoneMarker? ==> FrameText(enc, f) == SseWriter.DoneFrame
  {
    match f
    case DataFrame(p) => SseWriter.DataFrameText(enc(p), 3);
    case EventFrame(n, p) => SseWriter.CompositeText(n, enc(p), 5);
    case DoneMarker =>
      assert [SseWriter.DoneFrame][1..] == [];
      assert SseWriter.Deliver([SseWriter.DoneFrame][1..], 0) == "";
  }

  /** A `data` line of a single-line value scans into that one field. */
  lemma DataLine(value: string, rest: string)
    requires '\n' !in value
    ensures var line := "data: " + value;
            && line != "" && line[0] != ':'
            && SseScanner.Lines(line + "\n" + rest) == [line] + SseScanner.Lines(rest)
            && SseScanner.ParseField(line) == SseScanner.Field(SseParser.DataFieldName, value)
  {
    var line := "data: " + value;
    assert line == SseParser.DataFieldName + ": " + value;
    assert line[0] == 'd';
    assert '\n' !in line by {
      assert forall i :: 0 <= i < |line| ==> line[i] == if i < 6 then "data: "[i] else value[i - 6];
    }
    SseScanner.LinesOfLine(line, rest);
    SseScanner.ParseFieldOf(SseParser.DataFieldName, value);
  }

  /** An `event` line of a single-line name scans into that one field. */
  lemma EventLine(name: string, rest: string)
    requires '\n' !in name
    ensures var line := "event: " + name;
            && line != "" && line[0] != ':'
            && SseScanner.Lines(line + "\n" + rest) == [line] + SseScanner.Lines(rest)
            && SseScanner.ParseField(line) == SseScanner.Field(SseParser.EventFieldName, name)
  {
    var line := "event: " + name;
    assert line == SseParser.EventFieldName + ": " + name;
    assert line[0] == 'e';
    assert '\n' !in line by {
      assert forall i :: 0 <= i < |line| ==> line[i] == if i < 7 then "event: "[i] else name[i - 7];
    }
    SseScanner.LinesOfLine(line, rest);
    SseScanner.ParseFieldOf(SseParser.EventFieldName, name);
  }

  /** The blank line that closes a frame. */
  lemma BlankLine()
    ensures SseScanner.Lines("\n") == [""]
  {
    assert "\n" == "" + "\n" + "";
    SseScanner.LinesOfLine("", "");
    SseScanner.LinesEmpty();
  }

  /** A data frame of a single-line value is two lines, the second blank, and one event. */
  lemma DataFrameScan(t: string)
    requires '\n' !in t
    ensures var ls := SseScanner.Lines("data: " + t + "\n\n");
            && ls == ["data: " + t, ""]
            && SseScanner.Group(ls, []) == [[SseScanner.Field(SseParser.DataFieldName, t)]]
  {
    var data := "data: " + t;
    BlankLine();
    DataLine(t, "\n");
    assert data + "\n" + "\n" == "data: " + t + "\n\n";
    var ls := [data, ""];
    var fd := SseScanner.Field(SseParser.DataFieldName, t);
    assert ls[1..] == [""];
    assert [""][1..] == [];
    assert SseScanner.Group([""], [fd]) == [[fd]] + SseScanner.Group([], []) == [[fd]];
    assert [] + [fd] == [fd];
    assert SseScanner.Group(ls, []) == SseScanner.Group([""], [fd]);
  }

  /** An event line and a data frame are three lines, the last blank. */
  lemma EventFrameLines(n: string, t: string)
    requires '\n' !in n && '\n' !in t
    ensures SseScanner.Lines("event: " + n + "\n" + "data: " + t + "\n\n") == ["event: " + n, "data: " + t, ""]
  {
    var ev := "event: " + n;
    var data := "data: " + t;
    assert "event: " + n + "\n" + "data: " + t + "\n\n" == ev + "\n" + (data + "\n\n");
    assert SseScanner.Lines(data + "\n\n") == [data, ""] by {
      DataFrameScan(t);
    }
    assert SseScanner.Lines(ev + "\n" + (data + "\n\n")) == [ev] + SseScanner.Lines(data + "\n\n") by {
      EventLine(n, data + "\n\n");
    }
    assert [ev] + [data, ""] == [ev, data, ""];
  }

  /** Those three lines group into one event of the two fields. */
  lemma EventFrameGroup(n: string, t: string)
    requires '\n' !in n && '\n' !in t
    ensures SseScanner.Group(["event: " + n, "data: " + t, ""], []) ==
              [[SseScanner.Field(SseParser.EventFieldName, n), SseScanner.Field(SseParser.DataFieldName, t)]]
  {
    var ev := "event: " + n;
    var data := "data: " + t;
    DataLine(t, "\n");
    EventLine(n, "");
    var ls := [ev, data, ""];
    var fe := SseScanner.Field(SseParser.EventFieldName, n);
    var fd := SseScanner.Field(SseParser.DataFieldName, t);
    assert ls[1..] == [data, ""];
    assert [data, ""][1..] == [""];
    assert [""][1..] == [];
    assert SseScanner.Group([""], [fe, fd]) == [[fe, fd]] + SseScanner.Group([], []) == [[fe, fd]];
    assert [fe] + [fd] == [fe, fd];
    assert SseScanner.Group([data, ""], [fe]) == SseScanner.Group([""], [fe, fd]);
    assert [] + [fe] == [fe];
    assert SseScanner.Group(ls, []) == SseScanner.Group([data, ""], [fe]);
  }

  /** An event line and a data frame are three lines, the last blank, and one event. */
  lemma EventFrameScan(n: string, t: string)
    requires '\n' !in n && '\n' !in t
    ensures var ls := SseScanner.Lines("event: " + n + "\n" + "data: " + t + "\n\n");
            && ls == ["event: " + n, "data: " + t, ""]
            && SseScanner.Group(ls, []) ==
                 [[SseScanner.Field(SseParser.EventFieldName, n), SseScanner.Field(SseParser.DataFieldName, t)]]
  {
    EventFrameLines(n, t);
    EventFrameGroup(n, t);
  }

  /** What the scanner needs to know of one frame's text: it ends in a newline, its lines end
      with the blank one, and they group into the frame's one event. */
  predicate ScansAs(s: string, fields: seq<SseScanner.Field>)
  {
    var ls := SseScanner.Lines(s);
    && s != "" && s[|s| - 1] == '\n'
    && |ls| > 0 && ls[|ls| - 1] == ""
    && SseScanner.Group(ls, []) == [fields]
  }

  lemma DataFrameScans(t: string)
    requires '\n' !in t
    ensures ScansAs("data: " + t + "\n\n", [SseScanner.Field(SseParser.DataFieldName, t)])
  {
    var s := "data: " + t + "\n\n";
    assert s[|s| - 1] == '\n';
    DataFrameScan(t);
  }

  lemma EventFrameScans(n: string, t: string)
    requires '\n' !in n && '\n' !in t
    ensures ScansAs("event: " + n + "\n" + "data: " + t + "\n\n",
                    [SseScanner.Field(SseParser.EventFieldName, n), SseScanner.Field(SseParser.DataFieldName, t)])
  {
    var s := "event: " + n + "\n" + "data: " + t + "\n\n";
    assert s[|s| - 1] == '\n';
    EventFrameScan(n, t);
  }

  /** A frame that transmits is a run of lines ending in the blank line, and those lines group
      into exactly the frame's event. */
  lemma FrameScan(enc: SseWriter.Encoder, dec: SseParser.Decoders, f: Frame)
    requires Transmits(enc, dec, f)
    ensures ScansAs(FrameText(enc, f), FrameFields(enc, f))
  {
    FrameTextOf(enc, f);
    match f
    case DataFrame(p) => DataFrameScans(enc(p).value);
    case EventFrame(n, p) => EventFrameScans(n, enc(p).value);
    case DoneMarker =>
      assert SseWriter.DoneFrame == "data: " + "[DONE]" + "\n\n";
      DataFrameScans("[DONE]");
  }

  /** Every frame of a run scans as its own event. */
  predicate AllScan(enc: SseWriter.Encoder, fs: seq<Frame>)
  {
    forall i :: 0 <= i < |fs| ==> ScansAs(FrameText(enc, fs[i]), FrameFields(enc, fs[i]))
  }

  /** A text that ends after a blank line, or is empty: what follows it starts a new event. */
  predicate EndsAtEvent(s: string)
  {
    var ls := SseScanner.Lines(s);
    && (s == "" || s[|s| - 1] == '\n')
    && (ls == [] || ls[|ls| - 1] == "")
  }

  /** A frame's text after a text that ends at an event boundary adds the frame's event. */
  lemma ScanAppend(a: string, b: string, fields: seq<SseScanner.Field>)
    requires EndsAtEvent(a) && ScansAs(b, fields)
    ensures EndsAtEvent(a + b)
    ensures SseScanner.Scan(a + b) == SseScanner.Scan(a) + [fields]
  {
    assert (a + b)[|a + b| - 1] == b[|b| - 1];
    var xs := SseScanner.Lines(a);
    var ys := SseScanner.Lines(b);
    SseScanner.LinesAppend(a, b);
    SseScanner.GroupAppend(xs, ys, []);
    assert (xs + ys)[|xs + ys| - 1] == ys[|ys| - 1];
  }

  /** The scanner reads one event per frame. */
  lemma {:induction false} ScanFrames(enc: SseWriter.Encoder, fs: seq<Frame>)
    requires AllScan(enc, fs)
    ensures EndsAtEvent(Text(enc, fs))
    ensures SseScanner.Scan(Text(enc, fs)) == Events(enc, fs)
    decreases |fs|
  {
    if |fs| > 0 {
      var n := |fs| - 1;
      var p := fs[..n];
      assert AllScan(enc, p) by {
        assert forall i :: 0 <= i < |p| ==> p[i] == fs[i];
      }
      ScanFrames(enc, p);
      var f := fs[n];
      assert ScansAs(FrameText(enc, f), FrameFields(enc, f));
      assert Text(enc, fs) == Text(enc, p) + FrameText(enc, f);
      ScanAppend(Text(enc, p), FrameText(enc, f), FrameFields(enc, f));
    } else {
      assert Text(enc, fs) == "";
      SseScanner.LinesEmpty();
    }
  }

  /** Frames that transmit scan one event each. */
  lemma ScanText(enc: SseWriter.Encoder, dec: SseParser.Decoders, fs: seq<Frame>)
    requires forall i :: 0 <= i < |fs| ==> Transmits(enc, dec, fs[i])
    ensures SseScanner.Scan(Text(enc, fs)) == Events(enc, fs)
  {
    forall i | 0 <= i < |fs|
      ensures ScansAs(FrameText(enc, fs[i]), FrameFields(enc, fs[i]))
    {
      FrameScan(enc, dec, fs[i]);
    }
    ScanFrames(enc, fs);
  }

  /** An event of one `data` field and no `event` field is handled by the untyped arm. */
  lemma HandleData(dec: SseParser.Decoders, d: string)
    ensures var o := SseParser.Emit(SseParser.DataBranch, dec, [d]);
            o.err.None? ==> SseParser.HandleEvent([SseScanner.Field(SseParser.DataFieldName, d)], dec) == o
  {
    var fields := [SseScanner.Field(SseParser.DataFieldName, d)];
    assert fields[..0] == [];
    assert SseParser.EventName(fields) == "";
    assert SseParser.DataFields([]) == [];
    assert SseParser.DataFields(fields) == [d];
  }

  /** An event of an `event` field then one `data` field is handled by the arm its name picks. */
  lemma HandleNamed(dec: SseParser.Decoders, n: string, d: string)
    ensures var o := SseParser.Emit(SseParser.BranchOf(n), dec, [d]);
            o.err.None? ==>
              SseParser.HandleEvent([SseScanner.Field(SseParser.EventFieldName, n), SseScanner.Field(SseParser.DataFieldName, d)], dec) == o
  {
    var fields := [SseScanner.Field(SseParser.EventFieldName, n), SseScanner.Field(SseParser.DataFieldName, d)];
    assert fields[..1] == [fields[0]];
    assert fields[..1][..0] == [];
    assert SseParser.EventName(fields) == n;
    assert SseParser.DataFields([]) == [];
    assert SseParser.DataFields(fields[..1]) == [];
    assert SseParser.DataFields(fields) == [d];
  }

  /** One value through an arm that neither skips nor fails on it. */
  lemma EmitOne(b: SseParser.Branch, dec: SseParser.Decoders, d: string)
    ensures SseParser.Skipped(b, d) ==> SseParser.Emit(b, dec, [d]) == SseParser.Outcome([], None)
    ensures !SseParser.Skipped(b, d) && SseParser.DecodeIn(b, dec, d).Success? ==>
              SseParser.Emit(b, dec, [d]) == SseParser.Outcome([SseParser.DecodeIn(b, dec, d).value], None)
  {
    assert [d][..0] == [];
  }

  /** The parser turns one frame's event into the frame's payload, and the terminator into
      nothing. */
  lemma HandleFrame(enc: SseWriter.Encoder, dec: SseParser.Decoders, f: Frame)
    requires Transmits(enc, dec, f)
    ensures SseParser.HandleEvent(FrameFields(enc, f), dec) ==
              SseParser.Outcome(if f.DoneMarker? then [] else [f.p], None)
  {
    match f
    case DataFrame(p) =>
      EmitOne(SseParser.DataBranch, dec, enc(p).value);
      HandleData(dec, enc(p).value);
    case EventFrame(n, p) =>
      EmitOne(SseParser.BranchOf(n), dec, enc(p).value);
      HandleNamed(dec, n, enc(p).value);
    case DoneMarker =>
      EmitOne(SseParser.DataBranch, dec, "[DONE]");
      HandleData(dec, "[DONE]");
  }

  /** Stream order is kept: parsing the events of a run of frames emits their payloads. */
  lemma {:induction false} ParseFrames(enc: SseWriter.Encoder, dec: SseParser.Decoders, fs: seq<Frame>)
    requires forall i :: 0 <= i < |fs| ==> Transmits(enc, dec, fs[i])
    ensures SseParser.ParseEvents(Events(enc, fs), dec) == SseParser.Outcome(Payloads(fs), None)
    decreases |fs|
  {
    if |fs| > 0 {
      var n := |fs| - 1;
      var p := fs[..n];
      assert forall i :: 0 <= i < |p| ==> p[i] == fs[i];
      ParseFrames(enc, dec, p);
      HandleFrame(enc, dec, fs[n]);
      var es := Events(enc, fs);
      assert es[..|es| - 1] == Events(enc, p);
    }
  }

  /** The round trip: the text a fully accepting writer receives for a run of frames that
      transmit parses back into exactly their payloads, in order; a read error after the text
      is reported after them. */
  lemma RoundTrip(enc: SseWriter.Encoder, dec: SseParser.Decoders, fs: seq<Frame>, m: string)
    requires forall i :: 0 <= i < |fs| ==> Transmits(enc, dec, fs[i])
    ensures SseParser.ParseStream(SseScanner.Scan(Text(enc, fs)), SseParser.Eof, dec) ==
              SseParser.Outcome(Payloads(fs), None)
    ensures SseParser.ParseStream(SseScanner.Scan(Text(enc, fs)), SseParser.ReadError(m), dec) ==
              SseParser.Outcome(Payloads(fs), Some("failed to read from stream: " + m))
  {
    ScanText(enc, dec, fs);
    ParseFrames(enc, dec, fs);
  }

  /** The stop sequence reads back as the one stop chunk: the terminator after it is skipped. */
  lemma StopRoundTrip(enc: SseWriter.Encoder, dec: SseParser.Decoders, b: nat)
    requires b >= 4
    requires Transmits(enc, dec, DataFrame(SseWriter.ResponsePayload(SseWriter.StopResponse())))
    ensures SseParser.ParseStream(SseScanner.Scan(SseWriter.Deliver(SseWriter.StopParts(enc), b)), SseParser.Eof, dec) ==
              SseParser.Outcome([SseWriter.ResponsePayload(SseWriter.StopResponse())], None)
  {
    var stop := DataFrame(SseWriter.ResponsePayload(SseWriter.StopResponse()));
    var fs := [stop, DoneMarker];
    SseWriter.StopText(enc, b);
    FrameTextOf(enc, stop);
    FrameTextOf(enc, DoneMarker);
    assert fs[..1] == [stop];
    assert fs[..1][..0] == [];
    assert Text(enc, fs[..1]) == "" + FrameText(enc, stop);
    assert Text(enc, fs) == FrameText(enc, stop) + FrameText(enc, DoneMarker);
    RoundTrip(enc, dec, fs, "");
    assert Payloads(fs[..1]) == [stop.p];
  }
}

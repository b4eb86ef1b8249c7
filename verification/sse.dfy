/** The `sse` command of httpcli/commands/sse.py: reading a server-sent event stream. */
module Sse {
  import opened Wrappers
  import opened Text
  import opened JsonValue
  import opened HttpResponse
  import opened Console
  import opened Config
  import opened Helpers

  const EventPrefix := "event:"
  const DataPrefix := "data:"

  /**
   * Group 1 of `\s*(.+)` once `\s*` has taken `s[..j]`: `.+` takes the run of
   * non-newline characters at `j`; when that run is empty the engine gives
   * back the characters `\s*` took, one at a time, until `.+` can match.
   */
  function GroupFrom(s: string, j: nat): (g: Option<string>)
    requires j <= |s|
    ensures g.Some? ==> g.value != [] && '\n' !in g.value
  {
    if j < |s| && s[j] != '\n' then Some(BeforeFirst(s[j..], '\n'))
    else if j == 0 then None
    else GroupFrom(s, j - 1)
  }

  /** `re.compile(prefix + r'\s*(.+)').match(line)`, giving group 1 when it matches. */
  function MatchField(prefix: string, line: string): (g: Option<string>)
    ensures g.Some? ==> StartsWith(line, prefix) && g.value != [] && '\n' !in g.value
  {
    if StartsWith(line, prefix) then
      var rest := line[|prefix|..];
      GroupFrom(rest, |rest| - |TrimStart(rest)|)
    else None
  }

  /**
   * With no newline after the prefix, the group is the rest of the line
   * without its leading whitespace. When the rest is all whitespace, `.+`
   * takes back its last character; only an empty rest fails to match.
   */
  lemma MatchFieldSingleLine(prefix: string, line: string)
    requires StartsWith(line, prefix) && '\n' !in line[|prefix|..]
    ensures var rest := line[|prefix|..];
      MatchField(prefix, line) ==
        if rest == [] then None
        else if TrimStart(rest) == [] then Some(rest[|rest| - 1..])
        else Some(TrimStart(rest))
  {
    var rest := line[|prefix|..];
    var j := |rest| - |TrimStart(rest)|;
    if TrimStart(rest) != [] {
      assert rest[j] == TrimStart(rest)[0];
      assert rest[j] in rest;
      BeforeFirstAbsent(rest[j..], '\n');
    } else if rest != [] {
      assert rest[|rest| - 1] in rest;
      assert GroupFrom(rest, |rest|) == GroupFrom(rest, |rest| - 1);
      BeforeFirstAbsent(rest[|rest| - 1..], '\n');
    }
  }

  /** What a stream line is once stripped. */
  datatype LineKind =
    | Skipped
    | EventLine(name: string)
    | DataLine(payload: string)
    | PlainLine(text: string)

  /** The branches of the read loop: blank lines are skipped, `event:` is tried before `data:`. */
  function Classify(raw: string): (k: LineKind)
    ensures k.Skipped? <==> AllSpace(raw)
    ensures k.EventLine? ==> StartsWith(Strip(raw), EventPrefix) && k.name != []
    ensures k.DataLine? ==> StartsWith(Strip(raw), DataPrefix) && k.payload != []
    ensures k.PlainLine? ==> k.text == Strip(raw) && k.text != []
  {
    StripEmpty(raw);
    var line := Strip(raw);
    if line == [] then Skipped
    else
      match MatchField(EventPrefix, line)
      case Some(name) => EventLine(name)
      case None =>
        match MatchField(DataPrefix, line)
        case Some(payload) => DataLine(payload)
        case None => PlainLine(line)
  }

  /**
   * The console items of one classified line: nothing for a blank line,
   * otherwise one content item and then one empty print. A data payload is
   * shown as JSON exactly when it parses.
   */
  function Emit(kind: LineKind, loads: string -> Option<Json>): (out: seq<Printed>)
    ensures kind.Skipped? <==> out == []
    ensures !kind.Skipped? ==> ContentThenBlank(out)
    ensures kind.DataLine? ==> (out[0].Highlighted? <==> loads(kind.payload).Some?)
  {
    match kind
    case Skipped => []
    case EventLine(name) => [EventMarker(name), Blank]
    case DataLine(payload) =>
      (match loads(payload)
       case Some(data) => [Highlighted(JsonIndented(data), "json"), Blank]
       case None => [Markup(payload), Blank])
    case PlainLine(text) => [Markup(text), Blank]
  }

  /** The console items of one raw line. */
  function LineOutput(raw: string, loads: string -> Option<Json>): seq<Printed> {
    Emit(Classify(raw), loads)
  }

  /** The console items of each line in turn. */
  function Concat(lines: seq<string>, render: string -> seq<Printed>): seq<Printed> {
    if lines == [] then []
    else Concat(lines[..|lines| - 1], render) + render(lines[|lines| - 1])
  }

  /** `LineOutput` for a fixed JSON decoder. */
  function Render(loads: string -> Option<Json>): string -> seq<Printed> {
    raw => LineOutput(raw, loads)
  }

  /** The console items of a whole stream. */
  function Transcript(lines: seq<string>, loads: string -> Option<Json>): seq<Printed> {
    Concat(lines, Render(loads))
  }

  /** Rendering one more line appends its items. */
  lemma ConcatStep(lines: seq<string>, i: nat, render: string -> seq<Printed>)
    requires i < |lines|
    ensures Concat(lines[..i + 1], render) == Concat(lines[..i], render) + render(lines[i])
  {
    assert lines[..i + 1][..i] == lines[..i];
  }

  /** The read loop of `sse`. */
  method ReadEvents(lines: seq<string>, loads: string -> Option<Json>) returns (out: seq<Printed>)
    ensures out == Transcript(lines, loads)
  {
    out := [];
    for i := 0 to |lines|
      invariant out == Transcript(lines[..i], loads)
    {
      ConcatStep(lines, i, Render(loads));
      var kind := Classify(lines[i]);
      assert Transcript(lines[..i + 1], loads) == out + Emit(kind, loads);
      match kind {
        case Skipped =>
        case EventLine(name) =>
          out := out + [EventMarker(name), Blank];
        case DataLine(payload) =>
          match loads(payload) {
            case Some(data) => out := out + [Highlighted(JsonIndented(data), "json"), Blank];
            case None => out := out + [Markup(payload), Blank];
          }
        case PlainLine(line) =>
          out := out + [Markup(line), Blank];
      }
    }
    assert lines[..|lines|] == lines;
  }

  /** Rendering two runs of lines one after the other. */
  lemma {:induction false} ConcatAppend(a: seq<string>, b: seq<string>, render: string -> seq<Printed>)
    ensures Concat(a + b, render) == Concat(a, render) + Concat(b, render)
  {
    if b == [] {
      assert a + b == a;
    } else {
      var init := b[..|b| - 1];
      assert (a + b)[..|a + b| - 1] == a + init;
      ConcatAppend(a, init, render);
    }
  }

  /** The transcript of two streams read one after the other. */
  lemma TranscriptAppend(a: seq<string>, b: seq<string>, loads: string -> Option<Json>)
    ensures Transcript(a + b, loads) == Transcript(a, loads) + Transcript(b, loads)
  {
    ConcatAppend(a, b, Render(loads));
  }

  /** The number of lines that are not all whitespace. */
  function NonBlankCount(lines: seq<string>): nat {
    if lines == [] then 0
    else NonBlankCount(lines[..|lines| - 1]) + (if AllSpace(lines[|lines| - 1]) then 0 else 1)
  }

  /** Content and empty prints alternate, starting with content. */
  predicate Alternating(out: seq<Printed>) {
    && |out| % 2 == 0
    && forall i :: 0 <= i < |out| ==> (out[i].Blank? <==> i % 2 == 1)
  }

  /** One content item followed by one empty print. */
  predicate ContentThenBlank(items: seq<Printed>) {
    |items| == 2 && !items[0].Blank? && items[1].Blank?
  }

  /** A renderer that prints nothing for blank lines and one item and an empty print for others. */
  ghost predicate PairsLines(render: string -> seq<Printed>) {
    forall raw :: if AllSpace(raw) then render(raw) == [] else ContentThenBlank(render(raw))
  }

  /** The SSE renderer pairs lines. */
  lemma RenderPairsLines(loads: string -> Option<Json>)
    ensures PairsLines(Render(loads))
  {
    forall raw
      ensures if AllSpace(raw) then Render(loads)(raw) == [] else ContentThenBlank(Render(loads)(raw))
    {
      assert Render(loads)(raw) == Emit(Classify(raw), loads);
    }
  }

  /** Alternation survives appending one content item and its empty print. */
  lemma AlternatingAppend(a: seq<Printed>, b: seq<Printed>)
    requires Alternating(a) && ContentThenBlank(b)
    ensures Alternating(a + b)
  {
    var t := a + b;
    forall i | 0 <= i < |t|
      ensures t[i].Blank? <==> i % 2 == 1
    {
      if i >= |a| {
        assert t[i] == b[i - |a|];
        assert i == |a| || i == |a| + 1;
      }
    }
  }

  /** A renderer that pairs lines gives two alternating items per non-blank line. */
  lemma {:induction false} ConcatShape(lines: seq<string>, render: string -> seq<Printed>)
    requires PairsLines(render)
    ensures |Concat(lines, render)| == 2 * NonBlankCount(lines)
    ensures Alternating(Concat(lines, render))
  {
    if lines != [] {
      var init := lines[..|lines| - 1];
      ConcatShape(init, render);
      var items := render(lines[|lines| - 1]);
      if items != [] {
        AlternatingAppend(Concat(init, render), items);
      }
    }
  }

  /**
   * Every non-blank line prints one content item followed by exactly one
   * empty print, so the transcript has two items per non-blank line.
   */
  lemma TranscriptShape(lines: seq<string>, loads: string -> Option<Json>)
    ensures |Transcript(lines, loads)| == 2 * NonBlankCount(lines)
    ensures Alternating(Transcript(lines, loads))
  {
    RenderPairsLines(loads);
    ConcatShape(lines, Render(loads));
  }

  /** An `event:` line shows the name after the prefix, leading whitespace removed. */
  lemma EventLineName(raw: string)
    requires StartsWith(Strip(raw), EventPrefix) && '\n' !in Strip(raw)
    requires TrimStart(Strip(raw)[|EventPrefix|..]) != []
    ensures Classify(raw) == EventLine(TrimStart(Strip(raw)[|EventPrefix|..]))
  {
    MatchFieldSingleLine(EventPrefix, Strip(raw));
  }

  /** A `data:` line carries the text after the prefix, leading whitespace removed. */
  lemma DataLinePayload(raw: string)
    requires StartsWith(Strip(raw), DataPrefix) && '\n' !in Strip(raw)
    requires TrimStart(Strip(raw)[|DataPrefix|..]) != []
    ensures Classify(raw) == DataLine(TrimStart(Strip(raw)[|DataPrefix|..]))
  {
    var line := Strip(raw);
    DataLineIsNoEventLine(line);
    MatchFieldSingleLine(DataPrefix, line);
    ClassifiedAsData(raw, TrimStart(line[|DataPrefix|..]));
  }

  /** A line starting with `data:` does not match the event pattern. */
  lemma DataLineIsNoEventLine(line: string)
    requires StartsWith(line, DataPrefix)
    ensures MatchField(EventPrefix, line).None?
  {
    assert line[0] == line[..|DataPrefix|][0] == 'd';
    assert !StartsWith(line, EventPrefix);
  }

  /** A non-blank line that is no event line but matches the data pattern is a data line. */
  lemma ClassifiedAsData(raw: string, payload: string)
    requires Strip(raw) != [] && MatchField(EventPrefix, Strip(raw)).None?
    requires MatchField(DataPrefix, Strip(raw)) == Some(payload)
    ensures Classify(raw) == DataLine(payload)
  {
  }

  /** A bare `event:` does not match the regex (`.+` needs a character) and is printed as it is. */
  lemma BareEventIsPlain()
    ensures Classify("event:") == PlainLine("event:")
  {
    var line := "event:";
    assert IsStripped(line);
    MatchFieldSingleLine(EventPrefix, line);
    assert line[|EventPrefix|..] == [];
    assert !StartsWith(line, DataPrefix) by {
      assert line[0] != DataPrefix[0];
    }
  }

  /** `event: <name>` is an event line naming `name`. */
  lemma EventClassified(name: string)
    requires name != [] && IsStripped(name) && '\n' !in name
    ensures Classify("event: " + name) == EventLine(name)
  {
    var e := "event: " + name;
    assert IsStripped(e);
    assert e[|EventPrefix|..] == " " + name;
    assert TrimStart(" " + name) == name by {
      assert (" " + name)[1..] == name;
    }
    EventLineName(e);
  }

  /** `data: <payload>` is a data line carrying `payload`. */
  lemma DataClassified(payload: string)
    requires payload != [] && IsStripped(payload) && '\n' !in payload
    ensures Classify("data: " + payload) == DataLine(payload)
  {
    var d := "data: " + payload;
    assert IsStripped(d);
    assert d[|DataPrefix|..] == " " + payload;
    assert TrimStart(" " + payload) == payload by {
      assert (" " + payload)[1..] == payload;
    }
    DataLinePayload(d);
  }

  /** An empty line is skipped. */
  lemma BlankClassified()
    ensures Classify("") == Skipped
  {
    StripEmpty("");
  }

  /** Rendering three lines. */
  lemma ConcatThree(a: string, b: string, c: string, render: string -> seq<Printed>)
    ensures Concat([a, b, c], render) == render(a) + render(b) + render(c)
  {
    var lines := [a, b, c];
    ConcatStep(lines, 0, render);
    ConcatStep(lines, 1, render);
    ConcatStep(lines, 2, render);
    assert lines[..0] == [] && lines[..3] == lines;
  }

  /** A line prints what its classification emits. */
  lemma RenderedAs(raw: string, kind: LineKind, loads: string -> Option<Json>)
    requires Classify(raw) == kind
    ensures Render(loads)(raw) == Emit(kind, loads)
  {
  }

  /** `event: <name>` prints the event marker and an empty line. */
  lemma EventRendered(name: string, loads: string -> Option<Json>)
    requires name != [] && IsStripped(name) && '\n' !in name
    ensures Render(loads)("event: " + name) == [EventMarker(name), Blank]
  {
    EventClassified(name);
    RenderedAs("event: " + name, EventLine(name), loads);
  }

  /** `data: <payload>` with a JSON payload prints it indented, then an empty line. */
  lemma JsonDataRendered(payload: string, data: Json, loads: string -> Option<Json>)
    requires payload != [] && IsStripped(payload) && '\n' !in payload
    requires loads(payload) == Some(data)
    ensures Render(loads)("data: " + payload) == [Highlighted(JsonIndented(data), "json"), Blank]
  {
    DataClassified(payload);
    RenderedAs("data: " + payload, DataLine(payload), loads);
  }

  /** An empty line prints nothing. */
  lemma BlankRendered(loads: string -> Option<Json>)
    ensures Render(loads)("") == []
  {
    BlankClassified();
    RenderedAs("", Skipped, loads);
  }

  /** An event followed by a JSON data line and a blank line. */
  lemma EventThenJson(name: string, payload: string, data: Json, loads: string -> Option<Json>)
    requires name != [] && IsStripped(name) && '\n' !in name
    requires payload != [] && IsStripped(payload) && '\n' !in payload
    requires loads(payload) == Some(data)
    ensures Transcript(["event: " + name, "data: " + payload, ""], loads)
      == [EventMarker(name), Blank, Highlighted(JsonIndented(data), "json"), Blank]
  {
    EventRendered(name, loads);
    JsonDataRendered(payload, data, loads);
    BlankRendered(loads);
    ConcatThree("event: " + name, "data: " + payload, "", Render(loads));
  }

  /** How the command ends: normally, or through `click.Abort`. */
  datatype Exit = Completed | Aborted

  const RedirectWarning := "[warning]the request was interrupted because redirection was not followed"
  const UnexpectedError := "[error]unexpected error: "

  /**
   * What the streamed GET gave: the response, the lines `aiter_lines`
   * delivered, and the message of an `httpx.HTTPError` raised while reading
   * the body (by `aread` for an error status, after `lines` otherwise), if any.
   */
  datatype Streamed = Streamed(response: Response, lines: seq<string>, readError: Option<string>)

  /**
   * The `sse` command. `stream(allowRedirects)` is the streamed GET, or the
   * message of the `httpx.HTTPError` raised before a response came. A
   * redirect that was not followed (301 to 399) and an error status each
   * print one message and abort; any other status, 300 included, prints the
   * headers, an empty line and the events. An error while reading the body
   * prints its message and aborts, after the events read so far.
   */
  method Sse(config: Configuration, stream: bool -> Result<Streamed, string>, loads: string -> Option<Json>)
    returns (out: seq<Printed>, exit: Exit)
    ensures stream(config.followRedirects).Failure? ==>
      out == [Markup(UnexpectedError + stream(config.followRedirects).error)] && exit == Aborted
    ensures stream(config.followRedirects).Success? ==>
      var Streamed(response, lines, readError) := stream(config.followRedirects).value;
      && (exit == Aborted <==> response.statusCode > 300 || readError.Some?)
      && (300 < response.statusCode < 400 ==> out == [Markup(RedirectWarning)])
      && (response.statusCode >= 400 && readError.None? ==> out == [Markup(UnexpectedError + response.text)])
      && (response.statusCode >= 400 && readError.Some? ==> out == [Markup(UnexpectedError + readError.value)])
      && (response.statusCode <= 300 && readError.None? ==>
            out == [ResponseHeaders(response), Blank] + Transcript(lines, loads))
      && (response.statusCode <= 300 && readError.Some? ==>
            out == [ResponseHeaders(response), Blank] + Transcript(lines, loads)
              + [Markup(UnexpectedError + readError.value)])
  {
    var allowRedirects := AllowRedirects(config.State());
    match stream(allowRedirects) {
      case Failure(e) =>
        out := [Markup(UnexpectedError + e)];
        exit := Aborted;
      case Success(Streamed(response, lines, readError)) =>
        if 300 < response.statusCode < 400 {
          out := [Markup(RedirectWarning)];
          exit := Aborted;
        } else if response.statusCode >= 400 {
          match readError {
            case Some(e) => out := [Markup(UnexpectedError + e)];
            case None => out := [Markup(UnexpectedError + response.text)];
          }
          exit := Aborted;
        } else {
          out := [ResponseHeaders(response), Blank];
          var events := ReadEvents(lines, loads);
          out := out + events;
          match readError {
            case Some(e) =>
              out := out + [Markup(UnexpectedError + e)];
              exit := Aborted;
            case None =>
              exit := Completed;
          }
        }
    }
  }
}

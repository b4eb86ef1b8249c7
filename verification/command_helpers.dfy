/** httpcli/commands/helpers.py: lexer lookup, header text and response printing. */
module CommandHelpers {
  import opened Wrappers
  import opened Text
  import opened JsonValue
  import opened HttpResponse
  import opened Console

  /** `content_type.partition(';')[0].strip()`: the MIME type without its parameters. */
  function MimeType(contentType: string): (m: string)
    ensures IsStripped(m) && ';' !in m
    ensures ';' !in contentType ==> m == Strip(contentType)
  {
    StripChars(BeforeFirst(contentType, ';'));
    BeforeFirstAbsent(contentType, ';');
    Strip(BeforeFirst(contentType, ';'))
  }

  /** Everything from the first `;` on is dropped before the lookup. */
  lemma MimeTypeDropsParameters(mime: string, parameters: string)
    requires ';' !in mime
    ensures MimeType(mime + ";" + parameters) == Strip(mime)
  {
    var s := mime + ";" + parameters;
    var r := BeforeFirst(s, ';');
    assert s[|mime|] == ';';
    assert r == mime;
  }

  /**
   * `guess_lexer_name`. `lexerForMime` is `get_lexer_for_mimetype(m).name`,
   * `None` standing for `ClassNotFound`. The name is `''` without a
   * Content-Type header or without a lexer for its MIME type; a non-empty
   * name is the lexer found for that MIME type.
   */
  function GuessLexerName(response: Response, lexerForMime: string -> Option<string>): (name: string)
    ensures GetHeader(response.headers, "Content-Type").None? ==> name == ""
    ensures (GetHeader(response.headers, "Content-Type").Some?
      && lexerForMime(MimeType(GetHeader(response.headers, "Content-Type").value)).None?) ==> name == ""
    ensures name != "" ==> (GetHeader(response.headers, "Content-Type").Some?
      && lexerForMime(MimeType(GetHeader(response.headers, "Content-Type").value)) == Some(name))
    ensures (GetHeader(response.headers, "Content-Type").Some?
      && lexerForMime(MimeType(GetHeader(response.headers, "Content-Type").value)).Some?) ==>
      name == lexerForMime(MimeType(GetHeader(response.headers, "Content-Type").value)).value
  {
    match GetHeader(response.headers, "Content-Type")
    case Some(contentType) =>
      (match lexerForMime(MimeType(contentType))
       case Some(lexer) => lexer
       case None => "")
    case None => ""
  }

  /** `f'{response.http_version} {response.status_code} {response.reason_phrase}'` */
  function StatusLine(response: Response): string {
    response.httpVersion + " " + DecimalString(response.statusCode) + " " + response.reasonPhrase
  }

  /** `f'{name}: {value}'` */
  function HeaderLine(header: (string, string)): string {
    header.0 + ": " + header.1
  }

  /** The status line, then one line per header in order. */
  function HeaderLines(response: Response): (lines: seq<string>)
    ensures |lines| == 1 + |response.headers|
  {
    [StatusLine(response)]
      + seq(|response.headers|, i requires 0 <= i < |response.headers| => HeaderLine(response.headers[i]))
  }

  /** `get_response_headers_text`: the header lines joined by newlines. */
  method GetResponseHeadersText(response: Response) returns (text: string)
    ensures text == Join(HeaderLines(response), "\n")
  {
    var lines := [StatusLine(response)];
    for i := 0 to |response.headers|
      invariant lines == HeaderLines(response)[..i + 1]
    {
      var (name, value) := response.headers[i];
      lines := lines + [name + ": " + value];
    }
    assert lines == HeaderLines(response);
    text := Join(lines, "\n");
  }

  /** No newline inside the status line's parts or in any header. */
  predicate NoNewlines(response: Response) {
    && '\n' !in response.httpVersion
    && '\n' !in response.reasonPhrase
    && forall i :: 0 <= i < |response.headers| ==> '\n' !in response.headers[i].0 && '\n' !in response.headers[i].1
  }

  /**
   * When no part holds a newline, the header text splits back into exactly
   * the status line and one line per header, and it does not end in a newline.
   */
  lemma HeaderTextLines(response: Response)
    requires NoNewlines(response)
    ensures var text := Join(HeaderLines(response), "\n");
      && Split(text, '\n') == HeaderLines(response)
      && |Split(text, '\n')| == 1 + |response.headers|
      && text != [] && text[|text| - 1] != '\n'
  {
    var lines := HeaderLines(response);
    var status := DecimalString(response.statusCode);
    assert '\n' !in status;
    assert '\n' !in lines[0];
    forall i | 1 <= i < |lines|
      ensures '\n' !in lines[i]
    {
      assert lines[i] == HeaderLine(response.headers[i - 1]);
    }
    SplitJoin(lines, '\n');
    var text := Join(lines, "\n");
    LastSegmentShape(text, '\n');
    var last := lines[|lines| - 1];
    assert last != [] by {
      if |lines| == 1 {
        assert |last| >= 2;
      } else {
        assert last == HeaderLine(response.headers[|lines| - 2]);
      }
    }
    assert LastSegment(text, '\n') == last;
    assert text[|text| - 1] == last[|last| - 1];
  }

  /** `lexer.lower() == 'json'`; only the ASCII letters lower-case to `j`, `s`, `o` and `n`. */
  predicate IsJsonLexer(lexer: string) {
    LowerAscii(lexer) == "json"
  }

  /**
   * `print_response`: the header text and an empty delimiter as `http`
   * blocks, then the body. The body is pretty-printed JSON exactly when the
   * lexer is JSON and the body parses; it is otherwise the raw text, as a
   * block of the lexer when there is one and as plain console text when not.
   */
  method PrintResponse(response: Response, loads: string -> Option<Json>, lexerForMime: string -> Option<string>)
    returns (out: seq<Printed>)
    ensures |out| == 3
    ensures out[0] == Highlighted(Source(Join(HeaderLines(response), "\n")), "http")
    ensures out[1] == Highlighted(Source(""), "http")
    ensures var lexer := GuessLexerName(response, lexerForMime);
      && (lexer == "" ==> out[2] == Markup(response.text))
      && (lexer != "" ==> out[2].Highlighted? && out[2].lexer == lexer)
      && ((out[2].Highlighted? && out[2].code.JsonIndented?)
          <==> (lexer != "" && IsJsonLexer(lexer) && loads(response.text).Some?))
      && (out[2].Highlighted? && out[2].code.JsonIndented? ==> Some(out[2].code.value) == loads(response.text))
      && (out[2].Highlighted? && !out[2].code.JsonIndented? ==> out[2].code == Source(response.text))
  {
    var httpHeaders := GetResponseHeadersText(response);
    var lexer := GuessLexerName(response, lexerForMime);
    var body;
    if lexer != "" {
      var text := Source(response.text);
      if IsJsonLexer(lexer) {
        match loads(response.text) {
          case Some(data) => text := JsonIndented(data);
          case None =>
        }
      }
      body := Highlighted(text, lexer);
    } else {
      body := Markup(response.text);
    }
    out := [Highlighted(Source(httpHeaders), "http"), Highlighted(Source(""), "http"), body];
  }
}

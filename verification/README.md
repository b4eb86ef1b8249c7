# httpcli in Dafny

A model of the decision and string logic of httpcli, a command-line HTTP
client built on httpx, click, rich and pydantic. Each core Python module has
a Dafny module:

- `Helpers` (httpcli/helpers.py) covers the configuration-to-httpx-arguments map.
- `RootGroup` (httpcli/main.py) covers the in-place option override and the `http` group callback.
- `Config` (httpcli/configuration.py) covers the settings record, its defaults, field domains and auth pre-validator.
- `Parameters` (httpcli/parameters.py) covers the `--auth` JSON converter.
- `Models` (httpcli/models.py) covers the `:port` URL shortcut.
- `Sse` (httpcli/commands/sse.py) covers the status dispatch and the line classifier and read loop of `sse`.
- `Download` (httpcli/commands/download.py) covers filename derivation, URL collection, `download_file` and the `download` fan-out.
- `CommandHelpers` (httpcli/commands/helpers.py) covers lexer lookup, header text and response printing.
- `DidYouMean` (httpcli/did_you_mean.py) covers the did-you-mean message.

Support modules:

- `Text` defines the Python `str` operations the code uses on `seq<char>`:
  - `strip` with Python's exact `isspace` set;
  - `split`, `join`, `partition`, `rfind`, `rstrip('.')`;
  - `str(int)`.

  Python's `s[:-1]` is `DropLast` in `DidYouMean`, the one module that uses it.
- `HttpResponse` holds the parts of an `httpx.Response` that are read.
- `Console` lists what is handed to `console.print`; `JsonValue` holds the values `json.loads` produces.
- `Wrappers` holds `Option` and `Result`.

The code that works by changing state is modelled as imperative Dafny:

- `Configuration` is a class, and `SetConfigurationOptions` assigns its fields under `modifies`.
- The rich progress task and the destination directory are classes.
- `get_response_headers_text`, the SSE read loop, the did-you-mean message and the download fan-out are loops with invariants.

Each method is proved against a specification function (`HeaderLines`/`Join`, `Transcript`, `Suggestion`, `Written`/`Report`).

Foreign code is passed in as function parameters and is never given a body:

- `json.loads` is `loads`; pydantic's auth-union validation is `authOf` and its `AnyHttpUrl` check is `isHttpUrl`.
- `idna.encode` is `idnaEncode`.
- pygments' `get_lexer_for_mimetype` is `lexerForMime`; `mimetypes.guess_extension` is `guessExtension`.
- mailbox's `get_filename` is `dispositionFilename`.
- difflib's `get_close_matches` is `closeMatches`, and click's own `resolve_command` is `resolve`.
- The HTTP request is `fetch` for `download` and `stream` for `sse`.

A `None` or `Failure` result from these parameters stands for an exception:

- from `loads`, the `JSONDecodeError`;
- from `authOf`, pydantic's `ValidationError`;
- from `idnaEncode`, the `IDNAError`, which `check_shortcut_url` does not catch and pydantic reports as a validation error;
- from `lexerForMime`, pygments' `ClassNotFound`;
- from `stream`, an `httpx.HTTPError`;
- from `resolve`, click's `UsageError`.

For `guessExtension` and `dispositionFilename`, `None` is the library's own result for an unknown type or a missing filename parameter, and no exception is involved.

## Model

| member | source | states |
|---|---|---|
| Helpers.BuildBaseHttpxArguments | httpcli/helpers.py:10-28 | The keys are exactly allow_redirects, verify, http1 and http2. `auth` is added exactly for Basic or Digest settings and carries their scheme and credentials. `proxies` is added exactly when a proxy is set and carries it. verify passes a flag through and gives a path as its string. http1/http2 are the version tests. |
| Helpers.ExactlyOneProtocol | httpcli/helpers.py:14-15 | http1 and http2 always differ, so exactly one of them is on. |
| Helpers.DefaultArguments | httpcli/helpers.py:11-16 | The default settings map to exactly {allow_redirects: true, verify: true, http1: true, http2: false}. |
| Helpers.ProxyArguments | httpcli/helpers.py:25-26 | A proxy with redirects off gives the base keys with allow_redirects false, plus `proxies` set to the proxy. |
| Helpers.AllowRedirects | httpcli/commands/sse.py:29-30 | The `allow_redirects` popped from the arguments is the configured follow_redirects. |
| Config.Configuration.constructor | httpcli/configuration.py:10-17 | A fresh configuration has the declared defaults: no proxy, h1, trio, no auth, follow redirects, verify on, timeout 5.0. |
| Config.ParseVersion | httpcli/configuration.py:12 | Exactly "h1" and "h2" are accepted; an accepted value reads back as the same name. |
| Config.ParseBackend | httpcli/configuration.py:13 | Exactly "trio", "asyncio" and "uvloop" are accepted; an accepted value reads back as the same name. |
| Config.LiteralNamesRoundTrip | httpcli/configuration.py:12-13 | Every version and backend parses back from its own name. |
| Config.ConvertStrToDict | httpcli/configuration.py:19-26 | A non-string passes unchanged. A string is replaced by what it parses to. A string that does not parse fails with an error naming that string. |
| Config.ValidateAuth | httpcli/configuration.py:14-26 | The JSON error happens exactly for an unparsable string. Null gives no auth. Any other pre-validated value is accepted exactly when the union validation accepts it, and then as the auth that validation makes of it. |
| Config.DictReprIsRejected | httpcli/configuration.py:21-25 | Text that is not JSON, such as a Python dict literal, is refused with the not-a-valid-json-string error. |
| RootGroup.SetConfigurationOptions | httpcli/main.py:10-29 | version, backend, proxy, auth and follow_redirects each take their argument exactly when it is not None and keep their old value otherwise. verify always takes its argument. timeout never changes. The new state is `Overridden` of the old. |
| RootGroup.Overridden | httpcli/main.py:19-29 | Field by field, an override changes a field only when its argument is given, and then to that argument; verify is always replaced and timeout is kept. |
| RootGroup.OverriddenIdempotent | httpcli/main.py:19-29 | Applying the same arguments twice gives what applying them once gives. |
| RootGroup.FalseRedirectsApplied | httpcli/main.py:27-28 | follow_redirects=False is applied, not skipped. |
| RootGroup.Http | httpcli/main.py:36-39 | The context's configuration, or a fresh default one, is overridden with the global options, and verify always ends up off. |
| RootGroup.NoOptionsGiveDefaultsWithoutVerify | httpcli/main.py:38-39 | With no option given, the root group leaves the defaults with verify off. |
| Parameters.ConvertAuth | httpcli/parameters.py:13-23 | Input that is not JSON fails with "<value> is not a valid json string", and this is checked first. Parsed JSON that the auth field refuses fails with "authentication information is not valid". On success the result is the auth the configuration makes of the parsed value. |
| Parameters.ConvertAuthRoundTrip | httpcli/parameters.py:14-21 | Converting the JSON an auth record dumps gives back that record. |
| Parameters.NumberIsNotAnAuth | httpcli/parameters.py:19-23 | Valid JSON that is not an auth record gets the auth message, not the JSON one. |
| Models.AuthJson | tests/test_parameters.py:42-47 | `auth.json()` of any auth record is an object whose first member is its `type` tag. |
| Models.AuthJsonDistinguishes | tests/test_parameters.py:42-47 | Two auth records with the same dump are the same record, so the dump determines the record `--auth` reads back. |
| Models.CheckShortcutUrl | httpcli/models.py:11-16 | The validator fails exactly when IDNA encoding fails; otherwise it is the shortcut rewrite of the encoded value. |
| Models.ShortcutBecomesLocalhost | httpcli/models.py:14-15 | A value of a colon followed by a digit becomes "http://localhost" followed by the whole value. |
| Models.ExpandShortcutChangesOnlyShortcuts | httpcli/models.py:14-16 | The rewrite changes a value exactly when it starts with a colon and a digit. |
| Models.ExpandShortcutIdempotent | httpcli/models.py:14-16 | Rewriting a rewritten value changes nothing. |
| Models.ShortcutWithPath | httpcli/models.py:14 | The match is on the prefix only: ":8000/path" becomes "http://localhost:8000/path". |
| HttpResponse.GetHeader | httpcli/commands/helpers.py:18 | The lookup is case-insensitive. It gives no value exactly when no header has the lower-cased name; otherwise it gives the value of the first header with that name. |
| CommandHelpers.MimeType | httpcli/commands/helpers.py:20-22 | The MIME type has no surrounding whitespace and no `;`. A content type without a `;` gives exactly that content type, stripped. |
| CommandHelpers.MimeTypeDropsParameters | httpcli/commands/helpers.py:20-22 | Everything from the first `;` on is dropped, and the rest is stripped. |
| CommandHelpers.GuessLexerName | httpcli/commands/helpers.py:17-25 | The name is empty without a Content-Type header or without a lexer for its MIME type. When the MIME type has a lexer, the name is exactly that lexer's name. |
| CommandHelpers.HeaderLines | httpcli/commands/helpers.py:29-31 | There is one line for the status and one per header. |
| CommandHelpers.GetResponseHeadersText | httpcli/commands/helpers.py:28-32 | The loop's text is the status line and then the header lines, in order, joined by newlines. |
| CommandHelpers.HeaderTextLines | httpcli/commands/helpers.py:28-32 | When no part holds a newline, the text splits back into exactly those lines. It has 1 + (number of headers) lines and no trailing newline. |
| CommandHelpers.PrintResponse | httpcli/commands/helpers.py:40-57 | The output is three prints: the header text as http, the empty delimiter, then the body. The body is pretty-printed JSON exactly when the lexer is json (ASCII case-insensitive) and the body parses. Otherwise it is the raw text: highlighted with the lexer when there is one, plain when there is none. |
| Text.StripEmpty | httpcli/commands/sse.py:47-49 | A stripped line is empty exactly when every character is whitespace. |
| Text.SplitJoin | httpcli/commands/helpers.py:32 | Splitting a newline-join of newline-free lines gives the lines back. |
| Text.LastSegmentShape | httpcli/commands/download.py:30 | The last `/`-segment of a path is its separator-free tail after the last `/`. |
| Sse.GroupFrom | httpcli/commands/sse.py:27-28 | A group captured by `(.+)` is non-empty and holds no newline. |
| Sse.MatchField | httpcli/commands/sse.py:27-28 | `prefix\s*(.+)` matches only a line that starts with the prefix, and its group is non-empty and newline-free. |
| Sse.MatchFieldSingleLine | httpcli/commands/sse.py:27-28 | On a single line, an empty rest fails. Otherwise the group is the rest without leading whitespace; when the rest is all whitespace, the regex engine backtracks and the group is its last character. |
| Sse.Classify | httpcli/commands/sse.py:47-64 | A line is skipped exactly when it is all whitespace. An event line starts (after stripping) with "event:" and has a non-empty name. A data line starts with "data:" and has a non-empty payload. Any other line is the stripped line itself. |
| Sse.Emit | httpcli/commands/sse.py:50-65 | A skipped line prints nothing; any other line prints one content item, then one empty print. A data payload is shown as JSON exactly when it parses. |
| Sse.EventLineName | httpcli/commands/sse.py:50-52 | An "event:" line names the text after the prefix with leading whitespace removed. |
| Sse.DataLinePayload | httpcli/commands/sse.py:53-57 | A "data:" line carries the text after the prefix with leading whitespace removed; the event test comes first. |
| Sse.DataLineIsNoEventLine | httpcli/commands/sse.py:50-54 | A line starting with "data:" never matches the event pattern, so the data test decides it. |
| Sse.BareEventIsPlain | httpcli/commands/sse.py:63-64 | A bare "event:" matches neither pattern and is printed as it is. |
| Sse.EventClassified | httpcli/commands/sse.py:50-52 | "event: <name>" is an event line naming <name>. |
| Sse.DataClassified | httpcli/commands/sse.py:53-57 | "data: <payload>" is a data line carrying <payload>. |
| Sse.EventRendered | httpcli/commands/sse.py:50-52 | An event line prints the event marker, then an empty line. |
| Sse.JsonDataRendered | httpcli/commands/sse.py:56-59 | A data line whose payload parses prints it as indented JSON, then an empty line. |
| Sse.BlankRendered | httpcli/commands/sse.py:47-49 | An empty line prints nothing. |
| Sse.ReadEvents | httpcli/commands/sse.py:46-65 | The read loop prints exactly the transcript of the lines. |
| Sse.TranscriptAppend | httpcli/commands/sse.py:46-65 | Reading two runs of lines prints the transcript of the first, then that of the second. |
| Sse.TranscriptShape | httpcli/commands/sse.py:47-65 | Every non-blank line prints one content item and then exactly one empty print: two items per non-blank line, alternating. |
| Sse.EventThenJson | httpcli/commands/sse.py:46-65 | An event line, a JSON data line and an empty line print the marker, a blank, the JSON and a blank. |
| Sse.Sse | httpcli/commands/sse.py:21-68 | Redirects follow the configuration. An error before a response prints "unexpected error" with its message. Status 301-399 prints the redirect warning. 400 and above prints the body, or the error raised while reading it. Both abort. Any other status, 300 included, prints the headers, an empty line and the transcript of the lines read; an error while reading then prints its message. The command aborts exactly for a status above 300 or a read error. |
| Download.GetFilenameFromContentDisposition | httpcli/commands/download.py:18-25 | A missing header gives an empty name, as does a header without a filename parameter. A header with a filename parameter gives exactly that parameter. |
| Download.Suffix | httpcli/commands/download.py:32 | A suffix starts with its name's last dot, has at least one character after it, and is shorter than the name. |
| Download.SuffixOfExtension | httpcli/commands/download.py:32 | "<stem>.<ext>" with a non-empty stem and a dot-free extension has the suffix ".<ext>". |
| Download.NoDotNoSuffix | httpcli/commands/download.py:32 | A name without a dot has no suffix. |
| Download.TrailingDotNoSuffix | httpcli/commands/download.py:32 | A name ending in a dot has no suffix. |
| Download.HiddenNameNoSuffix | httpcli/commands/download.py:32 | A leading dot with no other dot gives no suffix. |
| Download.GetFilenameFromUrl | httpcli/commands/download.py:28-43 | The name is the last path segment when that segment has a suffix, or when the content type is missing or unknown. A segment without a suffix and a known content type gives the segment without trailing dots followed by the extension. |
| Download.KnownTypeAddsExtension | httpcli/commands/download.py:39-43 | A dot-free segment with a known content type gets that type's extension appended. |
| Download.TrailingDotsGiveWayToExtension | httpcli/commands/download.py:43 | A segment `<stem>.` with a known content type gives `<stem><extension>`: `archive.` served as a zip becomes `archive.zip`. |
| Download.UrlNameHasNoSlash | httpcli/commands/download.py:28-43 | The URL-derived name never holds a `/` unless the extension does. |
| Download.GetFilename | httpcli/commands/download.py:46-51 | The Content-Disposition name wins when it is non-empty; otherwise the URL-derived name is used. |
| Download.Report | httpcli/commands/download.py:80-85 | The outcome line starts with a check mark for a success and a cross otherwise, and ends with the URL and the file name in parentheses. |
| Download.StrippedLines | httpcli/commands/download.py:59 | There is one stripped entry per line of the file, in order. |
| Download.Invalid | httpcli/commands/download.py:61-64 | The refused entries are empty exactly when every entry is a URL; each refused entry is a non-URL from the list. |
| Download.GetUrlsFromFile | httpcli/commands/download.py:58-66 | The file is accepted exactly when every stripped line is a URL, and then gives the set of stripped lines. Otherwise the error lists refused lines. |
| Download.BlankLineRefused | httpcli/commands/download.py:59-64 | A blank line makes the file fail when the empty string is not a URL. |
| Download.Progress.constructor | httpcli/commands/download.py:122 | The task starts with the given total and nothing completed. |
| Download.Progress.Update | httpcli/commands/download.py:81 | The completed count advances by the given amount and the total is kept. |
| Download.Directory.WriteBytes | httpcli/commands/download.py:83-84 | A name that denotes the destination or its parent (``, `.`, `..`) raises and changes nothing. Any other name holds the content afterwards, and every other file is kept. |
| Download.DownloadFile | httpcli/commands/download.py:69-86 | Status 300 and above writes nothing; below 300, the content is written under the derived name. Either way the outcome line is printed and progress advances by exactly one. The exception: a success whose name denotes a directory raises, prints nothing and leaves progress and files as they were. |
| Download.WrittenKeys | httpcli/commands/download.py:79-84 | After a run of downloads, the directory holds the old files plus exactly the names of the successful downloads, and every file not overwritten keeps its content. |
| Download.AllFailedWritesNothing | httpcli/commands/download.py:79-81 | When no download succeeds, the directory is unchanged. |
| Download.RequestedUrls | httpcli/commands/download.py:112-115 | The URL set is the command-line URLs union the file's URLs; a refused file is the error. |
| Download.DownloadEach | httpcli/commands/download.py:121-126 | Each URL is downloaded at most once, in some order, with one outcome line and one step of progress per completed download, and the directory is what those downloads write in that order. A raising write ends the fan-out and names its URL; otherwise every URL is done. |
| Download.Download | httpcli/commands/download.py:104-128 | A refused file stops the command before any download. Otherwise the URLs of the union are downloaded with the configured redirect setting. The command succeeds, with the completion message last, exactly when no URL's write raises; otherwise it fails with the raising URL and no completion message. |
| DidYouMean.DropLast | httpcli/did_you_mean.py:36 | `[:-1]` keeps an empty string empty and otherwise removes exactly the last character. |
| DidYouMean.Bullets | httpcli/did_you_mean.py:33-34 | The bullets are empty exactly when there are no matches, and otherwise end in a newline. |
| DidYouMean.Suggestion | httpcli/did_you_mean.py:31-36 | Without matches the message loses its last character; with matches the result is one character shorter than the message, header and bullets together. |
| DidYouMean.SuggestionMessage | httpcli/did_you_mean.py:25-36 | The loop builds the message with the header and one bullet per match appended, then drops the last character. |
| DidYouMean.BulletsAppend | httpcli/did_you_mean.py:33-34 | The bullets of two runs of matches are those of each, in order. |
| DidYouMean.BulletsInOrder | httpcli/did_you_mean.py:33-34 | Each match's bullet sits between those of the matches before it and those after it. |
| DidYouMean.SuggestionKeepsBullets | httpcli/did_you_mean.py:31-36 | With matches, only the final newline is removed. |
| DidYouMean.NoMatchesDropsLastCharacter | httpcli/did_you_mean.py:36 | Without matches, the last character of click's own message is removed. |
| DidYouMean.SingleMatch | httpcli/did_you_mean.py:31-36 | One match gives the message, the header and "    • <name>" without a newline. |
| DidYouMean.DymGroup.constructor | httpcli/did_you_mean.py:12-14 | max_suggestions defaults to 3 and cutoff to 0.5, used only when not supplied. |
| DidYouMean.DymGroup.ResolveCommand | httpcli/did_you_mean.py:17-36 | A resolved command is returned unchanged. A failed lookup raises its message with the suggestions for the first argument, built from the group's commands, limit and cutoff. |

## Left out

- Network and HTTP execution are replaced by the `fetch` and `stream` parameters:
  - client construction, streaming and `response.aread()`;
  - timeouts and anyio cancel scopes.
- `perform_read_request` (httpcli/commands/helpers.py:61-83) is not modelled: it calls `build_read_method_arguments`, which is not part of this model, and it is all client I/O and timeout handling.
- Download.DownloadEach: an `httpx.HTTPError` raised by a fetch is not modelled; every fetch is taken to return a response. Only the write that raises `IsADirectoryError` is modelled as an exception.
- Download.DownloadEach: the anyio task group runs downloads concurrently. The model runs them one after another in an order it leaves open. It does not model the interleaving of two downloads writing the same file name; the last one in the chosen order wins.
- Download.DownloadEach: when a write raises, the task group cancels the downloads still running. Which of them had already finished is the downloads that come before it in the chosen order.
- Download.Directory.WriteBytes: other failures of the write (a missing parent directory, permissions) are not modelled.
- Download.Directory.WriteBytes: `destination / filename` is modelled as a key of the directory map. Path joining is not modelled: an absolute name, a `..` or a `/` in a Content-Disposition name would land elsewhere.
- Download.GetUrlsFromFile: the UsageError carries the refused entries, not pydantic's message text.
- Download.Progress: rich's rendering of the progress bar and its console are not modelled; outcome lines are returned as a sequence.
- Console output is a sequence of `Printed` items. rich markup interpretation, `escape`, Syntax highlighting and `json.dumps(..., indent=4)` formatting are not modelled; the JSON value is kept as it is.
- `print_response_headers`, used by `sse`, is not defined in httpcli/commands/helpers.py as it stands. Its output is the single item `ResponseHeaders(response)`.
- CommandHelpers.PrintResponse: `response.json()` is modelled as `loads(response.text)`; the decoding of the body bytes is not modelled.
- HttpResponse.GetHeader: headers are taken as httpx's merged, lower-cased view; the merging of repeated header names is not modelled.
- Config.Configuration.constructor: `BaseSettings` also reads `HTTP_CLI_*` environment variables. The model gives the declared defaults, as with no such variable set.
- `proxy` is kept as a string. The `AnyHttpUrl` check on it is not modelled, and neither is the existence check of a `FilePath` verify.
- `timeout` is an opaque optional real and no arithmetic is done on it.
- RootGroup.SetConfigurationOptions: version and backend arguments are typed by their enumerations. Assigning an out-of-domain string in place is not modelled, since pydantic does not validate assignments here.
- `http` passes its arguments positionally to `set_configuration_options`, and they are modelled in that order.
- Models.AuthJson: BasicAuth, DigestAuth and OAuth2PasswordBearer are imported from httpcli/models.py but not defined in it. The field layout `auth.json()` dumps is modelled from the configuration's field names.
- Config.ValidateAuth: pydantic's union validation is the `authOf` parameter. Which model of the union wins for an ambiguous dictionary is not modelled.
- Parameters.ConvertAuth: `Configuration(auth=...)` can also fail on an invalid environment variable; that is not modelled.
- DidYouMean.DymGroup.ResolveCommand: requires a non-empty argument list, since click resolves a command only when one was named; `args[0]` would raise `IndexError` otherwise.
- DidYouMean.DymGroup.ResolveCommand: difflib's ranking and its float cutoff are the `closeMatches` parameter.
- Sse.MatchFieldSingleLine: states the group for lines without a newline, which is the case for lines from `aiter_lines`. `GroupFrom` models the regex on any string.
- The OAuth2 token flow is only a TODO in httpcli/helpers.py:23 and gets no `auth` argument, as in the code.
- Shell completion, the `http`/`https` command wiring and the read/write commands are not part of this model.

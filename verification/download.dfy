/** The `download` command of httpcli/commands/download.py. */
module Download {
  import opened Wrappers
  import opened Text
  import opened HttpResponse
  import opened Console
  import opened Config
  import opened Helpers

  /**
   * `get_filename_from_content_disposition`. `dispositionFilename(value)` is
   * the `filename` parameter mailbox finds in a `content-disposition: value`
   * header, `None` when there is none. Without the header or the parameter
   * the name is `''`; a non-empty name is that parameter.
   */
  function GetFilenameFromContentDisposition(response: Response, dispositionFilename: string -> Option<string>)
    : (name: string)
    ensures GetHeader(response.headers, "content-disposition").None? ==> name == ""
    ensures (GetHeader(response.headers, "content-disposition").Some?
      && dispositionFilename(GetHeader(response.headers, "content-disposition").value).None?) ==> name == ""
    ensures name != "" ==> (GetHeader(response.headers, "content-disposition").Some?
      && dispositionFilename(GetHeader(response.headers, "content-disposition").value) == Some(name))
    ensures (GetHeader(response.headers, "content-disposition").Some?
      && dispositionFilename(GetHeader(response.headers, "content-disposition").value).Some?) ==>
      name == dispositionFilename(GetHeader(response.headers, "content-disposition").value).value
  {
    match GetHeader(response.headers, "content-disposition")
    case None => ""
    case Some(disposition) => dispositionFilename(disposition).GetOr("")
  }

  /**
   * `PurePath(name).suffix` for a name without `/`: the text from the last
   * dot on, when that dot is neither the first nor the last character.
   */
  function Suffix(name: string): (suffix: string)
    ensures suffix != [] ==> 2 <= |suffix| < |name| && suffix == name[|name| - |suffix|..]
    ensures suffix != [] ==> suffix[0] == '.' && '.' !in suffix[1..]
  {
    match LastIndexOf(name, '.')
    case Some(i) => if 0 < i < |name| - 1 then name[i..] else ""
    case None => ""
  }

  /** A name ending in a dot-free extension after a non-empty stem has that extension as suffix. */
  lemma SuffixOfExtension(stem: string, extension: string)
    requires stem != [] && extension != [] && '.' !in extension
    ensures Suffix(stem + "." + extension) == "." + extension
  {
    var name := stem + "." + extension;
    LastIndexOfAfter(stem, '.', extension);
    assert 0 < |stem| < |name| - 1;
    assert name[|stem|..] == "." + extension;
    assert Suffix(name) == name[|stem|..];
  }

  /** Without a dot there is no suffix. */
  lemma NoDotNoSuffix(name: string)
    requires '.' !in name
    ensures Suffix(name) == ""
  {
  }

  /** A trailing dot is not a suffix (`'archive.'` has none). */
  lemma TrailingDotNoSuffix(name: string)
    requires name != [] && name[|name| - 1] == '.'
    ensures Suffix(name) == ""
  {
  }

  /** A leading dot with no other dot is not a suffix (`'.bashrc'` has none). */
  lemma HiddenNameNoSuffix(rest: string)
    requires '.' !in rest
    ensures Suffix("." + rest) == ""
  {
    var name := "." + rest;
    assert forall j :: 0 < j < |name| ==> name[j] == rest[j - 1];
  }

  /**
   * `get_filename_from_url`: the last `/`-separated segment of the request
   * path, kept as it is when it already has a suffix or when the content type
   * is missing or unknown to `guessExtension` (`mimetypes.guess_extension`);
   * otherwise the segment without its trailing dots followed by the
   * extension.
   */
  function GetFilenameFromUrl(response: Response, guessExtension: string -> Option<string>): (name: string)
    ensures var segment := LastSegment(response.requestUrlPath, '/');
      var contentType := GetHeader(response.headers, "content-type");
      && (Suffix(segment) != [] ==> name == segment)
      && (contentType.None? ==> name == segment)
      && (contentType.Some? && guessExtension(contentType.value).None? ==> name == segment)
      && (Suffix(segment) == [] && contentType.Some? && guessExtension(contentType.value).Some? ==>
            name == TrimEndChar(segment, '.') + guessExtension(contentType.value).value)
  {
    var filename := LastSegment(response.requestUrlPath, '/');
    if Suffix(filename) != [] then filename
    else
      match GetHeader(response.headers, "content-type")
      case None => filename
      case Some(contentType) =>
        match guessExtension(contentType)
        case None => filename
        case Some(extension) => TrimEndChar(filename, '.') + extension
  }

  /** An extension-less last segment gets the extension of a known content type. */
  lemma KnownTypeAddsExtension(response: Response, guessExtension: string -> Option<string>, extension: string)
    requires '.' !in LastSegment(response.requestUrlPath, '/')
    requires GetHeader(response.headers, "content-type").Some?
    requires guessExtension(GetHeader(response.headers, "content-type").value) == Some(extension)
    ensures GetFilenameFromUrl(response, guessExtension) == LastSegment(response.requestUrlPath, '/') + extension
  {
    var segment := LastSegment(response.requestUrlPath, '/');
    NoDotNoSuffix(segment);
    assert TrimEndChar(segment, '.') == segment by {
      if segment != [] {
        assert segment[|segment| - 1] in segment;
      }
    }
  }

  /** Trailing dots give way to the extension: `archive.` served as a zip becomes `archive.zip`. */
  lemma TrailingDotsGiveWayToExtension(response: Response, guessExtension: string -> Option<string>,
                                       stem: string, extension: string)
    requires LastSegment(response.requestUrlPath, '/') == stem + "."
    requires stem != [] && stem[|stem| - 1] != '.'
    requires GetHeader(response.headers, "content-type").Some?
    requires guessExtension(GetHeader(response.headers, "content-type").value) == Some(extension)
    ensures GetFilenameFromUrl(response, guessExtension) == stem + extension
  {
    var segment := stem + ".";
    TrailingDotNoSuffix(segment);
    assert segment[..|segment| - 1] == stem;
  }

  /** The URL-derived name never holds a `/` unless the extension does, so the file lands in the destination. */
  lemma UrlNameHasNoSlash(response: Response, guessExtension: string -> Option<string>)
    requires forall m :: guessExtension(m).Some? ==> '/' !in guessExtension(m).value
    ensures '/' !in GetFilenameFromUrl(response, guessExtension)
  {
    var segment := LastSegment(response.requestUrlPath, '/');
    LastSegmentShape(response.requestUrlPath, '/');
    var name := GetFilenameFromUrl(response, guessExtension);
    if name != segment {
      var stem := TrimEndChar(segment, '.');
      assert forall k :: 0 <= k < |stem| ==> stem[k] == segment[k];
    }
  }

  /** `get_filename`: the Content-Disposition name when it is not empty, the URL-derived name otherwise. */
  function GetFilename(response: Response, dispositionFilename: string -> Option<string>,
                       guessExtension: string -> Option<string>): (name: string)
    ensures GetFilenameFromContentDisposition(response, dispositionFilename) != "" ==>
      name == GetFilenameFromContentDisposition(response, dispositionFilename)
    ensures GetFilenameFromContentDisposition(response, dispositionFilename) == "" ==>
      name == GetFilenameFromUrl(response, guessExtension)
  {
    var filename := GetFilenameFromContentDisposition(response, dispositionFilename);
    if filename != "" then filename else GetFilenameFromUrl(response, guessExtension)
  }

  /** The UsageError raised for a file of URLs: the stripped lines pydantic refused, in order. */
  datatype UsageError = InvalidUrls(invalid: seq<string>)

  /** `[line.strip() for line in file]` */
  function StrippedLines(lines: seq<string>): (urls: seq<string>)
    ensures |urls| == |lines| && forall i :: 0 <= i < |lines| ==> urls[i] == Strip(lines[i])
  {
    seq(|lines|, i requires 0 <= i < |lines| => Strip(lines[i]))
  }

  /** The entries `isHttpUrl` refuses, in order. */
  function Invalid(urls: seq<string>, isHttpUrl: string -> bool): (bad: seq<string>)
    ensures bad == [] <==> forall i :: 0 <= i < |urls| ==> isHttpUrl(urls[i])
    ensures forall u :: u in bad ==> u in urls && !isHttpUrl(u)
  {
    if urls == [] then []
    else
      var rest := Invalid(urls[1..], isHttpUrl);
      assert forall i :: 1 <= i < |urls| ==> urls[i] == urls[1..][i - 1];
      if isHttpUrl(urls[0]) then rest else [urls[0]] + rest
  }

  /**
   * `get_urls_from_file`. `isHttpUrl` is pydantic's `AnyHttpUrl` check. The
   * file is accepted exactly when every stripped line is a URL, and then
   * gives the set of stripped lines; otherwise the error names the refused
   * lines.
   */
  function GetUrlsFromFile(lines: seq<string>, isHttpUrl: string -> bool): (r: Result<set<string>, UsageError>)
    ensures r.Success? <==> forall i :: 0 <= i < |lines| ==> isHttpUrl(Strip(lines[i]))
    ensures r.Success? ==> forall u :: u in r.value <==> u in StrippedLines(lines)
    ensures r.Failure? ==> r.error.invalid != []
    ensures r.Failure? ==> forall u :: u in r.error.invalid ==> u in StrippedLines(lines) && !isHttpUrl(u)
  {
    var urls := StrippedLines(lines);
    var invalid := Invalid(urls, isHttpUrl);
    if invalid == [] then Success(set u | u in urls) else Failure(InvalidUrls(invalid))
  }

  /** A blank line in the file is refused as soon as pydantic refuses the empty string. */
  lemma BlankLineRefused(lines: seq<string>, i: nat, isHttpUrl: string -> bool)
    requires i < |lines| && AllSpace(lines[i]) && !isHttpUrl("")
    ensures GetUrlsFromFile(lines, isHttpUrl).Failure?
  {
    StripEmpty(lines[i]);
  }

  /** The rich progress task of the command. */
  class Progress {
    var total: nat
    var completed: nat

    /** `progress.add_task('Downloading', total=total)` */
    constructor (total: nat)
      ensures this.total == total && completed == 0
    {
      this.total := total;
      completed := 0;
    }

    /** `progress.update(task_id, advance=advance)` */
    method Update(advance: nat)
      modifies this
      ensures total == old(total) && completed == old(completed) + advance
    {
      completed := completed + advance;
    }
  }

  /**
   * A name that `destination / name` resolves to a directory: the
   * destination itself (`''` and `.`) or its parent (`..`).
   */
  predicate NamesDirectory(name: string) {
    name == "" || name == "." || name == ".."
  }

  /** The destination directory, as file names and their bytes. */
  class Directory {
    var files: map<string, seq<bv8>>

    constructor (files: map<string, seq<bv8>>)
      ensures this.files == files
    {
      this.files := files;
    }

    /**
     * `(destination / name).write_bytes(content)`. A name that denotes a
     * directory makes the write raise `IsADirectoryError` (`written` false)
     * and changes nothing; any other name is (over)written with `content`.
     */
    method WriteBytes(name: string, content: seq<bv8>) returns (written: bool)
      modifies this
      ensures written <==> !NamesDirectory(name)
      ensures written ==> files == old(files)[name := content]
      ensures !written ==> files == old(files)
    {
      if NamesDirectory(name) {
        written := false;
      } else {
        files := files[name := content];
        written := true;
      }
    }
  }

  /**
   * The code the command relies on but does not define: `fetch(url,
   * allowRedirects)` is `client.get`, the other two are the mailbox and
   * mimetypes lookups of the filename functions.
   */
  datatype Services = Services(
    fetch: (string, bool) -> Response,
    dispositionFilename: string -> Option<string>,
    guessExtension: string -> Option<string>)

  /** The response and file name of one URL. */
  function Fetched(services: Services, url: string, allowRedirects: bool): (Response, string) {
    var response := services.fetch(url, allowRedirects);
    (response, GetFilename(response, services.dispositionFilename, services.guessExtension))
  }

  /** A download succeeds below status 300; a redirect that was not followed counts as a failure. */
  predicate Succeeded(services: Services, url: string, allowRedirects: bool) {
    Fetched(services, url, allowRedirects).0.statusCode < 300
  }

  const CrossMark := ":cross_mark: "
  const CheckMark := ":white_heavy_check_mark: "

  /**
   * The line `download_file` prints for one URL: a check mark for a success
   * and a cross otherwise, then the URL and, in parentheses, the file name.
   */
  function Report(services: Services, url: string, allowRedirects: bool): (line: Printed)
    ensures line.Markup?
    ensures Succeeded(services, url, allowRedirects) ==> StartsWith(line.text, CheckMark)
    ensures !Succeeded(services, url, allowRedirects) ==> StartsWith(line.text, CrossMark)
    ensures var tail := url + " (" + Fetched(services, url, allowRedirects).1 + ")";
      |tail| <= |line.text| && line.text[|line.text| - |tail|..] == tail
  {
    var (response, filename) := Fetched(services, url, allowRedirects);
    var mark := if response.statusCode >= 300 then CrossMark else CheckMark;
    var line := mark + (url + " (" + filename + ")");
    assert line[..|mark|] == mark;
    Markup(line)
  }

  /**
   * A successful response whose file name denotes a directory: writing it
   * raises `IsADirectoryError` (a URL whose path ends in `/`, served
   * without a Content-Disposition name and without a known content type).
   */
  predicate Raises(services: Services, url: string, allowRedirects: bool) {
    Succeeded(services, url, allowRedirects) && NamesDirectory(Fetched(services, url, allowRedirects).1)
  }

  /** The exception that escapes `download_file` when the file cannot be written. */
  datatype WriteError = IsADirectoryError(url: string)

  /**
   * `download_file`: a response of status 300 or more writes nothing; any
   * other one writes its content under the derived name. Either way the
   * outcome line is printed and the progress advances by one, unless the
   * write raised, which leaves the progress as it was and prints nothing.
   */
  method DownloadFile(services: Services, url: string, allowRedirects: bool, destination: Directory, progress: Progress)
    returns (result: Result<Printed, WriteError>)
    modifies destination, progress
    ensures Raises(services, url, allowRedirects) ==>
      && result == Failure(IsADirectoryError(url))
      && destination.files == old(destination.files)
      && progress.total == old(progress.total) && progress.completed == old(progress.completed)
    ensures !Raises(services, url, allowRedirects) ==>
      && result == Success(Report(services, url, allowRedirects))
      && progress.total == old(progress.total) && progress.completed == old(progress.completed) + 1
    ensures !Succeeded(services, url, allowRedirects) ==> destination.files == old(destination.files)
    ensures Succeeded(services, url, allowRedirects) && !Raises(services, url, allowRedirects) ==>
      destination.files == old(destination.files)[Fetched(services, url, allowRedirects).1
        := Fetched(services, url, allowRedirects).0.content]
  {
    var response := services.fetch(url, allowRedirects);
    var filename := GetFilename(response, services.dispositionFilename, services.guessExtension);
    if response.statusCode >= 300 {
      result := Success(Markup(CrossMark + (url + " (" + filename + ")")));
      progress.Update(1);
    } else {
      var written := destination.WriteBytes(filename, response.content);
      if !written {
        return Failure(IsADirectoryError(url));
      }
      result := Success(Markup(CheckMark + (url + " (" + filename + ")")));
      progress.Update(1);
    }
  }

  /** The directory after downloading `order` one URL after another. */
  function Written(files: map<string, seq<bv8>>, order: seq<string>, services: Services, allowRedirects: bool)
    : map<string, seq<bv8>>
  {
    if order == [] then files
    else
      var before := Written(files, order[..|order| - 1], services, allowRedirects);
      var url := order[|order| - 1];
      if Succeeded(services, url, allowRedirects) then
        before[Fetched(services, url, allowRedirects).1 := Fetched(services, url, allowRedirects).0.content]
      else before
  }

  /** The names the successful downloads of `order` write. */
  function WrittenNames(order: seq<string>, services: Services, allowRedirects: bool): set<string> {
    if order == [] then {}
    else
      var url := order[|order| - 1];
      WrittenNames(order[..|order| - 1], services, allowRedirects)
        + if Succeeded(services, url, allowRedirects) then {Fetched(services, url, allowRedirects).1} else {}
  }

  /** Downloading adds exactly the names of the successful downloads and keeps every other file. */
  lemma {:induction false} WrittenKeys(files: map<string, seq<bv8>>, order: seq<string>, services: Services,
                                       allowRedirects: bool)
    ensures Written(files, order, services, allowRedirects).Keys == files.Keys + WrittenNames(order, services, allowRedirects)
    ensures forall k :: k in files && k !in WrittenNames(order, services, allowRedirects) ==>
      Written(files, order, services, allowRedirects)[k] == files[k]
  {
    if order != [] {
      var init := order[..|order| - 1];
      WrittenKeys(files, init, services, allowRedirects);
    }
  }

  /** When no download succeeds the directory is left as it was. */
  lemma {:induction false} AllFailedWritesNothing(files: map<string, seq<bv8>>, order: seq<string>, services: Services,
                               allowRedirects: bool)
    requires forall u :: u in order ==> !Succeeded(services, u, allowRedirects)
    ensures Written(files, order, services, allowRedirects) == files
  {
    if order != [] {
      var init := order[..|order| - 1];
      assert forall u :: u in init ==> u in order;
      AllFailedWritesNothing(files, init, services, allowRedirects);
    }
  }

  const CompletedMessage := "[info]Downloads completed! :glowing_star:"

  /** The URLs of the command line and of the file, or the file's UsageError. */
  function RequestedUrls(urlArguments: seq<string>, file: Option<seq<string>>, isHttpUrl: string -> bool)
    : (r: Result<set<string>, UsageError>)
    ensures r.Failure? <==> file.Some? && GetUrlsFromFile(file.value, isHttpUrl).Failure?
    ensures r.Success? ==> forall u :: u in r.value <==>
      u in urlArguments || (file.Some? && u in GetUrlsFromFile(file.value, isHttpUrl).value)
  {
    var urls := set u | u in urlArguments;
    if file.None? then Success(urls)
    else
      match GetUrlsFromFile(file.value, isHttpUrl)
      case Failure(e) => Failure(e)
      case Success(others) => Success(urls + others)
  }

  /** No URL appears twice. */
  predicate Distinct(urls: seq<string>) {
    forall i, j :: 0 <= i < j < |urls| ==> urls[i] != urls[j]
  }

  /**
   * The download fan-out: the URLs of `urls` one at a time, in an order the
   * model leaves open. `done` are the downloads that completed, each with
   * its outcome line and one step of progress. A write that raises ends the
   * fan-out (`raised`, the URL concerned); otherwise every URL is done once.
   */
  method DownloadEach(urls: set<string>, services: Services, allowRedirects: bool, destination: Directory)
    returns (progress: Progress, out: seq<Printed>, ghost done: seq<string>, raised: Option<string>)
    modifies destination
    ensures fresh(progress) && progress.total == |urls| && progress.completed == |done|
    ensures Distinct(done) && forall u :: u in done ==> u in urls && !Raises(services, u, allowRedirects)
    ensures raised.None? ==> |done| == |urls| && forall u :: u in urls ==> u in done
    ensures raised.Some? ==>
      raised.value in urls && raised.value !in done && Raises(services, raised.value, allowRedirects)
    ensures destination.files == Written(old(destination.files), done, services, allowRedirects)
    ensures |out| == |done| && forall i :: 0 <= i < |done| ==> out[i] == Report(services, done[i], allowRedirects)
  {
    progress := new Progress(|urls|);
    var remaining := urls;
    out := [];
    done := [];
    raised := None;
    while remaining != {}
      invariant remaining <= urls
      invariant forall u :: u in done <==> u in urls && u !in remaining
      invariant Distinct(done)
      invariant forall u :: u in done ==> !Raises(services, u, allowRedirects)
      invariant |done| == |urls| - |remaining| == |out|
      invariant progress.total == |urls| && progress.completed == |done|
      invariant destination.files == Written(old(destination.files), done, services, allowRedirects)
      invariant forall i :: 0 <= i < |out| ==> out[i] == Report(services, done[i], allowRedirects)
      decreases remaining
    {
      var url :| url in remaining;
      var result := DownloadFile(services, url, allowRedirects, destination, progress);
      if result.Failure? {
        raised := Some(url);
        return;
      }
      assert (done + [url])[..|done|] == done;
      out := out + [result.value];
      done := done + [url];
      remaining := remaining - {url};
    }
  }

  /** Why the command stopped: a refused file of URLs, or a file that could not be written. */
  datatype CommandError = Usage(usage: UsageError) | Write(write: WriteError)

  /**
   * The `download` command. A refused file of URLs stops it before anything
   * is fetched. Otherwise the URLs of the union are downloaded as
   * `DownloadEach` states, with `allow_redirects` from the configuration;
   * the completion message follows the outcome lines unless a write raised,
   * in which case the exception ends the command.
   */
  method Download(config: Configuration, urlArguments: seq<string>, file: Option<seq<string>>,
                  isHttpUrl: string -> bool, services: Services, destination: Directory)
    returns (result: Result<Progress, CommandError>, out: seq<Printed>, ghost done: seq<string>)
    modifies destination
    ensures RequestedUrls(urlArguments, file, isHttpUrl).Failure? ==>
      && result == Failure(Usage(RequestedUrls(urlArguments, file, isHttpUrl).error))
      && out == [] && destination.files == old(destination.files)
    ensures RequestedUrls(urlArguments, file, isHttpUrl).Success? ==>
      var urls := RequestedUrls(urlArguments, file, isHttpUrl).value;
      && Distinct(done) && (forall u :: u in done ==> u in urls && !Raises(services, u, config.followRedirects))
      && destination.files == Written(old(destination.files), done, services, config.followRedirects)
      && |out| >= |done|
      && (forall i :: 0 <= i < |done| ==> out[i] == Report(services, done[i], config.followRedirects))
      && (result.Success? <==> forall u :: u in urls ==> !Raises(services, u, config.followRedirects))
      && (result.Success? ==>
            && fresh(result.value)
            && result.value.total == |urls| && result.value.completed == |urls|
            && |done| == |urls| && (forall u :: u in urls ==> u in done)
            && out == out[..|urls|] + [Markup(CompletedMessage)])
      && (result.Failure? ==>
            && result.error.Write? && |out| == |done|
            && result.error.write.url in urls && result.error.write.url !in done
            && Raises(services, result.error.write.url, config.followRedirects))
  {
    done := [];
    match RequestedUrls(urlArguments, file, isHttpUrl) {
      case Failure(e) =>
        result := Failure(Usage(e));
        out := [];
      case Success(urls) =>
        var allowRedirects := AllowRedirects(config.State());
        var progress, lines, raised;
        progress, lines, done, raised := DownloadEach(urls, services, allowRedirects, destination);
        if raised.Some? {
          result := Failure(Write(IsADirectoryError(raised.value)));
          out := lines;
        } else {
          out := lines + [Markup(CompletedMessage)];
          result := Success(progress);
        }
    }
  }
}

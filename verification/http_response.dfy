/** The parts of an `httpx.Response` that the commands read. */
module HttpResponse {
  import opened Wrappers
  import opened Text

  /**
   * `headers` is the view `response.headers.items()` gives: httpx has already
   * lower-cased the names and merged repeated names into one comma-separated
   * value. `requestUrlPath` is `response.request.url.path`.
   */
  datatype Response = Response(
    httpVersion: string,
    statusCode: nat,
    reasonPhrase: string,
    headers: seq<(string, string)>,
    text: string,
    content: seq<bv8>,
    requestUrlPath: string)

  /** Item `i` is the first one named `key`. */
  predicate FirstNamed(headers: seq<(string, string)>, key: string, i: int) {
    && 0 <= i < |headers|
    && headers[i].0 == key
    && forall j :: 0 <= j < i ==> headers[j].0 != key
  }

  /**
   * `response.headers.get(name)`: names compare case-insensitively, so the
   * value is that of the first item named `name` in lower case, and there is
   * none when no item has that name.
   */
  function GetHeader(headers: seq<(string, string)>, name: string): (r: Option<string>)
    ensures r.None? <==> forall i :: 0 <= i < |headers| ==> headers[i].0 != LowerAscii(name)
    ensures r.Some? ==> exists i :: FirstNamed(headers, LowerAscii(name), i) && headers[i].1 == r.value
  {
    if headers == [] then None
    else if headers[0].0 == LowerAscii(name) then
      assert FirstNamed(headers, LowerAscii(name), 0);
      Some(headers[0].1)
    else
      var r := GetHeader(headers[1..], name);
      if r.Some? then
        var k :| FirstNamed(headers[1..], LowerAscii(name), k) && headers[1..][k].1 == r.value;
        assert FirstNamed(headers, LowerAscii(name), k + 1);
        r
      else
        r
  }
}

/** Authentication records and the URL pre-validator of `UrlModel` (httpcli/models.py). */
module Models {
  import opened Wrappers
  import opened Text
  import opened JsonValue

  /** The authentication schemes a configuration can carry. */
  datatype Auth =
    | BasicAuth(username: string, password: string)
    | DigestAuth(username: string, password: string)
    | OAuth2PasswordBearer(username: string, password: string, tokenUrl: string, scopes: seq<string>)

  /** The dictionary `auth.json()` dumps: the record's fields under a `type` tag. */
  function AuthJson(a: Auth): (j: Json)
    ensures j.JObject? && |j.members| >= 3 && j.members[0].0 == "type"
  {
    match a
    case BasicAuth(u, p) =>
      JObject([("type", JString("basic")), ("username", JString(u)), ("password", JString(p))])
    case DigestAuth(u, p) =>
      JObject([("type", JString("digest")), ("username", JString(u)), ("password", JString(p))])
    case OAuth2PasswordBearer(u, p, url, scopes) =>
      JObject([("type", JString("oauth2")), ("flow", JString("password")), ("token_url", JString(url)),
               ("username", JString(u)), ("password", JString(p)),
               ("scopes", JArray(seq(|scopes|, i requires 0 <= i < |scopes| => JString(scopes[i]))))])
  }

  /** Different auth records dump to different dictionaries, so the dump can be read back. */
  lemma AuthJsonDistinguishes(a: Auth, b: Auth)
    requires AuthJson(a) == AuthJson(b)
    ensures a == b
  {
    var ma, mb := AuthJson(a).members, AuthJson(b).members;
    assert ma[0] == mb[0];
    if a.OAuth2PasswordBearer? {
      assert |a.scopes| == |ma[5].1.items| == |mb[5].1.items| == |b.scopes|;
      forall i | 0 <= i < |a.scopes|
        ensures a.scopes[i] == b.scopes[i]
      {
        assert ma[5].1.items[i] == mb[5].1.items[i];
      }
    }
  }

  /**
   * `re.match(r'^:\d+', value)` succeeds: a colon, then at least one digit.
   * The value is the ASCII output of `idna.encode(...).decode()`, so `\d`
   * can only match `0`-`9`.
   */
  predicate IsPortShortcut(value: string) {
    |value| >= 2 && value[0] == ':' && IsDigit(value[1])
  }

  /** The rewrite `check_shortcut_url` applies once the value is IDNA-encoded. */
  function ExpandShortcut(value: string): string {
    if IsPortShortcut(value) then "http://localhost" + value else value
  }

  /**
   * `UrlModel.check_shortcut_url`. `idnaEncode` is `idna.encode(value).decode()`;
   * `None` stands for `IDNAError`, a `ValueError` that pydantic reports as a
   * validation error. Otherwise the encoded value goes through the shortcut rewrite.
   */
  function CheckShortcutUrl(value: string, idnaEncode: string -> Option<string>): (r: Option<string>)
    ensures r.None? <==> idnaEncode(value).None?
    ensures r.Some? ==> r.value == ExpandShortcut(idnaEncode(value).value)
  {
    match idnaEncode(value)
    case None => None
    case Some(encoded) => Some(ExpandShortcut(encoded))
  }

  /**
   * A value of the form `:<digits>...` becomes a localhost URL that keeps the
   * whole value, path included, as its suffix.
   */
  lemma ShortcutBecomesLocalhost(value: string)
    requires IsPortShortcut(value)
    ensures ExpandShortcut(value) == "http://localhost" + value
    ensures StartsWith(ExpandShortcut(value), "http://localhost:")
  {
    assert ExpandShortcut(value)[..17] == "http://localhost" + [value[0]];
  }

  /** The rewrite changes a value exactly when the value is a port shortcut. */
  lemma ExpandShortcutChangesOnlyShortcuts(value: string)
    ensures ExpandShortcut(value) != value <==> IsPortShortcut(value)
  {
    if IsPortShortcut(value) {
      assert |ExpandShortcut(value)| > |value|;
    }
  }

  /** A rewritten value starts with `h`, so rewriting it again changes nothing. */
  lemma ExpandShortcutIdempotent(value: string)
    ensures ExpandShortcut(ExpandShortcut(value)) == ExpandShortcut(value)
  {
    if IsPortShortcut(value) {
      assert ExpandShortcut(value)[0] == 'h';
    }
  }

  /** `:8000/path` is a shortcut too: only the start of the value is tested. */
  lemma ShortcutWithPath()
    ensures ExpandShortcut(":8000/path") == "http://localhost:8000/path"
  {
  }
}

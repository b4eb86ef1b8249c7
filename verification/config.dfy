/** The settings object of httpcli/configuration.py: field domains, defaults and the auth pre-validator. */
module Config {
  import opened Wrappers
  import opened JsonValue
  import opened Models

  /** `Literal['h1', 'h2']` */
  datatype HttpVersion = H1 | H2

  /** `Literal['trio', 'asyncio', 'uvloop']` */
  datatype Backend = Trio | Asyncio | Uvloop

  /** `Union[bool, FilePath]`: a switch, or the path of a CA bundle. */
  datatype Verify = VerifyFlag(enabled: bool) | CertificatePath(path: string)

  /** The value of a configuration: one field per setting, `timeout` in seconds. */
  datatype Settings = Settings(
    proxy: Option<string>,
    version: HttpVersion,
    backend: Backend,
    auth: Option<Auth>,
    followRedirects: bool,
    verify: Verify,
    timeout: Option<real>)

  /** The declared defaults of every field. */
  const Defaults: Settings := Settings(None, H1, Trio, None, true, VerifyFlag(true), Some(5.0))

  function VersionName(v: HttpVersion): string {
    match v
    case H1 => "h1"
    case H2 => "h2"
  }

  function BackendName(b: Backend): string {
    match b
    case Trio => "trio"
    case Asyncio => "asyncio"
    case Uvloop => "uvloop"
  }

  /** Validation of the `version` literal: exactly the two names are accepted. */
  function ParseVersion(s: string): (r: Option<HttpVersion>)
    ensures r.Some? ==> VersionName(r.value) == s
    ensures r.None? <==> s != "h1" && s != "h2"
  {
    if s == "h1" then Some(H1) else if s == "h2" then Some(H2) else None
  }

  /** Validation of the `backend` literal: exactly the three names are accepted. */
  function ParseBackend(s: string): (r: Option<Backend>)
    ensures r.Some? ==> BackendName(r.value) == s
    ensures r.None? <==> s != "trio" && s != "asyncio" && s != "uvloop"
  {
    if s == "trio" then Some(Trio)
    else if s == "asyncio" then Some(Asyncio)
    else if s == "uvloop" then Some(Uvloop)
    else None
  }

  /** Every version and backend survives being written as its name and read back. */
  lemma LiteralNamesRoundTrip(v: HttpVersion, b: Backend)
    ensures ParseVersion(VersionName(v)) == Some(v)
    ensures ParseBackend(BackendName(b)) == Some(b)
  {
  }

  /** Why the auth field was rejected. */
  datatype AuthError =
    /** a string that `json.loads` refused */
    | InvalidJsonString(value: string)
    /** a value that matches none of the auth models */
    | NotAnAuth

  /** The message the pre-validator (and the `--auth` parameter) gives for text that is not JSON. */
  function JsonErrorMessage(value: string): string {
    value + " is not a valid json string"
  }

  /**
   * `convert_str_to_dict`, the `pre=True` validator of `auth`. A Python str
   * (`JString`) is replaced by what `loads` parses from it, or rejected with
   * `InvalidJsonString` of that very string; any other value passes unchanged.
   */
  function ConvertStrToDict(value: Json, loads: string -> Option<Json>): (r: Result<Json, AuthError>)
    ensures !value.JString? ==> r == Success(value)
    ensures value.JString? ==> (r.Failure? <==> loads(value.s).None?)
    ensures value.JString? && r.Success? ==> loads(value.s) == Some(r.value)
    ensures r.Failure? ==> r.error == InvalidJsonString(value.s)
  {
    match value
    case JString(s) =>
      (match loads(s)
       case Some(parsed) => Success(parsed)
       case None => Failure(InvalidJsonString(s)))
    case _ => Success(value)
  }

  /**
   * The `auth` field as pydantic validates it: the pre-validator, then
   * `Optional[Union[BasicAuth, DigestAuth, OAuth2PasswordBearer]]`, where
   * `authOf` is the validation of the union's models (`None` if none matches).
   */
  function ValidateAuth(value: Json, loads: string -> Option<Json>, authOf: Json -> Option<Auth>)
    : (r: Result<Option<Auth>, AuthError>)
    ensures r.Failure? && r.error.InvalidJsonString? <==> value.JString? && loads(value.s).None?
    ensures r.Success? ==> ConvertStrToDict(value, loads).Success?
    ensures r == Success(None) <==> ConvertStrToDict(value, loads) == Success(JNull)
    ensures r.Success? && r.value.Some? ==> authOf(ConvertStrToDict(value, loads).value) == r.value
    ensures ConvertStrToDict(value, loads).Success? && ConvertStrToDict(value, loads).value != JNull ==>
      (r.Success? <==> authOf(ConvertStrToDict(value, loads).value).Some?)
  {
    match ConvertStrToDict(value, loads)
    case Failure(e) => Failure(e)
    case Success(JNull) => Success(None)
    case Success(parsed) =>
      (match authOf(parsed)
       case Some(a) => Success(Some(a))
       case None => Failure(NotAnAuth))
  }

  /** A test-suite fact: a Python dict literal such as `{'type': 'basic'}` is not JSON, and is refused with the pre-validator's message. */
  lemma DictReprIsRejected(text: string, loads: string -> Option<Json>, authOf: Json -> Option<Auth>)
    requires loads(text).None?
    ensures ValidateAuth(JString(text), loads, authOf) == Failure(InvalidJsonString(text))
  {
  }

  /** A configuration object; `set_configuration_options` assigns its fields in place. */
  class Configuration {
    var proxy: Option<string>
    var version: HttpVersion
    var backend: Backend
    var auth: Option<Auth>
    var followRedirects: bool
    var verify: Verify
    var timeout: Option<real>

    /** `Configuration()` with no environment variable set: every field at its default. */
    constructor ()
      ensures proxy == None && version == H1 && backend == Trio && auth == None
      ensures followRedirects && verify == VerifyFlag(true) && timeout == Some(5.0)
      ensures State() == Defaults
    {
      proxy := None;
      version := H1;
      backend := Trio;
      auth := None;
      followRedirects := true;
      verify := VerifyFlag(true);
      timeout := Some(5.0);
    }

    /** The current value of every field. */
    function State(): Settings
      reads this
    {
      Settings(proxy, version, backend, auth, followRedirects, verify, timeout)
    }
  }
}

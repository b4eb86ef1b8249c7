/** `build_base_httpx_arguments` of httpcli/helpers.py: settings to httpx client arguments. */
module Helpers {
  import opened Wrappers
  import opened Models
  import opened Config

  /** `httpx.BasicAuth` or `httpx.DigestAuth`. */
  datatype Scheme = Basic | Digest

  /** A value of the argument dictionary. */
  datatype Argument =
    | Flag(b: bool)
    | Str(s: string)
    | Credentials(scheme: Scheme, username: string, password: string)

  /** The auth settings httpx receives an auth object for. */
  predicate HasHttpxAuth(auth: Option<Auth>) {
    auth.Some? && (auth.value.BasicAuth? || auth.value.DigestAuth?)
  }

  /** `str(verify)` for a path, the flag itself otherwise. */
  function VerifyArgument(verify: Verify): Argument {
    match verify
    case VerifyFlag(b) => Flag(b)
    case CertificatePath(p) => Str(p)
  }

  /**
   * The keyword arguments for the httpx client. The four base keys are always
   * there; `auth` is there exactly for Basic and Digest settings (OAuth2 gets
   * nothing yet) and carries the same credentials; `proxies` is there exactly
   * when a proxy is set and carries it as a string.
   */
  function BuildBaseHttpxArguments(config: Settings): (args: map<string, Argument>)
    ensures args.Keys == {"allow_redirects", "verify", "http1", "http2"}
      + (if HasHttpxAuth(config.auth) then {"auth"} else {})
      + (if config.proxy.Some? then {"proxies"} else {})
    ensures args["allow_redirects"] == Flag(config.followRedirects)
    ensures config.verify.VerifyFlag? ==> args["verify"] == Flag(config.verify.enabled)
    ensures config.verify.CertificatePath? ==> args["verify"] == Str(config.verify.path)
    ensures args["http1"] == Flag(config.version == H1)
    ensures args["http2"] == Flag(config.version == H2)
    ensures "auth" in args ==> args["auth"] == Credentials(
      if config.auth.value.BasicAuth? then Basic else Digest,
      config.auth.value.username, config.auth.value.password)
    ensures "proxies" in args ==> args["proxies"] == Str(config.proxy.value)
  {
    var arguments := map[
      "allow_redirects" := Flag(config.followRedirects),
      "verify" := VerifyArgument(config.verify),
      "http1" := Flag(config.version == H1),
      "http2" := Flag(config.version == H2)];
    var withAuth :=
      match config.auth
      case Some(BasicAuth(u, p)) => arguments["auth" := Credentials(Basic, u, p)]
      case Some(DigestAuth(u, p)) => arguments["auth" := Credentials(Digest, u, p)]
      case _ => arguments;
    if config.proxy.Some? then withAuth["proxies" := Str(config.proxy.value)] else withAuth
  }

  /** Exactly one of `http1` and `http2` is switched on. */
  lemma ExactlyOneProtocol(config: Settings)
    ensures BuildBaseHttpxArguments(config)["http1"].b != BuildBaseHttpxArguments(config)["http2"].b
  {
  }

  /** The default settings give exactly the four base arguments. */
  lemma DefaultArguments()
    ensures BuildBaseHttpxArguments(Defaults) == map[
      "allow_redirects" := Flag(true), "verify" := Flag(true),
      "http1" := Flag(true), "http2" := Flag(false)]
  {
  }

  /** A proxy and no redirects: the base arguments plus `proxies`, with `allow_redirects` off. */
  lemma ProxyArguments(proxy: string)
    ensures BuildBaseHttpxArguments(Defaults.(proxy := Some(proxy), followRedirects := false)) == map[
      "allow_redirects" := Flag(false), "verify" := Flag(true),
      "http1" := Flag(true), "http2" := Flag(false), "proxies" := Str(proxy)]
  {
  }

  /**
   * `build_base_httpx_arguments(config).pop('allow_redirects')`, as the
   * streaming commands do before opening the client: the configured
   * redirect setting.
   */
  method AllowRedirects(config: Settings) returns (allowRedirects: bool)
    ensures allowRedirects == config.followRedirects
  {
    var arguments := BuildBaseHttpxArguments(config);
    allowRedirects := arguments["allow_redirects"].b;
  }
}

/** httpcli/main.py: `set_configuration_options` and the `http` root group. */
module RootGroup {
  import opened Wrappers
  import opened Models
  import opened Config

  /** The arguments of one `set_configuration_options` call, `None` for an argument left out. */
  datatype Overrides = Overrides(
    proxy: Option<string>,
    httpVersion: Option<HttpVersion>,
    backend: Option<Backend>,
    auth: Option<Auth>,
    followRedirects: Option<bool>,
    verify: Verify)

  /** `arg` when one was given, `current` otherwise. */
  function Given<T>(arg: Option<T>, current: T): T {
    if arg.Some? then arg.value else current
  }

  /**
   * The settings `set_configuration_options` leaves in the object: a field
   * changes only when its argument is given, and then takes that argument;
   * `verify` always takes its argument and `timeout` never changes.
   */
  function Overridden(s: Settings, o: Overrides): (r: Settings)
    ensures o.proxy.None? ==> r.proxy == s.proxy
    ensures o.proxy.Some? ==> r.proxy == o.proxy
    ensures o.httpVersion.None? ==> r.version == s.version
    ensures o.httpVersion.Some? ==> r.version == o.httpVersion.value
    ensures o.backend.None? ==> r.backend == s.backend
    ensures o.backend.Some? ==> r.backend == o.backend.value
    ensures o.auth.None? ==> r.auth == s.auth
    ensures o.auth.Some? ==> r.auth == o.auth
    ensures o.followRedirects.None? ==> r.followRedirects == s.followRedirects
    ensures o.followRedirects.Some? ==> r.followRedirects == o.followRedirects.value
    ensures r.verify == o.verify && r.timeout == s.timeout
  {
    Settings(
      if o.proxy.Some? then o.proxy else s.proxy,
      Given(o.httpVersion, s.version),
      Given(o.backend, s.backend),
      if o.auth.Some? then o.auth else s.auth,
      Given(o.followRedirects, s.followRedirects),
      o.verify,
      s.timeout)
  }

  /** Applying the same arguments twice leaves what applying them once left. */
  lemma OverriddenIdempotent(s: Settings, o: Overrides)
    ensures Overridden(Overridden(s, o), o) == Overridden(s, o)
  {
  }

  /** `follow_redirects=False` is an argument like any other: it is applied, not skipped. */
  lemma FalseRedirectsApplied(s: Settings, o: Overrides)
    requires o.followRedirects == Some(false)
    ensures !Overridden(s, o).followRedirects
  {
  }

  /**
   * `set_configuration_options`: each field whose argument is not `None` is
   * assigned that argument, `verify` is assigned unconditionally, and nothing
   * else changes.
   */
  method SetConfigurationOptions(
    config: Configuration,
    proxy: Option<string> := None,
    httpVersion: Option<HttpVersion> := None,
    backend: Option<Backend> := None,
    auth: Option<Auth> := None,
    followRedirects: Option<bool> := None,
    verify: Verify := VerifyFlag(true))
    modifies config
    ensures config.State() == Overridden(old(config.State()),
      Overrides(proxy, httpVersion, backend, auth, followRedirects, verify))
    ensures config.version == if httpVersion.Some? then httpVersion.value else old(config.version)
    ensures config.backend == if backend.Some? then backend.value else old(config.backend)
    ensures config.proxy == if proxy.Some? then proxy else old(config.proxy)
    ensures config.auth == if auth.Some? then auth else old(config.auth)
    ensures config.followRedirects == if followRedirects.Some? then followRedirects.value else old(config.followRedirects)
    ensures config.verify == verify
    ensures config.timeout == old(config.timeout)
  {
    if httpVersion.Some? {
      config.version := httpVersion.value;
    }
    if backend.Some? {
      config.backend := backend.value;
    }
    if proxy.Some? {
      config.proxy := proxy;
    }
    if auth.Some? {
      config.auth := auth;
    }
    if followRedirects.Some? {
      config.followRedirects := followRedirects.value;
    }
    config.verify := verify;
  }

  /**
   * The `http` group callback: `context.ensure_object(Configuration)` (the
   * object already in the context, or a fresh default one), then the global
   * options with `verify=False`.
   */
  method Http(
    contextObject: Option<Configuration>,
    proxy: Option<string>,
    httpVersion: Option<HttpVersion>,
    backend: Option<Backend>,
    auth: Option<Auth>,
    followRedirects: Option<bool>)
    returns (config: Configuration)
    modifies if contextObject.Some? then {contextObject.value} else {}
    ensures contextObject.Some? ==> config == contextObject.value
    ensures contextObject.Some? ==> config.State() == Overridden(old(contextObject.value.State()),
      Overrides(proxy, httpVersion, backend, auth, followRedirects, VerifyFlag(false)))
    ensures contextObject.None? ==> fresh(config)
    ensures contextObject.None? ==> config.State() == Overridden(Defaults,
      Overrides(proxy, httpVersion, backend, auth, followRedirects, VerifyFlag(false)))
    ensures config.verify == VerifyFlag(false)
  {
    if contextObject.Some? {
      config := contextObject.value;
    } else {
      config := new Configuration();
    }
    SetConfigurationOptions(config, proxy, httpVersion, backend, auth, followRedirects, verify := VerifyFlag(false));
  }

  /** With no global option given, the root group leaves the defaults with `verify` switched off. */
  lemma NoOptionsGiveDefaultsWithoutVerify()
    ensures Overridden(Defaults, Overrides(None, None, None, None, None, VerifyFlag(false)))
      == Defaults.(verify := VerifyFlag(false))
  {
  }
}

/**
 A live client handle of the external library and the option list it is built from.
 The handle's profile, timeout and verification flag are fixed for its lifetime;
 only its proxy and its redirect policy can be changed in place.
 */
module Clients {
  import opened FactoryTypes

  /** The effect of one constructor option on the configuration being assembled. */
  function ApplyOption(option: ClientOption, config: ClientConfig): ClientConfig
  {
    match option
    case WithTimeout(seconds) => config.(timeoutSeconds := seconds)
    case WithClientProfile(profile) => config.(profile := profile)
    case WithNotFollowRedirects => config.(followRedirects := false)
    case WithInsecureSkipVerify => config.(insecureSkipVerify := true)
    case WithProxyUrl(url) => config.(proxyUrl := url)
  }

  /** The options applied in list order, as the library's constructor does. */
  function ApplyOptions(options: seq<ClientOption>, config: ClientConfig): ClientConfig
    decreases |options|
  {
    if options == [] then config else ApplyOptions(options[1..], ApplyOption(options[0], config))
  }

  /** Appending an option applies it after all the earlier ones. */
  lemma {:induction false} ApplyOptionsAppend(options: seq<ClientOption>, option: ClientOption, config: ClientConfig)
    ensures ApplyOptions(options + [option], config) == ApplyOption(option, ApplyOptions(options, config))
    decreases |options|
  {
    if options != [] {
      assert (options + [option])[1..] == options[1..] + [option];
      ApplyOptionsAppend(options[1..], option, ApplyOption(options[0], config));
    }
  }

  /**
   The library's configuration before any option: redirects followed, certificates
   verified, no proxy (the options the factory passes only switch these off or on).
   */
  function BaseConfig(lib: Library): ClientConfig
  {
    ClientConfig(lib.defaultTimeoutSeconds, lib.defaultProfile, true, false, "")
  }

  /** A proxy is requested when the input carries a non-nil, non-empty one. */
  predicate ProxyRequested(input: RequestInput)
  {
    input.proxyUrl.Some? && input.proxyUrl.value != ""
  }

  /**
   The configuration a new client of this input is meant to have: the input's timeout,
   or the library default when it is 0; the resolved profile; the input's redirect and
   verification flags; the input's proxy when one is requested.
   */
  function RequestedConfig(lib: Library, input: RequestInput, profile: ClientProfile): ClientConfig
  {
    ClientConfig(
      if input.timeoutSeconds == 0 then lib.defaultTimeoutSeconds else input.timeoutSeconds,
      profile,
      input.followRedirects,
      input.insecureSkipVerify,
      if ProxyRequested(input) then input.proxyUrl.value else "")
  }

  /** The option list of a new client, built by appending as the factory does. */
  method ClientOptions(lib: Library, input: RequestInput, profile: ClientProfile) returns (options: seq<ClientOption>)
    ensures ApplyOptions(options, BaseConfig(lib)) == RequestedConfig(lib, input, profile)
    ensures forall url :: WithProxyUrl(url) in options <==> ProxyRequested(input) && url == input.proxyUrl.value
    ensures WithNotFollowRedirects in options <==> !input.followRedirects
    ensures WithInsecureSkipVerify in options <==> input.insecureSkipVerify
  {
    var base := BaseConfig(lib);
    var timeoutSeconds := lib.defaultTimeoutSeconds;
    if input.timeoutSeconds != 0 {
      timeoutSeconds := input.timeoutSeconds;
    }

    options := [WithTimeout(timeoutSeconds), WithClientProfile(profile)];
    ApplyOptionsAppend([WithTimeout(timeoutSeconds)], WithClientProfile(profile), base);
    assert [WithTimeout(timeoutSeconds)] + [WithClientProfile(profile)] == options;
    var config := base.(timeoutSeconds := timeoutSeconds, profile := profile);
    assert ApplyOptions(options, base) == config;

    if !input.followRedirects {
      ApplyOptionsAppend(options, WithNotFollowRedirects, base);
      options := options + [WithNotFollowRedirects];
      assert ApplyOptions(options, base) == ApplyOption(WithNotFollowRedirects, config);
    }
    config := config.(followRedirects := input.followRedirects);
    assert ApplyOptions(options, base) == config;
    assert WithNotFollowRedirects in options <==> !input.followRedirects;
    assert forall o :: o in options ==> o.WithTimeout? || o.WithClientProfile? || o.WithNotFollowRedirects?;

    if input.insecureSkipVerify {
      ApplyOptionsAppend(options, WithInsecureSkipVerify, base);
      options := options + [WithInsecureSkipVerify];
      assert ApplyOptions(options, base) == ApplyOption(WithInsecureSkipVerify, config);
    }
    config := config.(insecureSkipVerify := input.insecureSkipVerify);
    assert ApplyOptions(options, base) == config;
    assert WithNotFollowRedirects in options <==> !input.followRedirects;
    assert WithInsecureSkipVerify in options <==> input.insecureSkipVerify;
    assert forall o :: o in options ==> !o.WithProxyUrl?;

    var proxy := input.proxyUrl;
    if proxy.Some? && proxy.value != "" {
      ApplyOptionsAppend(options, WithProxyUrl(proxy.value), base);
      options := options + [WithProxyUrl(proxy.value)];
      assert ApplyOptions(options, base) == ApplyOption(WithProxyUrl(proxy.value), config);
    }
    config := config.(proxyUrl := if ProxyRequested(input) then input.proxyUrl.value else "");
    assert ApplyOptions(options, base) == config == RequestedConfig(lib, input, profile);
  }

  /** A live client of the library. */
  class Handle {
    const profile: ClientProfile
    const timeoutSeconds: int
    const insecureSkipVerify: bool
    var proxyUrl: string
    var followRedirect: bool

    /** The handle's present settings. */
    function Config(): ClientConfig
      reads this
    {
      ClientConfig(timeoutSeconds, profile, followRedirect, insecureSkipVerify, proxyUrl)
    }

    constructor (config: ClientConfig)
      ensures Config() == config
    {
      profile := config.profile;
      timeoutSeconds := config.timeoutSeconds;
      insecureSkipVerify := config.insecureSkipVerify;
      proxyUrl := config.proxyUrl;
      followRedirect := config.followRedirects;
    }

    /** SetProxy: the library installs the new proxy or rejects it and changes nothing. */
    method SetProxy(lib: Library, url: string) returns (ok: bool)
      modifies this
      ensures ok == lib.acceptsProxy(url)
      ensures proxyUrl == (if ok then url else old(proxyUrl))
      ensures followRedirect == old(followRedirect)
    {
      ok := lib.acceptsProxy(url);
      if ok {
        proxyUrl := url;
      }
    }

    /** SetFollowRedirect never fails. */
    method SetFollowRedirect(follow: bool)
      modifies this
      ensures followRedirect == follow
      ensures proxyUrl == old(proxyUrl)
    {
      followRedirect := follow;
    }
  }

  /**
   NewHttpClient: the library builds a fresh client from the options, or refuses and
   returns no client together with its error.
   */
  method NewHttpClient(lib: Library, options: seq<ClientOption>) returns (client: Handle?, ok: bool)
    ensures ok == lib.acceptsConfig(ApplyOptions(options, BaseConfig(lib)))
    ensures ok ==> client != null && fresh(client) && client.Config() == ApplyOptions(options, BaseConfig(lib))
    ensures !ok ==> client == null
  {
    var config := ApplyOptions(options, BaseConfig(lib));
    ok := lib.acceptsConfig(config);
    if ok {
      client := new Handle(config);
    } else {
      client := null;
    }
  }
}

/**
 * The provider registry's values: a configured provider, its configuration record, the
 * constants the extension shares, and the built-in "default" provider.
 */
module Providers {
  import opened Wrappers
  import opened Text

  /** The rendering syntaxes the login codes are written in or converted to. */
  datatype Syntax = XWiki21 | Xhtml10 | OtherSyntax(id: string)

  /**
   * An IdentityOAuthProvider after lookup, setProviderHint, setConfigPage and initialize:
   * the observable parts the orchestration consults.
   */
  datatype Provider = Provider(hint: string, configPage: string, active: bool, ready: bool)

  /**
   * A ProviderConfig: the fields of ProviderConfig.java plus the provider, the prepared
   * login code and the login-code syntax that the newer revision also stores in it.
   */
  datatype ProviderConfig = ProviderConfig(
    name: string,
    loginCode: string,
    syntax: Syntax,
    configPage: string,
    orderHint: int,
    config: map<string, string>,
    provider: Option<Provider>,
    preparedLoginCode: Option<string>)

  /** Constants of IdentityOAuthConstants. */
  const XWikiLogin := "XWikiLogin"
  const XWikiGuest := "XWikiGuest"
  const FailedLogin := "failed login"
  const XWikiSpace := "XWiki"
  const ProviderParam := "provider"
  const ProviderHintField := "providerHint"
  const ActiveField := "active"
  const FirstNameField := "first_name"
  const LastNameField := "last_name"
  const EmailField := "email"
  const PasswordField := "password"
  const AvatarField := "avatar"
  const ExternalProviderIdField := "externalProviderId"
  const Base64Marker := "--image-base64--"
  const ChangeMeLoginUrl := "_CHANGE_ME_LOGIN_URL_"

  /** Boolean.parseBoolean: true exactly for "true" in any letter case. */
  predicate ParseBoolean(s: string) {
    EqualsIgnoreCase(s, "true")
  }

  /** The hint DefaultIdentityOAuthProvider is registered under, and the only one it accepts. */
  const DefaultHint := "default"

  /** The `active` parameter's reading: "1", or "true" in any letter case. */
  predicate ActiveParam(v: string) {
    v == "1" || ParseBoolean(v)
  }

  /**
   * DefaultIdentityOAuthProvider: the provider of XWiki's own login form. Its only state is
   * the active flag; its remote operations are stubs.
   */
  class DefaultProvider {
    var active: bool

    constructor ()
      ensures !active
    {
      active := false;
    }

    /** initialize(config): the `active` entry decides the flag; without it the call fails. */
    method Initialize(config: map<string, string>) returns (r: Outcome<()>)
      modifies this
      ensures ActiveField !in config ==> r == Fail(NullValue) && active == old(active)
      ensures ActiveField in config ==> r == Ok(()) && active == ActiveParam(config[ActiveField])
    {
      if ActiveField !in config {
        return Fail(NullValue);
      }
      var activeParam := config[ActiveField];
      active := activeParam == "1" || ParseBoolean(activeParam);
      return Ok(());
    }

    function IsActive(): bool
      reads this
    {
      active
    }

    /** isReady: no licence or other condition is consulted. */
    function IsReady(): bool {
      true
    }

    function ProviderHint(): string {
      DefaultHint
    }

    /** setProviderHint accepts only its own hint and otherwise fails; it stores nothing. */
    method SetProviderHint(hint: string) returns (r: Outcome<()>)
      ensures r.Ok? <==> hint == DefaultHint
      ensures r.Fail? ==> r.error == IllegalHint
    {
      if hint != DefaultHint {
        return Fail(IllegalHint);
      }
      return Ok(());
    }

    /** validateConfiguration always reports "ok". */
    function ValidateConfiguration(): string {
      "ok"
    }

    /** The stubbed remote operations: each answers null, and enrichUserObject answers false. */
    function RemoteAuthorizationUrl(redirectUrl: Option<string>): Option<string> {
      None
    }

    function EnrichUserObject(): bool {
      false
    }
  }

  /**
   * What registering the default provider under a configuration yields: setProviderHint with
   * the configuration's name, then initialize with its map.
   */
  function DefaultInstance(c: ProviderConfig): (r: Outcome<Provider>)
    ensures r.Ok? <==> c.name == DefaultHint && ActiveField in c.config
    ensures r.Ok? ==> (r.value.hint == DefaultHint && r.value.ready
                       && (r.value.active <==> ActiveParam(c.config[ActiveField])))
  {
    if c.name != DefaultHint then Fail(IllegalHint)
    else if ActiveField !in c.config then Fail(NullValue)
    else Ok(Provider(DefaultHint, c.configPage, ActiveParam(c.config[ActiveField]), true))
  }

  /** The class and the value agree: initialising after a successful hint check gives the same flag. */
  method RegisterDefault(c: ProviderConfig) returns (p: DefaultProvider, r: Outcome<Provider>)
    ensures r == DefaultInstance(c)
    ensures r.Ok? ==> p.IsActive() == r.value.active
  {
    p := new DefaultProvider();
    var h := p.SetProviderHint(c.name);
    if h.Fail? {
      return p, Fail(h.error);
    }
    var i := p.Initialize(c.config);
    if i.Fail? {
      return p, Fail(i.error);
    }
    return p, Ok(Provider(p.ProviderHint(), c.configPage, p.IsActive(), p.IsReady()));
  }
}

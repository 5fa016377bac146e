/**
 * The newer revision's orchestration helpers. DefaultIdentityOAuthManagerUtils,
 * IdentityOAuthProviderLoader and DefaultIdentityOAuthManagerInitiator carry the same code for
 * rebuilding the provider map, building the start URL and rewriting the redirect URL; it is
 * modelled once here. The Utils class adds the provider check and the return of a flow.
 */
module ManagerUtils {
  import opened Wrappers
  import opened Text
  import opened Providers
  import opened ConfigTools
  import opened Sessions
  import opened Manager
  import opened Ordering

  /** The map of providers by name the manager owns; a configuration whose provider failed maps to null. */
  class ProviderMap {
    var entries: map<string, Option<Provider>>

    constructor ()
      ensures entries == map[]
    {
      entries := map[];
    }
  }

  /** Putting every configuration's provider under its name, in order. */
  function Registered(cs: seq<ProviderConfig>): map<string, Option<Provider>> {
    if cs == [] then map[] else Registered(cs[..|cs| - 1])[cs[|cs| - 1].name := cs[|cs| - 1].provider]
  }

  /**
   * One entry per distinct name, holding the provider of the last configuration with that name
   * (null for a configuration whose provider could not be made).
   */
  lemma {:induction false} RegisteredLast(cs: seq<ProviderConfig>, k: string)
    ensures k in Registered(cs) <==> exists i :: 0 <= i < |cs| && cs[i].name == k
    ensures k in Registered(cs) ==>
      exists i :: 0 <= i < |cs| && cs[i].name == k && Registered(cs)[k] == cs[i].provider
        && forall j :: i < j < |cs| ==> cs[j].name != k
    decreases |cs|
  {
    if cs != [] {
      var n := |cs| - 1;
      var init := cs[..n];
      RegisteredLast(init, k);
      assert forall i :: 0 <= i < n ==> init[i] == cs[i];
      if cs[n].name != k && k in Registered(cs) {
        var i :| 0 <= i < n && init[i].name == k && Registered(init)[k] == init[i].provider
          && forall j :: i < j < n ==> init[j].name != k;
        assert forall j :: i < j < |cs| ==> cs[j].name != k;
      }
    }
  }

  /**
   * rebuildProviders: the map is emptied first, then each configuration loadAndRebuildProviders
   * answers puts its provider under its name. A failure to load leaves the map empty.
   */
  method RebuildProviders(providers: ProviderMap, tools: ConfigTools, w: Wiki,
                          instantiate: ProviderConfig -> Outcome<Provider>) returns (r: Outcome<seq<ProviderConfig>>)
    modifies providers, tools
    ensures var loaded := LoadAll(w, w.providerPages, Some(LoginPageUrl(w.loginUrl, w.currentUrl)));
      (r.Fail? <==> loaded.Fail?)
      && (r.Ok? ==> r.value == PrepareAll(SortByHint(loaded.value), instantiate, DataUrls(w)))
    ensures r.Fail? ==> providers.entries == map[]
    ensures r.Ok? ==> providers.entries == Registered(r.value)
  {
    providers.entries := map[];
    r := tools.LoadAndRebuildProviders(w, instantiate);
    if r.Fail? {
      return;
    }
    var configs := r.value;
    for i := 0 to |configs|
      invariant providers.entries == Registered(configs[..i])
    {
      assert configs[..i + 1][..i] == configs[..i];
      providers.entries := providers.entries[configs[i].name := configs[i].provider];
    }
    assert configs[..|configs|] == configs;
  }

  const StartParameters := "&identityOAuth=start"

  /** The login page URL with `?` added when it has none, then the start parameters for `hint`. */
  function AppendStart(loginPageUrl: string, hint: string): (r: string)
    ensures |r| > |"provider=" + hint + StartParameters| && '?' in r[..|r| - |"provider=" + hint + StartParameters|]
    ensures EndsWith(r, "provider=" + hint + StartParameters)
    ensures '?' !in loginPageUrl ==> r == loginPageUrl + "?" + "provider=" + hint + StartParameters
    ensures '?' in loginPageUrl ==> r == loginPageUrl + "provider=" + hint + StartParameters
  {
    var base := if '?' in loginPageUrl then loginPageUrl else loginPageUrl + "?";
    var suffix := "provider=" + hint + StartParameters;
    assert (base + suffix)[..|base + suffix| - |suffix|] == base;
    assert (base + suffix)[|base + suffix| - |suffix|..] == suffix;
    assert '?' !in loginPageUrl ==> base[|base| - 1] == '?';
    base + suffix
  }

  /**
   * processOAuthStartUrl: the login page URL never holds `?`, so the start URL is that URL, one
   * `?` and the start parameters; a login page URL that cannot be computed fails the call.
   */
  function StartUrl(w: Wiki, p: Provider): (r: Outcome<string>)
    ensures r.Fail? <==> LoginPageUrl(w.loginUrl, w.currentUrl).Fail?
    ensures r.Ok? ==> r.value == LoginPageUrl(w.loginUrl, w.currentUrl).value + "?provider=" + p.hint + StartParameters
  {
    var l := LoginPageUrl(w.loginUrl, w.currentUrl);
    if l.Fail? then Fail(l.error)
    else
      assert l.value + "?" + "provider=" + p.hint + StartParameters == l.value + "?provider=" + p.hint + StartParameters;
      Ok(AppendStart(l.value, p.hint))
  }

  /**
   * maybeModifyRedirectURL: a URL without the login-URL placeholder is kept; otherwise every
   * placeholder is replaced, literally, by the URL-encoded login page URL.
   */
  function MaybeModifyRedirectUrl(redirectUrl: string, w: Wiki, urlEncode: string -> string): (r: Outcome<string>)
    ensures !Contains(redirectUrl, ChangeMeLoginUrl) ==> r == Ok(redirectUrl)
    ensures Contains(redirectUrl, ChangeMeLoginUrl) ==> (r.Fail? <==> LoginPageUrl(w.loginUrl, w.currentUrl).Fail?)
    ensures Contains(redirectUrl, ChangeMeLoginUrl) && r.Ok? ==>
      var encoded := urlEncode(LoginPageUrl(w.loginUrl, w.currentUrl).value);
      r.value == ReplaceAll(redirectUrl, ChangeMeLoginUrl, encoded)
      && Occurrences(redirectUrl, ChangeMeLoginUrl) > 0
      && |r.value| == |redirectUrl| + Occurrences(redirectUrl, ChangeMeLoginUrl) * (|encoded| - |ChangeMeLoginUrl|)
  {
    if !Contains(redirectUrl, ChangeMeLoginUrl) then Ok(redirectUrl)
    else
      var l := LoginPageUrl(w.loginUrl, w.currentUrl);
      if l.Fail? then Fail(l.error)
      else
        OccurrencesPositive(redirectUrl, ChangeMeLoginUrl);
        ReplaceAllLength(redirectUrl, ChangeMeLoginUrl, urlEncode(l.value));
        Ok(ReplaceAll(redirectUrl, ChangeMeLoginUrl, urlEncode(l.value)))
  }

  /** Rewriting a URL that holds no placeholder any more changes nothing. */
  lemma MaybeModifyIdempotentWithout(redirectUrl: string, w: Wiki, urlEncode: string -> string)
    requires !Contains(redirectUrl, ChangeMeLoginUrl)
    ensures MaybeModifyRedirectUrl(redirectUrl, w, urlEncode) == Ok(redirectUrl)
    ensures ReplaceAll(redirectUrl, ChangeMeLoginUrl, urlEncode(redirectUrl)) == redirectUrl
  {
    ReplaceAllAbsent(redirectUrl, ChangeMeLoginUrl, urlEncode(redirectUrl));
  }

  /** checkIfProviderIsActive: missing, then inactive, then not ready, checked in that order. */
  function CheckIfProviderIsActive(p: Option<Provider>): (r: Outcome<()>)
    ensures r.Ok? <==> p.Some? && p.value.active && p.value.ready
    ensures p.None? ==> r == Fail(ProviderNotFound)
    ensures p.Some? && !p.value.active ==> r == Fail(ProviderInactive)
    ensures p.Some? && p.value.active && !p.value.ready ==> r == Fail(ProviderNotReady)
  {
    if p.None? then Fail(ProviderNotFound)
    else if !p.value.active then Fail(ProviderInactive)
    else if !p.value.ready then Fail(ProviderNotReady)
    else Ok(())
  }

  /**
   * The newer check is stricter than the older manager's getActiveProvider: whatever it accepts
   * the older one accepts, and a registered provider that is active but not ready is accepted
   * only by the older one.
   */
  lemma NewerCheckStricter(m: Manager, hint: string)
    requires hint in m.providers
    ensures CheckIfProviderIsActive(Some(m.providers[hint])).Ok? ==> m.GetActiveProvider(Some(hint)).Ok?
    ensures m.providers[hint].active && !m.providers[hint].ready ==>
      m.GetActiveProvider(Some(hint)).Ok? && CheckIfProviderIsActive(Some(m.providers[hint])).Fail?
  {
  }

  /**
   * processOAuthReturn of the newer revision. The provider is checked before the running mark
   * is cleared, so a refused provider leaves the flow marked. After that the steps are those of
   * the older manager; a failure of a remote step reaches the caller.
   */
  method ProcessOAuthReturn(si: SessionInfo, provider: Option<Provider>, providerHint: string, remote: Remote)
    returns (r: Outcome<string>, redirect: Option<Option<string>>)
    modifies si
    ensures CheckIfProviderIsActive(provider).Fail? ==>
      r == Fail(CheckIfProviderIsActive(provider).error) && redirect.None? && unchanged(si)
    ensures CheckIfProviderIsActive(provider).Ok? ==> si.running.None?
    ensures r.Ok? ==> r.value == LoginOk
    ensures CheckIfProviderIsActive(provider).Ok? ==>
      var p := provider.value;
      var code := remote.readAuthorization(p);
      var token := if code.Ok? then remote.createToken(p, code.value) else Fail(code.error);
      (code.Fail? || token.Fail? ==>
         r.Fail? && redirect.None? && si.codes == old(si.codes) && si.tokens == old(si.tokens)
         && si.expiries == old(si.expiries) && si.userToLogIn == old(si.userToLogIn) && si.xredirect == old(si.xredirect))
      && (code.Ok? && token.Ok? ==>
            var user := remote.reconcile(p, token.value.value);
            si.codes == old(si.codes)[providerHint := code.value]
            && si.tokens == old(si.tokens)[providerHint := token.value.value]
            && si.expiries == old(si.expiries)[providerHint := token.value.expiry]
            && (user.Fail? ==>
                  r.Fail? && redirect.None? && si.userToLogIn == old(si.userToLogIn) && si.xredirect == old(si.xredirect))
            && (user.Ok? ==>
                  r == Ok(LoginOk) && redirect == Some(old(si.xredirect))
                  && si.userToLogIn == Some(user.value) && si.xredirect.None?))
  {
    var check := CheckIfProviderIsActive(provider);
    if check.Fail? {
      return Fail(check.error), None;
    }
    si.SetRunning(None);
    var authorization := remote.readAuthorization(provider.value);
    if authorization.Fail? {
      return Fail(authorization.error), None;
    }
    var token := remote.createToken(provider.value, authorization.value);
    if token.Fail? {
      return Fail(token.error), None;
    }
    si.SetAuthorizationCode(providerHint, authorization.value);
    si.SetToken(providerHint, token.value.value);
    si.SetTokenExpiry(providerHint, token.value.expiry);
    var xwikiUser := remote.reconcile(provider.value, token.value.value);
    if xwikiUser.Fail? {
      return Fail(xwikiUser.error), None;
    }
    si.SetUserToLogIn(Some(xwikiUser.value));
    var x := si.PickXredirect();
    return Ok(LoginOk), Some(x);
  }

  /** The XWiki instance: the one piece of its state modelled is whether this extension authenticates. */
  class XWiki {
    var authServiceInstalled: bool

    constructor ()
      ensures !authServiceInstalled
    {
      authServiceInstalled := false;
    }
  }

  /** The XWiki context of a request, which may not know an XWiki instance yet. */
  datatype XWikiContext = XWikiContext(wiki: Option<XWiki>)

  /** getXWiki: no context (before the first request) or a context without a wiki gives null. */
  function GetXWiki(context: Option<XWikiContext>): (r: Option<XWiki>)
    ensures context.None? ==> r.None?
    ensures r.Some? ==> context.Some? && context.value.wiki == r
  {
    if context.None? then None else context.value.wiki
  }

  /** The objects tryInitiatingAuthService may write: the XWiki instance, when there is one. */
  function WikiFrame(context: Option<XWikiContext>): set<XWiki> {
    if GetXWiki(context).Some? then {GetXWiki(context).value} else {}
  }

  /**
   * tryInitiatingAuthService: installs the service only when an XWiki instance exists; a
   * service that cannot be constructed is swallowed, so the call never fails.
   */
  method TryInitiatingAuthService(context: Option<XWikiContext>, serviceConstructible: bool)
    modifies WikiFrame(context)
    ensures GetXWiki(context).Some? ==>
      GetXWiki(context).value.authServiceInstalled == (old(GetXWiki(context).value.authServiceInstalled) || serviceConstructible)
  {
    var xwiki := GetXWiki(context);
    if xwiki.Some? && serviceConstructible {
      xwiki.value.authServiceInstalled := true;
    }
  }

  /** An execution context's properties. */
  class ExecutionContext {
    var properties: map<string, bool>

    constructor ()
      ensures properties == map[]
    {
      properties := map[];
    }
  }

  const BypassDomainSecurityCheck := "bypassDomainSecurityCheck"

  function ExecutionFrame(execution: Option<ExecutionContext>): set<ExecutionContext> {
    if execution.Some? then {execution.value} else {}
  }

  /** tryBypassDomainSecurityCheck: sets the property only when an execution context exists. */
  method TryBypassDomainSecurityCheck(execution: Option<ExecutionContext>)
    modifies ExecutionFrame(execution)
    ensures execution.Some? ==> execution.value.properties == old(execution.value.properties)[BypassDomainSecurityCheck := true]
  {
    if execution.Some? {
      execution.value.properties := execution.value.properties[BypassDomainSecurityCheck := true];
    }
  }
}

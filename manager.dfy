/**
 * The older revision's orchestration (DefaultIdentityOAuthManager): a component life cycle,
 * the provider registry with its two parallel login-code lists, and the start and return of an
 * OAuth flow against the session's transient state.
 */
module Manager {
  import opened Wrappers
  import opened Text
  import opened Providers
  import opened ConfigTools
  import opened LoginCode
  import opened Ordering
  import opened Sessions
  import opened XWikiObjects

  datatype LifeCycle = Constructed | Initialized | Starting | Running | Stopping | Stopped

  /** Integer.MIN_VALUE, the score before any login code is placed. */
  const MinInt32: int := -0x8000_0000
  const BrokenRendering := "BROKEN RENDERING"
  const LoginOk := "ok"

  /**
   * The literal the default xredirect is computed with. String.replace takes it literally, so
   * it only matters for locations that contain this very text.
   */
  const LoginPathPattern := "/(login/XWiki/XWikiLogin).*"

  /**
   * What the manager consults while (re)building: the wiki, the provider factory (component
   * lookup, setProviderHint, setConfigPage and initialize together) and whether an XWiki
   * instance is reachable through the context.
   */
  datatype Env = Env(wiki: Wiki, instantiate: ProviderConfig -> Outcome<Provider>, hasXWiki: bool)

  /** The registry the rebuild loop carries: the map, the two lists and the last placed score. */
  datatype Registry = Registry(providers: map<string, Provider>, codes: seq<string>, syntaxes: seq<Syntax>, lastScore: int)

  /** A configuration whose provider could be made and is active. */
  predicate Active(c: ProviderConfig, instantiate: ProviderConfig -> Outcome<Provider>) {
    instantiate(c).Ok? && instantiate(c).value.active
  }

  /**
   * One configuration of the rebuild loop. The provider is registered as soon as it is made;
   * an active one first places XWikiLogin if it is the first with a positive orderHint, then
   * adds its prepared login code and syntax and records its score. A failing preparation skips
   * the rest of the step but keeps what was already added.
   */
  function Step(reg: Registry, c: ProviderConfig, instantiate: ProviderConfig -> Outcome<Provider>,
                dataUrl: string -> Outcome<string>): Registry
  {
    var p := instantiate(c);
    if p.Fail? then reg
    else
      var named := reg.(providers := reg.providers[c.name := p.value]);
      if !p.value.active then named
      else
        var placed := if c.orderHint > 0 && reg.lastScore <= 0
          then named.(codes := named.codes + [XWikiLogin], syntaxes := named.syntaxes + [XWiki21])
          else named;
        var code := PrepareLoginCode(c.loginCode, c.name, dataUrl);
        if code.Fail? then placed
        else placed.(codes := placed.codes + [code.value], syntaxes := placed.syntaxes + [c.syntax],
                     lastScore := c.orderHint)
  }

  /** The loop over the configurations in order, from an empty registry. */
  function Fold(cs: seq<ProviderConfig>, instantiate: ProviderConfig -> Outcome<Provider>,
                dataUrl: string -> Outcome<string>): Registry
  {
    if cs == [] then Registry(map[], [], [], MinInt32)
    else Step(Fold(cs[..|cs| - 1], instantiate, dataUrl), cs[|cs| - 1], instantiate, dataUrl)
  }

  /** After the loop: XWikiLogin goes last when no positive score was placed. */
  function Finish(reg: Registry): Registry {
    if reg.lastScore <= 0 then reg.(codes := reg.codes + [XWikiLogin], syntaxes := reg.syntaxes + [XWiki21])
    else reg
  }

  /** rebuildProviders on the loaded configurations: sorted by orderHint, folded, finished. */
  function Rebuilt(cs: seq<ProviderConfig>, instantiate: ProviderConfig -> Outcome<Provider>,
                   dataUrl: string -> Outcome<string>): Registry
  {
    Finish(Fold(SortByHint(cs), instantiate, dataUrl))
  }

  /** The two lists grow together, so they always have the same length. */
  lemma {:induction false} FoldLengths(cs: seq<ProviderConfig>, instantiate: ProviderConfig -> Outcome<Provider>,
                                       dataUrl: string -> Outcome<string>)
    ensures |Fold(cs, instantiate, dataUrl).codes| == |Fold(cs, instantiate, dataUrl).syntaxes|
    ensures |Finish(Fold(cs, instantiate, dataUrl)).codes| == |Finish(Fold(cs, instantiate, dataUrl)).syntaxes|
    decreases |cs|
  {
    if cs != [] {
      FoldLengths(cs[..|cs| - 1], instantiate, dataUrl);
    }
  }

  /**
   * Every configuration whose provider could be made is registered, active or not, under its
   * name; of several with one name, the last one made wins.
   */
  lemma {:induction false} FoldProviders(cs: seq<ProviderConfig>, instantiate: ProviderConfig -> Outcome<Provider>,
                                         dataUrl: string -> Outcome<string>, k: string)
    ensures k in Fold(cs, instantiate, dataUrl).providers <==>
      exists i :: 0 <= i < |cs| && cs[i].name == k && instantiate(cs[i]).Ok?
    ensures k in Fold(cs, instantiate, dataUrl).providers ==>
      exists i :: 0 <= i < |cs| && cs[i].name == k && instantiate(cs[i]) == Ok(Fold(cs, instantiate, dataUrl).providers[k])
        && forall j :: i < j < |cs| && cs[j].name == k ==> instantiate(cs[j]).Fail?
    decreases |cs|
  {
    if cs != [] {
      var n := |cs| - 1;
      var init := cs[..n];
      FoldProviders(init, instantiate, dataUrl, k);
      assert forall i :: 0 <= i < n ==> init[i] == cs[i];
      StepProviders(Fold(init, instantiate, dataUrl), cs[n], instantiate, dataUrl);
      var m := Fold(cs, instantiate, dataUrl).providers;
      if cs[n].name == k && instantiate(cs[n]).Ok? {
        assert m[k] == instantiate(cs[n]).value;
      } else if k in m {
        var i :| 0 <= i < n && init[i].name == k && instantiate(init[i]) == Ok(Fold(init, instantiate, dataUrl).providers[k])
          && forall j :: i < j < n && init[j].name == k ==> instantiate(init[j]).Fail?;
        assert forall j :: i < j < |cs| && cs[j].name == k ==> instantiate(cs[j]).Fail?;
      }
    }
  }

  /** A step registers the provider it could make, and nothing else. */
  lemma StepProviders(reg: Registry, c: ProviderConfig, instantiate: ProviderConfig -> Outcome<Provider>,
                      dataUrl: string -> Outcome<string>)
    ensures Step(reg, c, instantiate, dataUrl).providers ==
      if instantiate(c).Ok? then reg.providers[c.name := instantiate(c).value] else reg.providers
  {
  }

  /** Every active configuration's login code can be prepared. */
  predicate Prepares(cs: seq<ProviderConfig>, instantiate: ProviderConfig -> Outcome<Provider>,
                     dataUrl: string -> Outcome<string>)
  {
    forall c :: c in cs && Active(c, instantiate) ==> PrepareLoginCode(c.loginCode, c.name, dataUrl).Ok?
  }

  /** The prepared login code an active configuration contributes, if any. */
  function CodeOf(c: ProviderConfig, instantiate: ProviderConfig -> Outcome<Provider>,
                  dataUrl: string -> Outcome<string>): seq<string>
  {
    var code := PrepareLoginCode(c.loginCode, c.name, dataUrl);
    if Active(c, instantiate) && code.Ok? then [code.value] else []
  }

  /** The prepared login codes of the active configurations, in order. */
  function Codes(cs: seq<ProviderConfig>, instantiate: ProviderConfig -> Outcome<Provider>,
                 dataUrl: string -> Outcome<string>): seq<string>
  {
    if cs == [] then [] else Codes(cs[..|cs| - 1], instantiate, dataUrl) + CodeOf(cs[|cs| - 1], instantiate, dataUrl)
  }

  /** One step on a configuration whose code, if active, can be prepared. */
  lemma StepCodes(reg: Registry, c: ProviderConfig, instantiate: ProviderConfig -> Outcome<Provider>,
                  dataUrl: string -> Outcome<string>)
    requires Active(c, instantiate) ==> PrepareLoginCode(c.loginCode, c.name, dataUrl).Ok?
    ensures Step(reg, c, instantiate, dataUrl).codes ==
      reg.codes + (if Active(c, instantiate) && c.orderHint > 0 && reg.lastScore <= 0 then [XWikiLogin] else [])
      + CodeOf(c, instantiate, dataUrl)
    ensures Step(reg, c, instantiate, dataUrl).lastScore == if Active(c, instantiate) then c.orderHint else reg.lastScore
  {
    if Active(c, instantiate) && c.orderHint > 0 && reg.lastScore <= 0 {
      assert reg.codes + [XWikiLogin] + CodeOf(c, instantiate, dataUrl) == reg.codes + [XWikiLogin] + CodeOf(c, instantiate, dataUrl);
    } else {
      assert reg.codes + [] == reg.codes;
    }
  }

  /** Over configurations without a positive orderHint, the codes are added in order and XWikiLogin is not placed. */
  lemma {:induction false} FoldNonPositive(lo: seq<ProviderConfig>, instantiate: ProviderConfig -> Outcome<Provider>,
                                           dataUrl: string -> Outcome<string>)
    requires forall c :: c in lo ==> c.orderHint <= 0
    requires Prepares(lo, instantiate, dataUrl)
    ensures Fold(lo, instantiate, dataUrl).codes == Codes(lo, instantiate, dataUrl)
    ensures Fold(lo, instantiate, dataUrl).lastScore <= 0
    decreases |lo|
  {
    if lo != [] {
      var n := |lo| - 1;
      assert lo[n] in lo;
      FoldNonPositive(lo[..n], instantiate, dataUrl);
      StepCodes(Fold(lo[..n], instantiate, dataUrl), lo[n], instantiate, dataUrl);
    }
  }

  /** The codes after the positive orderHints seen so far: XWikiLogin in front of them once there are any. */
  function Placed(low: seq<string>, high: seq<string>): seq<string> {
    low + (if high == [] then [] else [XWikiLogin] + high)
  }

  lemma PlacedSnoc(low: seq<string>, high: seq<string>, extra: seq<string>)
    ensures Placed(low, high) + (if high == [] && extra != [] then [XWikiLogin] else []) + extra == Placed(low, high + extra)
  {
    if high == [] {
      assert high + extra == extra;
      if extra == [] {
        assert low + [] + [] == low + [];
      } else {
        assert (low + []) + [XWikiLogin] + extra == low + ([XWikiLogin] + extra);
      }
    } else {
      assert (low + ([XWikiLogin] + high)) + [] + extra == low + ([XWikiLogin] + (high + extra));
    }
  }

  /** The fold over a list with one more configuration, and the codes it contributes. */
  lemma FoldSnoc(cs: seq<ProviderConfig>, c: ProviderConfig, instantiate: ProviderConfig -> Outcome<Provider>,
                 dataUrl: string -> Outcome<string>)
    ensures Fold(cs + [c], instantiate, dataUrl) == Step(Fold(cs, instantiate, dataUrl), c, instantiate, dataUrl)
  {
    assert (cs + [c])[..|cs|] == cs;
  }

  lemma CodesSnoc(cs: seq<ProviderConfig>, c: ProviderConfig, instantiate: ProviderConfig -> Outcome<Provider>,
                  dataUrl: string -> Outcome<string>)
    ensures Codes(cs + [c], instantiate, dataUrl) == Codes(cs, instantiate, dataUrl) + CodeOf(c, instantiate, dataUrl)
  {
    assert (cs + [c])[..|cs|] == cs;
  }

  /**
   * Continuing over configurations with positive orderHints: XWikiLogin is placed once, just
   * before the first active one's code, and the score is positive from then on.
   */
  lemma {:induction false} FoldPositive(lo: seq<ProviderConfig>, hi: seq<ProviderConfig>,
                                        instantiate: ProviderConfig -> Outcome<Provider>, dataUrl: string -> Outcome<string>)
    requires forall c :: c in lo ==> c.orderHint <= 0
    requires forall c :: c in hi ==> c.orderHint > 0
    requires Prepares(lo, instantiate, dataUrl) && Prepares(hi, instantiate, dataUrl)
    ensures Fold(lo + hi, instantiate, dataUrl).codes == Placed(Codes(lo, instantiate, dataUrl), Codes(hi, instantiate, dataUrl))
    ensures Fold(lo + hi, instantiate, dataUrl).lastScore <= 0 <==> Codes(hi, instantiate, dataUrl) == []
    decreases |hi|
  {
    if hi == [] {
      assert lo + hi == lo;
      FoldNonPositive(lo, instantiate, dataUrl);
      assert Codes(lo, instantiate, dataUrl) + [] == Codes(lo, instantiate, dataUrl);
    } else {
      var n := |hi| - 1;
      var init, c := hi[..n], hi[n];
      assert hi == init + [c];
      assert lo + hi == (lo + init) + [c];
      assert c in hi;
      FoldPositive(lo, init, instantiate, dataUrl);
      FoldSnoc(lo + init, c, instantiate, dataUrl);
      CodesSnoc(init, c, instantiate, dataUrl);
      var reg := Fold(lo + init, instantiate, dataUrl);
      StepCodes(reg, c, instantiate, dataUrl);
      PlacedSnoc(Codes(lo, instantiate, dataUrl), Codes(init, instantiate, dataUrl), CodeOf(c, instantiate, dataUrl));
    }
  }

  /**
   * The placement of XWikiLogin: with the configurations in orderHint order and every active
   * one's code prepared, the login codes are those of the non-positive orderHints, then
   * XWikiLogin exactly once, then those of the positive orderHints.
   */
  lemma XWikiLoginPlacement(lo: seq<ProviderConfig>, hi: seq<ProviderConfig>,
                            instantiate: ProviderConfig -> Outcome<Provider>, dataUrl: string -> Outcome<string>)
    requires forall c :: c in lo ==> c.orderHint <= 0
    requires forall c :: c in hi ==> c.orderHint > 0
    requires Prepares(lo + hi, instantiate, dataUrl)
    ensures Finish(Fold(lo + hi, instantiate, dataUrl)).codes ==
      Codes(lo, instantiate, dataUrl) + [XWikiLogin] + Codes(hi, instantiate, dataUrl)
  {
    FoldPositive(lo, hi, instantiate, dataUrl);
    PlacedFinish(Codes(lo, instantiate, dataUrl), Codes(hi, instantiate, dataUrl));
  }

  /** What Finish adds completes the placement. */
  lemma PlacedFinish(low: seq<string>, high: seq<string>)
    ensures (if high == [] then Placed(low, high) + [XWikiLogin] else Placed(low, high)) == low + [XWikiLogin] + high
  {
    if high == [] {
      assert low + [] + [XWikiLogin] == low + [XWikiLogin] + [];
    } else {
      assert low + ([XWikiLogin] + high) == low + [XWikiLogin] + high;
    }
  }

  /** A list in orderHint order splits into its non-positive and its positive orderHints. */
  lemma SortedSplits(cs: seq<ProviderConfig>) returns (k: nat)
    requires SortedByHint(cs)
    ensures k <= |cs|
    ensures forall c :: c in cs[..k] ==> c.orderHint <= 0
    ensures forall c :: c in cs[k..] ==> c.orderHint > 0
  {
    k := 0;
    while k < |cs| && cs[k].orderHint <= 0
      invariant k <= |cs|
      invariant forall i :: 0 <= i < k ==> cs[i].orderHint <= 0
    {
      k := k + 1;
    }
    forall c | c in cs[k..] ensures c.orderHint > 0 {
      var j :| 0 <= j < |cs[k..]| && cs[k..][j] == c;
      assert cs[k] == cs[k..][0];
    }
  }

  /**
   * When an active provider with a positive orderHint fails to prepare its code after
   * XWikiLogin was placed for it, the score stays non-positive and the next one places
   * XWikiLogin again.
   */
  lemma PlacedAgainAfterFailure(reg: Registry, c1: ProviderConfig, c2: ProviderConfig,
                                instantiate: ProviderConfig -> Outcome<Provider>, dataUrl: string -> Outcome<string>)
    requires reg.lastScore <= 0 && c1.orderHint > 0 && c2.orderHint > 0
    requires Active(c1, instantiate) && Active(c2, instantiate)
    requires PrepareLoginCode(c1.loginCode, c1.name, dataUrl).Fail?
    requires PrepareLoginCode(c2.loginCode, c2.name, dataUrl).Ok?
    ensures Step(Step(reg, c1, instantiate, dataUrl), c2, instantiate, dataUrl).codes ==
      reg.codes + [XWikiLogin, XWikiLogin, PrepareLoginCode(c2.loginCode, c2.name, dataUrl).value]
  {
    assert reg.codes + [XWikiLogin] + [XWikiLogin] + [PrepareLoginCode(c2.loginCode, c2.name, dataUrl).value] ==
      reg.codes + [XWikiLogin, XWikiLogin, PrepareLoginCode(c2.loginCode, c2.name, dataUrl).value];
  }

  /** renderLoginCodes for one entry: XWikiLogin passes, a failed conversion is marked broken. */
  function Render(code: string, syntax: Syntax, convert: (string, Syntax) -> Option<string>): (r: string)
    ensures code == XWikiLogin ==> r == XWikiLogin
    ensures code != XWikiLogin && convert(code, syntax).None? ==> r == BrokenRendering
  {
    if code == XWikiLogin then code
    else match convert(code, syntax)
      case Some(x) => x
      case None => BrokenRendering
  }

  /** What a start request carries: the provider parameter, the browser's location and an explicit xredirect. */
  datatype StartRequest = StartRequest(provider: Option<string>, browserLocation: Option<string>, xredirect: Option<string>)

  /** A parsed URL, as far as the same-origin check looks at it. */
  datatype Url = Url(protocol: string, host: string, port: int)

  /** java.net.URL: parsing a location, and resolving a reference against a parsed base. */
  datatype UrlParser = UrlParser(parse: string -> Outcome<Url>, resolve: (Url, string) -> Outcome<Url>)

  /** A token and its expiry date as createToken answers them. */
  datatype Token = Token(value: Option<string>, expiry: Option<int>)

  /**
   * The provider's remote operations: the authorization URL for a return location, reading the
   * authorization code from the return request, exchanging it for a token, and fetching the
   * identity and reconciling it with a wiki user (which answers the user's name).
   */
  datatype Remote = Remote(
    authorizationUrl: (Provider, Option<string>) -> Outcome<string>,
    readAuthorization: Provider -> Outcome<Option<string>>,
    createToken: (Provider, Option<string>) -> Outcome<Token>,
    reconcile: (Provider, Option<string>) -> Outcome<string>)

  /** The redirect remembered for after the flow: the explicit one, else the location with the literal replaced. */
  function DefaultXredirect(req: StartRequest): Option<string> {
    if req.xredirect.Some? then req.xredirect
    else if req.browserLocation.Some? then Some(ReplaceAll(req.browserLocation.value, LoginPathPattern, "/"))
    else None
  }

  /** Both URLs parse and the resolved xredirect has the location's protocol, host and port. */
  predicate SameOrigin(urls: UrlParser, location: string, xredirect: string) {
    var base := urls.parse(location);
    base.Ok? && urls.resolve(base.value, xredirect).Ok?
    && var x := urls.resolve(base.value, xredirect).value;
    x.protocol == base.value.protocol && x.host == base.value.host && x.port == base.value.port
  }

  /** The start succeeds once the location and the xredirect parse. */
  predicate Parses(urls: UrlParser, location: string, xredirect: string) {
    urls.parse(location).Ok? && urls.resolve(urls.parse(location).value, xredirect).Ok?
  }

  class Manager {
    var state: LifeCycle
    var providers: map<string, Provider>
    var loginCodes: seq<string>
    var loginSyntaxes: seq<Syntax>
    /** Whether the wiki's authentication service is this extension's. */
    var authServiceInstalled: bool
    const objects: XWikiObjects

    /** The login codes and their syntaxes are parallel lists. */
    ghost predicate Valid()
      reads this
    {
      |loginCodes| == |loginSyntaxes|
    }

    ghost predicate Holds(reg: Registry)
      reads this
    {
      providers == reg.providers && loginCodes == reg.codes && loginSyntaxes == reg.syntaxes
    }

    constructor (objects: XWikiObjects)
      ensures Valid() && state == Constructed && this.objects == objects && !authServiceInstalled
      ensures providers == map[] && loginCodes == [] && loginSyntaxes == []
    {
      state := Constructed;
      providers, loginCodes, loginSyntaxes := map[], [], [];
      authServiceInstalled := false;
      this.objects := objects;
    }

    method Initialize()
      modifies this
      ensures state == Initialized
      ensures providers == old(providers) && loginCodes == old(loginCodes) && loginSyntaxes == old(loginSyntaxes)
      ensures authServiceInstalled == old(authServiceInstalled)
    {
      state := Initialized;
    }

    /**
     * rebuildProviders. A failure to load leaves the registry as it was; otherwise the registry
     * is rebuilt from the loaded configurations.
     */
    method RebuildProviders(env: Env) returns (r: Outcome<()>)
      requires Valid()
      modifies this, objects
      ensures Valid()
      ensures var loaded := LoadAll(env.wiki, env.wiki.providerPages, None);
        (loaded.Fail? ==>
           r == Fail(loaded.error) && providers == old(providers)
           && loginCodes == old(loginCodes) && loginSyntaxes == old(loginSyntaxes))
        && (loaded.Ok? ==>
              r == Ok(()) && Holds(Rebuilt(loaded.value, env.instantiate, DataUrls(env.wiki))))
      ensures state == old(state) && authServiceInstalled == old(authServiceInstalled)
    {
      var loaded := objects.LoadProviderConfigs(env.wiki);
      if loaded.Fail? {
        return Fail(loaded.error);
      }
      DataUrlsSafe(env.wiki);
      RebuildFrom(SortByHint(loaded.value), env.instantiate, DataUrls(env.wiki));
      return Ok(());
    }

    /** The registry is emptied and refilled from the sorted configurations. */
    method RebuildFrom(sorted: seq<ProviderConfig>, instantiate: ProviderConfig -> Outcome<Provider>,
                       dataUrl: string -> Outcome<string>)
      requires SafeLookups(dataUrl)
      modifies this
      ensures Valid() && Holds(Finish(Fold(sorted, instantiate, dataUrl)))
      ensures state == old(state) && authServiceInstalled == old(authServiceInstalled)
    {
      var lastScore := AddProviders(sorted, instantiate, dataUrl);
      if lastScore <= 0 {
        loginCodes := loginCodes + [XWikiLogin];
        loginSyntaxes := loginSyntaxes + [XWiki21];
      }
      FoldLengths(sorted, instantiate, dataUrl);
    }

    /** The rebuild loop: from an empty registry, each configuration in turn; the loop's final score is returned. */
    method AddProviders(sorted: seq<ProviderConfig>, instantiate: ProviderConfig -> Outcome<Provider>,
                        dataUrl: string -> Outcome<string>) returns (lastScore: int)
      requires SafeLookups(dataUrl)
      modifies this
      ensures Fold(sorted, instantiate, dataUrl) == Registry(providers, loginCodes, loginSyntaxes, lastScore)
      ensures state == old(state) && authServiceInstalled == old(authServiceInstalled)
    {
      lastScore := MinInt32;
      loginCodes, loginSyntaxes, providers := [], [], map[];
      var i := 0;
      while i < |sorted|
        invariant 0 <= i <= |sorted|
        invariant Fold(sorted[..i], instantiate, dataUrl) == Registry(providers, loginCodes, loginSyntaxes, lastScore)
        invariant state == old(state) && authServiceInstalled == old(authServiceInstalled)
      {
        assert sorted[..i + 1] == sorted[..i] + [sorted[i]];
        FoldSnoc(sorted[..i], sorted[i], instantiate, dataUrl);
        lastScore := AddProvider(sorted[i], instantiate, dataUrl, lastScore);
        i := i + 1;
      }
      assert sorted[..|sorted|] == sorted;
    }

    /** The body of the rebuild loop for one configuration; the score is the loop's `lastScore`. */
    method AddProvider(config: ProviderConfig, instantiate: ProviderConfig -> Outcome<Provider>,
                       dataUrl: string -> Outcome<string>, lastScore: int) returns (score: int)
      requires SafeLookups(dataUrl)
      modifies this
      ensures Registry(providers, loginCodes, loginSyntaxes, score) ==
        Step(Registry(old(providers), old(loginCodes), old(loginSyntaxes), lastScore), config, instantiate, dataUrl)
      ensures state == old(state) && authServiceInstalled == old(authServiceInstalled)
    {
      score := lastScore;
      var pr := instantiate(config);
      if pr.Fail? {
        return;
      }
      providers := providers[config.name := pr.value];
      if !pr.value.active {
        return;
      }
      if config.orderHint > 0 && lastScore <= 0 {
        loginCodes := loginCodes + [XWikiLogin];
        loginSyntaxes := loginSyntaxes + [XWiki21];
      }
      var expanded := ExpandImageMarkers(config.loginCode, dataUrl);
      if expanded.Ok? {
        var prepared := RegexReplaceAll(expanded.value, ProviderPlaceholder, config.name);
        if prepared.Ok? {
          loginCodes := loginCodes + [prepared.value];
          loginSyntaxes := loginSyntaxes + [config.syntax];
          score := config.orderHint;
        }
      }
    }

    /** tryInittingAuthService: installs the service when an XWiki instance is reachable. */
    method TryInittingAuthService(env: Env)
      modifies this
      ensures authServiceInstalled == (old(authServiceInstalled) || env.hasXWiki)
      ensures state == old(state) && providers == old(providers)
      ensures loginCodes == old(loginCodes) && loginSyntaxes == old(loginSyntaxes)
    {
      if env.hasXWiki {
        authServiceInstalled := true;
      }
    }

    /**
     * startIfNeedBe: nothing to do when running; only an initialized manager may start. Starting
     * goes through STARTING and ends RUNNING, or back in INITIALIZED when rebuilding failed; the
     * failure itself is swallowed.
     */
    method StartIfNeedBe(env: Env) returns (r: Outcome<()>)
      requires Valid()
      modifies this, objects
      ensures Valid()
      ensures old(state) == Running ==> r == Ok(()) && unchanged(this)
      ensures old(state) != Running && old(state) != Initialized ==>
        r == Fail(IllegalLifeCycle) && unchanged(this) && unchanged(objects)
      ensures old(state) == Initialized ==> r == Ok(())
      ensures old(state) == Initialized ==>
        var loaded := LoadAll(env.wiki, env.wiki.providerPages, None);
        (loaded.Fail? ==>
           state == Initialized && providers == old(providers) && loginCodes == old(loginCodes)
           && loginSyntaxes == old(loginSyntaxes) && authServiceInstalled == old(authServiceInstalled))
        && (loaded.Ok? ==>
              state == Running && Holds(Rebuilt(loaded.value, env.instantiate, DataUrls(env.wiki)))
              && authServiceInstalled == (old(authServiceInstalled) || env.hasXWiki))
    {
      if state == Running {
        return Ok(());
      }
      if state != Initialized {
        return Fail(IllegalLifeCycle);
      }
      state := Starting;
      var rebuilt := RebuildProviders(env);
      var failed := rebuilt.Fail?;
      if !failed {
        TryInittingAuthService(env);
        state := Running;
      } else {
        state := Initialized;
      }
      return Ok(());
    }

    /**
     * reloadConfig: start if need be, then rebuild once more; a load failure now reaches the
     * caller and leaves the life-cycle state and the registry as they were.
     */
    method ReloadConfig(env: Env) returns (r: Outcome<()>)
      requires Valid()
      modifies this, objects
      ensures Valid()
      ensures old(state) != Running && old(state) != Initialized ==> r == Fail(IllegalLifeCycle) && unchanged(this)
      ensures old(state) == Running || old(state) == Initialized ==>
        var loaded := LoadAll(env.wiki, env.wiki.providerPages, None);
        (r.Fail? <==> loaded.Fail?)
        && (loaded.Ok? ==> state == Running && Holds(Rebuilt(loaded.value, env.instantiate, DataUrls(env.wiki))))
        && (loaded.Fail? ==> state == old(state) && providers == old(providers)
                             && loginCodes == old(loginCodes) && loginSyntaxes == old(loginSyntaxes))
    {
      r := StartIfNeedBe(env);
      if r.Fail? {
        return;
      }
      r := RebuildProviders(env);
    }

    /** dispose: through STOPPING to STOPPED, uninstalling the service when an XWiki instance is reachable. */
    method Dispose(env: Env)
      modifies this
      ensures state == Stopped
      ensures authServiceInstalled == (old(authServiceInstalled) && !env.hasXWiki)
      ensures providers == old(providers) && loginCodes == old(loginCodes) && loginSyntaxes == old(loginSyntaxes)
    {
      state := Stopping;
      if env.hasXWiki {
        authServiceInstalled := false;
      }
      state := Stopped;
    }

    /** After dispose, starting is refused, so reloading the configuration fails. */
    method DisposeThenReload(env: Env) returns (r: Outcome<()>)
      requires Valid()
      modifies this, objects
      ensures r == Fail(IllegalLifeCycle) && state == Stopped
    {
      Dispose(env);
      r := ReloadConfig(env);
    }

    /**
     * renderLoginCodes: after starting, one rendered entry per login code; XWikiLogin passes
     * unchanged and a conversion failure gives "BROKEN RENDERING".
     */
    method RenderLoginCodes(env: Env, convert: (string, Syntax) -> Option<string>) returns (r: Outcome<seq<string>>)
      requires Valid()
      modifies this, objects
      ensures Valid()
      ensures r.Fail? <==> old(state) != Running && old(state) != Initialized
      ensures r.Ok? ==> |r.value| == |loginCodes|
      ensures r.Ok? ==> forall i :: 0 <= i < |loginCodes| ==> r.value[i] == Render(loginCodes[i], loginSyntaxes[i], convert)
    {
      var started := StartIfNeedBe(env);
      if started.Fail? {
        return Fail(started.error);
      }
      var rendered: seq<string> := [];
      for i := 0 to |loginCodes|
        invariant |rendered| == i
        invariant forall j :: 0 <= j < i ==> rendered[j] == Render(loginCodes[j], loginSyntaxes[j], convert)
      {
        var loginCode := loginCodes[i];
        if loginCode == XWikiLogin {
          rendered := rendered + [loginCode];
        } else {
          var printed := convert(loginCode, loginSyntaxes[i]);
          if printed.Some? {
            rendered := rendered + [printed.value];
          } else {
            rendered := rendered + [BrokenRendering];
          }
        }
      }
      return Ok(rendered);
    }

    /** clearAllSessionInfos: clear(p) for every registered provider. */
    method ClearAllSessionInfos(si: SessionInfo)
      modifies si
      ensures si.tokens == old(si.tokens) - providers.Keys && si.codes == old(si.codes) - providers.Keys
      ensures si.xredirect == if providers == map[] then old(si.xredirect) else None
      ensures si.running == old(si.running) && si.userToLogIn == old(si.userToLogIn) && si.expiries == old(si.expiries)
    {
      var pending := providers.Keys;
      while pending != {}
        invariant pending <= providers.Keys
        invariant si.tokens == old(si.tokens) - (providers.Keys - pending)
        invariant si.codes == old(si.codes) - (providers.Keys - pending)
        invariant si.xredirect == if pending == providers.Keys then old(si.xredirect) else None
        invariant si.running == old(si.running) && si.userToLogIn == old(si.userToLogIn) && si.expiries == old(si.expiries)
        decreases |pending|
      {
        var p :| p in pending;
        var _ := si.Clear(Some(p));
        pending := pending - {p};
      }
    }

    /** getActiveProvider: a registered, active provider; readiness is not checked here. */
    function GetActiveProvider(hint: Option<string>): (r: Outcome<Provider>)
      reads this
      ensures r.Ok? <==> hint.Some? && hint.value in providers && providers[hint.value].active
      ensures r.Ok? ==> r.value == providers[hint.value]
      ensures hint.None? || hint.value !in providers ==> r == Fail(ProviderNotFound)
    {
      if hint.None? || hint.value !in providers then Fail(ProviderNotFound)
      else if !providers[hint.value].active then Fail(ProviderInactive)
      else Ok(providers[hint.value])
    }

    /**
     * processOAuthStart. An unknown or inactive provider, or a failing authorization URL, answers
     * false with the session untouched. Otherwise the provider's entries are cleared, the flow is
     * marked running and, if the remembered redirect has the location's origin, it is stored;
     * the browser is then sent to the authorization URL. A missing location fails after the
     * clearing, and after marking the flow when an explicit xredirect was given.
     */
    method ProcessOAuthStart(req: StartRequest, si: SessionInfo, urls: UrlParser, remote: Remote)
      returns (ok: bool, redirect: Option<string>)
      modifies si
      ensures var p := GetActiveProvider(req.provider);
        p.Fail? || remote.authorizationUrl(p.value, req.browserLocation).Fail? ==>
          !ok && redirect.None? && unchanged(si)
      ensures var p := GetActiveProvider(req.provider);
        p.Ok? && remote.authorizationUrl(p.value, req.browserLocation).Ok? ==>
          var hint := req.provider.value;
          var x := DefaultXredirect(req);
          si.tokens == old(si.tokens) - {hint} && si.codes == old(si.codes) - {hint}
          && si.userToLogIn == old(si.userToLogIn) && si.expiries == old(si.expiries)
          && si.running == (if x.None? then old(si.running) else Some(hint))
          && (ok <==> req.browserLocation.Some? && x.Some? && Parses(urls, req.browserLocation.value, x.value))
          && (ok ==> redirect == Some(remote.authorizationUrl(p.value, req.browserLocation).value))
          && (!ok ==> redirect.None?)
          && si.xredirect == (if ok && SameOrigin(urls, req.browserLocation.value, x.value) then x else None)
    {
      var provider := GetActiveProvider(req.provider);
      if provider.Fail? {
        return false, None;
      }
      var providerHint := req.provider.value;
      var oauthBackPage := req.browserLocation;
      var redirectUrl := remote.authorizationUrl(provider.value, oauthBackPage);
      if redirectUrl.Fail? {
        return false, None;
      }
      var _ := si.Clear(Some(providerHint));
      var xredirect := req.xredirect;
      if xredirect.None? {
        if oauthBackPage.None? {
          // replace on a null location
          return false, None;
        }
        xredirect := Some(ReplaceAll(oauthBackPage.value, LoginPathPattern, "/"));
      }
      si.SetRunning(Some(providerHint));
      if oauthBackPage.None? {
        // new URL(null)
        return false, None;
      }
      var backPage := urls.parse(oauthBackPage.value);
      if backPage.Fail? {
        return false, None;
      }
      var resolved := urls.resolve(backPage.value, xredirect.value);
      if resolved.Fail? {
        return false, None;
      }
      if resolved.value.protocol == backPage.value.protocol && resolved.value.host == backPage.value.host
         && resolved.value.port == backPage.value.port
      {
        si.SetXredirect(xredirect);
      }
      return true, Some(redirectUrl.value);
    }

    /** doesDetectReturn: a flow is marked running. */
    method DoesDetectReturn(si: SessionInfo) returns (b: bool)
      ensures b <==> si.running.Some?
    {
      b := si.Running() != None;
    }

    /**
     * processOAuthReturn. The running mark is taken and cleared before anything can fail, so a
     * return is processed at most once. On success the code, token and expiry are stored for the
     * provider, the reconciled user is pending login and the stored redirect is consumed and
     * sent; any failure answers "failed login" and keeps what was stored up to that point.
     */
    method ProcessOAuthReturn(si: SessionInfo, remote: Remote) returns (result: string, redirect: Option<Option<string>>)
      modifies si
      ensures result == LoginOk || result == FailedLogin
      ensures si.running.None?
      ensures var p := GetActiveProvider(old(si.running));
        p.Fail? || remote.readAuthorization(p.value).Fail?
        || remote.createToken(p.value, remote.readAuthorization(p.value).value).Fail? ==>
          result == FailedLogin && redirect.None? && si.codes == old(si.codes) && si.tokens == old(si.tokens)
          && si.expiries == old(si.expiries) && si.userToLogIn == old(si.userToLogIn) && si.xredirect == old(si.xredirect)
      ensures var p := GetActiveProvider(old(si.running));
        p.Ok? && remote.readAuthorization(p.value).Ok?
        && remote.createToken(p.value, remote.readAuthorization(p.value).value).Ok? ==>
          var hint := old(si.running).value;
          var code := remote.readAuthorization(p.value).value;
          var token := remote.createToken(p.value, code).value;
          var user := remote.reconcile(p.value, token.value);
          si.codes == old(si.codes)[hint := code] && si.tokens == old(si.tokens)[hint := token.value]
          && si.expiries == old(si.expiries)[hint := token.expiry]
          && (user.Fail? ==>
                result == FailedLogin && redirect.None?
                && si.userToLogIn == old(si.userToLogIn) && si.xredirect == old(si.xredirect))
          && (user.Ok? ==>
                result == LoginOk && redirect == Some(old(si.xredirect))
                && si.userToLogIn == Some(user.value) && si.xredirect.None?)
    {
      var providerHint := si.Running();
      si.SetRunning(None);
      var provider := GetActiveProvider(providerHint);
      if provider.Fail? {
        return FailedLogin, None;
      }
      var authorization := remote.readAuthorization(provider.value);
      if authorization.Fail? {
        return FailedLogin, None;
      }
      var token := remote.createToken(provider.value, authorization.value);
      if token.Fail? {
        return FailedLogin, None;
      }
      si.SetAuthorizationCode(providerHint.value, authorization.value);
      si.SetToken(providerHint.value, token.value.value);
      si.SetTokenExpiry(providerHint.value, token.value.expiry);
      var xwikiUser := remote.reconcile(provider.value, token.value.value);
      if xwikiUser.Fail? {
        return FailedLogin, None;
      }
      si.SetUserToLogIn(Some(xwikiUser.value));
      var x := si.PickXredirect();
      return LoginOk, Some(x);
    }

    /** A second return without a new start fails: the running mark was consumed by the first. */
    method ReplayedReturn(si: SessionInfo, remote: Remote) returns (first: string, second: string)
      modifies si
      ensures second == FailedLogin
    {
      var sent;
      first, sent := ProcessOAuthReturn(si, remote);
      second, sent := ProcessOAuthReturn(si, remote);
    }

    /** hasSessionIdentityInfo: for an active provider, whether a non-null authorization code is stored. */
    function HasSessionIdentityInfo(hint: Option<string>, si: SessionInfo): (r: Outcome<bool>)
      reads this, si
      ensures r.Ok? <==> GetActiveProvider(hint).Ok?
      ensures r.Ok? ==> (r.value <==> hint.value in si.codes && si.codes[hint.value].Some?)
    {
      var p := GetActiveProvider(hint);
      if p.Fail? then Fail(p.error) else Ok(si.AuthorizationCode(hint.value) != None)
    }

    /**
     * requestCurrentToken: the provider to ask for a fresh token and the stored code it is asked
     * with; nothing for an unregistered provider, active or not being irrelevant.
     */
    function RequestCurrentToken(hint: string, si: SessionInfo): (call: Option<(Provider, Option<string>)>)
      reads this, si
      ensures call.None? <==> hint !in providers
      ensures call.Some? ==> call.value.0 == providers[hint] && call.value.1 == si.AuthorizationCode(hint)
    {
      if hint !in providers then None else Some((providers[hint], si.AuthorizationCode(hint)))
    }
  }

  /** The rebuilt registry's lists have the same length, whatever was loaded. */
  lemma RebuiltValid(cs: seq<ProviderConfig>, instantiate: ProviderConfig -> Outcome<Provider>,
                     dataUrl: string -> Outcome<string>)
    ensures |Rebuilt(cs, instantiate, dataUrl).codes| == |Rebuilt(cs, instantiate, dataUrl).syntaxes|
  {
    FoldLengths(SortByHint(cs), instantiate, dataUrl);
  }

  /**
   * After a rebuild, XWikiLogin sits between the non-positive and the positive orderHints of
   * the sorted configurations, provided every active one's login code could be prepared.
   */
  lemma RebuiltPlacesXWikiLogin(cs: seq<ProviderConfig>, instantiate: ProviderConfig -> Outcome<Provider>,
                                dataUrl: string -> Outcome<string>) returns (k: nat)
    requires Prepares(SortByHint(cs), instantiate, dataUrl)
    ensures k <= |cs| == |SortByHint(cs)|
    ensures forall c :: c in SortByHint(cs)[..k] ==> c.orderHint <= 0
    ensures forall c :: c in SortByHint(cs)[k..] ==> c.orderHint > 0
    ensures Rebuilt(cs, instantiate, dataUrl).codes ==
      Codes(SortByHint(cs)[..k], instantiate, dataUrl) + [XWikiLogin] + Codes(SortByHint(cs)[k..], instantiate, dataUrl)
  {
    var s := SortByHint(cs);
    SortSortedPermutation(cs);
    assert |s| == |cs| by {
      assert |multiset(s)| == |multiset(cs)|;
    }
    k := SortedSplits(s);
    assert s[..k] + s[k..] == s;
    XWikiLoginPlacement(s[..k], s[k..], instantiate, dataUrl);
  }
}

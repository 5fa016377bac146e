# Identity OAuth for XWiki: a verified model of the login orchestration

The identity-OAuth extension lets an XWiki instance sign users in through external OAuth /
OpenID Connect providers. This project models the orchestration core in Dafny.

- **Provider registry.** Provider configuration pages are loaded and sorted by `orderHint`.
  Each one becomes a provider instance with a prepared login code. Image markers are replaced
  by data URLs and `-PROVIDER-` by the provider name. The built-in `XWikiLogin` entry is
  placed between the non-positive and the positive hints.
- **Manager life cycle.** The manager goes constructed → initialized → starting → running,
  then stopping → stopped. It installs the authentication service once an XWiki instance is
  reachable.
- **Login flow.** An OAuth start remembers the provider and the page to come back to. The
  return is processed at most once. It stores the authorization code, the token and its
  expiry in the per-session state, then reconciles the remote identity with a wiki user.
- **User reconciliation.** Two revisions are modelled: the older one (identity object on the
  user page, lookup by external id then by first email) and the newer one (OIDC user store,
  lookup by subject then by each email in turn). A new user gets a page named from the local
  part of the e-mail. A known user has its base fields, binding and avatar brought up to
  date, with Java's short-circuit `changed || …` preserved.
- **Authentication service.**
  - `checkAuth` handles the logout page.
  - `authenticate` logs in the pending user.
  - `showLogin` redirects to the external login page with a saved-request identifier.
  - The trusted-authentication cookie is encrypted, Base64-encoded (RFC 4648 section 4) and
    `=`-substituted.
- **Event listener.** Start-up, a new provider component, or an update or deletion of a
  configuration page triggers one configuration reload.

Both revisions of the manager are kept. `Manager` is the older `DefaultIdentityOAuthManager`
with its object store `XWikiObjects`. `ManagerUtils` and `ConfigTools` hold the newer split
into utility, loader and initiator components, and `ConfigTools` also holds the shared
configuration tools. Java `null` is `Option`. Exceptions are `Outcome` failures with the
error the code raises. Calls into XWiki, the servlet container and the providers' remote
endpoints are function-valued parameters or values carried in `Env`, `Services`, `Remote`
and `UrlParser`.

Behaviour worth knowing, modelled as the code has it:

- `decryptText` fails open. When decryption fails, the cookie value is returned as it was
  read, not rejected (`Cookies.DecryptFailsOpen`), although a fail-closed check is what a
  trusted-authentication cookie evidently calls for.
- The newer `checkIfProviderIsActive` checks presence, then activity, then readiness, in
  that order. The newer `processOAuthReturn` checks the provider before it clears the running
  mark; the older revision clears the mark first.
- The provider name goes into the login code through `replaceAll`, so it is read as a
  replacement string. A name holding `$` or `\` is rewritten, or raises; the raise skips that
  provider's login code (`LoginCode.NamesAsReplacements`).

## Model

| member | source | states |
|---|---|---|
| Providers.DefaultProvider.constructor | api/src/main/java/com/xwiki/identityoauth/internal/DefaultIdentityOAuthProvider.java:60-60 | a new default provider is inactive |
| Providers.DefaultProvider.Initialize | api/src/main/java/com/xwiki/identityoauth/internal/DefaultIdentityOAuthProvider.java:63-67 | the active flag is parsed from the configuration's `active` entry; a missing entry fails with a null value and leaves the flag unchanged |
| Providers.DefaultProvider.SetProviderHint | api/src/main/java/com/xwiki/identityoauth/internal/DefaultIdentityOAuthProvider.java:88-93 | succeeds exactly for the default hint; any other hint raises an illegal-hint error |
| Providers.DefaultInstance | api/src/main/java/com/xwiki/identityoauth/internal/DefaultIdentityOAuthProvider.java:63-99 | instantiating the default component succeeds iff the configuration names the default hint and carries `active`; the instance is then ready and reports that hint |
| Providers.RegisterDefault | api/src/main/java/com/xwiki/identityoauth/internal/DefaultIdentityOAuthProvider.java:63-93 | the imperative registration yields the same instance as `DefaultInstance`, and the object's active flag agrees with it |
| Ordering.SortSortedPermutation | api/src/main/java/com/xwiki/identityoauth/internal/DefaultIdentityOAuthManager.java:203-210 | the configurations are sorted by ascending `orderHint` and form a permutation of those loaded; the copy at IdentityOAuthConfigTools.java:256-263 is the same |
| Ordering.SortStable | api/src/main/java/com/xwiki/identityoauth/internal/DefaultIdentityOAuthManager.java:203-210 | the sort is stable: configurations with equal hints keep their load order; the copy at IdentityOAuthConfigTools.java:256-263 is the same |
| Base64.DecodeEncode | api/src/main/java/com/xwiki/identityoauth/internal/CookieAuthenticationPersistence.java:246-276 | decoding the Base64 text of any byte string gives the bytes back |
| Base64.DecodeEncodeChunked | api/src/main/java/com/xwiki/identityoauth/internal/IdentityOAuthConfigTools.java:208-229 | the chunked encoding with its trailing CRLF used for data URLs decodes to the original bytes |
| Base64.EncodeAvoids | api/src/main/java/com/xwiki/identityoauth/internal/CookieAuthenticationPersistence.java:246-258 | Base64 text contains no character outside its alphabet and padding, so no `_` |
| Text.ReplaceCharRoundTrip | api/src/main/java/com/xwiki/identityoauth/internal/CookieAuthenticationPersistence.java:246-276 | replacing one character by another absent one, then back, restores the text |
| LoginCode.ExpandImageMarkers | api/src/main/java/com/xwiki/identityoauth/internal/DefaultIdentityOAuthManager.java:232-241 | the cursor loop over `--image-base64--NAME--` markers computes `ExpandImages`: each marker is replaced by NAME's data URL, an unclosed marker fails, and a failed lookup fails with its error; the copy at IdentityOAuthConfigTools.java:274-283 is the same |
| LoginCode.RewriteExpandsImages | api/src/main/java/com/xwiki/identityoauth/internal/DefaultIdentityOAuthManager.java:232-241 | when every data URL is safe to splice in, the rewrite-in-place loop, whose next search starts one past the start of the URL just inserted (inside it), yields exactly the marker-by-marker expansion of the original code |
| LoginCode.ExpandImagesIdentity | api/src/main/java/com/xwiki/identityoauth/internal/DefaultIdentityOAuthManager.java:232-241 | a code without a marker is left unchanged, and only a code with a marker can fail |
| LoginCode.PrepareLoginCode | api/src/main/java/com/xwiki/identityoauth/internal/DefaultIdentityOAuthManager.java:232-242 | preparing fails only through a marker or through a provider name that is not a valid `replaceAll` replacement string; without a marker it is `replaceAll("-PROVIDER-", name)` with Java's replacement rules, which for a name free of `\` and `$` is the literal replacement of every placeholder; the copy at IdentityOAuthConfigTools.java:274-284 is the same |
| LoginCode.PreparedBetweenBrackets | api/src/main/java/com/xwiki/identityoauth/internal/DefaultIdentityOAuthManager.java:242-242 | a code holding the placeholder once gets the name's replacement text in its place, or the replacement string's exception |
| LoginCode.NamesAsReplacements | api/src/main/java/com/xwiki/identityoauth/internal/DefaultIdentityOAuthManager.java:242-242 | a provider named `x$0` puts the placeholder back, `a\b` loses its backslash, `a$1` raises IndexOutOfBounds, `a$` raises IllegalArgument, and a code without the placeholder never reads the name |
| Text.RegexReplaceAll | api/src/main/java/com/xwiki/identityoauth/internal/DefaultIdentityOAuthManager.java:242-242 | `String.replaceAll` with a metacharacter-free pattern: a text without the pattern comes back unchanged whatever the replacement; with it, the call fails exactly when the replacement string is invalid; the copy at IdentityOAuthConfigTools.java:284 is the same |
| Text.RegexReplaceAllPlain | api/src/main/java/com/xwiki/identityoauth/internal/DefaultIdentityOAuthManager.java:242-242 | with a replacement free of `\` and `$`, `replaceAll` is the literal `replace` |
| Text.ReplacementPlain | api/src/main/java/com/xwiki/identityoauth/internal/DefaultIdentityOAuthManager.java:242-242 | a replacement string free of `\` and `$` stands for itself |
| Text.ReplacementQuoted | api/src/main/java/com/xwiki/identityoauth/internal/DefaultIdentityOAuthManager.java:242-242 | any text escaped as `Matcher.quoteReplacement` does stands for itself, so quoting is the inverse of reading a replacement |
| Text.ReplacementExamples | api/src/main/java/com/xwiki/identityoauth/internal/DefaultIdentityOAuthManager.java:242-242 | `$0` stands for the matched text, `\c` for c, `$1` is a missing group and a trailing `$` is illegal |
| ConfigTools.CreateDataUrl | api/src/main/java/com/xwiki/identityoauth/internal/IdentityOAuthConfigTools.java:208-229 | fails iff reading the attachment fails; a missing attachment gives the "not found" text; a present one over 2 MiB gives the `file-size-is-too-large` text; any other gives a text starting with `data:` + media type + `;base64,` whose remainder Base64-decodes back to the attachment's content |
| ConfigTools.DataUrlSafe | api/src/main/java/com/xwiki/identityoauth/internal/IdentityOAuthConfigTools.java:208-229 | every data URL is non-empty, holds no `--` and does not end in `-`, so splicing it in cannot create or hide a marker |
| ConfigTools.LoginPageUrl | api/src/main/java/com/xwiki/identityoauth/internal/IdentityOAuthConfigTools.java:231-251 | the login page URL has no query; it fails exactly for a rooted path when the current URL has no `/` after position 8; an absolute http(s) URL is kept up to its query |
| ConfigTools.LoginPageRooted | api/src/main/java/com/xwiki/identityoauth/internal/IdentityOAuthConfigTools.java:236-241 | a rooted path is prefixed with the scheme and authority of the current URL |
| ConfigTools.ReadConfigurationMap | api/src/main/java/com/xwiki/identityoauth/internal/IdentityOAuthConfigTools.java:176-199 | the loop over every object's properties builds exactly `ConfigMap` of the flattened properties |
| ConfigTools.ConfigMapLast | api/src/main/java/com/xwiki/identityoauth/internal/IdentityOAuthConfigTools.java:176-199 | a key is in the map iff some property has that name, and the value is that of the last such property, with the redirect-URL rule applied |
| ConfigTools.RedirectUrlNotBlank | api/src/main/java/com/xwiki/identityoauth/internal/IdentityOAuthConfigTools.java:186-190 | with a login page known, the stored redirect URL is never blank |
| ConfigTools.CollectConfigs | api/src/main/java/com/xwiki/identityoauth/internal/IdentityOAuthConfigTools.java:139-174 | the loading loop computes `LoadAll` and records exactly the pages of the active configurations; a failure leaves the pages recorded so far |
| ConfigTools.LoadAllActive | api/src/main/java/com/xwiki/identityoauth/internal/IdentityOAuthConfigTools.java:139-174 | a successful load yields exactly the configurations of the pages whose object is active |
| ConfigTools.PagesOfActive | api/src/main/java/com/xwiki/identityoauth/internal/IdentityOAuthConfigTools.java:139-174 | the remembered configuration pages are exactly the active ones |
| ConfigTools.ConfigTools.LoadProviderConfigs | api/src/main/java/com/xwiki/identityoauth/internal/IdentityOAuthConfigTools.java:139-174 | the result is `LoadAll` with the login page URL; on success the remembered pages are those of the active configurations, none yet instantiated or prepared; on a failure they are those of the provider pages read up to and including the failing one |
| ConfigTools.ConfigTools.LoadAndRebuildProviders | api/src/main/java/com/xwiki/identityoauth/internal/IdentityOAuthConfigTools.java:253-290 | the loaded configurations are sorted and each is given its provider and prepared login code; a load failure is returned with the pages read up to it remembered |
| ConfigTools.PrepareAllKeeps | api/src/main/java/com/xwiki/identityoauth/internal/IdentityOAuthConfigTools.java:253-290 | after preparation the configurations are those loaded, in hint order, and nothing but the provider and prepared code changed |
| ConfigTools.ConfigTools.HasIOConfigObject | api/src/main/java/com/xwiki/identityoauth/internal/IdentityOAuthConfigTools.java:123-132 | a page counts as configuration iff it is one of the pages remembered at the last load, or it carries an identity-OAuth provider object, or it carries an identity-OAuth configuration object |
| XWikiObjects.XWikiObjects.LoadProviderConfigs | api/src/main/java/com/xwiki/identityoauth/internal/IdentityOAuthXWikiObjects.java:341-373 | the older loader computes `LoadAll` without a login page and records the active pages, or on a failure those read up to and including the failing page |
| XWikiObjects.ConfigMapVerbatim | api/src/main/java/com/xwiki/identityoauth/internal/IdentityOAuthXWikiObjects.java:375-392 | the older map reader never fails and keeps each key's last value verbatim |
| Manager.Manager.constructor | api/src/main/java/com/xwiki/identityoauth/internal/DefaultIdentityOAuthManager.java:110-114 | a new manager is constructed, with an empty registry and no service installed |
| Manager.Manager.Initialize | api/src/main/java/com/xwiki/identityoauth/internal/DefaultIdentityOAuthManager.java:110-114 | initialization moves to INITIALIZED and changes nothing else |
| Manager.Manager.RebuildProviders | api/src/main/java/com/xwiki/identityoauth/internal/DefaultIdentityOAuthManager.java:200-253 | a failed load leaves the registry; otherwise the registry is rebuilt from the sorted configurations |
| Manager.Manager.RebuildFrom | api/src/main/java/com/xwiki/identityoauth/internal/DefaultIdentityOAuthManager.java:212-252 | the loop empties the registry, folds every configuration into it, then appends `XWikiLogin` when no positive hint was placed |
| Manager.Manager.AddProviders | api/src/main/java/com/xwiki/identityoauth/internal/DefaultIdentityOAuthManager.java:211-247 | from an emptied registry, the loop over the sorted configurations leaves exactly the registry and final score of `Fold`, one `Step` per configuration in order |
| Manager.FoldProviders | api/src/main/java/com/xwiki/identityoauth/internal/DefaultIdentityOAuthManager.java:215-225 | every configuration that could be instantiated is registered under its name, active or not; of several with one name the last one wins |
| Manager.XWikiLoginPlacement | api/src/main/java/com/xwiki/identityoauth/internal/DefaultIdentityOAuthManager.java:227-252 | `XWikiLogin` sits exactly once between the non-positive and the positive hints' codes |
| Manager.RebuiltPlacesXWikiLogin | api/src/main/java/com/xwiki/identityoauth/internal/DefaultIdentityOAuthManager.java:200-253 | after sorting, the rebuilt login codes are the non-positive ones, `XWikiLogin`, then the positive ones |
| Manager.RebuiltValid | api/src/main/java/com/xwiki/identityoauth/internal/DefaultIdentityOAuthManager.java:212-252 | the login-code and syntax lists always have the same length |
| Manager.PlacedAgainAfterFailure | api/src/main/java/com/xwiki/identityoauth/internal/DefaultIdentityOAuthManager.java:227-244 | a positive-hint provider whose code fails to prepare leaves the score non-positive, so the next one places `XWikiLogin` again |
| Manager.Manager.TryInittingAuthService | api/src/main/java/com/xwiki/identityoauth/internal/DefaultIdentityOAuthManager.java:150-168 | the service is installed iff an XWiki instance is reachable; nothing else changes |
| Manager.Manager.StartIfNeedBe | api/src/main/java/com/xwiki/identityoauth/internal/DefaultIdentityOAuthManager.java:122-148 | running: no change; not initialized: an illegal-life-cycle error; initialized: rebuild, then RUNNING with the service installed, or back to INITIALIZED on a swallowed failure |
| Manager.Manager.ReloadConfig | api/src/main/java/com/xwiki/identityoauth/internal/DefaultIdentityOAuthManager.java:299-304 | start if need be, then rebuild again: a successful load leaves the manager RUNNING with the rebuilt registry; a load failure reaches the caller and leaves the life-cycle state and the registry as they were |
| Manager.Manager.Dispose | api/src/main/java/com/xwiki/identityoauth/internal/DefaultIdentityOAuthManager.java:175-186 | ends STOPPED, uninstalling the service when XWiki is reachable, the registry untouched |
| Manager.Manager.DisposeThenReload | api/src/main/java/com/xwiki/identityoauth/internal/DefaultIdentityOAuthManager.java:122-148 | after dispose a reload is refused with an illegal-life-cycle error |
| Manager.Render | api/src/main/java/com/xwiki/identityoauth/internal/DefaultIdentityOAuthManager.java:260-282 | `XWikiLogin` passes unrendered; a failed conversion becomes "BROKEN RENDERING" |
| Manager.Manager.RenderLoginCodes | api/src/main/java/com/xwiki/identityoauth/internal/DefaultIdentityOAuthManager.java:260-282 | fails iff the manager cannot start; otherwise one rendered entry per login code, in order |
| Manager.Manager.ClearAllSessionInfos | api/src/main/java/com/xwiki/identityoauth/internal/DefaultIdentityOAuthManager.java:289-294 | the tokens and codes of every registered provider are removed, and the redirect is dropped if any provider exists; the rest of the session state is unchanged |
| Manager.Manager.GetActiveProvider | api/src/main/java/com/xwiki/identityoauth/internal/DefaultIdentityOAuthManager.java:306-316 | succeeds iff the hint names a registered active provider, returning it; an unknown hint is "not found" |
| Manager.Manager.ProcessOAuthStart | api/src/main/java/com/xwiki/identityoauth/internal/DefaultIdentityOAuthManager.java:327-365 | unknown, inactive or URL-less providers leave the session untouched; otherwise the provider's entries are cleared and the flow marked; the xredirect is stored only when same-origin; the answer is the authorization URL |
| Manager.Manager.DoesDetectReturn | api/src/main/java/com/xwiki/identityoauth/internal/DefaultIdentityOAuthManager.java:372-375 | a return is detected iff a flow is marked running |
| Manager.Manager.ProcessOAuthReturn | api/src/main/java/com/xwiki/identityoauth/internal/DefaultIdentityOAuthManager.java:383-418 | the running mark is always cleared; on success code, token and expiry are stored, the user is pending and the redirect consumed; each failure gives "failed login" and keeps what was stored so far |
| Manager.Manager.ReplayedReturn | api/src/main/java/com/xwiki/identityoauth/internal/DefaultIdentityOAuthManager.java:383-418 | a second return without a new start fails |
| Manager.Manager.HasSessionIdentityInfo | api/src/main/java/com/xwiki/identityoauth/internal/DefaultIdentityOAuthManager.java:426-430 | for an active provider, whether a non-null authorization code is stored; otherwise the lookup error |
| Manager.Manager.RequestCurrentToken | api/src/main/java/com/xwiki/identityoauth/internal/DefaultIdentityOAuthManager.java:450-457 | nothing for an unregistered provider; otherwise that provider is asked with the stored code |
| ManagerUtils.RebuildProviders | api/src/main/java/com/xwiki/identityoauth/internal/DefaultIdentityOAuthManagerUtils.java:78-86 | the map is cleared; on success it holds each loaded configuration's provider under its name, the last of a name winning; the copy at DefaultIdentityOAuthManagerInitiator.java:87-95 is the same; the copy at IdentityOAuthProviderLoader.java:71-79 is the same |
| ManagerUtils.RegisteredLast | api/src/main/java/com/xwiki/identityoauth/internal/DefaultIdentityOAuthManagerUtils.java:78-86 | a name is registered iff some configuration carries it, with the provider of the last one |
| ManagerUtils.AppendStart | api/src/main/java/com/xwiki/identityoauth/internal/DefaultIdentityOAuthManagerUtils.java:96-104 | the start URL ends with the provider parameter and the start flag, after `?` or appended to an existing query |
| ManagerUtils.StartUrl | api/src/main/java/com/xwiki/identityoauth/internal/DefaultIdentityOAuthManagerUtils.java:96-104 | fails iff the login page URL fails; else it is that URL, `?provider=`, the hint and the start parameters; the copy at DefaultIdentityOAuthManagerInitiator.java:105-113 is the same; the copy at IdentityOAuthProviderLoader.java:89-97 is the same |
| ManagerUtils.MaybeModifyRedirectUrl | api/src/main/java/com/xwiki/identityoauth/internal/DefaultIdentityOAuthManagerUtils.java:113-121 | a URL without the placeholder passes; otherwise the placeholder is replaced by the encoded login page URL, failing iff that URL fails; the copy at DefaultIdentityOAuthManagerInitiator.java:122-130 is the same; the copy at IdentityOAuthProviderLoader.java:106-114 is the same |
| ManagerUtils.MaybeModifyIdempotentWithout | api/src/main/java/com/xwiki/identityoauth/internal/DefaultIdentityOAuthManagerUtils.java:113-121 | a URL without the placeholder is unchanged, so a modified URL is not modified again |
| ManagerUtils.CheckIfProviderIsActive | api/src/main/java/com/xwiki/identityoauth/internal/DefaultIdentityOAuthManagerUtils.java:206-218 | succeeds iff the provider exists, is active and is ready; otherwise not-found, inactive, then not-ready, in that order |
| ManagerUtils.NewerCheckStricter | api/src/main/java/com/xwiki/identityoauth/internal/DefaultIdentityOAuthManagerUtils.java:206-218 | the newer check accepts only providers the older one accepts, and refuses active providers that are not ready |
| ManagerUtils.ProcessOAuthReturn | api/src/main/java/com/xwiki/identityoauth/internal/DefaultIdentityOAuthManagerUtils.java:169-199 | a refused provider fails before the running mark is touched; otherwise the mark is cleared and code, token, expiry and pending user are stored as in the older flow |
| ManagerUtils.GetXWiki | api/src/main/java/com/xwiki/identityoauth/internal/DefaultIdentityOAuthManagerUtils.java:128-138 | no context gives no XWiki; an XWiki instance comes only from the context; the copy at DefaultIdentityOAuthManagerInitiator.java:137-147 is the same |
| ManagerUtils.TryInitiatingAuthService | api/src/main/java/com/xwiki/identityoauth/internal/DefaultIdentityOAuthManagerUtils.java:143-158 | with an XWiki instance the service ends up installed iff it already was or the service could be obtained, a failure to obtain it being swallowed; without an instance nothing changes; the copy at DefaultIdentityOAuthManagerInitiator.java:152-167 is the same |
| ManagerUtils.TryBypassDomainSecurityCheck | api/src/main/java/com/xwiki/identityoauth/internal/DefaultIdentityOAuthManagerInitiator.java:74-79 | the execution context gains the bypass property set to true, the rest unchanged; the copy at IdentityOAuthProviderLoader.java:58-63 is the same |
| Sessions.SessionInfo.constructor | api/src/main/java/com/xwiki/identityoauth/internal/IdentityOAuthSessionInfo.java:42-52 | fresh session state is empty |
| Sessions.SessionInfo.SetRunning | api/src/main/java/com/xwiki/identityoauth/internal/IdentityOAuthSessionInfo.java:66-74 | sets the running provider and nothing else |
| Sessions.SessionInfo.SetUserToLogIn | api/src/main/java/com/xwiki/identityoauth/internal/IdentityOAuthSessionInfo.java:97-105 | sets the pending user and nothing else |
| Sessions.SessionInfo.SetAuthorizationCode | api/src/main/java/com/xwiki/identityoauth/internal/IdentityOAuthSessionInfo.java:107-115 | stores the provider's code, other providers' codes and all other state unchanged |
| Sessions.SessionInfo.SetToken | api/src/main/java/com/xwiki/identityoauth/internal/IdentityOAuthSessionInfo.java:117-125 | stores the provider's token, other providers' tokens and all other state unchanged |
| Sessions.SessionInfo.SetTokenExpiry | api/src/main/java/com/xwiki/identityoauth/internal/IdentityOAuthSessionInfo.java:127-135 | stores the provider's expiry, other providers' expiries and all other state unchanged |
| Sessions.SessionInfo.PickXredirect | api/src/main/java/com/xwiki/identityoauth/internal/IdentityOAuthSessionInfo.java:137-142 | returns the stored redirect and clears it |
| Sessions.SessionInfo.SetXredirect | api/src/main/java/com/xwiki/identityoauth/internal/IdentityOAuthSessionInfo.java:144-147 | sets the redirect and nothing else |
| Sessions.SessionInfo.Clear | api/src/main/java/com/xwiki/identityoauth/internal/IdentityOAuthSessionInfo.java:81-95 | one provider: its token and code are removed and the redirect dropped; all providers: with one code at most it works; with two or more the HashMap iterator fails after removing one |
| Sessions.GetFromSession | api/src/main/java/com/xwiki/identityoauth/internal/IdentityOAuthSessionInfo.java:54-64 | returns the stored state, creating and storing an empty one when absent |
| Sessions.SessionInfoProvider.Get | api/src/main/java/com/xwiki/identityoauth/internal/IdentityOAuthSessionInfoProvider.java:44-54 | the same lookup-or-create through the current request's session |
| Sessions.SessionInfoProvider.GetTwice | api/src/main/java/com/xwiki/identityoauth/internal/IdentityOAuthSessionInfoProvider.java:44-54 | two lookups return the same object |
| Sessions.HasSessionIdentityInfo | api/src/main/java/com/xwiki/identityoauth/internal/IdentityOAuthSessionInfo.java:76-79 | true iff a session state already existed and holds a token for the provider |
| Users.WriteSettles | api/src/main/java/com/xwiki/identityoauth/internal/IdentityOAuthXWikiObjects.java:262-270 | after a write the field reads as the value and no longer differs; a null value always counts as a change; the copy at IdentityOAuthUserProc.java:239-247 is the same |
| Users.UserDocument.UpdateField | api/src/main/java/com/xwiki/identityoauth/internal/IdentityOAuthXWikiObjects.java:262-270 | writes the field only when it differs and reports whether it did |
| Users.BaseFieldsFirstDifference | api/src/main/java/com/xwiki/identityoauth/internal/IdentityOAuthXWikiObjects.java:235-245 | only the first differing of first name, last name and first e-mail is written; other fields are untouched; the copy at IdentityOAuthUserProc.java:227-237 is the same |
| Users.BaseFieldsSettle | api/src/main/java/com/xwiki/identityoauth/internal/IdentityOAuthXWikiObjects.java:235-245 | a user in sync is unchanged, and three passes bring the user in sync |
| Users.UserDocument.UpdateBaseFields | api/src/main/java/com/xwiki/identityoauth/internal/IdentityOAuthXWikiObjects.java:235-245 | the method computes `BaseFields` on the user object |
| Users.IssuerUrl | api/src/main/java/com/xwiki/identityoauth/internal/IdentityOAuthUserProc.java:184-191 | the identity's issuer URL, or the provider hint when it has none |
| Users.BindRecords | api/src/main/java/com/xwiki/identityoauth/internal/IdentityOAuthXWikiObjects.java:247-260 | binding reports a change iff the user was not yet bound; with an id it binds, and binding again changes nothing; the newer OIDC binding at IdentityOAuthUserProc.java:209-209 has the same properties |
| Users.UserDocument.GetOrMakeIdentityObject | api/src/main/java/com/xwiki/identityoauth/internal/IdentityOAuthXWikiObjects.java:247-260 | the method computes the identity-object binding |
| Users.ToInt32Saturating | api/src/main/java/com/xwiki/identityoauth/internal/IdentityOAuthXWikiObjects.java:282-283 | Java's `(int)` of a double: in range it is the value, beyond the range it saturates at the bound |
| Users.IfModifiedSince | api/src/main/java/com/xwiki/identityoauth/internal/IdentityOAuthXWikiObjects.java:272-283 | a date is sent iff the avatar field names an existing attachment |
| Users.JitterLost | api/src/main/java/com/xwiki/identityoauth/internal/IdentityOAuthUserProc.java:258-260 | for any real timestamp the cast saturates, so the randomised date is always the same maximum |
| Users.AvatarName | api/src/main/java/com/xwiki/identityoauth/internal/IdentityOAuthXWikiObjects.java:290-299 | the supplied name; else `image.jpeg` or `image.png` by media type; any other type fails as unsupported; the copy at IdentityOAuthUserProc.java:267-276 is the same |
| Users.FetchImageOutcome | api/src/main/java/com/xwiki/identityoauth/internal/IdentityOAuthUserProc.java:249-287 | no image or no stream: unchanged; otherwise the avatar field and attachment are set under the chosen name, or the type error |
| Users.UserDocument.FetchUserImage | api/src/main/java/com/xwiki/identityoauth/internal/IdentityOAuthXWikiObjects.java:272-310 | the method computes `FetchImage` on the document |
| Users.UpdateShortCircuit | api/src/main/java/com/xwiki/identityoauth/internal/IdentityOAuthXWikiObjects.java:215-221 | a base-field change skips binding, avatar and enrichment |
| Users.NullFirstNameNeverBinds | api/src/main/java/com/xwiki/identityoauth/internal/IdentityOAuthUserProc.java:207-211 | with no first name from the provider every login reports a change and binding is never reached |
| Users.UpdateInSync | api/src/main/java/com/xwiki/identityoauth/internal/IdentityOAuthUserProc.java:193-225 | a document in sync, bound, with no new avatar and nothing to enrich is not changed |
| Users.UpdateFailsOnlyAtAvatar | api/src/main/java/com/xwiki/identityoauth/internal/IdentityOAuthXWikiObjects.java:199-233 | updating fails iff no earlier step changed anything and the avatar step fails, with the unsupported-type error |
| Users.UpdateUser | api/src/main/java/com/xwiki/identityoauth/internal/IdentityOAuthXWikiObjects.java:199-233 | a page without a user object is left alone; otherwise the document is saved iff a step reported a change; a failure saves nothing; the newer update at IdentityOAuthUserProc.java:193-225 keeps the same save discipline with the OIDC binding in place of the identity object |
| Users.LocalPart | api/src/main/java/com/xwiki/identityoauth/internal/IdentityOAuthXWikiObjects.java:159-159 | the text before the first `@`; fails iff there is none; the copy at IdentityOAuthUserProc.java:145-145 is the same |
| Users.RandomPassword | api/src/main/java/com/xwiki/identityoauth/internal/IdentityOAuthXWikiObjects.java:165-167 | a nine-digit decimal of 100000000 plus the draw |
| Users.NewUserFields | api/src/main/java/com/xwiki/identityoauth/internal/IdentityOAuthXWikiObjects.java:170-177 | the new user's names as given (absent when null), the first e-mail and the password; no avatar and no active flag yet; the copy at IdentityOAuthUserProc.java:156-163 is the same |
| Users.NewUserContents | api/src/main/java/com/xwiki/identityoauth/internal/IdentityOAuthXWikiObjects.java:152-197 | creation succeeds iff there is a first e-mail containing `@`; the page is then the local part's unique name with the attributes, the active flag and the binding; the newer creation at IdentityOAuthUserProc.java:138-182 binds through the OIDC store instead |
| Users.CompleteUser | api/src/main/java/com/xwiki/identityoauth/internal/IdentityOAuthXWikiObjects.java:183-191 | the step between the two saves computes `Completed` on the created page |
| Users.CreateUser | api/src/main/java/com/xwiki/identityoauth/internal/IdentityOAuthXWikiObjects.java:152-197 | the created page is saved, then saved again completed unless the avatar failed; the copy at IdentityOAuthUserProc.java:138-182 is the same |
| UserObjects.StripSpace | api/src/main/java/com/xwiki/identityoauth/internal/IdentityOAuthXWikiObjects.java:110-130 | a name in the `XWiki.` space loses that prefix; any other name is kept |
| UserObjects.FindExistingUser | api/src/main/java/com/xwiki/identityoauth/internal/IdentityOAuthXWikiObjects.java:132-150 | lookup by external id first, then by the first e-mail; empty iff both are empty |
| UserObjects.UpdateXWikiUser | api/src/main/java/com/xwiki/identityoauth/internal/IdentityOAuthXWikiObjects.java:110-130 | no e-mail fails with nothing saved; an unknown user is created; a found one is updated |
| UserProc.FirstHitEarliest | api/src/main/java/com/xwiki/identityoauth/internal/IdentityOAuthUserProc.java:108-136 | the e-mail search finds something iff some e-mail has a hit, and it is the earliest such e-mail |
| UserProc.FindExistingUser | api/src/main/java/com/xwiki/identityoauth/internal/IdentityOAuthUserProc.java:108-136 | the loop computes `ExistingUser`: the subject's user if found, else the first e-mail with a hit |
| UserProc.UpdateXWikiUser | api/src/main/java/com/xwiki/identityoauth/internal/IdentityOAuthUserProc.java:92-106 | an unknown user is created, a found one updated |
| UserProc.LaterEmailFoundOnlyByNewer | api/src/main/java/com/xwiki/identityoauth/internal/IdentityOAuthUserProc.java:108-136 | a user known only by the second e-mail is found by the newer lookup and not by the older one |
| Cookies.ConformCookieDomain | api/src/main/java/com/xwiki/identityoauth/internal/CookieAuthenticationPersistence.java:331-338 | null stays null; otherwise the domain with exactly one leading dot |
| Cookies.ConformIdempotent | api/src/main/java/com/xwiki/identityoauth/internal/CookieAuthenticationPersistence.java:331-338 | conforming twice is conforming once |
| Cookies.GetEncryptionKey | api/src/main/java/com/xwiki/identityoauth/internal/CookieAuthenticationPersistence.java:189-216 | the own key, else XWiki's, else the permanent one; missing or shorter than 24 characters fails with the matching error |
| Cookies.KeyBytes | api/src/main/java/com/xwiki/identityoauth/internal/CookieAuthenticationPersistence.java:231-244 | the key material is exactly the first 24 bytes, which spell the key's first 24 characters when those are Latin-1 |
| Cookies.Latin1TextOfBytes | api/src/main/java/com/xwiki/identityoauth/internal/CookieAuthenticationPersistence.java:246-276 | text survives the byte conversion iff it is Latin-1 |
| Cookies.EncryptText | api/src/main/java/com/xwiki/identityoauth/internal/CookieAuthenticationPersistence.java:246-258 | without a cipher, or when it fails, the text itself; otherwise text free of `=` |
| Cookies.DecryptText | api/src/main/java/com/xwiki/identityoauth/internal/CookieAuthenticationPersistence.java:260-276 | null stays null; without a cipher the text itself |
| Cookies.SubstitutionRoundTrip | api/src/main/java/com/xwiki/identityoauth/internal/CookieAuthenticationPersistence.java:246-276 | Base64 with `=` turned into `_` and back decodes to the ciphertext |
| Cookies.CookieRoundTrip | api/src/main/java/com/xwiki/identityoauth/internal/CookieAuthenticationPersistence.java:246-276 | for inverse ciphers and a Latin-1 user id, decrypting the encrypted cookie gives the id back |
| Cookies.DecryptFailsOpen | api/src/main/java/com/xwiki/identityoauth/internal/CookieAuthenticationPersistence.java:260-276 | when decryption fails the cookie text is returned unchanged |
| Cookies.Conformed | api/src/main/java/com/xwiki/identityoauth/internal/CookieAuthenticationPersistence.java:126-134 | one conformed domain per configured entry, dotted and ending with it |
| Cookies.MakeDomains | api/src/main/java/com/xwiki/identityoauth/internal/CookieAuthenticationPersistence.java:126-134 | no entries give a null array; otherwise a fresh array of the conformed domains |
| Cookies.CookiePersistence.Initialize | api/src/main/java/com/xwiki/identityoauth/internal/CookieAuthenticationPersistence.java:119-143 | prefix and path read with their defaults; a key failure is returned with key, domains and ciphers untouched; otherwise the key and domains are set and both ciphers, or a cipher failure is returned with the decryption cipher untouched and the encryption cipher set only if it was built |
| Cookies.FirstSuffixFirst | api/src/main/java/com/xwiki/identityoauth/internal/CookieAuthenticationPersistence.java:305-322 | the found domain is the first the server name ends with; none iff no domain matches |
| Cookies.CookiePersistence.GetCookieDomain | api/src/main/java/com/xwiki/identityoauth/internal/CookieAuthenticationPersistence.java:305-322 | the loop with early exit returns the first matching configured domain, or null |
| Cookies.CookiePersistence.SetUserId | api/src/main/java/com/xwiki/identityoauth/internal/CookieAuthenticationPersistence.java:174-187 | the cookie: prefixed name, encrypted id, one hour, configured path, the request's security flag and its domain |
| Cookies.CookiePersistence.Clear | api/src/main/java/com/xwiki/identityoauth/internal/CookieAuthenticationPersistence.java:150-153 | the same cookie carrying the encrypted guest user |
| Cookies.CookiePersistence.GetUserId | api/src/main/java/com/xwiki/identityoauth/internal/CookieAuthenticationPersistence.java:161-166 | an id only when the request carries the prefixed cookie |
| Cookies.SetThenGet | api/src/main/java/com/xwiki/identityoauth/internal/CookieAuthenticationPersistence.java:161-187 | a request carrying the cookie just set reads back the user id |
| AuthService.Qualified | api/src/main/java/com/xwiki/identityoauth/internal/IdentityOAuthAuthService.java:124-132 | the name with the `XWiki.` prefix, added only when missing |
| AuthService.QualifiedIdempotent | api/src/main/java/com/xwiki/identityoauth/internal/IdentityOAuthAuthService.java:124-132 | qualifying twice is qualifying once |
| AuthService.AuthService.Initialize | api/src/main/java/com/xwiki/identityoauth/internal/IdentityOAuthAuthService.java:76-80 | the logout pattern is the configured one, or empty |
| AuthService.AuthService.CheckAuth | api/src/main/java/com/xwiki/identityoauth/internal/IdentityOAuthAuthService.java:89-106 | not logging out: the default check's answer, the session state untouched; logging out: the cookie is reset to the guest and the session state goes through `clear(null)`: with no stored code nothing changes, with one that provider's code and token and the redirect are gone, with two or more one provider's entries and the redirect are gone and the call fails with ConcurrentModification; the running flag, the pending user and the expiries always stay, and a session without state gets an empty one |
| AuthService.AuthService.Authenticate | api/src/main/java/com/xwiki/identityoauth/internal/IdentityOAuthAuthService.java:118-142 | a pending user is consumed and returned qualified; otherwise the default answer; no user is pending afterwards |
| AuthService.RedirectBack | api/src/main/java/com/xwiki/identityoauth/internal/IdentityOAuthAuthService.java:172-182 | the request URI with its query, carrying the saved-request id unless the request already has one |
| AuthService.ReusesSavedRequest | api/src/main/java/com/xwiki/identityoauth/internal/IdentityOAuthAuthService.java:164-169 | a request carrying an id reuses it and saves nothing |
| AuthService.RedirectCarriesSavedRequest | api/src/main/java/com/xwiki/identityoauth/internal/IdentityOAuthAuthService.java:164-185 | the login redirect sends the encoded way back, which carries the saved-request id |
| AuthService.AuthService.ShowLogin | api/src/main/java/com/xwiki/identityoauth/internal/IdentityOAuthAuthService.java:150-198 | no external login page: the default login; otherwise the redirect to it with the encoded way back |
| EventListener.LifecycleEventsReload | api/src/main/java/com/xwiki/identityoauth/internal/IdentityOAuthEventListener.java:87-96 | start-up and provider registration always reload |
| EventListener.DocumentEventsReload | api/src/main/java/com/xwiki/identityoauth/internal/IdentityOAuthEventListener.java:87-96 | a page update or deletion reloads iff the page holds configuration |
| EventListener.OtherEventsIgnored | api/src/main/java/com/xwiki/identityoauth/internal/IdentityOAuthEventListener.java:82-102 | no other event reloads |
| EventListener.OnEvent | api/src/main/java/com/xwiki/identityoauth/internal/IdentityOAuthEventListener.java:82-102 | at most one reload, exactly when the flag is raised, with the manager's reload outcome; a failed reload leaves the manager's state and registry as they were |

## Left out

- Logging, `printStackTrace` and the error message put in a request attribute are not modelled. The failure itself is.
- The cipher is an abstract byte transformation with an inverse. Triple-DES itself is not modelled.
- The platform default charset is taken to be ISO-8859-1 (characters above 255 become `?`).
  Other charsets are not modelled.
- `Cookies.CookieRoundTrip`: stated only for Latin-1 user ids, because other ids do not survive the charset conversion.
- Regular-expression matching of the logout page, `URLEncoder` and URL parsing are parameters of the model.
- `sendRedirect`, `addCookie` and saving a request are outputs or parameters. The servlet container is not modelled.
- Concurrency is not modelled. Each operation runs alone, so the transient STARTING state is never observed from outside.
- The authentication-service wiring is a boolean "installed" flag rather than a reference held by XWiki.
- The older manager's `createDataUrl` is taken from the newer configuration tools. The old object store's version is not part of this model.
- `updateOIDCUser`, `searchDocument` and the user-store queries are parameters with the results the code relies on. Their own logic is not part of this model.
- `enrichUserObject`: only whether it reports a change is modelled, not what it writes.
- `getUniquePageName` and the random draw for the password are parameters.
- Identity e-mail lists are never null in the model. A null list is treated like an empty one.
- XWiki's `createUser` is modelled as creating (or overwriting) the page with the given attributes.
- The saved-request parameter name is fixed to `srid`.
- `LoginCode.ExpandImageMarkers`: proved only when every data URL is safe to splice in (non-empty, no `--`, no trailing dash). This holds of every URL `createDataUrl` produces when media types hold no `--`.
- `ConfigTools.ConfigTools.LoadProviderConfigs`: the provider query is not modelled; the provider pages are a given list. A failing query, which in both revisions raises before the remembered pages are cleared and so leaves them as they were, is not captured (this holds for `XWikiObjects.XWikiObjects.LoadProviderConfigs` too).
- `ConfigTools.CreateDataUrl`: attachment media types are restricted by their type (`MimeType`) to texts without `--`, so that every data URL can be spliced into a login code; a media type holding `--` is not modelled.
- `LoginCode.RewriteExpandsImages`: stated under the same condition on data URLs, since the loop's next search starts inside the URL just inserted.
- `Text.RegexReplaceAll`: models `replaceAll` only for patterns without regular-expression metacharacters, which covers `-PROVIDER-`. The cookie code's `replaceAll` calls on `=` and `_` have constant, plain replacements and are modelled as the literal replace.
- The user id read in `showLogin` is only logged, so it is not modelled.
- The inherited `checkAuth`, `authenticate` and `showLogin` of XWiki's form authenticator are given answers (parameters).
- Provider-specific behaviour is left out: remote authorization URLs, token exchange and identity fetching are values in `Remote` and `Services`.
- `Users.JitterLost`: stated for timestamps beyond the 32-bit range, which is every real date; the random offset itself is a parameter.
- `PermanentConfigurationSource` and the script service are outside this model.

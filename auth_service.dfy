/**
 * IdentityOAuthAuthService: the authenticator XWiki consults. It logs in the user a finished
 * OAuth flow left pending in the session, treats the configured logout page by clearing the
 * cookie and the session's flow state, and sends visitors who must log in to the
 * IdentityOAuth.Login page with a way back to the saved request. The default authenticator it
 * extends is a given answer.
 */
module AuthService {
  import opened Wrappers
  import opened Text
  import opened Sessions
  import opened Cookies

  const XWikiSpacePrefix := "XWiki."
  const LogoutPageProperty := "xwiki.authentication.logoutpage"
  /** The request parameter naming a saved request (SavedRequestManager's identifier). */
  const SavedRequestIdentifier := "srid"

  datatype Principal = SimplePrincipal(name: string)

  /** The parts of the servlet request showLogin reads; `parameters` holds each parameter's first value. */
  datatype LoginRequest = LoginRequest(requestUri: string, queryString: Option<string>, parameters: map<string, string>)

  /** What showLogin does to the response: a redirect (saying whether it saved the request) or the default login. */
  datatype LoginAnswer = Redirect(location: string, savedRequest: bool) | DefaultLogin

  /** The user name with the `XWiki.` space in front, added only when missing. */
  function Qualified(user: string): (r: string)
    ensures StartsWith(r, XWikiSpacePrefix)
    ensures StartsWith(user, XWikiSpacePrefix) ==> r == user
    ensures !StartsWith(user, XWikiSpacePrefix) ==> r == XWikiSpacePrefix + user
  {
    if StartsWith(user, XWikiSpacePrefix) then user else XWikiSpacePrefix + user
  }

  /** Qualifying a qualified name changes nothing. */
  lemma QualifiedIdempotent(user: string)
    ensures Qualified(Qualified(user)) == Qualified(user)
  {
  }

  /** The session state object, when the session already holds one. */
  function SessionFrame(session: HttpSession): set<object>
    reads session
  {
    if SessionKey in session.attributes then {session.attributes[SessionKey]} else {}
  }

  /** The saved-request id showLogin uses: the request's when non-empty, otherwise the one saving it yields. */
  function SavedRequestId(req: LoginRequest, newId: string): string {
    if SavedRequestIdentifier in req.parameters && req.parameters[SavedRequestIdentifier] != "" then
      req.parameters[SavedRequestIdentifier]
    else newId
  }

  /** showLogin saves the request exactly when it carries no non-empty saved-request id. */
  predicate SavesRequest(req: LoginRequest) {
    SavedRequestIdentifier !in req.parameters || req.parameters[SavedRequestIdentifier] == ""
  }

  /** The query string, when the request has a non-empty one. */
  predicate HasQuery(req: LoginRequest) {
    req.queryString.Some? && req.queryString.value != ""
  }

  /**
   * The address to come back to: the request URI and `?`, then the query string if any, then
   * the saved-request parameter (after `&` when a query preceded it) unless the request already
   * names one.
   */
  function RedirectBack(req: LoginRequest, id: string): (back: string)
    ensures StartsWith(back, req.requestUri + "?")
    ensures SavedRequestIdentifier in req.parameters ==>
      back == req.requestUri + "?" + (if HasQuery(req) then req.queryString.value else "")
    ensures SavedRequestIdentifier !in req.parameters ==> EndsWith(back, SavedRequestIdentifier + "=" + id)
    ensures SavedRequestIdentifier !in req.parameters && !HasQuery(req) ==>
      back == req.requestUri + "?" + SavedRequestIdentifier + "=" + id
    ensures SavedRequestIdentifier !in req.parameters && HasQuery(req) ==>
      back == req.requestUri + "?" + req.queryString.value + "&" + SavedRequestIdentifier + "=" + id
  {
    var query := if HasQuery(req) then req.queryString.value else "";
    var delimiter := if HasQuery(req) then "&" else "";
    var srid := if SavedRequestIdentifier in req.parameters then "" else delimiter + SavedRequestIdentifier + "=" + id;
    assert StartsWith(req.requestUri + "?" + query + srid, req.requestUri + "?") by {
      assert (req.requestUri + "?" + query + srid)[..|req.requestUri + "?"|] == req.requestUri + "?";
    }
    req.requestUri + "?" + query + srid
  }

  /** The redirect showLogin sends when the login page's address is known. */
  function LoginRedirect(loginUrl: string, req: LoginRequest, newId: string, urlEncode: string -> string): LoginAnswer {
    var id := SavedRequestId(req, newId);
    var sridParameter := SavedRequestIdentifier + "=" + id;
    Redirect(loginUrl + "?" + sridParameter + "&xredirect=" + urlEncode(RedirectBack(req, id)), SavesRequest(req))
  }

  /** A request that already names a saved request keeps that id and is not saved again. */
  lemma ReusesSavedRequest(req: LoginRequest, newId: string)
    requires SavedRequestIdentifier in req.parameters && req.parameters[SavedRequestIdentifier] != ""
    ensures SavedRequestId(req, newId) == req.parameters[SavedRequestIdentifier] && !SavesRequest(req)
  {
  }

  /**
   * The redirect names the same saved request twice over: in its own srid parameter, and at the
   * end of the address it returns to when the request did not name one.
   */
  lemma RedirectCarriesSavedRequest(loginUrl: string, req: LoginRequest, newId: string, urlEncode: string -> string)
    requires SavedRequestIdentifier !in req.parameters
    ensures var a := LoginRedirect(loginUrl, req, newId, urlEncode);
      a.savedRequest
      && StartsWith(a.location, loginUrl + "?" + SavedRequestIdentifier + "=" + newId + "&xredirect=")
      && EndsWith(RedirectBack(req, newId), SavedRequestIdentifier + "=" + newId)
      && a.location == loginUrl + "?" + SavedRequestIdentifier + "=" + newId + "&xredirect=" + urlEncode(RedirectBack(req, newId))
  {
    var p := loginUrl + "?" + SavedRequestIdentifier + "=" + newId + "&xredirect=";
    var a := LoginRedirect(loginUrl, req, newId, urlEncode);
    assert a.location == p + urlEncode(RedirectBack(req, newId));
    assert a.location[..|p|] == p;
  }

  class AuthService {
    var logoutPattern: string
    const cookies: CookiePersistence

    constructor (cookies: CookiePersistence)
      ensures this.cookies == cookies && logoutPattern == ""
    {
      this.cookies := cookies;
      logoutPattern := "";
    }

    /** initialize: the logout-page pattern from xwiki.cfg, empty when unset. */
    method Initialize(cfg: map<string, string>)
      modifies this
      ensures logoutPattern == (if LogoutPageProperty in cfg then cfg[LogoutPageProperty] else "")
    {
      logoutPattern := if LogoutPageProperty in cfg then cfg[LogoutPageProperty] else "";
    }

    /** isLogoutRequest: the whole path info matches the logout pattern (`matches` is the regular-expression engine). */
    predicate IsLogoutRequest(pathInfo: string, matches: (string, string) -> bool)
      reads this
    {
      matches(logoutPattern, pathInfo)
    }

    /**
     * checkAuth: on the logout page, the cookie is reset to the guest, the session state goes
     * through clear(null) and no user is answered. That clears the codes, tokens and redirect
     * only when at most one provider holds a code; with more, one provider's entries and the
     * redirect go before the ConcurrentModificationException reaches the caller. The running
     * flag, the pending user and the expiries stay. Elsewhere the default check answers.
     */
    method CheckAuth(session: HttpSession, request: Request, pathInfo: string, matches: (string, string) -> bool,
                     defaultCheck: Outcome<Option<string>>) returns (r: Outcome<Option<string>>, cookie: Option<Cookie>)
      modifies session, SessionFrame(session)
      ensures SessionKey in session.attributes
      ensures SessionKey in old(session.attributes) ==> session.attributes == old(session.attributes)
      ensures !IsLogoutRequest(pathInfo, matches) ==> r == defaultCheck && cookie.None?
      ensures !IsLogoutRequest(pathInfo, matches) && SessionKey in old(session.attributes) ==>
        unchanged(session.attributes[SessionKey])
      ensures IsLogoutRequest(pathInfo, matches) ==>
        cookie.Some? && cookie.value.value == EncryptText(cookies.encryption, GuestUser)
        && cookie.value.name == cookies.cookiePrefix + AuthenticationCookie
        && cookie.value.domain == cookies.CookieDomain(request.serverName)
        && (r.Ok? ==> r.value.None?)
        && (r.Fail? ==> r.error == ConcurrentModification)
      ensures IsLogoutRequest(pathInfo, matches) && SessionKey in old(session.attributes) ==>
        var si := session.attributes[SessionKey];
        (r.Fail? <==> |old(si.codes)| >= 2)
        && si.running == old(si.running) && si.userToLogIn == old(si.userToLogIn) && si.expiries == old(si.expiries)
        && (|old(si.codes)| == 0 ==>
              si.codes == old(si.codes) && si.tokens == old(si.tokens) && si.xredirect == old(si.xredirect))
        && (|old(si.codes)| == 1 ==>
              si.codes == map[] && si.tokens == old(si.tokens) - old(si.codes).Keys && si.xredirect.None?)
        && (|old(si.codes)| >= 2 ==>
              si.xredirect.None?
              && exists p :: p in old(si.codes) && si.codes == old(si.codes) - {p} && si.tokens == old(si.tokens) - {p})
      ensures IsLogoutRequest(pathInfo, matches) && SessionKey !in old(session.attributes) ==>
        r == Ok(None) && session.attributes[SessionKey].IsEmpty()
    {
      var si := GetFromSession(session);
      if IsLogoutRequest(pathInfo, matches) {
        var c := cookies.Clear(request);
        cookie := Some(c);
        var cleared := si.Clear(None);
        if cleared.Fail? {
          return Fail(cleared.error), cookie;
        }
        return Ok(None), cookie;
      }
      return defaultCheck, None;
    }

    /**
     * authenticate: a user left pending by the OAuth flow is consumed (set back to null) and
     * answered as a principal in the `XWiki.` space; otherwise the default authenticator answers
     * for the given credentials. Either way no user is pending afterwards.
     */
    method Authenticate(session: HttpSession, username: string, password: string,
                        defaultAuthenticate: (string, string) -> Outcome<Option<Principal>>) returns (r: Outcome<Option<Principal>>)
      modifies session, SessionFrame(session)
      ensures SessionKey in session.attributes && session.attributes[SessionKey].userToLogIn.None?
      ensures SessionKey in old(session.attributes) ==> session.attributes == old(session.attributes)
      ensures SessionKey in old(session.attributes) && old(session.attributes[SessionKey].userToLogIn).Some? ==>
        r == Ok(Some(SimplePrincipal(Qualified(old(session.attributes[SessionKey].userToLogIn).value))))
      ensures SessionKey !in old(session.attributes) || old(session.attributes[SessionKey].userToLogIn).None? ==>
        r == defaultAuthenticate(username, password)
      ensures SessionKey in old(session.attributes) ==>
        var si := session.attributes[SessionKey];
        si.running == old(si.running) && si.codes == old(si.codes) && si.tokens == old(si.tokens)
        && si.expiries == old(si.expiries) && si.xredirect == old(si.xredirect)
      ensures SessionKey !in old(session.attributes) ==> fresh(session.attributes[SessionKey]) && session.attributes[SessionKey].IsEmpty()
    {
      var si := GetFromSession(session);
      var userToLogin := si.UserToLogIn();
      if userToLogin.Some? {
        si.SetUserToLogIn(None);
        return Ok(Some(SimplePrincipal(Qualified(userToLogin.value))));
      }
      r := defaultAuthenticate(username, password);
    }

    /**
     * showLogin: when the login page's external address is known, a redirect to it carrying the
     * saved-request id and, URL-encoded, the address to come back to; otherwise the default
     * login. The cookie's user id is only read for the log and is left out.
     */
    method ShowLogin(req: LoginRequest, externalUrl: Outcome<string>, newSavedId: string, urlEncode: string -> string)
      returns (answer: LoginAnswer)
      ensures externalUrl.Fail? <==> answer == DefaultLogin
      ensures externalUrl.Ok? ==> answer == LoginRedirect(externalUrl.value, req, newSavedId, urlEncode)
    {
      var redirected := false;
      answer := DefaultLogin;
      if externalUrl.Ok? {
        var url := externalUrl.value;
        var savedRequestId := if SavedRequestIdentifier in req.parameters then req.parameters[SavedRequestIdentifier] else "";
        var saved := false;
        if savedRequestId == "" {
          savedRequestId := newSavedId;
          saved := true;
        }
        var sridParameter := SavedRequestIdentifier + "=" + savedRequestId;
        var redirectBack := req.requestUri;
        redirectBack := redirectBack + "?";
        var delimiter := "";
        if req.queryString.Some? && req.queryString.value != "" {
          redirectBack := redirectBack + req.queryString.value;
          delimiter := "&";
        }
        if SavedRequestIdentifier !in req.parameters {
          redirectBack := redirectBack + delimiter;
          redirectBack := redirectBack + sridParameter;
        }
        assert savedRequestId == SavedRequestId(req, newSavedId) && saved == SavesRequest(req);
        assert redirectBack == RedirectBack(req, savedRequestId);
        redirected := true;
        answer := Redirect(url + "?" + sridParameter + "&xredirect=" + urlEncode(redirectBack), saved);
      }
      if !redirected {
        answer := DefaultLogin;
      }
    }
  }
}

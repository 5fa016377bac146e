/**
 * The per-session transient state of an OAuth flow (IdentityOAuthSessionInfo) and its lazy
 * creation in the HTTP session (getFromSession and IdentityOAuthSessionInfoProvider.get).
 */
module Sessions {
  import opened Wrappers

  /** The session attribute the state is stored under: the class's fully qualified name. */
  const SessionKey := "com.xwiki.identityoauth.internal.IdentityOAuthSessionInfo"

  /**
   * IdentityOAuthSessionInfo. Java's HashMap may hold null values, so each map value is an
   * Option; a getter answers None both for a missing key and for a stored null. Dates are
   * milliseconds since the epoch.
   */
  class SessionInfo {
    var running: Option<string>
    var userToLogIn: Option<string>
    var codes: map<string, Option<string>>
    var tokens: map<string, Option<string>>
    var expiries: map<string, Option<int>>
    var xredirect: Option<string>

    /** No flow running, no pending user, no stored entries. */
    predicate IsEmpty()
      reads this
    {
      running.None? && userToLogIn.None? && codes == map[] && tokens == map[] && expiries == map[] && xredirect.None?
    }

    constructor ()
      ensures IsEmpty()
    {
      running, userToLogIn, xredirect := None, None, None;
      codes, tokens, expiries := map[], map[], map[];
    }

    function Running(): Option<string>
      reads this
    {
      running
    }

    method SetRunning(v: Option<string>)
      modifies this
      ensures running == v
      ensures userToLogIn == old(userToLogIn) && codes == old(codes) && tokens == old(tokens)
      ensures expiries == old(expiries) && xredirect == old(xredirect)
    {
      running := v;
    }

    function UserToLogIn(): Option<string>
      reads this
    {
      userToLogIn
    }

    method SetUserToLogIn(v: Option<string>)
      modifies this
      ensures userToLogIn == v
      ensures running == old(running) && codes == old(codes) && tokens == old(tokens)
      ensures expiries == old(expiries) && xredirect == old(xredirect)
    {
      userToLogIn := v;
    }

    /** HashMap.get on the authorization codes. */
    function AuthorizationCode(p: string): Option<string>
      reads this
    {
      if p in codes then codes[p] else None
    }

    function Token(p: string): Option<string>
      reads this
    {
      if p in tokens then tokens[p] else None
    }

    function TokenExpiry(p: string): Option<int>
      reads this
    {
      if p in expiries then expiries[p] else None
    }

    /** The setter is read back by the getter for `p`; every other provider's entry stays. */
    method SetAuthorizationCode(p: string, v: Option<string>)
      modifies this
      ensures codes == old(codes)[p := v]
      ensures AuthorizationCode(p) == v
      ensures forall q :: q != p ==> AuthorizationCode(q) == old(AuthorizationCode(q))
      ensures running == old(running) && userToLogIn == old(userToLogIn) && tokens == old(tokens)
      ensures expiries == old(expiries) && xredirect == old(xredirect)
    {
      codes := codes[p := v];
    }

    method SetToken(p: string, v: Option<string>)
      modifies this
      ensures tokens == old(tokens)[p := v]
      ensures Token(p) == v
      ensures forall q :: q != p ==> Token(q) == old(Token(q))
      ensures running == old(running) && userToLogIn == old(userToLogIn) && codes == old(codes)
      ensures expiries == old(expiries) && xredirect == old(xredirect)
    {
      tokens := tokens[p := v];
    }

    method SetTokenExpiry(p: string, v: Option<int>)
      modifies this
      ensures expiries == old(expiries)[p := v]
      ensures TokenExpiry(p) == v
      ensures forall q :: q != p ==> TokenExpiry(q) == old(TokenExpiry(q))
      ensures running == old(running) && userToLogIn == old(userToLogIn) && codes == old(codes)
      ensures tokens == old(tokens) && xredirect == old(xredirect)
    {
      expiries := expiries[p := v];
    }

    /** A token, not merely a code, is stored for `p` (a stored null token counts, as containsKey does). */
    predicate HasIdentityInfo(p: string)
      reads this
    {
      p in tokens
    }

    /** pickXredirect: answers the stored redirect and forgets it. */
    method PickXredirect() returns (x: Option<string>)
      modifies this
      ensures x == old(xredirect) && xredirect.None?
      ensures running == old(running) && userToLogIn == old(userToLogIn) && codes == old(codes)
      ensures tokens == old(tokens) && expiries == old(expiries)
    {
      x := xredirect;
      xredirect := None;
    }

    method SetXredirect(v: Option<string>)
      modifies this
      ensures xredirect == v
      ensures running == old(running) && userToLogIn == old(userToLogIn) && codes == old(codes)
      ensures tokens == old(tokens) && expiries == old(expiries)
    {
      xredirect := v;
    }

    /**
     * clear(provider). With a provider, the loop runs over a singleton set and drops that
     * provider's token and code and the redirect. Without one, it runs over the key set of the
     * codes while removing from that same map: HashMap's fail-fast iterator lets the first key
     * through and throws ConcurrentModificationException when a second key is fetched, so at most
     * one provider is cleared. Expiries, the running flag and the pending user are never touched.
     */
    method Clear(provider: Option<string>) returns (r: Outcome<()>)
      modifies this
      ensures running == old(running) && userToLogIn == old(userToLogIn) && expiries == old(expiries)
      ensures provider.Some? ==>
        r == Ok(()) && tokens == old(tokens) - {provider.value} && codes == old(codes) - {provider.value} && xredirect.None?
      ensures provider.None? && |old(codes)| == 0 ==>
        r == Ok(()) && tokens == old(tokens) && codes == old(codes) && xredirect == old(xredirect)
      ensures provider.None? && |old(codes)| == 1 ==>
        r == Ok(()) && codes == map[] && tokens == old(tokens) - old(codes).Keys && xredirect.None?
      ensures provider.None? && |old(codes)| >= 2 ==>
        r == Fail(ConcurrentModification) && xredirect.None?
        && exists p :: p in old(codes) && codes == old(codes) - {p} && tokens == old(tokens) - {p}
    {
      var providers: set<string>;
      var backedByCodes := provider.None?;
      if provider.Some? {
        providers := {provider.value};
      } else {
        providers := codes.Keys;
      }
      var pending := providers;
      var removed := false;
      ghost var first: string := "";
      ghost var tokens0, codes0 := tokens, codes;
      while pending != {}
        invariant pending <= providers
        invariant running == old(running) && userToLogIn == old(userToLogIn) && expiries == old(expiries)
        invariant !removed ==> pending == providers && tokens == tokens0 && codes == codes0 && xredirect == old(xredirect)
        invariant removed ==> first in providers && pending == providers - {first} && Cleared(first, tokens0, codes0)
        invariant removed && !backedByCodes ==> pending == {}
        decreases |pending|
      {
        if backedByCodes && removed {
          // the iterator notices the removal when it fetches the next key
          KeyCount(codes0, first);
          return Fail(ConcurrentModification);
        }
        var prov :| prov in pending;
        pending := pending - {prov};
        ClearOne(prov);
        first := prov;
        removed := true;
      }
      if backedByCodes {
        if removed {
          KeyCount(codes0, first);
        } else {
          assert codes0.Keys == {};
        }
      }
      return Ok(());
    }

    /** Counting the keys left once `k` is removed. */
    lemma KeyCount(m: map<string, Option<string>>, k: string)
      requires k in m
      ensures m.Keys - {k} == {} ==> |m| == 1 && m - {k} == map[] && m.Keys == {k}
      ensures m.Keys - {k} != {} ==> |m| >= 2
    {
      assert m.Keys == (m.Keys - {k}) + {k};
      assert |m.Keys| == |m.Keys - {k}| + 1;
      if m.Keys - {k} != {} {
        var j :| j in m.Keys - {k};
        assert |m.Keys - {k}| >= 1;
      }
    }

    /** The state `clear` leaves once it has dropped `p`'s entries. */
    ghost predicate Cleared(p: string, tokens0: map<string, Option<string>>, codes0: map<string, Option<string>>)
      reads this
    {
      xredirect.None? && tokens == tokens0 - {p} && codes == codes0 - {p}
    }

    /** The loop body of clear: one provider's token and code go, and so does the redirect. */
    method ClearOne(p: string)
      modifies this
      ensures tokens == old(tokens) - {p} && codes == old(codes) - {p} && xredirect.None?
      ensures running == old(running) && userToLogIn == old(userToLogIn) && expiries == old(expiries)
    {
      tokens := tokens - {p};
      codes := codes - {p};
      xredirect := None;
    }
  }

  /** The HTTP session's attributes that hold session states, by attribute name. */
  class HttpSession {
    var attributes: map<string, SessionInfo>

    constructor ()
      ensures attributes == map[]
    {
      attributes := map[];
    }
  }

  /**
   * getFromSession / IdentityOAuthSessionInfoProvider.get: the state stored under the class-name
   * key, or a fresh empty one stored there first. At most that one attribute is written, and
   * only when it was absent.
   */
  method GetFromSession(session: HttpSession) returns (si: SessionInfo)
    modifies session
    ensures SessionKey in old(session.attributes) ==>
      si == old(session.attributes[SessionKey]) && session.attributes == old(session.attributes)
    ensures SessionKey !in old(session.attributes) ==>
      fresh(si) && si.IsEmpty() && session.attributes == old(session.attributes)[SessionKey := si]
  {
    if SessionKey in session.attributes {
      si := session.attributes[SessionKey];
    } else {
      si := new SessionInfo();
      session.attributes := session.attributes[SessionKey := si];
    }
  }

  /**
   * IdentityOAuthSessionInfoProvider: a component that reads the session of the current request.
   * Its get() repeats getFromSession's code, so it is modelled by calling it.
   */
  class SessionInfoProvider {
    const session: HttpSession

    constructor (session: HttpSession)
      ensures this.session == session
    {
      this.session := session;
    }

    method Get() returns (si: SessionInfo)
      modifies session
      ensures SessionKey in session.attributes && si == session.attributes[SessionKey]
      ensures SessionKey in old(session.attributes) ==>
        si == old(session.attributes[SessionKey]) && session.attributes == old(session.attributes)
      ensures SessionKey !in old(session.attributes) ==>
        fresh(si) && si.IsEmpty() && session.attributes == old(session.attributes)[SessionKey := si]
    {
      si := GetFromSession(session);
    }

    /** Two gets in one session answer the same object, and only the first may write. */
    method GetTwice() returns (a: SessionInfo, b: SessionInfo)
      modifies session
      ensures a == b
      ensures SessionKey in old(session.attributes) ==> session.attributes == old(session.attributes)
    {
      a := Get();
      b := Get();
    }
  }

  /** hasSessionIdentityInfo: looks the state up (creating it if absent) and asks for a token. */
  method HasSessionIdentityInfo(session: HttpSession, p: string) returns (b: bool)
    modifies session
    ensures b <==> SessionKey in old(session.attributes) && p in old(session.attributes[SessionKey].tokens)
  {
    var si := GetFromSession(session);
    b := si.HasIdentityInfo(p);
  }
}

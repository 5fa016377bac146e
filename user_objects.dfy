/**
 * The older revision's entry point to user reconciliation (IdentityOAuthXWikiObjects.updateXWikiUser
 * and findExistingUser): a user is found by its identity binding, else by its first email, and is
 * then updated; otherwise one is created.
 */
module UserObjects {
  import opened Wrappers
  import opened Text
  import opened Users

  /** A leading "XWiki." is dropped from the page name a query answers. */
  function StripSpace(user: string): (r: string)
    ensures StartsWith(user, XWikiSpace + ".") ==> user == XWikiSpace + "." + r
    ensures !StartsWith(user, XWikiSpace + ".") ==> r == user
  {
    if StartsWith(user, XWikiSpace + ".") then
      assert user == user[..6] + user[6..];
      user[6..]
    else user
  }

  /**
   * findExistingUser: the pages whose identity object holds the remote id; only when there are
   * none, the pages whose user object holds the email.
   */
  function FindExistingUser(sv: Services, remoteUserId: Option<string>, email: string): (r: seq<string>)
    ensures r != [] <==> sv.byExternalId(remoteUserId) != [] || sv.byEmail(email) != []
    ensures sv.byExternalId(remoteUserId) != [] ==> r == sv.byExternalId(remoteUserId)
    ensures sv.byExternalId(remoteUserId) == [] ==> r == sv.byEmail(email)
  {
    var bound := sv.byExternalId(remoteUserId);
    if bound == [] then sv.byEmail(email) else bound
  }

  /**
   * updateXWikiUser: without a first email the call fails before any lookup; a found user is
   * updated under the first result's name with "XWiki." stripped, and that name is answered;
   * otherwise a user is created.
   */
  method UpdateXWikiUser(wiki: UserWiki, id: Identity, sv: Services, draw: nat, jitter: nat, now: int)
    returns (r: Outcome<string>)
    requires draw < 10000000
    modifies wiki
    ensures |id.emails| == 0 ==> r == Fail(IndexOutOfBounds) && wiki.saved == old(wiki.saved) && wiki.saveLog == old(wiki.saveLog)
    ensures |id.emails| > 0 && FindExistingUser(sv, id.internalId, id.emails[0]) == [] ==>
      CreatedAs(NewUser(Older, id, sv, draw, jitter, now), r, old(wiki.saved), old(wiki.saveLog), wiki.saved, wiki.saveLog)
    ensures |id.emails| > 0 && FindExistingUser(sv, id.internalId, id.emails[0]) != [] ==>
      var name := StripSpace(FindExistingUser(sv, id.internalId, id.emails[0])[0]);
      (r.Ok? ==> r.value == name)
      && Updated(Older, name, Stored(old(wiki.saved), name), id, sv, jitter, now, Discard(r),
                 old(wiki.saved), old(wiki.saveLog), wiki.saved, wiki.saveLog)
  {
    if |id.emails| == 0 {
      return Fail(IndexOutOfBounds);
    }
    var email := id.emails[0];
    var found := FindExistingUser(sv, id.internalId, email);
    if found == [] {
      r := CreateUser(wiki, Older, id, sv, draw, jitter, now);
    } else {
      var name := StripSpace(found[0]);
      var doc := wiki.GetDocument(name);
      var updated := UpdateUser(doc, wiki, Older, id, sv, jitter, now);
      if updated.Fail? {
        return Fail(updated.error);
      }
      r := Ok(name);
    }
  }
}

/**
 * The newer revision's entry point to user reconciliation (IdentityOAuthUserProc.updateXWikiUser
 * and findExistingUser): the OIDC store's binding wins, else the emails are tried in order.
 */
module UserProc {
  import opened Wrappers
  import opened Users
  import UserObjects

  /** The result of the first email, in list order, whose query answers something; [] when none does. */
  function FirstHit(emails: seq<string>, byEmail: string -> seq<string>): seq<string> {
    if emails == [] then []
    else if byEmail(emails[0]) != [] then byEmail(emails[0])
    else FirstHit(emails[1..], byEmail)
  }

  /** Some email answers iff FirstHit does, and what it answers is the earliest such email's result. */
  lemma {:induction false} FirstHitEarliest(emails: seq<string>, byEmail: string -> seq<string>)
    ensures FirstHit(emails, byEmail) != [] <==> exists i :: 0 <= i < |emails| && byEmail(emails[i]) != []
    ensures FirstHit(emails, byEmail) != [] ==>
      exists i :: 0 <= i < |emails| && FirstHit(emails, byEmail) == byEmail(emails[i])
        && forall j :: 0 <= j < i ==> byEmail(emails[j]) == []
    decreases |emails|
  {
    if emails != [] && byEmail(emails[0]) == [] {
      var rest := emails[1..];
      FirstHitEarliest(rest, byEmail);
      assert forall i :: 0 <= i < |rest| ==> rest[i] == emails[i + 1];
      if exists i :: 0 <= i < |emails| && byEmail(emails[i]) != [] {
        var i :| 0 <= i < |emails| && byEmail(emails[i]) != [];
        assert i > 0 && byEmail(rest[i - 1]) != [];
      }
      if FirstHit(rest, byEmail) != [] {
        var i :| 0 <= i < |rest| && FirstHit(rest, byEmail) == byEmail(rest[i])
          && forall j :: 0 <= j < i ==> byEmail(rest[j]) == [];
        assert forall j :: 0 <= j < i + 1 ==> byEmail(emails[j]) == [] by {
          forall j | 0 <= j < i + 1 ensures byEmail(emails[j]) == [] {
            if j > 0 {
              assert emails[j] == rest[j - 1];
            }
          }
        }
        assert FirstHit(emails, byEmail) == byEmail(emails[i + 1]);
      }
    }
  }

  /** The page findExistingUser settles on: the OIDC store's match, else the page of the first email hit's first result. */
  function ExistingUser(id: Identity, sv: Services): Option<string> {
    var candidate := sv.oidcSearch(id.issuer, id.internalId);
    if candidate.Some? then candidate
    else
      var hit := FirstHit(id.emails, sv.byEmail);
      if hit == [] then None else Some(sv.resolve(hit[0]))
  }

  /**
   * findExistingUser: the OIDC store is asked first; otherwise the emails are queried in order
   * until one answers, and the first page of that answer is loaded.
   */
  method FindExistingUser(id: Identity, sv: Services) returns (r: Option<string>)
    ensures r == ExistingUser(id, sv)
  {
    var candidate := sv.oidcSearch(id.issuer, id.internalId);
    if candidate.Some? {
      return candidate;
    }
    var list: seq<string> := [];
    var i := 0;
    while i < |id.emails|
      invariant 0 <= i <= |id.emails|
      invariant list == [] && FirstHit(id.emails, sv.byEmail) == FirstHit(id.emails[i..], sv.byEmail)
    {
      list := sv.byEmail(id.emails[i]);
      assert id.emails[i..][0] == id.emails[i] && id.emails[i..][1..] == id.emails[i + 1..];
      assert FirstHit(id.emails[i..], sv.byEmail) == if list != [] then list else FirstHit(id.emails[i + 1..], sv.byEmail);
      if list != [] {
        break;
      }
      i := i + 1;
    }
    if list != [] {
      return Some(sv.resolve(list[0]));
    }
    return None;
  }

  /**
   * updateXWikiUser: a found page is updated and its name answered; otherwise a user is created,
   * which is where a missing first email fails.
   */
  method UpdateXWikiUser(wiki: UserWiki, id: Identity, providerHint: string, sv: Services, draw: nat, jitter: nat, now: int)
    returns (r: Outcome<string>)
    requires draw < 10000000
    modifies wiki
    ensures ExistingUser(id, sv).None? ==>
      CreatedAs(NewUser(Newer(providerHint), id, sv, draw, jitter, now), r, old(wiki.saved), old(wiki.saveLog), wiki.saved, wiki.saveLog)
    ensures ExistingUser(id, sv).Some? ==>
      var name := ExistingUser(id, sv).value;
      (r.Ok? ==> r.value == name)
      && Updated(Newer(providerHint), name, Stored(old(wiki.saved), name), id, sv, jitter, now, Discard(r),
                 old(wiki.saved), old(wiki.saveLog), wiki.saved, wiki.saveLog)
  {
    var found := FindExistingUser(id, sv);
    if found.Some? {
      var doc := wiki.GetDocument(found.value);
      var updated := UpdateUser(doc, wiki, Newer(providerHint), id, sv, jitter, now);
      if updated.Fail? {
        return Fail(updated.error);
      }
      r := Ok(doc.name);
    } else {
      r := CreateUser(wiki, Newer(providerHint), id, sv, draw, jitter, now);
    }
  }

  /**
   * The revisions disagree on a user known only by a later email: the older one, which queries
   * the first email alone, creates a new user, while the newer one finds the existing page.
   */
  lemma LaterEmailFoundOnlyByNewer(id: Identity, sv: Services)
    requires |id.emails| >= 2
    requires sv.byExternalId(id.internalId) == [] && sv.oidcSearch(id.issuer, id.internalId).None?
    requires sv.byEmail(id.emails[0]) == [] && sv.byEmail(id.emails[1]) != []
    ensures UserObjects.FindExistingUser(sv, id.internalId, id.emails[0]) == []
    ensures ExistingUser(id, sv) == Some(sv.resolve(sv.byEmail(id.emails[1])[0]))
  {
    assert id.emails[1..][0] == id.emails[1];
    assert FirstHit(id.emails[1..], sv.byEmail) == sv.byEmail(id.emails[1]);
  }
}

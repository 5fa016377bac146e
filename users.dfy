/**
 * The user reconciliation both revisions share (IdentityOAuthXWikiObjects in the older one,
 * IdentityOAuthUserProc in the newer one): the in-memory user document and its XWiki objects,
 * updateField, updateBaseFields, the identity binding, fetchUserImage, updateUser and createUser.
 * The wiki's storage is a map from user page names to saved document states plus a log of the
 * saves; queries, the provider's remote calls and the wiki's unique-name choice are inputs.
 */
module Users {
  import opened Wrappers
  import opened Text

  /** An XWiki object's string properties; a property set to null holds None. */
  type Fields = map<string, Option<string>>

  const FirstName := "first_name"
  const LastName := "last_name"
  const Email := "email"
  const Password := "password"
  const Active := "active"
  const Avatar := "avatar"
  const ExternalProviderId := "externalProviderId"
  const XWikiSpace := "XWiki"
  const MaxInt32 := 0x7fff_ffff
  const MinInt32 := -0x8000_0000

  /** BaseObject.getStringValue: "" for a missing or null property, never null. */
  function StringValue(f: Fields, field: string): string {
    if field in f && f[field].Some? then f[field].value else ""
  }

  /** updateField's test `!stored.equals(value)`: equals(null) is false, so a null value always differs. */
  predicate Differs(f: Fields, field: string, value: Option<string>) {
    value.None? || StringValue(f, field) != value.value
  }

  /** A written non-null value reads back, so writing it again reports no change; a null value reports one every time. */
  lemma WriteSettles(f: Fields, field: string, value: Option<string>)
    ensures value.Some? ==> StringValue(f[field := value], field) == value.value && !Differs(f[field := value], field, value)
    ensures value.None? ==> Differs(f, field, value) && Differs(f[field := value], field, value)
  {
  }

  /** The identity a provider describes; the issuer is read only by the newer revision. */
  datatype Identity = Identity(
    firstName: Option<string>,
    lastName: Option<string>,
    internalId: Option<string>,
    emails: seq<string>,
    issuer: Option<string>)

  /** A stored attachment: its content and its date in milliseconds. */
  datatype Attachment = Attachment(content: string, date: int)

  /** The (stream, media type, file name) triple a provider's fetchUserImage answers; a null triple is None. */
  datatype Image = Image(stream: Option<string>, mediaType: Option<string>, fileName: Option<string>)

  /** The newer revision's OIDC binding of a user document: issuer and subject. */
  datatype Binding = Binding(issuer: string, subject: Option<string>)

  /** A user document: its XWikiUsers object, its identity object, its OIDC binding and its attachments. */
  datatype DocState = DocState(
    user: Option<Fields>,
    identity: Option<Fields>,
    oidc: Option<Binding>,
    attachments: map<string, Attachment>)

  /** What getDocument answers for a page that does not exist. */
  const EmptyDoc := DocState(None, None, None, map[])

  function Stored(saved: map<string, DocState>, name: string): DocState {
    if name in saved then saved[name] else EmptyDoc
  }

  /** A call's outcome with its value dropped. */
  function Discard<T>(r: Outcome<T>): (d: Outcome<()>)
    ensures d.Ok? <==> r.Ok?
    ensures d.Fail? ==> d.error == r.error
  {
    if r.Ok? then Ok(()) else Fail(r.error)
  }

  /** Which revision reconciles, and for the newer one the provider's hint. */
  datatype Revision = Older | Newer(providerHint: string)

  /**
   * The wiki services reconciliation calls: the two user queries (by identity binding, by email),
   * the newer revision's OIDC store search, the user-name resolver, getUniquePageName, and the
   * provider's fetchUserImage and enrichUserObject for the identity and token at hand.
   */
  datatype Services = Services(
    byExternalId: Option<string> -> seq<string>,
    byEmail: string -> seq<string>,
    oidcSearch: (Option<string>, Option<string>) -> Option<string>,
    resolve: string -> string,
    uniqueName: string -> string,
    fetchImage: Option<int> -> Option<Image>,
    enrich: DocState -> bool)

  // ---------------------------------------------------------------- base fields

  /** updateBaseFields: first name, last name, then the first email; the first that differs is written and ends the chain. */
  function BaseFields(f: Fields, id: Identity): (Fields, bool) {
    if Differs(f, FirstName, id.firstName) then (f[FirstName := id.firstName], true)
    else if Differs(f, LastName, id.lastName) then (f[LastName := id.lastName], true)
    else if |id.emails| > 0 && Differs(f, Email, Some(id.emails[0])) then (f[Email := Some(id.emails[0])], true)
    else (f, false)
  }

  /**
   * A change is reported iff one of the three fields differs; at most one field is written, so a
   * differing first name leaves the last name and the email as they were; no change, no write.
   */
  lemma BaseFieldsFirstDifference(f: Fields, id: Identity)
    ensures BaseFields(f, id).1 <==>
      (Differs(f, FirstName, id.firstName) || Differs(f, LastName, id.lastName)
       || (|id.emails| > 0 && Differs(f, Email, Some(id.emails[0]))))
    ensures forall k :: k != FirstName && k != LastName && k != Email ==> StringValue(BaseFields(f, id).0, k) == StringValue(f, k)
    ensures Differs(f, FirstName, id.firstName) ==>
      StringValue(BaseFields(f, id).0, LastName) == StringValue(f, LastName)
      && StringValue(BaseFields(f, id).0, Email) == StringValue(f, Email)
    ensures !BaseFields(f, id).1 ==> BaseFields(f, id).0 == f
  {
  }

  /** The fields as the identity has them. */
  predicate InSync(f: Fields, id: Identity) {
    !Differs(f, FirstName, id.firstName) && !Differs(f, LastName, id.lastName)
    && (|id.emails| > 0 ==> !Differs(f, Email, Some(id.emails[0])))
  }

  /** A field the identity already agrees on stays agreed after a step. */
  lemma BaseFieldsKeep(f: Fields, id: Identity)
    ensures !Differs(f, FirstName, id.firstName) ==> !Differs(BaseFields(f, id).0, FirstName, id.firstName)
    ensures !Differs(f, FirstName, id.firstName) && !Differs(f, LastName, id.lastName) ==>
      !Differs(BaseFields(f, id).0, LastName, id.lastName)
    ensures id.firstName.Some? ==> !Differs(BaseFields(f, id).0, FirstName, id.firstName)
    ensures id.firstName.Some? && id.lastName.Some? && !Differs(f, FirstName, id.firstName) ==>
      !Differs(BaseFields(f, id).0, LastName, id.lastName)
    ensures InSync(f, id) ==> BaseFields(f, id) == (f, false)
  {
  }

  /**
   * With both names given, three logins bring the fields in line with the identity, and from
   * then on nothing is reported changed.
   */
  lemma BaseFieldsSettle(f: Fields, id: Identity)
    requires id.firstName.Some? && id.lastName.Some?
    ensures var f3 := BaseFields(BaseFields(BaseFields(f, id).0, id).0, id).0;
      InSync(f3, id) && !BaseFields(f3, id).1
  {
    var f1 := BaseFields(f, id).0;
    var f2 := BaseFields(f1, id).0;
    var f3 := BaseFields(f2, id).0;
    BaseFieldsKeep(f, id);
    BaseFieldsKeep(f1, id);
    BaseFieldsKeep(f2, id);
    assert !Differs(f1, FirstName, id.firstName);
    assert !Differs(f2, LastName, id.lastName);
    if |id.emails| > 0 {
      var e := Some(id.emails[0]);
      assert !Differs(f3, Email, e) by {
        if Differs(f2, Email, e) {
          assert f3 == f2[Email := e];
        } else {
          assert f3 == f2;
        }
      }
    }
    BaseFieldsKeep(f3, id);
  }

  // ---------------------------------------------------------------- identity binding

  /** getOrMakeIdentityObject: creates the identity object (always a change) or updates its externalProviderId. */
  function IdentityBinding(s: DocState, internalId: Option<string>): (r: (DocState, bool))
    ensures r.0.user == s.user && r.0.attachments == s.attachments && r.0.oidc == s.oidc
  {
    if s.identity.None? then
      var created: Fields := map[];
      var f := if Differs(created, ExternalProviderId, internalId) then created[ExternalProviderId := internalId] else created;
      (s.(identity := Some(f)), true)
    else if Differs(s.identity.value, ExternalProviderId, internalId) then
      (s.(identity := Some(s.identity.value[ExternalProviderId := internalId])), true)
    else (s, false)
  }

  /** OIDCUserStore.updateOIDCUser: records (issuer, subject) and reports whether that changed the binding. */
  function OidcBinding(s: DocState, issuer: string, subject: Option<string>): (r: (DocState, bool))
    ensures r.0.user == s.user && r.0.attachments == s.attachments && r.0.identity == s.identity
  {
    if s.oidc == Some(Binding(issuer, subject)) then (s, false) else (s.(oidc := Some(Binding(issuer, subject))), true)
  }

  /** getIssuerURL: the identity's issuer, else the provider's hint. */
  function IssuerUrl(id: Identity, providerHint: string): (r: string)
    ensures id.issuer.Some? ==> r == id.issuer.value
    ensures id.issuer.None? ==> r == providerHint
  {
    if id.issuer.Some? then id.issuer.value else providerHint
  }

  /** The binding step of updateUser in each revision. */
  function Bind(rev: Revision, s: DocState, id: Identity): (r: (DocState, bool))
    ensures r.0.user == s.user && r.0.attachments == s.attachments
    ensures !r.1 ==> r.0 == s
  {
    match rev
    case Older => IdentityBinding(s, id.internalId)
    case Newer(hint) => OidcBinding(s, IssuerUrl(id, hint), id.internalId)
  }

  /** The binding a document carries, as Bind records it. */
  predicate Bound(rev: Revision, s: DocState, id: Identity) {
    match rev
    case Older => s.identity.Some? && !Differs(s.identity.value, ExternalProviderId, id.internalId)
    case Newer(hint) => s.oidc == Some(Binding(IssuerUrl(id, hint), id.internalId))
  }

  /**
   * Bind reports a change exactly when the document is not bound yet; with a non-null id, what
   * it leaves is bound, so binding again reports nothing.
   */
  lemma BindRecords(rev: Revision, s: DocState, id: Identity)
    ensures Bind(rev, s, id).1 <==> !Bound(rev, s, id)
    ensures id.internalId.Some? ==> Bound(rev, Bind(rev, s, id).0, id) && !Bind(rev, Bind(rev, s, id).0, id).1
  {
    if rev.Older? && s.identity.None? {
      var created: Fields := map[];
      if id.internalId.Some? {
        WriteSettles(created, ExternalProviderId, id.internalId);
      }
    } else if rev.Older? && id.internalId.Some? {
      WriteSettles(s.identity.value, ExternalProviderId, id.internalId);
    }
  }

  // ---------------------------------------------------------------- avatar

  /** A Java (int) cast of a double: values outside the int range saturate. */
  function ToInt32Saturating(x: int): (r: int)
    ensures MinInt32 <= r <= MaxInt32
    ensures MinInt32 <= x <= MaxInt32 ==> r == x
    ensures x > MaxInt32 ==> r == MaxInt32
    ensures x < MinInt32 ==> r == MinInt32
  {
    if x > MaxInt32 then MaxInt32 else if x < MinInt32 then MinInt32 else x
  }

  /**
   * The date fetchUserImage hands the provider: none unless the avatar property names an
   * attachment; otherwise that attachment's date moved back by `jitter` seconds (the random part,
   * below 900) and cast to int.
   */
  function IfModifiedSince(f: Fields, attachments: map<string, Attachment>, jitter: nat): (r: Option<int>)
    ensures r.Some? <==> |StringValue(f, Avatar)| > 0 && StringValue(f, Avatar) in attachments
  {
    var name := StringValue(f, Avatar);
    if |name| > 0 && name in attachments then Some(ToInt32Saturating(attachments[name].date - 1000 * jitter)) else None
  }

  /**
   * The cast saturates: an avatar stored after 25 January 1970 (2^31 ms plus the jitter window) is
   * always announced as Integer.MAX_VALUE ms, whatever the jitter, so the date carries neither the
   * stored date nor the randomisation.
   */
  lemma JitterLost(f: Fields, attachments: map<string, Attachment>, jitter: nat)
    requires jitter < 900
    requires |StringValue(f, Avatar)| > 0 && StringValue(f, Avatar) in attachments
    requires attachments[StringValue(f, Avatar)].date >= MaxInt32 + 900000
    ensures IfModifiedSince(f, attachments, jitter) == Some(MaxInt32)
  {
  }

  /** The avatar's file name: the provider's, else one chosen by media type; any other type fails. */
  function AvatarName(image: Image): (r: Outcome<string>)
    ensures r.Fail? <==> image.fileName.None? && image.mediaType != Some("image/jpeg") && image.mediaType != Some("image/png")
    ensures r.Fail? ==> r.error == UnsupportedAvatarType
    ensures image.fileName.Some? ==> r == Ok(image.fileName.value)
    ensures image.fileName.None? && image.mediaType == Some("image/jpeg") ==> r == Ok("image.jpeg")
    ensures image.fileName.None? && image.mediaType == Some("image/png") ==> r == Ok("image.png")
  {
    if image.fileName.Some? then Ok(image.fileName.value)
    else if image.mediaType == Some("image/jpeg") then Ok("image.jpeg")
    else if image.mediaType == Some("image/png") then Ok("image.png")
    else Fail(UnsupportedAvatarType)
  }

  /** The user object and attachments after fetchUserImage, and whether it reports a change. */
  datatype AvatarUpdate = AvatarUpdate(user: Fields, attachments: map<string, Attachment>, changed: bool)

  /** fetchUserImage once the provider has answered `image`; `now` dates a new attachment. */
  function FetchImage(f: Fields, attachments: map<string, Attachment>, image: Option<Image>, now: int): Outcome<AvatarUpdate> {
    if image.None? || image.value.stream.None? then Ok(AvatarUpdate(f, attachments, false))
    else
      var name := AvatarName(image.value);
      if name.Fail? then Fail(name.error)
      else Ok(AvatarUpdate(f[Avatar := Some(name.value)], attachments[name.value := Attachment(image.value.stream.value, now)], true))
  }

  /**
   * A change is reported iff the provider sent a stream; then the avatar property names an
   * attachment holding that stream, and the next fetch sends a date unless that name is empty.
   * A stream without a name and of another type than jpeg or png fails.
   */
  lemma FetchImageOutcome(f: Fields, attachments: map<string, Attachment>, image: Option<Image>, now: int, jitter: nat)
    ensures FetchImage(f, attachments, image, now).Fail? <==>
      (image.Some? && image.value.stream.Some? && AvatarName(image.value).Fail?)
    ensures FetchImage(f, attachments, image, now).Ok? ==>
      (FetchImage(f, attachments, image, now).value.changed <==> image.Some? && image.value.stream.Some?)
    ensures FetchImage(f, attachments, image, now).Ok? && !FetchImage(f, attachments, image, now).value.changed ==>
      FetchImage(f, attachments, image, now).value == AvatarUpdate(f, attachments, false)
    ensures FetchImage(f, attachments, image, now).Ok? && FetchImage(f, attachments, image, now).value.changed ==>
      var a := FetchImage(f, attachments, image, now).value;
      var name := StringValue(a.user, Avatar);
      name == AvatarName(image.value).value
      && name in a.attachments && a.attachments[name] == Attachment(image.value.stream.value, now)
      && (|name| > 0 ==> IfModifiedSince(a.user, a.attachments, jitter).Some?)
  {
  }

  // ---------------------------------------------------------------- updateUser

  /**
   * updateUser on a document with a user object: base fields, binding, avatar, enrichment, each
   * evaluated only while no earlier step reported a change (Java's `changed || ...`).
   */
  function Update(rev: Revision, s: DocState, id: Identity, fetch: Option<int> -> Option<Image>,
                  enrich: DocState -> bool, jitter: nat, now: int): Outcome<(DocState, bool)>
    requires s.user.Some?
  {
    var base := BaseFields(s.user.value, id);
    if base.1 then Ok((s.(user := Some(base.0)), true))
    else
      var bound := Bind(rev, s, id);
      if bound.1 then Ok((bound.0, true))
      else
        var t := bound.0;
        var img := FetchImage(t.user.value, t.attachments, fetch(IfModifiedSince(t.user.value, t.attachments, jitter)), now);
        if img.Fail? then Fail(img.error)
        else if img.value.changed then Ok((t.(user := Some(img.value.user), attachments := img.value.attachments), true))
        else Ok((t, enrich(t)))
  }

  /** A base-field change skips binding, avatar and enrichment: only the user object's fields move. */
  lemma UpdateShortCircuit(rev: Revision, s: DocState, id: Identity, fetch: Option<int> -> Option<Image>,
                           enrich: DocState -> bool, jitter: nat, now: int)
    requires s.user.Some?
    requires !InSync(s.user.value, id)
    ensures var u := Update(rev, s, id, fetch, enrich, jitter, now);
      u.Ok? && u.value.1 && u.value.0.identity == s.identity && u.value.0.oidc == s.oidc
      && u.value.0.attachments == s.attachments
      && StringValue(u.value.0.user.value, Avatar) == StringValue(s.user.value, Avatar)
  {
    BaseFieldsFirstDifference(s.user.value, id);
  }

  /**
   * A provider that gives no first name makes every login report a change: the document is saved
   * each time and the binding, avatar and enrichment steps are never reached, even when the
   * stored first name was already null and nothing was altered.
   */
  lemma NullFirstNameNeverBinds(rev: Revision, s: DocState, id: Identity, fetch: Option<int> -> Option<Image>,
                                enrich: DocState -> bool, jitter: nat, now: int)
    requires s.user.Some? && id.firstName.None?
    ensures var u := Update(rev, s, id, fetch, enrich, jitter, now);
      u.Ok? && u.value.1 && u.value.0.identity == s.identity && u.value.0.oidc == s.oidc
      && u.value.0.attachments == s.attachments
      && (FirstName in s.user.value && s.user.value[FirstName].None? ==> u.value.0 == s)
  {
    var f := s.user.value;
    if FirstName in f && f[FirstName].None? {
      assert f[FirstName := None] == f;
    }
  }

  /** A document already in line with the identity, with no new avatar and nothing to enrich, is left alone. */
  lemma UpdateInSync(rev: Revision, s: DocState, id: Identity, fetch: Option<int> -> Option<Image>,
                     enrich: DocState -> bool, jitter: nat, now: int)
    requires s.user.Some? && InSync(s.user.value, id) && Bound(rev, s, id)
    requires var image := fetch(IfModifiedSince(s.user.value, s.attachments, jitter)); image.None? || image.value.stream.None?
    requires !enrich(s)
    ensures Update(rev, s, id, fetch, enrich, jitter, now) == Ok((s, false))
  {
    BaseFieldsKeep(s.user.value, id);
    BindRecords(rev, s, id);
  }

  /** A failure comes only from the avatar step and only when nothing earlier changed. */
  lemma UpdateFailsOnlyAtAvatar(rev: Revision, s: DocState, id: Identity, fetch: Option<int> -> Option<Image>,
                                enrich: DocState -> bool, jitter: nat, now: int)
    requires s.user.Some?
    ensures Update(rev, s, id, fetch, enrich, jitter, now).Fail? <==>
      (InSync(s.user.value, id) && Bound(rev, s, id)
       && FetchImage(s.user.value, s.attachments, fetch(IfModifiedSince(s.user.value, s.attachments, jitter)), now).Fail?)
    ensures Update(rev, s, id, fetch, enrich, jitter, now).Fail? ==>
      Update(rev, s, id, fetch, enrich, jitter, now).error == UnsupportedAvatarType
  {
    BaseFieldsFirstDifference(s.user.value, id);
    BindRecords(rev, s, id);
  }

  // ---------------------------------------------------------------- createUser

  /** email.substring(0, email.indexOf("@")): the text before the first '@'; without one, substring fails. */
  function LocalPart(email: string): (r: Outcome<string>)
    ensures r.Fail? <==> '@' !in email
    ensures r.Fail? ==> r.error == IndexOutOfBounds
    ensures r.Ok? ==> |r.value| < |email| && email[|r.value|] == '@' && email[..|r.value|] == r.value && '@' !in r.value
  {
    var k := IndexOf(email, "@", 0);
    IndexOfFirst(email, "@", 0);
    if k < 0 then
      assert forall j :: 0 <= j < |email| ==> email[j] != '@' by {
        forall j | 0 <= j < |email| ensures email[j] != '@' {
          assert !OccursAt(email, "@", j);
          assert email[j..j + 1] == [email[j]];
        }
      }
      Fail(IndexOutOfBounds)
    else
      assert forall j :: 0 <= j < k ==> email[j] != '@' by {
        forall j | 0 <= j < k ensures email[j] != '@' {
          assert !OccursAt(email, "@", j);
          assert email[j..j + 1] == [email[j]];
        }
      }
      assert email[k..k + 1] == "@";
      assert email[k] == '@';
      Ok(email[..k])
  }

  /** Integer.toString of 10^8 + floor(random * 10^7), `draw` being the floor. */
  function RandomPassword(draw: nat): (r: string)
    requires draw < 10000000
    ensures |r| == 9 && forall i :: 0 <= i < |r| ==> IsDigit(r[i])
    ensures 100000000 <= ParseNat(r) < 110000000 && ParseNat(r) == 100000000 + draw
  {
    assert Pow10(9) == 1000000000 && Pow10(8) == 100000000;
    NatTextLength(100000000 + draw, 9);
    ParseNatText(100000000 + draw);
    NatText(100000000 + draw)
  }

  /** The attributes handed to XWiki.createUser: names only when given, always email and password. */
  function NewUserFields(id: Identity, email: string, password: string): (f: Fields)
    ensures (FirstName in f <==> id.firstName.Some?) && (LastName in f <==> id.lastName.Some?)
    ensures StringValue(f, FirstName) == id.firstName.GetOr("") && StringValue(f, LastName) == id.lastName.GetOr("")
    ensures StringValue(f, Email) == email && StringValue(f, Password) == password
    ensures Avatar !in f && Active !in f
  {
    var names: Fields := if id.firstName.Some? then map[FirstName := id.firstName] else map[];
    var names' := if id.lastName.Some? then names[LastName := id.lastName] else names;
    names'[Email := Some(email)][Password := Some(password)]
  }

  /** The binding createUser writes: a new identity object set directly (older), or updateOIDCUser (newer). */
  function CreatedBinding(rev: Revision, s: DocState, id: Identity): (r: DocState)
    ensures r.user == s.user && r.attachments == s.attachments
    ensures rev.Older? ==> r.identity == Some(map[ExternalProviderId := id.internalId])
    ensures rev.Newer? ==> r.oidc == Some(Binding(IssuerUrl(id, rev.providerHint), id.internalId))
  {
    match rev
    case Older => s.(identity := Some(map[ExternalProviderId := id.internalId]))
    case Newer(hint) => OidcBinding(s, IssuerUrl(id, hint), id.internalId).0
  }

  /** A creation: the user name, the document XWiki.createUser saved, and the completed document or the avatar failure. */
  datatype Creation = Creation(name: string, created: DocState, completed: Outcome<DocState>)

  /** What createUser does to the page XWiki.createUser saved: the active flag, the avatar, the binding. */
  function Completed(rev: Revision, id: Identity, created: DocState, sv: Services, jitter: nat, now: int): Outcome<DocState>
    requires created.user.Some?
  {
    var f := created.user.value[Active := Some("1")];
    var img := FetchImage(f, created.attachments, sv.fetchImage(IfModifiedSince(f, created.attachments, jitter)), now);
    if img.Fail? then Fail(img.error)
    else Ok(CreatedBinding(rev, created.(user := Some(img.value.user), attachments := img.value.attachments), id))
  }

  /** createUser, as a function of its inputs. */
  function NewUser(rev: Revision, id: Identity, sv: Services, draw: nat, jitter: nat, now: int): Outcome<Creation>
    requires draw < 10000000
  {
    if |id.emails| == 0 then Fail(IndexOutOfBounds)
    else
      var local := LocalPart(id.emails[0]);
      if local.Fail? then Fail(local.error)
      else
        var created := DocState(Some(NewUserFields(id, id.emails[0], RandomPassword(draw))), None, None, map[]);
        Ok(Creation(sv.uniqueName(local.value), created, Completed(rev, id, created, sv, jitter, now)))
  }

  /**
   * createUser succeeds up to the avatar iff there is a first email holding '@'; the user is
   * named after the text before its first '@' (made unique by the wiki) and gets the names that
   * were given, that email, a nine-digit password in [10^8, 10^8 + 10^7), the active flag and the
   * binding; the provider is asked for an image without a date.
   */
  lemma NewUserContents(rev: Revision, id: Identity, sv: Services, draw: nat, jitter: nat, now: int)
    requires draw < 10000000
    ensures NewUser(rev, id, sv, draw, jitter, now).Ok? <==> |id.emails| > 0 && '@' in id.emails[0]
    ensures NewUser(rev, id, sv, draw, jitter, now).Ok? ==>
      var c := NewUser(rev, id, sv, draw, jitter, now).value;
      var email := id.emails[0];
      var f := c.created.user.value;
      var local := LocalPart(email).value;
      c.name == sv.uniqueName(local) && email == local + email[|local|..] && email[|local|] == '@' && '@' !in local
      && (FirstName in f <==> id.firstName.Some?) && (LastName in f <==> id.lastName.Some?)
      && StringValue(f, Email) == email
      && |StringValue(f, Password)| == 9 && 100000000 <= ParseNat(StringValue(f, Password)) < 110000000
      && (c.completed.Ok? ==>
            StringValue(c.completed.value.user.value, Active) == "1"
            && StringValue(c.completed.value.user.value, Email) == email
            && (id.internalId.Some? ==> Bound(rev, c.completed.value, id)))
  {
    if |id.emails| > 0 && '@' in id.emails[0] {
      var email := id.emails[0];
      var local := LocalPart(email).value;
      assert email == email[..|local|] + email[|local|..];
      var c := NewUser(rev, id, sv, draw, jitter, now).value;
      if c.completed.Ok? {
        var f := c.created.user.value[Active := Some("1")];
        var img := FetchImage(f, c.created.attachments, sv.fetchImage(IfModifiedSince(f, c.created.attachments, jitter)), now);
        assert StringValue(img.value.user, Active) == "1";
        if rev.Older? {
          var created: Fields := map[ExternalProviderId := id.internalId];
          assert StringValue(created, ExternalProviderId) == id.internalId.GetOr("");
        }
      }
    }
  }

  // ---------------------------------------------------------------- the documents

  /** The two XWiki objects updateField writes to. */
  datatype Slot = UserObject | IdentityObject

  /** A user document loaded in memory; reconciliation changes it in place before saving it. */
  class UserDocument {
    const name: string
    var user: Option<Fields>
    var identity: Option<Fields>
    var oidc: Option<Binding>
    var attachments: map<string, Attachment>

    constructor (name: string, s: DocState)
      ensures this.name == name && State() == s
    {
      this.name := name;
      user, identity, oidc, attachments := s.user, s.identity, s.oidc, s.attachments;
    }

    function State(): DocState
      reads this
    {
      DocState(user, identity, oidc, attachments)
    }

    function Object(slot: Slot): Option<Fields>
      reads this
    {
      if slot == UserObject then user else identity
    }

    /** updateField: writes and reports a change iff the stored string differs from `value`. */
    method UpdateField(slot: Slot, field: string, value: Option<string>) returns (changed: bool)
      requires Object(slot).Some?
      modifies this
      ensures changed == Differs(old(Object(slot).value), field, value)
      ensures Object(slot) == Some(if changed then old(Object(slot).value)[field := value] else old(Object(slot).value))
      ensures slot == UserObject ==> identity == old(identity)
      ensures slot == IdentityObject ==> user == old(user)
      ensures oidc == old(oidc) && attachments == old(attachments)
    {
      var f := Object(slot).value;
      changed := Differs(f, field, value);
      if changed {
        if slot == UserObject {
          user := Some(f[field := value]);
        } else {
          identity := Some(f[field := value]);
        }
      }
    }

    /** updateBaseFields. */
    method UpdateBaseFields(id: Identity) returns (changed: bool)
      requires user.Some?
      modifies this
      ensures user == Some(BaseFields(old(user.value), id).0) && changed == BaseFields(old(user.value), id).1
      ensures identity == old(identity) && oidc == old(oidc) && attachments == old(attachments)
    {
      changed := UpdateField(UserObject, FirstName, id.firstName);
      if !changed {
        changed := UpdateField(UserObject, LastName, id.lastName);
      }
      if |id.emails| > 0 && !changed {
        changed := UpdateField(UserObject, Email, Some(id.emails[0]));
      }
    }

    /** getOrMakeIdentityObject (older revision). */
    method GetOrMakeIdentityObject(internalId: Option<string>) returns (changed: bool)
      modifies this
      ensures (State(), changed) == IdentityBinding(old(State()), internalId)
    {
      if identity.None? {
        identity := Some(map[]);
        var written := UpdateField(IdentityObject, ExternalProviderId, internalId);
        changed := true;
      } else {
        changed := UpdateField(IdentityObject, ExternalProviderId, internalId);
      }
    }

    /** OIDCUserStore.updateOIDCUser (newer revision). */
    method UpdateOidcUser(issuer: string, subject: Option<string>) returns (changed: bool)
      modifies this
      ensures (State(), changed) == OidcBinding(old(State()), issuer, subject)
    {
      changed := oidc != Some(Binding(issuer, subject));
      if changed {
        oidc := Some(Binding(issuer, subject));
      }
    }

    /** The binding step of updateUser in either revision. */
    method UpdateBinding(rev: Revision, id: Identity) returns (changed: bool)
      modifies this
      ensures (State(), changed) == Bind(rev, old(State()), id)
    {
      match rev {
        case Older =>
          changed := GetOrMakeIdentityObject(id.internalId);
        case Newer(hint) =>
          changed := UpdateOidcUser(IssuerUrl(id, hint), id.internalId);
      }
    }

    /**
     * fetchUserImage: asks the provider with the date IfModifiedSince computes and, when a stream
     * comes back, names the avatar and stores the attachment; an unsupported type fails before
     * anything is written.
     */
    method FetchUserImage(fetch: Option<int> -> Option<Image>, jitter: nat, now: int) returns (r: Outcome<bool>)
      requires user.Some?
      modifies this
      ensures var a := FetchImage(old(user.value), old(attachments), fetch(IfModifiedSince(old(user.value), old(attachments), jitter)), now);
        (a.Fail? ==> r == Fail(a.error) && State() == old(State()))
        && (a.Ok? ==> r == Ok(a.value.changed) && user == Some(a.value.user) && attachments == a.value.attachments
                      && identity == old(identity) && oidc == old(oidc))
    {
      var lastModified := IfModifiedSince(user.value, attachments, jitter);
      var image := fetch(lastModified);
      if image.Some? && image.value.stream.Some? {
        var fileName := AvatarName(image.value);
        if fileName.Fail? {
          return Fail(fileName.error);
        }
        user := Some(user.value[Avatar := Some(fileName.value)]);
        attachments := attachments[fileName.value := Attachment(image.value.stream.value, now)];
        return Ok(true);
      }
      return Ok(false);
    }
  }

  /** The wiki's user pages, as saved, and the order in which pages were saved. */
  class UserWiki {
    var saved: map<string, DocState>
    var saveLog: seq<string>

    constructor (saved: map<string, DocState>)
      ensures this.saved == saved && saveLog == []
    {
      this.saved := saved;
      saveLog := [];
    }

    /** getDocument: a fresh in-memory copy of the saved page, or an empty document. */
    method GetDocument(name: string) returns (d: UserDocument)
      ensures fresh(d) && d.name == name && d.State() == Stored(saved, name)
    {
      d := new UserDocument(name, Stored(saved, name));
    }

    /** saveDocument. */
    method Save(d: UserDocument)
      modifies this
      ensures saved == old(saved)[d.name := d.State()] && saveLog == old(saveLog) + [d.name]
    {
      saved := saved[d.name := d.State()];
      saveLog := saveLog + [d.name];
    }

    /** XWiki.createUser: saves a page whose user object holds the attributes. */
    method CreateUser(name: string, attributes: Fields)
      modifies this
      ensures saved == old(saved)[name := DocState(Some(attributes), None, None, map[])] && saveLog == old(saveLog) + [name]
    {
      saved := saved[name := DocState(Some(attributes), None, None, map[])];
      saveLog := saveLog + [name];
    }
  }

  /** The wiki after updateUser on a document that was in state `s0`: saved iff a step reported a change. */
  predicate Updated(rev: Revision, name: string, s0: DocState, id: Identity, sv: Services, jitter: nat, now: int,
                    r: Outcome<()>, saved0: map<string, DocState>, log0: seq<string>,
                    saved1: map<string, DocState>, log1: seq<string>)
  {
    if s0.user.None? then r == Ok(()) && saved1 == saved0 && log1 == log0
    else
      var u := Update(rev, s0, id, sv.fetchImage, sv.enrich, jitter, now);
      if u.Fail? then r == Fail(u.error) && saved1 == saved0 && log1 == log0
      else
        (r == Ok(())
         && saved1 == (if u.value.1 then saved0[name := u.value.0] else saved0)
         && log1 == log0 + (if u.value.1 then [name] else []))
  }

  /**
   * updateUser: a document without a user object is left unsaved; otherwise the steps of Update
   * run on the document in place and the document is saved iff one reported a change.
   */
  method UpdateUser(doc: UserDocument, wiki: UserWiki, rev: Revision, id: Identity, sv: Services, jitter: nat, now: int)
    returns (r: Outcome<()>)
    modifies doc, wiki
    ensures Updated(rev, doc.name, old(doc.State()), id, sv, jitter, now, r, old(wiki.saved), old(wiki.saveLog), wiki.saved, wiki.saveLog)
  {
    if doc.user.None? {
      return Ok(());
    }
    ghost var s0 := doc.State();
    var changed := doc.UpdateBaseFields(id);
    if !changed {
      BaseFieldsFirstDifference(s0.user.value, id);
      changed := doc.UpdateBinding(rev, id);
    }
    if !changed {
      var img := doc.FetchUserImage(sv.fetchImage, jitter, now);
      if img.Fail? {
        return Fail(img.error);
      }
      changed := img.value;
    }
    if !changed {
      changed := sv.enrich(doc.State());
    }
    if changed {
      wiki.Save(doc);
    }
    return Ok(());
  }

  /** The wiki after createUser: the created page saved, then the completed one unless the avatar failed. */
  predicate CreatedAs(c: Outcome<Creation>, r: Outcome<string>, saved0: map<string, DocState>, log0: seq<string>,
                      saved1: map<string, DocState>, log1: seq<string>)
  {
    if c.Fail? then r == Fail(c.error) && saved1 == saved0 && log1 == log0
    else if c.value.completed.Fail? then
      r == Fail(c.value.completed.error) && saved1 == saved0[c.value.name := c.value.created] && log1 == log0 + [c.value.name]
    else
      r == Ok(c.value.name) && saved1 == saved0[c.value.name := c.value.completed.value]
      && log1 == log0 + [c.value.name, c.value.name]
  }

  /** The part of createUser between loading the created page and saving it again. */
  method CompleteUser(doc: UserDocument, rev: Revision, id: Identity, sv: Services, jitter: nat, now: int)
    returns (r: Outcome<()>)
    requires doc.user.Some?
    modifies doc
    ensures var c := Completed(rev, id, old(doc.State()), sv, jitter, now);
      (c.Fail? ==> r == Fail(c.error)) && (c.Ok? ==> r == Ok(()) && doc.State() == c.value)
  {
    doc.user := Some(doc.user.value[Active := Some("1")]);
    var img := doc.FetchUserImage(sv.fetchImage, jitter, now);
    if img.Fail? {
      return Fail(img.error);
    }
    match rev {
      case Older =>
        doc.identity := Some(map[ExternalProviderId := id.internalId]);
      case Newer(hint) =>
        var bound := doc.UpdateOidcUser(IssuerUrl(id, hint), id.internalId);
    }
    return Ok(());
  }

  /**
   * createUser: XWiki.createUser saves the page, which is then loaded, marked active, given its
   * avatar and its binding, and saved again.
   */
  method CreateUser(wiki: UserWiki, rev: Revision, id: Identity, sv: Services, draw: nat, jitter: nat, now: int)
    returns (r: Outcome<string>)
    requires draw < 10000000
    modifies wiki
    ensures CreatedAs(NewUser(rev, id, sv, draw, jitter, now), r, old(wiki.saved), old(wiki.saveLog), wiki.saved, wiki.saveLog)
  {
    if |id.emails| == 0 {
      return Fail(IndexOutOfBounds);
    }
    var email := id.emails[0];
    var local := LocalPart(email);
    if local.Fail? {
      return Fail(local.error);
    }
    var name := sv.uniqueName(local.value);
    var attributes := NewUserFields(id, email, RandomPassword(draw));
    wiki.CreateUser(name, attributes);
    var doc := wiki.GetDocument(name);
    var completed := CompleteUser(doc, rev, id, sv, jitter, now);
    if completed.Fail? {
      return Fail(completed.error);
    }
    wiki.Save(doc);
    return Ok(name);
  }
}

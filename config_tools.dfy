/**
 * Reading the provider configurations out of the wiki (IdentityOAuthConfigTools): the query
 * result filtered to active providers, each configuration page's properties with the blank
 * redirectUrl rule, attachments as data URLs, the login page URL, and the sorted list of
 * configurations with their providers and prepared login codes.
 */
module ConfigTools {
  import opened Wrappers
  import opened Text
  import opened Providers
  import opened Base64
  import opened LoginCode
  import opened Ordering

  /** A media type as attachments record it; the types in use hold no two consecutive dashes. */
  type MimeType = s: string | !Contains(s, "--")

  /** A property of a wiki object, read with getStringValue (which answers "" rather than null). */
  datatype Property = Property(name: string, value: string)

  /** The IdentityOAuth.OAuthProviderClass object of a provider document. */
  datatype ProviderObject = ProviderObject(
    providerHint: string,
    active: int,
    loginTemplate: string,
    orderHint: int,
    configurationObjectsPage: string)

  /**
   * A wiki document as the configuration code sees it: its reference, its syntax, its first
   * provider-configuration object, whether it holds an IdentityOAuthConfigClass object, and the
   * property lists of all its objects in the order getXObjects() lists them.
   */
  datatype Document = Document(
    reference: string,
    syntax: Syntax,
    providerObject: Option<ProviderObject>,
    hasConfigObject: bool,
    objects: seq<seq<Property>>)

  /** An attachment: its media type and content; its size is the length of the content. */
  datatype Attachment = Attachment(mimeType: MimeType, content: seq<byte>)

  /**
   * The wiki the configuration is read from: documents by name (getDocument never answers
   * null), attachments by reference (a failure is a storage exception), the names the provider
   * query answers, the URL the wiki gives for the login page and the current request's URL.
   */
  datatype Wiki = Wiki(
    document: string -> Document,
    attachment: string -> Outcome<Option<Attachment>>,
    providerPages: seq<string>,
    loginUrl: string,
    currentUrl: string)

  const MaxAttachmentSize := 2 * 1024 * 1024
  const RedirectUrlField := "redirectUrl"
  const DataUrlTooLarge := "file-size-is-too-large"

  function DataUrlPrefix(mime: string): string {
    "data:" + mime + ";base64,"
  }

  /**
   * createDataUrl: a missing attachment and an attachment over 2 MiB give a message in place of
   * the URL; otherwise the URL of section 2 of RFC 2397 carries the content in base64. The
   * encoder's line length (4 MiB) exceeds any encoding of at most 2 MiB, so the only line
   * separator is the one closing the output.
   */
  function CreateDataUrl(attachments: string -> Outcome<Option<Attachment>>, ref: string): (r: Outcome<string>)
    ensures r.Fail? <==> attachments(ref).Fail?
    ensures attachments(ref) == Ok(None) ==> r == Ok("attachment " + ref + " not found")
    ensures attachments(ref).Ok? && attachments(ref).value.Some? ==>
      var a := attachments(ref).value.value;
      if |a.content| > MaxAttachmentSize then r == Ok(DataUrlTooLarge)
      else
        var prefix := DataUrlPrefix(a.mimeType);
        r.Ok? && StartsWith(r.value, prefix) && Decode(r.value[|prefix|..]) == a.content
  {
    var a := attachments(ref);
    if a.Fail? then Fail(a.error)
    else if a.value.None? then Ok("attachment " + ref + " not found")
    else if |a.value.value.content| > MaxAttachmentSize then Ok(DataUrlTooLarge)
    else
      var url := DataUrlPrefix(a.value.value.mimeType) + EncodeChunked(a.value.value.content);
      DecodeEncodeChunked(a.value.value.content);
      assert url[|DataUrlPrefix(a.value.value.mimeType)|..] == EncodeChunked(a.value.value.content);
      Ok(url)
  }

  /** The data-URL lookup the login-code preparation uses. */
  function DataUrls(w: Wiki): string -> Outcome<string> {
    n => CreateDataUrl(w.attachment, n)
  }

  /** Two texts without `--` joined where at most one side has a dash hold no `--`. */
  lemma DashFreeConcat(a: string, b: string)
    requires DashFree(a) && DashFree(b)
    requires a == [] || b == [] || a[|a| - 1] != '-' || b[0] != '-'
    ensures DashFree(a + b)
  {
    var u := a + b;
    forall i | 0 <= i <= |u| - 2 ensures !OccursAt(u, "--", i) {
      if i + 2 <= |a| {
        assert u[i..i + 2] == a[i..i + 2];
        assert !OccursAt(a, "--", i);
      } else if i >= |a| {
        assert u[i..i + 2] == b[i - |a|..i - |a| + 2];
        assert !OccursAt(b, "--", i - |a|);
      } else {
        assert u[i] == a[|a| - 1] && u[i + 1] == b[0];
        assert u[i..i + 2][0] == u[i] && u[i..i + 2][1] == u[i + 1];
      }
    }
  }

  /** Text in which no dash follows a dash is dash-free. */
  lemma NoDash(s: string)
    requires forall i :: 0 <= i < |s| - 1 ==> s[i] != '-' || s[i + 1] != '-'
    ensures DashFree(s)
  {
    forall i | 0 <= i <= |s| - 2 ensures !OccursAt(s, "--", i) {
      assert s[i..i + 2][0] == s[i] && s[i..i + 2][1] == s[i + 1];
    }
  }

  /**
   * Every text createDataUrl answers for a name without `--` can be spliced in at a marker: the
   * name is framed by spaces, the media type by `:` and `;`, and base64 holds no dash.
   */
  lemma DataUrlSafe(attachments: string -> Outcome<Option<Attachment>>, n: string)
    requires DashFree(n) && CreateDataUrl(attachments, n).Ok?
    ensures SafeInsert(CreateDataUrl(attachments, n).value)
  {
    var a := attachments(n).value;
    if a.None? {
      NoDash("attachment ");
      NoDash(" not found");
      DashFreeConcat("attachment ", n);
      DashFreeConcat("attachment " + n, " not found");
    } else if |a.value.content| > MaxAttachmentSize {
      NoDash(DataUrlTooLarge);
    } else {
      var m := a.value.mimeType;
      var e := EncodeChunked(a.value.content);
      NoDash("data:");
      NoDash(";base64,");
      DashFreeConcat("data:", m);
      DashFreeConcat("data:" + m, ";base64,");
      EncodeAvoids(a.value.content, '-');
      assert '-' !in e;
      assert forall i :: 0 <= i < |e| ==> e[i] != '-';
      NoDash(e);
      assert DataUrlPrefix(m) == "data:" + m + ";base64,";
      DashFreeConcat(DataUrlPrefix(m), e);
      assert CreateDataUrl(attachments, n).value == DataUrlPrefix(m) + e;
    }
  }

  lemma DataUrlsSafe(w: Wiki)
    ensures SafeLookups(DataUrls(w))
  {
    forall n | DashFree(n) && DataUrls(w)(n).Ok? ensures SafeInsert(DataUrls(w)(n).value) {
      DataUrlSafe(w.attachment, n);
    }
  }

  /** `u` up to its first `?`. */
  function CutQuery(u: string): string {
    var q := IndexOf(u, "?", 0);
    if q < 0 then u else u[..q]
  }

  lemma OccursAtChar(s: string, c: char, j: int)
    requires 0 <= j < |s|
    ensures OccursAt(s, [c], j) <==> s[j] == c
  {
    assert s[j..j + 1] == [s[j]];
  }

  /** Cutting at the first `?` leaves a prefix without `?`, and text without `?` as it is. */
  lemma CutQueryPrefix(u: string)
    ensures StartsWith(u, CutQuery(u)) && '?' !in CutQuery(u)
    ensures '?' !in u ==> CutQuery(u) == u
  {
    IndexOfFirst(u, "?", 0);
    var q := IndexOf(u, "?", 0);
    forall j | 0 <= j < |u| && (q < 0 || j < q) ensures u[j] != '?' {
      OccursAtChar(u, '?', j);
    }
    if q >= 0 {
      OccursAtChar(u, '?', q);
    } else {
      assert u[..|u|] == u;
    }
  }

  /** A prefix without `?` survives the cut. */
  lemma CutQueryAppend(a: string, b: string)
    requires '?' !in a
    ensures CutQuery(a + b) == a + CutQuery(b)
  {
    var u := a + b;
    IndexOfFirst(u, "?", 0);
    IndexOfFirst(b, "?", 0);
    forall j | 0 <= j < |a| ensures !OccursAt(u, "?", j) {
      OccursAtChar(u, '?', j);
    }
    IndexOfSkip(u, "?", 0, |a|);
    IndexOfSuffix(u, "?", |a|, |a|);
    assert u[|a|..] == b;
    var q := IndexOf(b, "?", 0);
    if q >= 0 {
      assert u[..|a| + q] == a + b[..q];
    }
  }

  predicate AbsoluteHttp(u: string) {
    StartsWith(u, "http://") || StartsWith(u, "https://")
  }

  /**
   * getLoginPageUrl: the wiki's login URL made absolute against the current URL, without its
   * query. A `/`-rooted path is put behind the current URL up to the first `/` at index 8 or
   * later; when there is none, substring(0, -1) throws. Any other relative URL is replaced by
   * the current URL.
   */
  function LoginPageUrl(loginUrl: string, current: string): (r: Outcome<string>)
    ensures r.Ok? ==> '?' !in r.value
    ensures r.Fail? <==> !AbsoluteHttp(loginUrl) && StartsWith(loginUrl, "/") && IndexOf(current, "/", 8) < 0
    ensures AbsoluteHttp(loginUrl) ==> r.Ok? && StartsWith(loginUrl, r.value) && ('?' !in loginUrl ==> r.value == loginUrl)
    ensures !AbsoluteHttp(loginUrl) && !StartsWith(loginUrl, "/") ==> r.Ok? && StartsWith(current, r.value)
  {
    var u :=
      if AbsoluteHttp(loginUrl) then Ok(loginUrl)
      else if StartsWith(loginUrl, "/") then
        var k := IndexOf(current, "/", 8);
        if k < 0 then Fail(IndexOutOfBounds) else Ok(current[..k] + loginUrl)
      else Ok(current);
    if u.Fail? then Fail(u.error)
    else
      CutQueryPrefix(u.value);
      Ok(CutQuery(u.value))
  }

  /**
   * For a `/`-rooted path: the result is the current URL's scheme and authority (up to the
   * first `/` from index 8 on) followed by the path without its query.
   */
  lemma LoginPageRooted(loginUrl: string, current: string)
    requires !AbsoluteHttp(loginUrl) && StartsWith(loginUrl, "/") && LoginPageUrl(loginUrl, current).Ok?
    requires '?' !in current
    ensures var k := IndexOf(current, "/", 8);
      8 <= k < |current| && '/' !in current[8..k]
      && LoginPageUrl(loginUrl, current) == Ok(current[..k] + CutQuery(loginUrl))
  {
    var k := IndexOf(current, "/", 8);
    IndexOfFirst(current, "/", 8);
    forall j | 8 <= j < k ensures current[j] != '/' {
      OccursAtChar(current, '/', j);
    }
    assert '?' !in current[..k];
    CutQueryAppend(current[..k], loginUrl);
  }

  /** A configuration property's stored value: a blank redirectUrl takes the login page URL when the rule applies. */
  function Entry(p: Property, loginPage: Option<Outcome<string>>): Outcome<string> {
    if loginPage.Some? && p.name == RedirectUrlField && BlankAfterTrim(p.value) then loginPage.value
    else Ok(p.value)
  }

  /** The properties of a list of objects, in order. */
  function Flatten(objects: seq<seq<Property>>): seq<Property> {
    if objects == [] then [] else Flatten(objects[..|objects| - 1]) + objects[|objects| - 1]
  }

  lemma {:induction false} FlattenAppend(a: seq<seq<Property>>, b: seq<seq<Property>>)
    ensures Flatten(a + b) == Flatten(a) + Flatten(b)
    decreases |b|
  {
    if b == [] {
      assert a + b == a;
    } else {
      assert (a + b)[..|a + b| - 1] == a + b[..|b| - 1];
      FlattenAppend(a, b[..|b| - 1]);
    }
  }

  /**
   * readConfigurationMap: the property map built by putting every property in turn, so a later
   * property overwrites an earlier one of the same name. `loginPage` is the login page URL when
   * the blank-redirectUrl rule applies, None where it does not.
   */
  function ConfigMap(props: seq<Property>, loginPage: Option<Outcome<string>>): Outcome<map<string, string>> {
    if props == [] then Ok(map[])
    else
      var m := ConfigMap(props[..|props| - 1], loginPage);
      var v := Entry(props[|props| - 1], loginPage);
      if m.Fail? then m
      else if v.Fail? then Fail(v.error)
      else Ok(m.value[props[|props| - 1].name := v.value])
  }

  lemma {:induction false} ConfigMapFailed(a: seq<Property>, b: seq<Property>, loginPage: Option<Outcome<string>>)
    requires ConfigMap(a, loginPage).Fail?
    ensures ConfigMap(a + b, loginPage) == ConfigMap(a, loginPage)
    decreases |b|
  {
    if b == [] {
      assert a + b == a;
    } else {
      assert (a + b)[..|a + b| - 1] == a + b[..|b| - 1];
      ConfigMapFailed(a, b[..|b| - 1], loginPage);
    }
  }

  /**
   * The map holds exactly the names of the properties, each with the stored value of the last
   * property of that name.
   */
  lemma {:induction false} ConfigMapLast(props: seq<Property>, loginPage: Option<Outcome<string>>, k: string)
    requires ConfigMap(props, loginPage).Ok?
    ensures k in ConfigMap(props, loginPage).value <==> exists i :: 0 <= i < |props| && props[i].name == k
    ensures k in ConfigMap(props, loginPage).value ==>
      exists i :: 0 <= i < |props| && props[i].name == k && Entry(props[i], loginPage) == Ok(ConfigMap(props, loginPage).value[k])
        && forall j :: i < j < |props| ==> props[j].name != k
    decreases |props|
  {
    if props != [] {
      var n := |props| - 1;
      var init := props[..n];
      ConfigMapLast(init, loginPage, k);
      var m := ConfigMap(props, loginPage).value;
      if props[n].name == k {
        assert Entry(props[n], loginPage) == Ok(m[k]);
      } else {
        assert forall i :: 0 <= i < n ==> init[i] == props[i];
        if k in m {
          var i :| 0 <= i < n && init[i].name == k && Entry(init[i], loginPage) == Ok(ConfigMap(init, loginPage).value[k])
            && forall j :: i < j < n ==> init[j].name != k;
          assert forall j :: i < j < |props| ==> props[j].name != k;
        }
      }
    }
  }

  /** With a usable login page URL, the redirectUrl a configuration ends up with is never blank. */
  lemma RedirectUrlNotBlank(props: seq<Property>, u: string)
    requires !BlankAfterTrim(u) && ConfigMap(props, Some(Ok(u))).Ok?
    requires RedirectUrlField in ConfigMap(props, Some(Ok(u))).value
    ensures !BlankAfterTrim(ConfigMap(props, Some(Ok(u))).value[RedirectUrlField])
  {
    ConfigMapLast(props, Some(Ok(u)), RedirectUrlField);
  }

  /** Putting one more property. */
  lemma ConfigMapSnoc(a: seq<Property>, p: Property, loginPage: Option<Outcome<string>>)
    ensures ConfigMap(a + [p], loginPage) ==
      if ConfigMap(a, loginPage).Fail? then ConfigMap(a, loginPage)
      else if Entry(p, loginPage).Fail? then Fail(Entry(p, loginPage).error)
      else Ok(ConfigMap(a, loginPage).value[p.name := Entry(p, loginPage).value])
  {
    assert (a + [p])[..|a|] == a;
  }

  /** The properties of the first `i + 1` objects. */
  lemma FlattenPrefix(objects: seq<seq<Property>>, i: nat)
    requires i < |objects|
    ensures Flatten(objects[..i + 1]) == Flatten(objects[..i]) + objects[i]
  {
    assert objects[..i + 1][..i] == objects[..i];
  }

  /** Putting the `j`-th property of `obj`, and stopping at a failure. */
  lemma PutStep(done: seq<Property>, obj: seq<Property>, j: nat, loginPage: Option<Outcome<string>>)
    requires j < |obj|
    ensures var before := ConfigMap(done + obj[..j], loginPage);
      var e := Entry(obj[j], loginPage);
      ConfigMap(done + obj[..j + 1], loginPage) ==
        if before.Fail? then before else if e.Fail? then Fail(e.error) else Ok(before.value[obj[j].name := e.value])
    ensures ConfigMap(done + obj[..j + 1], loginPage).Fail? ==>
      ConfigMap(done + obj, loginPage) == ConfigMap(done + obj[..j + 1], loginPage)
  {
    assert done + obj[..j + 1] == (done + obj[..j]) + [obj[j]];
    ConfigMapSnoc(done + obj[..j], obj[j], loginPage);
    if ConfigMap(done + obj[..j + 1], loginPage).Fail? {
      ConfigMapFailed(done + obj[..j + 1], obj[j + 1..], loginPage);
      assert (done + obj[..j + 1]) + obj[j + 1..] == done + obj;
    }
  }

  /** The inner loop of readConfigurationMap: the properties of one object put in turn. */
  method PutProperties(done: seq<Property>, obj: seq<Property>, m0: map<string, string>,
                       loginPage: Option<Outcome<string>>) returns (r: Outcome<map<string, string>>)
    requires ConfigMap(done, loginPage) == Ok(m0)
    ensures r == ConfigMap(done + obj, loginPage)
  {
    var m := m0;
    var j := 0;
    assert done + obj[..0] == done;
    while j < |obj|
      invariant 0 <= j <= |obj|
      invariant ConfigMap(done + obj[..j], loginPage) == Ok(m)
    {
      var name := obj[j].name;
      var value := obj[j].value;
      PutStep(done, obj, j, loginPage);
      if loginPage.Some? && name == RedirectUrlField && BlankAfterTrim(value) {
        if loginPage.value.Fail? {
          return Fail(loginPage.value.error);
        }
        value := loginPage.value.value;
      }
      m := m[name := value];
      j := j + 1;
    }
    assert obj[..|obj|] == obj;
    return Ok(m);
  }

  /** The loop of readConfigurationMap over the configuration page's objects and their properties. */
  method ReadConfigurationMap(doc: Document, loginPage: Option<Outcome<string>>) returns (r: Outcome<map<string, string>>)
    ensures r == ConfigMap(Flatten(doc.objects), loginPage)
  {
    var m: map<string, string> := map[];
    var i := 0;
    while i < |doc.objects|
      invariant 0 <= i <= |doc.objects|
      invariant ConfigMap(Flatten(doc.objects[..i]), loginPage) == Ok(m)
    {
      var next := PutProperties(Flatten(doc.objects[..i]), doc.objects[i], m, loginPage);
      FlattenPrefix(doc.objects, i);
      if next.Fail? {
        ConfigMapFailed(Flatten(doc.objects[..i + 1]), Flatten(doc.objects[i + 1..]), loginPage);
        FlattenAppend(doc.objects[..i + 1], doc.objects[i + 1..]);
        assert doc.objects[..i + 1] + doc.objects[i + 1..] == doc.objects;
        return next;
      }
      m := next.value;
      i := i + 1;
    }
    assert doc.objects[..|doc.objects|] == doc.objects;
    return Ok(m);
  }

  /** The configuration a provider object describes; provider and prepared code come later. */
  function ConfigOf(doc: Document, o: ProviderObject, config: map<string, string>): ProviderConfig {
    ProviderConfig(o.providerHint, o.loginTemplate, doc.syntax, "configPage", o.orderHint, config, None, None)
  }

  /**
   * One query result: a document without a provider object fails (getIntValue on null), an
   * inactive one gives nothing, an active one the configuration read from its configuration page.
   */
  function LoadOne(w: Wiki, name: string, loginPage: Option<Outcome<string>>): Outcome<Option<ProviderConfig>> {
    var doc := w.document(name);
    if doc.providerObject.None? then Fail(NullValue)
    else
      var o := doc.providerObject.value;
      if o.active == 0 then Ok(None)
      else
        var m := ConfigMap(Flatten(w.document(o.configurationObjectsPage).objects), loginPage);
        if m.Fail? then Fail(m.error) else Ok(Some(ConfigOf(doc, o, m.value)))
  }

  /** The configuration page an active provider object names; it is recorded before the page is read. */
  function PageOf(w: Wiki, name: string): set<string> {
    var doc := w.document(name);
    if doc.providerObject.Some? && doc.providerObject.value.active != 0 then {doc.providerObject.value.configurationObjectsPage}
    else {}
  }

  /** loadProviderConfigs over the query's results: the configurations of the active providers, in query order. */
  function LoadAll(w: Wiki, names: seq<string>, loginPage: Option<Outcome<string>>): Outcome<seq<ProviderConfig>> {
    if names == [] then Ok([])
    else
      var prev := LoadAll(w, names[..|names| - 1], loginPage);
      var c := LoadOne(w, names[|names| - 1], loginPage);
      if prev.Fail? then prev
      else if c.Fail? then Fail(c.error)
      else if c.value.None? then prev
      else Ok(prev.value + [c.value.value])
  }

  function PagesOf(w: Wiki, names: seq<string>): set<string> {
    if names == [] then {} else PagesOf(w, names[..|names| - 1]) + PageOf(w, names[|names| - 1])
  }

  lemma {:induction false} LoadAllFailed(w: Wiki, a: seq<string>, b: seq<string>, loginPage: Option<Outcome<string>>)
    requires LoadAll(w, a, loginPage).Fail?
    ensures LoadAll(w, a + b, loginPage) == LoadAll(w, a, loginPage)
    decreases |b|
  {
    if b == [] {
      assert a + b == a;
    } else {
      assert (a + b)[..|a + b| - 1] == a + b[..|b| - 1];
      LoadAllFailed(w, a, b[..|b| - 1], loginPage);
    }
  }

  /**
   * Only active providers are kept: the loaded configurations are exactly those of the query
   * results whose provider object is active, and none is dropped.
   */
  lemma {:induction false} LoadAllActive(w: Wiki, names: seq<string>, loginPage: Option<Outcome<string>>, c: ProviderConfig)
    requires LoadAll(w, names, loginPage).Ok?
    ensures c in LoadAll(w, names, loginPage).value <==> exists i :: 0 <= i < |names| && LoadOne(w, names[i], loginPage) == Ok(Some(c))
    ensures forall i :: 0 <= i < |names| ==> LoadOne(w, names[i], loginPage).Ok?
    decreases |names|
  {
    if names != [] {
      var n := |names| - 1;
      LoadAllActive(w, names[..n], loginPage, c);
      assert forall i :: 0 <= i < n ==> names[..n][i] == names[i];
    }
  }

  /** The recorded configuration pages are exactly those of the active provider objects. */
  lemma {:induction false} PagesOfActive(w: Wiki, names: seq<string>, p: string)
    ensures p in PagesOf(w, names) <==>
      exists i :: 0 <= i < |names| && w.document(names[i]).providerObject.Some?
        && w.document(names[i]).providerObject.value.active != 0
        && w.document(names[i]).providerObject.value.configurationObjectsPage == p
    decreases |names|
  {
    if names != [] {
      var n := |names| - 1;
      PagesOfActive(w, names[..n], p);
      assert forall i :: 0 <= i < n ==> names[..n][i] == names[i];
    }
  }

  /**
   * The loop of loadProviderConfigs: the configurations in query order and the configuration
   * pages recorded on the way. On a failure the pages recorded so far stay recorded.
   */
  method CollectConfigs(w: Wiki, loginPage: Option<Outcome<string>>) returns (r: Outcome<seq<ProviderConfig>>, pages: set<string>)
    ensures r == LoadAll(w, w.providerPages, loginPage)
    ensures r.Ok? ==> pages == PagesOf(w, w.providerPages)
    ensures r.Fail? ==> exists k :: 0 < k <= |w.providerPages| && pages == PagesOf(w, w.providerPages[..k])
  {
    var names := w.providerPages;
    var configs: seq<ProviderConfig> := [];
    pages := {};
    var i := 0;
    while i < |names|
      invariant 0 <= i <= |names|
      invariant LoadAll(w, names[..i], loginPage) == Ok(configs)
      invariant pages == PagesOf(w, names[..i])
    {
      var doc := w.document(names[i]);
      assert names[..i + 1][..i] == names[..i];
      assert names[..i + 1][i] == names[i];
      if doc.providerObject.None? {
        LoadAllFailed(w, names[..i + 1], names[i + 1..], loginPage);
        assert names[..i + 1] + names[i + 1..] == names;
        return Fail(NullValue), pages;
      }
      var o := doc.providerObject.value;
      if o.active != 0 {
        pages := pages + {o.configurationObjectsPage};
        var m := ReadConfigurationMap(w.document(o.configurationObjectsPage), loginPage);
        if m.Fail? {
          LoadAllFailed(w, names[..i + 1], names[i + 1..], loginPage);
          assert names[..i + 1] + names[i + 1..] == names;
          return Fail(m.error), pages;
        }
        configs := configs + [ConfigOf(doc, o, m.value)];
      }
      i := i + 1;
    }
    assert names[..|names|] == names;
    return Ok(configs), pages;
  }

  /**
   * A loaded configuration after the provider step of loadAndRebuildProviders: the provider is
   * set once looking it up and initialising it succeeded, the prepared code once preparing the
   * login code succeeded as well; a failure leaves the rest as it was.
   */
  function Prepare(c: ProviderConfig, instantiate: ProviderConfig -> Outcome<Provider>,
                   dataUrl: string -> Outcome<string>): ProviderConfig
  {
    var p := instantiate(c);
    if p.Fail? then c
    else
      var code := PrepareLoginCode(c.loginCode, c.name, dataUrl);
      c.(provider := Some(p.value), preparedLoginCode := if code.Ok? then Some(code.value) else c.preparedLoginCode)
  }

  function PrepareAll(cs: seq<ProviderConfig>, instantiate: ProviderConfig -> Outcome<Provider>,
                      dataUrl: string -> Outcome<string>): seq<ProviderConfig>
  {
    seq(|cs|, i requires 0 <= i < |cs| => Prepare(cs[i], instantiate, dataUrl))
  }

  /**
   * The body of loadAndRebuildProviders' loop: the provider is made and stored in the
   * configuration, then the login code is prepared and stored; a failing step keeps the rest.
   */
  method PrepareConfig(c: ProviderConfig, instantiate: ProviderConfig -> Outcome<Provider>,
                       dataUrl: string -> Outcome<string>) returns (r: ProviderConfig)
    requires SafeLookups(dataUrl)
    ensures r == Prepare(c, instantiate, dataUrl)
  {
    r := c;
    var pr := instantiate(c);
    if pr.Ok? {
      r := r.(provider := Some(pr.value));
      var loginCode := ExpandImageMarkers(r.loginCode, dataUrl);
      if loginCode.Ok? {
        var prepared := RegexReplaceAll(loginCode.value, ProviderPlaceholder, r.name);
        if prepared.Ok? {
          r := r.(preparedLoginCode := Some(prepared.value));
        }
      }
    }
  }

  /** A configuration as loaded, before any provider is attached. */
  function Strip(c: ProviderConfig): ProviderConfig {
    c.(provider := None, preparedLoginCode := None)
  }

  /**
   * loadAndRebuildProviders keeps every loaded configuration, sorted stably by orderHint:
   * stripped of what the provider step adds, the result is the sorted list; a configuration
   * whose provider failed has none.
   */
  lemma PrepareAllKeeps(cs: seq<ProviderConfig>, instantiate: ProviderConfig -> Outcome<Provider>,
                        dataUrl: string -> Outcome<string>)
    requires forall i :: 0 <= i < |cs| ==> cs[i].provider.None? && cs[i].preparedLoginCode.None?
    ensures var r := PrepareAll(SortByHint(cs), instantiate, dataUrl);
      |r| == |cs| && SortedByHint(r)
      && multiset(seq(|r|, i requires 0 <= i < |r| => Strip(r[i]))) == multiset(cs)
      && forall i :: 0 <= i < |r| ==> (r[i].provider.None? <==> instantiate(SortByHint(cs)[i]).Fail?)
  {
    var s := SortByHint(cs);
    SortSortedPermutation(cs);
    assert |s| == |cs| by {
      assert |multiset(s)| == |multiset(cs)|;
    }
    forall i | 0 <= i < |s| ensures s[i].provider.None? && s[i].preparedLoginCode.None? {
      assert s[i] in multiset(cs);
    }
    PrepareAllStrips(s, instantiate, dataUrl);
  }

  /** On configurations without a provider, preparing keeps the order and changes nothing a strip removes. */
  lemma PrepareAllStrips(s: seq<ProviderConfig>, instantiate: ProviderConfig -> Outcome<Provider>,
                         dataUrl: string -> Outcome<string>)
    requires forall i :: 0 <= i < |s| ==> s[i].provider.None? && s[i].preparedLoginCode.None?
    requires SortedByHint(s)
    ensures var r := PrepareAll(s, instantiate, dataUrl);
      |r| == |s| && SortedByHint(r)
      && seq(|r|, i requires 0 <= i < |r| => Strip(r[i])) == s
      && forall i :: 0 <= i < |r| ==> (r[i].provider.None? <==> instantiate(s[i]).Fail?)
  {
    var r := PrepareAll(s, instantiate, dataUrl);
    forall i, j | 0 <= i < j < |r| ensures r[i].orderHint <= r[j].orderHint {
      assert r[i].orderHint == s[i].orderHint && r[j].orderHint == s[j].orderHint;
    }
  }

  /**
   * IdentityOAuthConfigTools: the one piece of state is the set of configuration pages read at
   * the last load, which lets document events be recognised as configuration changes.
   */
  class ConfigTools {
    var configDocReferences: set<string>

    constructor ()
      ensures configDocReferences == {}
    {
      configDocReferences := {};
    }

    /** hasIOConfigObject: a recorded configuration page, or a document with a provider or configuration object. */
    predicate HasIOConfigObject(doc: Document)
      reads this
    {
      doc.reference in configDocReferences || doc.providerObject.Some? || doc.hasConfigObject
    }

    /**
     * loadProviderConfigs: the active configurations in query order, with the blank-redirectUrl
     * rule; the recorded pages are replaced by the active providers' configuration pages read up
     * to the end or up to the failure.
     */
    method LoadProviderConfigs(w: Wiki) returns (r: Outcome<seq<ProviderConfig>>)
      modifies this
      ensures r == LoadAll(w, w.providerPages, Some(LoginPageUrl(w.loginUrl, w.currentUrl)))
      ensures r.Ok? ==> configDocReferences == PagesOf(w, w.providerPages)
      ensures r.Fail? ==> exists k :: 0 < k <= |w.providerPages| && configDocReferences == PagesOf(w, w.providerPages[..k])
      ensures r.Ok? ==> forall c :: c in r.value ==> c.provider.None? && c.preparedLoginCode.None?
    {
      var pages;
      r, pages := CollectConfigs(w, Some(LoginPageUrl(w.loginUrl, w.currentUrl)));
      configDocReferences := pages;
      if r.Ok? {
        forall c | c in r.value ensures c.provider.None? && c.preparedLoginCode.None? {
          LoadAllActive(w, w.providerPages, Some(LoginPageUrl(w.loginUrl, w.currentUrl)), c);
        }
      }
    }

    /**
     * loadAndRebuildProviders: the loaded configurations sorted by orderHint, each given its
     * provider and prepared login code where these could be made.
     */
    method LoadAndRebuildProviders(w: Wiki, instantiate: ProviderConfig -> Outcome<Provider>) returns (r: Outcome<seq<ProviderConfig>>)
      modifies this
      ensures var loaded := LoadAll(w, w.providerPages, Some(LoginPageUrl(w.loginUrl, w.currentUrl)));
        (r.Fail? <==> loaded.Fail?)
        && (r.Ok? ==> r.value == PrepareAll(SortByHint(loaded.value), instantiate, DataUrls(w)))
      ensures r.Ok? ==> configDocReferences == PagesOf(w, w.providerPages)
      ensures r.Fail? ==> exists k :: 0 < k <= |w.providerPages| && configDocReferences == PagesOf(w, w.providerPages[..k])
    {
      var loaded := LoadProviderConfigs(w);
      if loaded.Fail? {
        return Fail(loaded.error);
      }
      var sorted := SortByHint(loaded.value);
      var configs := sorted;
      DataUrlsSafe(w);
      var i := 0;
      while i < |configs|
        invariant 0 <= i <= |configs| == |sorted|
        invariant configDocReferences == PagesOf(w, w.providerPages)
        invariant forall j :: 0 <= j < i ==> configs[j] == Prepare(sorted[j], instantiate, DataUrls(w))
        invariant forall j :: i <= j < |configs| ==> configs[j] == sorted[j]
      {
        var config := PrepareConfig(configs[i], instantiate, DataUrls(w));
        configs := configs[i := config];
        i := i + 1;
      }
      return Ok(configs);
    }
  }
}

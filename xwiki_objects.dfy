/**
 * The older revision's wiki access (IdentityOAuthXWikiObjects): the provider configurations
 * read from the wiki, without the blank-redirectUrl rule of the newer revision, and the set of
 * configuration pages recorded on the way.
 */
module XWikiObjects {
  import opened Wrappers
  import opened Providers
  import opened ConfigTools

  class XWikiObjects {
    var configDocReferences: set<string>

    constructor ()
      ensures configDocReferences == {}
    {
      configDocReferences := {};
    }

    /**
     * hasIOConfigObject: a recorded configuration page, or a document holding a provider object.
     * Unlike the newer revision, a configuration object alone does not count.
     */
    predicate HasIOConfigObject(doc: Document)
      reads this
    {
      doc.reference in configDocReferences || doc.providerObject.Some?
    }

    /**
     * loadProviderConfigs: the active configurations in query order, each property copied as
     * stored; the recorded pages are replaced by the pages read up to the end or up to the
     * failure.
     */
    method LoadProviderConfigs(w: Wiki) returns (r: Outcome<seq<ProviderConfig>>)
      modifies this
      ensures r == LoadAll(w, w.providerPages, None)
      ensures r.Ok? ==> configDocReferences == PagesOf(w, w.providerPages)
      ensures r.Fail? ==> exists k :: 0 < k <= |w.providerPages| && configDocReferences == PagesOf(w, w.providerPages[..k])
      ensures r.Ok? ==> forall c :: c in r.value ==> c.provider.None? && c.preparedLoginCode.None?
    {
      var pages;
      r, pages := CollectConfigs(w, None);
      configDocReferences := pages;
      if r.Ok? {
        forall c | c in r.value ensures c.provider.None? && c.preparedLoginCode.None? {
          LoadAllActive(w, w.providerPages, None, c);
        }
      }
    }
  }

  /** Without the blank-redirectUrl rule, every property is stored as read and reading never fails. */
  lemma ConfigMapVerbatim(props: seq<Property>, k: string)
    ensures ConfigMap(props, None).Ok?
    ensures k in ConfigMap(props, None).value <==> exists i :: 0 <= i < |props| && props[i].name == k
    ensures k in ConfigMap(props, None).value ==>
      exists i :: 0 <= i < |props| && props[i] == Property(k, ConfigMap(props, None).value[k])
        && forall j :: i < j < |props| ==> props[j].name != k
  {
    ConfigMapNeverFails(props);
    ConfigMapLast(props, None, k);
  }

  lemma {:induction false} ConfigMapNeverFails(props: seq<Property>)
    ensures ConfigMap(props, None).Ok?
    decreases |props|
  {
    if props != [] {
      ConfigMapNeverFails(props[..|props| - 1]);
    }
  }
}

/**
 * The namespaces the Multus admission controller leaves alone: the names of
 * the cluster-monitoring namespaces, joined with ",", fetched by the first
 * render that finds the cached list empty.
 */
module Namespaces {
  import opened StatusErrors
  import opened CommaLists

  datatype Namespace = Namespace(name: string)

  /** The outcome of listing the cluster-monitoring namespaces through the cluster client. */
  datatype NamespaceListing = Listed(items: seq<Namespace>) | ListFailed(error: Error)

  /** The message a failed listing is wrapped with. */
  const ListFailureMessage: string := "failed to get namespaces to render multus admission controller manifests"

  /** The names of the listed namespaces, in list order. */
  function Names(items: seq<Namespace>): (names: seq<string>)
    ensures |names| == |items|
    ensures forall k :: 0 <= k < |items| ==> names[k] == items[k].name
  {
    seq(|items|, k requires 0 <= k < |items| => items[k].name)
  }

  /**
   * The listed namespace names joined with ","; a failed listing gives ""
   * and the listing's error wrapped with ListFailureMessage.
   */
  method GetOpenshiftNamespaces(listing: NamespaceListing) returns (joined: string, err: Option<Error>)
    ensures listing.ListFailed? ==> joined == "" && err == Wrap(Some(listing.error), ListFailureMessage)
    ensures listing.Listed? ==> err.None? && joined == Join(Names(listing.items))
  {
    var namespaces: seq<string> := [];

    if listing.ListFailed? {
      return "", Wrap(Some(listing.error), ListFailureMessage);
    }

    var items := listing.items;
    for i := 0 to |items|
      invariant |namespaces| == i
      invariant forall k :: 0 <= k < i ==> namespaces[k] == items[k].name
    {
      namespaces := namespaces + [items[i].name];
    }
    assert namespaces == Names(items);
    return Join(namespaces), None;
  }

  /**
   * A failed listing keeps its classification through the wrapping: a
   * not-found listing error is still not-found, any other is still not.
   */
  lemma ListFailureKeepsClassification(listError: Error)
    ensures IsNotFound(Wrap(Some(listError), ListFailureMessage)) == IsNotFound(Some(listError))
  {
  }

  /** The joined list reads back as the listed names, in order, when at least one comma-free name was listed. */
  lemma JoinedNamesReadBack(items: seq<Namespace>)
    requires |items| >= 1
    requires forall k :: 0 <= k < |items| ==> CommaFree(items[k].name)
    ensures Split(Join(Names(items))) == Names(items)
  {
    SplitJoin(Names(items));
  }

  /**
   * When every listed namespace has a name, a successful fetch leaves the
   * cache empty (to be fetched again) exactly when nothing was listed.
   */
  lemma FilledUnlessNothingListed(items: seq<Namespace>)
    requires forall k :: 0 <= k < |items| ==> items[k].name != ""
    ensures Join(Names(items)) == "" <==> items == []
  {
  }

  /**
   * The package-level cache of the ignored-namespace list. It starts empty,
   * is filled by the first render that finds it empty, and is fetched again
   * while it stays empty.
   */
  class IgnoredNamespacesCache {
    var ignoredNamespaces: string

    constructor ()
      ensures ignoredNamespaces == ""
    {
      ignoredNamespaces := "";
    }

    /**
     * The cache step of one render: fetch only when the cache is empty, keep
     * what the fetch returned (which is "" when it failed), and hand the
     * cached value to the template as IgnoredNamespace. `listing` is what the
     * cluster would answer if asked; `fetched` says whether it was asked.
     */
    method ResolveIgnoredNamespace(listing: NamespaceListing) returns (ignoredNamespace: string, fetched: bool)
      modifies this
      ensures fetched <==> old(ignoredNamespaces) == ""
      ensures !fetched ==> ignoredNamespaces == old(ignoredNamespaces)
      ensures fetched && listing.Listed? ==> ignoredNamespaces == Join(Names(listing.items))
      ensures fetched && listing.ListFailed? ==> ignoredNamespaces == ""
      ensures ignoredNamespace == ignoredNamespaces
    {
      fetched := false;
      if ignoredNamespaces == "" {
        var err;
        ignoredNamespaces, err := GetOpenshiftNamespaces(listing);
        fetched := true;
      }
      ignoredNamespace := ignoredNamespaces;
    }
  }

  /**
   * Successive renders: a failed fetch is retried on the next render, and
   * once a non-empty list is cached no later render fetches again.
   */
  method CacheRetriesUntilFilled(failure: Error, first: Namespace, second: Namespace)
    requires first.name != ""
  {
    var cache := new IgnoredNamespacesCache();
    var value, fetched := cache.ResolveIgnoredNamespace(ListFailed(failure));
    assert fetched && value == "";

    value, fetched := cache.ResolveIgnoredNamespace(Listed([first]));
    assert fetched && value == first.name;

    value, fetched := cache.ResolveIgnoredNamespace(Listed([first, second]));
    assert !fetched && value == first.name;
  }

  /** An empty listing leaves the cache empty, so the next render fetches again. */
  method EmptyListingIsFetchedAgain(items: seq<Namespace>)
  {
    var cache := new IgnoredNamespacesCache();
    var value, fetched := cache.ResolveIgnoredNamespace(Listed([]));
    assert fetched && value == "";
    value, fetched := cache.ResolveIgnoredNamespace(Listed(items));
    assert fetched;
  }
}

/** The list controller every list screen re-implements: the last-fetched collection, the
    filtered list derived from it, the search term and the 1-based current page.

    React runs a screen in two phases, and the model keeps them apart. A handler (the fetch
    completion, the search box's onChange, a pagination click) calls state setters; after the
    re-render, the filter effect runs if one of its dependencies changed since its last run:
    the search term (compared by value) or the collection (compared by identity: every
    successful fetch stores a fresh array, modelled by a version counter). The effect
    recomputes the filtered list and resets the page to 1. */
module ListView {
  import opened Paging
  import opened Filtering

  /** The outcome of a list fetch: the parsed body of a 2xx response, or any failure (network
      error, non-2xx status, unparsable body), which the screens only log. */
  datatype FetchResult<T> = Fetched(data: seq<T>) | FetchFailed

  class ListController<T(==)> {
    /** The screen's searchable fields, as it lower-cases them. */
    const haystacks: T -> seq<string>

    var collection: seq<T>
    var filtered: seq<T>
    var searchTerm: string
    var currentPage: int

    /** Identity of the collection array: bumped by every successful fetch. */
    var collectionVersion: nat
    /** The dependencies the filter effect saw when it last ran. */
    var effectTerm: string
    var effectVersion: nat

    /** The filter effect has seen the current term and collection: the screen is at rest. */
    predicate Settled()
      reads this
    {
      effectTerm == searchTerm && effectVersion == collectionVersion
    }

    /** While the effect has seen the current collection, the filtered list is that collection
        filtered by the term the effect saw, and the page is one the list can be on. */
    ghost predicate Valid()
      reads this
    {
      && 0 <= currentPage
      && effectVersion <= collectionVersion
      && IsSubsequence(filtered, collection)
      && (effectVersion == collectionVersion ==>
            filtered == Filter(collection, effectTerm, haystacks) && PageInRange(currentPage, |filtered|))
    }

    /** Mounting the screen: everything empty, page 1, and the filter effect's first run. */
    constructor (haystacks: T -> seq<string>)
      ensures Valid() && Settled()
      ensures this.haystacks == haystacks
      ensures collection == [] && filtered == [] && searchTerm == "" && currentPage == 1
    {
      this.haystacks := haystacks;
      collection, searchTerm, collectionVersion := [], "", 0;
      filtered := Filter([], "", haystacks);
      currentPage := 1;
      effectTerm, effectVersion := "", 0;
    }

    /** The rows on screen: the current page of the filtered list. At rest every row shown is
        a record of the collection that matches the search term. */
    function VisibleRows(): (r: seq<T>)
      reads this
      ensures |r| <= PageSize
      ensures forall k :: 0 <= k < |r| ==> r[k] in filtered
      ensures Valid() && Settled() ==>
        forall k :: 0 <= k < |r| ==> r[k] in collection && Matches(r[k], searchTerm, haystacks)
    {
      PageSlice(filtered, currentPage)
    }

    /** The "not found" message shows iff the filtered list is empty, that is iff there are
        no pages; at rest, iff no record of the collection matches the term. */
    function NotFoundShown(): (r: bool)
      reads this
      ensures r <==> TotalPages(|filtered|) == 0
      ensures Valid() && Settled() ==>
        (r <==> forall k :: 0 <= k < |collection| ==> !Matches(collection[k], searchTerm, haystacks))
    {
      FilterEmptyIff(collection, searchTerm, haystacks);
      |filtered| == 0
    }

    /** The success path of the fetch function: the collection and the filtered list both
        become the response data; a failed fetch changes nothing. */
    method ReceiveFetch(r: FetchResult<T>)
      requires Valid()
      modifies this
      ensures Valid()
      ensures r.Fetched? ==>
        && collection == r.data && filtered == r.data
        && collectionVersion == old(collectionVersion) + 1
        && searchTerm == old(searchTerm) && currentPage == old(currentPage)
        && effectTerm == old(effectTerm) && effectVersion == old(effectVersion)
      ensures r.FetchFailed? ==> unchanged(this)
    {
      if r.Fetched? {
        collection, filtered := r.data, r.data;
        collectionVersion := collectionVersion + 1;
        SubsequenceReflexive(r.data);
      }
    }

    /** The search box's onChange: only the term changes. */
    method InputSearchTerm(t: string)
      requires Valid()
      modifies this`searchTerm
      ensures Valid() && searchTerm == t
    {
      searchTerm := t;
    }

    /** The filter effect: when the term or the collection changed since its last run, the
        filtered list is recomputed from the collection and the page goes back to 1. */
    method RunFilterEffect()
      requires Valid()
      modifies this
      ensures Valid() && Settled()
      ensures collection == old(collection) && searchTerm == old(searchTerm)
      ensures collectionVersion == old(collectionVersion)
      ensures !old(Settled()) ==> filtered == Filter(collection, searchTerm, haystacks) && currentPage == 1
      ensures old(Settled()) ==> unchanged(this)
    {
      if !Settled() {
        filtered := Filter(collection, searchTerm, haystacks);
        currentPage := 1;
        effectTerm, effectVersion := searchTerm, collectionVersion;
      }
    }

    /** A fetch followed by the effect it triggers: on success the collection is replaced, the
        filtered list is the new data filtered by the current term and the page is 1; on
        failure the screen keeps what it showed. */
    method Refresh(r: FetchResult<T>)
      requires Valid() && Settled()
      modifies this
      ensures Valid() && Settled()
      ensures searchTerm == old(searchTerm)
      ensures r.Fetched? ==>
        collection == r.data && filtered == Filter(r.data, searchTerm, haystacks) && currentPage == 1
      ensures r.FetchFailed? ==> unchanged(this)
    {
      ReceiveFetch(r);
      RunFilterEffect();
    }

    /** Typing in the search box followed by the effect: a new term refilters the unchanged
        collection and resets the page to 1; retyping the same term changes nothing. */
    method SetSearchTerm(t: string)
      requires Valid() && Settled()
      modifies this
      ensures Valid() && Settled()
      ensures searchTerm == t && collection == old(collection)
      ensures t != old(searchTerm) ==> filtered == Filter(collection, t, haystacks) && currentPage == 1
      ensures t == old(searchTerm) ==> filtered == old(filtered) && currentPage == old(currentPage)
    {
      InputSearchTerm(t);
      RunFilterEffect();
    }

    /** The Previous button: disabled on page 1, otherwise `Math.max(page - 1, 1)`. */
    method ClickPrevious()
      requires Valid()
      modifies this`currentPage
      ensures Valid()
      ensures currentPage == Previous(old(currentPage))
    {
      if !PreviousDisabled(currentPage) {
        currentPage := Previous(currentPage);
      }
      if effectVersion == collectionVersion {
        NavigationKeepsPageInRange(old(currentPage), |filtered|);
      }
    }

    /** The Next button: disabled on the last page, otherwise `Math.min(page + 1, totalPages)`. */
    method ClickNext()
      requires Valid()
      modifies this`currentPage
      ensures Valid()
      ensures currentPage == Next(old(currentPage), TotalPages(|filtered|))
    {
      var totalPages := TotalPages(|filtered|);
      if !NextDisabled(currentPage, totalPages) {
        currentPage := Next(currentPage, totalPages);
      }
      if effectVersion == collectionVersion {
        NavigationKeepsPageInRange(old(currentPage), |filtered|);
      }
    }
  }

  /** A search followed by a page move and a second search: the second search starts again on
      page 1 of its own results, whatever page the first left. */
  method SearchResetsPage<T(==)>(c: ListController<T>, first: string, second: string)
    requires c.Valid() && c.Settled() && second != first
    modifies c
    ensures c.Valid() && c.Settled() && c.currentPage == 1
    ensures c.filtered == Filter(c.collection, second, c.haystacks)
  {
    c.SetSearchTerm(first);
    c.ClickNext();
    c.SetSearchTerm(second);
  }
}

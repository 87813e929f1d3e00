/**
 * The pagination state of the data hook (artverse-archive/src/hooks/useNFTData.tsx):
 * every load fetches the whole catalogue, normalises and filters it, and
 * hands out the next page of twelve. A load is split into the call that
 * starts it and the completion that delivers the fetch's outcome.
 */
module Feed {
  import opened Catalog
  import opened Search

  const PageSize: nat := 12

  /** What `fetch` + `response.json()` delivered: the catalogue array, or a failure of any kind. */
  datatype FetchOutcome = Fetched(records: seq<RawRecord>) | FetchFailed

  function Min(a: int, b: int): int {
    if a <= b then a else b
  }

  /** `s.slice(start, end)` for non-negative bounds: both ends are clamped to the list. */
  function Slice<T>(s: seq<T>, start: nat, end: nat): (r: seq<T>)
    ensures |r| == if start < end then Min(end, |s|) - Min(start, |s|) else 0
    ensures forall i :: 0 <= i < |r| ==> r[i] == s[start + i]
  {
    var lo := Min(start, |s|);
    var hi := if end < lo then lo else Min(end, |s|);
    s[lo..hi]
  }

  /** The first `k` assets, or all of them when there are fewer. */
  function Prefix<T>(s: seq<T>, k: nat): (r: seq<T>)
    ensures |r| == Min(k, |s|) && r == s[..|r|]
  {
    Slice(s, 0, k)
  }

  /** Appending the page that starts at `k` to the first `k` assets gives the first `k + PageSize`. */
  lemma PrefixThenPage<T>(s: seq<T>, k: nat)
    ensures Prefix(s, k) + Slice(s, k, k + PageSize) == Prefix(s, k + PageSize)
  {
    var a := Prefix(s, k) + Slice(s, k, k + PageSize);
    var b := Prefix(s, k + PageSize);
    assert |a| == |b|;
    forall i | 0 <= i < |a| ensures a[i] == b[i] {
      if i >= |Prefix(s, k)| {
        assert a[i] == Slice(s, k, k + PageSize)[i - |Prefix(s, k)|];
      }
    }
  }

  /** What a load builds from the fetched records: `filterNFTs(mappedNFTs, searchQuery)`. */
  function Filtered(records: seq<RawRecord>, query: string): seq<NFT> {
    FilterNFTs(NormalizeAll(records), query)
  }

  class NFTFeed {
    var nfts: seq<NFT>
    var loading: bool
    var hasMore: bool
    var page: nat
    /** The search string the hook was rendered with. */
    var query: string
    /** Whether the load in flight was started with `reset = true`. */
    var pendingReset: bool

    ghost predicate Valid()
      reads this
    {
      page >= 1
    }

    /** The first `page - 1` pages of `filtered` are on show, and `hasMore` says whether any remain. */
    ghost predicate ShowsPagesOf(filtered: seq<NFT>)
      reads this
    {
      && page >= 2
      && nfts == Prefix(filtered, (page - 1) * PageSize)
      && hasMore == ((page - 1) * PageSize < |filtered|)
    }

    /** `totalCount`: the number of assets on show, not the number that match. */
    function TotalCount(): nat
      reads this
    {
      |nfts|
    }

    /** The initial `useState` values. */
    constructor(query: string)
      ensures Valid()
      ensures nfts == [] && !loading && hasMore && page == 1 && this.query == query && !pendingReset
    {
      nfts := [];
      loading := false;
      hasMore := true;
      page := 1;
      this.query := query;
      pendingReset := false;
    }

    /** The effect that runs when the search string changes: back to page 1 and start a reset load. */
    method QueryChanged(q: string)
      modifies this
      ensures Valid()
      ensures query == q && page == 1 && loading && pendingReset
      ensures nfts == old(nfts) && hasMore == old(hasMore)
    {
      query := q;
      page := 1;
      loading := true;
      pendingReset := true;
    }

    /** `loadMore`: start a non-reset load unless one is in flight or nothing is left. */
    method LoadMore()
      requires Valid()
      modifies this
      ensures Valid()
      ensures old(loading) || !old(hasMore) ==> unchanged(this)
      ensures !old(loading) && old(hasMore) ==> loading && !pendingReset
      ensures nfts == old(nfts) && hasMore == old(hasMore) && page == old(page) && query == old(query)
    {
      if !loading && hasMore {
        loading := true;
        pendingReset := false;
      }
    }

    /**
     * The rest of `loadNFTs` once the fetch settles: on success the page is sliced out
     * of the filtered catalogue and replaces (reset) or extends the list; on failure
     * the list is emptied and nothing more is offered. Either way loading stops.
     */
    method CompleteLoad(outcome: FetchOutcome)
      requires Valid() && loading
      modifies this
      ensures Valid()
      ensures !loading && query == old(query) && pendingReset == old(pendingReset)
      ensures outcome.FetchFailed? ==> nfts == [] && !hasMore && page == old(page)
      ensures outcome.Fetched? && old(pendingReset) ==>
        var f := Filtered(outcome.records, query);
        nfts == Prefix(f, PageSize) && page == 2 && hasMore == (PageSize < |f|)
      ensures outcome.Fetched? && !old(pendingReset) ==>
        var f := Filtered(outcome.records, query);
        var start := (old(page) - 1) * PageSize;
        && nfts == old(nfts) + Slice(f, start, start + PageSize)
        && page == old(page) + 1
        && hasMore == (start + PageSize < |f|)
      ensures outcome.Fetched? && old(pendingReset) ==> ShowsPagesOf(Filtered(outcome.records, query))
      ensures outcome.Fetched? && !old(pendingReset) && old(ShowsPagesOf(Filtered(outcome.records, query))) ==>
        ShowsPagesOf(Filtered(outcome.records, query))
    {
      match outcome {
        case FetchFailed =>
          nfts := [];
          hasMore := false;
        case Fetched(records) =>
          ShowNextPage(Filtered(records, query));
      }
      loading := false;
    }

    /** The slicing step of `loadNFTs`, given the filtered catalogue. */
    method ShowNextPage(filtered: seq<NFT>)
      requires Valid()
      modifies this
      ensures Valid()
      ensures loading == old(loading) && query == old(query) && pendingReset == old(pendingReset)
      ensures old(pendingReset) ==>
        nfts == Prefix(filtered, PageSize) && page == 2 && hasMore == (PageSize < |filtered|)
      ensures !old(pendingReset) ==>
        var start := (old(page) - 1) * PageSize;
        && nfts == old(nfts) + Slice(filtered, start, start + PageSize)
        && page == old(page) + 1
        && hasMore == (start + PageSize < |filtered|)
      ensures old(pendingReset) ==> ShowsPagesOf(filtered)
      ensures !old(pendingReset) && old(ShowsPagesOf(filtered)) ==> ShowsPagesOf(filtered)
    {
      ghost var wasShown := page >= 2 && nfts == Prefix(filtered, (page - 1) * PageSize);
      var startIndex := if pendingReset then 0 else (page - 1) * PageSize;
      var endIndex := startIndex + PageSize;
      var newNFTs := Slice(filtered, startIndex, endIndex);
      if pendingReset {
        nfts := newNFTs;
        page := 2;
      } else {
        PrefixThenPage(filtered, startIndex);
        nfts := nfts + newNFTs;
        page := page + 1;
        assert endIndex == (page - 1) * PageSize;
        assert wasShown ==> nfts == Prefix(filtered, (page - 1) * PageSize);
      }
      hasMore := endIndex < |filtered|;
    }

    /** With the pages of `filtered` on show, the header's count is capped by the pages loaded so far. */
    lemma TotalCountIsVisibleCount(filtered: seq<NFT>)
      requires ShowsPagesOf(filtered)
      ensures TotalCount() == Min((page - 1) * PageSize, |filtered|)
      ensures hasMore ==> TotalCount() < |filtered|
      ensures !hasMore ==> TotalCount() == |filtered|
    {
    }
  }

  /**
   * Thirty matching assets and an unchanged catalogue: a reset shows 12, two
   * `loadMore` calls show 24 and then all 30, and a further call does nothing.
   */
  method PaginationScenario(records: seq<RawRecord>, query: string)
    requires |Filtered(records, query)| == 30
  {
    var feed := new NFTFeed(query);
    feed.QueryChanged(query);
    feed.CompleteLoad(Fetched(records));
    assert |feed.nfts| == 12 && feed.hasMore && feed.page == 2;
    feed.LoadMore();
    feed.CompleteLoad(Fetched(records));
    assert |feed.nfts| == 24 && feed.hasMore;
    feed.LoadMore();
    feed.CompleteLoad(Fetched(records));
    assert feed.nfts == Filtered(records, query) && !feed.hasMore;
    feed.LoadMore();
    assert !feed.loading && feed.nfts == Filtered(records, query);
  }
}

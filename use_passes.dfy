/**
 * The React pass query (src/hooks/usePasses.ts), bulk mode: fetch up to
 * FetchLimit passes in one call, keep those of the selected sponsor, and cut
 * the result into pages of PageSize in memory.
 */
module UsePasses {
  import opened Types
  import opened JsBuiltins
  import PassFilter

  const PageSize: int := 10
  const FetchLimit: int := 1000

  /** `filteredPasses`: nothing without a selected sponsor, else that sponsor's passes. */
  function FilteredPasses(all: seq<SponsorPass>, selected: Option<Sponsor>): (r: seq<SponsorPass>)
    ensures forall p :: p in r <==> selected.Some? && p in all && p.sponsor == selected.value.id
    ensures selected.None? ==> r == []
  {
    match selected
    case None => []
    case Some(sponsor) => PassFilter.OfSponsor(all, sponsor.id)
  }

  /** `Math.ceil(n / PAGE_SIZE)`: the fewest pages of PageSize that hold n passes. */
  function TotalPages(n: nat): (t: nat)
    ensures n <= t * PageSize
    ensures (t - 1) * PageSize < n
    ensures t == 0 <==> n == 0
  {
    CeilDivOfCount(n, PageSize);
    CeilDiv(n, PageSize)
  }

  /** `paginatedPasses`: `filtered.slice((page - 1) * 10, (page - 1) * 10 + 10)`. */
  function PageOf(filtered: seq<SponsorPass>, page: int): (r: seq<SponsorPass>)
    ensures |r| <= PageSize
    ensures page >= 1 ==>
      r == filtered[Min((page - 1) * PageSize, |filtered|)..Min(page * PageSize, |filtered|)]
  {
    var start := (page - 1) * PageSize;
    Slice(filtered, start, start + PageSize)
  }

  /** Pages 1 through k, one after the other. */
  function PagesThrough(filtered: seq<SponsorPass>, k: nat): seq<SponsorPass>
  {
    if k == 0 then [] else PagesThrough(filtered, k - 1) + PageOf(filtered, k)
  }

  /** Every page numbered 1..TotalPages holds between 1 and PageSize passes. */
  lemma PageInRangeIsFilled(filtered: seq<SponsorPass>, k: int)
    requires 1 <= k <= TotalPages(|filtered|)
    ensures 1 <= |PageOf(filtered, k)| <= PageSize
  {
  }

  /** A page past the last one is empty. */
  lemma PagePastEndIsEmpty(filtered: seq<SponsorPass>, k: int)
    requires k > TotalPages(|filtered|)
    ensures PageOf(filtered, k) == []
  {
  }

  lemma {:induction false} PagesThroughIsPrefix(filtered: seq<SponsorPass>, k: nat)
    ensures PagesThrough(filtered, k) == filtered[..Min(k * PageSize, |filtered|)]
  {
    if k > 0 {
      PagesThroughIsPrefix(filtered, k - 1);
      var a, b := Min((k - 1) * PageSize, |filtered|), Min(k * PageSize, |filtered|);
      assert filtered[..a] + filtered[a..b] == filtered[..b];
    }
  }

  /** The pages 1..TotalPages, concatenated, give back the filtered list exactly. */
  lemma PagesPartitionFiltered(filtered: seq<SponsorPass>)
    ensures PagesThrough(filtered, TotalPages(|filtered|)) == filtered
  {
    PagesThroughIsPrefix(filtered, TotalPages(|filtered|));
  }

  /** With no sponsor selected there is no page and every page is empty. */
  lemma NoSponsorNoPasses(all: seq<SponsorPass>, page: int)
    ensures TotalPages(|FilteredPasses(all, None)|) == 0
    ensures PageOf(FilteredPasses(all, None), page) == []
  {
  }

  /** `selectedSponsor?.id`, the key of the page-reset effect. */
  function SponsorKey(selected: Option<Sponsor>): Option<int>
  {
    match selected
    case None => None
    case Some(sponsor) => Some(sponsor.id)
  }

  /**
   * The state of one mounted `usePasses` hook. `selectedSponsor` comes from
   * the sponsor context and `showRevoked` from the caller's options; the rest
   * are the hook's own state cells.
   */
  class PassesHook {
    var selectedSponsor: Option<Sponsor>
    var showRevoked: bool
    var allPasses: seq<SponsorPass>
    var loading: bool
    var page: int

    constructor (selectedSponsor: Option<Sponsor>, showRevoked: bool)
      ensures this.selectedSponsor == selectedSponsor && this.showRevoked == showRevoked
      ensures allPasses == [] && !loading && page == 1
    {
      this.selectedSponsor := selectedSponsor;
      this.showRevoked := showRevoked;
      allPasses := [];
      loading := false;
      page := 1;
    }

    /** The passes the hook returns: the current page of the filtered list. */
    function Passes(): (r: seq<SponsorPass>)
      reads this
      ensures |r| <= PageSize
      ensures forall p :: p in r ==> selectedSponsor.Some? && p in allPasses && p.sponsor == selectedSponsor.value.id
    {
      PageOf(FilteredPasses(allPasses, selectedSponsor), page)
    }

    /** The page count the hook returns: 0 exactly when the selected sponsor has no fetched passes. */
    function PageCount(): (n: nat)
      reads this
      ensures n == 0 <==> FilteredPasses(allPasses, selectedSponsor) == []
      ensures |FilteredPasses(allPasses, selectedSponsor)| <= n * PageSize
    {
      TotalPages(|FilteredPasses(allPasses, selectedSponsor)|)
    }

    /** `setPage`, as handed to the Pagination control. */
    method SetPage(p: int)
      modifies this`page
      ensures page == p
    {
      page := p;
    }

    /**
     * New inputs from the context or the options. The page-reset effect runs
     * when the sponsor's id or the flag changed; `refetch` says whether
     * `fetchPasses` changed identity, which re-runs the fetch effect.
     */
    method SetQuery(sponsor: Option<Sponsor>, revoked: bool) returns (refetch: bool)
      modifies this`selectedSponsor, this`showRevoked, this`page
      ensures selectedSponsor == sponsor && showRevoked == revoked
      ensures refetch == (sponsor != old(selectedSponsor) || revoked != old(showRevoked))
      ensures page == if SponsorKey(sponsor) != SponsorKey(old(selectedSponsor)) || revoked != old(showRevoked)
                      then 1 else old(page)
    {
      refetch := sponsor != selectedSponsor || revoked != showRevoked;
      var reset := SponsorKey(sponsor) != SponsorKey(selectedSponsor) || revoked != showRevoked;
      selectedSponsor, showRevoked := sponsor, revoked;
      if reset {
        page := 1;
      }
    }

    /** `fetchPasses` up to its await: the request it sends, if any. */
    method BeginFetch() returns (request: Option<ListPassesRequest>)
      modifies this`allPasses, this`loading
      ensures selectedSponsor.None? ==>
        request.None? && allPasses == [] && loading == old(loading)
      ensures selectedSponsor.Some? ==>
        && request == Some(ListAllSponsorPasses(FetchLimit, 0, showRevoked))
        && loading && allPasses == old(allPasses)
    {
      if selectedSponsor.None? {
        allPasses := [];
        return None;
      }
      loading := true;
      request := Some(ListAllSponsorPasses(FetchLimit, 0, showRevoked));
    }

    /** `fetchPasses` after its await: store the results, or nothing on failure. */
    method SettleFetch(outcome: Outcome<PaginatedResponse<SponsorPass>>)
      modifies this`allPasses, this`loading
      ensures !loading
      ensures outcome.Resolved? ==> allPasses == outcome.value.results
      ensures outcome.Threw? ==> allPasses == []
    {
      match outcome {
        case Resolved(response) =>
          allPasses := response.results;
        case Threw(_) =>
          allPasses := [];
      }
      loading := false;
    }

    /** One whole run of `fetchPasses`, the service answering with `outcome`. */
    method FetchPasses(outcome: Outcome<PaginatedResponse<SponsorPass>>)
      returns (request: Option<ListPassesRequest>)
      modifies this`allPasses, this`loading
      ensures request.Some? <==> selectedSponsor.Some?
      ensures selectedSponsor.None? ==> allPasses == [] && loading == old(loading)
      ensures selectedSponsor.Some? ==>
        && request.value == ListAllSponsorPasses(FetchLimit, 0, showRevoked)
        && !loading
        && allPasses == (if outcome.Resolved? then outcome.value.results else [])
    {
      request := BeginFetch();
      if request.Some? {
        SettleFetch(outcome);
      }
    }
  }
}

/**
 * The sponsor store: the sponsor context's state cells
 * (src/context/SponsorContext.tsx) and the `fetchSponsors` effect that fills
 * them (src/hooks/useSponsors.ts).
 */
module UseSponsors {
  import opened Types

  /** `setSelectedSponsor((current) => current ?? results[0])`, run only for a non-empty list. */
  function DefaultSelection(current: Option<Sponsor>, results: seq<Sponsor>): (r: Option<Sponsor>)
    ensures r.None? <==> current.None? && |results| == 0
    ensures r != current ==> current.None? && |results| > 0 && r.value == results[0]
  {
    if |results| > 0 then (if current.Some? then current else Some(results[0])) else current
  }

  /**
   * After a non-empty fetch a sponsor is always selected: the earlier choice if
   * there was one, else the first listed sponsor; after an empty fetch the
   * selection is what it was.
   */
  lemma DefaultSelectionSpec(current: Option<Sponsor>, results: seq<Sponsor>)
    ensures var r := DefaultSelection(current, results);
      && (|results| > 0 ==> r.Some?)
      && (|results| > 0 && current.None? ==> r == Some(results[0]))
      && (current.Some? || |results| == 0 ==> r == current)
  {
  }

  /** The selected sponsor is a listed one whenever the earlier choice was listed or absent. */
  lemma DefaultSelectionIsListed(current: Option<Sponsor>, results: seq<Sponsor>)
    requires |results| > 0
    requires current.None? || current.value in results
    ensures DefaultSelection(current, results).value in results
  {
  }

  /** Fetching again never changes a selection a fetch made. */
  lemma DefaultSelectionStable(current: Option<Sponsor>, first: seq<Sponsor>, second: seq<Sponsor>)
    ensures |first| > 0 ==>
      DefaultSelection(DefaultSelection(current, first), second) == DefaultSelection(current, first)
  {
  }

  class SponsorStore {
    var sponsors: seq<Sponsor>
    var selectedSponsor: Option<Sponsor>
    var sponsorsLoading: bool

    /** The provider's initial state. */
    constructor ()
      ensures sponsors == [] && selectedSponsor.None? && sponsorsLoading
    {
      sponsors, selectedSponsor, sponsorsLoading := [], None, true;
    }

    /** `setSelectedSponsor(sponsor)`: overwrites the selection unconditionally. */
    method SetSelectedSponsor(sponsor: Option<Sponsor>)
      modifies this`selectedSponsor
      ensures selectedSponsor == sponsor
    {
      selectedSponsor := sponsor;
    }

    /** `fetchSponsors` up to its await. */
    method BeginFetch()
      modifies this`sponsorsLoading
      ensures sponsorsLoading
    {
      sponsorsLoading := true;
    }

    /** `fetchSponsors` after its await: store and default the selection on success, keep both on failure. */
    method SettleFetch(outcome: Outcome<PaginatedResponse<Sponsor>>)
      modifies this
      ensures !sponsorsLoading
      ensures outcome.Resolved? ==>
        && sponsors == outcome.value.results
        && selectedSponsor == DefaultSelection(old(selectedSponsor), outcome.value.results)
      ensures outcome.Threw? ==> sponsors == old(sponsors) && selectedSponsor == old(selectedSponsor)
    {
      match outcome {
        case Resolved(response) =>
          sponsors := response.results;
          if |response.results| > 0 {
            selectedSponsor := if selectedSponsor.Some? then selectedSponsor else Some(response.results[0]);
          }
        case Threw(_) =>
      }
      sponsorsLoading := false;
    }

    /** One whole run of the effect. */
    method FetchSponsors(outcome: Outcome<PaginatedResponse<Sponsor>>)
      modifies this
      ensures !sponsorsLoading
      ensures outcome.Resolved? ==>
        && sponsors == outcome.value.results
        && selectedSponsor == DefaultSelection(old(selectedSponsor), outcome.value.results)
      ensures outcome.Threw? ==> sponsors == old(sponsors) && selectedSponsor == old(selectedSponsor)
    {
      BeginFetch();
      SettleFetch(outcome);
    }
  }

  /** On mount with a non-empty list, the first sponsor becomes selected; with an empty one nothing is. */
  method MountScenario(results: seq<Sponsor>) returns (listed: seq<Sponsor>, selected: Option<Sponsor>, loading: bool)
    ensures listed == results && !loading
    ensures |results| > 0 ==> selected == Some(results[0])
    ensures |results| == 0 ==> selected.None?
  {
    var store := new SponsorStore();
    store.FetchSponsors(Resolved(PaginatedResponse(Some(|results|), results)));
    listed, selected, loading := store.sponsors, store.selectedSponsor, store.sponsorsLoading;
  }
}

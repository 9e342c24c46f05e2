/**
 * The manual-DOM variant of the Sponsor Pass Manager (src/main.ts): one
 * `AppState` record, replaced by field merge on every `update`, and one
 * handler per user action. Each handler that awaits a service call takes the
 * call's outcome as a parameter; the ones whose in-flight state shows on
 * screen are split at the await into a Begin and a Settle method.
 */
module MainApp {
  import opened Types
  import opened JsBuiltins
  import PassFilter

  const PageSize: int := 6
  const SponsorListLimit: int := 50

  const NoSponsorsMessage := "No sponsors found for your account yet."
  const InitFailedMessage := "Unable to initialize app"
  const LoadFailedMessage := "Failed to load passes"
  const RevokeFailedMessage := "Failed to revoke pass"
  const CreateFailedMessage := "Failed to create pass"
  const SelectSponsorMessage := "Select a sponsor first."
  const FillFieldsMessage := "Please fill all required fields."

  datatype AppState = AppState(
    user: Option<User>,
    sponsors: seq<Sponsor>,
    selectedSponsorId: Option<int>,
    passes: seq<SponsorPass>,
    totalCount: int,
    page: int,
    showRevoked: bool,
    loading: bool,
    passesLoading: bool,
    creating: bool,
    revokingId: Option<int>,
    error: Option<string>,
    formError: Option<string>,
    modalOpen: bool)

  const InitialState: AppState :=
    AppState(None, [], None, [], 0, 1, false, true, false, false, None, None, None, false)

  /**
   * `Partial<AppState>`: Some(v) is a key present in the object literal (even
   * when v is `undefined`, which is how fields get cleared), None a key absent.
   */
  datatype Patch = Patch(
    user: Option<Option<User>>,
    sponsors: Option<seq<Sponsor>>,
    selectedSponsorId: Option<Option<int>>,
    passes: Option<seq<SponsorPass>>,
    totalCount: Option<int>,
    page: Option<int>,
    showRevoked: Option<bool>,
    loading: Option<bool>,
    passesLoading: Option<bool>,
    creating: Option<bool>,
    revokingId: Option<Option<int>>,
    error: Option<Option<string>>,
    formError: Option<Option<string>>,
    modalOpen: Option<bool>)

  const NoChange: Patch :=
    Patch(None, None, None, None, None, None, None, None, None, None, None, None, None, None)

  function Pick<T>(supplied: Option<T>, current: T): T
  {
    if supplied.Some? then supplied.value else current
  }

  /** A supplied key whose value is already the current one, or a key left out. */
  predicate Agrees<T(==)>(supplied: Option<T>, current: T)
  {
    supplied.None? || supplied.value == current
  }

  /** After a merge, a field holds the supplied value when its key was supplied, else its old value. */
  predicate Applied<T(==)>(supplied: Option<T>, before: T, after: T)
  {
    (supplied.Some? ==> after == supplied.value) && (supplied.None? ==> after == before)
  }

  /**
   * `{ ...state, ...partial }`. An update leaves the state as it was exactly
   * when every key it supplies already holds the supplied value.
   */
  function Merge(s: AppState, p: Patch): (r: AppState)
    ensures r == s <==>
      && Agrees(p.user, s.user) && Agrees(p.sponsors, s.sponsors)
      && Agrees(p.selectedSponsorId, s.selectedSponsorId) && Agrees(p.passes, s.passes)
      && Agrees(p.totalCount, s.totalCount) && Agrees(p.page, s.page)
      && Agrees(p.showRevoked, s.showRevoked) && Agrees(p.loading, s.loading)
      && Agrees(p.passesLoading, s.passesLoading) && Agrees(p.creating, s.creating)
      && Agrees(p.revokingId, s.revokingId) && Agrees(p.error, s.error)
      && Agrees(p.formError, s.formError) && Agrees(p.modalOpen, s.modalOpen)
  {
    AppState(
      Pick(p.user, s.user), Pick(p.sponsors, s.sponsors),
      Pick(p.selectedSponsorId, s.selectedSponsorId), Pick(p.passes, s.passes),
      Pick(p.totalCount, s.totalCount), Pick(p.page, s.page),
      Pick(p.showRevoked, s.showRevoked), Pick(p.loading, s.loading),
      Pick(p.passesLoading, s.passesLoading), Pick(p.creating, s.creating),
      Pick(p.revokingId, s.revokingId), Pick(p.error, s.error),
      Pick(p.formError, s.formError), Pick(p.modalOpen, s.modalOpen))
  }

  function Later<T>(first: Option<T>, second: Option<T>): Option<T>
  {
    if second.Some? then second else first
  }

  /** `{ ...p, ...q }`: the keys of q win. */
  function Override(p: Patch, q: Patch): Patch
  {
    Patch(
      Later(p.user, q.user), Later(p.sponsors, q.sponsors),
      Later(p.selectedSponsorId, q.selectedSponsorId), Later(p.passes, q.passes),
      Later(p.totalCount, q.totalCount), Later(p.page, q.page),
      Later(p.showRevoked, q.showRevoked), Later(p.loading, q.loading),
      Later(p.passesLoading, q.passesLoading), Later(p.creating, q.creating),
      Later(p.revokingId, q.revokingId), Later(p.error, q.error),
      Later(p.formError, q.formError), Later(p.modalOpen, q.modalOpen))
  }

  /** An update that supplies no field changes nothing. */
  lemma MergeNoChange(s: AppState)
    ensures Merge(s, NoChange) == s
  {
  }

  /** Two updates in a row are one update with the later keys winning. */
  lemma MergeSequence(s: AppState, p: Patch, q: Patch)
    ensures Merge(Merge(s, p), q) == Merge(s, Override(p, q))
  {
  }

  /** Repeating an update changes nothing more. */
  lemma MergeIdempotent(s: AppState, p: Patch)
    ensures Merge(Merge(s, p), p) == Merge(s, p)
  {
  }

  /** A supplied field takes the supplied value; every field left out keeps its value. */
  lemma MergeOnlySupplied(s: AppState, p: Patch)
    ensures var r := Merge(s, p);
      && Applied(p.user, s.user, r.user) && Applied(p.sponsors, s.sponsors, r.sponsors)
      && Applied(p.selectedSponsorId, s.selectedSponsorId, r.selectedSponsorId)
      && Applied(p.passes, s.passes, r.passes) && Applied(p.totalCount, s.totalCount, r.totalCount)
      && Applied(p.page, s.page, r.page) && Applied(p.showRevoked, s.showRevoked, r.showRevoked)
      && Applied(p.loading, s.loading, r.loading) && Applied(p.passesLoading, s.passesLoading, r.passesLoading)
      && Applied(p.creating, s.creating, r.creating) && Applied(p.revokingId, s.revokingId, r.revokingId)
      && Applied(p.error, s.error, r.error) && Applied(p.formError, s.formError, r.formError)
      && Applied(p.modalOpen, s.modalOpen, r.modalOpen)
  {
  }

  /** `!id` is false: the id is present and not 0. */
  predicate Truthy(id: Option<int>)
  {
    id.Some? && id.value != 0
  }

  /** `Math.max(1, Math.ceil(totalCount / PAGE_SIZE))` */
  function PageCount(totalCount: int): (n: int)
    ensures n >= 1
    ensures totalCount <= n * PageSize
    ensures n > 1 ==> (n - 1) * PageSize < totalCount
  {
    Max(1, CeilDiv(totalCount, PageSize))
  }

  /** The page the Prev handler moves to. */
  function PrevTarget(page: int): (r: int)
    ensures r == page <==> page == 1
    ensures page - 1 <= r <= page
  {
    if page == 1 then page else page - 1
  }

  /** The page the Next handler moves to. */
  function NextTarget(page: int, totalCount: int): (r: int)
    ensures r == page <==> page >= PageCount(totalCount)
    ensures page <= r <= page + 1
  {
    if page >= PageCount(totalCount) then page else page + 1
  }

  /** Prev and Next keep a page inside 1..PageCount and move by at most one. */
  lemma NavigationStaysInRange(page: int, totalCount: int)
    requires 1 <= page <= PageCount(totalCount)
    ensures 1 <= PrevTarget(page) <= PageCount(totalCount)
    ensures 1 <= NextTarget(page, totalCount) <= PageCount(totalCount)
    ensures page - 1 <= PrevTarget(page) <= page <= NextTarget(page, totalCount) <= page + 1
  {
  }

  /** The Prev/Next strip `renderPagination` draws. */
  datatype Pager = Pager(prevDisabled: bool, nextDisabled: bool, page: int, pageCount: int)

  /** Drawn only when `totalCount > PAGE_SIZE`. */
  function PagerOf(s: AppState): (r: Option<Pager>)
    ensures r.Some? <==> s.totalCount > PageSize
    ensures r.Some? ==> r.value.page == s.page && r.value.pageCount == PageCount(s.totalCount) >= 2
    ensures r.Some? && s.passesLoading ==> r.value.prevDisabled && r.value.nextDisabled
    ensures r.Some? && !s.passesLoading ==>
      (r.value.prevDisabled <==> s.page == 1) && (r.value.nextDisabled <==> s.page >= r.value.pageCount)
  {
    if s.totalCount > PageSize then
      Some(Pager(s.page == 1 || s.passesLoading, s.page >= PageCount(s.totalCount) || s.passesLoading,
                 s.page, PageCount(s.totalCount)))
    else None
  }

  /**
   * When the strip shows and no load is running, a button is disabled exactly
   * when its handler would do nothing, and there are at least two pages.
   */
  lemma PagerMatchesHandlers(s: AppState)
    requires PagerOf(s).Some? && !s.passesLoading
    ensures PagerOf(s).value.pageCount >= 2
    ensures PagerOf(s).value.prevDisabled <==> PrevTarget(s.page) == s.page
    ensures PagerOf(s).value.nextDisabled <==> NextTarget(s.page, s.totalCount) == s.page
  {
  }

  /** The call `loadPasses` makes: none without a truthy sponsor id, else one page of 6 at the current offset. */
  function LoadRequest(s: AppState): (r: Option<ListPassesRequest>)
    ensures r.Some? <==> Truthy(s.selectedSponsorId)
    ensures r.Some? ==> r.value.limit == PageSize && r.value.offset == (s.page - 1) * PageSize
    ensures r.Some? ==> (r.value.ListAllSponsorPasses? <==> s.showRevoked)
    ensures r.Some? && r.value.ListAllSponsorPasses? ==> r.value.includeRevoked
  {
    if !Truthy(s.selectedSponsorId) then None
    else
      var offset := (s.page - 1) * PageSize;
      Some(if s.showRevoked then ListAllSponsorPasses(PageSize, offset, true)
           else ListActiveSponsorPasses(PageSize, offset))
  }

  /** `results.filter((pass) => pass.sponsor === state.selectedSponsorId)` */
  function VisiblePasses(results: seq<SponsorPass>, selected: Option<int>): (r: seq<SponsorPass>)
    ensures forall p :: p in r <==> p in results && selected == Some(p.sponsor)
  {
    match selected
    case None => []
    case Some(id) => PassFilter.OfSponsor(results, id)
  }

  /** `response.count ?? filtered.length` */
  function ReportedCount(count: Option<int>, filtered: seq<SponsorPass>): (n: int)
    ensures count.Some? ==> n == count.value
    ensures count.None? ==> n == |filtered|
  {
    match count
    case Some(n) => n
    case None => |filtered|
  }

  /**
   * The state after a whole `loadPasses`. Only the passes, the count, the
   * loading flag and the error can change; with no truthy sponsor nothing does.
   */
  function Loaded(s: AppState, outcome: Outcome<PaginatedResponse<SponsorPass>>): (r: AppState)
    ensures r == s.(passes := r.passes, totalCount := r.totalCount,
                    passesLoading := r.passesLoading, error := r.error)
    ensures !Truthy(s.selectedSponsorId) ==> r == s
    ensures Truthy(s.selectedSponsorId) ==> !r.passesLoading
    ensures Truthy(s.selectedSponsorId) && outcome.Resolved? ==>
      && r.error.None?
      && (forall p :: p in r.passes <==> p in outcome.value.results && p.sponsor == s.selectedSponsorId.value)
      && (outcome.value.count.Some? ==> r.totalCount == outcome.value.count.value)
      && (outcome.value.count.None? ==> r.totalCount == |r.passes|)
    ensures Truthy(s.selectedSponsorId) && outcome.Threw? ==>
      r.passes == s.passes && r.totalCount == s.totalCount
      && r.error == Some(ErrorText(outcome.error, LoadFailedMessage))
  {
    if !Truthy(s.selectedSponsorId) then s
    else
      match outcome
      case Resolved(response) =>
        var filtered := VisiblePasses(response.results, s.selectedSponsorId);
        s.(passes := filtered, totalCount := ReportedCount(response.count, filtered),
           passesLoading := false, error := None)
      case Threw(e) =>
        s.(passesLoading := false, error := Some(ErrorText(e, LoadFailedMessage)))
  }

  /** `sponsors[0]?.id` */
  function DefaultSponsorId(sponsors: seq<Sponsor>): (r: Option<int>)
    ensures r.Some? <==> |sponsors| > 0
    ensures r.Some? ==> r.value == sponsors[0].id
  {
    if |sponsors| > 0 then Some(sponsors[0].id) else None
  }

  datatype BootData = BootData(user: User, sponsors: PaginatedResponse<Sponsor>)

  datatype SponsorsQuery = SponsorsQuery(limit: int, offset: int)

  /**
   * The state once bootstrap's calls resolved: the first sponsor is selected
   * (none for an empty list), and the error says so exactly when the list is empty.
   */
  function Booted(s: AppState, data: BootData): (r: AppState)
    ensures r.sponsors == data.sponsors.results && r.user == Some(data.user) && !r.loading
    ensures |r.sponsors| > 0 ==> r.selectedSponsorId == Some(r.sponsors[0].id) && r.error.None?
    ensures |r.sponsors| == 0 ==> r.selectedSponsorId.None? && r.error == Some(NoSponsorsMessage)
    ensures r == s.(user := r.user, sponsors := r.sponsors, selectedSponsorId := r.selectedSponsorId,
                    loading := false, error := r.error)
  {
    var sponsors := data.sponsors.results;
    s.(user := Some(data.user), sponsors := sponsors, selectedSponsorId := DefaultSponsorId(sponsors),
       loading := false, error := if |sponsors| > 0 then None else Some(NoSponsorsMessage))
  }

  /** The create form's four inputs, as read from the FormData. */
  datatype CreateForm = CreateForm(firstName: string, lastName: string, email: string, expiresAt: string)

  /** How the submit handler decides before any call. */
  datatype Submission =
    | NeedSponsor
    | MissingFields
    | InvalidDate          // `new Date(x).toISOString()` throws a RangeError
    | Send(request: CreateSponsorPassRequest)

  /**
   * The checks of the create form's submit handler, in order. `toIso` is
   * `new Date(x).toISOString()`, None where it throws.
   */
  function Submit(selected: Option<int>, form: CreateForm, toIso: string -> Option<string>): (d: Submission)
    ensures d.NeedSponsor? <==> !Truthy(selected)
    ensures d.MissingFields? <==>
      Truthy(selected) && (Trim(form.firstName) == [] || Trim(form.lastName) == [] || Trim(form.email) == [])
    ensures d.InvalidDate? <==>
      && Truthy(selected)
      && Trim(form.firstName) != [] && Trim(form.lastName) != [] && Trim(form.email) != []
      && Trim(form.expiresAt) != [] && toIso(Trim(form.expiresAt)).None?
    ensures d.Send? ==>
      && Some(d.request.sponsor) == selected && d.request.sponsor != 0
      && d.request.firstName == Trim(form.firstName) && d.request.firstName != []
      && d.request.lastName == Trim(form.lastName) && d.request.lastName != []
      && d.request.email == Trim(form.email) && d.request.email != []
      && (Trim(form.expiresAt) == [] ==> d.request.expiresAt.None?)
      && (Trim(form.expiresAt) != [] ==>
            d.request.expiresAt.Some? && d.request.expiresAt == toIso(Trim(form.expiresAt)))
  {
    if !Truthy(selected) then NeedSponsor
    else
      var firstName, lastName, email := Trim(form.firstName), Trim(form.lastName), Trim(form.email);
      var expiresAtInput := Trim(form.expiresAt);
      if firstName == [] || lastName == [] || email == [] then MissingFields
      else if expiresAtInput != [] && toIso(expiresAtInput).None? then InvalidDate
      else
        var expiresAt := if expiresAtInput != [] then toIso(expiresAtInput) else None;
        Send(CreateSponsorPassRequest(selected.value, firstName, lastName, email, expiresAt))
  }

  /** A required field holding only white space counts as missing. */
  lemma BlankNameIsMissing(selected: Option<int>, form: CreateForm, toIso: string -> Option<string>)
    requires Truthy(selected)
    requires forall i :: 0 <= i < |form.firstName| ==> IsWhiteSpace(form.firstName[i])
    ensures Submit(selected, form, toIso) == MissingFields
  {
    TrimEmptyIff(form.firstName);
  }

  class App {
    var state: AppState

    constructor ()
      ensures state == InitialState
    {
      state := InitialState;
    }

    /** `update(partial)`; the re-render it triggers is not modelled. */
    method Update(p: Patch)
      modifies this
      ensures state == Merge(old(state), p)
    {
      state := Merge(state, p);
    }

    /** `loadPasses` up to its await. */
    method BeginLoad() returns (request: Option<ListPassesRequest>)
      modifies this
      ensures request == LoadRequest(old(state))
      ensures request.None? ==> state == old(state)
      ensures request.Some? ==> state == old(state).(passesLoading := true, error := None)
    {
      if !Truthy(state.selectedSponsorId) {
        return None;
      }
      Update(NoChange.(passesLoading := Some(true), error := Some(None)));
      var offset := (state.page - 1) * PageSize;
      if state.showRevoked {
        request := Some(ListAllSponsorPasses(PageSize, offset, true));
      } else {
        request := Some(ListActiveSponsorPasses(PageSize, offset));
      }
    }

    /** `loadPasses` after its await. */
    method SettleLoad(outcome: Outcome<PaginatedResponse<SponsorPass>>)
      modifies this
      ensures outcome.Resolved? ==>
        var filtered := VisiblePasses(outcome.value.results, old(state).selectedSponsorId);
        state == old(state).(passes := filtered, totalCount := ReportedCount(outcome.value.count, filtered),
                             passesLoading := false)
      ensures outcome.Threw? ==>
        state == old(state).(passesLoading := false, error := Some(ErrorText(outcome.error, LoadFailedMessage)))
    {
      match outcome {
        case Resolved(response) =>
          var filtered := VisiblePasses(response.results, state.selectedSponsorId);
          Update(NoChange.(passes := Some(filtered), totalCount := Some(ReportedCount(response.count, filtered)),
                           passesLoading := Some(false)));
        case Threw(e) =>
          Update(NoChange.(passesLoading := Some(false), error := Some(Some(ErrorText(e, LoadFailedMessage)))));
      }
    }

    /** One whole `loadPasses`, the service answering with `outcome`. */
    method LoadPasses(outcome: Outcome<PaginatedResponse<SponsorPass>>) returns (request: Option<ListPassesRequest>)
      modifies this
      ensures request == LoadRequest(old(state))
      ensures state == Loaded(old(state), outcome)
    {
      request := BeginLoad();
      if request.Some? {
        SettleLoad(outcome);
      }
    }

    /**
     * `bootstrap`: `hosted` stands for the `#app` element existing inside the
     * Frontier app; `boot` is the joint outcome of the user and sponsor calls.
     */
    method Bootstrap(hosted: bool, boot: Outcome<BootData>, load: Outcome<PaginatedResponse<SponsorPass>>)
      returns (sponsorsRequest: Option<SponsorsQuery>, passesRequest: Option<ListPassesRequest>)
      modifies this
      ensures !hosted ==> sponsorsRequest.None? && passesRequest.None? && state == old(state)
      ensures hosted ==> sponsorsRequest == Some(SponsorsQuery(SponsorListLimit, 0))
      ensures hosted && boot.Threw? ==>
        && passesRequest.None?
        && state == old(state).(loading := false, error := Some(ErrorText(boot.error, InitFailedMessage)))
      ensures hosted && boot.Resolved? ==>
        var booted := Booted(old(state), boot.value);
        passesRequest == LoadRequest(booted) && state == Loaded(booted, load)
    {
      sponsorsRequest, passesRequest := None, None;
      if !hosted {
        return;
      }
      Update(NoChange.(loading := Some(true)));
      sponsorsRequest := Some(SponsorsQuery(SponsorListLimit, 0));
      match boot {
        case Resolved(data) =>
          var sponsors := data.sponsors.results;
          var defaultSponsor := DefaultSponsorId(sponsors);
          Update(NoChange.(user := Some(Some(data.user)), sponsors := Some(sponsors),
                           selectedSponsorId := Some(defaultSponsor), loading := Some(false),
                           error := Some(if |sponsors| > 0 then None else Some(NoSponsorsMessage))));
          if Truthy(defaultSponsor) {
            passesRequest := LoadPasses(load);
          }
        case Threw(e) =>
          Update(NoChange.(loading := Some(false), error := Some(Some(ErrorText(e, InitFailedMessage)))));
      }
    }

    /** The sponsor select's change handler: select, back to page 1, reload. */
    method ChangeSponsor(value: int, load: Outcome<PaginatedResponse<SponsorPass>>)
      returns (request: Option<ListPassesRequest>)
      modifies this
      ensures var s := old(state).(selectedSponsorId := Some(value), page := 1);
        request == LoadRequest(s) && state == Loaded(s, load)
    {
      Update(NoChange.(selectedSponsorId := Some(Some(value)), page := Some(1)));
      request := LoadPasses(load);
    }

    /** The "show revoked" toggle's change handler: set the flag, back to page 1, reload. */
    method ToggleRevoked(checked: bool, load: Outcome<PaginatedResponse<SponsorPass>>)
      returns (request: Option<ListPassesRequest>)
      modifies this
      ensures var s := old(state).(showRevoked := checked, page := 1);
        request == LoadRequest(s) && state == Loaded(s, load)
    {
      Update(NoChange.(showRevoked := Some(checked), page := Some(1)));
      request := LoadPasses(load);
    }

    /** The Prev button's handler: nothing on page 1, else one page back and reload. */
    method PrevPage(load: Outcome<PaginatedResponse<SponsorPass>>) returns (request: Option<ListPassesRequest>)
      modifies this
      ensures old(state).page == 1 ==> request.None? && state == old(state)
      ensures old(state).page != 1 ==>
        var s := old(state).(page := PrevTarget(old(state).page));
        request == LoadRequest(s) && state == Loaded(s, load)
    {
      if state.page == 1 {
        return None;
      }
      Update(NoChange.(page := Some(state.page - 1)));
      request := LoadPasses(load);
    }

    /** The Next button's handler: nothing on the last page, else one page on and reload. */
    method NextPage(load: Outcome<PaginatedResponse<SponsorPass>>) returns (request: Option<ListPassesRequest>)
      modifies this
      ensures old(state).page >= PageCount(old(state).totalCount) ==> request.None? && state == old(state)
      ensures old(state).page < PageCount(old(state).totalCount) ==>
        var s := old(state).(page := NextTarget(old(state).page, old(state).totalCount));
        request == LoadRequest(s) && state == Loaded(s, load)
    {
      var totalPages := Max(1, CeilDiv(state.totalCount, PageSize));
      if state.page >= totalPages {
        return None;
      }
      Update(NoChange.(page := Some(state.page + 1)));
      request := LoadPasses(load);
    }

    /** A revoke button's handler up to its await; `revokeId` is `Number(dataset.revokeId)`. */
    method BeginRevoke(revokeId: int) returns (request: Option<RevokeSponsorPassRequest>)
      modifies this
      ensures revokeId == 0 ==> request.None? && state == old(state)
      ensures revokeId != 0 ==>
        request == Some(RevokeSponsorPassRequest(revokeId)) && state == old(state).(revokingId := Some(revokeId))
    {
      if revokeId == 0 {
        return None;
      }
      Update(NoChange.(revokingId := Some(Some(revokeId))));
      request := Some(RevokeSponsorPassRequest(revokeId));
    }

    /** A revoke button's handler after its await: reload on success, report on failure, and always clear `revokingId`. */
    method SettleRevoke(outcome: Outcome<SponsorPass>, load: Outcome<PaginatedResponse<SponsorPass>>)
      returns (loadRequest: Option<ListPassesRequest>)
      modifies this
      ensures outcome.Resolved? ==>
        loadRequest == LoadRequest(old(state)) && state == Loaded(old(state), load).(revokingId := None)
      ensures outcome.Threw? ==>
        && loadRequest.None?
        && state == old(state).(error := Some(ErrorText(outcome.error, RevokeFailedMessage)), revokingId := None)
    {
      loadRequest := None;
      match outcome {
        case Resolved(_) =>
          loadRequest := LoadPasses(load);
        case Threw(e) =>
          Update(NoChange.(error := Some(Some(ErrorText(e, RevokeFailedMessage)))));
      }
      Update(NoChange.(revokingId := Some(None)));
    }

    /** A whole click on a revoke button. */
    method RevokeClicked(revokeId: int, outcome: Outcome<SponsorPass>, load: Outcome<PaginatedResponse<SponsorPass>>)
      returns (request: Option<RevokeSponsorPassRequest>, loadRequest: Option<ListPassesRequest>)
      modifies this
      ensures revokeId == 0 ==> request.None? && loadRequest.None? && state == old(state)
      ensures revokeId != 0 ==> request == Some(RevokeSponsorPassRequest(revokeId)) && state.revokingId.None?
      ensures revokeId != 0 && outcome.Resolved? ==>
        loadRequest == LoadRequest(old(state)) && state == Loaded(old(state), load).(revokingId := None)
      ensures revokeId != 0 && outcome.Threw? ==>
        && loadRequest.None?
        && state == old(state).(error := Some(ErrorText(outcome.error, RevokeFailedMessage)), revokingId := None)
    {
      loadRequest := None;
      request := BeginRevoke(revokeId);
      if request.Some? {
        loadRequest := SettleRevoke(outcome, load);
      }
    }

    /** The "Create Pass" button opens the dialog with no form error. */
    method OpenCreate()
      modifies this
      ensures state == old(state).(modalOpen := true, formError := None)
    {
      Update(NoChange.(modalOpen := Some(true), formError := Some(None)));
    }

    /** The backdrop and the close button shut the dialog and drop the form error. */
    method CloseModal()
      modifies this
      ensures state == old(state).(modalOpen := false, formError := None)
    {
      Update(NoChange.(modalOpen := Some(false), formError := Some(None)));
    }

    /** The create form's submit handler up to its await. */
    method BeginCreate(form: CreateForm, toIso: string -> Option<string>)
      returns (request: Option<CreateSponsorPassRequest>)
      modifies this
      ensures var d := Submit(old(state).selectedSponsorId, form, toIso);
        && request == (if d.Send? then Some(d.request) else None)
        && state == match d
             case NeedSponsor => old(state).(formError := Some(SelectSponsorMessage))
             case MissingFields => old(state).(formError := Some(FillFieldsMessage))
             case InvalidDate => old(state)
             case Send(_) => old(state).(creating := true, formError := None)
    {
      match Submit(state.selectedSponsorId, form, toIso) {
        case NeedSponsor =>
          Update(NoChange.(formError := Some(Some(SelectSponsorMessage))));
          request := None;
        case MissingFields =>
          Update(NoChange.(formError := Some(Some(FillFieldsMessage))));
          request := None;
        case InvalidDate =>
          request := None;
        case Send(r) =>
          Update(NoChange.(creating := Some(true), formError := Some(None)));
          request := Some(r);
      }
    }

    /** The create form's submit handler after its await. */
    method SettleCreate(outcome: Outcome<SponsorPass>, load: Outcome<PaginatedResponse<SponsorPass>>)
      returns (loadRequest: Option<ListPassesRequest>)
      modifies this
      ensures outcome.Resolved? ==>
        var s := old(state).(modalOpen := false, creating := false, page := 1);
        loadRequest == LoadRequest(s) && state == Loaded(s, load)
      ensures outcome.Threw? ==>
        && loadRequest.None?
        && state == old(state).(creating := false, formError := Some(ErrorText(outcome.error, CreateFailedMessage)))
    {
      match outcome {
        case Resolved(_) =>
          Update(NoChange.(modalOpen := Some(false), creating := Some(false), page := Some(1)));
          loadRequest := LoadPasses(load);
        case Threw(e) =>
          Update(NoChange.(creating := Some(false), formError := Some(Some(ErrorText(e, CreateFailedMessage)))));
          loadRequest := None;
      }
    }

    /** A whole submit of the create form. */
    method CreateSubmitted(form: CreateForm, toIso: string -> Option<string>, outcome: Outcome<SponsorPass>,
                           load: Outcome<PaginatedResponse<SponsorPass>>)
      returns (request: Option<CreateSponsorPassRequest>, loadRequest: Option<ListPassesRequest>)
      modifies this
      ensures var d := Submit(old(state).selectedSponsorId, form, toIso);
        request == (if d.Send? then Some(d.request) else None)
      ensures request.None? ==>
        && loadRequest.None?
        && state == match Submit(old(state).selectedSponsorId, form, toIso)
             case NeedSponsor => old(state).(formError := Some(SelectSponsorMessage))
             case MissingFields => old(state).(formError := Some(FillFieldsMessage))
             case _ => old(state)
      ensures request.Some? && outcome.Resolved? ==>
        var s := old(state).(modalOpen := false, creating := false, page := 1, formError := None);
        loadRequest == LoadRequest(s) && state == Loaded(s, load)
      ensures request.Some? && outcome.Threw? ==>
        && loadRequest.None?
        && state == old(state).(creating := false, formError := Some(ErrorText(outcome.error, CreateFailedMessage)))
    {
      loadRequest := None;
      request := BeginCreate(form, toIso);
      if request.Some? {
        loadRequest := SettleCreate(outcome, load);
      }
    }
  }
}

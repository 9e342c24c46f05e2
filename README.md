# Sponsor Pass Manager — a Dafny model of its core

The Sponsor Pass Manager lets a sponsor's operator do four things:

- list the passes that belong to the sponsor, one page at a time, with or without revoked passes;
- create a pass;
- revoke a pass;
- switch between the sponsors the account can manage.

This project models that core in Dafny and proves properties of the model. It covers the two front ends.

The first front end is the plain-TypeScript app in `src/main.ts`:

- one mutable state record, updated by merging partial updates;
- the bootstrap sequence;
- the server-paged `loadPasses`;
- the event handlers: sponsor select, revoked toggle, Prev/Next, revoke, and the create modal and form.

The second front end is the React hooks and components:

- `usePasses`: fetches up to 1000 passes, filters them by sponsor and pages them client-side, 10 per page;
- `useSponsors`: loads the sponsors and defaults the selection to the first one;
- `usePassActions`: create and revoke, with busy flags and error text;
- the `Pagination` control: which page buttons and ellipses it shows, and which arrows are disabled;
- the zod `createPassSchema`.

Modules:

- `Types`: the SDK's records (`Sponsor`, `SponsorPass`, the request types, `PaginatedResponse`). It also holds `Outcome`, which models a call that either resolves or throws. `Thrown` models what was thrown: an `Error` with its message, or anything else. `ErrorText(e, fallback)` is `err instanceof Error ? err.message : fallback`.
- `JsBuiltins`: the JavaScript built-ins the core relies on.
  - `Math.ceil` of a division.
  - `Array.prototype.slice` with relative indices.
  - `String.prototype.trim`, over the ECMAScript WhiteSpace and LineTerminator characters.
- `PassFilter`: `filter((p) => p.sponsor === id)`, shared by both front ends.
- `UsePasses`: the pure derivations of `usePasses`. It also has the `PassesHook` class holding the hook's state. `SponsorKey` is `selectedSponsor?.id`, the reset effect's dependency.
- `UseSponsors`: the default-selection rule, and the `SponsorStore` class for the sponsor context state that the hook updates.
- `UsePassActions`: the `PassActions` class.
- `Pagination`: `Render(page, totalPages)`, the whole control as a value.
- `CreatePassSchema`: the schema's `safeParse`, returning the issues in zod's order.
- `MainApp`: `AppState`, the `Partial<AppState>` merge, and the `App` class whose methods are the handlers. `Truthy(id)` is the negation of `!id`: the id is present and not 0.

Each awaited SDK call is modelled as a parameter of type `Outcome<…>`. Where the in-flight state matters (a busy flag that shows on screen), the operation is split at the `await`:

- a `Begin…` method holds the synchronous part before the `await`; in `MainApp.App` and `UsePasses.PassesHook` it also returns the request it would send;
- a `Settle…` method holds the part after the `await`;
- a composite method runs both and states the end state; in `UsePassActions.PassActions` it is the composite that returns the request sent (`sent`).

The other handlers are one method each that takes every outcome they await as a parameter: `MainApp.App.Bootstrap`, the sponsor and toggle handlers, and Prev/Next.

## Model

| member | source | states |
|---|---|---|
| JsBuiltins.CeilDiv | src/hooks/usePasses.ts:26 | the result is the least integer q with a <= q*b, i.e. `Math.ceil(a / b)` for a positive divisor |
| JsBuiltins.CeilDivOfCount | src/hooks/usePasses.ts:26 | the page count of a non-negative count is non-negative, and 0 exactly when the count is 0 |
| JsBuiltins.Slice | src/hooks/usePasses.ts:29-30 | `slice` never lengthens; for 0 <= start <= end it is the sub-sequence from start to end, both clamped to the length |
| JsBuiltins.TrimStart | src/main.ts:403-406 | the result is a suffix of the input; everything dropped is white space; the result is empty or starts with a non-white-space character |
| JsBuiltins.TrimEnd | src/main.ts:403-406 | the result is a prefix of the input; everything dropped is white space; the result is empty or ends with a non-white-space character |
| JsBuiltins.Trim | src/main.ts:403-406 | never lengthens; a non-empty result neither starts nor ends with white space |
| JsBuiltins.TrimEmptyIff | src/main.ts:403-408 | `trim()` gives the empty string exactly when every character is white space, so `!firstName` catches blank input |
| JsBuiltins.TrimIsInfix | src/main.ts:403-406 | `trim()` returns a contiguous piece of the input, starting where the leading white space ends |
| JsBuiltins.TrimUnchangedIff | src/main.ts:403-406 | `trim()` leaves a string unchanged exactly when it is empty or neither end is white space |
| PassFilter.OfSponsor | src/hooks/usePasses.ts:23 | the filter keeps exactly the passes of the given sponsor and never lengthens the list |
| PassFilter.OfSponsorAppend | src/hooks/usePasses.ts:23 | filtering distributes over concatenation, so the order of kept passes is the input order |
| PassFilter.OfSponsorCounts | src/hooks/usePasses.ts:23 | each kept pass occurs as often as in the input, and other sponsors' passes not at all |
| PassFilter.OfSponsorKeepsOwn | src/main.ts:287 | a list holding only the sponsor's passes comes back unchanged |
| PassFilter.OfSponsorIdempotent | src/hooks/usePasses.ts:21-24 | filtering twice is filtering once |
| UsePasses.FilteredPasses | src/hooks/usePasses.ts:21-24 | with no selected sponsor the list is empty; otherwise it holds exactly the fetched passes of the selected sponsor |
| UsePasses.TotalPages | src/hooks/usePasses.ts:26 | the page count is the least t with n <= 10t, and 0 exactly when there is nothing to show |
| UsePasses.PageOf | src/hooks/usePasses.ts:28-31 | a page has at most 10 passes; page k >= 1 is the slice from 10(k-1) to 10k of the filtered list |
| UsePasses.PageInRangeIsFilled | src/hooks/usePasses.ts:26-31 | every page from 1 to totalPages holds between 1 and 10 passes |
| UsePasses.PagePastEndIsEmpty | src/hooks/usePasses.ts:26-31 | a page past totalPages is empty |
| UsePasses.PagesThroughIsPrefix | src/hooks/usePasses.ts:28-31 | pages 1..k laid end to end are the first 10k filtered passes |
| UsePasses.PagesPartitionFiltered | src/hooks/usePasses.ts:26-31 | pages 1..totalPages laid end to end are exactly the filtered list: no pass lost, none repeated |
| UsePasses.NoSponsorNoPasses | src/hooks/usePasses.ts:22 | without a selected sponsor there are no pages and every page is empty |
| UsePasses.PassesHook.Passes | src/hooks/usePasses.ts:21-31 | the returned passes are at most 10, all fetched passes of the selected sponsor (none without a sponsor) |
| UsePasses.PassesHook.PageCount | src/hooks/usePasses.ts:26 | the returned page count covers the selected sponsor's passes at 10 per page, and is 0 exactly when there are none |
| UsePasses.PassesHook.constructor | src/hooks/usePasses.ts:13-19 | the hook starts with no passes, not loading, on page 1, with the sponsor and `showRevoked` flag the caller passes |
| UsePasses.PassesHook.SetPage | src/hooks/usePasses.ts:19 | `setPage` stores the page and changes nothing else |
| UsePasses.PassesHook.SetQuery | src/hooks/usePasses.ts:55-63 | a change of sponsor or revoked flag re-runs the fetch; the page resets to 1 exactly when the sponsor id or the flag changed |
| UsePasses.PassesHook.BeginFetch | src/hooks/usePasses.ts:33-46 | with no sponsor the passes are cleared and nothing is sent; otherwise loading starts and the request is listAll with limit 1000, offset 0 and the revoked flag |
| UsePasses.PassesHook.SettleFetch | src/hooks/usePasses.ts:47-54 | loading ends; success stores the results, failure clears them |
| UsePasses.PassesHook.FetchPasses | src/hooks/usePasses.ts:33-55 | the whole fetch: the request is sent exactly when a sponsor is selected, and the end state is as in the two halves |
| UseSponsors.DefaultSelection | src/hooks/useSponsors.ts:25-27 | the selection is empty only if it was empty and the list is empty; when it changes, it was empty and becomes the first listed sponsor |
| UseSponsors.DefaultSelectionSpec | src/hooks/useSponsors.ts:25-27 | an existing selection is kept; with none, the first listed sponsor is chosen; an empty list changes nothing |
| UseSponsors.DefaultSelectionIsListed | src/hooks/useSponsors.ts:25-27 | when the previous selection was a listed sponsor or none, the selection after a non-empty load is a listed sponsor |
| UseSponsors.DefaultSelectionStable | src/hooks/useSponsors.ts:25-27 | a second load does not move a selection the first load made |
| UseSponsors.SponsorStore.constructor | src/context/SponsorContext.tsx:16-18 | the context starts with no sponsors, no selection and loading |
| UseSponsors.SponsorStore.SetSelectedSponsor | src/hooks/useSponsors.ts:11 | the selection becomes the given sponsor |
| UseSponsors.SponsorStore.BeginFetch | src/hooks/useSponsors.ts:18-19 | loading starts |
| UseSponsors.SponsorStore.SettleFetch | src/hooks/useSponsors.ts:20-32 | loading ends; success stores the list and applies the default selection; failure leaves the list and the selection |
| UseSponsors.SponsorStore.FetchSponsors | src/hooks/useSponsors.ts:17-33 | the whole fetch, with the same end state as its two halves |
| UseSponsors.MountScenario | src/hooks/useSponsors.ts:16-36 | on mount the list is stored, loading ends, and the first sponsor is selected exactly when the list is non-empty |
| UsePassActions.PassActions.constructor | src/hooks/usePassActions.ts:5-8 | nothing busy, no error, no success callback yet |
| UsePassActions.PassActions.BeginCreate | src/hooks/usePassActions.ts:12-13 | creating starts and the error is cleared |
| UsePassActions.PassActions.SettleCreate | src/hooks/usePassActions.ts:15-26 | creating ends; success calls onSuccess once if given and fulfils with true, unless onSuccess throws, which sets its error text and rejects with it; a failed call sets the error text (message or fallback) and rejects with the thrown value |
| UsePassActions.PassActions.CreatePass | src/hooks/usePassActions.ts:10-29 | the data is sent unchanged; the end state and the settled promise are as `SettleCreate` states, with the error cleared first |
| UsePassActions.PassActions.BeginRevoke | src/hooks/usePassActions.ts:33-34 | revoking starts and the error is cleared |
| UsePassActions.PassActions.SettleRevoke | src/hooks/usePassActions.ts:36-47 | revoking ends; success calls onSuccess once if given and fulfils with true, unless onSuccess throws, which sets its error text and rejects with it; a failed call sets the error text and rejects with the thrown value |
| UsePassActions.PassActions.RevokePass | src/hooks/usePassActions.ts:31-50 | the request carries only the pass's id; the end state and the settled promise are as `SettleRevoke` states, with the error cleared first |
| UsePassActions.PassActions.ClearError | src/hooks/usePassActions.ts:52-54 | the error is cleared and nothing else changes |
| UsePassActions.CreateScenario | src/hooks/usePassActions.test.ts:25-136 | the flag is up while the call is pending; a failure rejects with the thrown error and leaves its message; clearError removes it |
| UsePassActions.SuccessScenario | src/hooks/usePassActions.test.ts:138-155 | a successful create calls onSuccess once and fulfils with true |
| Pagination.ItemFor | src/components/Pagination.tsx:34-64 | page n gets its numbered button exactly when shown, an ellipsis exactly in an ellipsis slot, and nothing otherwise |
| Pagination.ItemsFrom | src/components/Pagination.tsx:33-65 | the entries for pages n..totalPages are at most one per page |
| Pagination.ItemsFromAscending | src/components/Pagination.tsx:33-65 | the entries come in strictly ascending page order within the range scanned |
| Pagination.ItemsFromAllowed | src/components/Pagination.tsx:33-65 | every entry is a button for a shown page, or an ellipsis at page 2 or totalPages-1 for a hidden page |
| Pagination.ItemsFromComplete | src/components/Pagination.tsx:33-65 | every shown page gets its button and every ellipsis slot gets its ellipsis |
| Pagination.ItemsFacts | src/components/Pagination.tsx:33-65 | the three facts above for the whole list 1..totalPages |
| Pagination.Render | src/components/Pagination.tsx:16-74 | nothing is drawn iff totalPages <= 1; Previous disabled iff page 1; Next disabled iff the last page; the arrows emit page-1 and page+1; a page button appears iff the page is an endpoint or within 1 of the current page; an ellipsis appears iff the page is hidden and is 2 or totalPages-1 |
| Pagination.ItemsAscending | src/components/Pagination.tsx:33-65 | the entries are in ascending page order and each button hands its own number to onPageChange |
| Pagination.AtMostTwoEllipses | src/components/Pagination.tsx:39-47 | there are never more than two ellipses |
| Pagination.EnabledArrowsStayInRange | src/components/Pagination.tsx:24-74 | from a page within 1..totalPages, an enabled arrow never emits a page outside that range |
| Pagination.ThreePagesExample | src/components/Pagination.test.tsx:22-52 | three pages: Previous disabled on page 1, buttons 1 2 3 with 1 active, no ellipsis |
| Pagination.TenPagesExample | src/components/Pagination.test.tsx:87-93 | ten pages on page 5: 1, ellipsis, 4 5 6, ellipsis, 10 |
| CreatePassSchema.NameIssues | src/forms/createPassSchema.ts:4-11 | a name has no issue exactly when it is 1 to 100 characters long, at most one issue otherwise, under its own field |
| CreatePassSchema.EmailIssues | src/forms/createPassSchema.ts:12-14 | no issue exactly when the email is non-empty and well-formed; at most two issues, under email; an empty email always ends with "Email is required" |
| CreatePassSchema.ExpiresAtIssues | src/forms/createPassSchema.ts:15-21 | no issue exactly when the expiry is absent, empty or parses as a date; at most one issue otherwise |
| CreatePassSchema.Issues | src/forms/createPassSchema.ts:3-22 | at most five issues, grouped by field in declaration order |
| CreatePassSchema.SafeParse | src/forms/createPassSchema.ts:3-22 | success returns the data unchanged; failure carries one to five issues in declaration order of their fields |
| CreatePassSchema.FieldIssuesIff | src/forms/createPassSchema.ts:3-22 | a field has no issues exactly when it is valid: names 1..100 long, an email that is well-formed and non-empty, an expiry that is absent, empty or parseable as a date; every issue names its own field |
| CreatePassSchema.SafeParseIff | src/forms/createPassSchema.ts:3-22 | parsing succeeds exactly when all four fields are valid, and then returns the data unchanged |
| CreatePassSchema.IssuesNameInvalidFields | src/forms/createPassSchema.ts:3-22 | every reported issue names a field that is invalid |
| CreatePassSchema.FirstIssueIsFirstInvalidField | src/forms/createPassSchema.ts:3-22 | the first issue names the first invalid field in declaration order (firstName, lastName, email, expiresAt) |
| CreatePassSchema.SchemaExamples | src/forms/createPassSchema.test.ts:5-96 | valid data passes, an empty expiry passes, a missing name, a bad email, a bad date or a 101-character first name fails, and the first issue names the field |
| MainApp.Merge | src/main.ts:45-48 | an update leaves the state as it was exactly when every key it supplies already holds the supplied value |
| MainApp.MergeNoChange | src/main.ts:45-48 | an empty partial update leaves the state as it was |
| MainApp.MergeSequence | src/main.ts:45-48 | two updates in a row equal one update where the later update's keys win |
| MainApp.MergeIdempotent | src/main.ts:45-48 | applying the same update twice is applying it once |
| MainApp.MergeOnlySupplied | src/main.ts:45-48 | for each of the 14 fields, a supplied key takes the supplied value and a key left out keeps its value |
| MainApp.PageCount | src/main.ts:166 | at least one page; the pages hold all the counted passes at 6 per page, and the last of several pages is not empty |
| MainApp.PrevTarget | src/main.ts:353-356 | Prev stays put exactly on page 1 and otherwise moves back one page |
| MainApp.NextTarget | src/main.ts:360-364 | Next stays put exactly on or past the last page and otherwise moves forward one page |
| MainApp.NavigationStaysInRange | src/main.ts:352-365 | Prev and Next keep a page inside 1..PageCount and move it by at most one |
| MainApp.PagerOf | src/main.ts:165-176 | the strip shows exactly when the count exceeds 6, with at least two pages; both buttons are disabled while loading; otherwise Prev is disabled exactly on page 1 and Next exactly on or past the last page |
| MainApp.PagerMatchesHandlers | src/main.ts:165-176 | when the Prev/Next strip shows and no load runs, there are at least two pages and each button is disabled exactly when its handler would do nothing |
| MainApp.LoadRequest | src/main.ts:276-285 | no call without a truthy sponsor id; otherwise 6 passes at offset (page-1)*6, from listAll with includeRevoked exactly when revoked passes are shown, else from listActive |
| MainApp.VisiblePasses | src/main.ts:287 | exactly the page's passes whose sponsor is the selected sponsor |
| MainApp.ReportedCount | src/main.ts:290 | the service count when it gives one, else the number of kept passes |
| MainApp.Loaded | src/main.ts:276-297 | only passes, count, loading flag and error change, and nothing changes without a truthy sponsor; success clears the error, keeps the selected sponsor's passes, and takes the service count or else the kept length; failure keeps the old passes and count and sets the error text |
| MainApp.DefaultSponsorId | src/main.ts:315 | an id exactly when the list is non-empty, and then the first sponsor's id |
| MainApp.Booted | src/main.ts:314-323 | the user and sponsor list are stored and loading ends; the first sponsor is selected when there is one, and the error is "No sponsors…" exactly when the list is empty |
| MainApp.Submit | src/main.ts:397-424 | no truthy sponsor id rejects first; a blank trimmed required field is "missing" exactly when a sponsor is set; a non-empty date that does not convert is refused exactly when the earlier checks pass; otherwise the request carries the sponsor id, the trimmed fields, and the converted expiry exactly when one was entered |
| MainApp.BlankNameIsMissing | src/main.ts:403-411 | a first name of white space only is reported as a missing field |
| MainApp.App.constructor | src/main.ts:33-43 | the initial state: loading, page 1, no sponsors, no passes, nothing selected |
| MainApp.App.Update | src/main.ts:45-48 | the state becomes the merge of the old state with the update |
| MainApp.App.BeginLoad | src/main.ts:276-278 | sends the request `LoadRequest` computes; without one nothing changes, with one loading starts and the error clears |
| MainApp.App.SettleLoad | src/main.ts:287-296 | the state after the response or the failure, as `Loaded` states |
| MainApp.App.LoadPasses | src/main.ts:276-297 | the whole load: the request is `LoadRequest` of the old state and the new state is `Loaded` of the old state |
| MainApp.App.Bootstrap | src/main.ts:299-335 | outside the host app nothing happens; inside it sponsors are asked with limit 50, offset 0; failure ends loading with the error text; success gives the booted state and loads the first sponsor's passes when there is one |
| MainApp.App.ChangeSponsor | src/main.ts:339-343 | the sponsor id is set, the page resets to 1, and the passes reload |
| MainApp.App.ToggleRevoked | src/main.ts:346-350 | the revoked flag is set, the page resets to 1, and the passes reload |
| MainApp.App.PrevPage | src/main.ts:353-357 | on page 1 nothing happens; otherwise the page decreases by one and the passes reload |
| MainApp.App.NextPage | src/main.ts:360-365 | on or past the last page nothing happens; otherwise the page increases by one and the passes reload |
| MainApp.App.BeginRevoke | src/main.ts:368-373 | a falsy id does nothing; otherwise the revoking id is set and the revoke request carries that id |
| MainApp.App.SettleRevoke | src/main.ts:373-380 | success reloads the passes, failure sets the error text, and either way the revoking id clears |
| MainApp.App.RevokeClicked | src/main.ts:367-382 | the whole revoke click, with the end state of the two halves |
| MainApp.App.OpenCreate | src/main.ts:385-387 | the modal opens with no form error |
| MainApp.App.CloseModal | src/main.ts:389-392 | the modal closes with no form error |
| MainApp.App.BeginCreate | src/main.ts:395-418 | follows `Submit`: a refusal sets its form error (or stops on a bad date); a request marks creating and clears the form error |
| MainApp.App.SettleCreate | src/main.ts:418-434 | success closes the modal, ends creating, goes to page 1 and reloads; failure ends creating and sets the form error text |
| MainApp.App.CreateSubmitted | src/main.ts:395-435 | the whole submit: what is sent is `Submit`'s request; a refusal sets "Select a sponsor first." or "Please fill all required fields." (a bad date changes nothing); a sent request ends as `SettleCreate` states |

## Left out

- Rendering: the HTML strings of `render`, `renderPass`, `renderControls`, the modal, the skeletons and `formatDate`, and the React JSX. Two sets of render decisions are kept: the Prev/Next strip of `renderPagination` (`MainApp.PagerOf`) and the `Pagination` control (`Pagination.Render`).
- Other render decisions of `src/main.ts` are not modelled: the Create Pass button disabled without a selected sponsor (line 136), the sponsor select disabled without sponsors (line 142), a revoke button disabled while its id is being revoked (line 90), the submit button disabled while creating (line 211), and the choice between skeletons, the pass list and the empty-state message (lines 234-238). The state they read is modelled.
- `usePasses`'s default `showRevoked = false` (usePasses.ts:14): `PassesHook.constructor` takes the flag as a required argument, as its one caller `Dashboard.tsx` always passes it.
- `isInFrontierApp()` and the `#app` lookup are folded into one `hosted` flag of `Bootstrap`. `renderStandaloneMessage` is not modelled.
- `console.error` logging is not modelled.
- The SDK, the network and `Promise.all` are not modelled. Each call's result is an `Outcome` parameter, and the user details and the sponsor list arrive together as one `BootData`.
- Concurrency: handlers are modelled as running to completion one at a time. Interleaved loads, stale responses overwriting newer state, and React's batching of state updates are not captured.
- Number parsing: the sponsor select and the revoke button go through `Number(...)`. The model takes the resulting integer as input and does not model `NaN`, which is falsy like 0.
- Strings are sequences of characters. zod's `.min`/`.max` count UTF-16 code units, so characters outside the Basic Multilingual Plane are not modelled.
- Email syntax and `Date.parse` are abstract predicates, `Checkers.isEmail` and `Checkers.parsesAsDate`. `new Date(x).toISOString()` is the parameter `toIso`, where `None` stands for the `RangeError` it throws. zod's exact email regular expression and the browser's date grammar are not modelled.
- zod's type errors for non-string inputs are not modelled: the form data is always strings.
- `sponsorsResponse.results ?? []`: the model's `PaginatedResponse` always carries a result list, so the `undefined` case is not modelled.
- React identity: the sponsor objects and the `useEffect` dependency lists compare with `===`. The model compares them as values. `SetQuery` returns a `refetch` flag in place of the effect re-running.
- UseSponsors.SponsorStore.constructor: `SponsorContext.tsx` owns this state. The model keeps only the fields `useSponsors` updates.
- MainApp.Loaded: `totalCount` is the service's count before the client-side sponsor filter. So the "N total" figure and the page count can exceed the selected sponsor's passes. The model states this as written and does not claim the count matches the visible passes.
- Schema issue order: zod runs every check on a field, so an empty email reports both the format issue and the "Email is required" issue, in that order. The model follows the code, not the idea that a field reports only its first failure.
- UsePassActions.PassActions.SettleCreate and SettleRevoke: the rejected promise is modelled as a `Rejected(thrown)` value, and what `onSuccess` does is reduced to whether it throws (the `callbackThrows` parameter). The exception's propagation through callers is not modelled.

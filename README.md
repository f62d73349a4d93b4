# Account lookup control — a Dafny model

This project models the core of a lookup control for a low-code form host.
The control is a text input bound to a form field. Beside it is a modal that
searches the account directory, pages through the results with infinite
scroll, and lets the user pick one account. Two pieces are modelled:

- **The search-and-select widget** (`AccountLookupModal`). Its state is the
  loaded rows, the remembered `@odata.nextLink` continuation link, the
  "more pages" and "in flight" flags, the four search fields, the main
  input's text and the selected record id. The model covers:
  - building the OData `$filter` (section 5.1.1 of OData Version 4.0 Part 2:
    URL Conventions);
  - choosing between the continuation link (section 4.5.5 of OData JSON
    Format Version 4.0) and a fresh query URL;
  - applying a response: a search replaces the rows, a pagination fetch merges
    with de-duplication;
  - the infinite-scroll trigger;
  - the handlers for field edits, paste, the search button, a row click, the
    clear cross and the modal's Clear button.
- **The host adapter** (`PcfDistributorLookupNew`). It holds the bound value
  and the lock flag. The model covers its constructor, initialisation with the
  status-lookup guard, the lock decision, stripping braces from the record id,
  resolving the bound value, the outputs and the change handler.

Every network answer is a parameter: a fetch response (status, rows, optional
link), the status lookup's answer and the name lookup's outcome. The base URL
of the environment is a parameter too. `None` means the host's global form API
is missing, and that makes a fetch fail before it is sent.

Files, one module each:

- `lookup_types.dfy`: `Option`, the entity reference and the account row.
- `js_strings.dfy`: the JavaScript built-ins used (`join`, `trim`, and
  `replace` with a one-character pattern), plus an `indexOf` helper that
  specifies which character `replace` removes.
- `odata_filter.dfy`: the filter and the request URL.
- `result_set.dfy`: the de-duplicating merge.
- `paging.dfy`: response application, the scroll trigger, and the pagination
  state machine with its termination lemma.
- `lookup_widget.dfy`: the widget as a class whose handlers are methods.
- `host_adapter.dfy`: the adapter as a class.
- `wiring.dfy`: a user action run through both widget and adapter.

Each widget handler applies its state updates in the order the source issues
them, to one state object. Reads of the continuation link use the value the
handler started with, as a closure over the rendered state does. So the Clear
button's fetch still sees the link from before the reset
(`LookupWidget.ClearFilters`).

Behaviours of the code worth knowing, all modelled as written:

- A new search does not re-arm pagination. Only the modal's Clear button sets
  "more pages" back to true.
- A pagination fetch whose answer has no link leaves the remembered link as it
  was. Only a search response, or the Clear button, clears it.
- The widget and the adapter apply no guard against stale or out-of-order
  responses.
- When the host supplies no extra filter clause, the widget splices the word
  `undefined` into the filter. See `HostAdapter.MissingCriteriaSplicesUndefined`.

## Model

| member | source | states |
|---|---|---|
| `ODataFilter.BuildFilter` | pcfAccountLookup/src/AccountLookupModal.ts:198-221 | The filter is `&$filter=` and then a `contains(column,'value')` predicate for each non-empty field, in the order name, customer account, ship-to account. Each predicate is followed by ` and `. Then come `statecode eq 0`, ` and ` and the extra clause. The city field never appears. Values are spliced in without quote escaping. |
| `JsStrings.JoinWithTail` | pcfAccountLookup/src/AccountLookupModal.ts:220-221 | Joining head parts followed by a non-empty tail gives each head part with one separator, then the joined tail. |
| `ODataFilter.CriteriaText` | pcfAccountLookup/src/AccountLookupModal.ts:217 | A template literal renders a present extra clause as itself and an absent one as the word `undefined`. |
| `ODataFilter.FreshUrl` | pcfAccountLookup/src/AccountLookupModal.ts:227 | The fresh query starts with the environment URL, ends with the `createdon asc` ordering, and has the filter right before the ordering. |
| `ODataFilter.RequestUrl` | pcfAccountLookup/src/AccountLookupModal.ts:225-227 | The URL is the remembered link verbatim when it is present and non-empty and the fetch is not a search. Otherwise it is the fresh query built from the filter. |
| `ResultSet.Merge` | pcfAccountLookup/src/AccountLookupModal.ts:251-257 | The previous rows are a prefix of the merge. Its length lies between the previous length and the previous length plus the page length. A row is in the merge iff it was loaded before, or it is in the page and its id was not loaded before. What follows the previous rows is exactly the page filtered to unseen ids, which `UnseenAppend` and `UnseenOne` pin down as an order-keeping filter. |
| `ResultSet.UnseenAppend` | pcfAccountLookup/src/AccountLookupModal.ts:253-256 | The filter works row by row: filtering two concatenated lists gives the two filtered lists concatenated, so the page's order and its in-page repeats are kept. |
| `ResultSet.UnseenOne` | pcfAccountLookup/src/AccountLookupModal.ts:253-256 | A single row is kept exactly when its id has not been loaded before. |
| `ResultSet.MergeIds` | pcfAccountLookup/src/AccountLookupModal.ts:251-257 | The merge's ids are exactly the previous ids together with the page's ids. |
| `ResultSet.MergeKeepsIdsDistinct` | pcfAccountLookup/src/AccountLookupModal.ts:251-257 | If the previous rows and the page each have distinct ids, so does the merge. |
| `ResultSet.MergeIdempotent` | pcfAccountLookup/src/AccountLookupModal.ts:251-257 | Merging the same page twice gives the same rows as merging it once. |
| `ResultSet.MergeIntoEmpty` | pcfAccountLookup/src/AccountLookupModal.ts:251-257 | Merging into no rows keeps the page exactly, duplicates within the page included. |
| `ResultSet.MergeSize` | pcfAccountLookup/src/AccountLookupModal.ts:251-257 | For a page with distinct ids, the merge has the previous rows plus the page minus the number of ids they share. |
| `Paging.AfterResponse` | pcfAccountLookup/src/AccountLookupModal.ts:241-276 | After any response nothing is in flight, and "more pages" is never turned back on. A successful search shows exactly the returned rows. A pagination response, successful or not, keeps the loaded rows as a prefix. |
| `Paging.SearchReplaces` | pcfAccountLookup/src/AccountLookupModal.ts:246-248 | A successful search shows exactly the returned rows. Its resulting link does not depend on the earlier state. |
| `Paging.SearchIdempotent` | pcfAccountLookup/src/AccountLookupModal.ts:246-267 | Applying the same search response twice gives the same state as applying it once. |
| `Paging.PageAppends` | pcfAccountLookup/src/AccountLookupModal.ts:249-257 | A successful pagination fetch keeps the loaded rows as a prefix and adds at most the page. Afterwards the loaded ids are the old ids plus the page's ids, and distinct ids stay distinct. |
| `Paging.ContinuationUpdate` | pcfAccountLookup/src/AccountLookupModal.ts:262-267 | On success a present link is remembered and "more pages" is unchanged. Without a link, "more pages" becomes false and the link is cleared by a search but kept by a pagination fetch. |
| `Paging.FailureKeepsResults` | pcfAccountLookup/src/AccountLookupModal.ts:271-276 | A non-200 answer changes nothing except that nothing is in flight any more. |
| `Paging.ShouldFetchPage` | pcfAccountLookup/src/AccountLookupModal.ts:438 | The scroll trigger only holds when rows are loaded, nothing is in flight and more pages exist. |
| `Paging.ScrollTriggerInPixels` | pcfAccountLookup/src/AccountLookupModal.ts:427-438 | The trigger holds iff rows are loaded, nothing is in flight, more pages exist, and the viewport's bottom is at least 40 × (rows − 5) pixels down. |
| `Paging.ScrollTriggerMonotone` | pcfAccountLookup/src/AccountLookupModal.ts:433-438 | Scrolling further down never withdraws the trigger. |
| `Paging.ExhaustedUntilCleared` | pcfAccountLookup/src/AccountLookupModal.ts:262-267 | Once "more pages" is false, no event sequence without the Clear button starts a scroll fetch, and "more pages" stays false. |
| `Paging.ScrollWhileLoading` | pcfAccountLookup/src/AccountLookupModal.ts:438-440 | While a fetch is in flight, any number of scrolls start no fetch and change nothing. |
| `Paging.ClearRearms` | pcfAccountLookup/src/AccountLookupModal.ts:560-564 | The Clear button empties the rows, forgets the link and sets "more pages" back to true. |
| `AccountLookupModal.LookupWidget.constructor` | pcfAccountLookup/src/AccountLookupModal.ts:140-159 | Initial state: the input and name field hold the bound name, the selected id is the bound id, other fields are empty, no rows, no link, more pages, nothing in flight, modal closed. |
| `AccountLookupModal.LookupWidget.FetchAccounts` | pcfAccountLookup/src/AccountLookupModal.ts:185-284 | A fetch is in flight iff the environment URL was available. The request carries the URL from `RequestUrl` over the built filter and the caller's link. Without the host API no request is sent and nothing is in flight. |
| `AccountLookupModal.LookupWidget.OnResponse` | pcfAccountLookup/src/AccountLookupModal.ts:237-277 | The new pagination state is the old one with the response applied, and nothing else changes. The lemmas above state the properties of this step. |
| `AccountLookupModal.LookupWidget.InputChange` | pcfAccountLookup/src/AccountLookupModal.ts:297-335 | The edited field takes the value, and the debounced fetch is a search over the new values of all four fields. A name edit also sets the main input and emits `{id:"", name:value, entityType:""}`. Other fields emit nothing. |
| `AccountLookupModal.LookupWidget.Paste` | pcfAccountLookup/src/AccountLookupModal.ts:337-377 | The debounced fetch is a search over the current fields with the pasted field replaced by the trimmed text. No state changes. |
| `JsStrings.Trim` | pcfAccountLookup/src/AccountLookupModal.ts:342 | The trimmed text is no longer than the input and neither starts nor ends with JavaScript white space. It is the infix of the input that begins after the leading white space, and every character outside it is white space. |
| `JsStrings.TrimIsInfix` | pcfAccountLookup/src/AccountLookupModal.ts:342 | Dropping the trailing white space from what remains after dropping the leading white space gives a slice of the input, and only white space lies on either side of it. |
| `JsStrings.TrimIdempotent` | pcfAccountLookup/src/AccountLookupModal.ts:342 | Trimming twice is trimming once. |
| `AccountLookupModal.LookupWidget.SearchClick` | pcfAccountLookup/src/AccountLookupModal.ts:379-398 | Opens the modal, copies the input into the name field and sends a search built from the input text alone. The other fields keep their values but are not used. |
| `AccountLookupModal.LookupWidget.AccountClick` | pcfAccountLookup/src/AccountLookupModal.ts:400-409 | Emits `{id:accountid, name, entityType:"account"}`, sets the input and the selected id, and closes the modal. |
| `AccountLookupModal.LookupWidget.ClearLookup` | pcfAccountLookup/src/AccountLookupModal.ts:411-415 | Emits `null` and empties the input and the selected id. Rows and search fields are untouched. |
| `AccountLookupModal.LookupWidget.ClearFilters` | pcfAccountLookup/src/AccountLookupModal.ts:554-572 | Empties the four fields and applies the Clear step to the pagination state. It sends a pagination fetch whose URL is chosen from the link as it was before the reset. |
| `AccountLookupModal.LookupWidget.Scroll` | pcfAccountLookup/src/AccountLookupModal.ts:429-449 | A pagination fetch over the current fields starts iff the trigger holds and the host API is present. Otherwise nothing changes. |
| `AccountLookupModal.LookupWidget.CloseModal` | pcfAccountLookup/src/AccountLookupModal.ts:519 | The modal is closed and nothing else changes. |
| `AccountLookupModal.LookupWidget.ValueChanged` | pcfAccountLookup/src/AccountLookupModal.ts:173-176 | A new bound value replaces the input text with its name, or with empty text when there is no value. |
| `HostAdapter.PcfDistributorLookupNew.constructor` | pcfAccountLookup/index.ts:17-20 | A new control has no value and is not locked. |
| `HostAdapter.PcfDistributorLookupNew.Init` | pcfAccountLookup/index.ts:22-44 | The status lookup is issued iff the stripped record id is non-empty and the entity name is defined and non-empty. It stores the filter clause, resolves the bound value, keeps the lock flag and renders once. |
| `HostAdapter.CurrentEntityId` | pcfAccountLookup/index.ts:47-55 | There is an id iff the form API is present and returns a non-empty id. That id has its braces stripped. |
| `HostAdapter.StripBraces` | pcfAccountLookup/index.ts:50 | The result's characters are the id's minus one `{` and one `}`, where present. When a `{` comes before the first `}`, `StripBracesAround` states which ones go and that the order is kept. In every other case, such as `a}b{c` or an id with a single brace, the result is fixed by `RemoveFirst`'s contract applied twice, first for `{` and then for `}`. |
| `HostAdapter.StripBracesAround` | pcfAccountLookup/index.ts:50 | For `p + "{" + q + "}" + w` where `p` has no brace and `q` no `}`, the result is `p + q + w`: the first `{` and the first `}` after it go, and everything else stays in order. |
| `JsStrings.RemoveFirst` | pcfAccountLookup/index.ts:50 | `replace` with a one-character pattern: the string is unchanged when the character is absent. Otherwise exactly the character at its first occurrence is removed, and the parts before and after it are kept. |
| `JsStrings.RemoveFirstAt` | pcfAccountLookup/index.ts:50 | Removing `c` from `p + [c] + w`, where `p` has no `c`, gives `p + w`. |
| `HostAdapter.StripBracesOfBracedId` | pcfAccountLookup/index.ts:50 | `{g}` becomes `g`, and an id without braces is unchanged. |
| `HostAdapter.StripBracesOnlyFirst` | pcfAccountLookup/index.ts:50 | Only the first of each brace is removed: `{{g}}` becomes `{g}`. |
| `HostAdapter.PcfDistributorLookupNew.OnStatusResponse` | pcfAccountLookup/index.ts:72-93 | The field is locked exactly for a 200 answer whose `statecode` is 1, 2 or 3. Other 200 answers, other statuses and transport errors unlock it. Then one render. |
| `HostAdapter.PcfDistributorLookupNew.LoadLookupData` | pcfAccountLookup/index.ts:112-132 | No raw value gives no value. An id without a name gives `{id, fetched name, "account"}`, and a failed lookup keeps the previous value. Anything else is the first raw entry unchanged. A name lookup is issued only in the id-without-name case. |
| `HostAdapter.ResolveLookup` | pcfAccountLookup/index.ts:113-131 | No raw value gives no value. A raw entry with a name, or without an id, is taken as it is. An id without a name takes the looked-up name and the type `account`, and a failed lookup keeps the previous value. The result is always the previous value or a reference with the raw entry's id. |
| `HostAdapter.OutputsReloadUnchanged` | pcfAccountLookup/index.ts:113-137 | Reloading the control's own output restores the same value, unless that value has an id but no name. |
| `HostAdapter.PcfDistributorLookupNew.UpdateView` | pcfAccountLookup/index.ts:98-110 | Stores the new filter clause. The value is loaded twice when the clause changed and once otherwise. Then one render. |
| `HostAdapter.OutputsOf` | pcfAccountLookup/index.ts:134-138 | The output is a one-element list holding the value iff there is a value, and `undefined` otherwise. |
| `HostAdapter.PcfDistributorLookupNew.GetOutputs` | pcfAccountLookup/index.ts:134-138 | The control reports a one-element list with its value iff it has one, and `undefined` otherwise. |
| `HostAdapter.PcfDistributorLookupNew.HandleLookupChange` | pcfAccountLookup/index.ts:144-148 | Stores the new value, `null` included, then notifies the host once, then renders. |
| `HostAdapter.PassedCriteria` | pcfAccountLookup/index.ts:157 | The widget gets the stored filter clause iff it is non-empty, and `undefined` otherwise. |
| `HostAdapter.MissingCriteriaSplicesUndefined` | pcfAccountLookup/src/AccountLookupModal.ts:217 | Without a non-empty clause the filter's last part is the word `undefined`. |
| `Wiring.Deliver` | pcfAccountLookup/index.ts:156 | A widget notification reaches the control's change handler. A silent handler changes nothing there. |
| `Wiring.PickAccount` | pcfAccountLookup/src/AccountLookupModal.ts:400-409 | After a row click, the modal is closed, the host is notified once and reads exactly that account as the field's output, and the widget shows and selects that account. |
| `Wiring.TypeInMainInput` | pcfAccountLookup/src/AccountLookupModal.ts:304-308 | Typing in the main input sets the input to the text, notifies the host once and makes it read a name-only reference. The debounced fetch is a search over the typed name and the other three fields as they were. The selection is kept. |
| `Wiring.ClearSelection` | pcfAccountLookup/src/AccountLookupModal.ts:411-415 | After the clear cross, the host is notified once and reads no value, the input and the selection are empty, and the loaded rows stay. |

## Left out

- Network I/O is not modelled: the XHRs, the platform's record API, the host's global form API and `JSON.parse`. Their outcomes are parameters, and a transport failure of the search is status 0.
- A parse failure inside the search callback is not modelled. Such a failure is not caught and would leave the fetch in flight.
- Timing is not modelled: the 300 ms debounce and the 200 ms scroll throttle. `InputChange` and `Paste` return the pending fetch (its arguments and its search intent), and the timer firing is a `FetchAccounts` call. The timer variable is re-declared on every render, so keystroke coalescing is not claimed.
- Concurrency and response ordering are not modelled. `OnResponse` applies whatever answer arrives to the current state, as the source does.
- `LookupWidget.FetchAccounts`: the environment URL is one parameter. Any synchronous failure of the fetch is modelled as that URL being unavailable.
- `LookupWidget.Scroll`: the scroll offset is a real number and the viewport height an integer, as the DOM reports them.
- Rendering is not modelled: markup, table sorting, skeleton rows, empty-state text, read-only and disabled attributes, and CSS.
- The "Total Sales" currency formatting is left out. It uses floating-point rounding and locale formatting.
- Record links are left out: opening the selected record from the main input, and the "New Account" button. Both depend on parsing the host's URLs.
- `destroy` is left out. It only unmounts the rendered tree.
- The rendering beyond a recorded `Render` call is not modelled. The stored context and callback are not modelled either.
- Paste events also make the browser fire a change event with the untrimmed text. That browser behaviour is not modelled. Its consequence, read from the code: the paste handler and the change handler come from the same render and share its `debounceTimer` (pcfAccountLookup/src/AccountLookupModal.ts:154). The change handler's `clearTimeout` (:292) therefore cancels the trimmed search that the paste scheduled (:368-376), and the search normally sent is the one over the whole untrimmed field value.
- An absent (`undefined` or `null`) id or name is the empty string. Both are falsy in every test the source makes. A `statecode` that is not a number is `None`.
- The widget's extra filter clause is fixed per widget instance. A re-render with a different clause is not modelled.
- Commented-out code in both files is not modelled.

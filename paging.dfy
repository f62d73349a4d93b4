/**
 * The pagination state of the lookup table (loaded rows, remembered
 * continuation link, "more pages" flag, in-flight flag), how a fetch response
 * changes it, the infinite-scroll trigger, and the state machine these form.
 */
module Paging {
  import opened LookupTypes
  import opened ResultSet

  /** What the search endpoint answered: HTTP status (0 for a transport failure), the rows, the `@odata.nextLink` annotation. */
  datatype FetchResponse = FetchResponse(status: int, records: seq<Account>, nextLink: Option<string>)

  datatype PagingState = PagingState(accounts: seq<Account>, nextLink: Option<string>, hasMore: bool, loading: bool)

  /**
   * The completion of a fetch. On status 200 a search replaces the rows and
   * forgets the link, a pagination fetch merges the page; then a present link
   * is remembered, and an absent one marks the rows exhausted. Any other status
   * leaves everything but the in-flight flag alone; the flag always ends false.
   */
  function AfterResponse(s: PagingState, isSearch: bool, resp: FetchResponse): (r: PagingState)
    ensures !r.loading
    ensures r.hasMore ==> s.hasMore
    ensures resp.status == 200 && isSearch ==> r.accounts == resp.records
    ensures !isSearch ==> |s.accounts| <= |r.accounts| && r.accounts[..|s.accounts|] == s.accounts
  {
    if resp.status != 200 then s.(loading := false)
    else
      var accounts := if isSearch then resp.records else Merge(s.accounts, resp.records);
      var link := if isSearch then None else s.nextLink;
      if Truthy(resp.nextLink) then PagingState(accounts, resp.nextLink, s.hasMore, false)
      else PagingState(accounts, link, false, false)
  }

  /** A successful search shows exactly the returned page and whatever was loaded before plays no part. */
  lemma SearchReplaces(s: PagingState, other: PagingState, resp: FetchResponse)
    requires resp.status == 200
    ensures AfterResponse(s, true, resp).accounts == resp.records
    ensures AfterResponse(s, true, resp).nextLink == AfterResponse(other, true, resp).nextLink
  {
  }

  /** Repeating a search that gets the same answer changes nothing more. */
  lemma SearchIdempotent(s: PagingState, resp: FetchResponse)
    ensures AfterResponse(AfterResponse(s, true, resp), true, resp) == AfterResponse(s, true, resp)
  {
  }

  /** A successful pagination fetch keeps the loaded rows as a prefix, adds at most the page, and keeps identifiers distinct. */
  lemma PageAppends(s: PagingState, resp: FetchResponse)
    requires resp.status == 200
    ensures var t := AfterResponse(s, false, resp);
      && t.accounts[..|s.accounts|] == s.accounts
      && |s.accounts| <= |t.accounts| <= |s.accounts| + |resp.records|
      && Ids(t.accounts) == Ids(s.accounts) + Ids(resp.records)
      && (DistinctIds(s.accounts) && DistinctIds(resp.records) ==> DistinctIds(t.accounts))
  {
    MergeIds(s.accounts, resp.records);
    if DistinctIds(s.accounts) && DistinctIds(resp.records) {
      MergeKeepsIdsDistinct(s.accounts, resp.records);
    }
  }

  /**
   * How the continuation state moves on success: a present link is
   * remembered; without one the rows are exhausted, and the link is cleared by
   * a search but left as it was by a pagination fetch.
   */
  lemma ContinuationUpdate(s: PagingState, isSearch: bool, resp: FetchResponse)
    requires resp.status == 200
    ensures var t := AfterResponse(s, isSearch, resp);
      && (Truthy(resp.nextLink) ==> t.nextLink == resp.nextLink && t.hasMore == s.hasMore)
      && (!Truthy(resp.nextLink) ==> !t.hasMore && t.nextLink == (if isSearch then None else s.nextLink))
  {
  }

  /** A failed fetch keeps the rows, the link and the flag; only the in-flight flag is cleared. */
  lemma FailureKeepsResults(s: PagingState, isSearch: bool, resp: FetchResponse)
    requires resp.status != 200
    ensures AfterResponse(s, isSearch, resp) == s.(loading := false)
  {
  }

  const RowHeight := 40
  const Lookahead := 5

  /** The scroll handler's test: the last visible row is within five rows of the end, nothing is in flight, and more pages exist. */
  predicate ShouldFetchPage(loaded: nat, scrollTop: real, clientHeight: int, loading: bool, hasMore: bool): (b: bool)
    ensures b ==> loaded > 0 && !loading && hasMore
  {
    && loaded > 0
    && ((scrollTop + clientHeight as real) / RowHeight as real).Floor >= loaded - Lookahead
    && !loading
    && hasMore
  }

  /** The same trigger in pixels: the bottom of the viewport has reached the top of the fifth row from the end. */
  lemma ScrollTriggerInPixels(loaded: nat, scrollTop: real, clientHeight: int, loading: bool, hasMore: bool)
    ensures ShouldFetchPage(loaded, scrollTop, clientHeight, loading, hasMore)
        <==> loaded > 0 && !loading && hasMore
             && scrollTop + clientHeight as real >= (RowHeight * (loaded - Lookahead)) as real
  {
  }

  /** Scrolling further down never withdraws the trigger. */
  lemma ScrollTriggerMonotone(loaded: nat, top: real, lower: real, clientHeight: int, loading: bool, hasMore: bool)
    requires top <= lower
    requires ShouldFetchPage(loaded, top, clientHeight, loading, hasMore)
    ensures ShouldFetchPage(loaded, lower, clientHeight, loading, hasMore)
  {
  }

  /** What the widget does to its pagination state; `xrmAvailable` false means the fetch threw before sending. */
  datatype PagingEvent =
    | FetchIssued(xrmAvailable: bool)
    | Scrolled(scrollTop: real, clientHeight: int, xrmAvailable: bool)
    | Responded(isSearch: bool, response: FetchResponse)
    | FiltersCleared(xrmAvailable: bool)

  predicate Fires(s: PagingState, e: PagingEvent)
  {
    e.Scrolled? && ShouldFetchPage(|s.accounts|, e.scrollTop, e.clientHeight, s.loading, s.hasMore)
  }

  function Step(s: PagingState, e: PagingEvent): PagingState
  {
    match e
    case FetchIssued(xrm) => s.(loading := xrm)
    case Scrolled(_, _, xrm) => if Fires(s, e) then s.(loading := xrm) else s
    case Responded(isSearch, resp) => AfterResponse(s, isSearch, resp)
    case FiltersCleared(xrm) => PagingState([], None, true, xrm)
  }

  function Run(s: PagingState, evs: seq<PagingEvent>): PagingState
    decreases |evs|
  {
    if evs == [] then s else Run(Step(s, evs[0]), evs[1..])
  }

  /** How many scroll events along the run start a pagination fetch. */
  function PageFetches(s: PagingState, evs: seq<PagingEvent>): nat
    decreases |evs|
  {
    if evs == [] then 0
    else (if Fires(s, evs[0]) then 1 else 0) + PageFetches(Step(s, evs[0]), evs[1..])
  }

  /**
   * Pagination terminates: once the rows are exhausted, no scroll starts a
   * fetch and they stay exhausted until the filters are cleared — a new search
   * does not reset the flag.
   */
  lemma {:induction false} ExhaustedUntilCleared(s: PagingState, evs: seq<PagingEvent>)
    requires !s.hasMore
    requires forall i :: 0 <= i < |evs| ==> !evs[i].FiltersCleared?
    ensures !Run(s, evs).hasMore
    ensures PageFetches(s, evs) == 0
    decreases |evs|
  {
    if evs != [] {
      ExhaustedUntilCleared(Step(s, evs[0]), evs[1..]);
    }
  }

  /** While a fetch is in flight, scrolling starts no other one. */
  lemma {:induction false} ScrollWhileLoading(s: PagingState, evs: seq<PagingEvent>)
    requires s.loading
    requires forall i :: 0 <= i < |evs| ==> evs[i].Scrolled?
    ensures Run(s, evs) == s
    ensures PageFetches(s, evs) == 0
    decreases |evs|
  {
    if evs != [] {
      ScrollWhileLoading(Step(s, evs[0]), evs[1..]);
    }
  }

  /** Clearing the filters empties the rows and re-arms pagination. */
  lemma ClearRearms(s: PagingState, xrm: bool)
    ensures Step(s, FiltersCleared(xrm)) == PagingState([], None, true, xrm)
  {
  }
}

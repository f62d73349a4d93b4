/**
 * The search-and-select widget: the text input bound to the host field, the
 * modal with its search fields, and the paginated result table. Each handler
 * applies its state updates in the order the widget issues them; reads of the
 * continuation link use the value the handler started with.
 */
module AccountLookupModal {
  import opened LookupTypes
  import opened JsStrings
  import opened ODataFilter
  import opened ResultSet
  import opened Paging

  /** The search field an edit or paste came from. */
  datatype Field = NameField | CityField | CustomerField | ShipToField

  /** What a handler passed to the host's change callback: nothing, or a value (`None` is `null`). */
  datatype Notify = Silent | Changed(value: Option<EntityReference>)

  /** A sent request and whether its completion replaces the rows (a search) or merges a page. */
  datatype Request = Request(url: string, isSearch: bool)

  /** A fetch scheduled behind the 300 ms debounce: its search arguments and its intent. */
  datatype Debounced = Debounced(args: SearchArgs, isSearch: bool)

  /** The search fields with one of them set to `value`. */
  function WithField(args: SearchArgs, field: Field, value: string): SearchArgs
  {
    match field
    case NameField => args.(name := value)
    case CityField => args.(city := value)
    case CustomerField => args.(customerAcct := value)
    case ShipToField => args.(shipToAcct := value)
  }

  class LookupWidget {
    /** The extra filter clause the host passes in (`undefined` when it has none). */
    const filterCriteria: Option<string>

    var inputValue: string
    var accounts: seq<Account>
    var loading: bool
    var modalOpen: bool
    var nameSearch: string
    var citySearch: string
    var customerSearch: string
    var shipToSearch: string
    var selectedRecordId: string
    var nextLink: Option<string>
    var hasMore: bool

    function PagingView(): PagingState
      reads this
    {
      PagingState(accounts, nextLink, hasMore, loading)
    }

    function Filters(): SearchArgs
      reads this
    {
      SearchArgs(nameSearch, citySearch, customerSearch, shipToSearch)
    }

    /** A freshly mounted widget for the host's current value. */
    constructor(value: Option<EntityReference>, filterCriteria: Option<string>)
      ensures this.filterCriteria == filterCriteria
      ensures inputValue == nameSearch == (if value.Some? then value.value.name else "")
      ensures selectedRecordId == (if value.Some? then value.value.id else "")
      ensures citySearch == customerSearch == shipToSearch == ""
      ensures PagingView() == PagingState([], None, true, false)
      ensures !modalOpen
    {
      this.filterCriteria := filterCriteria;
      inputValue := if value.Some? then value.value.name else "";
      accounts := [];
      loading := false;
      modalOpen := false;
      nameSearch := inputValue;
      citySearch := "";
      customerSearch := "";
      shipToSearch := "";
      selectedRecordId := if value.Some? then value.value.id else "";
      nextLink := None;
      hasMore := true;
    }

    /**
     * Starts a fetch: marks it in flight, builds the filter and picks the URL
     * from `link` (the continuation link as the caller saw it). When the host
     * context is missing (`clientUrl` is `None`) the fetch fails before sending
     * and is no longer in flight.
     */
    method FetchAccounts(args: SearchArgs, isSearch: bool, link: Option<string>, clientUrl: Option<string>)
      returns (req: Option<Request>)
      modifies this`loading
      ensures loading == clientUrl.Some?
      ensures clientUrl.None? ==> req.None?
      ensures clientUrl.Some? ==>
        req == Some(Request(RequestUrl(link, isSearch, clientUrl.value, FilterOf(args, filterCriteria)), isSearch))
    {
      loading := true;
      if clientUrl.None? {
        loading := false;
        return None;
      }
      var filter := BuildFilter(args, filterCriteria);
      var url := RequestUrl(link, isSearch, clientUrl.value, filter);
      req := Some(Request(url, isSearch));
    }

    /** The completion of a fetch sent with the given intent. */
    method OnResponse(isSearch: bool, resp: FetchResponse)
      modifies this`accounts, this`nextLink, this`hasMore, this`loading
      ensures PagingView() == AfterResponse(old(PagingView()), isSearch, resp)
    {
      if resp.status == 200 {
        if isSearch {
          accounts := resp.records;
          nextLink := None;
        } else {
          accounts := Merge(accounts, resp.records);
        }
        if Truthy(resp.nextLink) {
          nextLink := resp.nextLink;
        } else {
          hasMore := false;
        }
      }
      loading := false;
    }

    /**
     * An edit of a search field: stores the value, and for the name field also
     * puts the text in the main input and hands the host a name-only reference.
     * Schedules a debounced search whose arguments are the new values of all
     * four fields.
     */
    method InputChange(field: Field, value: string) returns (notify: Notify, pending: Debounced)
      modifies this`inputValue, this`nameSearch, this`citySearch, this`customerSearch, this`shipToSearch
      ensures pending.isSearch
      ensures pending.args == WithField(old(Filters()), field, value)
      ensures Filters() == pending.args
      ensures field == NameField ==> inputValue == value && notify == Changed(Some(EntityReference("", value, "")))
      ensures field != NameField ==> inputValue == old(inputValue) && notify == Silent
    {
      pending := Debounced(WithField(Filters(), field, value), true);
      notify := Silent;
      match field {
        case NameField =>
          inputValue := value;
          notify := Changed(Some(EntityReference("", value, "")));
          nameSearch := value;
        case CityField =>
          citySearch := value;
        case CustomerField =>
          customerSearch := value;
        case ShipToField =>
          shipToSearch := value;
      }
    }

    /** A paste into a search field: the trimmed text replaces that field in a debounced search; no state changes. */
    method Paste(field: Field, pasted: string) returns (pending: Debounced)
      ensures pending.isSearch
      ensures pending.args == WithField(Filters(), field, Trim(pasted))
    {
      var text := Trim(pasted);
      pending := Debounced(WithField(Filters(), field, text), true);
    }

    /**
     * The search button: opens the modal and searches at once for the main
     * input's text alone; the other search fields keep their values but take
     * no part in the query.
     */
    method SearchClick(clientUrl: Option<string>) returns (req: Option<Request>)
      modifies this`modalOpen, this`nameSearch, this`loading
      ensures modalOpen && nameSearch == old(inputValue)
      ensures PagingView() == Step(old(PagingView()), FetchIssued(clientUrl.Some?))
      ensures req == if clientUrl.Some? then
                       Some(Request(FreshUrl(clientUrl.value, FilterOf(SearchArgs(old(inputValue), "", "", ""), filterCriteria)), true))
                     else None
    {
      modalOpen := true;
      nameSearch := inputValue;
      req := FetchAccounts(SearchArgs(inputValue, "", "", ""), true, nextLink, clientUrl);
    }

    /** A click on a table row: selects that account, tells the host, closes the modal. */
    method AccountClick(account: Account) returns (notify: Notify)
      modifies this`inputValue, this`selectedRecordId, this`modalOpen
      ensures inputValue == account.name && selectedRecordId == account.accountid && !modalOpen
      ensures notify == Changed(Some(EntityReference(account.accountid, account.name, "account")))
    {
      inputValue := account.name;
      notify := Changed(Some(EntityReference(account.accountid, account.name, "account")));
      selectedRecordId := account.accountid;
      modalOpen := false;
    }

    /** The cross button of the main input: empties it, drops the selection and hands the host `null`. */
    method ClearLookup() returns (notify: Notify)
      modifies this`inputValue, this`selectedRecordId
      ensures inputValue == "" && selectedRecordId == ""
      ensures notify == Changed(None)
    {
      // the cross button empties the input, then its clear handler empties it again
      inputValue := "";
      inputValue := "";
      selectedRecordId := "";
      notify := Changed(None);
    }

    /**
     * The modal's Clear button: empties the search fields and the rows,
     * forgets the link, re-arms pagination and fetches unfiltered rows as a
     * pagination fetch. The fetch still sees the link as it was before the
     * reset, so with a remembered link it continues the previous query.
     */
    method ClearFilters(clientUrl: Option<string>) returns (req: Option<Request>)
      modifies this`nameSearch, this`citySearch, this`customerSearch, this`shipToSearch
      modifies this`accounts, this`nextLink, this`hasMore, this`loading
      ensures Filters() == SearchArgs("", "", "", "")
      ensures PagingView() == Step(old(PagingView()), FiltersCleared(clientUrl.Some?))
      ensures req == if clientUrl.Some? then
                       Some(Request(RequestUrl(old(nextLink), false, clientUrl.value, FilterOf(Filters(), filterCriteria)), false))
                     else None
    {
      var link := nextLink;
      nameSearch := "";
      citySearch := "";
      customerSearch := "";
      shipToSearch := "";
      accounts := [];
      nextLink := None;
      hasMore := true;
      loading := true;
      req := FetchAccounts(SearchArgs("", "", "", ""), false, link, clientUrl);
    }

    /** A scroll of the table body: fetches the next page when the trigger holds, else does nothing. */
    method Scroll(scrollTop: real, clientHeight: int, clientUrl: Option<string>) returns (req: Option<Request>)
      modifies this`loading
      ensures PagingView() == Step(old(PagingView()), Scrolled(scrollTop, clientHeight, clientUrl.Some?))
      ensures req.Some? <==> Fires(old(PagingView()), Scrolled(scrollTop, clientHeight, clientUrl.Some?)) && clientUrl.Some?
      ensures req.Some? ==>
        req.value == Request(RequestUrl(nextLink, false, clientUrl.value, FilterOf(Filters(), filterCriteria)), false)
    {
      if ShouldFetchPage(|accounts|, scrollTop, clientHeight, loading, hasMore) {
        loading := true;
        req := FetchAccounts(Filters(), false, nextLink, clientUrl);
      } else {
        req := None;
      }
    }

    /** The modal's close button or an outside click. */
    method CloseModal()
      modifies this`modalOpen
      ensures !modalOpen
    {
      modalOpen := false;
    }

    /** A new value from the host replaces the main input's text. */
    method ValueChanged(value: Option<EntityReference>)
      modifies this`inputValue
      ensures inputValue == (if value.Some? then value.value.name else "")
    {
      inputValue := if value.Some? then value.value.name else "";
    }
  }
}

/**
 * The request the widget sends to the account directory: the OData `$filter`
 * built from the search fields (field-contains predicates ANDed with the
 * "active accounts only" predicate and the caller's extra clause, as in
 * section 5.1.1 of OData Version 4.0 Part 2: URL Conventions), and the choice
 * between a fresh query URL and the remembered `@odata.nextLink` (section
 * 4.5.5 of OData JSON Format Version 4.0).
 */
module ODataFilter {
  import opened LookupTypes
  import opened JsStrings

  /** The four search fields handed to a fetch. */
  datatype SearchArgs = SearchArgs(name: string, city: string, customerAcct: string, shipToAcct: string)

  const NameColumn := "name"
  const CustomerColumn := "amc01_erp_s2kcustomeracct"
  const ShipToColumn := "amc01_erp_s2kshiptoacct"
  const ActiveOnly := "statecode eq 0"
  const And := " and "
  const FilterOption := "&$filter="

  const AccountsPath := "/api/data/v9.2/accounts"
  const SelectAndExpand :=
    "?$select=_parentaccountid_value,vsi_billtoshiptotype,address1_stateorprovince,vsi_totalsales,"
    + "address1_city,accountid,name,amc01_erp_s2kcustomeracct,amc01_erp_s2kshiptoacct,_ownerid_value"
    + "&$expand=preferredsystemuserid($select=fullname),owninguser($select=fullname,systemuserid),"
    + "account_parent_account($select=name)"
  const OrderBy := "&$orderby=createdon asc"

  /** `contains(column,'value')`; the value is spliced in as typed, without doubling quotes. */
  function ContainsCall(column: string, value: string): string
  {
    "contains(" + column + ",'" + value + "')"
  }

  /** A template literal renders an absent extra clause as the word `undefined`. */
  function CriteriaText(criteria: Option<string>): (r: string)
    ensures criteria.Some? ==> r == criteria.value
    ensures criteria.None? ==> r == "undefined"
  {
    if criteria.Some? then criteria.value else "undefined"
  }

  /** The contribution of one search field to the filter: nothing when empty, else its predicate and a separator. */
  function Condition(column: string, value: string): string
  {
    if value == "" then "" else ContainsCall(column, value) + And
  }

  /**
   * The filter as a reader would describe it: the predicates for the non-empty
   * name, customer-account and ship-to-account fields in that order, each
   * followed by " and ", then the active-only predicate, " and " and the
   * extra clause. The city field takes no part.
   */
  function FilterOf(args: SearchArgs, criteria: Option<string>): string
  {
    FilterOption
    + ((Condition(NameColumn, args.name) + Condition(CustomerColumn, args.customerAcct)
        + Condition(ShipToColumn, args.shipToAcct))
       + (ActiveOnly + And + CriteriaText(criteria)))
  }

  /** The predicates pushed for the non-empty search fields, in push order. */
  function Conditions(args: SearchArgs): seq<string>
  {
    (if args.name == "" then [] else [ContainsCall(NameColumn, args.name)])
    + (if args.customerAcct == "" then [] else [ContainsCall(CustomerColumn, args.customerAcct)])
    + (if args.shipToAcct == "" then [] else [ContainsCall(ShipToColumn, args.shipToAcct)])
  }

  lemma TerminatedOne(column: string, value: string)
    ensures Terminated(if value == "" then [] else [ContainsCall(column, value)], And) == Condition(column, value)
  {
  }

  lemma TerminatedConditions(args: SearchArgs)
    ensures Terminated(Conditions(args), And)
         == Condition(NameColumn, args.name) + Condition(CustomerColumn, args.customerAcct)
            + Condition(ShipToColumn, args.shipToAcct)
  {
    var a := if args.name == "" then [] else [ContainsCall(NameColumn, args.name)];
    var b := if args.customerAcct == "" then [] else [ContainsCall(CustomerColumn, args.customerAcct)];
    var c := if args.shipToAcct == "" then [] else [ContainsCall(ShipToColumn, args.shipToAcct)];
    assert Conditions(args) == a + b + c;
    TerminatedAppend(a + b, c, And);
    TerminatedAppend(a, b, And);
    TerminatedOne(NameColumn, args.name);
    TerminatedOne(CustomerColumn, args.customerAcct);
    TerminatedOne(ShipToColumn, args.shipToAcct);
  }

  lemma JoinedFilterParts(args: SearchArgs, criteria: Option<string>)
    ensures FilterOption + Join(Conditions(args) + [ActiveOnly, CriteriaText(criteria)], And) == FilterOf(args, criteria)
  {
    var tail := [ActiveOnly, CriteriaText(criteria)];
    JoinWithTail(Conditions(args), tail, And);
    TerminatedConditions(args);
    assert tail[1..] == [CriteriaText(criteria)];
    assert Join(tail, And) == ActiveOnly + And + CriteriaText(criteria);
  }

  /** Builds the filter the way the widget does: push each condition onto a list, then join with " and ". */
  method BuildFilter(args: SearchArgs, criteria: Option<string>) returns (filter: string)
    ensures filter == FilterOf(args, criteria)
  {
    var parts: seq<string> := [];
    if |args.name| > 0 {
      parts := parts + [ContainsCall(NameColumn, args.name)];
    }
    if |args.customerAcct| > 0 {
      parts := parts + [ContainsCall(CustomerColumn, args.customerAcct)];
    }
    if |args.shipToAcct| > 0 {
      parts := parts + [ContainsCall(ShipToColumn, args.shipToAcct)];
    }
    assert parts == Conditions(args);
    ghost var conditions := parts;
    parts := parts + [ActiveOnly];
    parts := parts + [CriteriaText(criteria)];
    assert parts == conditions + [ActiveOnly, CriteriaText(criteria)];
    filter := if |parts| > 0 then FilterOption + Join(parts, And) else "";
    JoinedFilterParts(args, criteria);
  }

  /** The first-page query for the given filter. */
  function FreshUrl(clientUrl: string, filter: string): (url: string)
    ensures |url| >= |clientUrl| + |filter| + |OrderBy|
    ensures url[..|clientUrl|] == clientUrl
    ensures url[|url| - |OrderBy| - |filter|..|url| - |OrderBy|] == filter
    ensures url[|url| - |OrderBy|..] == OrderBy
  {
    clientUrl + AccountsPath + SelectAndExpand + filter + OrderBy
  }

  /**
   * The URL of a fetch: the remembered continuation link, verbatim, exactly
   * when one is remembered (present and non-empty) and the fetch is not a
   * search; otherwise the fresh query built from the filter.
   */
  function RequestUrl(nextLink: Option<string>, isSearch: bool, clientUrl: string, filter: string): (url: string)
    ensures Truthy(nextLink) && !isSearch ==> url == nextLink.value
    ensures isSearch || !Truthy(nextLink) ==> url == FreshUrl(clientUrl, filter)
  {
    if Truthy(nextLink) && !isSearch then nextLink.value else FreshUrl(clientUrl, filter)
  }
}

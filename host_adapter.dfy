/**
 * The host-lifecycle adapter: the control object the form runtime creates,
 * initialises, asks for outputs and notifies. It owns the bound value and the
 * lock flag; every remote answer it waits for is a parameter here.
 */
module HostAdapter {
  import opened LookupTypes
  import opened JsStrings
  import opened ODataFilter

  /** `window.Xrm`: absent, or present with the form record id as the form API returns it (`None` for `null`). */
  datatype XrmPage = NoXrm | XrmPage(entityId: Option<string>)

  /** The one-shot status lookup: `GET <entity set>(<id>)?$select=statecode`. */
  datatype StatusRequest = StatusRequest(entityName: string, entityId: string, select: string)

  /** The answer to the status lookup: a loaded response with its status and `statecode`, or a transport error. */
  datatype StatusResponse = StatusLoaded(status: int, statecode: Option<int>) | StatusNetworkError

  /** The outcome of the name lookup for a bound reference that has an id but no name. */
  datatype NameLookup = NameFound(name: string) | NameLookupFailed

  /** The calls the control makes on the host. */
  datatype HostCall = NotifyOutputChanged | Render

  const StatusSelect := "?$select=statecode"

  /** Removes the first `{` and then the first `}` of a record id; nothing else changes. */
  function StripBraces(id: string): (r: string)
    ensures multiset(r) == multiset(id) - multiset{'{', '}'}
  {
    var noOpen := RemoveFirst(id, '{');
    var r := RemoveFirst(noOpen, '}');
    assert multiset(r) == multiset(id) - multiset{'{'} - multiset{'}'};
    assert multiset(id) - multiset{'{'} - multiset{'}'} == multiset(id) - multiset{'{', '}'};
    r
  }

  /**
   * The general case: the first `{` and the first `}` after it are removed and
   * every other character stays where it was, in order.
   */
  lemma StripBracesAround(p: string, q: string, w: string)
    requires '{' !in p && '}' !in p + q
    ensures StripBraces(p + "{" + q + "}" + w) == p + q + w
  {
    assert p + "{" + q + "}" + w == p + ['{'] + (q + "}" + w);
    RemoveFirstAt(p, '{', q + "}" + w);
    assert p + (q + "}" + w) == (p + q) + ['}'] + w;
    RemoveFirstAt(p + q, '}', w);
  }

  /** The usual case: a braced GUID loses its braces, and an id without braces is kept. */
  lemma StripBracesOfBracedId(g: string)
    requires '{' !in g && '}' !in g
    ensures StripBraces("{" + g + "}") == g
    ensures StripBraces(g) == g
  {
    var e: string := [];
    assert e + "{" + g + "}" + e == "{" + g + "}";
    assert e + g + e == g;
    assert e + g == g;
    StripBracesAround(e, g, e);
  }

  /** Only the first of each brace goes: a doubly braced id keeps its inner pair. */
  lemma StripBracesOnlyFirst(g: string)
    requires '{' !in g && '}' !in g
    ensures StripBraces("{{" + g + "}}") == "{" + g + "}"
  {
    var e: string := [];
    var q := "{" + g;
    assert e + "{" + q + "}" + "}" == "{{" + g + "}}";
    assert e + q + "}" == "{" + g + "}";
    assert '}' !in e + q by {
      assert e + q == ['{'] + g;
    }
    StripBracesAround(e, q, "}");
  }

  /** The form record's id with its braces stripped, or `null` when the form API or the id is missing or empty. */
  function CurrentEntityId(xrm: XrmPage): (r: Option<string>)
    ensures r.Some? <==> xrm.XrmPage? && Truthy(xrm.entityId)
    ensures r.Some? ==> r.value == StripBraces(xrm.entityId.value)
  {
    if xrm.XrmPage? && Truthy(xrm.entityId) then Some(StripBraces(xrm.entityId.value)) else None
  }

  /** The value `loadLookupData` settles on, given the bound raw value, the name lookup's outcome and the previous value. */
  function ResolveLookup(raw: seq<EntityReference>, lookup: NameLookup, prev: Option<EntityReference>): (r: Option<EntityReference>)
    ensures |raw| == 0 ==> r.None?
    ensures |raw| > 0 && (raw[0].id == "" || raw[0].name != "") ==> r == Some(raw[0])
    ensures |raw| > 0 && raw[0].id != "" && raw[0].name == "" ==>
      r == (if lookup.NameFound? then Some(EntityReference(raw[0].id, lookup.name, "account")) else prev)
    ensures |raw| > 0 ==> r == prev || (r.Some? && r.value.id == raw[0].id)
  {
    if |raw| == 0 then None
    else if raw[0].id != "" && raw[0].name == "" then
      (if lookup.NameFound? then Some(EntityReference(raw[0].id, lookup.name, "account")) else prev)
    else Some(raw[0])
  }

  /** The output the host reads: a one-element list holding the value, or `undefined` when there is none. */
  function OutputsOf(value: Option<EntityReference>): (r: Option<seq<EntityReference>>)
    ensures r.Some? <==> value.Some?
    ensures r.Some? ==> r.value == [value.value]
  {
    if value.Some? then Some([value.value]) else None
  }

  /**
   * Round trip through the host: when the host binds back what the control
   * output, loading it restores the same value, unless that value has an id
   * but no name (then the name is looked up again).
   */
  lemma OutputsReloadUnchanged(v: Option<EntityReference>, lookup: NameLookup, prev: Option<EntityReference>)
    requires v.None? || v.value.id == "" || v.value.name != ""
    ensures var out := OutputsOf(v);
      ResolveLookup(if out.Some? then out.value else [], lookup, prev) == v
  {
  }

  /** The extra filter clause handed to the widget: the stored one when it is non-empty, else `undefined`. */
  function PassedCriteria(c: Option<string>): (r: Option<string>)
    ensures r.Some? <==> Truthy(c)
    ensures r.Some? ==> r == c
  {
    if Truthy(c) then c else None
  }

  /** Without a non-empty extra clause the widget's filter ends with the literal word `undefined`. */
  lemma MissingCriteriaSplicesUndefined(c: Option<string>)
    requires !Truthy(c)
    ensures CriteriaText(PassedCriteria(c)) == "undefined"
  {
  }

  class PcfDistributorLookupNew {
    var lookupValue: Option<EntityReference>
    var disabled: bool
    var filterCriteria: Option<string>
    var entityName: Option<string>
    ghost var calls: seq<HostCall>

    constructor()
      ensures lookupValue == None && !disabled
      ensures filterCriteria == None && entityName == None
      ensures calls == []
    {
      lookupValue := None;
      disabled := false;
      filterCriteria := None;
      entityName := None;
      calls := [];
    }

    /**
     * Initialisation: issues the status lookup only for an existing record of a
     * named entity, stores the filter clause, resolves the bound value and
     * renders. The lock flag changes only when the status answer arrives.
     */
    method Init(xrm: XrmPage, entityName: Option<string>, filterCriteria: Option<string>,
                lookupRaw: seq<EntityReference>, nameLookup: NameLookup)
      returns (statusRequest: Option<StatusRequest>)
      modifies this
      ensures statusRequest.Some? <==> Truthy(CurrentEntityId(xrm)) && Truthy(entityName)
      ensures statusRequest.Some? ==>
        statusRequest.value == StatusRequest(entityName.value, CurrentEntityId(xrm).value, StatusSelect)
      ensures this.entityName == entityName && this.filterCriteria == filterCriteria
      ensures lookupValue == ResolveLookup(lookupRaw, nameLookup, old(lookupValue))
      ensures disabled == old(disabled)
      ensures calls == old(calls) + [Render]
    {
      var entityId := CurrentEntityId(xrm);
      this.entityName := entityName;
      statusRequest := None;
      if Truthy(entityId) && Truthy(entityName) {
        statusRequest := Some(StatusRequest(entityName.value, entityId.value, StatusSelect));
      }
      this.filterCriteria := filterCriteria;
      var _ := LoadLookupData(lookupRaw, nameLookup);
      calls := calls + [Render];
    }

    /** The status answer: locks the field exactly for a 200 response whose `statecode` is 1, 2 or 3, then renders. */
    method OnStatusResponse(resp: StatusResponse)
      modifies this`disabled, this`calls
      ensures disabled <==> resp.StatusLoaded? && resp.status == 200 && resp.statecode in {Some(1), Some(2), Some(3)}
      ensures calls == old(calls) + [Render]
    {
      match resp {
        case StatusLoaded(status, statecode) =>
          if status == 200 {
            if statecode == Some(1) || statecode == Some(2) || statecode == Some(3) {
              disabled := true;
            } else {
              disabled := false;
            }
          } else {
            disabled := false;
          }
        case StatusNetworkError =>
          disabled := false;
      }
      calls := calls + [Render];
    }

    /**
     * Resolves the bound value: none without a raw value; an id without a name
     * is completed by a name lookup (a failed lookup keeps the previous value);
     * anything else is taken as it is.
     */
    method LoadLookupData(raw: seq<EntityReference>, nameLookup: NameLookup) returns (nameRequest: Option<string>)
      modifies this`lookupValue
      ensures lookupValue == ResolveLookup(raw, nameLookup, old(lookupValue))
      ensures nameRequest.Some? <==> |raw| > 0 && raw[0].id != "" && raw[0].name == ""
      ensures nameRequest.Some? ==> nameRequest.value == raw[0].id
    {
      nameRequest := None;
      if |raw| > 0 {
        var id, name := raw[0].id, raw[0].name;
        if id != "" && name == "" {
          nameRequest := Some(id);
          match nameLookup {
            case NameFound(fetched) =>
              lookupValue := Some(EntityReference(id, fetched, "account"));
            case NameLookupFailed =>
          }
        } else {
          lookupValue := Some(raw[0]);
        }
      } else {
        lookupValue := None;
      }
    }

    /** A context update: a changed filter clause is stored and triggers an extra load; the value is always reloaded, then rendered. */
    method UpdateView(filterCriteria: Option<string>, raw: seq<EntityReference>, firstLookup: NameLookup, secondLookup: NameLookup)
      modifies this`filterCriteria, this`lookupValue, this`calls
      ensures this.filterCriteria == filterCriteria
      ensures lookupValue == ResolveLookup(raw, secondLookup,
        if filterCriteria != old(this.filterCriteria) then ResolveLookup(raw, firstLookup, old(lookupValue)) else old(lookupValue))
      ensures calls == old(calls) + [Render]
    {
      if filterCriteria != this.filterCriteria {
        this.filterCriteria := filterCriteria;
        var _ := LoadLookupData(raw, firstLookup);
      }
      var _ := LoadLookupData(raw, secondLookup);
      calls := calls + [Render];
    }

    function GetOutputs(): (r: Option<seq<EntityReference>>)
      reads this
      ensures r.Some? <==> lookupValue.Some?
      ensures r.Some? ==> r.value == [lookupValue.value]
    {
      OutputsOf(lookupValue)
    }

    /** The widget's change callback: stores the value (`None` included), notifies the host once, then renders. */
    method HandleLookupChange(newValue: Option<EntityReference>)
      modifies this`lookupValue, this`calls
      ensures lookupValue == newValue
      ensures calls == old(calls) + [NotifyOutputChanged, Render]
    {
      lookupValue := newValue;
      calls := calls + [NotifyOutputChanged];
      calls := calls + [Render];
    }
  }
}

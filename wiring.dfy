/**
 * How the widget and the control are connected: the widget's change callback
 * is the control's change handler. These methods run a user action through
 * both and state what the host then reads back.
 */
module Wiring {
  import opened LookupTypes
  import opened ODataFilter
  import opened Paging
  import opened AccountLookupModal
  import opened HostAdapter

  /** Hands a widget notification to the control, as the change callback does. */
  method Deliver(host: PcfDistributorLookupNew, n: Notify)
    modifies host`lookupValue, host`calls
    ensures n.Silent? ==> host.lookupValue == old(host.lookupValue) && host.calls == old(host.calls)
    ensures n.Changed? ==> host.lookupValue == n.value && host.calls == old(host.calls) + [NotifyOutputChanged, Render]
  {
    if n.Changed? {
      host.HandleLookupChange(n.value);
    }
  }

  /** Picking a row: the modal closes, the host is notified once and then reads exactly that account as the field's value. */
  method PickAccount(host: PcfDistributorLookupNew, widget: LookupWidget, account: Account)
    modifies host`lookupValue, host`calls, widget`inputValue, widget`selectedRecordId, widget`modalOpen
    ensures host.GetOutputs() == Some([EntityReference(account.accountid, account.name, "account")])
    ensures host.calls == old(host.calls) + [NotifyOutputChanged, Render]
    ensures widget.selectedRecordId == account.accountid && widget.inputValue == account.name
    ensures !widget.modalOpen
  {
    var n := widget.AccountClick(account);
    Deliver(host, n);
  }

  /**
   * Typing in the main input discards a structured selection: the host is
   * notified once and reads a name-only reference, and the debounced search
   * uses the typed text with the other three fields as they were.
   */
  method TypeInMainInput(host: PcfDistributorLookupNew, widget: LookupWidget, text: string) returns (pending: Debounced)
    modifies host`lookupValue, host`calls
    modifies widget`inputValue, widget`nameSearch, widget`citySearch, widget`customerSearch, widget`shipToSearch
    ensures host.GetOutputs() == Some([EntityReference("", text, "")])
    ensures host.calls == old(host.calls) + [NotifyOutputChanged, Render]
    ensures widget.inputValue == text
    ensures pending.isSearch && pending.args == old(widget.Filters()).(name := text)
    ensures widget.Filters() == pending.args
    ensures widget.selectedRecordId == old(widget.selectedRecordId)
  {
    var n;
    n, pending := widget.InputChange(NameField, text);
    Deliver(host, n);
  }

  /** Clearing the selection: the host is notified once and reads no value, the input empties, and the loaded rows stay. */
  method ClearSelection(host: PcfDistributorLookupNew, widget: LookupWidget)
    modifies host`lookupValue, host`calls, widget`inputValue, widget`selectedRecordId
    ensures host.GetOutputs() == None
    ensures host.calls == old(host.calls) + [NotifyOutputChanged, Render]
    ensures widget.inputValue == "" && widget.selectedRecordId == ""
    ensures widget.PagingView() == old(widget.PagingView())
  {
    var n := widget.ClearLookup();
    Deliver(host, n);
  }
}

/** Values shared by the host adapter and the search-and-select widget. */
module LookupTypes {

  /** A JavaScript value that may be `null` or `undefined`. */
  datatype Option<+T> = None | Some(value: T)

  /** JavaScript truthiness of an optional string: present and not empty. */
  predicate Truthy(s: Option<string>) {
    s.Some? && s.value != ""
  }

  /** The host form's reference to a bound record; an empty string stands for an absent field. */
  datatype EntityReference = EntityReference(id: string, name: string, entityType: string)

  /** One row of the account directory as the search endpoint returns it (the columns the model needs). */
  datatype Account = Account(
    accountid: string,
    name: string,
    city: string,
    customerAcct: string,
    shipToAcct: string)
}

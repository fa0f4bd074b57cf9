/** The slice of a Django REST framework request the views read: the method,
    the query string, the parsed body and the `META` header dictionary, each
    with string values. */
module Http {
  import opened Wrappers

  datatype Method = Get | Post | Put | Patch | Delete

  type Params = map<string, string>

  datatype Request = Request(verb: Method, query: Params, data: Params, meta: Params)

  /** `params.get(key)`: the value, or `None` when the key is absent. */
  function Field(params: Params, key: string): Option<string> {
    if key in params then Some(params[key]) else None
  }

  /** Python truthiness of an optional string: present and non-empty. */
  predicate Truthy(value: Option<string>) {
    value.Some? && value.value != ""
  }
}

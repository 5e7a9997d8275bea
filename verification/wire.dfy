/** Values that cross the HTTP boundary: form fields, query arguments,
    cookies and decoded JSON bodies. */
module Wire {
  import opened Wrappers

  /** A JSON scalar as Python's json module decodes it. Numbers are exact
      reals, so an integer price and a float price are treated alike. */
  datatype Json = JNull | JBool(b: bool) | JNum(n: real) | JStr(s: string)

  /** A decoded JSON object (a Python dict with string keys). */
  type Object = map<string, Json>

  /** `d.get(k)`: the value under `k`, or None when the key is absent. */
  function Get<V>(d: map<string, V>, k: string): Option<V>
  {
    if k in d then Some(d[k]) else None
  }

  /** Python truthiness of a value returned by `d.get(k)`: None, null,
      false, zero and the empty string are falsy. */
  predicate Truthy(v: Option<Json>)
  {
    match v
    case None => false
    case Some(JNull) => false
    case Some(JBool(b)) => b
    case Some(JNum(n)) => n != 0.0
    case Some(JStr(s)) => s != ""
  }

  /** An HTTP GET as the receiving service sees it: its query arguments and
      its cookies. */
  datatype Request = Request(args: map<string, string>, cookies: map<string, string>)

  /** A JSON response: status code and decoded body. */
  datatype JsonResponse = JsonResponse(status: int, body: Object)

  /** What `requests.get` yields to its caller: an exception (connection
      refused, timeout) or a response. */
  datatype Reply = NetErr | Resp(response: JsonResponse)

}

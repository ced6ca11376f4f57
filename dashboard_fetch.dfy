/**
 * How the dashboard panels (src/genz/components/Dashboard.tsx) read the
 * answer of a fetch to one of the API routes, and the error text they build
 * from a failed one.
 */
module DashboardFetch {
  import opened Json
  import opened Text

  /**
   * How a fetch ends: it rejects with an Error (no connection), or a response
   * arrives with its `ok` flag and its body as res.json() reads it (None when
   * the body is not JSON).
   */
  datatype Response = FetchFailed(message: string) | Responded(ok: bool, body: Option<Json>)

  /**
   * The body a failed response is read as: `res.json().catch(() => ({}))`,
   * so an unreadable body counts as an empty object.
   */
  function FailureBody(body: Option<Json>): Json
  {
    match body case Some(v) => v case None => JObj(map[])
  }

  /**
   * Whether building the message for a failed response throws a TypeError
   * itself: `base + details` converts the error value and the template
   * literal converts the details, and either conversion throws on an object
   * with its own "toString" (or an array holding one).
   */
  predicate FailureTextThrows(data: Json)
  {
    (!Nullish(Get(data, "error")) && StringThrows(Get(data, "error").value))
    || (Present(Get(data, "details")) && StringThrows(Get(data, "details").value))
  }

  /**
   * The message thrown for a failed response: String(data.error ?? fallback),
   * followed by the separator and String(data.details) when details is
   * truthy. Only defined when data is not null (reading a property of null
   * throws a TypeError instead) and neither conversion throws.
   */
  function FailureText(data: Json, fallback: string, sep: string): (text: string)
    requires !data.JNull? && !FailureTextThrows(data)
    ensures Nullish(Get(data, "error")) && !Present(Get(data, "details")) ==> text == fallback
    ensures !Nullish(Get(data, "error")) ==> StartsWith(text, ToStr(Get(data, "error").value))
    ensures Nullish(Get(data, "error")) ==> StartsWith(text, fallback)
    ensures !Present(Get(data, "details")) ==> text == (if Nullish(Get(data, "error")) then fallback else ToStr(Get(data, "error").value))
    ensures Present(Get(data, "details")) ==>
      var d := sep + ToStr(Get(data, "details").value);
      |text| >= |d| && text[|text| - |d|..] == d
  {
    var base := ToStr(Coalesce(Get(data, "error"), JStr(fallback)));
    var details := Get(data, "details");
    base + (if Present(details) then sep + ToStr(details.value) else "")
  }
}

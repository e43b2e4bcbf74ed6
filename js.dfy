/** The JavaScript notions the client code leans on: truthiness of an optional
    string, the shape of a rejected request, and where the browser is sent. */
module Js {
  import opened Wrappers

  /** `if (s)` on a value read from storage or a response: present and not "". */
  predicate Truthy(s: Option<string>)
  {
    s.Some? && s.value != ""
  }

  /** The fields of a response body that the client reads. Field validation
      errors arrive as lists of messages (`username`, `email`); an absent list
      is the empty sequence. */
  datatype ResponseData = ResponseData(
    detail: Option<string>,
    error: Option<string>,
    username: seq<string>,
    email: seq<string>,
    access: Option<string>,
    refresh: Option<string>)

  /** An empty body. */
  const NoData := ResponseData(None, None, [], [], None, None)

  datatype HttpResponse = HttpResponse(status: int, data: ResponseData)

  /** The value a rejected promise carries. An axios error for a failed
      request carries the server's response; an `Error` thrown by the code
      itself, or a network failure, carries none. */
  datatype JsError = JsError(message: string, response: Option<HttpResponse>)

  /** `error.response?.status === status`. */
  predicate HasStatus(e: JsError, status: int)
  {
    e.response.Some? && e.response.value.status == status
  }

  /** Where the page sends the browser after an action: nowhere, to a route
      of the single-page application (`navigate(path, { state: { message } })`),
      or to another URL by assigning `window.location.href`. */
  datatype Nav = Stay | Navigate(path: string, message: Option<string>) | Assign(url: string)

  /** A JSON value as the server's serializers write it: an integer, a decimal
      (as a whole number of hundredths) or a string. */
  datatype Json = JInt(i: int) | JDecimal(cents: int) | JString(s: string)

  /** The Django admin site, outside the single-page application. */
  const AdminSiteUrl := "http://localhost:8000/admin/"

  /** What a page's handler throws itself (a property read on `undefined`,
      `atob` or `JSON.parse` on a bad payload) and catches in its own catch
      block. It carries no response. */
  const ThrownLocally := JsError("TypeError", None)
}

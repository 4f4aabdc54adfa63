/** Values the pages receive from the bill API, and the JavaScript
    truthiness test the pages apply to optional error text. */
module Api {

  datatype Option<+T> = None | Some(value: T)

  /** The outcome of one HTTP request as the page's `try`/`catch` sees it:
      either the response body, or a failure whose `err.response?.data?.detail`
      is `detail` (None when there is no response, no body or no detail). */
  datatype Response<+T> = Ok(payload: T) | Err(detail: Option<string>)

  /** JavaScript truthiness of a `string | null | undefined`: only a
      non-empty string is truthy. */
  predicate Truthy(s: Option<string>) {
    s.Some? && s.value != ""
  }

  /** `detail || fallback`: the server's detail when it is truthy,
      the fallback text otherwise. */
  function OrElse(detail: Option<string>, fallback: string): (m: string)
    ensures Truthy(detail) ==> Some(m) == detail
    ensures !Truthy(detail) ==> m == fallback
    ensures fallback != "" ==> m != ""
  {
    if Truthy(detail) then detail.value else fallback
  }
}

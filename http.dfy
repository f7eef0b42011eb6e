/**
 * The HTTP exchange both clients perform with `fetch`: the request they send
 * and what comes back. The network is not modelled; a caller supplies the
 * outcome as a function of the request (`send` in the clients).
 */
module Http {
  import opened Wrappers
  import opened Js
  import PaApi

  /** `fetch(url, { method, headers, body })`, the method as `httpMethod`. */
  datatype Request = Request(url: string, httpMethod: string, headers: Props, body: string)

  /**
   * What a `fetch` of a request yields: a rejected promise (a network
   * failure, with the error's message), or a response with its status, the
   * text `response.text()` reads, and what `response.json()` resolves to or
   * the message of the error it throws.
   */
  datatype Exchange =
    | Rejected(message: string)
    | Responded(status: nat, text: string, json: Result<PaApi.ApiResponse, string>)

  /** `response.ok`: a status in the range 200-299. */
  predicate StatusOk(status: nat) {
    200 <= status <= 299
  }
}

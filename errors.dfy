/** The error values of the networking layer. */
module Errors {
  import opened Bytes

  /** RequestError: the request descriptor could not become a wire request. */
  datatype RequestError = InvalidURL | InvalidParameters | MissingBaseURL

  /** APIError: the response was not HTTP, or its status was outside 200...299. */
  datatype ApiError = InvalidResponse | HttpError(status: int, body: Bytes)

  /** An error thrown by code outside this model (an authentication provider, the JSON
      encoder), identified only by a code. */
  datatype ExternalFault = ExternalFault(code: int)
}

/** The `ApiError` record every backend failure is expressed in, and Express's `next` signal. */
module ApiErrors {
  import opened Wrappers

  /**
   * An error carrying an HTTP status. `details` is the optional extra payload; the only one
   * the core ever supplies is the list of validation messages. The record is immutable once built.
   */
  datatype ApiError = ApiError(statusCode: int, message: string, details: Option<seq<string>>) {
    /** The `name` property, the same for every instance. */
    const name: string := "ApiError"
  }

  /** `new ApiError(statusCode, message, details?)`. */
  function NewApiError(statusCode: int, message: string, details: Option<seq<string>>): (e: ApiError)
    ensures e.statusCode == statusCode
    ensures e.message == message
    ensures e.details == details
    ensures e.name == "ApiError"
  {
    ApiError(statusCode, message, details)
  }

  /** What a middleware hands to `next`: nothing (carry on) or an error. */
  datatype Next = Continue | Abort(error: ApiError)
}

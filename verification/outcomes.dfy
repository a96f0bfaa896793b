/**
 * How an operation of the provider ends: the value a promise resolves with,
 * the error it rejects with, or the error thrown synchronously before any
 * promise exists. The error codes are the ones the handlers set on
 * `error.code`.
 */
module Outcomes {

  /** The `error.code` values the provider assigns. */
  datatype Code =
    | LabelNotFound
    | AssetNotFound
    | SimilarNotFound
    | TrendingNotFound
    | PopularNotFound
    | StreamUndefined

  /** The text of each code as the source writes it. */
  function CodeName(c: Code): string
  {
    match c
    case LabelNotFound => "LABEL_NOT_FOUND"
    case AssetNotFound => "ASSET_NOT_FOUND"
    case SimilarNotFound => "SIMILAR_NOT_FOUND"
    case TrendingNotFound => "TRENDING_NOT_FOUND"
    case PopularNotFound => "POPULAR_NOT_FOUND"
    case StreamUndefined => "STREAM_UNDEFINED"
  }

  datatype Error =
    | Coded(code: Code)          // an Error carrying one of the codes above
    | Invalid(message: string)   // `throw new Error(message)` for a missing argument
    | TypeError                  // a JavaScript TypeError (reading a property of null, ...)
    | Network(reason: string)    // the HTTP library reported a transport failure
    | BadStatus(status: int)     // the player API answered with a status other than 200
    | BadJson                    // `JSON.parse` threw
    | EmptyJsonBody              // a JSON content type with a body that is not a string
    | NotJson                    // a content type other than application/json
    | Upstream(reason: string)   // a rejection produced by a collaborator outside the model

  /** The three ways a call into the provider can end. */
  datatype Settled<+T> =
    | Resolved(value: T)   // the returned promise fulfils
    | Rejected(error: Error) // the returned promise rejects
    | Threw(error: Error)  // the call throws before returning a promise
}

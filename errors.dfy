/**
 * The two failure kinds the pipeline distinguishes: a network problem while
 * fetching a page (the source's APIError, which carries the URL) and any other
 * exception raised on the way to the loader.
 */
module Errors {

  datatype PipelineError =
    | NetworkError(url: string, cause: string)
    | UnexpectedError(cause: string)
}

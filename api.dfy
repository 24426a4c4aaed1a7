/** The backend gateway as the dashboard sees it. Every backend operation is
    abstract: the model records which call a component issues (a `Call`
    value) and receives its outcome as a `Response` chosen by the caller. */
module Api {

  /** An optional value: a field that may be missing from a backend row, or
      the single durable cache entry that may not exist. */
  datatype Option<T> = None | Some(value: T) {

    /** The value, or `default` when missing (the `x || default` idiom). */
    function GetOr(default: T): T {
      match this
      case Some(v) => v
      case None => default
    }
  }

  /** Outcome of one backend request: its response body, or a failure
      (timeout, non-2xx status or a body the client cannot use). */
  datatype Response<T> = Ok(data: T) | Err

  /** The request a component issues, one constructor per operation of the
      request client that the modelled components use. */
  datatype Call =
    | ListTasks(limit: int, offset: int)
    | FindDuplicates(threshold: real)
    | SearchSimilarTasks(query: string, threshold: real, limit: int)
    | HybridSearch(query: string, limit: int, semanticWeight: real)
    | AddTask(subject: string, description: string)
}

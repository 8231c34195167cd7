/** The configuration sources both the telemetry layer and the web apps consult. */
module Sources {
  import opened Wrappers
  import opened PyValues

  /**
   * A local JSON file: `None` when `os.path.exists` is false, otherwise what
   * opening it and `json.load` gave.
   */
  type LocalFile = Option<Result<Value, Exc>>

  /** What `requests.get(url, auth=...)` did: a response (with `response.json()`), or an exception. */
  datatype HttpResponse = Response(status: int, json: Result<Value, Exc>) | RequestFailed(e: Exc)

  /** The JSON body of a 200 response that decodes. */
  predicate Served(r: HttpResponse) {
    r.Response? && r.status == 200 && r.json.Ok?
  }

  const NexusRawRepository: string := "http://localhost:8081/repository/test-raw/"
}

/** What a handler does with one request: the backend calls it makes and what
    it answers (a response, or an exception it lets escape). */
module Exchanges {
  import opened JsValues

  datatype Option<T> = None | Some(value: T)

  /** The restify error classes the handlers answer with. */
  datatype RestError = ConflictError | ResourceNotFoundError | InternalError

  function StatusCode(e: RestError): (code: nat)
    ensures code in {404, 409, 500}
  {
    match e
    case ConflictError => 409
    case ResourceNotFoundError => 404
    case InternalError => 500
  }

  /** A response: either sent by the handler (status, Location header, body)
      or an error passed to `next`, which restify renders with its status. */
  datatype Response =
    | Sent(status: nat, location: Option<string>, body: Option<Value>)
    | Rejected(error: RestError, message: string)

  function Status(r: Response): (status: nat)
  {
    match r
    case Sent(status, _, _) => status
    case Rejected(e, _) => StatusCode(e)
  }

  datatype Outcome = Responded(response: Response) | Threw(thrown: Exception)

  /** One call into the backend (or into the workflow factory built over it). */
  datatype Call =
    | GetWorkflowsCall
    | GetWorkflowCall(uuid: string)
    | FactoryWorkflowCall(workflow: map<string, Value>)
    | UpdateWorkflowCall(params: map<string, Value>)
    | DeleteWorkflowCall(workflow: map<string, Value>)

  /** A backend error message; an empty one is falsy and would not count as an error. */
  type ErrorText = e: string | e != "" witness "error"

  /** What a backend callback `function(err, result)` receives: a truthy error,
      or a result. */
  datatype Reply<T> = Failure(error: ErrorText) | Success(value: T)

  datatype Exchange = Exchange(calls: seq<Call>, outcome: Outcome)

  /** The status of a handler that answered, or none if it threw. */
  function StatusOf(x: Exchange): (status: Option<nat>)
  {
    if x.outcome.Responded? then Some(Status(x.outcome.response)) else None
  }
}

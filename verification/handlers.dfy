/** The workflow resource handlers of the API: list, create, get, update and
    delete. Each takes what the backend (or the workflow factory) reports to
    its callback and gives the backend calls made and the answer. A report
    is an input even when the call is not made; the call list says whether it
    was. */
module WorkflowHandlers {
  import opened JsValues
  import opened Exchanges
  import opened WorkflowCompiler

  /** The error text by which the backend says an updated workflow is unknown. */
  const NotExists: string := "Workflow does not exist. Cannot Update."

  const CannotDelete: string := "Cannot delete the workflow"

  function NotFoundMessage(uuid: string): (message: string)
  {
    "Workflow " + uuid + " not found"
  }

  /** `GET /workflows`: whatever the backend lists, unchanged. */
  function ListWorkflows(listed: Reply<Value>): (x: Exchange)
    ensures x.calls == [GetWorkflowsCall]
    ensures StatusOf(x) == Some(if listed.Success? then 200 else 500)
    ensures listed.Success? ==> x.outcome == Responded(Sent(200, None, Some(listed.value)))
    ensures listed.Failure? ==> x.outcome == Responded(Rejected(InternalError, listed.error))
  {
    match listed
    case Failure(e) => Exchange([GetWorkflowsCall], Responded(Rejected(InternalError, e)))
    case Success(workflows) => Exchange([GetWorkflowsCall], Responded(Sent(200, None, Some(workflows))))
  }

  /** The answer to the factory's callback on create. */
  function CreateReply(path: string, created: Reply<map<string, Value>>): (r: Response)
    ensures Status(r) in {201, 409}
    ensures created.Failure? ==> r == Rejected(ConflictError, created.error)
    ensures created.Success? ==>
              r == Sent(201, Some(path + "/" + JsString(Lookup(created.value, "uuid"))), Some(Record(created.value)))
  {
    match created
    case Failure(e) => Rejected(ConflictError, e)
    case Success(result) =>
      Sent(201, Some(path + "/" + JsString(Lookup(result, "uuid"))), Some(Record(result)))
  }

  /** The member `key` of `workflow` is the task array `source` with every
      task compiled, at the same index. */
  ghost predicate CompiledFrom(workflow: map<string, Value>, key: string, source: Value, compile: string -> Value)
  {
    key in workflow && workflow[key].List? && source.List? &&
    |workflow[key].items| == |source.items| &&
    forall i :: 0 <= i < |source.items| ==> workflow[key].items[i] == CompileTask(source.items[i], compile)
  }

  /** The record `postWorkflow` hands to the factory: the allow-listed truthy
      parameters, with the tasks of `chain` and `onerror` compiled. */
  function CompiledWorkflow(params: map<string, Value>, compile: string -> Value): (workflow: map<string, Value>)
    ensures forall k :: k in workflow <==> k in Members && Truthy(Lookup(params, k))
    ensures forall k :: k in workflow && k != "chain" && k != "onerror" ==> k in params && workflow[k] == params[k]
    ensures Lookup(params, "chain").List? ==> CompiledFrom(workflow, "chain", params["chain"], compile)
    ensures Lookup(params, "onerror").List? ==> CompiledFrom(workflow, "onerror", params["onerror"], compile)
  {
    WithCompiledMember(WithCompiledMember(Projection(params), "chain", compile), "onerror", compile)
  }

  /** Projecting the parameters does not change how their task arrays validate. */
  lemma ProjectionKeepsValidation(params: map<string, Value>)
    ensures ValidateChains(Projection(params)) == ValidateChains(params)
  {
  }

  /** `POST /workflows`, as specified: validation of both task arrays of the
      projected record decides everything before the factory is called. */
  function PostExchange(path: string, params: map<string, Value>, compile: string -> Value,
                        created: Reply<map<string, Value>>): (x: Exchange)
    ensures x.calls == [] <==> ValidateChains(params) != Validated(false)
    ensures ValidateChains(params).Aborts? ==> x.outcome == Threw(ValidateChains(params).thrown)
    ensures ValidateChains(params) == Validated(true) ==>
              x.outcome == Responded(Rejected(ConflictError, BodyRequired))
    ensures x.calls != [] ==>
              x.calls == [FactoryWorkflowCall(CompiledWorkflow(params, compile))] &&
              x.outcome == Responded(CreateReply(path, created))
    ensures x.outcome.Responded? ==> Status(x.outcome.response) in {201, 409}
  {
    ProjectionKeepsValidation(params);
    match ValidateChains(Projection(params))
    case Aborts(e) => Exchange([], Threw(e))
    case Validated(missing) =>
      if missing then Exchange([], Responded(Rejected(ConflictError, BodyRequired)))
      else Exchange([FactoryWorkflowCall(CompiledWorkflow(params, compile))], Responded(CreateReply(path, created)))
  }

  /** `postWorkflow` as the code runs it: the allow-list loop, then for `chain`
      and then `onerror` one pass that checks and compiles each task, then the
      shared error flag, then the factory. */
  method PostWorkflow(path: string, params: map<string, Value>, compile: string -> Value,
                      created: Reply<map<string, Value>>) returns (x: Exchange)
    ensures x == PostExchange(path, params, compile, created)
  {
    var projected := Project(params);
    var workflow, chain := CompileMember(projected, "chain", compile);
    if chain.Aborts? {
      return Exchange([], Threw(chain.thrown));
    }
    assert Lookup(workflow, "onerror") == Lookup(projected, "onerror");
    var onerror: Validation;
    workflow, onerror := CompileMember(workflow, "onerror", compile);
    if onerror.Aborts? {
      return Exchange([], Threw(onerror.thrown));
    }
    var error := chain.missing || onerror.missing;
    if error {
      return Exchange([], Responded(Rejected(ConflictError, BodyRequired)));
    }
    return Exchange([FactoryWorkflowCall(workflow)], Responded(CreateReply(path, created)));
  }

  /** `GET /workflows/:uuid`: a record with no keys is how the backend says
      there is none. */
  function GetWorkflow(uuid: string, found: Reply<map<string, Value>>): (x: Exchange)
    ensures x.calls == [GetWorkflowCall(uuid)]
    ensures found.Failure? ==> x.outcome == Responded(Rejected(InternalError, found.error))
    ensures found.Success? && |found.value| == 0 ==>
              x.outcome == Responded(Rejected(ResourceNotFoundError, NotFoundMessage(uuid)))
    ensures StatusOf(x) == Some(200) <==> found.Success? && |found.value| != 0
    ensures StatusOf(x) == Some(200) ==> x.outcome == Responded(Sent(200, None, Some(Record(found.value))))
    ensures StatusOf(x).Some? && StatusOf(x).value in {200, 404, 500}
  {
    match found
    case Failure(e) => Exchange([GetWorkflowCall(uuid)], Responded(Rejected(InternalError, e)))
    case Success(workflow) =>
      if |workflow| == 0 then
        Exchange([GetWorkflowCall(uuid)], Responded(Rejected(ResourceNotFoundError, NotFoundMessage(uuid))))
      else
        Exchange([GetWorkflowCall(uuid)], Responded(Sent(200, None, Some(Record(workflow)))))
  }

  /** The answer to the backend's callback on update. */
  function UpdateReply(params: map<string, Value>, updated: Reply<Value>): (r: Response)
    ensures r.Rejected? <==> updated.Failure?
    ensures r.Rejected? ==> (r.error == ResourceNotFoundError <==> updated.error == NotExists)
    ensures r.Rejected? && r.error == ResourceNotFoundError ==>
              r.message == NotFoundMessage(JsString(Lookup(params, "uuid")))
    ensures r.Rejected? && r.error != ResourceNotFoundError ==> r == Rejected(InternalError, updated.error)
    ensures r.Sent? ==> r == Sent(200, None, Some(updated.value))
  {
    match updated
    case Failure(e) =>
      if e == NotExists then Rejected(ResourceNotFoundError, NotFoundMessage(JsString(Lookup(params, "uuid"))))
      else Rejected(InternalError, e)
    case Success(workflow) => Sent(200, None, Some(workflow))
  }

  /** `PUT /workflows/:uuid`, as specified: the same validation as create, on
      the raw parameters, and then the whole parameter object to the backend. */
  function UpdateExchange(params: map<string, Value>, updated: Reply<Value>): (x: Exchange)
    ensures x.calls == [] <==> ValidateChains(params) != Validated(false)
    ensures ValidateChains(params).Aborts? ==> x.outcome == Threw(ValidateChains(params).thrown)
    ensures ValidateChains(params) == Validated(true) ==>
              x.outcome == Responded(Rejected(ConflictError, BodyRequired))
    ensures x.calls != [] ==>
              x.calls == [UpdateWorkflowCall(params)] && x.outcome == Responded(UpdateReply(params, updated))
    ensures x.outcome.Responded? ==> Status(x.outcome.response) in {200, 404, 409, 500}
  {
    match ValidateChains(params)
    case Aborts(e) => Exchange([], Threw(e))
    case Validated(missing) =>
      if missing then Exchange([], Responded(Rejected(ConflictError, BodyRequired)))
      else Exchange([UpdateWorkflowCall(params)], Responded(UpdateReply(params, updated)))
  }

  /** `updateWorkflow` as the code runs it: the two validation loops sharing an
      error flag, then the backend. */
  method UpdateWorkflow(params: map<string, Value>, updated: Reply<Value>) returns (x: Exchange)
    ensures x == UpdateExchange(params, updated)
  {
    var chain := CheckMember(params, "chain");
    if chain.Aborts? {
      return Exchange([], Threw(chain.thrown));
    }
    var onerror := CheckMember(params, "onerror");
    if onerror.Aborts? {
      return Exchange([], Threw(onerror.thrown));
    }
    var error := chain.missing || onerror.missing;
    if error {
      return Exchange([], Responded(Rejected(ConflictError, BodyRequired)));
    }
    return Exchange([UpdateWorkflowCall(params)], Responded(UpdateReply(params, updated)));
  }

  /** `DELETE /workflows/:uuid`: look the workflow up, and only if it exists
      ask the backend to delete that record; a falsy `deleted` is an error. */
  function DeleteWorkflow(uuid: string, found: Reply<map<string, Value>>, removed: Reply<Value>): (x: Exchange)
    ensures 1 <= |x.calls| <= 2 && x.calls[0] == GetWorkflowCall(uuid)
    ensures |x.calls| == 2 <==> found.Success? && |found.value| != 0
    ensures |x.calls| == 2 ==> x.calls[1] == DeleteWorkflowCall(found.value)
    ensures StatusOf(x) == Some(204) <==>
              found.Success? && |found.value| != 0 && removed.Success? && Truthy(removed.value)
    ensures found.Failure? ==> x.outcome == Responded(Rejected(InternalError, found.error))
    ensures found.Success? && |found.value| == 0 ==>
              x.outcome == Responded(Rejected(ResourceNotFoundError, NotFoundMessage(uuid)))
    ensures StatusOf(x) == Some(204) ==> x.outcome == Responded(Sent(204, None, None))
    ensures |x.calls| == 2 && removed.Failure? ==>
              x.outcome == Responded(Rejected(InternalError, removed.error))
    ensures |x.calls| == 2 && removed.Success? && !Truthy(removed.value) ==>
              x.outcome == Responded(Rejected(InternalError, CannotDelete))
    ensures StatusOf(x).Some? && StatusOf(x).value in {204, 404, 500}
  {
    match found
    case Failure(e) => Exchange([GetWorkflowCall(uuid)], Responded(Rejected(InternalError, e)))
    case Success(workflow) =>
      if |workflow| == 0 then
        Exchange([GetWorkflowCall(uuid)], Responded(Rejected(ResourceNotFoundError, NotFoundMessage(uuid))))
      else
        var response :=
          match removed
          case Failure(e) => Rejected(InternalError, e)
          case Success(deleted) => if Truthy(deleted) then Sent(204, None, None) else Rejected(InternalError, CannotDelete);
        Exchange([GetWorkflowCall(uuid), DeleteWorkflowCall(workflow)], Responded(response))
  }

  /** Delete begins with exactly the lookup of get: when get would not answer
      200, delete answers as get does and calls nothing more; otherwise it
      deletes the very record get would return. */
  lemma DeleteStartsAsGet(uuid: string, found: Reply<map<string, Value>>, removed: Reply<Value>)
    ensures DeleteWorkflow(uuid, found, removed).calls[..1] == GetWorkflow(uuid, found).calls
    ensures StatusOf(GetWorkflow(uuid, found)) != Some(200) ==>
              DeleteWorkflow(uuid, found, removed) == GetWorkflow(uuid, found)
    ensures StatusOf(GetWorkflow(uuid, found)) == Some(200) ==>
              GetWorkflow(uuid, found).outcome.response.body == Some(Record(found.value)) &&
              DeleteWorkflow(uuid, found, removed).calls ==
                GetWorkflow(uuid, found).calls + [DeleteWorkflowCall(found.value)]
  {
  }

  /** When delete stops after the lookup, what the delete call would have
      reported cannot matter. */
  lemma DeleteIgnoresUnmadeCall(uuid: string, found: Reply<map<string, Value>>, removed1: Reply<Value>, removed2: Reply<Value>)
    requires !(found.Success? && |found.value| != 0)
    ensures DeleteWorkflow(uuid, found, removed1) == DeleteWorkflow(uuid, found, removed2)
    ensures |DeleteWorkflow(uuid, found, removed1).calls| == 1
  {
  }

  /** Create and update reject exactly the same parameters before calling the
      backend, and with the same answer, as long as the compiler accepts every
      task source create hands it. */
  lemma CreateAndUpdateValidateAlike(path: string, params: map<string, Value>, compile: string -> Value,
                                     created: Reply<map<string, Value>>, updated: Reply<Value>)
    ensures (PostExchange(path, params, compile, created).calls == []) ==
            (UpdateExchange(params, updated).calls == [])
    ensures PostExchange(path, params, compile, created).calls == [] ==>
              PostExchange(path, params, compile, created).outcome == UpdateExchange(params, updated).outcome
  {
  }

  /** The tasks of one member of the parameters, when it is an array. */
  function TasksOf(params: map<string, Value>, key: string): (tasks: seq<Value>)
  {
    if Lookup(params, key).List? then Lookup(params, key).items else []
  }

  /** Once neither scan throws, the outcome of validation depends only on
      whether some task of `chain` or `onerror` lacks a body: not on which
      one, nor on how many. */
  lemma MissingBodyAnywhere(params: map<string, Value>)
    requires ValidateChains(params).Validated?
    ensures ValidateChains(params).missing <==>
              exists t :: t in TasksOf(params, "chain") + TasksOf(params, "onerror") && LacksBody(t)
  {
  }
}

# node-workflow API: the workflow resource handlers

A Dafny model of the workflow part of node-workflow's REST API (`lib/api.js`).
The model covers the checks and defaults of the `API` constructor, and the
handlers for listing, creating, reading, updating and deleting workflows.

A workflow is a record with a `name`, a `uuid`, a `timeout`, a `chain` of tasks
and an `onerror` chain of tasks. Each task has a `body` and, optionally, a
`fallback`, both given as source text. On create, the handler does four things:

- it copies the allow-listed request parameters into a fresh record;
- it checks that every task of both chains has a body;
- it compiles every body and fallback in place;
- it hands the record to the workflow factory.

The model has five modules:

- `JsValues`: the JavaScript values the handlers see. This covers truthiness,
  `typeof`, property reads, string conversion, and the `TypeError`s the engine
  throws.
- `Exchanges`: responses (status, `Location` header, body, or a restify error
  class with its message), the backend calls a handler makes, and backend
  callback results (`Failure(error)` or `Success(value)`).
- `WorkflowCompiler`: the allow-list projection, the task validation and the
  in-place compilation.
- `WorkflowHandlers`: the five handlers.
- `ApiSetup`: the constructor's argument checks and the defaults it writes
  into `opts.api`.

The HTTP layer and the persistence layer are abstracted away. Each handler
takes what the backend (or the factory) would pass to its callback as an
input. It returns an `Exchange`: the list of backend calls it made, and either
a response or the exception it let escape. Because the calls are part of the
result, properties like "the factory is never called" or "`deleteWorkflow` is
only called after a successful lookup" can be stated directly. The task
compiler (`vm.runInNewContext`) is an opaque parameter `compile: string -> Value`.
It receives the same text the code builds, `'(' + task.body + ')'`.

Create and update each have two versions:

- a specification function (`PostExchange`, `UpdateExchange`), which
  validates both chains first and only then compiles;
- a method (`PostWorkflow`, `UpdateWorkflow`), which runs the code's own
  loops. Create's loop checks and compiles each task of an array in the same
  pass and writes it back at its index.

Each method is proved equal to its specification. The properties are stated
on the specification functions and in lemmas.

Where the code's behaviour is surprising, the model follows the code:

- A factory error on create is answered with `ConflictError` (409), not 500
  (`lib/api.js:133`).
- Compilation runs in the same loop as validation, before the error flag is
  checked (`lib/api.js:103-106`). Tasks without a body are compiled too, and
  their `undefined` body is handed to the compiler as `(undefined)`.
- Update does not filter its parameters. The whole `req.params` object goes to
  the backend (`lib/api.js:182`).
- "Not found" on get and delete is a record with no keys (`lib/api.js:148`,
  `lib/api.js:203`).

## Model

| member | source | states |
|---|---|---|
| `WorkflowCompiler.Projection` | lib/api.js:90-99 | the created record has a key exactly when it is one of name, uuid, timeout, chain, onerror and the request value is truthy; that value is copied unchanged |
| `WorkflowCompiler.Project` | lib/api.js:90-99 | the allow-list loop builds exactly that record (same keys and values as `Projection`) |
| `WorkflowCompiler.HasNullish` | lib/api.js:102-103 | reading the body throws exactly when some task of the array is null or undefined |
| `WorkflowCompiler.AnyLacksBody` | lib/api.js:102-105 | the error flag is raised exactly when at least one task lacks a truthy body |
| `WorkflowCompiler.CompileTask` | lib/api.js:106-110 | a task gets a `body` key holding the compiled `'(' + body + ')'`; `fallback` is compiled only when truthy; every other field is unchanged; a task that is not an object is left as it is |
| `WorkflowCompiler.CompileList` | lib/api.js:102-111 | compiling a chain keeps its length, and task i of the result is task i compiled |
| `WorkflowCompiler.Validate` | lib/api.js:162-168 | a falsy member is accepted; a truthy non-array throws (no `forEach`); an array throws exactly when a task is null, and then with the TypeError of reading `body`; the body-required flag is set exactly when the array has no null task and some task lacks a body |
| `WorkflowCompiler.ValidateChains` | lib/api.js:162-180 | `chain` is scanned first: its exception escapes and `onerror` is not looked at; otherwise `onerror`'s exception escapes; both members pass only if each passes on its own; the flag is set if it is set for either chain |
| `WorkflowCompiler.WithCompiledMember` | lib/api.js:101-112 | compiling one member keeps the record's keys and every other member; an array member is replaced, index by index, by its compiled tasks |
| `WorkflowCompiler.ScanBodies` | lib/api.js:163-167 | the update loop visits every task; it throws exactly when some task is null, and otherwise reports whether any task lacks a body |
| `WorkflowCompiler.CheckMember` | lib/api.js:162-168 | the update check of one member agrees with `Validate` |
| `WorkflowCompiler.CompileTasksInPlace` | lib/api.js:102-111 | the create loop on a task array: it throws exactly on a null task; otherwise every index holds its compiled task and the flag says whether a body was missing; on a throw, the tasks before the first null one are compiled and the rest are untouched |
| `WorkflowCompiler.CompileMember` | lib/api.js:101-112 | the create pass over one member agrees with `Validate` and, when that passes, yields `WithCompiledMember` |
| `WorkflowHandlers.ListWorkflows` | lib/api.js:79-87 | one `getWorkflows` call; a backend error gives InternalError with its message; otherwise 200 with the list as returned |
| `WorkflowHandlers.CreateReply` | lib/api.js:131-139 | a factory error gives ConflictError (409) with the factory's message; success gives 201 with the result as body and Location `path + '/' + result.uuid` |
| `WorkflowHandlers.CompiledWorkflow` | lib/api.js:90-125 | the record handed to the factory has only allow-listed truthy keys; name, uuid and timeout are unchanged; chain and onerror keep their length and order, with each task compiled in place |
| `WorkflowHandlers.ProjectionKeepsValidation` | lib/api.js:95-105 | validating the projected record gives the same verdict as validating the raw parameters |
| `WorkflowHandlers.PostExchange` | lib/api.js:89-140 | the factory is called (once, with the compiled record) exactly when both chains validate and no body is missing; for task sources the compiler accepts, a missing body gives ConflictError "Task body is required" with no call; a null task or a non-array chain throws with no call; every answer is 201 or 409 |
| `WorkflowHandlers.PostWorkflow` | lib/api.js:89-140 | the handler's interleaved validate-and-compile loops give exactly `PostExchange` |
| `WorkflowHandlers.GetWorkflow` | lib/api.js:142-157 | one lookup; a backend error gives InternalError; a record with no keys gives ResourceNotFound "Workflow uuid not found"; the answer is 200 exactly for a non-empty record, which is the body unchanged; every answer is 200, 404 or 500 |
| `WorkflowHandlers.UpdateReply` | lib/api.js:182-194 | the error string "Workflow does not exist. Cannot Update." and no other gives ResourceNotFound; any other error gives InternalError with its message; success gives 200 with the backend's record |
| `WorkflowHandlers.UpdateExchange` | lib/api.js:159-195 | the backend is called (with the whole parameter object) exactly when both chains validate and no body is missing; a missing body gives ConflictError with no call; every answer is 200, 404, 409 or 500 |
| `WorkflowHandlers.UpdateWorkflow` | lib/api.js:159-195 | the handler's two validation loops with their shared error flag give exactly `UpdateExchange` |
| `WorkflowHandlers.DeleteWorkflow` | lib/api.js:197-224 | the lookup is always made first; `deleteWorkflow` is called (with the looked-up record) exactly when the lookup returns a non-empty record; a lookup error gives InternalError with its message and an empty record gives ResourceNotFound "Workflow uuid not found"; the answer is 204 with no body exactly when the delete call then reports a truthy `deleted`; a failing delete call gives InternalError with its message; a falsy `deleted` gives InternalError "Cannot delete the workflow"; every answer is 204, 404 or 500 |
| `WorkflowHandlers.DeleteStartsAsGet` | lib/api.js:197-207 | delete's first step is get's lookup: when get would not answer 200, delete answers exactly as get does; otherwise delete removes the very record get would return |
| `WorkflowHandlers.DeleteIgnoresUnmadeCall` | lib/api.js:198-207 | when the lookup fails or finds nothing, delete makes one call only, and what `deleteWorkflow` would have reported cannot change the answer |
| `WorkflowHandlers.CreateAndUpdateValidateAlike` | lib/api.js:101-129 | for task sources the compiler accepts, create and update refuse exactly the same parameters before any backend call, with the same answer |
| `WorkflowHandlers.MissingBodyAnywhere` | lib/api.js:101-129 | when neither scan throws, the body-required verdict holds exactly when some task of chain or onerror lacks a body, whichever task and however many |
| `ApiSetup.Configure` | lib/api.js:17-40 | the four checks in order, each with its TypeError message; null `opts` or null `opts.api` passes `typeof` and then fails on a property read; on success `opts.api` gets a truthy name (kept or "Workflow API"), acceptable `['application/json']`, the logger, and `/tmp/` + a fresh id as path only when neither port nor path is set; every other setting is unchanged |
| `ApiSetup.ConfigureIsIdempotent` | lib/api.js:34-40 | constructing again over the options the first construction left gives the same `opts.api`: no second default path is drawn |

## Left out

- `vm.runInNewContext` is the opaque parameter `compile`. It is total in the model, so a source that does not parse throws nothing here. Sandboxing is not modelled. The code does not catch a compile error. Since compilation runs before the error flag is checked, an empty-string body reaches the compiler as `()`, and the `ConflictError` is never answered for it; the model cannot show this.
- What restify answers when a handler throws (a null task, a non-array chain) is not modelled. The model stops at the `Threw` outcome.
- The restify server, `acceptParser`/`bodyParser`, route registration, the route path constants, HEAD routing and the job stub `respond` are HTTP wiring with no logic to model.
- `Factory(backend)` and the backend are not part of this model; their callbacks' results are inputs. Properties that need a store (get after create, delete finality, list completeness) are therefore not stated.
- Backend and factory errors are non-empty strings (`ErrorText`). A backend that passes a falsy error takes the success path, as in the code. Error objects are not modelled.
- `uuid()` for the default socket path is the parameter `freshId`.
- Process bootstrap (config file, JSON parse, log4js, loading the backend module, `listen`) is I/O.
- Concurrent requests against the same uuid are not modelled. The code has no logic for them.
- Numbers are integers. JSON floating-point numbers and NaN are not modelled. String conversion prints every integer in plain digits, while JavaScript prints integers of magnitude 10^21 or more in exponent form (`1e+21`).
- Aliasing is not modelled. In the code, the projected `chain` is the same array as `req.params.chain`, and its tasks are the request's own objects. The model copies them into a fresh array and writes the compiled array back into the record. A JSON-decoded request shares no objects, so only the request's own copy differs.
- Arrays given named properties are not modelled. If a task or `opts.api` is an array, the code sets properties on the array object. The model treats the array as having no properties.
- CreateAndUpdateValidateAlike: holds only because `compile` is total in the model. In the code, a task source the compiler rejects makes create throw while update does not. With `chain: [{body: ""}]`, create hands `()` to the compiler, which throws, while update answers 409. With a truthy body that does not parse, create throws while update calls the backend.

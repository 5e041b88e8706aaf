/** The workflow compiler of `postWorkflow` and the task validation shared with
    `updateWorkflow`: the allow-list projection of the request parameters, the
    scan of every task of `chain` and `onerror` for a body, and the in-place
    compilation of each task's `body` and `fallback`. */
module WorkflowCompiler {
  import opened JsValues

  /** The request parameters a created workflow may carry. */
  const Members: seq<string> := ["name", "uuid", "timeout", "chain", "onerror"]

  const BodyRequired: string := "Task body is required"

  /** The workflow record built from the request parameters: exactly the
      allow-listed members whose value is truthy, with that value. */
  function Projection(params: map<string, Value>): (workflow: map<string, Value>)
    ensures forall k :: k in workflow <==> k in Members && Truthy(Lookup(params, k))
    ensures forall k :: k in workflow ==> k in params && workflow[k] == params[k]
  {
    map k | k in params && k in Members && Truthy(params[k]) :: params[k]
  }

  /** The allow-list loop of `postWorkflow`, filling a fresh record. */
  method Project(params: map<string, Value>) returns (workflow: map<string, Value>)
    ensures forall k :: k in workflow <==> k in Members && Truthy(Lookup(params, k))
    ensures forall k :: k in workflow ==> k in params && workflow[k] == params[k]
    ensures workflow == Projection(params)
  {
    workflow := map[];
    var i := 0;
    while i < |Members|
      invariant 0 <= i <= |Members|
      invariant forall k :: k in workflow <==> k in Members[..i] && Truthy(Lookup(params, k))
      invariant forall k :: k in workflow ==> k in params && workflow[k] == params[k]
    {
      var p := Members[i];
      if Truthy(Lookup(params, p)) {
        workflow := workflow[p := params[p]];
      }
      i := i + 1;
    }
    assert Members[..i] == Members;
  }

  /** `!task.body`, for a task that is not null or undefined. */
  predicate LacksBody(task: Value)
  {
    !Truthy(Prop(task, "body"))
  }

  /** Some task is null or undefined, so reading its `body` throws. */
  function HasNullish(tasks: seq<Value>): (r: bool)
    ensures r <==> exists i :: 0 <= i < |tasks| && Nullish(tasks[i])
  {
    if tasks == [] then false
    else
      assert forall i :: 1 <= i < |tasks| ==> tasks[i] == tasks[1..][i - 1];
      Nullish(tasks[0]) || HasNullish(tasks[1..])
  }

  /** Some task lacks a truthy body. */
  function AnyLacksBody(tasks: seq<Value>): (r: bool)
    ensures r <==> exists i :: 0 <= i < |tasks| && LacksBody(tasks[i])
  {
    if tasks == [] then false
    else
      assert forall i :: 1 <= i < |tasks| ==> tasks[i] == tasks[1..][i - 1];
      LacksBody(tasks[0]) || AnyLacksBody(tasks[1..])
  }

  /** The text handed to the compiler for a body or fallback: `'(' + v + ')'`. */
  function WrappedSource(v: Value): (source: string)
  {
    "(" + JsString(v) + ")"
  }

  /** A task after its `body`, and its `fallback` when that is truthy, have
      been replaced by what `compile` makes of their source. Assigning a
      property of a value that is not a plain object changes nothing. */
  function CompileTask(task: Value, compile: string -> Value): (r: Value)
    ensures !task.Record? ==> r == task
    ensures task.Record? ==> r.Record? && r.fields.Keys == task.fields.Keys + {"body"}
    ensures task.Record? ==> r.fields["body"] == compile(WrappedSource(Prop(task, "body")))
    ensures task.Record? && Truthy(Prop(task, "fallback")) ==>
              r.fields["fallback"] == compile(WrappedSource(Prop(task, "fallback")))
    ensures task.Record? ==>
              forall k :: k in task.fields && k != "body" && !(k == "fallback" && Truthy(task.fields[k])) ==>
                r.fields[k] == task.fields[k]
  {
    match task
    case Record(f) =>
      var withBody := f["body" := compile(WrappedSource(Lookup(f, "body")))];
      if Truthy(Lookup(f, "fallback")) then
        Record(withBody["fallback" := compile(WrappedSource(f["fallback"]))])
      else
        Record(withBody)
    case _ => task
  }

  /** A chain with every task compiled, in order. */
  function CompileList(tasks: seq<Value>, compile: string -> Value): (r: seq<Value>)
    ensures |r| == |tasks|
    ensures forall i :: 0 <= i < |tasks| ==> r[i] == CompileTask(tasks[i], compile)
  {
    if tasks == [] then []
    else [CompileTask(tasks[0], compile)] + CompileList(tasks[1..], compile)
  }

  /** The verdict of scanning one member (`chain` or `onerror`): the scan threw,
      or it ran over every task and found a task without a body or not. */
  datatype Validation = Aborts(thrown: Exception) | Validated(missing: bool)

  /** `if (obj[key]) obj[key].forEach(task => { if (!task.body) ... })`. */
  function Validate(obj: map<string, Value>, key: string): (r: Validation)
    ensures !Truthy(Lookup(obj, key)) ==> r == Validated(false)
    ensures Truthy(Lookup(obj, key)) && !Lookup(obj, key).List? ==> r == Aborts(NotCallable("forEach"))
    ensures Lookup(obj, key).List? ==>
              (r.Aborts? <==> exists i :: 0 <= i < |Lookup(obj, key).items| && Nullish(Lookup(obj, key).items[i]))
    ensures Lookup(obj, key).List? && r.Aborts? ==> r == Aborts(NullPropertyRead("body"))
    ensures r == Validated(true) <==>
              Lookup(obj, key).List? &&
              (forall i :: 0 <= i < |Lookup(obj, key).items| ==> !Nullish(Lookup(obj, key).items[i])) &&
              exists i :: 0 <= i < |Lookup(obj, key).items| && LacksBody(Lookup(obj, key).items[i])
  {
    var v := Lookup(obj, key);
    if !Truthy(v) then Validated(false)
    else if !v.List? then Aborts(NotCallable("forEach"))
    else if HasNullish(v.items) then Aborts(NullPropertyRead("body"))
    else Validated(AnyLacksBody(v.items))
  }

  /** Both members scanned, `chain` first: the first exception wins, otherwise
      the shared error flag is set if any task of either lacks a body. */
  function ValidateChains(obj: map<string, Value>): (r: Validation)
    ensures r.Validated? <==> Validate(obj, "chain").Validated? && Validate(obj, "onerror").Validated?
    ensures Validate(obj, "chain").Aborts? ==> r == Validate(obj, "chain")
    ensures Validate(obj, "chain").Validated? && Validate(obj, "onerror").Aborts? ==> r == Validate(obj, "onerror")
    ensures r == Validated(true) <==>
              r.Validated? && (Validate(obj, "chain") == Validated(true) || Validate(obj, "onerror") == Validated(true))
  {
    match Validate(obj, "chain")
    case Aborts(e) => Aborts(e)
    case Validated(inChain) =>
      match Validate(obj, "onerror")
      case Aborts(e) => Aborts(e)
      case Validated(inOnerror) => Validated(inChain || inOnerror)
  }

  /** The record after the member `key`, if it is an array, has had each of its
      tasks compiled and written back to the same index. */
  function WithCompiledMember(obj: map<string, Value>, key: string, compile: string -> Value): (r: map<string, Value>)
    ensures r.Keys == obj.Keys
    ensures forall k :: k in obj && k != key ==> r[k] == obj[k]
    ensures !Lookup(obj, key).List? ==> r == obj
    ensures Lookup(obj, key).List? ==>
              r[key].List? && |r[key].items| == |obj[key].items| &&
              forall i :: 0 <= i < |obj[key].items| ==> r[key].items[i] == CompileTask(obj[key].items[i], compile)
  {
    var v := Lookup(obj, key);
    if v.List? then obj[key := List(CompileList(v.items, compile))] else obj
  }

  /** The validation loop of `updateWorkflow` over one member's tasks: every
      task is visited; reading the body of a null task throws. */
  method ScanBodies(tasks: seq<Value>) returns (missing: bool, aborted: bool)
    ensures aborted == HasNullish(tasks)
    ensures !aborted ==> missing == AnyLacksBody(tasks)
  {
    missing, aborted := false, false;
    var i := 0;
    while i < |tasks|
      invariant 0 <= i <= |tasks|
      invariant forall j :: 0 <= j < i ==> !Nullish(tasks[j])
      invariant missing <==> exists j :: 0 <= j < i && LacksBody(tasks[j])
    {
      if Nullish(tasks[i]) {
        aborted := true;
        return;
      }
      if LacksBody(tasks[i]) {
        missing := true;
      }
      i := i + 1;
    }
  }

  /** `updateWorkflow`'s check of one member. */
  method CheckMember(obj: map<string, Value>, key: string) returns (v: Validation)
    ensures v == Validate(obj, key)
  {
    var chain := Lookup(obj, key);
    if !Truthy(chain) {
      return Validated(false);
    }
    if !chain.List? {
      return Aborts(NotCallable("forEach"));
    }
    var missing, aborted := ScanBodies(chain.items);
    if aborted {
      return Aborts(NullPropertyRead("body"));
    }
    return Validated(missing);
  }

  /** The `forEach` of `postWorkflow` over one member's task array: each task is
      checked for a body and then compiled, in the same pass, and written back
      to its index. Reading the body of a null task throws and leaves the
      tasks after it as they were. */
  method CompileTasksInPlace(tasks: array<Value>, compile: string -> Value) returns (missing: bool, aborted: bool)
    modifies tasks
    ensures aborted == HasNullish(old(tasks[..]))
    ensures !aborted ==> missing == AnyLacksBody(old(tasks[..]))
    ensures !aborted ==> tasks[..] == CompileList(old(tasks[..]), compile)
    ensures aborted ==>
              exists k :: 0 <= k < tasks.Length && Nullish(old(tasks[k])) &&
                (forall j :: 0 <= j < k ==> !Nullish(old(tasks[j]))) &&
                (forall j :: 0 <= j < k ==> tasks[j] == CompileTask(old(tasks[j]), compile)) &&
                (forall j :: k <= j < tasks.Length ==> tasks[j] == old(tasks[j]))
  {
    missing, aborted := false, false;
    var i := 0;
    while i < tasks.Length
      invariant 0 <= i <= tasks.Length
      invariant forall j :: 0 <= j < i ==> !Nullish(old(tasks[j]))
      invariant forall j :: 0 <= j < i ==> tasks[j] == CompileTask(old(tasks[j]), compile)
      invariant forall j :: i <= j < tasks.Length ==> tasks[j] == old(tasks[j])
      invariant missing <==> exists j :: 0 <= j < i && LacksBody(old(tasks[j]))
    {
      var task := tasks[i];
      if Nullish(task) {
        aborted := true;
        return;
      }
      if LacksBody(task) {
        missing := true;
      }
      if task.Record? {
        var f := task.fields;
        f := f["body" := compile(WrappedSource(Lookup(f, "body")))];
        if Truthy(Lookup(f, "fallback")) {
          f := f["fallback" := compile(WrappedSource(f["fallback"]))];
        }
        task := Record(f);
      }
      tasks[i] := task;
      i := i + 1;
    }
    assert tasks[..] == CompileList(old(tasks[..]), compile);
  }

  /** `postWorkflow`'s pass over one member of the projected record: the tasks
      are copied into an array, checked and compiled in place, and the array
      is stored back under `key`. */
  method CompileMember(obj: map<string, Value>, key: string, compile: string -> Value)
    returns (compiled: map<string, Value>, v: Validation)
    ensures v == Validate(obj, key)
    ensures v.Validated? ==> compiled == WithCompiledMember(obj, key, compile)
  {
    compiled := obj;
    var chain := Lookup(obj, key);
    if !Truthy(chain) {
      return obj, Validated(false);
    }
    if !chain.List? {
      return obj, Aborts(NotCallable("forEach"));
    }
    var items := chain.items;
    var tasks := new Value[|items|](i => if 0 <= i < |items| then items[i] else Undefined);
    assert tasks[..] == items;
    var missing, aborted := CompileTasksInPlace(tasks, compile);
    if aborted {
      return obj, Aborts(NullPropertyRead("body"));
    }
    return obj[key := List(tasks[..])], Validated(missing);
  }
}

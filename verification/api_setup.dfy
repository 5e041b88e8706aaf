/** The `API` constructor up to the creation of the restify server: the checks
    on its two arguments and the defaults it writes into `opts.api`, which the
    server is then created from. */
module ApiSetup {
  import opened JsValues

  const DefaultName: string := "Workflow API"

  /** `opts.api.acceptable`: the API only speaks JSON. */
  const JsonOnly: Value := List([Str("application/json")])

  /** `opts.api` as the constructor leaves it, or the exception it throws. */
  datatype Setup = Configured(api: map<string, Value>) | Refused(thrown: Exception)

  /** The server options do not name where to listen. */
  predicate NoAddress(api: map<string, Value>)
  {
    !Truthy(Lookup(api, "port")) && !Truthy(Lookup(api, "path"))
  }

  /** A setting of `opts.api` that the constructor leaves alone. */
  predicate KeptSetting(before: map<string, Value>, k: string)
  {
    k in before && k != "name" && k != "acceptable" && k != "log4js" && !(k == "path" && NoAddress(before))
  }

  /** `new API(opts, backend)`, its checks in order and then its defaults.
      `freshId` stands for the value of `uuid()`. */
  function Configure(opts: Value, backend: Value, freshId: string): (r: Setup)
    ensures TypeOf(opts) != "object" ==> r == Refused(ArgumentError("opts (Object) required"))
    ensures TypeOf(opts) == "object" && TypeOf(backend) != "object" ==>
              r == Refused(ArgumentError("backend (Object) required"))
    ensures opts.Null? && TypeOf(backend) == "object" ==> r == Refused(NullPropertyRead("log4js"))
    ensures !opts.Null? && TypeOf(opts) == "object" && TypeOf(backend) == "object" &&
            TypeOf(Prop(opts, "log4js")) != "object" ==>
              r == Refused(ArgumentError("opts.log4js (Object) required"))
    ensures !opts.Null? && TypeOf(opts) == "object" && TypeOf(backend) == "object" &&
            TypeOf(Prop(opts, "log4js")) == "object" && TypeOf(Prop(opts, "api")) != "object" ==>
              r == Refused(ArgumentError("opts.api (Object) required"))
    ensures !opts.Null? && TypeOf(opts) == "object" && TypeOf(backend) == "object" &&
            TypeOf(Prop(opts, "log4js")) == "object" && Prop(opts, "api").Null? ==>
              r == Refused(NullPropertyRead("name"))
    ensures r.Configured? <==>
              opts.Record? && TypeOf(backend) == "object" && TypeOf(Prop(opts, "log4js")) == "object" &&
              (Prop(opts, "api").Record? || Prop(opts, "api").List?)
    ensures r.Configured? ==>
              var before := Fields(Prop(opts, "api"));
              r.api.Keys == before.Keys + {"name", "acceptable", "log4js"} + (if NoAddress(before) then {"path"} else {}) &&
              Truthy(r.api["name"]) &&
              (Truthy(Lookup(before, "name")) ==> r.api["name"] == before["name"]) &&
              (!Truthy(Lookup(before, "name")) ==> r.api["name"] == Str(DefaultName)) &&
              r.api["acceptable"] == JsonOnly &&
              r.api["log4js"] == Prop(opts, "log4js") &&
              !NoAddress(r.api) &&
              (NoAddress(before) ==> r.api["path"] == Str("/tmp/" + freshId)) &&
              (forall k :: KeptSetting(before, k) ==> r.api[k] == before[k])
  {
    if TypeOf(opts) != "object" then Refused(ArgumentError("opts (Object) required"))
    else if TypeOf(backend) != "object" then Refused(ArgumentError("backend (Object) required"))
    else if opts.Null? then Refused(NullPropertyRead("log4js"))
    else if TypeOf(Prop(opts, "log4js")) != "object" then Refused(ArgumentError("opts.log4js (Object) required"))
    else if TypeOf(Prop(opts, "api")) != "object" then Refused(ArgumentError("opts.api (Object) required"))
    else if Prop(opts, "api").Null? then Refused(NullPropertyRead("name"))
    else
      var api := Fields(Prop(opts, "api"));
      var named := api["name" := if Truthy(Lookup(api, "name")) then api["name"] else Str(DefaultName)];
      var settled := named["acceptable" := JsonOnly]["log4js" := Prop(opts, "log4js")];
      if NoAddress(settled) then Configured(settled["path" := Str("/tmp/" + freshId)])
      else Configured(settled)
  }

  /** Constructing again over the options a first construction left behind
      changes nothing more: the defaults are already in place, and no second
      socket path is drawn. */
  lemma ConfigureIsIdempotent(opts: Value, backend: Value, firstId: string, secondId: string)
    requires Configure(opts, backend, firstId).Configured?
    ensures var api := Configure(opts, backend, firstId).api;
            Configure(Record(opts.fields["api" := Record(api)]), backend, secondId) == Configured(api)
  {
  }
}

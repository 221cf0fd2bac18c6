/** The workflow endpoints: running an operation of a loaded plugin, uploading a new
    workflow artifact, and removing a plugin. Each checks its request before it touches the
    runtime or the workflow service, and shapes what these answer into the HTTP reply. */
module WorkflowHandler {
  import opened Errors
  import opened Text
  import opened Json
  import opened WitRuntime
  import opened HttpApi
  import opened WorkflowService

  /** Largest accepted serialized payload for a run: 1 MiB. */
  const MaxParamsBytes: nat := 1 * 1024 * 1024

  /** Largest accepted upload: 50 MiB. */
  const MaxUploadBytes: nat := 50 * 1024 * 1024

  // ---------------------------------------------------------------------------
  // Running an operation

  /** The checks of `run_workflow_impl`, in order, before the runtime is called. */
  function RunChecks(pluginName: string, functionName: string, params: Json): (r: Option<Error>)
    ensures r.None? <==> pluginName != "" && functionName != "" && ByteLen(Serialize(params)) <= MaxParamsBytes
  {
    if pluginName == "" then Some(Fail("Plugin name cannot be empty"))
    else if functionName == "" then Some(Fail("Function name cannot be empty"))
    else
      var size := ByteLen(Serialize(params));
      if size > MaxParamsBytes then Some(Fail("Parameters too large (max 1MB): " + NatToString(size) + " bytes"))
      else None
  }

  function RunContext(pluginName: string, functionName: string): string {
    "Failed to execute function '" + functionName + "' in plugin '" + pluginName + "'"
  }

  /** The specification of `run_workflow_impl`: the checks, then the runtime's execute, with
      a runtime error put under the context naming the function and the plugin. */
  function Run(m: Plugins, e: Engine, pluginName: string, functionName: string, params: Json, now: int): Update<Json> {
    match RunChecks(pluginName, functionName, params)
    case Some(error) => Update(Err(error), m)
    case None =>
      var u := Execute(m, e, pluginName, functionName, params, now);
      match u.result
      case Err(error) => Update(Err(Context(error, RunContext(pluginName, functionName))), u.plugins)
      case Ok(value) => Update(Ok(value), u.plugins)
  }

  /** A request failing the checks is answered before the runtime is reached: the registry,
      execution counters included, is untouched. A payload of exactly 1 MiB passes the size check. */
  lemma RunChecksComeFirst(m: Plugins, e: Engine, pluginName: string, functionName: string, params: Json, now: int)
    ensures pluginName == "" ==> Run(m, e, pluginName, functionName, params, now) == Update(Err(Fail("Plugin name cannot be empty")), m)
    ensures pluginName != "" && functionName == "" ==>
      Run(m, e, pluginName, functionName, params, now) == Update(Err(Fail("Function name cannot be empty")), m)
    ensures ByteLen(Serialize(params)) > MaxParamsBytes ==>
      Run(m, e, pluginName, functionName, params, now).plugins == m && Run(m, e, pluginName, functionName, params, now).result.Err?
    ensures pluginName != "" && functionName != "" && ByteLen(Serialize(params)) == MaxParamsBytes ==>
      Run(m, e, pluginName, functionName, params, now).plugins == Execute(m, e, pluginName, functionName, params, now).plugins
  {
  }

  /** The size limit counts bytes, not characters: with both names given, a payload of at
      most 256 Ki characters always passes, one of more than 1 Mi characters never does, and
      an ASCII payload passes exactly when it has at most 1 Mi characters. */
  lemma {:induction false} RunChecksByCharacters(pluginName: string, functionName: string, params: Json)
    requires pluginName != "" && functionName != ""
    ensures 4 * |Serialize(params)| <= MaxParamsBytes ==> RunChecks(pluginName, functionName, params) == None
    ensures |Serialize(params)| > MaxParamsBytes ==> RunChecks(pluginName, functionName, params).Some?
    ensures IsAscii(Serialize(params)) ==>
      (RunChecks(pluginName, functionName, params) == None <==> |Serialize(params)| <= MaxParamsBytes)
  {
    ByteLenBounds(Serialize(params));
  }

  /** `run_workflow_impl`. */
  method RunWorkflowImpl(runtime: WitPluginRuntime, pluginName: string, functionName: string, params: Json, now: int)
    returns (r: Result<Json>)
    modifies runtime
    ensures Update(r, runtime.plugins) == Run(old(runtime.plugins), runtime.engine, pluginName, functionName, params, now)
  {
    if pluginName == "" {
      return Err(Fail("Plugin name cannot be empty"));
    }
    if functionName == "" {
      return Err(Fail("Function name cannot be empty"));
    }
    var paramsStr := Serialize(params);
    if ByteLen(paramsStr) > MaxParamsBytes {
      return Err(Fail("Parameters too large (max 1MB): " + NatToString(ByteLen(paramsStr)) + " bytes"));
    }
    var result := runtime.ExecuteWitFunction(pluginName, functionName, params, now);
    if result.Err? {
      return Err(Context(result.error, RunContext(pluginName, functionName)));
    }
    r := result;
  }

  /** The reply body of a run. */
  datatype WorkflowResponse = WorkflowResponse(success: bool, result: Option<Json>, error: Option<string>)

  /** `run_workflow`'s shaping: every answer of the runtime is a success reply carrying it;
      an error becomes a 500 through `From<anyhow::Error>`. */
  function RunReply(result: Result<Json>): (r: Answer<WorkflowResponse>)
    ensures result.Ok? <==> r.Answered?
    ensures result.Ok? ==> r.value == WorkflowResponse(true, Some(result.value), None)
    ensures result.Err? ==> r.error == FromError(result.error) && r.error.status == 500
  {
    match result
    case Ok(value) => Answered(WorkflowResponse(true, Some(value), None))
    case Err(error) => Refused(FromError(error))
  }

  /** `run_workflow`. */
  method RunWorkflow(runtime: WitPluginRuntime, pluginName: string, functionName: string, params: Json, now: int)
    returns (r: Answer<WorkflowResponse>)
    modifies runtime
    ensures r == RunReply(Run(old(runtime.plugins), runtime.engine, pluginName, functionName, params, now).result)
    ensures runtime.plugins == Run(old(runtime.plugins), runtime.engine, pluginName, functionName, params, now).plugins
  {
    var result := RunWorkflowImpl(runtime, pluginName, functionName, params, now);
    match result {
      case Err(error) => r := Refused(FromError(error));
      case Ok(value) => r := Answered(WorkflowResponse(true, Some(value), None));
    }
  }

  /** Even an operation the component does not know is a success reply: the envelope inside
      says `success: false`, the reply around it says `success: true`. */
  lemma UnknownOperationIsASuccessReply(m: Plugins, e: Engine, pluginName: string, functionName: string, params: Json, now: int)
    requires pluginName in m && pluginName != "" && functionName != "" && !IsOperation(functionName)
    requires ByteLen(Serialize(params)) <= MaxParamsBytes
    requires e.instantiate(m[pluginName].component).Ok?
    ensures var reply := RunReply(Run(m, e, pluginName, functionName, params, now).result);
      && reply == Answered(WorkflowResponse(true, Some(UnknownFunction(functionName)), None))
      && Get(reply.value.result.value, "success") == Some(Bool(false))
  {
    assert RunChecks(pluginName, functionName, params) == None;
    assert Execute(m, e, pluginName, functionName, params, now).result == Ok(UnknownFunction(functionName));
    FailureEnvelopes(functionName);
  }

  /** A run of a plugin that is not loaded is a 500 whose message names the function and the
      plugin, and whose details give the runtime's reason. */
  lemma MissingPluginReply(m: Plugins, e: Engine, pluginName: string, functionName: string, params: Json, now: int)
    requires pluginName != "" && pluginName !in m && functionName != ""
    requires ByteLen(Serialize(params)) <= MaxParamsBytes
    ensures RunReply(Run(m, e, pluginName, functionName, params, now).result)
         == Refused(ApiError(500, RunContext(pluginName, functionName), Some("WIT Plugin '" + pluginName + "' not found")))
  {
  }

  // ---------------------------------------------------------------------------
  // Uploading a workflow

  /** A multipart field: its name, its file name and its content. */
  datatype Field = Field(name: Option<string>, fileName: Option<string>, data: Bytes)

  function FieldName(f: Field): string {
    match f.name case Some(n) => n case None => "unknown"
  }

  /** The checks on the `workflow` field, in order: a file name, the `.wasm` suffix (case
      sensitive), content, and at most 50 MiB of it. */
  function CheckUpload(f: Field): (r: Option<ApiError>)
    ensures r.None? <==> f.fileName.Some? && EndsWith(f.fileName.value, ".wasm") && 1 <= |f.data| <= MaxUploadBytes
    ensures r.Some? ==> r.value.status == 400 && r.value.details == None
  {
    match f.fileName
    case None => Some(BadRequest("Workflow file must have a filename"))
    case Some(filename) =>
      if !EndsWith(filename, ".wasm") then Some(BadRequest("Invalid file extension. Expected .wasm, got: " + filename))
      else if f.data == [] then Some(BadRequest("Workflow wasm file is empty: " + filename + ", len: " + NatToString(|f.data|)))
      else if |f.data| > MaxUploadBytes then
        Some(BadRequest("Workflow file too large: " + NatToString(|f.data|) + " bytes (max 50MB)"))
      else None
  }

  /** The reply to an accepted upload; the display name drops every trailing `.wasm`. */
  function UploadedBody(filename: string, key: string, size: nat): Json {
    Obj([("success", Bool(true)),
         ("message", Str("Wasm file '" + TrimEndMatches(filename, ".wasm") + "' with workflow " + key + " uploaded successfully")),
         ("workflow_name", Str(key)),
         ("file_size", Num(Int(size)))])
  }

  /** What an upload answers, the calls the service made, and the registry it leaves. */
  datatype UploadOutcome = UploadOutcome(answer: Answer<Json>, steps: seq<Step>, plugins: Plugins)

  /** The specification of `create_workflow`: the first field named `workflow` decides; the
      fields before it are skipped. */
  function Upload(b: Backends, m: Plugins, e: Engine, userId: Uuid, namespaceId: Uuid,
                  wp: NewWorkflowParams, fields: seq<Field>): UploadOutcome
  {
    if fields == [] then UploadOutcome(Refused(BadRequest("No plugin file found in request")), [], m)
    else if FieldName(fields[0]) != "workflow" then Upload(b, m, e, userId, namespaceId, wp, fields[1..])
    else
      var f := fields[0];
      match CheckUpload(f)
      case Some(error) => UploadOutcome(Refused(error), [], m)
      case None =>
        var c := Create(b, m, e, userId, namespaceId, wp, f.data);
        match c.result
        case Err(error) => UploadOutcome(Refused(FromError(error)), c.steps, c.plugins)
        case Ok(w) => UploadOutcome(Answered(UploadedBody(f.fileName.value, w.key, |f.data|)), c.steps, c.plugins)
  }

  /** Fields not named `workflow` are skipped, wherever they are. */
  lemma {:induction false} UploadSkipsOtherFields(b: Backends, m: Plugins, e: Engine, userId: Uuid, namespaceId: Uuid,
                                                   wp: NewWorkflowParams, skipped: seq<Field>, fields: seq<Field>)
    requires forall i :: 0 <= i < |skipped| ==> FieldName(skipped[i]) != "workflow"
    ensures Upload(b, m, e, userId, namespaceId, wp, skipped + fields) == Upload(b, m, e, userId, namespaceId, wp, fields)
  {
    if skipped != [] {
      var all := skipped + fields;
      assert all[0] == skipped[0] && FieldName(all[0]) != "workflow";
      assert all[1..] == skipped[1..] + fields;
      assert Upload(b, m, e, userId, namespaceId, wp, all) == Upload(b, m, e, userId, namespaceId, wp, all[1..]);
      UploadSkipsOtherFields(b, m, e, userId, namespaceId, wp, skipped[1..], fields);
    } else {
      assert skipped + fields == fields;
    }
  }

  /** A request without a `workflow` field is a 400 and reaches nothing. */
  lemma {:induction false} NoWorkflowField(b: Backends, m: Plugins, e: Engine, userId: Uuid, namespaceId: Uuid,
                                            wp: NewWorkflowParams, fields: seq<Field>)
    requires forall i :: 0 <= i < |fields| ==> FieldName(fields[i]) != "workflow"
    ensures Upload(b, m, e, userId, namespaceId, wp, fields)
         == UploadOutcome(Refused(BadRequest("No plugin file found in request")), [], m)
  {
    UploadSkipsOtherFields(b, m, e, userId, namespaceId, wp, fields, []);
    assert fields + [] == fields;
  }

  /** The first `workflow` field decides alone: a refused one reaches nothing, an accepted
      one reaches the service with its content, and the fields after it are never read. */
  lemma FirstWorkflowFieldDecides(b: Backends, m: Plugins, e: Engine, userId: Uuid, namespaceId: Uuid,
                                  wp: NewWorkflowParams, f: Field, rest: seq<Field>)
    requires FieldName(f) == "workflow"
    ensures Upload(b, m, e, userId, namespaceId, wp, [f] + rest) == Upload(b, m, e, userId, namespaceId, wp, [f])
    ensures CheckUpload(f).Some? ==>
      Upload(b, m, e, userId, namespaceId, wp, [f]) == UploadOutcome(Refused(CheckUpload(f).value), [], m)
    ensures CheckUpload(f).None? ==>
      && Upload(b, m, e, userId, namespaceId, wp, [f]).steps == Create(b, m, e, userId, namespaceId, wp, f.data).steps
      && Upload(b, m, e, userId, namespaceId, wp, [f]).plugins == Create(b, m, e, userId, namespaceId, wp, f.data).plugins
      && (Upload(b, m, e, userId, namespaceId, wp, [f]).answer.Answered? <==> Create(b, m, e, userId, namespaceId, wp, f.data).result.Ok?)
  {
    assert ([f] + rest)[0] == f;
  }

  /** The display name drops every trailing `.wasm`, not just one. */
  lemma DisplayNameExample()
    ensures TrimEndMatches("flow.wasm.wasm", ".wasm") == "flow"
  {
    var s2, s1 := "flow.wasm.wasm", "flow.wasm";
    assert EndsWith(s2, ".wasm") && s2[..|s2| - 5] == s1;
    assert EndsWith(s1, ".wasm") && s1[..|s1| - 5] == "flow";
    assert !EndsWith("flow", ".wasm");
  }

  /** `create_workflow`: reads the fields in order and answers at the first `workflow` one. */
  method CreateWorkflow(service: WorkflowCreator, userId: Uuid, namespaceId: Uuid, wp: NewWorkflowParams, fields: seq<Field>)
    returns (r: Answer<Json>)
    modifies service, service.runtime
    ensures var u := Upload(service.backends, old(service.runtime.plugins), service.runtime.engine, userId, namespaceId, wp, fields);
      r == u.answer && service.log == old(service.log) + u.steps && service.runtime.plugins == u.plugins
  {
    var i := 0;
    while i < |fields|
      invariant 0 <= i <= |fields|
      invariant Upload(service.backends, service.runtime.plugins, service.runtime.engine, userId, namespaceId, wp, fields[i..])
             == Upload(service.backends, service.runtime.plugins, service.runtime.engine, userId, namespaceId, wp, fields)
      invariant service.runtime.plugins == old(service.runtime.plugins) && service.log == old(service.log)
      invariant forall j :: 0 <= j < i ==> FieldName(fields[j]) != "workflow"
    {
      var field := fields[i];
      assert fields[i..][0] == field && fields[i..][1..] == fields[i + 1..];
      var name := match field.name case Some(n) => n case None => "unknown";
      if name == "workflow" {
        if field.fileName.None? {
          return Refused(BadRequest("Workflow file must have a filename"));
        }
        var filename := field.fileName.value;
        if !EndsWith(filename, ".wasm") {
          return Refused(BadRequest("Invalid file extension. Expected .wasm, got: " + filename));
        }
        var data := field.data;
        if data == [] {
          return Refused(BadRequest("Workflow wasm file is empty: " + filename + ", len: " + NatToString(|data|)));
        }
        if |data| > MaxUploadBytes {
          return Refused(BadRequest("Workflow file too large: " + NatToString(|data|) + " bytes (max 50MB)"));
        }
        var workflowFileName := TrimEndMatches(filename, ".wasm");
        var w := service.CreateWorkflow(userId, namespaceId, wp, data);
        if w.Err? {
          return Refused(FromError(w.error));
        }
        return Answered(Obj([("success", Bool(true)),
                             ("message", Str("Wasm file '" + workflowFileName + "' with workflow " + w.value.key + " uploaded successfully")),
                             ("workflow_name", Str(w.value.key)),
                             ("file_size", Num(Int(|data|)))]));
      }
      i := i + 1;
    }
    r := Refused(BadRequest("No plugin file found in request"));
  }

  // ---------------------------------------------------------------------------
  // Removing a plugin

  /** The reply of `remove_plugin_endpoint` to what the runtime's remove answered. */
  function RemoveReply(name: string, result: Result<()>): Json {
    match result
    case Ok(_) => Obj([("success", Bool(true)), ("message", Str("Plugin '" + name + "' removed successfully"))])
    case Err(error) => Obj([("success", Bool(false)), ("error", Str("Failed to remove plugin: " + error.message))])
  }

  /** A removal is always an HTTP success; the body says whether the plugin was there. */
  lemma RemoveReplySaysWhetherPresent(m: Plugins, name: string)
    ensures Get(RemoveReply(name, Remove(m, name).result), "success") == Some(Bool(name in m))
    ensures name !in m ==>
      Get(RemoveReply(name, Remove(m, name).result), "error") == Some(Str("Failed to remove plugin: " + ("Plugin '" + name + "' not found")))
  {
    var reply := RemoveReply(name, Remove(m, name).result);
    LookupAt(reply.members, 0, "success");
    if name !in m {
      LookupAt(reply.members, 1, "error");
    }
  }

  /** `remove_plugin_endpoint`. */
  method RemovePluginEndpoint(runtime: WitPluginRuntime, name: string) returns (r: Answer<Json>)
    modifies runtime
    ensures r == Answered(RemoveReply(name, Remove(old(runtime.plugins), name).result))
    ensures runtime.plugins == Remove(old(runtime.plugins), name).plugins
  {
    var removed := runtime.RemovePlugin(name);
    match removed {
      case Ok(_) =>
        r := Answered(Obj([("success", Bool(true)), ("message", Str("Plugin '" + name + "' removed successfully"))]));
      case Err(e) =>
        r := Answered(Obj([("success", Bool(false)), ("error", Str("Failed to remove plugin: " + e.message))]));
    }
  }
}

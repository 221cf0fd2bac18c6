/** The plugin runtime: a registry from plugin key to loaded component, and the dispatcher
    that runs one of four workflow operations of a component on a JSON payload and answers
    with a JSON envelope. The engine (compilation, instantiation, the typed calls into a
    component) is foreign code and enters the model as the oracle functions of `Engine`. */
module WitRuntime {
  import opened Errors
  import opened Text
  import opened Json

  /** Limits every per-call store is built with: 256 MiB of memory (1 << 28) and at most 10
      instances. The engine enforces them, so the model keeps them only as constants. */
  const MemoryLimitBytes: nat := 0x1000_0000
  const InstanceLimit: nat := 10

  /** A compiled component. Only the engine's `compile` oracle makes one. */
  datatype Component = Component(handle: nat)

  /** The interface's key/value pair; the runtime only ever builds the string variant. */
  datatype KvValue = StrValue(s: string)
  datatype KvPair = KvPair(key: string, value: KvValue)

  /** The history handed to `continue-workflow`. */
  datatype History = History(tasksResult: seq<Json>)

  /** What a typed call into a component gave back: the call itself failed (a trap, `Err`),
      the operation reported a domain error (`Ok(Err)`), or it returned a value (`Ok(Ok)`). */
  datatype Call<+T, +E> = Trap(message: string) | Failed(error: E) | Returned(value: T)

  /** The engine and the component interface, as oracles. The typed calls see only the
      component and the arguments: each call runs in a fresh store, so nothing from an earlier
      call can influence it. A start-workflow run and the start, continue and cancel domain
      errors are given by their `Debug` rendering, which is how the envelopes show them. */
  datatype Engine = Engine(
    compile: Bytes -> Result<Component>,
    instantiate: Component -> Result<()>,
    startWorkflow: (Component, string, seq<KvPair>) -> Call<string, string>,
    continueWorkflow: (Component, nat, History) -> Call<Json, string>,
    executeActivity: (Component, string, seq<KvPair>) -> Call<Json, Json>,
    cancelWorkflow: (Component, nat) -> Call<Json, string>)

  // ---------------------------------------------------------------------------
  // JSON to key/value pairs

  /** `as_str().unwrap_or("")`. */
  function StrOr(v: Json): string { if v.Str? then v.s else "" }

  /** The pair one array element contributes: one when it is an object with both a `key`
      and a `value` member, none otherwise. */
  function ItemPair(item: Json): (p: seq<KvPair>)
    ensures |p| <= 1
  {
    var key := Get(item, "key");
    var value := Get(item, "value");
    if key.Some? && value.Some? then [KvPair(StrOr(key.value), StrValue(StrOr(value.value)))]
    else []
  }

  function ItemPairs(items: seq<Json>): seq<KvPair> {
    if items == [] then [] else ItemPairs(items[..|items| - 1]) + ItemPair(items[|items| - 1])
  }

  /** The string an object member's value becomes: a string verbatim, a number or a boolean
      as its text, anything else as its JSON text. */
  function Stringify(v: Json): string {
    match v
    case Str(s) => s
    case Num(n) => NumberText(n)
    case Bool(b) => BoolText(b)
    case _ => Serialize(v)
  }

  function MemberPair(m: (string, Json)): KvPair { KvPair(m.0, StrValue(Stringify(m.1))) }

  function MemberPairs(ms: seq<(string, Json)>): seq<KvPair> {
    if ms == [] then [] else MemberPairs(ms[..|ms| - 1]) + [MemberPair(ms[|ms| - 1])]
  }

  /** The specification of `json_to_kvpairs`. */
  function KvPairsOf(params: Json): seq<KvPair> {
    match params
    case Arr(items) => ItemPairs(items)
    case Obj(ms) => MemberPairs(ms)
    case _ => []
  }

  /** `json_to_kvpairs`: the source's loops over the array elements or the object members. */
  method JsonToKvPairs(params: Json) returns (kvpairs: seq<KvPair>)
    ensures kvpairs == KvPairsOf(params)
  {
    kvpairs := [];
    match params {
      case Arr(arr) =>
        var i := 0;
        while i < |arr|
          invariant 0 <= i <= |arr|
          invariant kvpairs == ItemPairs(arr[..i])
        {
          var item := arr[i];
          if item.Obj? {
            var key, value := Get(item, "key"), Get(item, "value");
            if key.Some? && value.Some? {
              kvpairs := kvpairs + [KvPair(StrOr(key.value), StrValue(StrOr(value.value)))];
            }
          }
          assert arr[..i + 1][..i] == arr[..i];
          i := i + 1;
        }
        assert arr[..|arr|] == arr;
      case Obj(obj) =>
        var i := 0;
        while i < |obj|
          invariant 0 <= i <= |obj|
          invariant kvpairs == MemberPairs(obj[..i])
        {
          var (key, value) := obj[i];
          var valueStr := match value
            case Str(s) => s
            case Num(n) => NumberText(n)
            case Bool(b) => BoolText(b)
            case _ => Serialize(value);
          kvpairs := kvpairs + [KvPair(key, StrValue(valueStr))];
          assert obj[..i + 1][..i] == obj[..i];
          i := i + 1;
        }
        assert obj[..|obj|] == obj;
      case _ =>
    }
  }

  /** An object gives one pair per member, in member order: the member's key, and its
      value as `Stringify` renders it. */
  lemma {:induction false} MemberPairsAt(ms: seq<(string, Json)>)
    ensures |MemberPairs(ms)| == |ms|
    ensures forall i :: 0 <= i < |ms| ==> MemberPairs(ms)[i] == KvPair(ms[i].0, StrValue(Stringify(ms[i].1)))
  {
    if ms != [] {
      MemberPairsAt(ms[..|ms| - 1]);
    }
  }

  /** Every pair from an array comes from an element that is an object with `key` and `value`. */
  lemma {:induction false} ItemPairsSound(items: seq<Json>)
    ensures forall j :: 0 <= j < |ItemPairs(items)| ==>
      exists i :: 0 <= i < |items| && ItemPair(items[i]) == [ItemPairs(items)[j]]
  {
    if items != [] {
      var front, last := items[..|items| - 1], items[|items| - 1];
      var pairs := ItemPairs(items);
      assert pairs == ItemPairs(front) + ItemPair(last);
      ItemPairsSound(front);
      forall j | 0 <= j < |pairs|
        ensures exists i :: 0 <= i < |items| && ItemPair(items[i]) == [pairs[j]]
      {
        if j < |ItemPairs(front)| {
          var i :| 0 <= i < |front| && ItemPair(front[i]) == [ItemPairs(front)[j]];
          assert items[i] == front[i] && pairs[j] == ItemPairs(front)[j];
          assert 0 <= i < |items| && ItemPair(items[i]) == [pairs[j]];
        } else {
          assert |ItemPair(last)| == 1 && pairs[j] == ItemPair(last)[0];
          var i := |items| - 1;
          assert 0 <= i < |items| && ItemPair(items[i]) == [pairs[j]];
        }
      }
      assert forall j :: 0 <= j < |pairs| ==> exists i :: 0 <= i < |items| && ItemPair(items[i]) == [pairs[j]];
    } else {
      assert ItemPairs(items) == [];
    }
  }

  /** Every array element that is an object with `key` and `value` contributes its pair;
      the others contribute nothing, so there are never more pairs than elements. */
  lemma {:induction false} ItemPairsComplete(items: seq<Json>)
    ensures |ItemPairs(items)| <= |items|
    ensures forall i :: 0 <= i < |items| && ItemPair(items[i]) != [] ==> ItemPair(items[i])[0] in ItemPairs(items)
  {
    if items != [] {
      var front, last := items[..|items| - 1], items[|items| - 1];
      ItemPairsComplete(front);
      var earlier, pairs := ItemPairs(front), ItemPairs(items);
      assert pairs == earlier + ItemPair(last);
      forall i | 0 <= i < |items| && ItemPair(items[i]) != []
        ensures ItemPair(items[i])[0] in pairs
      {
        if i < |front| {
          assert items[i] == front[i];
          InAppend(ItemPair(front[i])[0], earlier, ItemPair(last));
        } else {
          InAppend(ItemPair(last)[0], earlier, ItemPair(last));
        }
      }
    }
  }

  lemma InAppend<T>(x: T, a: seq<T>, b: seq<T>)
    ensures x in a ==> x in a + b
    ensures x in b ==> x in a + b
  {
  }

  /** Only an array or an object gives pairs. */
  lemma ScalarGivesNoPairs(params: Json)
    requires !params.Arr? && !params.Obj?
    ensures KvPairsOf(params) == []
  {
  }

  /** A value that is not a string is rendered as its compact JSON text (`to_string`). */
  lemma StringifyNonString(v: Json)
    requires !v.Str?
    ensures Stringify(v) == Serialize(v)
  {
  }

  /** The object `{"a":"1","b":2}` gives the pairs ("a","1") and ("b","2"). */
  lemma ObjectExample()
    ensures KvPairsOf(Obj([("a", Str("1")), ("b", Num(Int(2)))]))
         == [KvPair("a", StrValue("1")), KvPair("b", StrValue("2"))]
  {
    var ms := [("a", Str("1")), ("b", Num(Int(2)))];
    MemberPairsAt(ms);
    assert Stringify(Num(Int(2))) == NatToString(2) == [Digit(2)] == "2";
  }

  /** In an array, a non-string value becomes the empty string and an element without a
      `value` member is skipped. */
  lemma ArrayCoercionExample()
    ensures KvPairsOf(Arr([Obj([("key", Str("k")), ("value", Num(Int(7)))]), Obj([("key", Str("lonely"))])]))
         == [KvPair("k", StrValue(""))]
  {
    var first := [("key", Str("k")), ("value", Num(Int(7)))];
    LookupAt(first, 0, "key");
    LookupAt(first, 1, "value");
    var items := [Obj(first), Obj([("key", Str("lonely"))])];
    assert items[..1] == [items[0]] && items[..1][..0] == [];
    assert ItemPair(items[0]) == [KvPair("k", StrValue(""))];
    assert ItemPair(items[1]) == [];
    assert ItemPairs(items[..1]) == ItemPairs([]) + ItemPair(items[0]);
    assert ItemPairs(items) == ItemPairs(items[..1]) + ItemPair(items[1]);
  }

  // ---------------------------------------------------------------------------
  // Dispatch

  /** A string field of the payload, `"default"` when it is missing or not a string. */
  function NameParam(params: Json, field: string): string {
    match Get(params, field)
    case Some(Str(s)) => s
    case _ => "default"
  }

  /** The `run_id` field as an unsigned 64-bit integer, 0 when missing or ill-typed. */
  function RunIdParam(params: Json): nat {
    match Get(params, "run_id")
    case Some(v) => (match AsU64(v) case Some(n) => n case None => 0)
    case None => 0
  }

  /** The `input` field, an empty array when missing. */
  function InputParam(params: Json): Json {
    match Get(params, "input")
    case Some(v) => v
    case None => Arr([])
  }

  predicate IsOperation(functionName: string) {
    functionName in {"start-workflow", "continue-workflow", "execute-activity", "cancel-workflow"}
  }

  function RuntimeError(message: string): Json {
    Obj([("success", Bool(false)), ("error", Str("Runtime error: " + message))])
  }

  function WorkflowError(debug: string): Json {
    Obj([("success", Bool(false)), ("error", Str("Workflow error: " + debug))])
  }

  function StartEnvelope(call: Call<string, string>, now: int): Json {
    match call
    case Returned(run) =>
      Obj([("success", Bool(true)), ("result", Str("Workflow started successfully")),
           ("workflow_run", Str(run)), ("run_id", Str("run_" + IntToString(now)))])
    case Failed(error) => WorkflowError(error)
    case Trap(message) => RuntimeError(message)
  }

  function ContinueEnvelope(call: Call<Json, string>, runId: nat): Json {
    match call
    case Returned(result) => Obj([("success", Bool(true)), ("result", result), ("run_id", Num(Int(runId)))])
    case Failed(error) => WorkflowError(error)
    case Trap(message) => RuntimeError(message)
  }

  function ActivityEnvelope(call: Call<Json, Json>, activityName: string): Json {
    match call
    case Returned(result) => Obj([("success", Bool(true)), ("result", result), ("activity", Str(activityName))])
    case Failed(error) => Obj([("success", Bool(false)), ("error", error), ("activity", Str(activityName))])
    case Trap(message) => RuntimeError(message)
  }

  function CancelEnvelope(call: Call<Json, string>, runId: nat): Json {
    match call
    case Returned(result) =>
      Obj([("success", Bool(true)), ("result", result), ("run_id", Num(Int(runId))),
           ("action", Str("cancelled"))])
    case Failed(error) => WorkflowError(error)
    case Trap(message) => RuntimeError(message)
  }

  function UnknownFunction(functionName: string): Json {
    Obj([("success", Bool(false)), ("error", Str("Unknown WIT function: " + functionName))])
  }

  /** Whether the typed call the operation name selects returned a value. */
  predicate CallReturned(e: Engine, c: Component, functionName: string, params: Json) {
    if functionName == "start-workflow" then
      e.startWorkflow(c, NameParam(params, "workflow_name"), KvPairsOf(InputParam(params))).Returned?
    else if functionName == "continue-workflow" then
      e.continueWorkflow(c, RunIdParam(params), History([])).Returned?
    else if functionName == "execute-activity" then
      e.executeActivity(c, NameParam(params, "activity_name"), KvPairsOf(InputParam(params))).Returned?
    else if functionName == "cancel-workflow" then
      e.cancelWorkflow(c, RunIdParam(params)).Returned?
    else false
  }

  /** The `match function_name` of the dispatcher, on an instantiated component. */
  function Respond(e: Engine, c: Component, functionName: string, params: Json, now: int): Json {
    if functionName == "start-workflow" then
      StartEnvelope(e.startWorkflow(c, NameParam(params, "workflow_name"), KvPairsOf(InputParam(params))), now)
    else if functionName == "continue-workflow" then
      var runId := RunIdParam(params);
      ContinueEnvelope(e.continueWorkflow(c, runId, History([])), runId)
    else if functionName == "execute-activity" then
      var activityName := NameParam(params, "activity_name");
      ActivityEnvelope(e.executeActivity(c, activityName, KvPairsOf(InputParam(params))), activityName)
    else if functionName == "cancel-workflow" then
      var runId := RunIdParam(params);
      CancelEnvelope(e.cancelWorkflow(c, runId), runId)
    else
      UnknownFunction(functionName)
  }

  /** The fields every envelope has: `success`, and `result` on success or `error` otherwise. */
  predicate ReportsOutcome(r: Json, success: bool) {
    && Get(r, "success") == Some(Bool(success))
    && (success ==> Get(r, "result").Some?)
    && (!success ==> Get(r, "error").Some?)
  }

  lemma FailureEnvelopes(message: string)
    ensures ReportsOutcome(RuntimeError(message), false)
    ensures ReportsOutcome(WorkflowError(message), false)
    ensures Get(UnknownFunction(message), "error") == Some(Str("Unknown WIT function: " + message))
    ensures ReportsOutcome(UnknownFunction(message), false)
  {
    var runtime := [("success", Bool(false)), ("error", Str("Runtime error: " + message))];
    LookupAt(runtime, 0, "success");
    LookupAt(runtime, 1, "error");
    var workflow := [("success", Bool(false)), ("error", Str("Workflow error: " + message))];
    LookupAt(workflow, 0, "success");
    LookupAt(workflow, 1, "error");
    var unknown := [("success", Bool(false)), ("error", Str("Unknown WIT function: " + message))];
    LookupAt(unknown, 0, "success");
    LookupAt(unknown, 1, "error");
  }

  lemma StartEnvelopeFields(call: Call<string, string>, now: int)
    ensures ReportsOutcome(StartEnvelope(call, now), call.Returned?)
    ensures call.Returned? ==> Get(StartEnvelope(call, now), "run_id") == Some(Str("run_" + IntToString(now)))
  {
    match call
    case Returned(run) =>
      var ms := [("success", Bool(true)), ("result", Str("Workflow started successfully")),
                 ("workflow_run", Str(run)), ("run_id", Str("run_" + IntToString(now)))];
      LookupAt(ms, 0, "success");
      LookupAt(ms, 1, "result");
      LookupAt(ms, 3, "run_id");
    case Failed(error) => FailureEnvelopes(error);
    case Trap(message) => FailureEnvelopes(message);
  }

  lemma ContinueEnvelopeFields(call: Call<Json, string>, runId: nat)
    ensures ReportsOutcome(ContinueEnvelope(call, runId), call.Returned?)
  {
    match call
    case Returned(result) =>
      var ms := [("success", Bool(true)), ("result", result), ("run_id", Num(Int(runId)))];
      LookupAt(ms, 0, "success");
      LookupAt(ms, 1, "result");
    case Failed(error) => FailureEnvelopes(error);
    case Trap(message) => FailureEnvelopes(message);
  }

  lemma ActivityEnvelopeFields(call: Call<Json, Json>, activityName: string)
    ensures ReportsOutcome(ActivityEnvelope(call, activityName), call.Returned?)
  {
    match call
    case Returned(result) =>
      var ms := [("success", Bool(true)), ("result", result), ("activity", Str(activityName))];
      LookupAt(ms, 0, "success");
      LookupAt(ms, 1, "result");
    case Failed(error) =>
      var ms := [("success", Bool(false)), ("error", error), ("activity", Str(activityName))];
      LookupAt(ms, 0, "success");
      LookupAt(ms, 1, "error");
    case Trap(message) => FailureEnvelopes(message);
  }

  lemma CancelEnvelopeFields(call: Call<Json, string>, runId: nat)
    ensures ReportsOutcome(CancelEnvelope(call, runId), call.Returned?)
    ensures call.Returned? ==> Get(CancelEnvelope(call, runId), "action") == Some(Str("cancelled"))
  {
    match call
    case Returned(result) =>
      var ms := [("success", Bool(true)), ("result", result), ("run_id", Num(Int(runId))),
                 ("action", Str("cancelled"))];
      LookupAt(ms, 0, "success");
      LookupAt(ms, 1, "result");
      LookupAt(ms, 3, "action");
    case Failed(error) => FailureEnvelopes(error);
    case Trap(message) => FailureEnvelopes(message);
  }

  /** Every envelope says whether the selected typed call returned, and carries `result`
      when it did and `error` when it did not; a domain error or a trap is reported, never
      raised. A successful cancel says `action: "cancelled"`, a successful start gives its
      run as `run_<timestamp>`, and an unknown name is reported as such. */
  lemma {:induction false} RespondReportsOutcome(e: Engine, c: Component, functionName: string, params: Json, now: int)
    ensures ReportsOutcome(Respond(e, c, functionName, params, now), CallReturned(e, c, functionName, params))
    ensures functionName == "cancel-workflow" && CallReturned(e, c, functionName, params)
      ==> Get(Respond(e, c, functionName, params, now), "action") == Some(Str("cancelled"))
    ensures functionName == "start-workflow" && CallReturned(e, c, functionName, params)
      ==> Get(Respond(e, c, functionName, params, now), "run_id") == Some(Str("run_" + IntToString(now)))
    ensures !IsOperation(functionName) ==>
      Get(Respond(e, c, functionName, params, now), "error") == Some(Str("Unknown WIT function: " + functionName))
  {
    if functionName == "start-workflow" {
      StartEnvelopeFields(e.startWorkflow(c, NameParam(params, "workflow_name"), KvPairsOf(InputParam(params))), now);
    } else if functionName == "continue-workflow" {
      ContinueEnvelopeFields(e.continueWorkflow(c, RunIdParam(params), History([])), RunIdParam(params));
    } else if functionName == "execute-activity" {
      var activityName := NameParam(params, "activity_name");
      ActivityEnvelopeFields(e.executeActivity(c, activityName, KvPairsOf(InputParam(params))), activityName);
    } else if functionName == "cancel-workflow" {
      CancelEnvelopeFields(e.cancelWorkflow(c, RunIdParam(params)), RunIdParam(params));
    } else {
      FailureEnvelopes(functionName);
    }
  }

  /** `execute_wit_component_function`: instantiate the component in a fresh store, then
      respond. Only a failed instantiation is raised as an error; everything a typed call can
      do, including trapping, is reported inside the envelope. */
  function Dispatch(e: Engine, c: Component, functionName: string, params: Json, now: int): (r: Result<Json>)
    ensures e.instantiate(c).Err? ==> r == Err(e.instantiate(c).error)
    ensures e.instantiate(c).Ok? ==> r.Ok?
    ensures e.instantiate(c).Ok? && !IsOperation(functionName) ==> r == Ok(UnknownFunction(functionName))
  {
    match e.instantiate(c)
    case Err(error) => Err(error)
    case Ok(_) => Ok(Respond(e, c, functionName, params, now))
  }

  /** An unknown operation makes no typed call: its answer is the same whatever the
      component's typed operations would do. */
  lemma UnknownMakesNoCall(e1: Engine, e2: Engine, c: Component, functionName: string, params: Json, now: int)
    requires !IsOperation(functionName)
    ensures Respond(e1, c, functionName, params, now) == Respond(e2, c, functionName, params, now)
  {
  }

  /** Fields that are missing, or present with the wrong type (a name that is not a string,
      a run id that is not an unsigned 64-bit integer), default to "default" and 0; a missing
      input defaults to an empty one. */
  lemma MissingFieldsDefault(params: Json)
    requires Get(params, "workflow_name").None? || !Get(params, "workflow_name").value.Str?
    requires Get(params, "activity_name").None? || !Get(params, "activity_name").value.Str?
    requires Get(params, "run_id").None? || AsU64(Get(params, "run_id").value).None?
    requires Get(params, "input") == None
    ensures NameParam(params, "workflow_name") == "default" && NameParam(params, "activity_name") == "default"
    ensures RunIdParam(params) == 0 && InputParam(params) == Arr([]) && KvPairsOf(InputParam(params)) == []
  {
  }

  // ---------------------------------------------------------------------------
  // Registry

  /** A loaded plugin: its compiled component and how many executions it has started. */
  datatype LoadedPlugin = LoadedPlugin(component: Component, executionCount: nat)

  type Plugins = map<string, LoadedPlugin>

  /** The outcome of a registry operation and the registry it leaves. */
  datatype Update<+T> = Update(result: Result<T>, plugins: Plugins)

  /** Every key other than `name` is present in both or neither, with the same record. */
  ghost predicate OthersUnchanged(m: Plugins, m': Plugins, name: string) {
    forall k :: k != name ==> (k in m' <==> k in m) && (k in m ==> m'[k] == m[k])
  }

  /** `load_wit_plugin`: an empty name or empty bytes are refused, then the bytes are
      compiled, and a fresh record replaces whatever the key held. The magic tag is not
      checked here. */
  function Load(m: Plugins, e: Engine, name: string, bytes: Bytes): (u: Update<()>)
    ensures name == "" ==> u == Update(Err(Fail("Plugin name cannot be empty")), m)
    ensures name != "" && bytes == [] ==>
      u == Update(Err(Fail("WASM bytes cannot be empty for plugin '" + name + "'")), m)
    ensures name != "" && bytes != [] && e.compile(bytes).Err? ==>
      u == Update(Err(Context(e.compile(bytes).error, "Failed to create WIT component for plugin '" + name + "'")), m)
    ensures u.result.Ok? <==> name != "" && bytes != [] && e.compile(bytes).Ok?
    ensures u.result.Ok? ==> name in u.plugins && u.plugins[name] == LoadedPlugin(e.compile(bytes).value, 0)
    ensures OthersUnchanged(m, u.plugins, name)
  {
    if name == "" then Update(Err(Fail("Plugin name cannot be empty")), m)
    else if bytes == [] then Update(Err(Fail("WASM bytes cannot be empty for plugin '" + name + "'")), m)
    else match e.compile(bytes)
      case Err(error) => Update(Err(Context(error, "Failed to create WIT component for plugin '" + name + "'")), m)
      case Ok(component) => Update(Ok(()), m[name := LoadedPlugin(component, 0)])
  }

  /** `execute_wit_function`: an absent key is an error and changes nothing; otherwise the
      key's counter goes up by one before dispatch, and stays up whatever dispatch answers. */
  function Execute(m: Plugins, e: Engine, name: string, functionName: string, params: Json, now: int): (u: Update<Json>)
    ensures name !in m ==> u == Update(Err(Fail("WIT Plugin '" + name + "' not found")), m)
    ensures name in m ==>
      && name in u.plugins
      && u.plugins[name].component == m[name].component
      && u.plugins[name].executionCount == m[name].executionCount + 1
    ensures name in m ==> u.result == Dispatch(e, m[name].component, functionName, params, now)
    ensures u.plugins.Keys == m.Keys && OthersUnchanged(m, u.plugins, name)
  {
    if name !in m then Update(Err(Fail("WIT Plugin '" + name + "' not found")), m)
    else
      var plugin := m[name];
      Update(Dispatch(e, plugin.component, functionName, params, now),
             m[name := plugin.(executionCount := plugin.executionCount + 1)])
  }

  /** `remove_plugin`: deletes a present key; an absent key is an error. */
  function Remove(m: Plugins, name: string): (u: Update<()>)
    ensures name in m ==> u.result == Ok(()) && u.plugins.Keys == m.Keys - {name}
    ensures name !in m ==> u == Update(Err(Fail("Plugin '" + name + "' not found")), m)
    ensures name !in u.plugins && OthersUnchanged(m, u.plugins, name)
  {
    if name in m then Update(Ok(()), m - {name})
    else Update(Err(Fail("Plugin '" + name + "' not found")), m)
  }

  /** `reload_plugin`: remove, ignoring its error, then load. */
  function Reload(m: Plugins, e: Engine, name: string, bytes: Bytes): Update<()> {
    Load(Remove(m, name).plugins, e, name, bytes)
  }

  /** Reload answers as load does, and when the load succeeds it leaves the same registry;
      when it fails, the key is gone, where a plain load would have kept the old record. */
  lemma ReloadVersusLoad(m: Plugins, e: Engine, name: string, bytes: Bytes)
    ensures Reload(m, e, name, bytes).result == Load(m, e, name, bytes).result
    ensures Load(m, e, name, bytes).result.Ok? ==> Reload(m, e, name, bytes).plugins == Load(m, e, name, bytes).plugins
    ensures Load(m, e, name, bytes).result.Err? ==>
      name !in Reload(m, e, name, bytes).plugins && Load(m, e, name, bytes).plugins == m
  {
    var loaded, reloaded := Load(m, e, name, bytes), Reload(m, e, name, bytes);
    if loaded.result.Ok? {
      assert loaded.plugins.Keys == reloaded.plugins.Keys;
    }
  }

  /** Loading the same key twice leaves one entry, holding the second artifact with a
      fresh counter. */
  lemma LoadTwice(m: Plugins, e: Engine, name: string, first: Bytes, second: Bytes)
    requires Load(Load(m, e, name, first).plugins, e, name, second).result.Ok?
    ensures var m' := Load(Load(m, e, name, first).plugins, e, name, second).plugins;
      m'.Keys == m.Keys + {name} && m'[name] == LoadedPlugin(e.compile(second).value, 0)
  {
  }

  // ---------------------------------------------------------------------------
  // The runtime object

  /** `WitPluginRuntime`: the engine (immutable once built) and the shared registry. */
  class WitPluginRuntime {
    const engine: Engine
    var plugins: Plugins

    constructor (engine: Engine)
      ensures this.engine == engine && plugins == map[]
    {
      this.engine := engine;
      plugins := map[];
    }

    method LoadWitPlugin(name: string, wasmBytes: Bytes) returns (r: Result<()>)
      modifies this
      ensures Update(r, plugins) == Load(old(plugins), engine, name, wasmBytes)
    {
      if name == "" {
        return Err(Fail("Plugin name cannot be empty"));
      }
      if wasmBytes == [] {
        return Err(Fail("WASM bytes cannot be empty for plugin '" + name + "'"));
      }
      var component := engine.compile(wasmBytes);
      if component.Err? {
        return Err(Context(component.error, "Failed to create WIT component for plugin '" + name + "'"));
      }
      var loadedPlugin := LoadedPlugin(component.value, 0);
      plugins := plugins[name := loadedPlugin];
      r := Ok(());
    }

    method ExecuteWitFunction(pluginName: string, functionName: string, params: Json, now: int)
      returns (r: Result<Json>)
      modifies this
      ensures Update(r, plugins) == Execute(old(plugins), engine, pluginName, functionName, params, now)
    {
      if pluginName !in plugins {
        return Err(Fail("WIT Plugin '" + pluginName + "' not found"));
      }
      var plugin := plugins[pluginName];
      plugins := plugins[pluginName := plugin.(executionCount := plugin.executionCount + 1)];
      r := ExecuteWitComponentFunction(plugin.component, functionName, params, now);
    }

    method ExecuteWitComponentFunction(component: Component, functionName: string, params: Json, now: int)
      returns (r: Result<Json>)
      ensures r == Dispatch(engine, component, functionName, params, now)
    {
      var instance := engine.instantiate(component);
      if instance.Err? {
        return Err(instance.error);
      }
      var result;
      if functionName == "start-workflow" {
        var workflowName := NameParam(params, "workflow_name");
        var input := JsonToKvPairs(InputParam(params));
        result := StartEnvelope(engine.startWorkflow(component, workflowName, input), now);
      } else if functionName == "continue-workflow" {
        var runId := RunIdParam(params);
        var history := History([]);
        result := ContinueEnvelope(engine.continueWorkflow(component, runId, history), runId);
      } else if functionName == "execute-activity" {
        var activityName := NameParam(params, "activity_name");
        var input := JsonToKvPairs(InputParam(params));
        result := ActivityEnvelope(engine.executeActivity(component, activityName, input), activityName);
      } else if functionName == "cancel-workflow" {
        var runId := RunIdParam(params);
        result := CancelEnvelope(engine.cancelWorkflow(component, runId), runId);
      } else {
        result := UnknownFunction(functionName);
      }
      r := Ok(result);
    }

    method RemovePlugin(name: string) returns (r: Result<()>)
      modifies this
      ensures Update(r, plugins) == Remove(old(plugins), name)
    {
      if name in plugins {
        plugins := plugins - {name};
        r := Ok(());
      } else {
        r := Err(Fail("Plugin '" + name + "' not found"));
      }
    }

    method ReloadPlugin(name: string, wasmBytes: Bytes) returns (r: Result<()>)
      modifies this
      ensures Update(r, plugins) == Reload(old(plugins), engine, name, wasmBytes)
    {
      var _ := RemovePlugin(name);
      r := LoadWitPlugin(name, wasmBytes);
    }

    /** `list_plugin_names`: every key exactly once, in no particular order. */
    method ListPluginNames() returns (names: seq<string>)
      ensures forall k :: k in names <==> k in plugins
      ensures |names| == |plugins|
    {
      names := [];
      var rest := plugins.Keys;
      while rest != {}
        invariant rest <= plugins.Keys
        invariant forall k :: k in names <==> k in plugins && k !in rest
        invariant |names| + |rest| == |plugins|
        decreases |rest|
      {
        var k :| k in rest;
        names := names + [k];
        rest := rest - {k};
      }
    }
  }
}

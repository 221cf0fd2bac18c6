# xarxa core, modelled in Dafny

xarxa runs workflow plugins, which are WebAssembly components exposing a small workflow interface. This project models the parts of the server that decide things:

- **The plugin runtime** (`WitRuntime`):
  - a registry from plugin key to compiled component with an execution counter;
  - its load, execute, remove, reload and list operations;
  - the dispatcher, which runs one of four workflow operations and answers with a JSON envelope;
  - the converter from a JSON payload to the interface's key/value pairs.
- **The filesystem auto-loader** (`PluginAutoLoader`):
  - which paths count as plugin artifacts, and which key each gets;
  - the translation of watcher notifications into plugin events;
  - the byte checks before a load;
  - the reaction to each event, the bulk load at start-up, creation of the plugins directory, the consumer loop, and `start`.
- **The HTTP layer's error value** (`HttpApi`) and the **workflow endpoints** (`WorkflowHandler`):
  - run-request validation and result wrapping;
  - the multipart upload checks;
  - the reply shaping of plugin removal.
- **Workflow creation** (`WorkflowService`): the magic check, the record sent to the repository, the storage key, and the order insert → put → load.
- **User tokens** (`UserService`): the salted token hash `salt:hex(SHA-256(token ++ salt))`, its verification, and sign-in.

## How the model is built

**Foreign code becomes oracles.** Each of the following is a function-valued field of a datatype (`Engine`, `Backends`, `Backend`):

- the WebAssembly engine: compile, instantiate, and the four typed calls;
- the repositories and the object store;
- MD5, SHA-256 and the random generator.

Each typed call answers one of three outcomes, mirroring the engine's nested result: a trap (`Err`), a domain error (`Ok(Err)`), or a value (`Ok(Ok)`).

**Mutated state is a class:**

- **`WitPluginRuntime`** holds a `map` registry.
- **`EventChannel`** is the unbounded channel. It holds a `seq` queue and whether the receiver is still open.
- **`AutoLoader`** holds the watcher flag.
- **`WorkflowCreator`** holds a log of the external calls made.
- **`Hasher`** holds the SHA-256 input fed so far.

Each method is proved equal to a pure specification function of the old state (`Load`, `Execute`, `Translate`, `StaticLoad`, `BulkLoad`, `FoldEvents`, `Create`, `Upload`, …). The properties are lemmas about those functions.

**Data and text:**

- Errors are anyhow-style chains: the message, then its causes, outermost first.
- Filesystems are maps from canonical paths (sequences of components) to files or directories.
- JSON is a small value type with a compact serializer.

**Parameters instead of the environment:**

- The time is an integer parameter, `now`.
- The filesystem each event sees after the settling delay is the function `fsAt`.
- The race between shutdown and the channel in the consumer loop is `shutdownAt`, the number of events handled before shutdown wins.

## Behaviour worth noting

- `load_wit_plugin` does not check the `\0asm` magic tag (`src/adapters/wasmtime/wit_runtime.rs:79-117`). Only the auto-loader and the upload service check it, so a component registered through `load_wit_plugin` directly is accepted without it.
- A failed instantiation is raised as an error (`src/adapters/wasmtime/wit_runtime.rs:145-152`). It is not reported inside an envelope.
- An unknown operation is answered `Unknown WIT function: <name>` (`src/adapters/wasmtime/wit_runtime.rs:318-323`).
- An `execute-activity` domain error keeps the `activity` member in its envelope (`src/adapters/wasmtime/wit_runtime.rs:230-236`).

## Model

| member | source | states |
|---|---|---|
| HttpApi.BadRequest | src/adapters/http/mod.rs:43-49 | status 400, the given message, no details |
| HttpApi.InternalError | src/adapters/http/mod.rs:51-57 | status 500, the given message, no details |
| HttpApi.WithDetails | src/adapters/http/mod.rs:59-62 | details become `Some(d)`; status and message unchanged |
| HttpApi.FromError | src/adapters/http/mod.rs:65-81 | status 500; message is the first message of the error chain; details present iff the chain has more than one message, and then they are the rest joined by " -> " |
| HttpApi.FromContext | src/adapters/http/mod.rs:65-81 | an error given a context answers with the context as message and the whole chain beneath it as details |
| HttpApi.FromValidation | src/adapters/http/mod.rs:83-91 | status 400 with the rendered validation errors, no details |
| HttpApi.IntoResponse | src/adapters/http/mod.rs:93-106 | the status is the error's; the body has `success: false` and `error: message`; it has a `details` member iff there are details, holding them |
| WitRuntime.JsonToKvPairs | src/adapters/wasmtime/wit_runtime.rs:376-415 | the loops build exactly `KvPairsOf(params)` |
| WitRuntime.MemberPairsAt | src/adapters/wasmtime/wit_runtime.rs:393-408 | an object gives one pair per member, in order, with the member's key and its stringified value |
| WitRuntime.StringifyNonString | src/adapters/wasmtime/wit_runtime.rs:396-401 | a member value that is not a string becomes its JSON text (numbers and booleans included) |
| WitRuntime.ItemPairsSound | src/adapters/wasmtime/wit_runtime.rs:380-392 | every pair from an array comes from an element that is an object with both `key` and `value` |
| WitRuntime.ItemPairsComplete | src/adapters/wasmtime/wit_runtime.rs:380-392 | every such element contributes its pair; never more pairs than elements |
| WitRuntime.ArrayCoercionExample | src/adapters/wasmtime/wit_runtime.rs:383-388 | a non-string `value` becomes `""`; an element without `value` is skipped |
| WitRuntime.ObjectExample | src/adapters/wasmtime/wit_runtime.rs:393-408 | `{"a":"1","b":2}` gives ("a","1"), ("b","2") |
| WitRuntime.ScalarGivesNoPairs | src/adapters/wasmtime/wit_runtime.rs:409-411 | anything but an array or an object gives no pairs |
| WitRuntime.FailureEnvelopes | src/adapters/wasmtime/wit_runtime.rs:172-183 | runtime-error, workflow-error and unknown-function envelopes say `success: false` and carry `error` |
| WitRuntime.StartEnvelopeFields | src/adapters/wasmtime/wit_runtime.rs:156-185 | the start envelope reports whether the call returned; on success its `run_id` is `run_<now>` |
| WitRuntime.ContinueEnvelopeFields | src/adapters/wasmtime/wit_runtime.rs:186-214 | the continue envelope reports whether the call returned, with `result` or `error` |
| WitRuntime.ActivityEnvelopeFields | src/adapters/wasmtime/wit_runtime.rs:215-244 | the activity envelope reports whether the call returned, with `result` or `error` |
| WitRuntime.CancelEnvelopeFields | src/adapters/wasmtime/wit_runtime.rs:290-317 | the cancel envelope reports the outcome; on success it has `action: "cancelled"` |
| WitRuntime.RespondReportsOutcome | src/adapters/wasmtime/wit_runtime.rs:155-324 | every envelope's `success` is whether the selected typed call returned; a trap or a domain error is reported, never raised; cancel and start specifics; an unknown name gives "Unknown WIT function: <name>" |
| WitRuntime.Dispatch | src/adapters/wasmtime/wit_runtime.rs:139-327 | only a failed instantiation is an error; otherwise an envelope is answered; an unknown name gives the unknown-function envelope |
| WitRuntime.UnknownMakesNoCall | src/adapters/wasmtime/wit_runtime.rs:318-323 | the answer to an unknown name does not depend on any typed call |
| WitRuntime.MissingFieldsDefault | src/adapters/wasmtime/wit_runtime.rs:157-220 | a name that is missing or not a string reads as "default", a run id that is missing or not an unsigned 64-bit integer reads as 0, and a missing input is an empty array with no pairs |
| WitRuntime.Load | src/adapters/wasmtime/wit_runtime.rs:79-117 | an empty name, empty bytes or a compile failure is refused with the registry unchanged; success iff none of these; on success the key holds a fresh record with counter 0; other keys unchanged |
| WitRuntime.LoadTwice | src/adapters/wasmtime/wit_runtime.rs:113-114 | a second load of a key overwrites it: one entry, the second component, counter 0 |
| WitRuntime.Execute | src/adapters/wasmtime/wit_runtime.rs:119-137 | an absent key fails with "not found" and changes nothing; a present key's counter goes up by exactly one whatever dispatch answers; the answer is dispatch's; no other entry changes |
| WitRuntime.Remove | src/adapters/wasmtime/wit_runtime.rs:329-338 | a present key is deleted alone, with `Ok`; an absent key is an error and changes nothing |
| WitRuntime.ReloadVersusLoad | src/adapters/wasmtime/wit_runtime.rs:340-349 | reload answers as load; on success it leaves the same registry; on failure the key is absent, while load would have kept the old entry |
| WitRuntime.WitPluginRuntime.constructor | src/adapters/wasmtime/wit_runtime.rs:61-77 | a runtime starts with an empty registry |
| WitRuntime.WitPluginRuntime.LoadWitPlugin | src/adapters/wasmtime/wit_runtime.rs:79-117 | answer and new registry are `Load` of the old registry |
| WitRuntime.WitPluginRuntime.ExecuteWitFunction | src/adapters/wasmtime/wit_runtime.rs:119-137 | answer and new registry are `Execute` of the old registry |
| WitRuntime.WitPluginRuntime.ExecuteWitComponentFunction | src/adapters/wasmtime/wit_runtime.rs:139-327 | the answer is `Dispatch` |
| WitRuntime.WitPluginRuntime.RemovePlugin | src/adapters/wasmtime/wit_runtime.rs:329-338 | answer and new registry are `Remove` of the old registry |
| WitRuntime.WitPluginRuntime.ReloadPlugin | src/adapters/wasmtime/wit_runtime.rs:340-349 | answer and new registry are `Reload` of the old registry |
| WitRuntime.WitPluginRuntime.ListPluginNames | src/adapters/wasmtime/wit_runtime.rs:351-354 | every key exactly once |
| PluginAutoLoader.StemAndExtension | src/adapters/filesystem/plugin_auto_loader.rs:325-330 | for `stem.ext` the key is the stem, case kept, with only the last extension removed |
| PluginAutoLoader.WithoutDot | src/adapters/filesystem/plugin_auto_loader.rs:325-330 | a name without a dot is its own key and has no extension |
| PluginAutoLoader.NoFileNameIsUnknown | src/adapters/filesystem/plugin_auto_loader.rs:325-330 | a path without a file name gets the key "unknown" |
| PluginAutoLoader.IsWasmFileIff | src/adapters/filesystem/plugin_auto_loader.rs:336-346 | a path is an artifact iff it is a regular file and its extension lower-cases to "wasm" |
| PluginAutoLoader.HiddenFileIsNotWasm | src/adapters/filesystem/plugin_auto_loader.rs:336-346 | a name like `.wasm` has no extension and is never an artifact |
| PluginAutoLoader.TranslateSound | src/adapters/filesystem/plugin_auto_loader.rs:183-231 | every event sent has the notification's kind and an artifact path directly inside the watched directory; other kinds send nothing |
| PluginAutoLoader.TranslateAppend | src/adapters/filesystem/plugin_auto_loader.rs:183-231 | translation is path by path, in path order |
| PluginAutoLoader.TranslateOne | src/adapters/filesystem/plugin_auto_loader.rs:184-225 | Create, Modify and Remove of one artifact send Added, Modified and Removed |
| PluginAutoLoader.VanishedPathsSendNothing | src/adapters/filesystem/plugin_auto_loader.rs:212-225 | a removal notification for a path no longer there sends no `Removed` event |
| PluginAutoLoader.HandleFsEvent | src/adapters/filesystem/plugin_auto_loader.rs:176-232 | with the receiver open every event of `Translate` is queued in order; once it is closed the first send fails with the kind's context and stops the rest |
| PluginAutoLoader.WasmMagicIsNulAsm | src/adapters/filesystem/plugin_auto_loader.rs:308-311 | `b"\0asm"` is the bytes 00 61 73 6D |
| PluginAutoLoader.StaticLoadSpec | src/adapters/filesystem/plugin_auto_loader.rs:294-323 | an unreadable file, empty bytes or a wrong magic never reaches the registry; a file that passes is loaded under its stem exactly as the registry would load it, reported loaded iff that load succeeds |
| PluginAutoLoader.ShortFilesPass | src/adapters/filesystem/plugin_auto_loader.rs:305-311 | files of one to three bytes pass the checks |
| PluginAutoLoader.LoadPluginStatic | src/adapters/filesystem/plugin_auto_loader.rs:294-323 | outcome and registry are `StaticLoad` |
| PluginAutoLoader.ProcessPluginEvent | src/adapters/filesystem/plugin_auto_loader.rs:234-288 | always `Ok`; the registry becomes `React` of the old one |
| PluginAutoLoader.ReactLeavesUnchanged | src/adapters/filesystem/plugin_auto_loader.rs:240-287 | a removal, a vanished file, or a file failing the checks leaves the registry unchanged |
| PluginAutoLoader.ReactTouchesOnlyItsStem | src/adapters/filesystem/plugin_auto_loader.rs:234-288 | an event changes at most its stem's entry and removes no key |
| PluginAutoLoader.BulkLoadCounts | src/adapters/filesystem/plugin_auto_loader.rs:71-95 | loaded + failed is the number of artifacts among the entries |
| PluginAutoLoader.BulkLoadAppend | src/adapters/filesystem/plugin_auto_loader.rs:71-93 | a failure does not stop the rest: a listing in two parts loads as the first part, then the second from where it left off |
| PluginAutoLoader.BulkLoadSkips | src/adapters/filesystem/plugin_auto_loader.rs:77-92 | entries that are not artifacts change nothing |
| PluginAutoLoader.LoadExistingPlugins | src/adapters/filesystem/plugin_auto_loader.rs:65-97 | given a listing of the directory (each child once, any order), an unreadable directory is an error with nothing loaded; otherwise registry and counters are `BulkLoad` of the listing, and the counters add up to the number of artifacts directly inside the directory |
| PluginAutoLoader.CountWasmDistinct | src/adapters/filesystem/plugin_auto_loader.rs:73-92 | over a listing without repeats, the artifacts counted are the set of artifacts listed |
| PluginAutoLoader.CreateDirAllSpec | src/adapters/filesystem/plugin_auto_loader.rs:46-48 | directory creation succeeds iff no component is a regular file; it then adds directories for the missing components and changes nothing else |
| PluginAutoLoader.EnsureDirectory | src/adapters/filesystem/plugin_auto_loader.rs:45-63 | a regular file at the path is refused; an existing directory is kept; a missing one is created iff possible, and afterwards the path is a directory |
| PluginAutoLoader.RemovalsChangeNothing | src/adapters/filesystem/plugin_auto_loader.rs:275-283 | a series of removals leaves the registry unchanged |
| PluginAutoLoader.FoldTouchesOnlyStems | src/adapters/filesystem/plugin_auto_loader.rs:147-170 | the event fold removes no key, and a key that is no event's stem keeps its entry |
| PluginAutoLoader.ProcessEvents | src/adapters/filesystem/plugin_auto_loader.rs:147-170 | events are handled one at a time in delivery order until shutdown or until the queue runs out; the handled events are a prefix of the queue, all of it without shutdown, and fewer only when shutdown comes at that count; the rest stays queued; the registry is the fold of the handled prefix |
| PluginAutoLoader.AutoLoader.constructor | src/adapters/filesystem/plugin_auto_loader.rs:25-32 | a new loader watches nothing |
| PluginAutoLoader.AutoLoader.Start | src/adapters/filesystem/plugin_auto_loader.rs:34-43 | given a listing of the directory as it is once ensured, ensure directory, then bulk load, then watch, stopping at the first failure; the bulk load cannot fail once the directory exists; on success the registry is the bulk load followed by the handled events |
| WorkflowService.NewWorkflowOf | src/core/services/workflow.rs:47-54 | the record copies key, display name and description, with size the byte count, an empty storage URL and the bytes' MD5 |
| WorkflowService.BadMagicTouchesNothing | src/core/services/workflow.rs:40-43 | four or more bytes with a wrong magic are refused before any call |
| WorkflowService.EmptyArtifactRefusedLate | src/core/services/workflow.rs:40-78 | empty bytes pass the magic check, are inserted and stored, and only the runtime load refuses them |
| WorkflowService.CreateOrdering | src/core/services/workflow.rs:57-78 | the calls made are a prefix of insert, put "<key>.wasm" in "xarxa-s3", load; a failure skips the rest; a success makes all three |
| WorkflowService.CreateSuccess | src/core/services/workflow.rs:78-92 | a success answers the repository's record with an empty active version, having loaded the key with counter 0 |
| WorkflowService.WorkflowCreator.constructor | src/core/services/workflow.rs:31-37 | a new service has made no call |
| WorkflowService.WorkflowCreator.CreateWorkflow | src/core/services/workflow.rs:39-95 | answer, call log and registry are those of `Create` |
| UserService.Sample | src/core/services/user.rs:37-47 | a draw of `n` characters has length `n` and is alphanumeric |
| UserService.MalformedHashVerifiesNothing | src/core/services/user.rs:65-68 | a stored value with no colon or with more than one verifies no token |
| Text.SplitLength | src/core/services/user.rs:65 | splitting at a character yields one piece more than the character's occurrences |
| UserService.VerifyTokenIff | src/core/services/user.rs:64-79 | a stored `salt:digest` verifies a token iff the token's salted digest is `digest` |
| UserService.NoColonInDigest | src/core/services/user.rs:49-54 | a hex digest contains no colon |
| UserService.TokenHashVerifies | src/core/services/user.rs:43-54 | the stored form of a token, with an alphanumeric salt, verifies that token |
| UserService.Create | src/core/services/user.rs:36-60 | the hasher-based method answers `CreateSpec` |
| UserService.CreateSpecProperties | src/core/services/user.rs:36-60 | a 64-character alphanumeric token, a 32-character alphanumeric salt, the stored value `salt:digest`, which verifies the token; the answer carries the plaintext token, never the stored value |
| UserService.Auth | src/core/services/user.rs:23-34 | sign-in succeeds iff the email is found and the token verifies, answering that user |
| UserService.AuthDoesNotTellWhich | src/core/services/user.rs:23-34 | an unknown email and a wrong token give the same error |
| UserService.AuthAfterCreate | src/core/services/user.rs:23-34 | the token `create` answered signs in against what it stored |
| WorkflowHandler.RunChecks | src/adapters/http/workflow_handler.rs:67-75 | the request passes iff both names are non-empty and the serialized payload is at most 1,048,576 bytes |
| WorkflowHandler.RunChecksByCharacters | src/adapters/http/workflow_handler.rs:71-75 | the limit counts UTF-8 bytes: at most 256 Ki characters always pass, more than 1 Mi never do, and an ASCII payload passes iff it has at most 1 Mi characters |
| Text.ByteLenBounds | src/adapters/http/workflow_handler.rs:71-72 | a string takes between one and four bytes per character, exactly one when it is ASCII |
| WorkflowHandler.RunChecksComeFirst | src/adapters/http/workflow_handler.rs:67-75 | a failed check answers before the runtime and leaves the registry unchanged; exactly 1 MiB is accepted |
| WorkflowHandler.RunWorkflowImpl | src/adapters/http/workflow_handler.rs:61-87 | answer and registry are `Run`: the checks, then execute, with an error under "Failed to execute function … in plugin …" |
| WorkflowHandler.MissingPluginReply | src/adapters/http/workflow_handler.rs:77-82 | a plugin that is not loaded gives 500 with the context as message and "WIT Plugin … not found" as details |
| WorkflowHandler.RunReply | src/adapters/http/workflow_handler.rs:52-58 | every runtime answer becomes `success: true` with it as result; an error becomes a 500 |
| WorkflowHandler.RunWorkflow | src/adapters/http/workflow_handler.rs:46-59 | the reply is `RunReply` of `Run` |
| WorkflowHandler.UnknownOperationIsASuccessReply | src/adapters/http/workflow_handler.rs:52-58 | an unknown operation is an HTTP success whose inner envelope says `success: false` |
| WorkflowHandler.CheckUpload | src/adapters/http/workflow_handler.rs:112-135 | the field passes iff it has a file name ending in ".wasm" (case-sensitive) and 1 to 52,428,800 bytes; a refusal is a 400 without details |
| WorkflowHandler.UploadSkipsOtherFields | src/adapters/http/workflow_handler.rs:106-111 | fields not named "workflow" are skipped |
| WorkflowHandler.NoWorkflowField | src/adapters/http/workflow_handler.rs:151-153 | without a "workflow" field the request is a 400 and nothing is called |
| WorkflowHandler.FirstWorkflowFieldDecides | src/adapters/http/workflow_handler.rs:111-150 | the first "workflow" field decides alone; a refused one calls nothing; an accepted one makes exactly the service's calls and succeeds iff the service does |
| WorkflowHandler.DisplayNameExample | src/adapters/http/workflow_handler.rs:137 | every trailing ".wasm" is stripped from the display name |
| WorkflowHandler.CreateWorkflow | src/adapters/http/workflow_handler.rs:99-154 | answer, call log and registry are `Upload` |
| WorkflowHandler.RemoveReplySaysWhetherPresent | src/adapters/http/workflow_handler.rs:160-169 | the body's `success` is whether the key was present; an absent key's error names it |
| WorkflowHandler.RemovePluginEndpoint | src/adapters/http/workflow_handler.rs:156-170 | always answered with `RemoveReply`; the registry is `Remove` of the old one |
| Json.LookupMember | src/adapters/wasmtime/wit_runtime.rs:384 | in an object with unique keys, a member's key finds that member's value |
| Json.LookupOrderFree | src/adapters/wasmtime/wit_runtime.rs:157-161 | in objects with unique keys, lookups find the same values however the members are ordered |
| Text.TrimEndMatchesSpec | src/adapters/http/workflow_handler.rs:137 | the result no longer ends with the pattern, and the input is the result followed by some repetitions of it |
| Text.TrimEndMatchesAll | src/adapters/http/workflow_handler.rs:137 | with a non-empty pattern, the result no longer ends with it |
| Text.TrimEndMatchesRemoved | src/adapters/http/workflow_handler.rs:137 | the input is the result followed by a returned number of repetitions of the pattern |

## Left out

**Concurrency and time**

- Locking and async: the registry's lock (and that execute holds it for the whole call), async scheduling, `tokio::select!` and the `notify` callback thread. The registry is single-threaded. The notifications and the consumer's events are sequences handled in order. The shutdown race is the parameter `shutdownAt`.
- PluginAutoLoader.AutoLoader.Start: with no shutdown, the model ends the consumer once the events of the given notifications are handled, and then answers `Ok(())` with the watcher installed. This stands in for the program's endless wait: the watcher keeps the channel's only sender alive, so `recv` never reports a closed channel while `start` runs, and `start` returns only when shutdown wins.
- `Drop` of the loader, which only logs, is not modelled.
- The 5-second settling sleep before an event is handled is not modelled. The filesystem at that moment is the parameter `fsAt`.
- Timestamps are parameters: `run_<ts>` takes `now`, and `loaded_at` is not kept. The JWT expiry belongs to `src/adapters/http/auth.rs`, which is not part of this model.

**The engine and the backends**

- Engine configuration, the linker, WASI, compilation, instantiation and the typed calls are oracles.
- The store limits are constants only, because the engine enforces them.
- SQL, the S3 client, MD5 and SHA-256 internals are oracles.
- `get_workflows` and `find_all` pass straight through to the repository. They are not modelled.

**Logging and rendering**

- `tracing` output is not modelled.
- `Debug` renderings of a workflow run, domain errors and paths are oracle-provided strings or a simple quoted path (`PathDebug`). Debug string escaping is not modelled.
- The loader's failure messages only reach the log, so `LoadPluginStatic` reports the failed step (`LoadFailure`) rather than the message. It keeps the registry's own error under the loader's context.
- OS error texts are fixed constants, the Linux ones: "No such file or directory (os error 2)" and "Not a directory (os error 20)".

**JSON**

- Floating-point numbers are an opaque rendered text (`Float(text)`). Their formatting is not modelled.
- `serde_json` without `preserve_order` keeps an object's members in a map sorted by key, each key once. The model's `Obj` lists members in the order the object iterates them. The objects the model builds itself (the runtime's envelopes, the endpoints' reply bodies) list members in the order the source writes them, not key order; nothing reads them except by key. The model does not enforce sorted order or unique keys (`UniqueKeys`) on its `Obj` values. For objects with unique keys, lookups do not depend on member order (`Json.LookupOrderFree`).
- WitRuntime.JsonToKvPairs: emits one pair per member, in member order. An `Obj` with a repeated key, which no `serde_json` value has, yields a pair for each copy; the model does not exclude such inputs.
- WorkflowHandler.RunChecks: measures the serialized length of the members as listed. An `Obj` with a repeated key, which no `serde_json` value has, is measured with every copy; the model does not exclude such inputs.

**I/O**

- Read errors from `next_entry`, `next_field`, `field.bytes()` and the watcher are not modelled. The exception is that installing the watcher may fail, given by `watchFailure`.
- Non-UTF-8 file names, symbolic links and path canonicalization are not modelled. Paths are canonical sequences of components.

**Numbers and sampling**

- WitRuntime.Execute: the execution counter is an unbounded `nat`. A `u64` counter would wrap only after 2^64 executions.
- UserService.Sample: the alphanumeric distribution's rejection sampling is abstracted as `draw % 62` over the oracle stream. The contract states the length and the alphabet, not the distribution.

**Outside this model**

- `src/main.rs`, `src/infra/config.rs`, the routing in `start_server`, `src/adapters/http/auth.rs`, the user and namespace handlers and the namespace service are not part of this model. They are plumbing or pass-throughs.

/** Creating a workflow from an uploaded artifact: the artifact is checked, recorded in the
    repository, stored in the object store and loaded into the runtime, in that order, and
    the first failing step ends the creation. The repository, the object store and the MD5
    digest are foreign code; they enter the model as the oracles of `Backends`. */
module WorkflowService {
  import opened Errors
  import opened Text
  import opened WitRuntime

  type Uuid = nat

  /** The parameters of an upload. */
  datatype NewWorkflowParams = NewWorkflowParams(key: string, displayName: string, description: Option<string>)

  /** What the repository is asked to record. */
  datatype NewWorkflow = NewWorkflow(
    key: string, displayName: string, description: Option<string>,
    wasmMd5: Bytes, wasmSizeBytes: nat, storageUrl: string)

  /** A workflow as the repository and the service answer it; times are opaque instants. */
  datatype Workflow = Workflow(
    id: Uuid, namespaceId: Uuid, key: string, displayName: string, description: Option<string>,
    activeVersion: string, isArchived: bool, createdBy: Uuid, createdAt: int, updatedAt: int)

  /** The repository's insert, the object store's put and the MD5 digest, as oracles. */
  datatype Backends = Backends(
    md5: Bytes -> Bytes,
    insert: (Uuid, Uuid, NewWorkflow) -> Result<Workflow>,
    putObject: (string, string, Bytes) -> Result<()>)

  /** A call the creation makes to the outside: a repository insert, an object-store put of
      `body` under `key` in `bucket`, or a load into the runtime. */
  datatype Step =
    | Insert(userId: Uuid, namespaceId: Uuid, record: NewWorkflow)
    | PutObject(bucket: string, objectKey: string, body: Bytes)
    | LoadPlugin(name: string, bytes: Bytes)

  const Bucket: string := "xarxa-s3"

  /** The object-store key of a workflow's artifact. */
  function ObjectKey(key: string): string { key + ".wasm" }

  /** The magic check of the upload: bytes of four or more must start with `\0asm`; shorter
      ones, the empty artifact included, pass. */
  predicate MagicOk(bytes: Bytes) {
    |bytes| >= 4 ==> bytes[..4] == [0x00, 0x61, 0x73, 0x6D]
  }

  /** The record handed to the repository. */
  function NewWorkflowOf(b: Backends, wp: NewWorkflowParams, bytes: Bytes): (w: NewWorkflow)
    ensures w.key == wp.key && w.displayName == wp.displayName && w.description == wp.description
    ensures w.wasmSizeBytes == |bytes| && w.storageUrl == "" && w.wasmMd5 == b.md5(bytes)
  {
    NewWorkflow(wp.key, wp.displayName, wp.description, b.md5(bytes), |bytes|, "")
  }

  /** What a creation answers, the calls it made, and the registry it leaves. */
  datatype Creation = Creation(result: Result<Workflow>, steps: seq<Step>, plugins: Plugins)

  /** The specification of `WorkflowService::create`. */
  function Create(b: Backends, m: Plugins, e: Engine, userId: Uuid, namespaceId: Uuid,
                  wp: NewWorkflowParams, bytes: Bytes): Creation
  {
    if !MagicOk(bytes) then Creation(Err(Fail("Invalid WASM file format")), [], m)
    else
      var w := NewWorkflowOf(b, wp, bytes);
      var insert := Insert(userId, namespaceId, w);
      match b.insert(userId, namespaceId, w)
      case Err(error) => Creation(Err(error), [insert], m)
      case Ok(record) =>
        var put := PutObject(Bucket, ObjectKey(w.key), bytes);
        match b.putObject(Bucket, ObjectKey(w.key), bytes)
        case Err(error) => Creation(Err(error), [insert, put], m)
        case Ok(_) =>
          var u := Load(m, e, w.key, bytes);
          var steps := [insert, put, LoadPlugin(w.key, bytes)];
          match u.result
          case Err(error) => Creation(Err(error), steps, u.plugins)
          case Ok(_) => Creation(Ok(record.(activeVersion := "")), steps, u.plugins)
  }

  /** Every call a creation can make, in the order it makes them. */
  function AllSteps(b: Backends, userId: Uuid, namespaceId: Uuid, wp: NewWorkflowParams, bytes: Bytes): seq<Step> {
    [Insert(userId, namespaceId, NewWorkflowOf(b, wp, bytes)),
     PutObject(Bucket, ObjectKey(wp.key), bytes),
     LoadPlugin(wp.key, bytes)]
  }

  /** The calls run in the order insert, put, load, and each one that fails skips the rest:
      the calls made are a prefix of all three, and all three are made exactly when the
      first two succeed. A success makes all three. */
  lemma CreateOrdering(b: Backends, m: Plugins, e: Engine, userId: Uuid, namespaceId: Uuid, wp: NewWorkflowParams, bytes: Bytes)
    ensures var c := Create(b, m, e, userId, namespaceId, wp, bytes);
      var all := AllSteps(b, userId, namespaceId, wp, bytes);
      && |c.steps| <= 3 && c.steps == all[..|c.steps|]
      && (c.result.Ok? ==> c.steps == all)
      && (|c.steps| == 3 <==>
            MagicOk(bytes) && b.insert(userId, namespaceId, NewWorkflowOf(b, wp, bytes)).Ok?
            && b.putObject(Bucket, ObjectKey(wp.key), bytes).Ok?)
  {
    var c, all := Create(b, m, e, userId, namespaceId, wp, bytes), AllSteps(b, userId, namespaceId, wp, bytes);
    assert all[..0] == [] && all[..1] == [all[0]] && all[..2] == [all[0], all[1]] && all[..3] == all;
  }

  /** An artifact of four or more bytes with the wrong magic is refused before anything
      is recorded, stored or loaded. */
  lemma BadMagicTouchesNothing(b: Backends, m: Plugins, e: Engine, userId: Uuid, namespaceId: Uuid, wp: NewWorkflowParams, bytes: Bytes)
    requires |bytes| >= 4 && bytes[..4] != [0x00, 0x61, 0x73, 0x6D]
    ensures Create(b, m, e, userId, namespaceId, wp, bytes) == Creation(Err(Fail("Invalid WASM file format")), [], m)
  {
  }

  /** An empty artifact passes the magic check, so it is recorded and stored before the
      runtime refuses it; the registry is left as it was. */
  lemma EmptyArtifactRefusedLate(b: Backends, m: Plugins, e: Engine, userId: Uuid, namespaceId: Uuid, wp: NewWorkflowParams)
    requires b.insert(userId, namespaceId, NewWorkflowOf(b, wp, [])).Ok?
    requires b.putObject(Bucket, ObjectKey(wp.key), []).Ok?
    ensures var c := Create(b, m, e, userId, namespaceId, wp, []);
      && |c.steps| == 3 && c.plugins == m
      && c.result == Err(Fail(if wp.key == "" then "Plugin name cannot be empty"
                              else "WASM bytes cannot be empty for plugin '" + wp.key + "'"))
  {
  }

  /** A successful creation answers the repository's record with no active version, and has
      loaded the artifact under the workflow's key with a fresh counter. */
  lemma CreateSuccess(b: Backends, m: Plugins, e: Engine, userId: Uuid, namespaceId: Uuid, wp: NewWorkflowParams, bytes: Bytes)
    requires Create(b, m, e, userId, namespaceId, wp, bytes).result.Ok?
    ensures var c := Create(b, m, e, userId, namespaceId, wp, bytes);
      var record := b.insert(userId, namespaceId, NewWorkflowOf(b, wp, bytes));
      && record.Ok? && c.result.value == record.value.(activeVersion := "")
      && c.result.value.activeVersion == ""
      && wp.key in c.plugins && c.plugins[wp.key].executionCount == 0
      && c.plugins == Load(m, e, wp.key, bytes).plugins
  {
  }

  /** `WorkflowService`: the backends, the shared runtime, and the log of the calls made to
      the outside, oldest first. */
  class WorkflowCreator {
    const backends: Backends
    const runtime: WitPluginRuntime
    var log: seq<Step>

    constructor (backends: Backends, runtime: WitPluginRuntime)
      ensures this.backends == backends && this.runtime == runtime && log == []
    {
      this.backends := backends;
      this.runtime := runtime;
      log := [];
    }

    /** `WorkflowService::create`. */
    method CreateWorkflow(userId: Uuid, namespaceId: Uuid, wp: NewWorkflowParams, wasmBytes: Bytes)
      returns (r: Result<Workflow>)
      modifies this, runtime
      ensures var c := Create(backends, old(runtime.plugins), runtime.engine, userId, namespaceId, wp, wasmBytes);
        r == c.result && log == old(log) + c.steps && runtime.plugins == c.plugins
    {
      if |wasmBytes| >= 4 {
        var magic := wasmBytes[..4];
        if magic != [0x00, 0x61, 0x73, 0x6D] {
          return Err(Fail("Invalid WASM file format"));
        }
      }
      var hash := backends.md5(wasmBytes);
      var w := NewWorkflow(wp.key, wp.displayName, wp.description, hash, |wasmBytes|, "");
      log := log + [Insert(userId, namespaceId, w)];
      var dbResult := backends.insert(userId, namespaceId, w);
      if dbResult.Err? {
        return Err(dbResult.error);
      }
      var key := w.key + ".wasm";
      var bucket := "xarxa-s3";
      log := log + [PutObject(bucket, key, wasmBytes)];
      var put := backends.putObject(bucket, key, wasmBytes);
      if put.Err? {
        return Err(put.error);
      }
      log := log + [LoadPlugin(w.key, wasmBytes)];
      var loaded := runtime.LoadWitPlugin(w.key, wasmBytes);
      if loaded.Err? {
        return Err(loaded.error);
      }
      var db := dbResult.value;
      var resp := Workflow(db.id, db.namespaceId, db.key, db.displayName, db.description, "",
                           db.isArchived, db.createdBy, db.createdAt, db.updatedAt);
      r := Ok(resp);
    }
  }
}

/** The filesystem auto-loader: it makes sure the plugins directory exists, loads every
    plugin artifact already in it, then turns filesystem notifications about artifacts into
    plugin events and reacts to each in delivery order until shutdown.

    A path is the sequence of its components below the root, already canonical (the watcher
    reports canonical paths and the directory is canonicalized before it is compared). The
    filesystem is a map from path to node; the root always exists and is a directory. */
module PluginAutoLoader {
  import opened Errors
  import opened Text
  import opened WitRuntime

  type Path = seq<string>

  datatype Node = File(content: Bytes) | Directory

  type FileSystem = map<Path, Node>

  /** `Path::exists`. */
  predicate Exists(fs: FileSystem, p: Path) { p == [] || p in fs }

  /** `Path::is_file`. */
  predicate IsFile(fs: FileSystem, p: Path) { p != [] && p in fs && fs[p].File? }

  /** `Metadata::is_dir`. */
  predicate IsDirectory(fs: FileSystem, p: Path) { p == [] || (p in fs && fs[p].Directory?) }

  /** The path as `Path`'s `Debug` shows it, quoted (character escaping is not modelled). */
  function PathDebug(p: Path): string { "\"/" + Join(p, "/") + "\"" }

  /** The operating system's messages for the two ways reading a directory can fail. */
  const NotFoundMessage: string := "No such file or directory (os error 2)"
  const NotADirectoryMessage: string := "Not a directory (os error 20)"

  // ---------------------------------------------------------------------------
  // Path classification

  /** `Path::parent`: every path but the root has one. */
  function Parent(p: Path): (r: Option<Path>)
    ensures r.Some? <==> p != []
    ensures r.Some? ==> p == r.value + [p[|p| - 1]]
  {
    if p == [] then None else Some(p[..|p| - 1])
  }

  /** `Path::file_name`: the last component, unless the path is the root or ends in `..`. */
  function FileName(p: Path): Option<string> {
    if p == [] || p[|p| - 1] == ".." then None else Some(p[|p| - 1])
  }

  /** The position of the last `c` in `s`. */
  function LastIndexOf(s: string, c: char): (r: Option<nat>)
    ensures r.None? <==> forall j :: 0 <= j < |s| ==> s[j] != c
    ensures r.Some? ==> r.value < |s| && s[r.value] == c && forall j :: r.value < j < |s| ==> s[j] != c
  {
    if s == [] then None
    else if s[|s| - 1] == c then Some(|s| - 1)
    else
      var r := LastIndexOf(s[..|s| - 1], c);
      assert forall j :: 0 <= j < |s| - 1 ==> s[..|s| - 1][j] == s[j];
      r
  }

  /** How a file name splits at its last dot into what comes before and after it: `..`, a
      name whose only dot is its first character, and a name without a dot have no "after"
      part (the last one, no "before" part either). */
  function SplitAtLastDot(file: string): (Option<string>, Option<string>) {
    if file == ".." then (Some(file), None)
    else match LastIndexOf(file, '.')
      case None => (None, Some(file))
      case Some(i) => if i == 0 then (Some(file), None) else (Some(file[..i]), Some(file[i + 1..]))
  }

  /** `Path::file_stem`. */
  function FileStem(p: Path): Option<string> {
    match FileName(p)
    case None => None
    case Some(file) =>
      var (before, after) := SplitAtLastDot(file);
      if before.Some? then before else after
  }

  /** `Path::extension`. */
  function Extension(p: Path): Option<string> {
    match FileName(p)
    case None => None
    case Some(file) =>
      var (before, after) := SplitAtLastDot(file);
      if before.Some? then after else None
  }

  /** `extract_workflow_name`: the plugin key of an artifact is its file stem. Every string
      here is valid Unicode, so the conversion to `str` cannot fail. */
  function ExtractWorkflowName(p: Path): string {
    match FileStem(p)
    case Some(stem) => stem
    case None => "unknown"
  }

  /** `is_wasm_file_static`: a regular file whose extension lower-cases to `wasm`. No
      character outside ASCII lower-cases to one of the letters of `wasm`, so ASCII
      lower-casing decides the comparison exactly as Unicode lower-casing does. */
  predicate IsWasmFile(fs: FileSystem, p: Path) {
    IsFile(fs, p) && match Extension(p) case Some(ext) => LowerAscii(ext) == "wasm" case None => false
  }

  /** A name `stem.ext` with no dot in `ext` splits at that dot: the stem keeps its case and
      any earlier dots, and only the last extension goes. */
  lemma StemAndExtension(dir: Path, stem: string, ext: string)
    requires stem != "" && '.' !in ext && !(stem == "." && ext == "")
    ensures FileStem(dir + [stem + "." + ext]) == Some(stem)
    ensures Extension(dir + [stem + "." + ext]) == Some(ext)
    ensures ExtractWorkflowName(dir + [stem + "." + ext]) == stem
  {
    var file := stem + "." + ext;
    var p := dir + [file];
    assert p[|p| - 1] == file;
    assert file[0] == stem[0] && |file| == |stem| + 1 + |ext|;
    assert |stem| == 1 ==> stem == [stem[0]];
    assert file != "..";
    assert file[|stem|] == '.' && file[|stem| + 1..] == ext;
    LastDotAt(file, |stem|);
    assert file[..|stem|] == stem;
  }

  /** The last dot of a string is the dot after which no other dot follows. */
  lemma {:induction false} LastDotAt(s: string, i: nat)
    requires i < |s| && s[i] == '.' && '.' !in s[i + 1..]
    ensures LastIndexOf(s, '.') == Some(i)
    decreases |s|
  {
    if i < |s| - 1 {
      assert s[..|s| - 1][i + 1..] == s[i + 1..|s| - 1];
      assert s[i + 1..] == s[i + 1..|s| - 1] + [s[|s| - 1]];
      LastDotAt(s[..|s| - 1], i);
    }
  }

  /** A name without a dot is its own stem and has no extension. */
  lemma WithoutDot(dir: Path, file: string)
    requires file != "" && '.' !in file
    ensures FileStem(dir + [file]) == Some(file) && Extension(dir + [file]) == None
    ensures ExtractWorkflowName(dir + [file]) == file
  {
    var p := dir + [file];
    assert p[|p| - 1] == file;
    assert file != ".." by { assert ".."[0] == '.'; }
  }

  /** A name whose only dot is its first character, such as `.wasm`, has no extension,
      so it is never an artifact. */
  lemma HiddenFileIsNotWasm(fs: FileSystem, dir: Path, rest: string)
    requires '.' !in rest
    ensures Extension(dir + ["." + rest]) == None
    ensures ExtractWorkflowName(dir + ["." + rest]) == "." + rest
    ensures !IsWasmFile(fs, dir + ["." + rest])
  {
    var file := "." + rest;
    var p := dir + [file];
    assert p[|p| - 1] == file;
    assert file[1..] == rest;
    LastDotAt(file, 0);
  }

  /** The root and a path ending in `..` have no file name, and so the key `unknown`. */
  lemma NoFileNameIsUnknown(p: Path)
    requires p == [] || p[|p| - 1] == ".."
    ensures ExtractWorkflowName(p) == "unknown"
  {
  }

  /** An artifact is exactly a regular file named `stem.ext` whose `ext` lower-cases to `wasm`. */
  lemma IsWasmFileIff(fs: FileSystem, dir: Path, stem: string, ext: string)
    requires stem != "" && '.' !in ext && !(stem == "." && ext == "")
    ensures IsWasmFile(fs, dir + [stem + "." + ext]) <==> IsFile(fs, dir + [stem + "." + ext]) && LowerAscii(ext) == "wasm"
  {
    StemAndExtension(dir, stem, ext);
  }

  // ---------------------------------------------------------------------------
  // Translating notifications into plugin events

  datatype RawKind = Create | Modify | Remove | OtherKind

  /** A notification: its kind and the paths it concerns, in the order given. */
  datatype RawEvent = RawEvent(kind: RawKind, paths: seq<Path>)

  datatype PluginEvent = Added(path: Path) | Modified(path: Path) | Removed(path: Path)

  /** Whether a path concerns the watcher: an artifact directly inside the watched directory. */
  predicate IsWatchedArtifact(dir: Path, fs: FileSystem, p: Path) {
    Parent(p) == Some(dir) && IsWasmFile(fs, p)
  }

  /** The plugin event a notification kind produces for a path. */
  function Tag(kind: RawKind, p: Path): PluginEvent
    requires kind != OtherKind
  {
    match kind
    case Create => Added(p)
    case Modify => Modified(p)
    case Remove => Removed(p)
  }

  /** The context of a failed send, naming the event kind. */
  function SendContext(kind: RawKind): string {
    match kind
    case Create => "Failed to send Added event"
    case Modify => "Failed to send Modified event"
    case _ => "Failed to send Removed event"
  }

  /** The events `handle_fs_event` sends for a notification, against the filesystem as it
      is when the notification arrives. */
  function Translate(kind: RawKind, paths: seq<Path>, dir: Path, fs: FileSystem): seq<PluginEvent> {
    if kind == OtherKind || paths == [] then []
    else
      var last := paths[|paths| - 1];
      Translate(kind, paths[..|paths| - 1], dir, fs) + (if IsWatchedArtifact(dir, fs, last) then [Tag(kind, last)] else [])
  }

  /** Translation works path by path: the events for two lists of paths are the events for
      the first followed by those for the second. */
  lemma {:induction false} TranslateAppend(kind: RawKind, a: seq<Path>, b: seq<Path>, dir: Path, fs: FileSystem)
    ensures Translate(kind, a + b, dir, fs) == Translate(kind, a, dir, fs) + Translate(kind, b, dir, fs)
    decreases |b|
  {
    if kind != OtherKind {
      if b == [] {
        assert a + b == a;
      } else {
        assert (a + b)[..|a + b| - 1] == a + b[..|b| - 1];
        TranslateAppend(kind, a, b[..|b| - 1], dir, fs);
      }
    }
  }

  /** One more path adds that path's event, if any. */
  lemma TranslateStep(kind: RawKind, paths: seq<Path>, i: nat, dir: Path, fs: FileSystem)
    requires i < |paths|
    ensures Translate(kind, paths[..i + 1], dir, fs)
         == Translate(kind, paths[..i], dir, fs)
          + (if kind != OtherKind && IsWatchedArtifact(dir, fs, paths[i]) then [Tag(kind, paths[i])] else [])
  {
    assert paths[..i + 1][..i] == paths[..i];
  }

  /** A notification with an artifact of the watched directory among its paths sends something. */
  lemma TranslateNonEmpty(kind: RawKind, paths: seq<Path>, i: nat, dir: Path, fs: FileSystem)
    requires kind != OtherKind && i < |paths| && IsWatchedArtifact(dir, fs, paths[i])
    ensures Translate(kind, paths, dir, fs) != []
  {
    TranslateStep(kind, paths, i, dir, fs);
    TranslateAppend(kind, paths[..i + 1], paths[i + 1..], dir, fs);
    assert paths[..i + 1] + paths[i + 1..] == paths;
  }

  /** Every event sent is of the notification's kind and names a path that is an artifact
      directly inside the watched directory; other notification kinds send nothing. */
  lemma {:induction false} TranslateSound(kind: RawKind, paths: seq<Path>, dir: Path, fs: FileSystem)
    ensures kind == OtherKind ==> Translate(kind, paths, dir, fs) == []
    ensures |Translate(kind, paths, dir, fs)| <= |paths|
    ensures forall j :: 0 <= j < |Translate(kind, paths, dir, fs)| ==>
      kind != OtherKind
      && Translate(kind, paths, dir, fs)[j] == Tag(kind, Translate(kind, paths, dir, fs)[j].path)
      && Translate(kind, paths, dir, fs)[j].path in paths
      && IsWatchedArtifact(dir, fs, Translate(kind, paths, dir, fs)[j].path)
  {
    if kind != OtherKind && paths != [] {
      var front := paths[..|paths| - 1];
      TranslateSound(kind, front, dir, fs);
      assert forall p :: p in front ==> p in paths;
    }
  }

  /** A notification about one artifact of the watched directory sends exactly its event. */
  lemma TranslateOne(kind: RawKind, p: Path, dir: Path, fs: FileSystem)
    requires kind != OtherKind && IsWatchedArtifact(dir, fs, p)
    ensures Translate(kind, [p], dir, fs) == [Tag(kind, p)]
  {
    assert [p][..0] == [];
  }

  /** A path that is no longer there is not a regular file, so it sends nothing: a removal
      notification for a deleted artifact never becomes a `Removed` event. */
  lemma {:induction false} VanishedPathsSendNothing(kind: RawKind, paths: seq<Path>, dir: Path, fs: FileSystem)
    requires forall i :: 0 <= i < |paths| ==> paths[i] !in fs
    ensures Translate(kind, paths, dir, fs) == []
  {
    if kind != OtherKind && paths != [] {
      VanishedPathsSendNothing(kind, paths[..|paths| - 1], dir, fs);
    }
  }

  /** The unbounded channel between the watcher and the consumer: the events sent and not
      yet received, in order, and whether the receiving end still exists. */
  class EventChannel {
    var queue: seq<PluginEvent>
    var receiverOpen: bool

    constructor ()
      ensures queue == [] && receiverOpen
    {
      queue := [];
      receiverOpen := true;
    }

    /** `UnboundedSender::send`: fails only once the receiver is gone. */
    method Send(event: PluginEvent) returns (r: Result<()>)
      modifies this
      ensures receiverOpen == old(receiverOpen)
      ensures old(receiverOpen) ==> r == Ok(()) && queue == old(queue) + [event]
      ensures !old(receiverOpen) ==> r == Err(Fail("channel closed")) && queue == old(queue)
    {
      if receiverOpen {
        queue := queue + [event];
        r := Ok(());
      } else {
        r := Err(Fail("channel closed"));
      }
    }

    /** `UnboundedReceiver::recv` over the events sent so far: the oldest event, or nothing
      once all of them have been received. */
    method Recv() returns (event: Option<PluginEvent>)
      modifies this
      ensures receiverOpen == old(receiverOpen)
      ensures old(queue) == [] ==> event == None && queue == []
      ensures old(queue) != [] ==> event == Some(old(queue)[0]) && queue == old(queue)[1..]
    {
      if queue == [] {
        event := None;
      } else {
        event := Some(queue[0]);
        queue := queue[1..];
      }
    }
  }

  /** `handle_fs_event`: sends, path by path, the event of every artifact the notification
      concerns. The first failed send ends the notification with that error, and the
      remaining paths are not looked at. */
  method HandleFsEvent(event: RawEvent, tx: EventChannel, pluginsDir: Path, fs: FileSystem) returns (r: Result<()>)
    modifies tx
    ensures tx.receiverOpen == old(tx.receiverOpen)
    ensures old(tx.receiverOpen) ==> r == Ok(()) && tx.queue == old(tx.queue) + Translate(event.kind, event.paths, pluginsDir, fs)
    ensures !old(tx.receiverOpen) ==> tx.queue == old(tx.queue)
    ensures !old(tx.receiverOpen) ==>
      r == if Translate(event.kind, event.paths, pluginsDir, fs) == [] then Ok(())
           else Err(Context(Fail("channel closed"), SendContext(event.kind)))
  {
    if event.kind == OtherKind {
      return Ok(());
    }
    var paths := event.paths;
    var i := 0;
    while i < |paths|
      invariant 0 <= i <= |paths|
      invariant tx.receiverOpen == old(tx.receiverOpen)
      invariant tx.receiverOpen ==> tx.queue == old(tx.queue) + Translate(event.kind, paths[..i], pluginsDir, fs)
      invariant !tx.receiverOpen ==> tx.queue == old(tx.queue) && Translate(event.kind, paths[..i], pluginsDir, fs) == []
    {
      var path := paths[i];
      TranslateStep(event.kind, paths, i, pluginsDir, fs);
      if Parent(path) == Some(pluginsDir) && IsWasmFile(fs, path) {
        var sent := tx.Send(Tag(event.kind, path));
        if sent.Err? {
          TranslateNonEmpty(event.kind, paths, i, pluginsDir, fs);
          return Err(Context(sent.error, SendContext(event.kind)));
        }
      }
      i := i + 1;
    }
    assert paths[..|paths|] == paths;
    r := Ok(());
  }

  // ---------------------------------------------------------------------------
  // Loading one artifact

  /** The binary module magic, `\0asm` (section 5.5.16 of the WebAssembly Core Specification). */
  const WasmMagic: Bytes := [0x00, 0x61, 0x73, 0x6D]

  lemma WasmMagicIsNulAsm()
    ensures Utf8("\0asm") == WasmMagic
  {
    assert "\0asm"[1..] == "asm" && "asm"[1..] == "sm" && "sm"[1..] == "m" && "m"[1..] == "";
  }

  /** The loader's checks on an artifact's bytes: not empty, and the magic in front when there
      are at least four bytes (shorter files pass). */
  predicate PassesChecks(bytes: Bytes) {
    bytes != [] && (|bytes| >= 4 ==> bytes[..4] == WasmMagic)
  }

  /** Why an artifact was not loaded. The messages only go to the log, so the model keeps the
      failed step; a refusal by the registry keeps its error under the loader's context. */
  datatype LoadFailure = ReadFailed | EmptyFile | BadMagic | Rejected(error: Error)

  datatype Outcome = Loaded | NotLoaded(failure: LoadFailure)

  datatype LoadUpdate = LoadUpdate(outcome: Outcome, plugins: Plugins)

  /** The specification of `load_plugin_static`: read, check, then load under the stem. */
  function StaticLoad(m: Plugins, e: Engine, path: Path, fs: FileSystem): LoadUpdate {
    var name := ExtractWorkflowName(path);
    if !IsFile(fs, path) then LoadUpdate(NotLoaded(ReadFailed), m)
    else
      var bytes := fs[path].content;
      if bytes == [] then LoadUpdate(NotLoaded(EmptyFile), m)
      else if |bytes| >= 4 && bytes[..4] != WasmMagic then LoadUpdate(NotLoaded(BadMagic), m)
      else
        var u := Load(m, e, name, bytes);
        if u.result.Ok? then LoadUpdate(Loaded, u.plugins)
        else LoadUpdate(NotLoaded(Rejected(Context(u.result.error,
               "Failed to load plugin '" + name + "' from " + PathDebug(path)))), u.plugins)
  }

  /** An artifact that cannot be read or fails the checks never reaches the registry; one
      that passes them is loaded under its stem exactly as the registry's load would, and it
      is reported loaded exactly when that load succeeds. */
  lemma StaticLoadSpec(m: Plugins, e: Engine, path: Path, fs: FileSystem)
    ensures !IsFile(fs, path) ==> StaticLoad(m, e, path, fs) == LoadUpdate(NotLoaded(ReadFailed), m)
    ensures IsFile(fs, path) && !PassesChecks(fs[path].content) ==>
      StaticLoad(m, e, path, fs).plugins == m && StaticLoad(m, e, path, fs).outcome.NotLoaded?
    ensures IsFile(fs, path) && PassesChecks(fs[path].content) ==>
      var u := Load(m, e, ExtractWorkflowName(path), fs[path].content);
      StaticLoad(m, e, path, fs).plugins == u.plugins
      && (StaticLoad(m, e, path, fs).outcome == Loaded <==> u.result.Ok?)
  {
  }

  /** Files of one to three bytes pass the checks, whatever they hold. */
  lemma ShortFilesPass(bytes: Bytes)
    requires 1 <= |bytes| < 4
    ensures PassesChecks(bytes)
  {
  }

  /** `load_plugin_static`, on the shared registry. */
  method LoadPluginStatic(runtime: WitPluginRuntime, path: Path, fs: FileSystem) returns (outcome: Outcome)
    modifies runtime
    ensures LoadUpdate(outcome, runtime.plugins) == StaticLoad(old(runtime.plugins), runtime.engine, path, fs)
  {
    var pluginName := ExtractWorkflowName(path);
    if !IsFile(fs, path) {
      return NotLoaded(ReadFailed);
    }
    var wasmBytes := fs[path].content;
    if wasmBytes == [] {
      return NotLoaded(EmptyFile);
    }
    if |wasmBytes| >= 4 {
      if wasmBytes[..4] != WasmMagic {
        return NotLoaded(BadMagic);
      }
    }
    var loaded := runtime.LoadWitPlugin(pluginName, wasmBytes);
    if loaded.Err? {
      return NotLoaded(Rejected(Context(loaded.error, "Failed to load plugin '" + pluginName + "' from " + PathDebug(path))));
    }
    outcome := Loaded;
  }

  // ---------------------------------------------------------------------------
  // Reacting to one plugin event

  /** The specification of `process_plugin_event`, given the filesystem as it is after the
      settling delay: an added or modified artifact that is gone is dropped, any other is
      loaded (a failure only logged), and a removal changes nothing. */
  function React(m: Plugins, e: Engine, event: PluginEvent, fs: FileSystem): Plugins {
    match event
    case Added(p) => if !Exists(fs, p) then m else StaticLoad(m, e, p, fs).plugins
    case Modified(p) => if !Exists(fs, p) then m else StaticLoad(m, e, p, fs).plugins
    case Removed(_) => m
  }

  /** `process_plugin_event`: always succeeds. */
  method ProcessPluginEvent(runtime: WitPluginRuntime, event: PluginEvent, fs: FileSystem) returns (r: Result<()>)
    modifies runtime
    ensures r == Ok(())
    ensures runtime.plugins == React(old(runtime.plugins), runtime.engine, event, fs)
  {
    match event {
      case Added(path) =>
        if !Exists(fs, path) {
          return Ok(());
        }
        var _ := LoadPluginStatic(runtime, path, fs);
      case Modified(path) =>
        if !Exists(fs, path) {
          return Ok(());
        }
        var _ := LoadPluginStatic(runtime, path, fs);
      case Removed(_) =>
    }
    r := Ok(());
  }

  /** An event changes at most the entry keyed by its path's stem, and never removes a key. */
  lemma ReactTouchesOnlyItsStem(m: Plugins, e: Engine, event: PluginEvent, fs: FileSystem)
    ensures OthersUnchanged(m, React(m, e, event, fs), ExtractWorkflowName(event.path))
    ensures m.Keys <= React(m, e, event, fs).Keys
  {
    var name := ExtractWorkflowName(event.path);
    if !event.Removed? && Exists(fs, event.path) && IsFile(fs, event.path) {
      var bytes := fs[event.path].content;
      if PassesChecks(bytes) {
        var u := Load(m, e, name, bytes);
        assert u.result.Ok? ==> name in u.plugins;
      }
    }
  }

  /** A removal, an event for a file that vanished, and an artifact that fails the checks
      all leave the registry as it was. */
  lemma ReactLeavesUnchanged(m: Plugins, e: Engine, event: PluginEvent, fs: FileSystem)
    requires event.Removed? || !Exists(fs, event.path) || (IsFile(fs, event.path) && !PassesChecks(fs[event.path].content))
    ensures React(m, e, event, fs) == m
  {
    if !event.Removed? && Exists(fs, event.path) {
      StaticLoadSpec(m, e, event.path, fs);
    }
  }

  // ---------------------------------------------------------------------------
  // Loading what is already there

  /** The registry and the two counters of the bulk load. */
  datatype Tally = Tally(plugins: Plugins, loaded: nat, failed: nat)

  /** The specification of the loop of `load_existing_plugins`, over the directory's entries
      in the order the listing yields them. */
  function BulkLoad(start: Tally, e: Engine, fs: FileSystem, entries: seq<Path>): Tally {
    if entries == [] then start
    else
      var before := BulkLoad(start, e, fs, entries[..|entries| - 1]);
      var path := entries[|entries| - 1];
      if !IsWasmFile(fs, path) then before
      else
        var u := StaticLoad(before.plugins, e, path, fs);
        if u.outcome.Loaded? then Tally(u.plugins, before.loaded + 1, before.failed)
        else Tally(u.plugins, before.loaded, before.failed + 1)
  }

  /** The number of entries that are artifacts. */
  function CountWasm(fs: FileSystem, entries: seq<Path>): nat {
    if entries == [] then 0
    else CountWasm(fs, entries[..|entries| - 1]) + (if IsWasmFile(fs, entries[|entries| - 1]) then 1 else 0)
  }

  /** `entries` is a listing of `dir`: each path directly inside it, once, in any order. */
  predicate IsListing(entries: seq<Path>, fs: FileSystem, dir: Path) {
    && (forall p :: p in entries ==> p in fs && Parent(p) == Some(dir))
    && (forall p :: p in fs && Parent(p) == Some(dir) ==> p in entries)
    && (forall i, j :: 0 <= i < j < |entries| ==> entries[i] != entries[j])
  }

  /** The artifacts directly inside `dir`. */
  ghost function ArtifactsIn(fs: FileSystem, dir: Path): set<Path> {
    set p | p in fs && Parent(p) == Some(dir) && IsWasmFile(fs, p)
  }

  /** Over a listing without repeats, counting artifacts is counting the set of them. */
  lemma {:induction false} CountWasmDistinct(fs: FileSystem, entries: seq<Path>)
    requires forall i, j :: 0 <= i < j < |entries| ==> entries[i] != entries[j]
    ensures CountWasm(fs, entries) == |set p | p in entries && IsWasmFile(fs, p)|
  {
    if entries != [] {
      var front, last := entries[..|entries| - 1], entries[|entries| - 1];
      CountWasmDistinct(fs, front);
      var before := set p | p in front && IsWasmFile(fs, p);
      var after := set p | p in entries && IsWasmFile(fs, p);
      assert last !in front by {
        forall i | 0 <= i < |front| ensures front[i] != last {
          assert front[i] == entries[i];
        }
      }
      assert entries == front + [last];
      if IsWasmFile(fs, last) {
        assert after == before + {last};
      } else {
        assert after == before;
      }
    }
  }

  /** Every artifact is attempted and counted once, as loaded or as failed; nothing else is. */
  lemma {:induction false} BulkLoadCounts(start: Tally, e: Engine, fs: FileSystem, entries: seq<Path>)
    ensures BulkLoad(start, e, fs, entries).loaded + BulkLoad(start, e, fs, entries).failed
         == start.loaded + start.failed + CountWasm(fs, entries)
    ensures BulkLoad(start, e, fs, entries).loaded >= start.loaded
  {
    if entries != [] {
      BulkLoadCounts(start, e, fs, entries[..|entries| - 1]);
    }
  }

  /** The bulk load goes on after any entry, failed or not: loading a listing in two parts
      is loading the first part and then, from where it left off, the second. */
  lemma {:induction false} BulkLoadAppend(start: Tally, e: Engine, fs: FileSystem, a: seq<Path>, b: seq<Path>)
    ensures BulkLoad(start, e, fs, a + b) == BulkLoad(BulkLoad(start, e, fs, a), e, fs, b)
    decreases |b|
  {
    if b == [] {
      assert a + b == a;
    } else {
      assert (a + b)[..|a + b| - 1] == a + b[..|b| - 1];
      BulkLoadAppend(start, e, fs, a, b[..|b| - 1]);
    }
  }

  /** Entries that are not artifacts are skipped: they change neither the registry nor the counters. */
  lemma {:induction false} BulkLoadSkips(start: Tally, e: Engine, fs: FileSystem, entries: seq<Path>)
    requires forall i :: 0 <= i < |entries| ==> !IsWasmFile(fs, entries[i])
    ensures BulkLoad(start, e, fs, entries) == start
  {
    if entries != [] {
      BulkLoadSkips(start, e, fs, entries[..|entries| - 1]);
    }
  }

  /** `load_existing_plugins`. An unreadable directory is an error; otherwise every entry of
      the listing `entries` is looked at, and the outcome is only counted. */
  method LoadExistingPlugins(runtime: WitPluginRuntime, dir: Path, fs: FileSystem, entries: seq<Path>)
    returns (r: Result<()>, loadedCount: nat, failedCount: nat)
    requires IsListing(entries, fs, dir)
    modifies runtime
    ensures !IsDirectory(fs, dir) ==>
      && runtime.plugins == old(runtime.plugins)
      && r == Err(Context(Fail(if Exists(fs, dir) then NotADirectoryMessage else NotFoundMessage),
                          "Failed to read plugins directory: " + PathDebug(dir)))
    ensures IsDirectory(fs, dir) ==>
      && r == Ok(())
      && Tally(runtime.plugins, loadedCount, failedCount) == BulkLoad(Tally(old(runtime.plugins), 0, 0), runtime.engine, fs, entries)
      && loadedCount + failedCount == CountWasm(fs, entries)
      && loadedCount + failedCount == |ArtifactsIn(fs, dir)|
  {
    loadedCount, failedCount := 0, 0;
    if !IsDirectory(fs, dir) {
      var cause := if Exists(fs, dir) then NotADirectoryMessage else NotFoundMessage;
      return Err(Context(Fail(cause), "Failed to read plugins directory: " + PathDebug(dir))), 0, 0;
    }
    ghost var start := Tally(runtime.plugins, 0, 0);
    var i := 0;
    while i < |entries|
      invariant 0 <= i <= |entries|
      invariant Tally(runtime.plugins, loadedCount, failedCount) == BulkLoad(start, runtime.engine, fs, entries[..i])
    {
      var path := entries[i];
      assert entries[..i + 1][..i] == entries[..i] && entries[..i + 1][i] == path;
      if IsWasmFile(fs, path) {
        var outcome := LoadPluginStatic(runtime, path, fs);
        match outcome {
          case Loaded => loadedCount := loadedCount + 1;
          case NotLoaded(_) => failedCount := failedCount + 1;
        }
      }
      i := i + 1;
    }
    assert entries[..|entries|] == entries;
    BulkLoadCounts(start, runtime.engine, fs, entries);
    CountWasmDistinct(fs, entries);
    assert (set p | p in entries && IsWasmFile(fs, p)) == ArtifactsIn(fs, dir);
    r := Ok(());
  }

  // ---------------------------------------------------------------------------
  // The plugins directory

  /** Every component of the path, and the path itself, is a directory or missing. */
  predicate NoFileOnPath(fs: FileSystem, p: Path) {
    forall i :: 1 <= i <= |p| ==> !IsFile(fs, p[..i])
  }

  /** `create_dir_all`: creates each missing component in turn; a component that is a
      regular file makes it fail. When the last component itself is a regular file the
      platform reports "already exists" rather than "not a directory"; `EnsureDirectory`
      calls this only for a missing path, so it never meets that case. */
  function CreateDirAll(fs: FileSystem, p: Path): Result<FileSystem> {
    if p == [] then Ok(fs)
    else match CreateDirAll(fs, p[..|p| - 1])
      case Err(error) => Err(error)
      case Ok(created) =>
        if p !in created then Ok(created[p := Directory])
        else if created[p].Directory? then Ok(created)
        else Err(Fail(NotADirectoryMessage))
  }

  /** `create_dir_all` succeeds exactly when no component of the path is a regular file, and
      then it adds directories for the missing components and changes nothing else. */
  lemma {:induction false} CreateDirAllSpec(fs: FileSystem, p: Path)
    ensures CreateDirAll(fs, p).Ok? <==> NoFileOnPath(fs, p)
    ensures CreateDirAll(fs, p).Err? ==> CreateDirAll(fs, p).error == Fail(NotADirectoryMessage)
    ensures CreateDirAll(fs, p).Ok? ==>
      var created := CreateDirAll(fs, p).value;
      && (forall q :: q in fs ==> q in created && created[q] == fs[q])
      && (forall i :: 0 <= i <= |p| ==> IsDirectory(created, p[..i]))
      && (forall q :: q in created && q !in fs ==> created[q] == Directory && exists i :: 1 <= i <= |p| && q == p[..i])
    decreases |p|
  {
    if p != [] {
      var front := p[..|p| - 1];
      CreateDirAllSpec(fs, front);
      assert forall i :: 1 <= i <= |front| ==> front[..i] == p[..i];
      assert p[..|p|] == p;
      if CreateDirAll(fs, front).Ok? {
        var created := CreateDirAll(fs, front).value;
        assert forall i :: 0 <= i <= |front| ==> IsDirectory(created, p[..i]);
        assert forall i :: 1 <= i <= |front| ==> front[..i] != p;
      }
      if NoFileOnPath(fs, p) {
        assert NoFileOnPath(fs, front);
      }
    }
  }

  /** `ensure_plugins_directory`: creates the directory when missing, then insists that the
      path is a directory. */
  function EnsureDirectory(fs: FileSystem, dir: Path): (r: Result<FileSystem>)
    ensures IsFile(fs, dir) ==> r == Err(Fail("Plugins path is not a directory: " + PathDebug(dir)))
    ensures IsDirectory(fs, dir) ==> r == Ok(fs)
    ensures !Exists(fs, dir) ==> (r.Ok? <==> NoFileOnPath(fs, dir))
    ensures !Exists(fs, dir) && r.Err? ==>
      r == Err(Context(Fail(NotADirectoryMessage), "Failed to create plugins directory: " + PathDebug(dir)))
    ensures r.Ok? ==> IsDirectory(r.value, dir) && forall q :: q in fs ==> q in r.value && r.value[q] == fs[q]
  {
    CreateDirAllSpec(fs, dir);
    assert dir[..|dir|] == dir;
    var created :=
      if Exists(fs, dir) then Ok(fs)
      else match CreateDirAll(fs, dir)
        case Err(error) => Err(Context(error, "Failed to create plugins directory: " + PathDebug(dir)))
        case Ok(created) => Ok(created);
    match created
    case Err(error) => Err(error)
    case Ok(fs') =>
      if !IsDirectory(fs', dir) then Err(Fail("Plugins path is not a directory: " + PathDebug(dir)))
      else Ok(fs')
  }

  // ---------------------------------------------------------------------------
  // The consumer loop and start-up

  /** How many events the consumer handles: all of them, unless shutdown wins the race after
      `n` of them. */
  function Handled(available: nat, shutdownAt: Option<nat>): (n: nat)
    ensures n <= available
    ensures shutdownAt.None? ==> n == available
    ensures shutdownAt.Some? ==> n <= shutdownAt.value
    ensures n < available ==> shutdownAt == Some(n)
  {
    match shutdownAt
    case None => available
    case Some(k) => if k < available then k else available
  }

  /** The registry after reacting to `events` one at a time, in order; the `i`-th event sees
      the filesystem `fsAt(i)`. */
  function FoldEvents(m: Plugins, e: Engine, events: seq<PluginEvent>, fsAt: nat -> FileSystem): Plugins {
    if events == [] then m
    else React(FoldEvents(m, e, events[..|events| - 1], fsAt), e, events[|events| - 1], fsAt(|events| - 1))
  }

  /** Removals alone never change the registry. */
  lemma {:induction false} RemovalsChangeNothing(m: Plugins, e: Engine, events: seq<PluginEvent>, fsAt: nat -> FileSystem)
    requires forall i :: 0 <= i < |events| ==> events[i].Removed?
    ensures FoldEvents(m, e, events, fsAt) == m
  {
    if events != [] {
      RemovalsChangeNothing(m, e, events[..|events| - 1], fsAt);
    }
  }

  /** Reacting to events never removes a key, and a key that is no event's stem keeps its
      entry. */
  lemma {:induction false} FoldTouchesOnlyStems(m: Plugins, e: Engine, events: seq<PluginEvent>, fsAt: nat -> FileSystem, key: string)
    requires forall i :: 0 <= i < |events| ==> ExtractWorkflowName(events[i].path) != key
    ensures m.Keys <= FoldEvents(m, e, events, fsAt).Keys
    ensures key in FoldEvents(m, e, events, fsAt) <==> key in m
    ensures key in m ==> FoldEvents(m, e, events, fsAt)[key] == m[key]
  {
    if events != [] {
      var front := events[..|events| - 1];
      FoldTouchesOnlyStems(m, e, front, fsAt, key);
      ReactTouchesOnlyItsStem(FoldEvents(m, e, front, fsAt), e, events[|events| - 1], fsAt(|events| - 1));
    }
  }

  /** The consumer loop of `start_file_watcher`: receives events in order and reacts to each,
      until shutdown or until the queued events run out. */
  method ProcessEvents(rx: EventChannel, runtime: WitPluginRuntime, shutdownAt: Option<nat>, fsAt: nat -> FileSystem)
    returns (handled: nat)
    modifies rx, runtime
    ensures handled == Handled(|old(rx.queue)|, shutdownAt)
    ensures rx.queue == old(rx.queue)[handled..]
    ensures runtime.plugins == FoldEvents(old(runtime.plugins), runtime.engine, old(rx.queue)[..handled], fsAt)
  {
    ghost var events := rx.queue;
    handled := 0;
    while true
      invariant handled <= |events|
      invariant rx.queue == events[handled..]
      invariant runtime.plugins == FoldEvents(old(runtime.plugins), runtime.engine, events[..handled], fsAt)
      invariant shutdownAt.Some? ==> handled <= shutdownAt.value
      decreases |events| - handled
    {
      if shutdownAt == Some(handled) {
        break;
      }
      var event := rx.Recv();
      if event.None? {
        break;
      }
      assert events[..handled + 1][..handled] == events[..handled] && events[..handled + 1][handled] == event.value;
      var _ := ProcessPluginEvent(runtime, event.value, fsAt(handled));
      handled := handled + 1;
    }
  }

  /** A notification from the watcher, with the filesystem as it is when it arrives. */
  datatype Notification = Notification(event: RawEvent, fs: FileSystem)

  /** The events the watcher sends for a series of notifications. */
  function Delivered(notes: seq<Notification>, dir: Path): seq<PluginEvent> {
    if notes == [] then []
    else
      var last := notes[|notes| - 1];
      Delivered(notes[..|notes| - 1], dir) + Translate(last.event.kind, last.event.paths, dir, last.fs)
  }

  /** `PluginAutoLoader`: the shared registry, the directory it watches and whether a
      watcher is installed. */
  class AutoLoader {
    const runtime: WitPluginRuntime
    const pluginsDir: Path
    var watching: bool

    constructor (runtime: WitPluginRuntime, pluginsDir: Path)
      ensures this.runtime == runtime && this.pluginsDir == pluginsDir && !watching
    {
      this.runtime := runtime;
      this.pluginsDir := pluginsDir;
      watching := false;
    }

    /** `start`: ensure the directory, load what it holds, then watch, stopping at the first
        failing step. `entries` is the directory's listing, `watchFailure` the failure, if any,
        of installing the watcher, `notes` what the watcher reports, and the consumer handles
        the events until shutdown (`shutdownAt`) or until they run out. */
    method Start(fs: FileSystem, entries: seq<Path>, watchFailure: Option<Error>, notes: seq<Notification>,
                 shutdownAt: Option<nat>, fsAt: nat -> FileSystem)
      returns (r: Result<()>, fs': FileSystem)
      requires EnsureDirectory(fs, pluginsDir).Ok? ==> IsListing(entries, EnsureDirectory(fs, pluginsDir).value, pluginsDir)
      modifies this, runtime
      ensures EnsureDirectory(fs, pluginsDir).Err? ==>
        r == Err(EnsureDirectory(fs, pluginsDir).error) && fs' == fs
        && runtime.plugins == old(runtime.plugins) && watching == old(watching)
      ensures EnsureDirectory(fs, pluginsDir).Ok? ==> fs' == EnsureDirectory(fs, pluginsDir).value
      ensures EnsureDirectory(fs, pluginsDir).Ok? && watchFailure.Some? ==>
        && r == Err(watchFailure.value) && watching == old(watching)
        && runtime.plugins == BulkLoad(Tally(old(runtime.plugins), 0, 0), runtime.engine, fs', entries).plugins
      ensures EnsureDirectory(fs, pluginsDir).Ok? && watchFailure.None? ==>
        var bulk := BulkLoad(Tally(old(runtime.plugins), 0, 0), runtime.engine, fs', entries).plugins;
        var events := Delivered(notes, pluginsDir);
        && r == Ok(()) && watching
        && runtime.plugins == FoldEvents(bulk, runtime.engine, events[..Handled(|events|, shutdownAt)], fsAt)
    {
      var ensured := EnsureDirectory(fs, pluginsDir);
      if ensured.Err? {
        return Err(ensured.error), fs;
      }
      fs' := ensured.value;
      var loaded, _, _ := LoadExistingPlugins(runtime, pluginsDir, fs', entries);
      // The directory exists now, so reading it cannot fail.
      assert loaded == Ok(());
      if watchFailure.Some? {
        return Err(watchFailure.value), fs';
      }
      var channel := new EventChannel();
      watching := true;
      var i := 0;
      while i < |notes|
        invariant 0 <= i <= |notes|
        invariant channel.receiverOpen && channel.queue == Delivered(notes[..i], pluginsDir)
        modifies channel
      {
        assert notes[..i + 1][..i] == notes[..i] && notes[..i + 1][i] == notes[i];
        var _ := HandleFsEvent(notes[i].event, channel, pluginsDir, notes[i].fs);
        i := i + 1;
      }
      assert notes[..|notes|] == notes;
      var _ := ProcessEvents(channel, runtime, shutdownAt, fsAt);
      r := Ok(());
    }
  }
}

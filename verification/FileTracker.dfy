/**
 The file change tracker: one recording window per tool call remembers what each hinted path
 looked like when it was first seen, and `FinishRecording` compares that with the disk.

 The file system is a map that anybody may change between two calls. A Rust `String` is a valid
 UTF-8 byte sequence, so texts are byte sequences and `isUtf8` says which of them can be read.
 */
module FileTracker {
  import opened Options

  type Bytes = seq<bv8>
  type Path = string
  type CallId = string

  const MAX_DIFF_FILE_SIZE: nat := 512 * 1024
  const MAX_CANDIDATES_PER_TOOL: nat := 64
  const SKIP_DIRS: seq<string> := [".git", "target", "node_modules", ".kodex"]

  datatype Node = Absent | Directory | File(mtime: int, bytes: Bytes)
  type FileSystem = map<Path, Node>

  function At(fs: FileSystem, path: Path): Node {
    if path in fs then fs[path] else Absent
  }

  /** What the tracker takes from libraries: path normalisation, the workspace boundary test,
      UTF-8 validity and the 64-bit content hash. */
  datatype Env = Env(
    normalize: string -> Path,
    inside: Path -> bool,
    isUtf8: Bytes -> bool,
    hash: Bytes -> int)

  datatype FileMeta = FileMeta(mtime: int, len: nat, fingerprint: int)

  datatype Window = Window(
    baseline: map<Path, FileMeta>,
    baselineText: map<Path, Bytes>,
    missingAtStart: set<Path>,
    candidates: seq<Path>)

  datatype ChangeType = Created | Modified | Deleted
  datatype DiffQuality = Exact | LargeFileSkipped | BinarySkipped | MissingBaseline

  datatype VerifiedFileChange = VerifiedFileChange(
    path: Path,
    changeType: ChangeType,
    oldText: Option<Bytes>,
    newText: Bytes,
    skippedDiff: bool,
    quality: DiffQuality)

  // ---- Reading the disk ----

  function Split(s: string, sep: char): seq<string>
    decreases |s|
  {
    SplitFrom(s, sep, 0)
  }

  function SplitFrom(s: string, sep: char, n: nat): seq<string>
    requires n <= |s|
    decreases |s| - n, |s|
  {
    if n == |s| then [s]
    else if s[n] == sep then [s[..n]] + SplitFrom(s[n + 1..], sep, 0)
    else SplitFrom(s, sep, n + 1)
  }

  predicate IsSkippedPath(path: Path) {
    exists part <- Split(path, '/') :: part in SKIP_DIRS
  }

  function Fingerprint(env: Env, bytes: Bytes): int {
    if |bytes| > MAX_DIFF_FILE_SIZE then |bytes| else env.hash(bytes)
  }

  function MetaOf(env: Env, path: Path, node: Node): Option<FileMeta> {
    if IsSkippedPath(path) || !env.inside(path) || !node.File? then None
    else Some(FileMeta(node.mtime, |node.bytes|, Fingerprint(env, node.bytes)))
  }

  function ReadToString(env: Env, node: Node): Option<Bytes> {
    if node.File? && env.isUtf8(node.bytes) then Some(node.bytes) else None
  }

  // ---- Windows as values ----

  predicate Recorded(w: Window, path: Path) {
    path in w.baseline || path in w.missingAtStart
  }

  /** Takes the baseline of `path` from what is on disk now. */
  function Observe(env: Env, fs: FileSystem, w: Window, path: Path): Window {
    match MetaOf(env, path, At(fs, path))
    case None => w.(missingAtStart := w.missingAtStart + {path})
    case Some(meta) =>
      var text := ReadToString(env, At(fs, path));
      w.(baseline := w.baseline[path := meta],
         baselineText := if meta.len <= MAX_DIFF_FILE_SIZE && text.Some?
                         then w.baselineText[path := text.value] else w.baselineText)
  }

  function AddToCandidates(w: Window, path: Path): Window {
    if path in w.candidates then w else w.(candidates := w.candidates + [path])
  }

  function RecordOne(env: Env, fs: FileSystem, w: Window, path: Path): Window {
    AddToCandidates(if Recorded(w, path) then w else Observe(env, fs, w, path), path)
  }

  function RecordAll(env: Env, fs: FileSystem, w: Window, paths: seq<Path>): Window {
    if paths == [] then w
    else RecordOne(env, fs, RecordAll(env, fs, w, paths[..|paths| - 1]), paths[|paths| - 1])
  }

  function ObserveAll(env: Env, fs: FileSystem, w: Window, paths: seq<Path>): Window {
    if paths == [] then w
    else Observe(env, fs, ObserveAll(env, fs, w, paths[..|paths| - 1]), paths[|paths| - 1])
  }

  predicate Hintable(path: Path) {
    path != "" && !IsSkippedPath(path)
  }

  function NormalizedHints(env: Env, hints: seq<string>): seq<Path> {
    if hints == [] then []
    else
      var rest := NormalizedHints(env, hints[..|hints| - 1]);
      var path := env.normalize(hints[|hints| - 1]);
      if Hintable(path) then rest + [path] else rest
  }

  const EMPTY_WINDOW := Window(map[], map[], {}, [])

  type Windows = map<CallId, Window>

  function Start(env: Env, fs: FileSystem, ws: Windows, id: CallId, hints: seq<string>): Windows {
    var paths := NormalizedHints(env, hints);
    if id in ws then ws[id := RecordAll(env, fs, ws[id], paths)]
    else ws[id := ObserveAll(env, fs, EMPTY_WINDOW, paths).(candidates := paths)]
  }

  function AddHint(env: Env, fs: FileSystem, ws: Windows, id: CallId, hint: string): Windows {
    var path := env.normalize(hint);
    if !Hintable(path) then ws
    else if id in ws then ws[id := RecordOne(env, fs, ws[id], path)]
    else Start(env, fs, ws, id, [path])
  }

  function AddDiffHint(env: Env, ws: Windows, id: CallId, hint: string): Windows {
    var path := env.normalize(hint);
    if Hintable(path) && id in ws then ws[id := AddToCandidates(ws[id], path)] else ws
  }

  /** The verdict on one candidate: how the disk differs from the window's baseline. */
  function Report(env: Env, fs: FileSystem, w: Window, path: Path): (r: Option<VerifiedFileChange>)
    ensures r.Some? ==> r.value.path == path
  {
    var base := if path in w.baseline then Some(w.baseline[path]) else None;
    var oldText := if path in w.baselineText then Some(w.baselineText[path]) else None;
    if !env.inside(path) then None
    else match At(fs, path)
      case Directory => None
      case Absent =>
        if base.None? then None
        else Some(VerifiedFileChange(path, Deleted, oldText, [], oldText.None?,
                                     if oldText.None? then MissingBaseline else Exact))
      case File(mtime, bytes) =>
        var isChanged := if base.Some?
                         then base.value != FileMeta(mtime, |bytes|, Fingerprint(env, bytes))
                         else path in w.missingAtStart;
        var change := if base.Some? then Modified else Created;
        if !isChanged then None
        else if |bytes| > MAX_DIFF_FILE_SIZE then
          Some(VerifiedFileChange(path, change, oldText, [], true, LargeFileSkipped))
        else if !env.isUtf8(bytes) then
          Some(VerifiedFileChange(path, change, oldText, [], true, BinarySkipped))
        else if base.None? then
          Some(VerifiedFileChange(path, Created, None, bytes, false, Exact))
        else if oldText.None? then
          Some(VerifiedFileChange(path, Modified, None, [], true, MissingBaseline))
        else if oldText.value == bytes then None
        else Some(VerifiedFileChange(path, Modified, oldText, bytes, false, Exact))
  }

  /** A modification that is reported with both texts is one. */
  lemma ExactModificationsDiffer(env: Env, fs: FileSystem, w: Window, path: Path)
    ensures var r := Report(env, fs, w, path);
            r.Some? && r.value.changeType.Modified? && r.value.quality.Exact? ==>
              r.value.oldText.Some? && r.value.oldText.value != r.value.newText
  {
    hide MetaOf, Fingerprint;
  }

  function Reports(env: Env, fs: FileSystem, w: Window, paths: seq<Path>): seq<VerifiedFileChange> {
    if paths == [] then []
    else
      var rest := Reports(env, fs, w, paths[..|paths| - 1]);
      match Report(env, fs, w, paths[|paths| - 1])
      case None => rest
      case Some(change) => rest + [change]
  }

  function Checked(w: Window): seq<Path> {
    if |w.candidates| <= MAX_CANDIDATES_PER_TOOL then w.candidates
    else w.candidates[..MAX_CANDIDATES_PER_TOOL]
  }

  function Finish(env: Env, fs: FileSystem, ws: Windows, id: CallId): (r: (Windows, seq<VerifiedFileChange>)) {
    if id !in ws then (ws, [])
    else
      var found := Reports(env, fs, ws[id], Checked(ws[id]));
      (if ws[id].candidates == [] || found != [] then ws - {id} else ws, found)
  }

  // ---- One path more ----

  lemma ObserveNext(env: Env, fs: FileSystem, w: Window, paths: seq<Path>, i: nat)
    requires i < |paths|
    ensures ObserveAll(env, fs, w, paths[..i + 1]) == Observe(env, fs, ObserveAll(env, fs, w, paths[..i]), paths[i])
    ensures RecordAll(env, fs, w, paths[..i + 1]) == RecordOne(env, fs, RecordAll(env, fs, w, paths[..i]), paths[i])
  {
    hide Observe, RecordOne;
    assert paths[..i + 1][..i] == paths[..i];
  }

  lemma NoPaths(env: Env, fs: FileSystem, w: Window)
    ensures ObserveAll(env, fs, w, []) == w && RecordAll(env, fs, w, []) == w && Reports(env, fs, w, []) == []
  {
  }

  lemma ReportsNext(env: Env, fs: FileSystem, w: Window, paths: seq<Path>, k: nat)
    requires k < |paths|
    ensures var r := Report(env, fs, w, paths[k]);
            Reports(env, fs, w, paths[..k + 1]) == Reports(env, fs, w, paths[..k]) + if r.Some? then [r.value] else []
  {
    hide Report;
    assert paths[..k + 1][..k] == paths[..k];
  }

  /** The tracker object. `index` is only ever written, exactly as in the source. */
  class FileChangeTracker {
    const env: Env
    var index: map<Path, FileMeta>
    var activeWindows: Windows

    constructor (env: Env)
      ensures this.env == env && activeWindows == map[] && index == map[]
    {
      this.env := env;
      index := map[];
      activeWindows := map[];
    }

    method StartRecording(fs: FileSystem, callId: CallId, hints: seq<string>)
      modifies this
      ensures activeWindows == Start(env, fs, old(activeWindows), callId, hints)
    {
      hide NormalizedHints, MetaOf, ReadToString, ObserveAll, RecordAll, RecordOne;
      var hintPaths := NormalizedHints(env, hints);
      if callId in activeWindows {
        var i := 0;
        NoPaths(env, fs, activeWindows[callId]);
        while i < |hintPaths|
          invariant 0 <= i <= |hintPaths|
          invariant callId in activeWindows
          invariant activeWindows == old(activeWindows)[callId := RecordAll(env, fs, old(activeWindows)[callId], hintPaths[..i])]
        {
          ObserveNext(env, fs, old(activeWindows)[callId], hintPaths, i);
          RecordPathBaseline(fs, callId, hintPaths[i]);
          i := i + 1;
        }
        assert hintPaths[..i] == hintPaths;
        return;
      }

      var window := EMPTY_WINDOW;
      var i := 0;
      NoPaths(env, fs, window);
      while i < |hintPaths|
        invariant 0 <= i <= |hintPaths|
        invariant window == ObserveAll(env, fs, EMPTY_WINDOW, hintPaths[..i])
        invariant activeWindows == old(activeWindows)
      {
        var path := hintPaths[i];
        ObserveNext(env, fs, EMPTY_WINDOW, hintPaths, i);
        var meta := MetaOf(env, path, At(fs, path));
        if meta.Some? {
          index := index[path := meta.value];
          if meta.value.len <= MAX_DIFF_FILE_SIZE {
            var text := ReadToString(env, At(fs, path));
            if text.Some? {
              window := window.(baselineText := window.baselineText[path := text.value]);
            }
          }
          window := window.(baseline := window.baseline[path := meta.value]);
        } else {
          window := window.(missingAtStart := window.missingAtStart + {path});
        }
        i := i + 1;
      }
      assert hintPaths[..i] == hintPaths;
      activeWindows := activeWindows[callId := window.(candidates := hintPaths)];
    }

    method RecordPathBaseline(fs: FileSystem, callId: CallId, path: Path)
      modifies this
      ensures activeWindows ==
              if callId in old(activeWindows)
              then old(activeWindows)[callId := RecordOne(env, fs, old(activeWindows)[callId], path)]
              else old(activeWindows)
    {
      if callId in activeWindows && Recorded(activeWindows[callId], path) {
        var window := activeWindows[callId];
        if path !in window.candidates {
          window := window.(candidates := window.candidates + [path]);
        }
        activeWindows := activeWindows[callId := window];
        return;
      }
      var observed := MetaOf(env, path, At(fs, path));
      if observed.Some? {
        index := index[path := observed.value];
      }
      if callId in activeWindows {
        var window := activeWindows[callId];
        if observed.Some? {
          if observed.value.len <= MAX_DIFF_FILE_SIZE {
            var text := ReadToString(env, At(fs, path));
            if text.Some? {
              window := window.(baselineText := window.baselineText[path := text.value]);
            }
          }
          window := window.(baseline := window.baseline[path := observed.value]);
        } else {
          window := window.(missingAtStart := window.missingAtStart + {path});
        }
        if path !in window.candidates {
          window := window.(candidates := window.candidates + [path]);
        }
        activeWindows := activeWindows[callId := window];
      }
    }

    method AddCandidate(fs: FileSystem, callId: CallId, hint: string)
      modifies this
      ensures activeWindows == AddHint(env, fs, old(activeWindows), callId, hint)
    {
      var path := env.normalize(hint);
      if path == "" || IsSkippedPath(path) {
        return;
      }
      if callId !in activeWindows {
        StartRecording(fs, callId, [path]);
        return;
      }
      RecordPathBaseline(fs, callId, path);
    }

    method AddDiffCandidate(callId: CallId, hint: string)
      modifies this`activeWindows
      ensures activeWindows == AddDiffHint(env, old(activeWindows), callId, hint)
    {
      var path := env.normalize(hint);
      if path == "" || IsSkippedPath(path) {
        return;
      }
      if callId in activeWindows {
        var window := activeWindows[callId];
        if path !in window.candidates {
          activeWindows := activeWindows[callId := window.(candidates := window.candidates + [path])];
        }
      }
    }

    method FinishRecording(fs: FileSystem, callId: CallId) returns (results: seq<VerifiedFileChange>)
      modifies this`activeWindows
      ensures (activeWindows, results) == Finish(env, fs, old(activeWindows), callId)
    {
      hide Reports;
      results := [];
      if callId !in activeWindows {
        return;
      }
      var window := activeWindows[callId];
      var candidates := window.candidates;
      NoPaths(env, fs, window);
      if candidates == [] {
        activeWindows := activeWindows - {callId};
        return;
      }
      var limit := if |candidates| <= MAX_CANDIDATES_PER_TOOL then |candidates| else MAX_CANDIDATES_PER_TOOL;
      for k := 0 to limit
        invariant results == Reports(env, fs, window, candidates[..k]) && activeWindows == old(activeWindows)
      {
        ReportsNext(env, fs, window, candidates, k);
        var path := candidates[k];
        var baseMeta := if path in window.baseline then Some(window.baseline[path]) else None;
        var oldText := if path in window.baselineText then Some(window.baselineText[path]) else None;
        if !env.inside(path) {
          continue;
        }
        match At(fs, path) {
          case Directory =>
          case Absent =>
            if baseMeta.Some? {
              var skipped := oldText.None?;
              results := results + [VerifiedFileChange(path, Deleted, oldText, [], skipped,
                                                       if skipped then MissingBaseline else Exact)];
            }
          case File(mtime, bytes) =>
            var isChanged := path in window.missingAtStart;
            if baseMeta.Some? {
              var base := baseMeta.value;
              isChanged := mtime != base.mtime || |bytes| != base.len || Fingerprint(env, bytes) != base.fingerprint;
            }
            if !isChanged {
              continue;
            }
            var changeType := if baseMeta.Some? then Modified else Created;
            if |bytes| > MAX_DIFF_FILE_SIZE {
              results := results + [VerifiedFileChange(path, changeType, oldText, [], true, LargeFileSkipped)];
              continue;
            }
            var newText := ReadToString(env, At(fs, path));
            if newText.None? {
              results := results + [VerifiedFileChange(path, changeType, oldText, [], true, BinarySkipped)];
              continue;
            }
            if baseMeta.Some? {
              if oldText.None? {
                results := results + [VerifiedFileChange(path, Modified, None, [], true, MissingBaseline)];
                continue;
              }
              if oldText.value == newText.value {
                continue;
              }
              results := results + [VerifiedFileChange(path, Modified, oldText, newText.value, false, Exact)];
            } else {
              results := results + [VerifiedFileChange(path, Created, None, newText.value, false, Exact)];
            }
        }
      }
      assert candidates[..limit] == Checked(window);
      if results != [] {
        activeWindows := activeWindows - {callId};
      }
    }

    method DiscardRecording(callId: CallId)
      modifies this`activeWindows
      ensures activeWindows == old(activeWindows) - {callId}
    {
      activeWindows := activeWindows - {callId};
    }
  }
}

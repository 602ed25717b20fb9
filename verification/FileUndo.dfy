/**
 Undo correctness of the file change tracker: what a finished window reports is enough to put
 every tracked path back to what it was when the window first saw it, and exactly when.
 */
module FileUndo {
  import opened Options
  import opened FileTracker

  // ---- Runs: the disk and the tracker change in any order ----

  /** `firstSeen[id][path]` is a history variable: what was on disk when the open window `id` was
      first given `path` as a hint that takes a baseline. The tracker does not read it. */
  datatype World = World(
    fs: FileSystem,
    windows: Windows,
    firstSeen: map<CallId, map<Path, Node>>)

  datatype Op =
    | DiskChange(fs: FileSystem)
    | StartRecording(id: CallId, hints: seq<string>)
    | AddCandidate(id: CallId, hint: string)
    | AddDiffCandidate(id: CallId, hint: string)
    | FinishRecording(id: CallId)
    | DiscardRecording(id: CallId)

  function SeeAll(fs: FileSystem, seen: map<Path, Node>, paths: seq<Path>): map<Path, Node> {
    map p | p in seen.Keys + (set q | q in paths) :: if p in seen then seen[p] else At(fs, p)
  }

  function See(w: World, id: CallId, paths: seq<Path>): map<CallId, map<Path, Node>> {
    w.firstSeen[id := SeeAll(w.fs, if id in w.firstSeen then w.firstSeen[id] else map[], paths)]
  }

  function Step(env: Env, w: World, op: Op): World {
    match op
    case DiskChange(fs) => w.(fs := fs)
    case StartRecording(id, hints) =>
      w.(windows := Start(env, w.fs, w.windows, id, hints),
         firstSeen := See(w, id, NormalizedHints(env, hints)))
    case AddCandidate(id, hint) =>
      var path := env.normalize(hint);
      if !Hintable(path) then w
      else w.(windows := AddHint(env, w.fs, w.windows, id, hint),
              firstSeen := See(w, id, if id in w.windows then [path] else NormalizedHints(env, [path])))
    case AddDiffCandidate(id, hint) => w.(windows := AddDiffHint(env, w.windows, id, hint))
    case FinishRecording(id) =>
      var after := Finish(env, w.fs, w.windows, id).0;
      w.(windows := after,
         firstSeen := map i | i in w.firstSeen && (i in after || i !in w.windows) :: w.firstSeen[i])
    case DiscardRecording(id) => w.(windows := w.windows - {id}, firstSeen := w.firstSeen - {id})
  }

  function Run(env: Env, w: World, ops: seq<Op>): World {
    if ops == [] then w else Step(env, Run(env, w, ops[..|ops| - 1]), ops[|ops| - 1])
  }

  function Fresh(fs: FileSystem): World { World(fs, map[], map[]) }

  // ---- What every step keeps: a window remembers exactly what was first seen ----

  function TextOf(env: Env, node: Node): Option<Bytes> {
    if node.File? && |node.bytes| <= MAX_DIFF_FILE_SIZE then ReadToString(env, node) else None
  }

  predicate Remembers(env: Env, w: Window, path: Path, node: Node) {
    var meta := MetaOf(env, path, node);
    && (path in w.baseline <==> meta.Some?)
    && (path in w.missingAtStart <==> meta.None?)
    && (path in w.baselineText <==> meta.Some? && TextOf(env, node).Some?)
    && (meta.Some? ==> w.baseline[path] == meta.value)
    && (path in w.baselineText ==> w.baselineText[path] == TextOf(env, node).value)
  }

  ghost predicate Knows(env: Env, w: Window, seen: map<Path, Node>) {
    && (forall p :: p in w.baseline || p in w.missingAtStart || p in w.baselineText ==> p in seen)
    && (forall p :: p in seen ==> Remembers(env, w, p, seen[p]))
  }

  ghost predicate Coherent(env: Env, w: Window, seen: map<Path, Node>) {
    && Knows(env, w, seen)
    && (forall p :: p in seen ==> p in w.candidates && !IsSkippedPath(p))
  }

  ghost predicate Inv(env: Env, w: World) {
    && w.windows.Keys == w.firstSeen.Keys
    && forall id :: id in w.windows ==> Coherent(env, w.windows[id], w.firstSeen[id])
  }

  lemma HintsAreHintable(env: Env, hints: seq<string>)
    ensures forall p :: p in NormalizedHints(env, hints) ==> Hintable(p)
  {}

  /** Observing one new path adds that path's memory and no other. */
  lemma ObserveRemembers(env: Env, fs: FileSystem, w: Window, path: Path)
    requires !Recorded(w, path) ==> path !in w.baselineText
    requires Recorded(w, path) ==> Remembers(env, w, path, At(fs, path))
    ensures Remembers(env, Observe(env, fs, w, path), path, At(fs, path))
  {}

  lemma ObserveFrame(env: Env, fs: FileSystem, w: Window, path: Path, other: Path, node: Node)
    requires path != other
    ensures Remembers(env, Observe(env, fs, w, path), other, node) <==> Remembers(env, w, other, node)
  {}

  lemma ObserveKnows(env: Env, fs: FileSystem, w: Window, seen: map<Path, Node>, path: Path)
    requires Knows(env, w, seen)
    requires path in seen ==> seen[path] == At(fs, path)
    ensures Knows(env, Observe(env, fs, w, path), seen[path := At(fs, path)])
  {
    var w', seen' := Observe(env, fs, w, path), seen[path := At(fs, path)];
    assert path !in seen ==> !Recorded(w, path) && path !in w.baselineText;
    ObserveRemembers(env, fs, w, path);
    forall p | p in seen' && p != path
      ensures Remembers(env, w', p, seen'[p])
    {
      ObserveFrame(env, fs, w, path, p, seen[p]);
    }
  }

  lemma SeeAllLast(fs: FileSystem, seen: map<Path, Node>, paths: seq<Path>)
    requires paths != []
    ensures var before := SeeAll(fs, seen, paths[..|paths| - 1]);
            var last := paths[|paths| - 1];
            SeeAll(fs, seen, paths) == if last in before then before else before[last := At(fs, last)]
  {
    assert paths == paths[..|paths| - 1] + [paths[|paths| - 1]];
  }

  /** One more hint: an already seen path keeps its memory, a new one takes the disk's state. */
  lemma RecordOneCoherent(env: Env, fs: FileSystem, w: Window, seen: map<Path, Node>, path: Path)
    requires Coherent(env, w, seen) && Hintable(path)
    ensures Coherent(env, RecordOne(env, fs, w, path), if path in seen then seen else seen[path := At(fs, path)])
  {
    assert path in seen ==> Remembers(env, w, path, seen[path]);
    assert Recorded(w, path) <==> path in seen;
    var w1 := if Recorded(w, path) then w else Observe(env, fs, w, path);
    var seen1 := if path in seen then seen else seen[path := At(fs, path)];
    assert Knows(env, w1, seen1) by {
      if path !in seen {
        ObserveKnows(env, fs, w, seen, path);
      }
    }
    var w2 := AddToCandidates(w1, path);
    forall p | p in seen1
      ensures Remembers(env, w2, p, seen1[p])
    {
      assert Remembers(env, w1, p, seen1[p]);
    }
    assert w1.candidates == w.candidates;
  }

  lemma {:induction false} RecordAllCoherent(env: Env, fs: FileSystem, w: Window, seen: map<Path, Node>, paths: seq<Path>)
    requires Coherent(env, w, seen)
    requires forall p :: p in paths ==> Hintable(p)
    ensures Coherent(env, RecordAll(env, fs, w, paths), SeeAll(fs, seen, paths))
  {
    if paths == [] {
      assert SeeAll(fs, seen, paths) == seen;
    } else {
      var init, last := paths[..|paths| - 1], paths[|paths| - 1];
      RecordAllCoherent(env, fs, w, seen, init);
      SeeAllLast(fs, seen, paths);
      RecordOneCoherent(env, fs, RecordAll(env, fs, w, init), SeeAll(fs, seen, init), last);
    }
  }

  lemma {:induction false} ObserveAllKnows(env: Env, fs: FileSystem, paths: seq<Path>)
    ensures Knows(env, ObserveAll(env, fs, EMPTY_WINDOW, paths), SeeAll(fs, map[], paths))
  {
    if paths != [] {
      var init, last := paths[..|paths| - 1], paths[|paths| - 1];
      ObserveAllKnows(env, fs, init);
      SeeAllLast(fs, map[], paths);
      assert last in SeeAll(fs, map[], init) ==> SeeAll(fs, map[], paths) == SeeAll(fs, map[], init)[last := At(fs, last)];
      ObserveKnows(env, fs, ObserveAll(env, fs, EMPTY_WINDOW, init), SeeAll(fs, map[], init), last);
    }
  }

  lemma ObserveAllCoherent(env: Env, fs: FileSystem, paths: seq<Path>)
    requires forall p :: p in paths ==> Hintable(p)
    ensures Coherent(env, ObserveAll(env, fs, EMPTY_WINDOW, paths).(candidates := paths), SeeAll(fs, map[], paths))
  {
    ObserveAllKnows(env, fs, paths);
  }

  lemma StartCoherent(env: Env, w: World, id: CallId, hints: seq<string>)
    requires Inv(env, w)
    ensures Inv(env, Step(env, w, StartRecording(id, hints)))
  {
    hide RecordAll, ObserveAll, Coherent, SeeAll, Hintable, NormalizedHints;
    HintsAreHintable(env, hints);
    var paths := NormalizedHints(env, hints);
    if id in w.windows {
      RecordAllCoherent(env, w.fs, w.windows[id], w.firstSeen[id], paths);
    } else {
      ObserveAllCoherent(env, w.fs, paths);
    }
  }

  lemma AddCandidateCoherent(env: Env, w: World, id: CallId, hint: string)
    requires Inv(env, w)
    ensures Inv(env, Step(env, w, AddCandidate(id, hint)))
  {
    hide RecordOne, Start, Coherent, Hintable;
    var path := env.normalize(hint);
    if Hintable(path) {
      if id in w.windows {
        assert SeeAll(w.fs, w.firstSeen[id], [path]) ==
               if path in w.firstSeen[id] then w.firstSeen[id] else w.firstSeen[id][path := At(w.fs, path)];
        RecordOneCoherent(env, w.fs, w.windows[id], w.firstSeen[id], path);
      } else {
        StartCoherent(env, w, id, [path]);
      }
    }
  }

  lemma MoreCandidates(env: Env, w: Window, seen: map<Path, Node>, path: Path)
    requires Coherent(env, w, seen)
    ensures Coherent(env, AddToCandidates(w, path), seen)
  {
    hide MetaOf, TextOf;
    var w' := AddToCandidates(w, path);
    forall p | p in seen
      ensures Remembers(env, w', p, seen[p])
    {
      assert Remembers(env, w, p, seen[p]);
    }
  }

  lemma FinishCloses(env: Env, w: World, id: CallId)
    ensures var after := Finish(env, w.fs, w.windows, id).0; after == w.windows || after == w.windows - {id}
  {}

  lemma StepKeepsInv(env: Env, w: World, op: Op)
    requires Inv(env, w)
    ensures Inv(env, Step(env, w, op))
  {
    hide Start, AddHint, Coherent, Finish, See;
    match op
    case StartRecording(id, hints) => StartCoherent(env, w, id, hints);
    case AddCandidate(id, hint) => AddCandidateCoherent(env, w, id, hint);
    case AddDiffCandidate(id, hint) =>
      var w' := Step(env, w, op);
      forall i | i in w'.windows
        ensures Coherent(env, w'.windows[i], w'.firstSeen[i])
      {
        if i == id {
          MoreCandidates(env, w.windows[i], w.firstSeen[i], env.normalize(hint));
        }
      }
    case FinishRecording(id) => FinishCloses(env, w, id);
    case _ =>
  }

  /** Every reachable world: each open window knows, for each path it was hinted, exactly the
      state at the first hint, whatever the disk and the later hints did. */
  lemma {:induction false} RunInv(env: Env, fs: FileSystem, ops: seq<Op>)
    ensures Inv(env, Run(env, Fresh(fs), ops))
  {
    if ops != [] {
      RunInv(env, fs, ops[..|ops| - 1]);
      StepKeepsInv(env, Run(env, Fresh(fs), ops[..|ops| - 1]), ops[|ops| - 1]);
    }
  }

  /** No later hint, disk change or failed finish overwrites what was first seen. */
  lemma FirstSeenIsStable(env: Env, w: World, op: Op, id: CallId, path: Path)
    requires Inv(env, w)
    requires id in w.firstSeen && path in w.firstSeen[id]
    ensures var w' := Step(env, w, op);
            id in w'.windows ==> path in w'.firstSeen[id] && w'.firstSeen[id][path] == w.firstSeen[id][path]
  {}

  // ---- Undoing a report ----

  /** Rejecting one change: a created file is removed, any other change writes the old text back,
      and nothing happens when the old text is unknown. `now` is the clock of the write. */
  function Revert(now: int, fs: FileSystem, c: VerifiedFileChange): FileSystem {
    if c.changeType.Created? then fs[c.path := Absent]
    else if c.oldText.Some? then fs[c.path := File(now, c.oldText.value)]
    else fs
  }

  function RevertAll(now: int, fs: FileSystem, cs: seq<VerifiedFileChange>): FileSystem {
    if cs == [] then fs else Revert(now, RevertAll(now, fs, cs[..|cs| - 1]), cs[|cs| - 1])
  }

  /** What a reader sees: modification times do not count. */
  datatype Content = Nothing | Folder | Contents(bytes: Bytes)

  function View(node: Node): Content {
    match node
    case Absent => Nothing
    case Directory => Folder
    case File(_, bytes) => Contents(bytes)
  }

  /** The two states can be told apart from modification time, length and fingerprint. */
  predicate Detected(env: Env, first: Node, now: Node)
    requires first.File? && now.File?
  {
    first.mtime != now.mtime || |first.bytes| != |now.bytes| ||
    Fingerprint(env, first.bytes) != Fingerprint(env, now.bytes)
  }

  /** When the tracker can undo a change of `path` from `first` to `now`. */
  predicate Restorable(env: Env, path: Path, first: Node, now: Node) {
    || View(first) == View(now)
    || (env.inside(path) && match first
        case Absent => now.File?
        case Directory => false
        case File(_, _) =>
          TextOf(env, first).Some? && (now.Absent? || (now.File? && Detected(env, first, now))))
  }

  lemma {:induction false} ReportsMembers(env: Env, fs: FileSystem, w: Window, paths: seq<Path>, c: VerifiedFileChange)
    ensures c in Reports(env, fs, w, paths) <==> c.path in paths && Report(env, fs, w, c.path) == Some(c)
  {
    hide Report;
    if paths != [] {
      ReportsMembers(env, fs, w, paths[..|paths| - 1], c);
      assert paths == paths[..|paths| - 1] + [paths[|paths| - 1]];
    }
  }

  /** Undoing a list in which all changes of `path` are the same change undoes that change. */
  lemma {:induction false} RevertAllChanges(now: int, fs: FileSystem, cs: seq<VerifiedFileChange>, path: Path, only: Option<VerifiedFileChange>)
    requires forall c :: c in cs && c.path == path ==> only == Some(c)
    requires only.Some? ==> only.value.path == path
    ensures At(RevertAll(now, fs, cs), path) ==
            if only.Some? && only.value in cs then At(Revert(now, fs, only.value), path) else At(fs, path)
  {
    if cs != [] {
      var init, last := cs[..|cs| - 1], cs[|cs| - 1];
      assert cs == init + [last];
      RevertAllChanges(now, fs, init, path, only);
    }
  }

  lemma RevertAllAt(env: Env, now: int, fs: FileSystem, w: Window, paths: seq<Path>, path: Path)
    ensures At(RevertAll(now, fs, Reports(env, fs, w, paths)), path) ==
            if path in paths && Report(env, fs, w, path).Some?
            then At(Revert(now, fs, Report(env, fs, w, path).value), path)
            else At(fs, path)
  {
    var cs := Reports(env, fs, w, paths);
    forall c | c in cs && c.path == path
      ensures Report(env, fs, w, path) == Some(c)
    {
      ReportsMembers(env, fs, w, paths, c);
    }
    var only := Report(env, fs, w, path);
    if only.Some? {
      ReportsMembers(env, fs, w, paths, only.value);
    }
    RevertAllChanges(now, fs, cs, path, only);
  }

  lemma UndoOne(env: Env, fs: FileSystem, w: Window, now: int, path: Path, first: Node)
    requires Remembers(env, w, path, first) && !IsSkippedPath(path)
    ensures var report := Report(env, fs, w, path);
            var after := if report.Some? then At(Revert(now, fs, report.value), path) else At(fs, path);
            View(after) == View(first) <==> Restorable(env, path, first, At(fs, path))
  {
    match first
    case Absent =>
    case Directory =>
    case File(_, _) =>
      match At(fs, path)
      case Absent =>
      case Directory =>
      case File(_, _) =>
  }

  /** The exact law of undo, for every state a checked path may have had and may have now. */
  lemma UndoExact(env: Env, w: World, now: int, id: CallId, path: Path)
    requires Inv(env, w)
    requires id in w.windows && path in w.firstSeen[id] && path in Checked(w.windows[id])
    ensures var undone := RevertAll(now, w.fs, Finish(env, w.fs, w.windows, id).1);
            View(At(undone, path)) == View(w.firstSeen[id][path])
            <==> Restorable(env, path, w.firstSeen[id][path], At(w.fs, path))
  {
    RevertAllAt(env, now, w.fs, w.windows[id], Checked(w.windows[id]), path);
    UndoOne(env, w.fs, w.windows[id], now, path, w.firstSeen[id][path]);
  }

  /** Undo touches nothing but checked paths that the window has a baseline for. */
  lemma UndoFrame(env: Env, w: World, now: int, id: CallId, path: Path)
    requires Inv(env, w)
    requires id in w.windows ==> path !in w.firstSeen[id] || path !in Checked(w.windows[id])
    ensures At(RevertAll(now, w.fs, Finish(env, w.fs, w.windows, id).1), path) == At(w.fs, path)
  {
    if id in w.windows {
      RevertAllAt(env, now, w.fs, w.windows[id], Checked(w.windows[id]), path);
    }
  }

  predicate PlainText(env: Env, node: Node) {
    node.Absent? || TextOf(env, node).Some?
  }

  /** A tracked path that undo leaves as it was first seen: a checked one whose change can be undone,
      or one past the limit that has not changed. */
  predicate ComesBack(env: Env, w: World, id: CallId, path: Path)
    requires id in w.windows && id in w.firstSeen && path in w.firstSeen[id]
  {
    if path in Checked(w.windows[id]) then Restorable(env, path, w.firstSeen[id][path], At(w.fs, path))
    else View(At(w.fs, path)) == View(w.firstSeen[id][path])
  }

  /** The exact law for a whole window, over every interleaving of disk changes and tracker calls. */
  lemma WholeWindowExact(env: Env, fs: FileSystem, ops: seq<Op>, now: int, id: CallId)
    requires id in Run(env, Fresh(fs), ops).windows
    ensures id in Run(env, Fresh(fs), ops).firstSeen
    ensures var w := Run(env, Fresh(fs), ops);
            var undone := RevertAll(now, w.fs, Finish(env, w.fs, w.windows, id).1);
            (forall p :: p in w.firstSeen[id] ==> View(At(undone, p)) == View(w.firstSeen[id][p]))
            <==> forall p :: p in w.firstSeen[id] ==> ComesBack(env, w, id, p)
  {
    hide Restorable;
    RunInv(env, fs, ops);
    var w := Run(env, Fresh(fs), ops);
    var undone := RevertAll(now, w.fs, Finish(env, w.fs, w.windows, id).1);
    forall p | p in w.firstSeen[id]
      ensures View(At(undone, p)) == View(w.firstSeen[id][p]) <==> ComesBack(env, w, id, p)
    {
      if p in Checked(w.windows[id]) {
        UndoExact(env, w, now, id, p);
      } else {
        UndoFrame(env, w, now, id, p);
      }
    }
  }

  /** The promise of the tracker: over every interleaving of disk changes and tracker calls, when all
      tracked paths are among the first 64 candidates, and were and are absent or small text files
      that the content hash tells apart, undoing the report restores all of them and leaves the rest
      of the disk alone. */
  lemma UndoRestoresEverything(env: Env, fs: FileSystem, ops: seq<Op>, now: int, id: CallId)
    requires var w := Run(env, Fresh(fs), ops);
             && id in w.windows && id in w.firstSeen
             && forall p :: p in w.firstSeen[id] ==>
                  && p in Checked(w.windows[id]) && env.inside(p)
                  && PlainText(env, w.firstSeen[id][p]) && PlainText(env, At(w.fs, p))
                  && (w.firstSeen[id][p].File? && At(w.fs, p).File?
                      && env.hash(w.firstSeen[id][p].bytes) == env.hash(At(w.fs, p).bytes)
                      ==> w.firstSeen[id][p].bytes == At(w.fs, p).bytes)
    ensures var w := Run(env, Fresh(fs), ops);
            var undone := RevertAll(now, w.fs, Finish(env, w.fs, w.windows, id).1);
            forall p :: if p in w.firstSeen[id] then View(At(undone, p)) == View(w.firstSeen[id][p])
                        else At(undone, p) == At(w.fs, p)
  {
    RunInv(env, fs, ops);
    var w := Run(env, Fresh(fs), ops);
    forall p
      ensures var undone := RevertAll(now, w.fs, Finish(env, w.fs, w.windows, id).1);
              if p in w.firstSeen[id] then View(At(undone, p)) == View(w.firstSeen[id][p])
              else At(undone, p) == At(w.fs, p)
    {
      if p in w.firstSeen[id] {
        assert Restorable(env, p, w.firstSeen[id][p], At(w.fs, p));
        UndoExact(env, w, now, id, p);
      } else {
        UndoFrame(env, w, now, id, p);
      }
    }
  }

  // ---- What counts towards the limit ----

  ghost predicate NoRepeats(paths: seq<Path>) {
    forall i, j :: 0 <= i < j < |paths| ==> paths[i] != paths[j]
  }

  lemma {:induction false} NoRepeatsLength(paths: seq<Path>, all: set<Path>)
    requires NoRepeats(paths) && forall p :: p in paths ==> p in all
    ensures |paths| <= |all|
  {
    if paths != [] {
      var last := |paths| - 1;
      assert paths[last] in paths;
      forall p | p in paths[..last] ensures p in all - {paths[last]} {
        var i :| 0 <= i < last && paths[i] == p;
      }
      NoRepeatsLength(paths[..last], all - {paths[last]});
    }
  }

  /** 64 different tracked paths are all checked as long as no candidate is listed twice and none has
      only a diff. */
  lemma DistinctTrackedPathsAreChecked(env: Env, fs: FileSystem, ops: seq<Op>, id: CallId, path: Path)
    requires var w := Run(env, Fresh(fs), ops);
             && id in w.windows && id in w.firstSeen && path in w.firstSeen[id]
             && |w.firstSeen[id].Keys| <= MAX_CANDIDATES_PER_TOOL
             && NoRepeats(w.windows[id].candidates)
             && forall p :: p in w.windows[id].candidates ==> p in w.firstSeen[id]
    ensures path in Checked(Run(env, Fresh(fs), ops).windows[id])
  {
    RunInv(env, fs, ops);
    var w := Run(env, Fresh(fs), ops);
    NoRepeatsLength(w.windows[id].candidates, w.firstSeen[id].Keys);
  }

  function Copies(path: Path, n: nat): (paths: seq<Path>)
    ensures |paths| == n && forall i :: 0 <= i < n ==> paths[i] == path
  {
    if n == 0 then [] else Copies(path, n - 1) + [path]
  }

  lemma {:induction false} HintsAsTheyAre(env: Env, hints: seq<Path>)
    requires forall h :: h in hints ==> env.normalize(h) == h && Hintable(h)
    ensures NormalizedHints(env, hints) == hints
  {
    hide Hintable;
    if hints != [] {
      HintsAsTheyAre(env, hints[..|hints| - 1]);
      assert hints == hints[..|hints| - 1] + [hints[|hints| - 1]];
    }
  }

  lemma StartAndChange(env: Env, fs: FileSystem, id: CallId, hints: seq<Path>, fs': FileSystem)
    requires forall h :: h in hints ==> env.normalize(h) == h && Hintable(h)
    ensures var w := Run(env, Fresh(fs), [StartRecording(id, hints), DiskChange(fs')]);
            && w.fs == fs' && id in w.windows && w.windows[id].candidates == hints
            && id in w.firstSeen && w.firstSeen[id] == SeeAll(fs, map[], hints)
  {
    hide Hintable, ObserveAll;
    var start := StartRecording(id, hints);
    var ops := [start, DiskChange(fs')];
    assert ops[..1] == [start] && [start][..0] == [];
    assert Run(env, Fresh(fs), []) == Fresh(fs);
    HintsAsTheyAre(env, hints);
  }

  /** Hints that repeat use up the limit: a new window keeps every copy. Two tracked paths are enough
      for one of them to be past it. */
  lemma RepeatsUseUpTheLimit(env: Env, fs: FileSystem, id: CallId, a: Path, b: Path, now: int, fs': FileSystem)
    requires a != b && Hintable(a) && Hintable(b) && env.normalize(a) == a && env.normalize(b) == b
    requires View(At(fs', b)) != View(At(fs, b))
    ensures var w := Run(env, Fresh(fs), [StartRecording(id, Copies(a, MAX_CANDIDATES_PER_TOOL) + [b]), DiskChange(fs')]);
            && id in w.windows && id in w.firstSeen && w.firstSeen[id].Keys == {a, b} && b !in Checked(w.windows[id])
            && View(At(RevertAll(now, w.fs, Finish(env, w.fs, w.windows, id).1), b)) != View(w.firstSeen[id][b])
  {
    hide Hintable, Finish, Run, View, RevertAll;
    var hints := Copies(a, MAX_CANDIDATES_PER_TOOL) + [b];
    var ops := [StartRecording(id, hints), DiskChange(fs')];
    StartAndChange(env, fs, id, hints, fs');
    var w := Run(env, Fresh(fs), ops);
    assert hints[0] == a && hints[MAX_CANDIDATES_PER_TOOL] == b;
    assert w.firstSeen[id].Keys == {a, b};
    RunInv(env, fs, ops);
    UndoFrame(env, w, now, id, b);
  }

  function DiffHints(id: CallId, paths: seq<Path>): (ops: seq<Op>)
    ensures |ops| == |paths|
  {
    if paths == [] then [] else DiffHints(id, paths[..|paths| - 1]) + [AddDiffCandidate(id, paths[|paths| - 1])]
  }

  lemma EmptyStart(env: Env, fs: FileSystem, id: CallId)
    ensures Run(env, Fresh(fs), [StartRecording(id, [])]) == World(fs, map[id := EMPTY_WINDOW], map[id := map[]])
  {
    var ops := [StartRecording(id, [])];
    assert ops[..0] == [];
    assert Run(env, Fresh(fs), []) == Fresh(fs);
    assert See(Fresh(fs), id, []) == map[id := map[]];
  }

  lemma OneMoreDiffHint(env: Env, w: World, id: CallId, path: Path)
    requires id in w.windows && path !in w.windows[id].candidates && env.normalize(path) == path && Hintable(path)
    ensures Step(env, w, AddDiffCandidate(id, path)) ==
            w.(windows := w.windows[id := w.windows[id].(candidates := w.windows[id].candidates + [path])])
  {
    hide Hintable;
  }

  lemma {:induction false} DiffHintsOnlyAddCandidates(env: Env, fs: FileSystem, id: CallId, paths: seq<Path>)
    requires NoRepeats(paths) && forall p :: p in paths ==> env.normalize(p) == p && Hintable(p)
    ensures var w := Run(env, Fresh(fs), [StartRecording(id, [])] + DiffHints(id, paths));
            w == World(fs, map[id := EMPTY_WINDOW.(candidates := paths)], map[id := map[]])
  {
    hide Hintable, Step;
    var ops := [StartRecording(id, [])] + DiffHints(id, paths);
    if paths == [] {
      EmptyStart(env, fs, id);
      assert ops == [StartRecording(id, [])];
    } else {
      var before, last := paths[..|paths| - 1], paths[|paths| - 1];
      DiffHintsOnlyAddCandidates(env, fs, id, before);
      assert ops[..|ops| - 1] == [StartRecording(id, [])] + DiffHints(id, before);
      OneMoreDiffHint(env, World(fs, map[id := EMPTY_WINDOW.(candidates := before)], map[id := map[]]), id, last);
      assert paths == before + [last];
    }
  }

  /** Hints that bring their own diff use up the limit, too: then a single tracked path is past it. */
  lemma DiffHintsUseUpTheLimit(env: Env, fs: FileSystem, id: CallId, diffs: seq<Path>, b: Path)
    requires |diffs| == MAX_CANDIDATES_PER_TOOL && NoRepeats(diffs + [b])
    requires forall p :: p in diffs + [b] ==> env.normalize(p) == p && Hintable(p)
    ensures var w := Run(env, Fresh(fs), [StartRecording(id, [])] + DiffHints(id, diffs) + [AddCandidate(id, b)]);
            id in w.windows && id in w.firstSeen && w.firstSeen[id].Keys == {b} && b !in Checked(w.windows[id])
  {
    hide Hintable, Observe;
    var before := [StartRecording(id, [])] + DiffHints(id, diffs);
    assert forall i :: 0 <= i < |diffs| ==> (diffs + [b])[i] == diffs[i];
    assert (diffs + [b])[|diffs|] == b && b in diffs + [b] && b !in diffs;
    assert forall p :: p in diffs ==> p in diffs + [b];
    DiffHintsOnlyAddCandidates(env, fs, id, diffs);
    var ops := before + [AddCandidate(id, b)];
    assert ops[..|ops| - 1] == before;
    var w := Run(env, Fresh(fs), before);
    ObserveKeepsCandidates(env, fs, w.windows[id], b);
    assert SeeAll(fs, map[], [b]).Keys == {b};
  }

  lemma ObserveKeepsCandidates(env: Env, fs: FileSystem, w: Window, path: Path)
    ensures Observe(env, fs, w, path).candidates == w.candidates
  {
  }

  lemma ExactReportIsReal(env: Env, fs: FileSystem, w: Window, path: Path, first: Node)
    requires Remembers(env, w, path, first) && !IsSkippedPath(path)
    requires Report(env, fs, w, path).Some? && Report(env, fs, w, path).value.quality.Exact?
    ensures var c, now := Report(env, fs, w, path).value, At(fs, path);
            && View(first) != View(now)
            && (c.changeType.Modified? ==>
                  && View(first) == Contents(c.oldText.UnwrapOr([])) && c.oldText.Some?
                  && View(now) == Contents(c.newText) && c.oldText.value != c.newText)
            && (c.changeType.Created? ==> View(now) == Contents(c.newText))
            && (c.changeType.Deleted? ==> now.Absent?)
  {}

  /** Every reported change is real: an exact report holds the two different texts, and the
      disk holds the new one. */
  lemma ExactReportsAreReal(env: Env, w: World, id: CallId, paths: seq<Path>, c: VerifiedFileChange)
    requires Inv(env, w) && id in w.windows
    requires c in Reports(env, w.fs, w.windows[id], paths) && c.quality.Exact?
    ensures c.path in w.firstSeen[id] && c.path in paths
    ensures View(w.firstSeen[id][c.path]) != View(At(w.fs, c.path))
    ensures c.changeType.Modified? ==>
              && View(w.firstSeen[id][c.path]) == Contents(c.oldText.UnwrapOr([])) && c.oldText.Some?
              && View(At(w.fs, c.path)) == Contents(c.newText) && c.oldText.value != c.newText
    ensures c.changeType.Created? ==> View(At(w.fs, c.path)) == Contents(c.newText)
    ensures c.changeType.Deleted? ==> At(w.fs, c.path).Absent?
  {
    hide Reports;
    ReportsMembers(env, w.fs, w.windows[id], paths, c);
    assert c.path in w.firstSeen[id];
    ExactReportIsReal(env, w.fs, w.windows[id], c.path, w.firstSeen[id][c.path]);
  }

  /** A finish that finds nothing loses nothing: the window stays with the same baselines, so
      that the call can be retried, unless it never had a candidate. */
  lemma EmptyFinishKeepsTheWindow(env: Env, w: World, id: CallId)
    requires Inv(env, w) && id in w.windows
    ensures var (after, found) := Finish(env, w.fs, w.windows, id);
            if found == [] && w.windows[id].candidates != [] then after == w.windows
            else id !in after && after == w.windows - {id}
    ensures w.windows[id].candidates == [] ==> w.firstSeen[id] == map[]
  {}

  /** Why the 64-candidate limit matters: a path past the limit is never reported, so a change
      of it is never undone. */
  lemma PastTheLimitIsNeverUndone(env: Env, w: World, now: int, id: CallId, path: Path)
    requires Inv(env, w)
    requires id in w.windows && path in w.firstSeen[id] && path !in Checked(w.windows[id])
    ensures View(At(RevertAll(now, w.fs, Finish(env, w.fs, w.windows, id).1), path)) == View(w.firstSeen[id][path])
            <==> View(At(w.fs, path)) == View(w.firstSeen[id][path])
  {
    UndoFrame(env, w, now, id, path);
  }
}

/**
 What a finished window reports, said of the file states only: the one first seen and the one now.
 */
module FileReports {
  import opened Options
  import opened FileTracker
  import opened FileUndo

  /** Both are texts of at most the size that is kept, and the same one. */
  predicate SameSmallText(env: Env, first: Node, now: Node) {
    TextOf(env, first).Some? && TextOf(env, now) == TextOf(env, first)
  }

  /** A file came, went, or changed. */
  predicate IsReported(env: Env, path: Path, first: Node, now: Node) {
    && env.inside(path)
    && (|| (!first.File? && now.File?)
        || (first.File? && now.Absent?)
        || (first.File? && now.File? && Detected(env, first, now) && !SameSmallText(env, first, now)))
  }

  predicate IsLarge(node: Node) {
    node.File? && |node.bytes| > MAX_DIFF_FILE_SIZE
  }

  predicate IsBinary(env: Env, node: Node) {
    node.File? && |node.bytes| <= MAX_DIFF_FILE_SIZE && !env.isUtf8(node.bytes)
  }

  /** What a report of `path` says. */
  predicate Describes(env: Env, c: VerifiedFileChange, path: Path, first: Node, now: Node) {
    && c.path == path
    && (c.changeType.Created? <==> !first.File?)
    && (c.changeType.Deleted? <==> first.File? && now.Absent?)
    && (c.changeType.Modified? <==> first.File? && now.File?)
    && (c.quality.LargeFileSkipped? <==> IsLarge(now))
    && (c.quality.BinarySkipped? <==> IsBinary(env, now))
    && (c.quality.MissingBaseline? <==> first.File? && TextOf(env, first).None? && (now.Absent? || TextOf(env, now).Some?))
    && (c.skippedDiff <==> !c.quality.Exact?)
    && c.oldText == (if first.File? then TextOf(env, first) else None)
    && c.newText == (if c.quality.Exact? && now.File? then now.bytes else [])
  }

  /** The verdict on a path whose baseline is `first`, for every such state and every present one. */
  lemma VerdictExactly(env: Env, fs: FileSystem, w: Window, path: Path, first: Node)
    requires Remembers(env, w, path, first) && !IsSkippedPath(path)
    ensures var r := Report(env, fs, w, path);
            && (r.Some? <==> IsReported(env, path, first, At(fs, path)))
            && (r.Some? ==> Describes(env, r.value, path, first, At(fs, path)))
  {
  }

  /** A candidate without a baseline is never reported. */
  lemma NoBaselineNoVerdict(env: Env, fs: FileSystem, w: Window, seen: map<Path, Node>, path: Path)
    requires Knows(env, w, seen) && path !in seen
    ensures Report(env, fs, w, path).None?
  {
  }

  // ---- A whole window ----

  function PathsOf(cs: seq<VerifiedFileChange>): seq<Path> {
    if cs == [] then [] else PathsOf(cs[..|cs| - 1]) + [cs[|cs| - 1].path]
  }

  /** The paths to report, in the order of the list. */
  function ToReport(env: Env, fs: FileSystem, seen: map<Path, Node>, paths: seq<Path>): seq<Path> {
    if paths == [] then []
    else
      var before, path := ToReport(env, fs, seen, paths[..|paths| - 1]), paths[|paths| - 1];
      if path in seen && IsReported(env, path, seen[path], At(fs, path)) then before + [path] else before
  }

  ghost predicate AllDescribed(env: Env, fs: FileSystem, seen: map<Path, Node>, cs: seq<VerifiedFileChange>) {
    forall c :: c in cs ==> c.path in seen && Describes(env, c, c.path, seen[c.path], At(fs, c.path))
  }

  lemma {:induction false} ReportsExactly(env: Env, fs: FileSystem, w: Window, seen: map<Path, Node>, paths: seq<Path>)
    requires Coherent(env, w, seen)
    ensures PathsOf(Reports(env, fs, w, paths)) == ToReport(env, fs, seen, paths)
    ensures AllDescribed(env, fs, seen, Reports(env, fs, w, paths))
  {
    hide Report, IsReported, Describes, Remembers;
    if paths != [] {
      var before, path := paths[..|paths| - 1], paths[|paths| - 1];
      ReportsExactly(env, fs, w, seen, before);
      var r := Report(env, fs, w, path);
      if path in seen {
        VerdictExactly(env, fs, w, path, seen[path]);
      } else {
        NoBaselineNoVerdict(env, fs, w, seen, path);
      }
      if r.Some? {
        var cs := Reports(env, fs, w, before);
        assert (cs + [r.value])[..|cs|] == cs;
      }
    }
  }

  /** The exact law of a finish, over every interleaving of disk changes and tracker calls: it reports, in
      the order of the first 64 candidates, exactly the tracked paths where a file came, went or changed,
      each with the change, its texts and what could not be read; the window closes exactly when there is
      something to report or there was no candidate. */
  lemma FinishReportsExactly(env: Env, fs: FileSystem, ops: seq<Op>, id: CallId)
    requires id in Run(env, Fresh(fs), ops).windows
    ensures id in Run(env, Fresh(fs), ops).firstSeen
    ensures var w := Run(env, Fresh(fs), ops);
            var seen, candidates := w.firstSeen[id], w.windows[id].candidates;
            var first64 := if |candidates| <= 64 then candidates else candidates[..64];
            var (after, found) := Finish(env, w.fs, w.windows, id);
            && PathsOf(found) == ToReport(env, w.fs, seen, first64)
            && AllDescribed(env, w.fs, seen, found)
            && (id !in after <==> candidates == [] || ToReport(env, w.fs, seen, first64) != [])
            && after - {id} == w.windows - {id}
  {
    hide Reports, ToReport, AllDescribed, Coherent;
    RunInv(env, fs, ops);
    var w := Run(env, Fresh(fs), ops);
    ReportsExactly(env, w.fs, w.windows[id], w.firstSeen[id], Checked(w.windows[id]));
  }
}

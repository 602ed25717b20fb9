/** Which hints become candidates of a window, and in which order. */
module FileHints {
  import opened FileTracker

  // ---- Paths that are never looked at ----

  /** `part` stands in the path between slashes or its ends, from `i` on. */
  predicate PartAt(path: Path, part: string, i: nat) {
    && i + |part| <= |path| && path[i..i + |part|] == part
    && (i == 0 || path[i - 1] == '/') && (i + |part| == |path| || path[i + |part|] == '/')
  }

  predicate NoSlash(part: string) {
    forall i :: 0 <= i < |part| ==> part[i] != '/'
  }

  ghost predicate HasPart(path: Path, part: string) {
    exists i: nat :: PartAt(path, part, i)
  }

  lemma NoPartInside(path: Path, part: string, n: nat)
    requires n < |path| && path[n] == '/' && NoSlash(path[..n]) && NoSlash(part)
    ensures HasPart(path, part) <==> part == path[..n] || HasPart(path[n + 1..], part)
  {
    var rest := path[n + 1..];
    assert forall j :: 0 <= j < n ==> path[..n][j] == path[j];
    forall i: nat | PartAt(path, part, i)
      ensures part == path[..n] || HasPart(rest, part)
    {
      if i <= n {
        assert i == 0;
        assert forall j :: 0 <= j < |part| ==> part[j] == path[j];
        assert |part| == n;
      } else {
        assert path[i..i + |part|] == rest[i - n - 1..i - n - 1 + |part|];
        assert PartAt(rest, part, i - n - 1);
      }
    }
    if part == path[..n] { assert PartAt(path, part, 0); }
    forall i: nat | PartAt(rest, part, i)
      ensures HasPart(path, part)
    {
      assert path[n + 1 + i..n + 1 + i + |part|] == rest[i..i + |part|];
      assert PartAt(path, part, n + 1 + i);
    }
  }

  lemma WholePart(path: Path, part: string)
    requires NoSlash(path)
    ensures HasPart(path, part) <==> part == path
  {
    forall i: nat | PartAt(path, part, i)
      ensures part == path
    {
      assert i == 0 && |part| == |path|;
    }
    if part == path { assert PartAt(path, part, 0); }
  }

  lemma {:induction false} SplitFinds(path: Path, part: string, n: nat)
    requires n <= |path| && NoSlash(path[..n]) && NoSlash(part)
    ensures part in SplitFrom(path, '/', n) <==> HasPart(path, part)
    decreases |path| - n, |path|
  {
    hide PartAt, HasPart;
    if n == |path| {
      assert path[..n] == path;
      WholePart(path, part);
    } else if path[n] == '/' {
      assert path[n + 1..][..0] == "";
      SplitFinds(path[n + 1..], part, 0);
      NoPartInside(path, part, n);
    } else {
      assert path[..n + 1] == path[..n] + [path[n]];
      SplitFinds(path, part, n + 1);
    }
  }

  /** A path is skipped exactly when one of its parts is a version control, build, dependency or own directory. */
  lemma SkippedExactly(path: Path)
    ensures IsSkippedPath(path)
            <==> HasPart(path, ".git") || HasPart(path, "target") || HasPart(path, "node_modules") || HasPart(path, ".kodex")
  {
    hide HasPart, SplitFrom;
    assert path[..0] == "";
    SplitFinds(path, ".git", 0);
    SplitFinds(path, "target", 0);
    SplitFinds(path, "node_modules", 0);
    SplitFinds(path, ".kodex", 0);
    var parts := Split(path, '/');
    assert forall part :: part in SKIP_DIRS <==> part == ".git" || part == "target" || part == "node_modules" || part == ".kodex";
    assert parts == SplitFrom(path, '/', 0);
  }

  // ---- Candidates ----

  /** A path that is not empty and not skipped. */
  ghost predicate Tracked(path: Path) {
    path != "" && !HasPart(path, ".git") && !HasPart(path, "target") && !HasPart(path, "node_modules") && !HasPart(path, ".kodex")
  }

  /** Hints are taken in their order, normalised; those that are not tracked are left out. */
  lemma HintsExactly(env: Env, hints: seq<string>, hint: string)
    ensures NormalizedHints(env, []) == []
    ensures NormalizedHints(env, hints + [hint])
            == NormalizedHints(env, hints) + if Tracked(env.normalize(hint)) then [env.normalize(hint)] else []
  {
    hide IsSkippedPath;
    SkippedExactly(env.normalize(hint));
    assert (hints + [hint])[..|hints|] == hints;
  }

  /** `after` has what `before` has, and then `path`, if it is new. */
  predicate WithPath(before: seq<Path>, after: seq<Path>, path: Path) {
    after == if path in before then before else before + [path]
  }

  /** Starting a window takes the hints as its candidates, repeats and all. */
  lemma StartTakesTheHints(env: Env, fs: FileSystem, ws: Windows, id: CallId, hints: seq<string>)
    requires id !in ws
    ensures var ws' := Start(env, fs, ws, id, hints);
            id in ws' && ws'[id].candidates == NormalizedHints(env, hints) && ws' - {id} == ws
  {
  }

  function WithPaths(candidates: seq<Path>, paths: seq<Path>): seq<Path> {
    if paths == [] then candidates
    else
      var before, path := WithPaths(candidates, paths[..|paths| - 1]), paths[|paths| - 1];
      if path in before then before else before + [path]
  }

  lemma {:induction false} RecordAllCandidates(env: Env, fs: FileSystem, w: Window, paths: seq<Path>)
    ensures RecordAll(env, fs, w, paths).candidates == WithPaths(w.candidates, paths)
  {
    hide MetaOf, ReadToString;
    if paths != [] { RecordAllCandidates(env, fs, w, paths[..|paths| - 1]); }
  }

  /** Starting it again adds the new ones among the hints, each once. */
  lemma RestartAddsNewHints(env: Env, fs: FileSystem, ws: Windows, id: CallId, hints: seq<string>)
    requires id in ws
    ensures var ws' := Start(env, fs, ws, id, hints);
            id in ws' && ws'[id].candidates == WithPaths(ws[id].candidates, NormalizedHints(env, hints)) && ws' - {id} == ws - {id}
  {
    hide RecordAll;
    RecordAllCandidates(env, fs, ws[id], NormalizedHints(env, hints));
  }

  /** A late hint that is tracked joins its window, or opens one; a hint with a diff only ever joins an open
      window, and leaves its baselines alone. Other hints change nothing. */
  lemma LateHintsExactly(env: Env, fs: FileSystem, ws: Windows, id: CallId, hint: string)
    ensures var path, ws', ws'' := env.normalize(hint), AddHint(env, fs, ws, id, hint), AddDiffHint(env, ws, id, hint);
            if !Tracked(path) then ws' == ws && ws'' == ws
            else
              && id in ws' && ws' - {id} == ws - {id}
              && (if id in ws then
                    && WithPath(ws[id].candidates, ws'[id].candidates, path)
                    && id in ws'' && WithPath(ws[id].candidates, ws''[id].candidates, path)
                    && ws''[id] == ws[id].(candidates := ws''[id].candidates) && ws'' - {id} == ws - {id}
                  else
                    ws'[id].candidates == NormalizedHints(env, [path]) && ws'' == ws)
  {
    hide IsSkippedPath, MetaOf, ReadToString, NormalizedHints;
    SkippedExactly(env.normalize(hint));
  }
}

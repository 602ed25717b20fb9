/** What becomes of each prompt, and what each event of the hand-off changes. */
module PromptFates {
  import opened PromptBaton

  // ---- One fate ----

  ghost predicate IsWaiting(s: Session, prompt: nat) {
    exists i :: 0 <= i < |s.pending| && s.pending[i].prompt == prompt
  }

  ghost predicate IsDropped(s: Session, prompt: nat) {
    Release(prompt, true) in s.released
  }

  /** A prompt that has arrived got to run, or waits, or was cancelled while it waited; never two of them. */
  ghost predicate OneFate(s: Session, prompt: nat) {
    if prompt in s.started then !IsWaiting(s, prompt) && !IsDropped(s, prompt)
    else prompt < s.arrived ==> IsWaiting(s, prompt) != IsDropped(s, prompt)
  }

  ghost predicate Fates(s: Session) {
    forall prompt :: OneFate(s, prompt)
  }

  lemma IsWaitingIsMember(s: Session, prompt: nat)
    ensures IsWaiting(s, prompt) <==> prompt in Waiting(s.pending)
  {
  }

  lemma DroppedWasReleased(s: Session, prompt: nat)
    ensures IsDropped(s, prompt) ==> prompt in Released(s.released)
  {
  }

  lemma ArriveKeepsFate(s: Session, prompt: nat)
    requires Inv(s) && OneFate(s, prompt)
    ensures OneFate(Arrive(s), prompt)
  {
    hide OneLoop, Sorted;
    var s' := Arrive(s);
    DroppedWasReleased(s, prompt);
    IsWaitingIsMember(s, prompt);
    if s.open && s.promptRunning {
      assert forall k :: 0 <= k < |s.pending| ==> s'.pending[k] == s.pending[k];
      assert s'.pending[|s.pending|].prompt == s.arrived;
      assert IsWaiting(s', prompt) <==> IsWaiting(s, prompt) || prompt == s.arrived;
    }
  }

  lemma ResumeKeepsFate(s: Session, i: nat, prompt: nat)
    requires i < |s.pending| && Ordered(s) && OneFate(s, prompt)
    ensures OneFate(Resume(s, i), prompt)
  {
    hide Sorted;
    var s' := Resume(s, i);
    WithoutWaiting(s, i);
    IsWaitingIsMember(s, prompt);
    IsWaitingIsMember(s', prompt);
    assert IsDropped(s', prompt) <==> IsDropped(s, prompt);
    assert prompt in s'.started <==> prompt in s.started || prompt == s.pending[i].prompt;
    assert s.pending[i].prompt in Waiting(s.pending);
  }

  lemma CancelKeepsFate(s: Session, prompt: nat)
    requires OneFate(s, prompt)
    ensures OneFate(CancelAll(s), prompt)
    ensures s.open ==> (IsDropped(CancelAll(s), prompt) <==> IsDropped(s, prompt) || IsWaiting(s, prompt))
  {
    var more := ReleaseAll(s.pending);
    if IsWaiting(s, prompt) {
      var i :| 0 <= i < |s.pending| && s.pending[i].prompt == prompt;
      assert more[i] == Release(prompt, true);
    }
    assert Release(prompt, true) in more ==> IsWaiting(s, prompt);
  }

  lemma EndKeepsFate(s: Session, ended: nat, prompt: nat)
    requires Ordered(s) && OneFate(s, prompt)
    ensures OneFate(End(s, ended), prompt)
  {
    hide Sorted;
    var s1 := s.(promptRunning := false, loops := s.loops - {ended});
    assert OneFate(s1, prompt);
    if s.pending != [] { ResumeKeepsFate(s1, Oldest(s.pending), prompt); }
  }

  lemma StepKeepsFate(s: Session, e: Event, prompt: nat)
    requires Inv(s) && OneFate(s, prompt)
    ensures OneFate(Step(s, e), prompt)
  {
    hide Sorted, ReleasedOnce, OneLoop, Resume, End, CancelAll, Arrive;
    match e
    case PromptArrives => ArriveKeepsFate(s, prompt);
    case MessageReplayed(reader, p) =>
      var i := IndexOf(s.pending, p);
      var s1 := s.(loops := s.loops - {reader});
      assert OneFate(s1, prompt);
      if i < |s.pending| { ResumeKeepsFate(s1, i, prompt); }
    case LoopEnds(p) => EndKeepsFate(s, p, prompt);
    case ProcessDies(p) =>
      assert OneFate(s.(open := false), prompt);
      EndKeepsFate(s.(open := false), p, prompt);
    case CancelRequested => CancelKeepsFate(s, prompt);
    case SessionClosed =>
      CancelKeepsFate(s, prompt);
      var s1 := CancelAll(s);
      assert OneFate(s1.(open := false), prompt);
  }

  /** Over every run: a prompt that has arrived got to run, still waits, or was cancelled while it waited, and
      only one of these. */
  lemma {:induction false} EveryPromptHasOneFate(es: seq<Event>)
    ensures Fates(Run(es))
  {
    hide Step, OneFate, Inv;
    if es != [] {
      EveryRun(es[..|es| - 1]);
      EveryPromptHasOneFate(es[..|es| - 1]);
      forall prompt: nat
        ensures OneFate(Run(es), prompt)
      {
        StepKeepsFate(Run(es[..|es| - 1]), es[|es| - 1], prompt);
      }
    } else {
      NothingHappenedYet();
    }
  }

  lemma NothingHappenedYet()
    ensures Fates(NEW_SESSION)
  {
  }

  // ---- What each event changes ----

  /** A new prompt runs at once exactly when no loop is running; otherwise it waits as the last one. In a closed
      session nothing arrives. */
  lemma ArrivalExactly(s: Session)
    requires Inv(s)
    ensures var s' := Step(s, PromptArrives);
            if !s.open then s' == s
            else
              && s'.arrived == s.arrived + 1 && s'.input == s.input + [s.arrived] && s'.released == s.released && !s'.cancelled && s'.open
              && (if s.loops == {} then s'.started == s.started + [s.arrived] && s'.loops == {s.arrived} && s'.pending == []
                  else s'.started == s.started && s'.loops == s.loops && |s'.pending| == |s.pending| + 1
                       && s'.pending[..|s.pending|] == s.pending && s'.pending[|s.pending|].prompt == s.arrived)
  {
    hide Ordered, ReleasedOnce;
  }

  /** A replay hands the loop over exactly when the loop that reads it runs, nothing was cancelled since the last
      arrival, and the prompt waits; that prompt then runs alone, and the others wait on in their order. */
  lemma ReplayExactly(s: Session, reader: nat, prompt: nat)
    requires Inv(s) && Fates(s)
    ensures var s' := Step(s, MessageReplayed(reader, prompt));
            if reader in s.loops && !s.cancelled && IsWaiting(s, prompt) then
              && s'.loops == {prompt} && s'.started == s.started + [prompt] && !IsWaiting(s', prompt)
              && s'.released == s.released + [Release(prompt, false)] && s'.open == s.open
              && exists i: nat :: i < |s.pending| && s.pending[i].prompt == prompt && s'.pending == s.pending[..i] + s.pending[i + 1..]
            else s' == s
  {
    hide ReleasedOnce;
    var i := IndexOf(s.pending, prompt);
    assert IsWaiting(s, prompt) <==> i < |s.pending|;
    if reader in s.loops && IsWaiting(s, prompt) {
      assert OneFate(s, reader) && OneFate(s, prompt);
      assert reader != prompt && s.loops - {reader} == {};
      WithoutWaiting(s, i);
      IsWaitingIsMember(Step(s, MessageReplayed(reader, prompt)), prompt);
    }
  }

  /** When the running loop ends, the session rests exactly when nobody waits; otherwise the prompt that came
      first takes over. A process that died closes the session besides. */
  lemma EndExactly(s: Session, prompt: nat)
    requires Inv(s)
    ensures var s', dead := Step(s, LoopEnds(prompt)), Step(s, ProcessDies(prompt));
            if prompt !in s.loops then s' == s && dead == s
            else if s.pending == [] then
              s' == s.(loops := {}, promptRunning := false) && dead == s'.(open := false)
            else
              && s'.loops == {s.pending[0].prompt} && s'.started == s.started + [s.pending[0].prompt] && s'.pending == s.pending[1..]
              && s'.released == s.released + [Release(s.pending[0].prompt, false)] && s'.open == s.open
              && dead == s'.(open := false)
  {
    hide ReleasedOnce;
    if prompt in s.loops {
      assert s.loops - {prompt} == {};
      if s.pending != [] {
        OldestIsFirst(s.pending);
        assert Without(s.pending, 0) == s.pending[1..];
      }
    }
  }

  /** Cancelling an open session drops exactly the prompts that wait, and the running loop goes on. */
  lemma CancelExactly(s: Session, prompt: nat)
    requires OneFate(s, prompt)
    ensures var s' := Step(s, CancelRequested);
            if !s.open then s' == s
            else
              && s'.cancelled && s'.pending == [] && s'.loops == s.loops && s'.started == s.started && s'.input == s.input && s'.open
              && (IsDropped(s', prompt) <==> IsDropped(s, prompt) || IsWaiting(s, prompt))
    ensures Step(s, SessionClosed) == Step(s, CancelRequested).(open := false)
  {
    CancelKeepsFate(s, prompt);
  }

  /** What is closed stays closed, and no prompt arrives any more. */
  lemma ClosedStaysClosed(s: Session, e: Event)
    requires !s.open
    ensures var s' := Step(s, e);
            !s'.open && s'.arrived == s.arrived && s'.input == s.input
  {
    hide Oldest, IndexOf;
  }
}

/** In which order waiting prompts take over: exactly when it is the order of their arrival. */
module PromptOrder {
  import opened PromptBaton

  ghost predicate Increasing(started: seq<nat>) {
    forall i, j :: 0 <= i < j < |started| ==> started[i] < started[j]
  }

  /** Prompts got to run in the order they arrived, and nobody who waits was overtaken. */
  ghost predicate InArrivalOrder(s: Session) {
    Increasing(s.started) && forall p, w :: p in s.started && w in s.pending ==> p < w.prompt
  }

  /** The replay that the event delivers hands the loop over. */
  predicate HandsOver(s: Session, e: Event) {
    e.MessageReplayed? && e.reader in s.loops && !s.cancelled && e.prompt != e.reader
    && IndexOf(s.pending, e.prompt) < |s.pending|
  }

  predicate NamesTheFirst(s: Session, e: Event) {
    HandsOver(s, e) ==> e.prompt == s.pending[0].prompt
  }

  ghost predicate AlwaysInArrivalOrder(es: seq<Event>) {
    InArrivalOrder(Run(es)) && (es == [] || AlwaysInArrivalOrder(es[..|es| - 1]))
  }

  ghost predicate HandOffsNameTheFirst(es: seq<Event>) {
    es == [] || (HandOffsNameTheFirst(es[..|es| - 1]) && NamesTheFirst(Run(es[..|es| - 1]), es[|es| - 1]))
  }

  lemma StartedPush(started: seq<nat>, prompt: nat)
    requires Increasing(started) && forall p :: p in started ==> p < prompt
    ensures Increasing(started + [prompt])
  {
    assert forall k :: 0 <= k < |started| ==> started[k] in started;
  }

  lemma LaterWaiters(pending: seq<Waiter>)
    requires Sorted(pending) && pending != []
    ensures forall w :: w in pending[1..] ==> w in pending && pending[0].prompt < w.prompt
  {
    forall w | w in pending[1..]
      ensures w in pending && pending[0].prompt < w.prompt
    {
      var k :| 1 <= k < |pending| && pending[k] == w;
    }
  }

  lemma ResumeFirstInOrder(s: Session)
    requires Ordered(s) && InArrivalOrder(s) && s.pending != []
    ensures InArrivalOrder(Resume(s, 0))
  {
    hide Sorted, Increasing;
    assert s.pending[0] in s.pending;
    assert Without(s.pending, 0) == s.pending[1..];
    StartedPush(s.started, s.pending[0].prompt);
    LaterWaiters(s.pending);
  }

  lemma ResumeLaterOvertakes(s: Session, i: nat)
    requires Ordered(s) && 0 < i < |s.pending|
    ensures !InArrivalOrder(Resume(s, i))
  {
    var s' := Resume(s, i);
    assert s'.started[|s.started|] == s.pending[i].prompt && s.pending[i].prompt in s'.started;
    assert s'.pending[0] == s.pending[0] && s'.pending[0] in s'.pending;
  }

  lemma ResumeKeepsArrivalOrder(s: Session, i: nat)
    requires Ordered(s) && InArrivalOrder(s) && i < |s.pending|
    ensures InArrivalOrder(Resume(s, i)) <==> i == 0
  {
    hide Ordered, InArrivalOrder, Resume;
    if i == 0 { ResumeFirstInOrder(s); } else { ResumeLaterOvertakes(s, i); }
  }

  lemma OtherStepsKeepArrivalOrder(s: Session, e: Event)
    requires Inv(s) && InArrivalOrder(s) && !HandsOver(s, e)
    ensures InArrivalOrder(Step(s, e))
  {
    match e
    case PromptArrives => assert forall i :: 0 <= i < |s.started| ==> s.started[i] in s.started;
    case LoopEnds(prompt) => if prompt in s.loops { EndKeepsArrivalOrder(s, prompt); }
    case ProcessDies(prompt) => if prompt in s.loops { EndKeepsArrivalOrder(s.(open := false), prompt); }
    case _ =>
  }

  lemma EndKeepsArrivalOrder(s: Session, prompt: nat)
    requires Ordered(s) && InArrivalOrder(s)
    ensures InArrivalOrder(End(s, prompt))
  {
    if s.pending != [] {
      OldestIsFirst(s.pending);
      ResumeKeepsArrivalOrder(s.(promptRunning := false, loops := s.loops - {prompt}), 0);
    }
  }

  lemma StepKeepsArrivalOrder(s: Session, e: Event)
    requires Inv(s) && InArrivalOrder(s)
    ensures InArrivalOrder(Step(s, e)) <==> NamesTheFirst(s, e)
  {
    hide Increasing, Resume;
    if HandsOver(s, e) {
      var i := IndexOf(s.pending, e.prompt);
      ResumeKeepsArrivalOrder(s.(loops := s.loops - {e.reader}), i);
      assert e.prompt == s.pending[0].prompt <==> i == 0;
    } else {
      OtherStepsKeepArrivalOrder(s, e);
    }
  }

  /** The exact law: throughout a run prompts take over in the order they arrived if and only if every
      replay that hands over is that of the prompt that has waited longest. Loop ends, cancellations and
      new prompts never break the order. */
  lemma {:induction false} TakeOverInArrivalOrder(es: seq<Event>)
    ensures AlwaysInArrivalOrder(es) <==> HandOffsNameTheFirst(es)
  {
    hide InArrivalOrder, NamesTheFirst, Step, Inv;
    if es != [] {
      var init, e := es[..|es| - 1], es[|es| - 1];
      EveryRun(init);
      TakeOverInArrivalOrder(init);
      if AlwaysInArrivalOrder(init) { StepKeepsArrivalOrder(Run(init), e); }
    } else {
      NewSessionIsInOrder();
    }
  }

  lemma NewSessionIsInOrder()
    ensures InArrivalOrder(NEW_SESSION)
  {
  }

  /** The replays that running loops read come in the order in which the messages were pushed, and none
      of a waiting prompt is left out; `next` follows the last one. Messages of prompts that do not wait
      may never be replayed. */
  ghost predicate ReplaysInOrder(es: seq<Event>, next: nat) {
    if es == [] then next == 0
    else
      var init, e := es[..|es| - 1], es[|es| - 1];
      if e.MessageReplayed? && e.reader in Run(init).loops then
        next == e.prompt + 1 && e.prompt < Run(init).arrived
        && exists before: nat :: before <= e.prompt && ReplaysInOrder(init, before)
             && forall w :: w in Run(init).pending ==> !(before <= w.prompt < e.prompt)
      else ReplaysInOrder(init, next)
  }

  ghost predicate NotYetReplayed(s: Session, next: nat) {
    next <= s.arrived && forall w :: w in s.pending ==> next <= w.prompt
  }

  lemma OtherStepsKeepNext(s: Session, e: Event, next: nat)
    requires Inv(s) && NotYetReplayed(s, next)
    requires !(e.MessageReplayed? && e.reader in s.loops)
    ensures NotYetReplayed(Step(s, e), next) && NamesTheFirst(s, e)
  {
    match e
    case LoopEnds(prompt) => if s.pending != [] { assert forall w :: w in End(s, prompt).pending ==> w in s.pending; }
    case ProcessDies(prompt) => if s.pending != [] { assert forall w :: w in End(s.(open := false), prompt).pending ==> w in s.pending; }
    case _ =>
  }

  lemma ReplayKeepsNext(s: Session, e: Event, before: nat)
    requires Inv(s) && InArrivalOrder(s) && NotYetReplayed(s, before)
    requires e.MessageReplayed? && e.reader in s.loops && before <= e.prompt < s.arrived
    requires forall w :: w in s.pending ==> !(before <= w.prompt < e.prompt)
    ensures NotYetReplayed(Step(s, e), e.prompt + 1) && NamesTheFirst(s, e)
  {
    var i := IndexOf(s.pending, e.prompt);
    if i < |s.pending| {
      assert s.pending[0] in s.pending && s.pending[i] in s.pending && i == 0;
      assert Without(s.pending, 0) == s.pending[1..];
      forall w | w in s.pending[1..]
        ensures e.prompt + 1 <= w.prompt
      {
        var k :| 1 <= k < |s.pending| && s.pending[k] == w;
      }
    } else {
      forall w | w in s.pending
        ensures e.prompt + 1 <= w.prompt
      {
        var k :| 0 <= k < |s.pending| && s.pending[k] == w;
      }
    }
  }

  /** Then the order of arrival is kept. */
  lemma {:induction false} OrderedReplaysKeepTheOrder(es: seq<Event>, next: nat)
    requires ReplaysInOrder(es, next)
    ensures HandOffsNameTheFirst(es) && AlwaysInArrivalOrder(es) && NotYetReplayed(Run(es), next)
  {
    hide InArrivalOrder, NamesTheFirst, Step, Inv, NotYetReplayed;
    if es != [] {
      var init, e := es[..|es| - 1], es[|es| - 1];
      EveryRun(init);
      if e.MessageReplayed? && e.reader in Run(init).loops {
        var before: nat :| before <= e.prompt && ReplaysInOrder(init, before)
          && forall w :: w in Run(init).pending ==> !(before <= w.prompt < e.prompt);
        OrderedReplaysKeepTheOrder(init, before);
        ReplayKeepsNext(Run(init), e, before);
      } else {
        OrderedReplaysKeepTheOrder(init, next);
        OtherStepsKeepNext(Run(init), e, next);
      }
    } else {
      assert NotYetReplayed(NEW_SESSION, 0) by { NothingReplayed(); }
    }
    TakeOverInArrivalOrder(es);
  }

  lemma NothingReplayed()
    ensures NotYetReplayed(NEW_SESSION, 0)
  {
  }

  /** A waiting prompt whose message is never replayed, as that of a local command, is overtaken. */
  lemma UnreplayedPromptIsOvertaken()
    ensures var s := Run([PromptArrives, PromptArrives, PromptArrives, MessageReplayed(0, 2)]);
            s.started == [0, 2] && s.pending == [Waiter(1, 0)]
  {
    var es := [PromptArrives, PromptArrives, PromptArrives, MessageReplayed(0, 2)];
    assert es[..3][..2] == es[..2] && es[..2][..1] == es[..1] && es[..1][..0] == [];
    assert Run([]) == NEW_SESSION;
    assert Run(es[..1]) == Arrive(NEW_SESSION);
    assert Run(es[..2]) == Arrive(Run(es[..1]));
    var s := Run(es[..3]);
    assert s == Arrive(Run(es[..2]));
    assert s.pending == [Waiter(1, 0), Waiter(2, 1)];
    assert s.loops == {0};
    assert Without(s.pending, 1) == [Waiter(1, 0)];
  }
}

/**
 The prompt hand-off: prompts that arrive while one runs wait, and exactly one running loop is
 passed between them, by the replay of their message, by the end of the loop, or not at all when
 the session is cancelled. Resolving a waiter and its resumption are one step, because the waiter
 resumes before the next request is looked at.
 */
module PromptBaton {
  /** Prompts are numbered in order of arrival; the number stands for the prompt's UUID. */
  datatype Waiter = Waiter(prompt: nat, order: nat)

  /** How a waiting prompt was released. */
  datatype Release = Release(prompt: nat, cancelled: bool)

  /** `loops`, `started`, `waited` and `released` are history: which prompt loops are running, which
      prompts got to run and in which order, which had to wait, and how each waiter was released. */
  datatype Session = Session(
    open: bool, promptRunning: bool, cancelled: bool, pending: seq<Waiter>, nextOrder: nat,
    input: seq<nat>, arrived: nat,
    loops: set<nat>, started: seq<nat>, waited: set<nat>, released: seq<Release>)

  const NEW_SESSION := Session(true, false, false, [], 0, [], 0, {}, [], {}, [])

  datatype Event =
    | PromptArrives
    | MessageReplayed(reader: nat, prompt: nat)
    | LoopEnds(prompt: nat)
    | ProcessDies(prompt: nat)
    | CancelRequested
    | SessionClosed

  function IndexOf(pending: seq<Waiter>, prompt: nat): (i: nat)
    ensures i <= |pending|
    ensures i < |pending| ==> pending[i].prompt == prompt
    ensures forall j :: 0 <= j < i ==> pending[j].prompt != prompt
  {
    if pending == [] || pending[0].prompt == prompt then 0 else 1 + IndexOf(pending[1..], prompt)
  }

  /** Index of a waiter with the smallest order. */
  function Oldest(pending: seq<Waiter>): (i: nat)
    requires pending != []
    ensures i < |pending| && forall j :: 0 <= j < |pending| ==> pending[i].order <= pending[j].order
  {
    if |pending| == 1 then 0
    else
      var k := Oldest(pending[..|pending| - 1]);
      if pending[|pending| - 1].order < pending[k].order then |pending| - 1 else k
  }

  function Without(pending: seq<Waiter>, i: nat): seq<Waiter>
    requires i < |pending|
  {
    pending[..i] + pending[i + 1..]
  }

  function Resume(s: Session, i: nat): Session
    requires i < |s.pending|
  {
    var prompt := s.pending[i].prompt;
    s.(pending := Without(s.pending, i), promptRunning := true, loops := s.loops + {prompt},
       started := s.started + [prompt], released := s.released + [Release(prompt, false)])
  }

  function Arrive(s: Session): Session {
    if !s.open then s
    else
      var prompt := s.arrived;
      var s1 := s.(cancelled := false, input := s.input + [prompt], arrived := s.arrived + 1);
      if s.promptRunning then
        s1.(pending := s.pending + [Waiter(prompt, s.nextOrder)], nextOrder := s.nextOrder + 1, waited := s.waited + {prompt})
      else s1.(promptRunning := true, loops := s.loops + {prompt}, started := s.started + [prompt])
  }

  /** The running loop `reader` reads the replay of `prompt`'s message. */
  function Replay(s: Session, reader: nat, prompt: nat): Session {
    var i := IndexOf(s.pending, prompt);
    if s.cancelled || prompt == reader || i == |s.pending| then s
    else Resume(s.(loops := s.loops - {reader}), i)
  }

  /** A loop ends without hand-off, for whatever reason: the oldest waiter goes on. */
  function End(s: Session, prompt: nat): Session {
    var s1 := s.(promptRunning := false, loops := s.loops - {prompt});
    if s.pending == [] then s1 else Resume(s1, Oldest(s.pending))
  }

  function ReleaseAll(pending: seq<Waiter>): seq<Release> {
    seq(|pending|, i requires 0 <= i < |pending| => Release(pending[i].prompt, true))
  }

  function CancelAll(s: Session): Session {
    if !s.open then s
    else s.(cancelled := true, released := s.released + ReleaseAll(s.pending), pending := [])
  }

  function Step(s: Session, e: Event): Session {
    match e
    case PromptArrives => Arrive(s)
    case MessageReplayed(reader, prompt) => if reader in s.loops then Replay(s, reader, prompt) else s
    case LoopEnds(prompt) => if prompt in s.loops then End(s, prompt) else s
    case ProcessDies(prompt) => if prompt in s.loops then End(s.(open := false), prompt) else s
    case CancelRequested => CancelAll(s)
    case SessionClosed => CancelAll(s).(open := false)
  }

  function Run(es: seq<Event>): Session {
    if es == [] then NEW_SESSION else Step(Run(es[..|es| - 1]), es[|es| - 1])
  }

  // ---- What every step keeps ----

  ghost predicate OneLoop(s: Session) {
    && (forall p, q :: p in s.loops && q in s.loops ==> p == q)
    && (s.promptRunning <==> s.loops != {})
    && (s.pending != [] ==> s.loops != {})
    && (s.cancelled ==> s.pending == [])
    && (forall p :: p in s.loops ==> p in s.started)
  }

  ghost predicate Sorted(pending: seq<Waiter>) {
    forall i, j :: 0 <= i < j < |pending| ==> pending[i].prompt < pending[j].prompt && pending[i].order < pending[j].order
  }

  ghost predicate Ordered(s: Session) {
    && Sorted(s.pending)
    && (forall w :: w in s.pending ==> w.prompt < s.arrived && w.order < s.nextOrder)
    && (forall p :: p in s.started ==> p < s.arrived)
    && |s.input| == s.arrived && (forall i :: 0 <= i < |s.input| ==> s.input[i] == i)
  }

  function Waiting(pending: seq<Waiter>): set<nat> {
    set i | 0 <= i < |pending| :: pending[i].prompt
  }

  function Released(released: seq<Release>): set<nat> {
    set i | 0 <= i < |released| :: released[i].prompt
  }

  /** Every prompt that ever waited is either still waiting or was released, and only once. */
  ghost predicate ReleasedOnce(s: Session) {
    && (forall i, j :: 0 <= i < j < |s.released| ==> s.released[i].prompt != s.released[j].prompt)
    && s.waited == Waiting(s.pending) + Released(s.released)
    && Waiting(s.pending) !! Released(s.released)
    && (forall p :: p in s.waited ==> p < s.arrived)
  }

  ghost predicate Inv(s: Session) {
    OneLoop(s) && Ordered(s) && ReleasedOnce(s)
  }

  lemma WithoutWaiting(s: Session, i: nat)
    requires i < |s.pending| && Ordered(s)
    ensures Waiting(Without(s.pending, i)) == Waiting(s.pending) - {s.pending[i].prompt}
  {
    var rest := Without(s.pending, i);
    forall k | 0 <= k < |s.pending| && k != i
      ensures s.pending[k].prompt in Waiting(rest)
    {
      assert rest[if k < i then k else k - 1] == s.pending[k];
    }
  }

  lemma ReleasedMore(released: seq<Release>, more: seq<Release>)
    ensures Released(released + more) == Released(released) + Released(more)
  {
    forall k | 0 <= k < |released|
      ensures released[k].prompt in Released(released + more)
    {
      assert (released + more)[k] == released[k];
    }
    forall k | 0 <= k < |more|
      ensures more[k].prompt in Released(released + more)
    {
      assert (released + more)[|released| + k] == more[k];
    }
  }

  lemma WithoutKeepsSorted(pending: seq<Waiter>, i: nat)
    requires i < |pending| && Sorted(pending)
    ensures Sorted(Without(pending, i))
    ensures forall w :: w in Without(pending, i) ==> w in pending
  {
    var rest := Without(pending, i);
    assert forall a :: 0 <= a < |rest| ==> rest[a] == pending[if a < i then a else a + 1];
  }

  lemma ResumeKeepsOrdered(s: Session, i: nat)
    requires i < |s.pending| && Ordered(s)
    ensures Ordered(Resume(s, i))
  {
    hide Sorted, Without;
    assert s.pending[i] in s.pending;
    WithoutKeepsSorted(s.pending, i);
  }

  /** The order numbers and the positions agree. */
  lemma OldestIsFirst(pending: seq<Waiter>)
    requires pending != [] && Sorted(pending)
    ensures Oldest(pending) == 0
  {
    var i := Oldest(pending);
    assert pending[i].order <= pending[0].order;
  }

  lemma ResumeKeepsReleased(s: Session, i: nat)
    requires i < |s.pending| && Ordered(s) && ReleasedOnce(s)
    ensures ReleasedOnce(Resume(s, i))
  {
    WithoutWaiting(s, i);
    ReleasedMore(s.released, [Release(s.pending[i].prompt, false)]);
    assert Released([Release(s.pending[i].prompt, false)]) == {s.pending[i].prompt} by {
      assert [Release(s.pending[i].prompt, false)][0].prompt == s.pending[i].prompt;
    }
    assert s.pending[i].prompt in Waiting(s.pending);
    assert forall k :: 0 <= k < |s.released| ==> s.released[k].prompt in Released(s.released);
  }

  lemma CancelKeepsReleased(s: Session)
    requires Sorted(s.pending) && ReleasedOnce(s)
    ensures ReleasedOnce(CancelAll(s))
  {
    var more := ReleaseAll(s.pending);
    ReleasedMore(s.released, more);
    assert Released(more) == Waiting(s.pending) by {
      assert forall k :: 0 <= k < |more| ==> more[k].prompt == s.pending[k].prompt;
    }
    assert Waiting([]) == {};
    assert forall k :: 0 <= k < |s.released| ==> s.released[k].prompt in Released(s.released);
    assert forall k :: 0 <= k < |more| ==> more[k].prompt in Waiting(s.pending);
  }

  lemma ArriveKeepsReleased(s: Session)
    requires Ordered(s) && ReleasedOnce(s)
    ensures ReleasedOnce(Arrive(s))
  {
    hide Sorted;
    var s' := Arrive(s);
    if s.open && s.promptRunning {
      assert Waiting(s'.pending) == Waiting(s.pending) + {s.arrived} by {
        assert s'.pending[|s.pending|].prompt == s.arrived;
        assert forall k :: 0 <= k < |s.pending| ==> s'.pending[k] == s.pending[k];
      }
      assert s.arrived !in Released(s.released);
    }
  }

  lemma ArriveKeepsOrdered(s: Session)
    requires Ordered(s)
    ensures Ordered(Arrive(s))
  {
    assert forall k :: 0 <= k < |s.pending| ==> s.pending[k] in s.pending;
  }

  lemma ArriveKeepsInv(s: Session)
    requires Inv(s)
    ensures Inv(Arrive(s))
  {
    hide Ordered, ReleasedOnce;
    ArriveKeepsOrdered(s);
    ArriveKeepsReleased(s);
  }

  lemma StepKeepsInv(s: Session, e: Event)
    requires Inv(s)
    ensures Inv(Step(s, e))
  {
    hide Ordered, ReleasedOnce;
    match e
    case PromptArrives => ArriveKeepsInv(s);
    case MessageReplayed(reader, prompt) =>
      var i := IndexOf(s.pending, prompt);
      if reader in s.loops && !s.cancelled && prompt != reader && i < |s.pending| {
        LoopsDoNotMatter(s, s.(loops := s.loops - {reader}));
        ResumeKeepsOrdered(s.(loops := s.loops - {reader}), i);
        ResumeKeepsReleased(s.(loops := s.loops - {reader}), i);
      }
    case LoopEnds(prompt) => if prompt in s.loops { EndKeepsInv(s, prompt); }
    case ProcessDies(prompt) =>
      LoopsDoNotMatter(s, s.(open := false));
      if prompt in s.loops { EndKeepsInv(s.(open := false), prompt); }
    case CancelRequested => CancelKeepsInv(s);
    case SessionClosed =>
      CancelKeepsInv(s);
      LoopsDoNotMatter(CancelAll(s), CancelAll(s).(open := false));
  }

  lemma LoopsDoNotMatter(s: Session, s': Session)
    requires s' == s.(loops := s'.loops, open := s'.open, promptRunning := s'.promptRunning)
    ensures Ordered(s) <==> Ordered(s')
    ensures ReleasedOnce(s) <==> ReleasedOnce(s')
  {}

  lemma EndKeepsInv(s: Session, prompt: nat)
    requires Inv(s) && prompt in s.loops
    ensures Inv(End(s, prompt))
  {
    hide Ordered, ReleasedOnce;
    var s1 := s.(promptRunning := false, loops := s.loops - {prompt});
    LoopsDoNotMatter(s, s1);
    if s.pending != [] {
      ResumeKeepsOrdered(s1, Oldest(s.pending));
      ResumeKeepsReleased(s1, Oldest(s.pending));
    }
  }

  lemma CancelKeepsInv(s: Session)
    requires Inv(s)
    ensures Inv(CancelAll(s))
  {
    CancelKeepsReleased(s);
    hide ReleasedOnce;
  }

  /** Over every run: at most one prompt loop is active and the flag says so, no waiter is ever
      without an active loop, and every waiter is released exactly once. */
  lemma {:induction false} EveryRun(es: seq<Event>)
    ensures Inv(Run(es))
  {
    hide Step;
    if es != [] {
      EveryRun(es[..|es| - 1]);
      StepKeepsInv(Run(es[..|es| - 1]), es[|es| - 1]);
    } else {
      assert Waiting([]) == {} && Released([]) == {};
    }
  }

  /** A loop that ends without hand-off passes on to the waiter that arrived first. */
  lemma EndResumesTheOldest(s: Session, prompt: nat)
    requires Inv(s) && prompt in s.loops && s.pending != []
    ensures var s' := End(s, prompt);
            && s'.loops == {s.pending[0].prompt} && s'.started == s.started + [s.pending[0].prompt]
            && s'.pending == s.pending[1..]
            && forall w :: w in s'.pending ==> s.pending[0].prompt < w.prompt
  {
    hide ReleasedOnce, Oldest;
    OldestIsFirst(s.pending);
    assert Without(s.pending, 0) == s.pending[1..];
    assert s.loops - {prompt} == {};
  }
}

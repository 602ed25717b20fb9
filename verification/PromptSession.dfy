/**
 The session object of the prompt hand-off, with the fields and loops of the adapter; every method is
 proved to do what the step function of `PromptBaton` says.
 */
module PromptSessions {
  import opened PromptBaton
  import Pushables

  datatype PromptStart = SessionNotFound | Runs(prompt: nat) | Waits(prompt: nat)

  /** The fields of a session that the prompt queue uses; the ghost fields are the history. Messages
      go to the SDK through `input`, in the order in which the prompts arrived. */
  class PromptSession {
    var open: bool
    var promptRunning: bool
    var cancelled: bool
    var pending: seq<Waiter>
    var nextOrder: nat
    const input: Pushables.Pushable<nat>
    var arrived: nat
    ghost var loops: set<nat>
    ghost var started: seq<nat>
    ghost var waited: set<nat>
    ghost var released: seq<Release>

    constructor ()
      ensures View() == NEW_SESSION && Valid() && fresh(input)
    {
      open, promptRunning, cancelled, pending, nextOrder, arrived := true, false, false, [], 0, 0;
      input := new Pushables.Pushable<nat>();
      loops, started, waited, released := {}, [], {}, [];
    }

    ghost predicate Valid()
      reads this, input
    {
      input.Valid()
    }

    ghost function View(): Session
      reads this, input
    {
      Session(open, promptRunning, cancelled, pending, nextOrder, input.pushed, arrived, loops, started, waited, released)
    }

    method Enqueue() returns (prompt: nat)
      requires Valid()
      modifies this`cancelled, this`arrived, input
      ensures prompt == old(arrived) && Valid()
      ensures View() == old(View()).(cancelled := false, input := old(input.pushed) + [prompt], arrived := old(arrived) + 1)
    {
      prompt := arrived;
      cancelled := false;
      arrived := arrived + 1;
      input.Push(prompt);
    }

    /** The start of `prompt`: run at once, or wait for the baton. */
    method Prompt() returns (r: PromptStart)
      requires Valid()
      modifies this, input
      ensures View() == Arrive(old(View())) && Valid()
      ensures r == if !old(open) then SessionNotFound
                   else if old(promptRunning) then Waits(old(arrived)) else Runs(old(arrived))
    {
      if !open {
        return SessionNotFound;
      }
      var prompt := Enqueue();
      if promptRunning {
        var order := nextOrder;
        nextOrder := nextOrder + 1;
        pending := pending + [Waiter(prompt, order)];
        waited := waited + {prompt};
        return Waits(prompt);
      }
      promptRunning := true;
      loops, started := loops + {prompt}, started + [prompt];
      r := Runs(prompt);
    }

    /** A waiter is told to go on, and does. */
    method ResumeWaiter(i: nat)
      requires i < |pending|
      modifies this
      ensures View() == Resume(old(View()), i)
    {
      var prompt := pending[i].prompt;
      pending := pending[..i] + pending[i + 1..];
      released := released + [Release(prompt, false)];
      promptRunning := true;
      loops, started := loops + {prompt}, started + [prompt];
    }

    /** The running loop `reader` reads a replayed user message. */
    method ReadReplay(reader: nat, prompt: nat) returns (handedOff: bool)
      modifies this
      ensures View() == Replay(old(View()), reader, prompt)
      ensures handedOff <==> !old(cancelled) && prompt != reader && IndexOf(old(pending), prompt) < |old(pending)|
    {
      if cancelled || prompt == reader {
        return false;
      }
      var i := 0;
      while i < |pending| && pending[i].prompt != prompt
        invariant i <= |pending|
        invariant forall j :: 0 <= j < i ==> pending[j].prompt != prompt
      {
        i := i + 1;
      }
      FirstWaiter(pending, prompt, i);
      if i == |pending| {
        return false;
      }
      loops := loops - {reader};
      ResumeWaiter(i);
      handedOff := true;
    }

    lemma FirstWaiter(pending: seq<Waiter>, prompt: nat, i: nat)
      requires i <= |pending| && (i < |pending| ==> pending[i].prompt == prompt)
      requires forall j :: 0 <= j < i ==> pending[j].prompt != prompt
      ensures IndexOf(pending, prompt) == i
    {}

    /** The `finally` part of a loop that did not hand off. */
    method EndLoop(prompt: nat)
      modifies this
      ensures View() == End(old(View()), prompt)
    {
      promptRunning := false;
      loops := loops - {prompt};
      if |pending| > 0 {
        var next := 0;
        for i := 1 to |pending|
          invariant next < i && next == Oldest(pending[..i])
        {
          assert pending[..i + 1][..i] == pending[..i];
          if pending[i].order < pending[next].order {
            next := i;
          }
        }
        assert pending[..|pending|] == pending;
        ResumeWaiter(next);
      }
    }

    method Cancel()
      modifies this
      ensures View() == CancelAll(old(View()))
    {
      if !open {
        return;
      }
      cancelled := true;
      for i := 0 to |pending|
        invariant released == old(released) + ReleaseAll(pending[..i])
        modifies this`released
      {
        released := released + [Release(pending[i].prompt, true)];
      }
      assert pending[..|pending|] == pending;
      pending := [];
    }
  }
}

/**
 What holds over every sequence of login requests. The reference is the history of the replies:
 which codes were issued to an email and when, which guesses were answered with "wrong code", and
 which sessions were opened.
 */
module LoginRuns {
  import opened Options
  import opened Counting
  import opened Login

  function Run(es: seq<Event>): State {
    if es == [] then EMPTY else Step(Run(es[..|es| - 1]), es[|es| - 1]).state
  }

  /** The reply to the last request. */
  function LastReply(es: seq<Event>): Reply
    requires es != []
  {
    Step(Run(es[..|es| - 1]), es[|es| - 1]).reply
  }

  /** The history of one email: when codes were issued and wrong guesses compared; the last code,
      the wrong guesses at it and the sessions it opened. */
  datatype Past = Past(issues: seq<int>, wrongs: seq<int>, code: string, misses: nat, logins: nat)

  function PastAfter(p: Past, email: string, e: Event, reply: Reply): Past {
    if e.email != email then p
    else if e.SendCode? && (reply.CodeSent? || reply.MailFailed?) then Past(p.issues + [e.issuedAt], p.wrongs, e.code, 0, 0)
    else if e.Verify? && reply.WrongCode? then p.(wrongs := p.wrongs + [e.now], misses := p.misses + 1)
    else if e.Verify? && reply.LoggedIn? then p.(logins := p.logins + 1)
    else p
  }

  function History(es: seq<Event>, email: string): Past {
    if es == [] then Past([], [], "", 0, 0)
    else PastAfter(History(es[..|es| - 1], email), email, es[|es| - 1], LastReply(es))
  }

  function Clock(es: seq<Event>, start: int): int {
    if es == [] then start
    else match es[|es| - 1]
      case SendCode(_, _, issuedAt, _, _) => issuedAt
      case Verify(_, now, _) => now
  }

  /** The clock does not go back. */
  predicate Follows(clock: int, e: Event) {
    clock <= e.now && (e.SendCode? ==> e.now <= e.issuedAt)
  }

  ghost predicate Timely(es: seq<Event>, start: int) {
    es == [] || (Timely(es[..|es| - 1], start) && Follows(Clock(es[..|es| - 1], start), es[|es| - 1]))
  }

  // ---- One email's codes ----

  /** Neighbouring issues are at least a minute apart. */
  ghost predicate Apart(issues: seq<int>) {
    forall i :: 0 < i < |issues| ==> issues[i] - issues[i - 1] >= ISSUE_COOLDOWN_MS
  }

  ghost predicate UpTo(times: seq<int>, clock: int) {
    forall i :: 0 <= i < |times| ==> times[i] <= clock
  }

  ghost predicate FewMisses(p: Past) {
    forall from :: CountSince(p.wrongs, from) <= MAX_ATTEMPTS * CountSince(p.issues, from) + p.misses
  }

  predicate RowShows(s: State, p: Past, email: string) {
    if email in s.codes then
      && p.issues != []
      && s.codes[email] == CodeRow(p.code, p.issues[|p.issues| - 1], p.misses, p.logins == 1)
      && p.misses <= MAX_ATTEMPTS && p.logins <= 1
    else p == Past([], [], "", 0, 0)
  }

  ghost predicate Inv(s: State, p: Past, email: string, clock: int) {
    && RowShows(s, p, email)
    && Apart(p.issues) && UpTo(p.issues, clock) && UpTo(p.wrongs, clock)
    && FewMisses(p)
  }

  lemma IssueKeepsFewMisses(p: Past, at: int, code: string)
    requires FewMisses(p) && UpTo(p.wrongs, at) && p.misses <= MAX_ATTEMPTS
    ensures FewMisses(Past(p.issues + [at], p.wrongs, code, 0, 0))
  {
    hide CountSince;
    forall from
      ensures CountSince(p.wrongs, from) <= MAX_ATTEMPTS * CountSince(p.issues + [at], from)
    {
      CountPush(p.issues, at, from, from);
      assert CountSince(p.wrongs, from) <= MAX_ATTEMPTS * CountSince(p.issues, from) + p.misses;
      if from > at { CountSincePast(p.wrongs, from); }
    }
  }

  lemma MissKeepsFewMisses(p: Past, at: int)
    requires FewMisses(p)
    ensures FewMisses(p.(wrongs := p.wrongs + [at], misses := p.misses + 1))
  {
    hide CountSince;
    forall from
      ensures CountSince(p.wrongs + [at], from) <= MAX_ATTEMPTS * CountSince(p.issues, from) + p.misses + 1
    {
      CountPush(p.wrongs, at, from, from);
    }
  }

  lemma RequestKeepsInv(s: State, p: Past, email: string, clock: int, e: Event)
    requires Inv(s, p, email, clock) && Follows(clock, e) && e.SendCode? && e.email == email
    ensures Inv(Step(s, e).state, PastAfter(p, email, e, Step(s, e).reply), email, e.issuedAt)
  {
    hide FewMisses;
    IssueKeepsFewMisses(p, e.issuedAt, e.code);
  }

  lemma VerifyKeepsInv(s: State, p: Past, email: string, clock: int, e: Event)
    requires Inv(s, p, email, clock) && Follows(clock, e) && e.Verify? && e.email == email
    ensures Inv(Step(s, e).state, PastAfter(p, email, e, Step(s, e).reply), email, e.now)
  {
    hide FewMisses, WithSession;
    SessionKeepsCodes(s, email);
    MissKeepsFewMisses(p, e.now);
    LoginKeepsFewMisses(p);
    var p' := PastAfter(p, email, e, Step(s, e).reply);
    assert p'.issues == p.issues;
    assert UpTo(p'.issues, e.now) && UpTo(p'.wrongs, e.now);
  }

  lemma SessionKeepsCodes(s: State, email: string)
    ensures forall codes :: WithSession(s.(codes := codes), email).codes == codes
  {
  }

  lemma OthersKeepInv(s: State, p: Past, email: string, clock: int, e: Event)
    requires Inv(s, p, email, clock) && Follows(clock, e) && e.email != email
    ensures Inv(Step(s, e).state, PastAfter(p, email, e, Step(s, e).reply), email, if e.SendCode? then e.issuedAt else e.now)
  {
    hide FewMisses;
  }

  lemma StepKeepsInv(s: State, p: Past, email: string, clock: int, e: Event)
    requires Inv(s, p, email, clock) && Follows(clock, e)
    ensures Inv(Step(s, e).state, PastAfter(p, email, e, Step(s, e).reply), email, if e.SendCode? then e.issuedAt else e.now)
  {
    hide Inv, Step, PastAfter;
    if e.email != email {
      OthersKeepInv(s, p, email, clock, e);
    } else if e.SendCode? {
      RequestKeepsInv(s, p, email, clock, e);
    } else {
      VerifyKeepsInv(s, p, email, clock, e);
    }
  }

  lemma LoginKeepsFewMisses(p: Past)
    requires FewMisses(p)
    ensures FewMisses(p.(logins := p.logins + 1))
  {
  }

  /** The code row is what the replies say: the last issued code, the wrong guesses since (never more
      than five) and whether it opened its one session; codes are issued at least a minute apart. */
  lemma {:induction false} EveryRun(es: seq<Event>, email: string, start: int)
    requires Timely(es, start)
    ensures Inv(Run(es), History(es, email), email, Clock(es, start))
  {
    if es == [] {
      assert CountSince([], start) == 0;
    } else {
      hide Step, PastAfter, Inv, Follows;
      EveryRun(es[..|es| - 1], email, start);
      StepKeepsInv(Run(es[..|es| - 1]), History(es[..|es| - 1], email), email, Clock(es[..|es| - 1], start), es[|es| - 1]);
    }
  }

  /** Exactly when a guess opens a session: it is the last issued code, at most ten minutes old, not
      used yet, and not missed five times since. */
  lemma LoginSucceedsExactly(es: seq<Event>, email: string, start: int, now: int, guess: string)
    requires Timely(es, start)
    ensures var p := History(es, email);
            Step(Run(es), Verify(email, now, guess)).reply.LoggedIn?
            <==> && p.issues != [] && guess == p.code && now - p.issues[|p.issues| - 1] <= CODE_TTL_MS
                 && p.logins == 0 && p.misses < MAX_ATTEMPTS
  {
    hide Run, History, Clock, FewMisses, Timely;
    EveryRun(es, email, start);
  }

  /** What a guess is answered, by what happened before: the first reason that applies decides. */
  lemma GuessIsAnsweredExactly(es: seq<Event>, email: string, start: int, now: int, guess: string)
    requires Timely(es, start)
    ensures var p, reply := History(es, email), Step(Run(es), Verify(email, now, guess)).reply;
            if p.issues == [] then reply == NoCode
            else
              var late := now - p.issues[|p.issues| - 1] > CODE_TTL_MS;
              && (reply == AlreadyUsed <==> p.logins == 1)
              && (reply == Expired <==> p.logins == 0 && late)
              && (reply == TooManyAttempts <==> p.logins == 0 && !late && p.misses == MAX_ATTEMPTS)
              && (reply == WrongCode <==> p.logins == 0 && !late && p.misses < MAX_ATTEMPTS && guess != p.code)
              && reply != NoCode
  {
    hide Run, History, Clock, FewMisses, Timely, WithSession;
    EveryRun(es, email, start);
  }

  /** A code is refused exactly within a minute of the last one issued to the same email; otherwise it counts
      from now on, with nothing used or missed, even when the mail fails. Other emails and all accounts stay as
      they are. */
  lemma CodeIsIssuedExactly(es: seq<Event>, start: int, e: Event)
    requires Timely(es, start) && Follows(Clock(es, start), e) && e.SendCode?
    ensures var p, p', reply := History(es, e.email), History(es + [e], e.email), LastReply(es + [e]);
            if p.issues != [] && e.now - p.issues[|p.issues| - 1] < ISSUE_COOLDOWN_MS then
              reply == TooSoon && Run(es + [e]) == Run(es) && p' == p
            else
              && reply == (if e.mailWorks then CodeSent else MailFailed)
              && p'.issues == p.issues + [e.issuedAt] && p'.code == e.code && p'.misses == 0 && p'.logins == 0
              && Run(es + [e]).codes[e.email := CodeRow("", 0, 0, false)] == Run(es).codes[e.email := CodeRow("", 0, 0, false)]
              && Run(es + [e]).accounts == Run(es).accounts
  {
    hide Clock, FewMisses, Timely;
    EveryRun(es, e.email, start);
    assert (es + [e])[..|es|] == es;
  }

  /** Spaced times: an interval holds one, and one more per whole minute. */
  lemma {:induction false} ApartMeansFew(issues: seq<int>, from: int, to: int)
    requires Apart(issues) && from <= to
    ensures ISSUE_COOLDOWN_MS * CountIn(issues, from, to) <= to - from + ISSUE_COOLDOWN_MS
  {
    if issues != [] {
      var last := issues[|issues| - 1];
      var rest := issues[..|issues| - 1];
      ApartMeansFew(rest, from, to);
      if from <= last <= to {
        if last - ISSUE_COOLDOWN_MS < from {
          ApartBefore(issues, from, to);
        } else {
          ApartMeansFew(rest, from, last - ISSUE_COOLDOWN_MS);
          ApartAllBefore(rest, from, to, last - ISSUE_COOLDOWN_MS);
        }
      }
    }
  }

  lemma {:induction false} ApartAllBefore(times: seq<int>, from: int, to: int, latest: int)
    requires Apart(times) && (times != [] ==> times[|times| - 1] <= latest)
    ensures CountIn(times, from, to) <= CountIn(times, from, latest)
  {
    if times != [] { ApartAllBefore(times[..|times| - 1], from, to, latest); }
  }

  lemma ApartBefore(issues: seq<int>, from: int, to: int)
    requires issues != [] && Apart(issues) && issues[|issues| - 1] - ISSUE_COOLDOWN_MS < from
    ensures CountIn(issues[..|issues| - 1], from, to) == 0
  {
    var rest := issues[..|issues| - 1];
    ApartAllBefore(rest, from, to, from - 1);
    EmptyInterval(rest, from);
  }

  lemma {:induction false} EmptyInterval(times: seq<int>, from: int)
    ensures CountIn(times, from, from - 1) == 0
  {
    if times != [] { EmptyInterval(times[..|times| - 1], from); }
  }

  lemma {:induction false} MissesPerIssue(es: seq<Event>, email: string, start: int, from: int, to: int)
    requires Timely(es, start)
    ensures var p := History(es, email);
            CountIn(p.wrongs, from, to) <= MAX_ATTEMPTS * CountIn(p.issues, from, to) + MAX_ATTEMPTS
  {
    if es != [] {
      var p := History(es[..|es| - 1], email);
      if Clock(es, start) <= to {
        EveryRun(es, email, start);
        var q := History(es, email);
        CountInSince(q.wrongs, from, to);
        SinceIsIn(q.issues, from, to);
        assert CountSince(q.wrongs, from) <= MAX_ATTEMPTS * CountSince(q.issues, from) + q.misses;
      } else {
        MissesPerIssue(es[..|es| - 1], email, start, from, to);
        var e := es[|es| - 1];
        if e.SendCode? { CountPush(p.issues, e.issuedAt, from, to); }
        CountPush(p.wrongs, e.now, from, to);
      }
    }
  }

  lemma {:induction false} SinceIsIn(times: seq<int>, from: int, to: int)
    requires UpTo(times, to)
    ensures CountSince(times, from) == CountIn(times, from, to)
  {
    if times != [] { SinceIsIn(times[..|times| - 1], from, to); }
  }

  /** In any `length` milliseconds at most five wrong guesses per whole minute, and ten more, are
      compared for an email. */
  lemma GuessesAreBounded(es: seq<Event>, email: string, start: int, from: int, length: nat)
    requires Timely(es, start)
    ensures CountWithin(History(es, email).wrongs, from, length) <= MAX_ATTEMPTS * (length / ISSUE_COOLDOWN_MS + 2)
  {
    hide History, Timely, Clock, CountIn, FewMisses, Run;
    EveryRun(es, email, start);
    MissesPerIssue(es, email, start, from, from + length);
    ApartMeansFew(History(es, email).issues, from, from + length);
  }

  // ---- Accounts ----

  datatype Opened = Opened(email: string, id: nat, token: nat)

  function LoginsAfter(logins: seq<Opened>, e: Event, reply: Reply): seq<Opened> {
    match reply
    case LoggedIn(id, token) => logins + [Opened(e.email, id, token)]
    case _ => logins
  }

  function Logins(es: seq<Event>): seq<Opened> {
    if es == [] then [] else LoginsAfter(Logins(es[..|es| - 1]), es[|es| - 1], LastReply(es))
  }

  function LatestLogin(logins: seq<Opened>, email: string): Option<Account> {
    if logins == [] then None
    else if logins[|logins| - 1].email == email then Some(Account(logins[|logins| - 1].id, logins[|logins| - 1].token))
    else LatestLogin(logins[..|logins| - 1], email)
  }

  ghost predicate AccountsInv(s: State, logins: seq<Opened>) {
    && (forall email :: LatestLogin(logins, email) == if email in s.accounts then Some(s.accounts[email]) else None)
    && (forall i :: 0 <= i < |logins| ==> logins[i].email in s.accounts && s.accounts[logins[i].email].id == logins[i].id)
    && (forall e, f :: e in s.accounts && f in s.accounts && s.accounts[e].id == s.accounts[f].id ==> e == f)
    && (forall e :: e in s.accounts ==> s.accounts[e].id < s.minted)
    && (forall i :: 0 <= i < |logins| ==> logins[i].token < s.minted)
    && (forall i, j :: 0 <= i < j < |logins| ==> logins[i].token < logins[j].token)
  }

  lemma LatestLoginPush(logins: seq<Opened>, l: Opened, email: string)
    ensures LatestLogin(logins + [l], email) == if l.email == email then Some(Account(l.id, l.token)) else LatestLogin(logins, email)
  {
    assert (logins + [l])[..|logins|] == logins;
  }

  lemma SessionKeepsAccounts(s: State, logins: seq<Opened>, email: string)
    requires AccountsInv(s, logins)
    ensures var s' := WithSession(s, email);
            AccountsInv(s', logins + [Opened(email, s'.accounts[email].id, s'.accounts[email].token)])
  {
    hide LatestLogin;
    var s' := WithSession(s, email);
    var l := Opened(email, s'.accounts[email].id, s'.accounts[email].token);
    forall other
      ensures LatestLogin(logins + [l], other) == if other in s'.accounts then Some(s'.accounts[other]) else None
    {
      LatestLoginPush(logins, l, other);
    }
  }

  lemma CodesDoNotMatter(s: State, logins: seq<Opened>, codes: map<string, CodeRow>)
    requires AccountsInv(s, logins)
    ensures AccountsInv(s.(codes := codes), logins)
  {
    hide LatestLogin;
  }

  lemma StepKeepsAccounts(s: State, logins: seq<Opened>, e: Event)
    requires AccountsInv(s, logins)
    ensures AccountsInv(Step(s, e).state, LoginsAfter(logins, e, Step(s, e).reply))
  {
    hide AccountsInv, WithSession;
    var s' := Step(s, e).state;
    if Step(s, e).reply.LoggedIn? {
      var consumed := s.(codes := s.codes[e.email := s.codes[e.email].(consumed := true)]);
      CodesDoNotMatter(s, logins, consumed.codes);
      SessionKeepsAccounts(consumed, logins, e.email);
    } else {
      CodesDoNotMatter(s, logins, s'.codes);
    }
  }

  lemma {:induction false} AccountsFollowLogins(es: seq<Event>)
    ensures AccountsInv(Run(es), Logins(es))
  {
    if es != [] {
      hide AccountsInv, Step;
      AccountsFollowLogins(es[..|es| - 1]);
      StepKeepsAccounts(Run(es[..|es| - 1]), Logins(es[..|es| - 1]), es[|es| - 1]);
    }
  }

  /** Two sessions belong to the same account if and only if they were opened for the same email. */
  lemma AccountIdsAreStable(es: seq<Event>, i: nat, j: nat)
    requires i < |Logins(es)| && j < |Logins(es)|
    ensures Logins(es)[i].email == Logins(es)[j].email <==> Logins(es)[i].id == Logins(es)[j].id
  {
    hide Run, Logins, LatestLogin;
    AccountsFollowLogins(es);
  }

  lemma {:induction false} LatestLoginIsLast(logins: seq<Opened>, email: string) returns (i: nat)
    requires LatestLogin(logins, email).Some?
    ensures i < |logins| && logins[i].email == email && LatestLogin(logins, email) == Some(Account(logins[i].id, logins[i].token))
    ensures forall j :: i < j < |logins| ==> logins[j].email != email
  {
    i := |logins| - 1;
    if logins[i].email != email { i := LatestLoginIsLast(logins[..i], email); }
  }

  /** A token resolves exactly to the account it was opened for, and only until the next session of
      the same email is opened. */
  lemma OnlyTheNewestTokenResolves(es: seq<Event>, k: nat, id: nat)
    requires k < |Logins(es)|
    ensures var l := Logins(es)[k];
            Resolves(Run(es), l.token, id)
            <==> id == l.id && forall j :: k < j < |Logins(es)| ==> Logins(es)[j].email != l.email
  {
    hide Run, Logins, LatestLogin;
    AccountsFollowLogins(es);
    var logins, s := Logins(es), Run(es);
    var l := logins[k];
    var i := LatestLoginIsLast(logins, l.email);
    assert s.accounts[l.email] == Account(logins[i].id, logins[i].token);
    if Resolves(s, l.token, id) {
      var email :| email in s.accounts && s.accounts[email] == Account(id, l.token);
      var m := LatestLoginIsLast(logins, email);
      assert m == k;
    }
  }
}

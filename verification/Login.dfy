/**
 Login by a one-time code sent to an email address, and the accounts it opens. The two tables hold
 one code row per email and one account row per email; freshly made account ids and session tokens
 are counted.
 */
module Login {
  const CODE_TTL_MS: nat := 600_000
  const MAX_ATTEMPTS: nat := 5
  const ISSUE_COOLDOWN_MS: nat := 60_000

  datatype CodeRow = CodeRow(code: string, issuedAt: int, attempts: nat, consumed: bool)

  datatype Account = Account(id: nat, token: nat)

  datatype State = State(codes: map<string, CodeRow>, accounts: map<string, Account>, minted: nat)

  const EMPTY := State(map[], map[], 0)

  datatype Reply =
    | CodeSent
    | TooSoon
    | MailFailed
    | NoCode
    | AlreadyUsed
    | Expired
    | TooManyAttempts
    | WrongCode
    | LoggedIn(account: nat, token: nat)

  datatype Outcome = Outcome(state: State, reply: Reply)

  /** `now` is read for the cooldown and `issuedAt`, later, when the row is written. */
  datatype Event =
    | SendCode(email: string, now: int, issuedAt: int, code: string, mailWorks: bool)
    | Verify(email: string, now: int, guess: string)

  // ---- The two requests ----

  function CodeRequested(s: State, email: string, now: int, issuedAt: int, code: string, mailWorks: bool): Outcome {
    if email in s.codes && now - s.codes[email].issuedAt < ISSUE_COOLDOWN_MS then Outcome(s, TooSoon)
    else
      Outcome(s.(codes := s.codes[email := CodeRow(code, issuedAt, 0, false)]),
              if mailWorks then CodeSent else MailFailed)
  }

  /** An account keeps its id and gets a new token; a new account is given an id of its own. */
  function WithSession(s: State, email: string): State {
    var token, id := s.minted, s.minted + 1;
    s.(accounts := s.accounts[email := if email in s.accounts then s.accounts[email].(token := token) else Account(id, token)],
       minted := s.minted + 2)
  }

  function Verified(s: State, email: string, now: int, guess: string): Outcome {
    if email !in s.codes then Outcome(s, NoCode)
    else
      var row := s.codes[email];
      if row.consumed then Outcome(s, AlreadyUsed)
      else if now - row.issuedAt > CODE_TTL_MS then Outcome(s, Expired)
      else if row.attempts >= MAX_ATTEMPTS then Outcome(s, TooManyAttempts)
      else if guess != row.code then
        Outcome(s.(codes := s.codes[email := row.(attempts := row.attempts + 1)]), WrongCode)
      else
        var s' := WithSession(s.(codes := s.codes[email := row.(consumed := true)]), email);
        Outcome(s', LoggedIn(s'.accounts[email].id, s'.accounts[email].token))
  }

  function Step(s: State, e: Event): Outcome {
    match e
    case SendCode(email, now, issuedAt, code, mailWorks) => CodeRequested(s, email, now, issuedAt, code, mailWorks)
    case Verify(email, now, guess) => Verified(s, email, now, guess)
  }

  /** The account a session token belongs to, as binding a device looks it up. */
  predicate Resolves(s: State, token: nat, id: nat) {
    exists email :: email in s.accounts && s.accounts[email] == Account(id, token)
  }

  class LoginServer {
    var codes: map<string, CodeRow>
    var accounts: map<string, Account>
    var minted: nat

    constructor ()
      ensures Current() == EMPTY
    {
      codes, accounts, minted := map[], map[], 0;
    }

    function Current(): State
      reads this
    {
      State(codes, accounts, minted)
    }

    method SendLoginCode(email: string, now: int, issuedAt: int, code: string, mailWorks: bool) returns (reply: Reply)
      modifies this`codes
      ensures Outcome(Current(), reply) == CodeRequested(old(Current()), email, now, issuedAt, code, mailWorks)
    {
      if email in codes {
        var row := codes[email];
        if now - row.issuedAt < ISSUE_COOLDOWN_MS {
          return TooSoon;
        }
      }
      codes := codes[email := CodeRow(code, issuedAt, 0, false)];
      reply := if mailWorks then CodeSent else MailFailed;
    }

    method IssueAccountSession(email: string) returns (id: nat, token: nat)
      modifies this`accounts, this`minted
      ensures Current() == WithSession(old(Current()), email)
      ensures email in accounts && accounts[email] == Account(id, token)
    {
      token := minted;
      var newId := minted + 1;
      minted := minted + 2;
      if email in accounts {
        accounts := accounts[email := accounts[email].(token := token)];
      } else {
        accounts := accounts[email := Account(newId, token)];
      }
      id := accounts[email].id;
    }

    method VerifyAndLogin(email: string, now: int, guess: string) returns (reply: Reply)
      modifies this
      ensures Outcome(Current(), reply) == Verified(old(Current()), email, now, guess)
    {
      if email !in codes {
        return NoCode;
      }
      var row := codes[email];
      if row.consumed {
        return AlreadyUsed;
      }
      if now - row.issuedAt > CODE_TTL_MS {
        return Expired;
      }
      if row.attempts >= MAX_ATTEMPTS {
        return TooManyAttempts;
      }
      if guess != row.code {
        codes := codes[email := row.(attempts := row.attempts + 1)];
        return WrongCode;
      }
      codes := codes[email := row.(consumed := true)];
      var id, token := IssueAccountSession(email);
      reply := LoggedIn(id, token);
    }
  }
}

/**
 What each message to the relay does and answers, and how a connection comes to speak for a device.
 */
module RelayEffects {
  import opened Options
  import RateLimiters
  import opened RelayDb
  import opened ConnectionRegistry
  import opened Relay
  import opened RelayRuns

  // ---- Who speaks for a device ----

  predicate AuthenticatedAt(es: seq<Event>, k: nat, conn: nat, device: string) {
    k < |es| && es[k].Received? && es[k].conn == conn && es[k].message == DeviceAuth(device, true)
  }

  /** A step gives a connection a device only by a valid authentication of that very connection. */
  lemma DeviceComesFromAuth(cfg: Config, s: State, e: Event, conn: nat)
    requires conn < |Step(cfg, s, e).state.sessions| && Step(cfg, s, e).state.sessions[conn].device.Some?
    ensures (conn < |s.sessions| && s.sessions[conn].device == Step(cfg, s, e).state.sessions[conn].device)
            || (e.Received? && e.conn == conn && e.message == DeviceAuth(Step(cfg, s, e).state.sessions[conn].device.value, true))
  {
    hide ReturnedRow, PairedTogether, RowOf, CodeOwner, Registered, PairedTables, CanRegister;
  }

  /** In every run a connection speaks for a device only after it sent a valid authentication for it. */
  lemma {:induction false} SpeakersHaveAuthenticated(cfg: Config, es: seq<Event>, conn: nat)
    requires conn < |Run(cfg, es).sessions| && Run(cfg, es).sessions[conn].device.Some?
    ensures exists k :: AuthenticatedAt(es, k, conn, Run(cfg, es).sessions[conn].device.value)
  {
    hide Step;
    var before, e := es[..|es| - 1], es[|es| - 1];
    var d := Run(cfg, es).sessions[conn].device;
    DeviceComesFromAuth(cfg, Run(cfg, before), e, conn);
    if conn < |Run(cfg, before).sessions| && Run(cfg, before).sessions[conn].device == d {
      SpeakersHaveAuthenticated(cfg, before, conn);
      var k :| AuthenticatedAt(before, k, conn, d.value);
      assert AuthenticatedAt(es, k, conn, d.value);
    } else {
      assert AuthenticatedAt(es, |es| - 1, conn, d.value);
    }
  }

  /** A connection that has a device never changes it. */
  lemma DeviceStays(cfg: Config, s: State, e: Event, conn: nat)
    requires conn < |s.sessions| && s.sessions[conn].device.Some?
    ensures conn < |Step(cfg, s, e).state.sessions| && Step(cfg, s, e).state.sessions[conn].device == s.sessions[conn].device
  {
    hide ReturnedRow, PairedTogether, RowOf, CodeOwner, Registered, PairedTables, CanRegister;
  }

  function Failures(cfg: Config, s: State, key: string, now: int): nat {
    RateLimiters.Current(cfg.limits, s.limiter, key, now).count
  }

  predicate OthersKept(before: RateLimiters.Table, after: RateLimiters.Table, key: string) {
    after - {key} == before - {key}
  }

  /** The exact law of an authentication: it takes hold if and only if it is valid, the device has failures
      left, and the connection takes frames. Otherwise nobody gains a device or an entry; a failure that
      was allowed is counted, a success forgets the failures. */
  lemma AuthenticationExactly(cfg: Config, s: State, conn: nat, device: string, valid: bool, now: int)
    requires conn < |s.sessions| && s.sessions[conn].running && s.sessions[conn].device.None?
    ensures var o := Step(cfg, s, Received(conn, DeviceAuth(device, valid), now));
            var allowed := Failures(cfg, s, device, now) < cfg.limits.maxFailures;
            && o.state.tables == s.tables && OthersKept(s.limiter, o.state.limiter, device)
            && (if valid && allowed && s.sessions[conn].open then
                  && o.reply == Done && o.sent == [Sent(conn, Ack)]
                  && Speaker(o.state, conn) == Some(device) && o.state.online == s.online[device := conn]
                  && |o.state.sessions| == |s.sessions|
                  && (forall c :: 0 <= c < |s.sessions| && c != conn ==> o.state.sessions[c] == s.sessions[c])
                  && Failures(cfg, o.state, device, now) == 0
                else
                  && o.reply == (if !allowed then RateLimited else if !valid then Rejected else PeerClosed) && o.sent == []
                  && o.state.sessions == s.sessions && o.state.online == s.online
                  && Failures(cfg, o.state, device, now)
                     == if !allowed then Failures(cfg, s, device, now) else (if valid then 0 else Failures(cfg, s, device, now)) + 1)
  {
  }

  /** A second authentication of a connection is ignored, whatever it says. */
  lemma SecondAuthenticationIsIgnored(cfg: Config, s: State, conn: nat, device: string, valid: bool, now: int)
    requires Speaker(s, conn).Some?
    ensures Step(cfg, s, Received(conn, DeviceAuth(device, valid), now)) == Outcome(s, [], Done)
  {
  }

  /** Without a device every other message is refused and changes nothing. */
  lemma UnauthenticatedIsRefused(cfg: Config, s: State, conn: nat, m: Message, now: int)
    requires conn < |s.sessions| && s.sessions[conn].running && s.sessions[conn].device.None?
    requires !m.DeviceAuth? && !m.Ignored?
    ensures Step(cfg, s, Received(conn, m, now)) == Outcome(s, [], NotAuthenticated)
  {
    hide RateLimiters.IsAllowed;
  }

  // ---- Registering a code ----

  predicate HeldByAnother(codes: map<string, Code>, code: string, pc: string) {
    code in codes && codes[code].pc != pc
  }

  /** Registering counts against the PC, drops its old codes, and enters the new one unless another PC
      holds it. */
  lemma RegistrationExactly(cfg: Config, s: State, conn: nat, code: string, now: int)
    requires Speaker(s, conn).Some?
    ensures var o := Step(cfg, s, Received(conn, PairingRegister(code), now));
            var pc := Speaker(s, conn).value;
            && o.state.sessions == s.sessions && o.state.online == s.online && o.state.tables.rows == s.tables.rows
            && OthersKept(s.limiter, o.state.limiter, pc)
            && (if Failures(cfg, s, pc, now) >= cfg.limits.maxFailures then
                  && o.reply == RateLimited && o.sent == [] && o.state.tables == s.tables
                  && Failures(cfg, o.state, pc, now) == Failures(cfg, s, pc, now)
                else
                  && Failures(cfg, o.state, pc, now) == Failures(cfg, s, pc, now) + 1
                  && (forall c :: c in s.tables.codes && s.tables.codes[c].pc != pc
                        ==> c in o.state.tables.codes && o.state.tables.codes[c] == s.tables.codes[c])
                  && (if HeldByAnother(s.tables.codes, code, pc) then
                        o.reply == DatabaseError && o.sent == []
                        && (forall c :: c in o.state.tables.codes ==> o.state.tables.codes[c].pc != pc)
                      else
                        && code in o.state.tables.codes
                        && o.state.tables.codes[code] == Code(pc, now + cfg.codeTtlSecs * 1000, false)
                        && (forall c :: c in o.state.tables.codes && o.state.tables.codes[c].pc == pc ==> c == code)
                        && (if s.sessions[conn].open then o.reply == Done && o.sent == [Sent(conn, Ack)]
                            else o.reply == PeerClosed && o.sent == [])))
  {
  }

  /** A code that is not good is answered with an error and changes nothing. */
  lemma BadCodeIsRefused(cfg: Config, s: State, conn: nat, m: Message, now: int)
    requires Speaker(s, conn).Some? && m.PairingInitiate? && ClaimOf(s, Received(conn, m, now)).None?
    ensures Step(cfg, s, Received(conn, m, now))
            == Outcome(s, Offer(s, conn, PairingError(InvalidCode)), if s.sessions[conn].open then InvalidPairingCode else PeerClosed)
  {
    hide CodeOwner;
  }

  /** A good code: the PC is told when it is online, and the phone unless the PC's channel was closed; the reply
      says whether both channels took it. */
  lemma RedeemedExactly(cfg: Config, s: State, e: Event)
    requires ClaimOf(s, e).Some?
    ensures var o, pc, phone, token := Step(cfg, s, e), ClaimOf(s, e).value.pc, ClaimOf(s, e).value.phone, s.tables.issued;
            var told := pc in s.online ==> Takes(s, s.online[pc]);
            && o.state.sessions == s.sessions && o.state.online == s.online && o.state.limiter == s.limiter
            && o.reply == (if told && Takes(s, e.conn) then Done else PeerClosed)
            && o.sent == if !told then []
                         else (if pc in s.online then [Sent(s.online[pc], PairingConfirm(token, pc, phone, e.message.phoneKey))] else [])
                              + (if Takes(s, e.conn) then [Sent(e.conn, PairingConfirm(token, pc, phone, e.message.pcKey))] else [])
  {
    hide CodeOwner, PairedTables;
  }

  // ---- Connections ----

  /** Connections come in without a device and with an open channel; a stopped writer only closes the channel, a
      disconnect only ends the session and takes its own entry away. */
  lemma ConnectionEventsExactly(cfg: Config, s: State, conn: nat)
    ensures var o := Step(cfg, s, Connect);
            o == Outcome(s.(sessions := o.state.sessions), [], Done) && o.state.sessions == s.sessions + [Session(None, true, true)]
    ensures conn < |s.sessions| ==>
              && Step(cfg, s, WriterStops(conn))
                 == Outcome(s.(sessions := s.sessions[conn := s.sessions[conn].(open := false)]), [], Done)
              && (if !s.sessions[conn].running then Step(cfg, s, Disconnect(conn)) == Outcome(s, [], Done)
                  else
                    var o, device := Step(cfg, s, Disconnect(conn)), s.sessions[conn].device;
                    && o == Outcome(s.(sessions := s.sessions[conn := s.sessions[conn].(running := false)], online := o.state.online), [], Done)
                    && forall d :: d in o.state.online <==> d in s.online && !(device == Some(d) && s.online[d] == conn))
    ensures var o := Step(cfg, s, Disconnect(conn)); forall d :: d in o.state.online ==> d in s.online && o.state.online[d] == s.online[d]
  {
  }

  /** Other messages, and all that come after the end of a session, change nothing. */
  lemma IgnoredExactly(cfg: Config, s: State, conn: nat, m: Message, now: int)
    requires m.Ignored? || conn >= |s.sessions| || !s.sessions[conn].running
    ensures Step(cfg, s, Received(conn, m, now)) == Outcome(s, [], Done)
  {
    hide Authenticated, CodeRegistered, PairingInitiated, PairingResumed, SealedRouted, ResetRouted;
  }

  // ---- Frames for a device ----

  /** What a frame for `to` does: it is sent on an open channel and changes nothing, or takes a dead entry
      away, or finds none. */
  predicate DeliveredTo(s: State, o: Outcome, to: string, frame: Frame) {
    && o.state.sessions == s.sessions && o.state.tables == s.tables && o.state.limiter == s.limiter
    && (if to in s.online && Takes(s, s.online[to]) then o.sent == [Sent(s.online[to], frame)] && o.state.online == s.online
        else o.sent == [] && to !in o.state.online && o.state.online == s.online - {to})
  }

  lemma SealedStep(cfg: Config, s: State, conn: nat, m: Message, now: int)
    requires m.Sealed? && Speaker(s, conn).Some?
    ensures Step(cfg, s, Received(conn, m, now)) == SealedRouted(s, Speaker(s, conn).value, m)
  {
    hide PairedTogether;
  }

  /** The exact answer to a sealed frame: dropped when too long, an error when malformed or not for a
      partner, and otherwise delivered. */
  lemma SealedExactly(cfg: Config, es: seq<Event>, conn: nat, m: Message, now: int)
    requires m.Sealed? && Speaker(Run(cfg, es), conn).Some?
    ensures var s, claims := Run(cfg, es), Claims(cfg, es);
            var o := Step(cfg, s, Received(conn, m, now));
            if |m.text| > MAX_ROUTED_FRAME_BYTES then o == Outcome(s, [], Done)
            else if !m.wellFormed then o == Outcome(s, [], BadFrame)
            else if !Partners(claims, Speaker(s, conn).value, m.to) then o == Outcome(s, [], NotPaired)
            else o.reply == Done && DeliveredTo(s, o, m.to, SealedText(m.text))
  {
    hide PairedTogether, Partners, RowsFollowClaims, OneCodePerPc, Step, Run, Claims, RegistrySound;
    EveryRun(cfg, es);
    SealedStep(cfg, Run(cfg, es), conn, m, now);
    RowsJoinPartners(Run(cfg, es).tables.rows, Claims(cfg, es), Speaker(Run(cfg, es), conn).value, m.to);
  }

  /** A reset of the session is answered with nothing; its notice is for the partner of a newest pairing that joins
      the sender with anyone today. */
  lemma ResetExactly(cfg: Config, es: seq<Event>, conn: nat, pick: nat, some: nat, now: int) returns (i: nat)
    requires Speaker(Run(cfg, es), conn).Some? && JoinsToday(Claims(cfg, es), some, Speaker(Run(cfg, es), conn).value)
    ensures var s, claims := Run(cfg, es), Claims(cfg, es);
            var o, device := Step(cfg, s, Received(conn, PeerSessionReset(pick), now)), Speaker(s, conn).value;
            && NewestFor(claims, i, device) && PartnerIn(claims, i, device).Some?
            && o.reply == Done && DeliveredTo(s, o, PartnerIn(claims, i, device).value, SessionResetNotice)
  {
    hide Run, Claims, PhoneOf, ReturnedRow, NewestFor, PartnerIn, JoinsToday;
    i := ResetReachesANewestPartner(cfg, es, Speaker(Run(cfg, es), conn).value, pick, some);
  }

  /** The exact answer to a resume: which of the refusals, and that a dead entry of the PC is taken away. */
  lemma ResumeExactly(cfg: Config, es: seq<Event>, conn: nat, token: nat, key: string, now: int)
    requires Speaker(Run(cfg, es), conn).Some?
    ensures var s, claims := Run(cfg, es), Claims(cfg, es);
            var o := Step(cfg, s, Received(conn, PairingResume(token, key), now));
            var device := Speaker(s, conn).value;
            && o.state.sessions == s.sessions && o.state.tables == s.tables && o.state.limiter == s.limiter
            && (if token >= |claims| then
                  o.reply == InvalidPairingCode && o.sent == Offer(s, conn, PairingError(UnknownToken)) && o.state.online == s.online
                else
                  var pc := claims[token].pc;
                  if PhoneOf(claims, pc) != Some(device) then
                    o.reply == NotPaired && o.sent == Offer(s, conn, PairingError(OtherDevice)) && o.state.online == s.online
                  else if pc in s.online && Takes(s, s.online[pc]) then
                    && o.reply == (if s.sessions[conn].open then Done else PeerClosed) && o.state.online == s.online
                    && o.sent == [Sent(s.online[pc], PairingConfirm(token, pc, device, key))]
                                 + Offer(s, conn, PairingConfirm(token, pc, device, claims[token].pcKey))
                  else
                    o.reply == PcIsOffline && o.sent == Offer(s, conn, PairingError(PcOffline)) && o.state.online == s.online - {pc})
  {
    hide PhoneOf, RegistrySound, OneCodePerPc, RowOf, Run, Claims;
    EveryRun(cfg, es);
    var s, claims := Run(cfg, es), Claims(cfg, es);
    TokenRow(s.tables.rows, claims, token);
  }

  lemma TokenRow(rows: seq<Row>, claims: seq<Claim>, token: nat)
    requires RowsFollowClaims(rows, claims)
    ensures RowOf(rows, token).Some? <==> token < |claims|
    ensures token < |claims| ==> RowOf(rows, token) == Some(rows[token])
  {
    hide PhoneOf;
    if token < |claims| { assert rows[token].token == token; }
    if RowOf(rows, token).Some? {
      var i :| 0 <= i < |rows| && rows[i] == RowOf(rows, token).value;
      assert i == token;
    }
  }
}

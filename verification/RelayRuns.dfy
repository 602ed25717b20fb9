/**
 What holds in every run of the relay. The history of accepted pairings, `Claims`, is the
 reference: token `i` belongs to the `i`-th claim, and a PC's current phone is the one that claimed
 it last.
 */
module RelayRuns {
  import opened Options
  import RateLimiters
  import opened RelayDb
  import opened ConnectionRegistry
  import opened Relay

  function Run(cfg: Config, es: seq<Event>): State {
    if es == [] then EMPTY else Step(cfg, Run(cfg, es[..|es| - 1]), es[|es| - 1]).state
  }

  datatype Claim = Claim(pc: string, phone: string, pcKey: string, at: int)

  /** The device a connection speaks for while its session runs. */
  function Speaker(s: State, conn: nat): Option<string> {
    if conn < |s.sessions| && s.sessions[conn].running then s.sessions[conn].device else None
  }

  function ClaimOf(s: State, e: Event): Option<Claim> {
    if e.Received? && e.message.PairingInitiate? && Speaker(s, e.conn).Some? then
      match CodeOwner(s.tables, e.message.code, e.now)
      case Some(pc) => Some(Claim(pc, Speaker(s, e.conn).value, e.message.pcKey, e.now))
      case None => None
    else None
  }

  function Claims(cfg: Config, es: seq<Event>): seq<Claim> {
    if es == [] then []
    else
      var before := Claims(cfg, es[..|es| - 1]);
      match ClaimOf(Run(cfg, es[..|es| - 1]), es[|es| - 1])
      case Some(c) => before + [c]
      case None => before
  }

  function PhoneOf(claims: seq<Claim>, pc: string): Option<string> {
    if claims == [] then None
    else if claims[|claims| - 1].pc == pc then Some(claims[|claims| - 1].phone)
    else PhoneOf(claims[..|claims| - 1], pc)
  }

  /** `a` and `b` belong together: one is the other's current phone. */
  predicate Partners(claims: seq<Claim>, a: string, b: string) {
    PhoneOf(claims, a) == Some(b) || PhoneOf(claims, b) == Some(a)
  }

  // ---- The invariant ----

  ghost predicate RegistrySound(sessions: seq<Session>, online: Online) {
    forall d :: d in online ==> online[d] < |sessions| && sessions[online[d]].device == Some(d) && sessions[online[d]].running
  }

  ghost predicate RowsFollowClaims(rows: seq<Row>, claims: seq<Claim>) {
    && |rows| == |claims|
    && forall i :: 0 <= i < |rows| ==>
         rows[i].token == i && rows[i].pc == claims[i].pc && rows[i].pcKey == claims[i].pcKey && rows[i].created == claims[i].at
         && PhoneOf(claims, rows[i].pc) == Some(rows[i].phone)
  }

  ghost predicate OneCodePerPc(codes: map<string, Code>) {
    forall c, c' :: c in codes && c' in codes && codes[c].pc == codes[c'].pc ==> c == c'
  }

  ghost predicate Inv(s: State, claims: seq<Claim>) {
    && RegistrySound(s.sessions, s.online)
    && RowsFollowClaims(s.tables.rows, claims)
    && s.tables.issued == |claims|
    && OneCodePerPc(s.tables.codes)
  }

  lemma PhoneOfPush(claims: seq<Claim>, c: Claim, pc: string)
    ensures PhoneOf(claims + [c], pc) == if c.pc == pc then Some(c.phone) else PhoneOf(claims, pc)
  {
    assert (claims + [c])[..|claims|] == claims;
  }

  lemma {:induction false} ClaimedPcHasAPhone(claims: seq<Claim>, i: nat)
    requires i < |claims|
    ensures PhoneOf(claims, claims[i].pc).Some?
  {
    if i < |claims| - 1 { ClaimedPcHasAPhone(claims[..|claims| - 1], i); }
  }

  lemma {:induction false} PhoneComesFromAClaim(claims: seq<Claim>, pc: string) returns (i: nat)
    requires PhoneOf(claims, pc).Some?
    ensures i < |claims| && claims[i].pc == pc && claims[i].phone == PhoneOf(claims, pc).value
  {
    i := |claims| - 1;
    if claims[i].pc != pc { i := PhoneComesFromAClaim(claims[..i], pc); }
  }

  // ---- Every step keeps it ----

  lemma PairingKeepsRows(t: Tables, claims: seq<Claim>, pc: string, phone: string, m: Message, now: int)
    requires m.PairingInitiate? && RowsFollowClaims(t.rows, claims) && t.issued == |claims|
    ensures RowsFollowClaims(PairedTables(t, pc, phone, m, now).rows, claims + [Claim(pc, phone, m.pcKey, now)])
    ensures PairedTables(t, pc, phone, m, now).issued == |claims| + 1
    ensures OneCodePerPc(t.codes) ==> OneCodePerPc(PairedTables(t, pc, phone, m, now).codes)
  {
    hide PhoneOf, Rebound;
    var rows := PairedTables(t, pc, phone, m, now).rows;
    var c := Claim(pc, phone, m.pcKey, now);
    forall i | 0 <= i < |rows|
      ensures rows[i].token == i && rows[i].pc == (claims + [c])[i].pc && rows[i].pcKey == (claims + [c])[i].pcKey
              && rows[i].created == (claims + [c])[i].at
              && PhoneOf(claims + [c], rows[i].pc) == Some(rows[i].phone)
    {
      PhoneOfPush(claims, c, rows[i].pc);
    }
  }

  lemma HandledKeepsRegistry(cfg: Config, s: State, conn: nat, m: Message, now: int)
    requires RegistrySound(s.sessions, s.online) && conn < |s.sessions| && s.sessions[conn].running
    ensures var s' := Handled(cfg, s, conn, m, now).state; RegistrySound(s'.sessions, s'.online)
  {
    hide ReturnedRow, PairedTogether, RowOf, CodeOwner, Registered, PairedTables, CanRegister;
  }

  lemma HandledKeepsTables(cfg: Config, s: State, claims: seq<Claim>, conn: nat, m: Message, now: int)
    requires Inv(s, claims) && conn < |s.sessions| && s.sessions[conn].running
    ensures var t := Handled(cfg, s, conn, m, now).state.tables;
            var claim := ClaimOf(s, Received(conn, m, now));
            var claims' := if claim.Some? then claims + [claim.value] else claims;
            RowsFollowClaims(t.rows, claims') && t.issued == |claims'| && OneCodePerPc(t.codes)
  {
    hide ReturnedRow, PairedTogether, RowOf, CodeOwner, PairedTables, PhoneOf, RegistrySound, RowsFollowClaims, RateLimiters.IsAllowed, RateLimiters.Touched, RateLimiters.Recorded;
    if m.PairingInitiate? && Speaker(s, conn).Some? && CodeOwner(s.tables, m.code, now).Some? {
      PairingKeepsRows(s.tables, claims, CodeOwner(s.tables, m.code, now).value, Speaker(s, conn).value, m, now);
    }
  }

  lemma StepKeepsInv(cfg: Config, s: State, claims: seq<Claim>, e: Event)
    requires Inv(s, claims)
    ensures var claim := ClaimOf(s, e);
            Inv(Step(cfg, s, e).state, if claim.Some? then claims + [claim.value] else claims)
  {
    hide Handled, RowsFollowClaims, OneCodePerPc, CodeOwner;
    if e.Received? && e.conn < |s.sessions| && s.sessions[e.conn].running {
      HandledKeepsRegistry(cfg, s, e.conn, e.message, e.now);
      HandledKeepsTables(cfg, s, claims, e.conn, e.message, e.now);
    }
  }

  /** In every run the registry leads to running sessions that authenticated as the device, every
      pairing row of a PC names its current phone, tokens count the claims, and a PC has at most one
      code. */
  lemma {:induction false} EveryRun(cfg: Config, es: seq<Event>)
    ensures Inv(Run(cfg, es), Claims(cfg, es))
  {
    if es != [] {
      hide Step, ClaimOf, Inv;
      EveryRun(cfg, es[..|es| - 1]);
      StepKeepsInv(cfg, Run(cfg, es[..|es| - 1]), Claims(cfg, es[..|es| - 1]), es[|es| - 1]);
    } else {
      assert Inv(EMPTY, []);
    }
  }

  // ---- Isolation ----

  lemma RowsJoinPartners(rows: seq<Row>, claims: seq<Claim>, a: string, b: string)
    requires RowsFollowClaims(rows, claims)
    ensures PairedTogether(rows, a, b) <==> Partners(claims, a, b)
  {
    hide PhoneOf;
    if PhoneOf(claims, a) == Some(b) {
      var i := PhoneComesFromAClaim(claims, a);
      assert Joins(rows[i], a, b);
    }
    if PhoneOf(claims, b) == Some(a) {
      var i := PhoneComesFromAClaim(claims, b);
      assert Joins(rows[i], a, b);
    }
  }

  /** A sealed frame is delivered if and only if it fits, the sender has authenticated, one of the
      two devices is the other's current phone, and the receiver is connected; it then goes, as it
      came, to the connection of a running session that authenticated as the receiver. */
  lemma SealedFramesStayBetweenPartners(cfg: Config, es: seq<Event>, conn: nat, m: Message, now: int)
    requires m.Sealed?
    ensures var s, claims := Run(cfg, es), Claims(cfg, es);
            var o := Step(cfg, s, Received(conn, m, now));
            var from := Speaker(s, conn);
            var reaches := && |m.text| <= MAX_ROUTED_FRAME_BYTES && m.wellFormed
                           && from.Some? && Partners(claims, from.value, m.to)
                           && m.to in s.online && Takes(s, s.online[m.to]);
            && (reaches ==> o.sent == [Sent(s.online[m.to], SealedText(m.text))]
                            && Speaker(s, s.online[m.to]) == Some(m.to))
            && (!reaches ==> o.sent == [])
  {
    hide PairedTogether, Partners, RowsFollowClaims, OneCodePerPc;
    EveryRun(cfg, es);
    var s := Run(cfg, es);
    if Speaker(s, conn).Some? {
      RowsJoinPartners(s.tables.rows, Claims(cfg, es), Speaker(s, conn).value, m.to);
    }
  }

  /** Whatever is put on another connection than the one that asked goes to a running session whose
      device is a partner of the asking one (after a pairing: the PC just claimed). */
  lemma OthersHearOnlyPartners(cfg: Config, es: seq<Event>, e: Event, sent: Sent)
    requires e.Received? && sent in Step(cfg, Run(cfg, es), e).sent && sent.conn != e.conn
    ensures var s, claims := Run(cfg, es), Claims(cfg, es + [e]);
            && Takes(s, sent.conn)
            && Speaker(s, e.conn).Some? && Speaker(s, sent.conn).Some?
            && Entry(s.online, Speaker(s, sent.conn).value) == Some(sent.conn)
            && Partners(claims, Speaker(s, e.conn).value, Speaker(s, sent.conn).value)
  {
    assert (es + [e])[..|es|] == es;
    EveryRun(cfg, es);
    var s, claims := Run(cfg, es), Claims(cfg, es);
    OtherReaderIsAPartner(cfg, s, claims, e, sent);
  }

  lemma OtherReaderIsAPartner(cfg: Config, s: State, claims: seq<Claim>, e: Event, sent: Sent)
    requires Inv(s, claims) && e.Received? && sent in Step(cfg, s, e).sent && sent.conn != e.conn
    ensures && Takes(s, sent.conn)
            && Speaker(s, e.conn).Some? && Speaker(s, sent.conn).Some?
            && var to := Speaker(s, sent.conn).value;
               && Entry(s.online, to) == Some(sent.conn)
               && var claim := ClaimOf(s, e);
                  Partners(if claim.Some? then claims + [claim.value] else claims, Speaker(s, e.conn).value, to)
  {
    hide PhoneOf, OneCodePerPc, PairedTogether, CodeOwner, PairedTables, RateLimiters.IsAllowed, Registered, CanRegister;
    var from := s.sessions[e.conn].device.value;
    match e.message {
      case Sealed(to, _, _) => RowsJoinPartners(s.tables.rows, claims, from, to);
      case PairingInitiate(code, pcKey, _) =>
        var pc := CodeOwner(s.tables, code, e.now).value;
        PhoneOfPush(claims, Claim(pc, from, pcKey, e.now), pc);
      case _ =>
    }
  }

  /** The end of a session takes away the entry of its device only when that entry is its own;
      afterwards no entry leads to it. */
  lemma DisconnectKeepsNewerConnections(cfg: Config, es: seq<Event>, conn: nat, d: string)
    ensures var s, s' := Run(cfg, es), Run(cfg, es + [Disconnect(conn)]);
            && (d in s'.online <==> d in s.online && s.online[d] != conn)
            && (d in s'.online ==> s'.online[d] == s.online[d])
  {
    hide RowsFollowClaims, OneCodePerPc;
    assert (es + [Disconnect(conn)])[..|es|] == es;
    EveryRun(cfg, es);
  }

  /** After a new phone has claimed a PC, any other device reaches the PC only when that device is
      itself a PC whose current phone is this one. */
  lemma RotationCutsOffTheOldPhone(cfg: Config, es: seq<Event>, e: Event, other: string)
    requires ClaimOf(Run(cfg, es), e).Some? && other != ClaimOf(Run(cfg, es), e).value.phone
    ensures var c := ClaimOf(Run(cfg, es), e).value;
            PairedTogether(Run(cfg, es + [e]).tables.rows, other, c.pc)
            <==> PhoneOf(Claims(cfg, es + [e]), other) == Some(c.pc)
  {
    var c := ClaimOf(Run(cfg, es), e).value;
    assert (es + [e])[..|es|] == es;
    EveryRun(cfg, es + [e]);
    RowsJoinPartners(Run(cfg, es + [e]).tables.rows, Claims(cfg, es + [e]), other, c.pc);
    PhoneOfPush(Claims(cfg, es), c, c.pc);
  }

  /** A pairing token keeps working after a rotation: it is known if and only if it was handed out,
      and then it is accepted from the current phone of its PC and from nobody else. */
  lemma TokensFollowTheCurrentPhone(cfg: Config, es: seq<Event>, token: nat, device: string, conn: nat, key: string)
    ensures var s, claims := Run(cfg, es), Claims(cfg, es);
            var reply := PairingResumed(s, conn, device, token, key).reply;
            && (reply == InvalidPairingCode <==> token >= |claims|)
            && (token < |claims| ==> (reply != NotPaired <==> PhoneOf(claims, claims[token].pc) == Some(device)))
  {
    hide PhoneOf, OneCodePerPc, Run, Claims, RegistrySound;
    EveryRun(cfg, es);
    var s, claims := Run(cfg, es), Claims(cfg, es);
    if token < |claims| {
      assert s.tables.rows[token].token == token;
    }
    if RowOf(s.tables.rows, token).Some? {
      var row := RowOf(s.tables.rows, token).value;
      var i :| 0 <= i < |s.tables.rows| && s.tables.rows[i] == row;
    }
  }

  /** The confirmation of token `token` that ends what is sent, and what came before it. */
  ghost predicate KeysCrossed(online: Online, claims: seq<Claim>, phone: string, phoneKey: string, sent: seq<Sent>)
    requires sent != [] && sent[|sent| - 1].frame.PairingConfirm?
  {
    var last := |sent| - 1;
    var f := sent[last].frame;
    && f.token < |claims| && f.pc == claims[f.token].pc && f.key == claims[f.token].pcKey
    && f.phone == phone && PhoneOf(claims, f.pc) == Some(phone)
    && (f.pc in online ==>
          last > 0 && sent[last - 1] == Sent(online[f.pc], PairingConfirm(f.token, f.pc, phone, phoneKey)))
  }

  predicate ConfirmsTo(sent: seq<Sent>, conn: nat) {
    sent != [] && sent[|sent| - 1].conn == conn && sent[|sent| - 1].frame.PairingConfirm?
  }

  lemma InitiatedCrossesKeys(s: State, claims: seq<Claim>, conn: nat, phone: string, m: Message, now: int)
    requires Inv(s, claims) && m.PairingInitiate?
    requires ConfirmsTo(PairingInitiated(s, conn, phone, m, now).sent, conn)
    ensures CodeOwner(s.tables, m.code, now).Some?
    ensures KeysCrossed(s.online, claims + [Claim(CodeOwner(s.tables, m.code, now).value, phone, m.pcKey, now)], phone, m.phoneKey,
                        PairingInitiated(s, conn, phone, m, now).sent)
  {
    hide PhoneOf, RegistrySound, RowsFollowClaims, OneCodePerPc, CodeOwner, PairedTables;
    if CodeOwner(s.tables, m.code, now).Some? {
      var c := Claim(CodeOwner(s.tables, m.code, now).value, phone, m.pcKey, now);
      PhoneOfPush(claims, c, c.pc);
    }
  }

  lemma ResumedCrossesKeys(s: State, claims: seq<Claim>, conn: nat, phone: string, token: nat, phoneKey: string)
    requires Inv(s, claims)
    requires ConfirmsTo(PairingResumed(s, conn, phone, token, phoneKey).sent, conn)
    ensures KeysCrossed(s.online, claims, phone, phoneKey, PairingResumed(s, conn, phone, token, phoneKey).sent)
  {
    hide PhoneOf, RegistrySound, OneCodePerPc, RowOf;
    if RowOf(s.tables.rows, token).Some? {
      var i :| 0 <= i < |s.tables.rows| && s.tables.rows[i] == RowOf(s.tables.rows, token).value;
    }
  }

  /** The confirmation a phone gets carries the key of the PC that was scanned for this token, and
      names it as the current phone. A connected PC was told just before, with the phone's fresh key. */
  lemma ConfirmationsCrossTheKeys(cfg: Config, es: seq<Event>, conn: nat, m: Message, now: int)
    requires m.PairingInitiate? || m.PairingResume?
    ensures var s, e := Run(cfg, es), Received(conn, m, now);
            ConfirmsTo(Step(cfg, s, e).sent, conn) ==>
            && Speaker(s, conn).Some?
            && KeysCrossed(s.online, Claims(cfg, es + [e]), Speaker(s, conn).value, m.phoneKey, Step(cfg, s, e).sent)
  {
    hide PairingInitiated, PairingResumed, KeysCrossed, Inv, CodeOwner;
    var e := Received(conn, m, now);
    assert (es + [e])[..|es|] == es;
    EveryRun(cfg, es);
    var s, claims := Run(cfg, es), Claims(cfg, es);
    if Speaker(s, conn).Some? && ConfirmsTo(Step(cfg, s, e).sent, conn) {
      if m.PairingInitiate? {
        InitiatedCrossesKeys(s, claims, conn, Speaker(s, conn).value, m, now);
      } else {
        ResumedCrossesKeys(s, claims, conn, Speaker(s, conn).value, m.token, m.phoneKey);
      }
    }
  }

  /** A redeemed code makes a pairing also when the phone never hears of it: the phone is told if and
      only if its own channel is open and the PC is not behind a dead one, whose entry stays. */
  lemma PairingMayGoUntold(cfg: Config, es: seq<Event>, e: Event)
    requires ClaimOf(Run(cfg, es), e).Some?
    ensures var s, o, pc := Run(cfg, es), Step(cfg, Run(cfg, es), e), ClaimOf(Run(cfg, es), e).value.pc;
            && |Claims(cfg, es + [e])| == |Claims(cfg, es)| + 1
            && (ConfirmsTo(o.sent, e.conn) <==> Takes(s, e.conn) && (pc in s.online ==> Takes(s, s.online[pc])))
            && o.state.online == s.online
  {
    hide PhoneOf, CodeOwner, PairedTables, RowsFollowClaims, OneCodePerPc;
    assert (es + [e])[..|es|] == es;
    EveryRun(cfg, es);
  }

  // ---- Codes ----

  /** What the history says about a code: who offered it last and until when, unless that PC has
      asked for another code since or the code was redeemed. */
  datatype Offered = Offered(pc: string, expires: int)

  predicate Registers(cfg: Config, s: State, e: Event) {
    && e.Received? && e.message.PairingRegister? && Speaker(s, e.conn).Some?
    && RateLimiters.IsAllowed(cfg.limits, s.limiter, Speaker(s, e.conn).value, e.now)
  }

  function OfferedAfter(cfg: Config, s: State, before: Option<Offered>, code: string, e: Event): Option<Offered> {
    if Registers(cfg, s, e) then
      var pc := Speaker(s, e.conn).value;
      if e.message.code == code && CanRegister(s.tables, code, pc) then Some(Offered(pc, e.now + cfg.codeTtlSecs * 1000))
      else if before.Some? && before.value.pc == pc then None
      else before
    else if ClaimOf(s, e).Some? && e.message.code == code then None
    else before
  }

  function LiveOffer(cfg: Config, es: seq<Event>, code: string): Option<Offered> {
    if es == [] then None
    else OfferedAfter(cfg, Run(cfg, es[..|es| - 1]), LiveOffer(cfg, es[..|es| - 1], code), code, es[|es| - 1])
  }

  ghost predicate TableShows(codes: map<string, Code>, code: string, o: Option<Offered>) {
    match o
    case Some(offered) => code in codes && codes[code] == Code(offered.pc, offered.expires, false)
    case None => code in codes ==> codes[code].used
  }

  lemma StepKeepsOffer(cfg: Config, s: State, o: Option<Offered>, code: string, e: Event)
    requires TableShows(s.tables.codes, code, o)
    ensures TableShows(Step(cfg, s, e).state.tables.codes, code, OfferedAfter(cfg, s, o, code, e))
  {
    hide ReturnedRow, PairedTogether, RowOf, Rebound, RateLimiters.IsAllowed, RateLimiters.Touched, RateLimiters.Recorded;
  }

  /** A code is good exactly for the PC that offered it last, until its time is up, once, and only
      as long as that PC has not asked for another one. */
  lemma {:induction false} CodesWorkOnce(cfg: Config, es: seq<Event>, code: string, now: int)
    ensures TableShows(Run(cfg, es).tables.codes, code, LiveOffer(cfg, es, code))
    ensures var o := LiveOffer(cfg, es, code);
            CodeOwner(Run(cfg, es).tables, code, now)
            == if o.Some? && now <= o.value.expires then Some(o.value.pc) else None
  {
    if es != [] {
      hide Step, OfferedAfter;
      CodesWorkOnce(cfg, es[..|es| - 1], code, now);
      StepKeepsOffer(cfg, Run(cfg, es[..|es| - 1]), LiveOffer(cfg, es[..|es| - 1], code), code, es[|es| - 1]);
    }
  }

  // ---- Reset notices ----

  /** The claim joins `d` with another device today: as its PC, or as that PC's current phone. */
  predicate JoinsToday(claims: seq<Claim>, i: nat, d: string) {
    i < |claims| && (claims[i].pc == d || PhoneOf(claims, claims[i].pc) == Some(d))
  }

  /** No claim that joins `d` today was made after it. */
  predicate NewestFor(claims: seq<Claim>, i: nat, d: string) {
    JoinsToday(claims, i, d) && forall j :: 0 <= j < |claims| && JoinsToday(claims, j, d) ==> claims[j].at <= claims[i].at
  }

  function PartnerIn(claims: seq<Claim>, i: nat, d: string): Option<string>
    requires i < |claims|
  {
    if claims[i].pc == d then PhoneOf(claims, d) else Some(claims[i].pc)
  }

  function NoticeFor(s: State, partner: string): seq<Sent> {
    if partner in s.online then Offer(s, s.online[partner], SessionResetNotice) else []
  }

  /** Whatever the database chooses: a reset notice goes to the partner in a claim that joins the sender
      with anyone today and that no such claim exceeds, when that partner is connected, and to nobody else. */
  lemma ResetReachesANewestPartner(cfg: Config, es: seq<Event>, device: string, pick: nat, some: nat) returns (i: nat)
    requires JoinsToday(Claims(cfg, es), some, device)
    ensures var s, claims := Run(cfg, es), Claims(cfg, es);
            && NewestFor(claims, i, device) && PartnerIn(claims, i, device).Some?
            && ResetRouted(s, device, pick).sent == NoticeFor(s, PartnerIn(claims, i, device).value)
            && ResetRouted(s, device, pick) == Forwarded(s, PartnerIn(claims, i, device).value, SessionResetNotice)
            && (NewestFor(claims, pick, device) ==> i == pick)
  {
    hide PhoneOf, Run, Claims, ReturnedRow, OneCodePerPc;
    EveryRun(cfg, es);
    var s, claims := Run(cfg, es), Claims(cfg, es);
    var rows := s.tables.rows;
    forall j | 0 <= j < |claims|
      ensures Involves(rows[j], device) <==> JoinsToday(claims, j, device)
    {
    }
    assert Involves(rows[some], device);
    i := ReturnedRow(rows, device, pick).value;
    assert NewestFor(claims, i, device);
    if NewestFor(claims, pick, device) { assert IsLatest(rows, device, pick); }
  }

  /** When one such claim is newer than all others, its partner is told. */
  lemma ResetReachesTheNewestPartner(cfg: Config, es: seq<Event>, device: string, pick: nat, i: nat)
    requires JoinsToday(Claims(cfg, es), i, device)
    requires forall j :: 0 <= j < |Claims(cfg, es)| && j != i && JoinsToday(Claims(cfg, es), j, device)
                         ==> Claims(cfg, es)[j].at < Claims(cfg, es)[i].at
    ensures var s, claims := Run(cfg, es), Claims(cfg, es);
            PartnerIn(claims, i, device).Some?
            && ResetRouted(s, device, pick).sent == NoticeFor(s, PartnerIn(claims, i, device).value)
  {
    hide Run, Claims, ResetRouted, PhoneOf;
    var k := ResetReachesANewestPartner(cfg, es, device, pick, i);
    assert k == i;
  }

  lemma ResetWithoutPartnerIsDropped(cfg: Config, es: seq<Event>, device: string, pick: nat)
    requires forall j: nat :: j < |Claims(cfg, es)| ==> !JoinsToday(Claims(cfg, es), j, device)
    ensures ResetRouted(Run(cfg, es), device, pick).sent == []
  {
    hide PhoneOf, Run, Claims, ReturnedRow, OneCodePerPc;
    EveryRun(cfg, es);
    var k := ReturnedRow(Run(cfg, es).tables.rows, device, pick);
    if k.Some? { assert JoinsToday(Claims(cfg, es), k.value, device); }
  }
}

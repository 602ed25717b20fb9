/**
 The relay: connections authenticate as devices, PCs register pairing codes, phones redeem them,
 resume a pairing by its token, and both send each other sealed frames. Every message of a
 connection is one step. `Step` says what a step does to the whole relay, what is put on which
 connection's channel and what the handler returns.
 */
module Relay {
  import opened Options
  import opened RateLimiters
  import opened RelayDb
  import opened ConnectionRegistry

  const MAX_ROUTED_FRAME_BYTES: nat := 2 * 1024 * 1024

  /** `running`: the read loop still runs. `open`: the writer still takes frames off the channel. */
  datatype Session = Session(device: Option<string>, running: bool, open: bool)

  /** Connections are numbered as they come in. */
  datatype State = State(sessions: seq<Session>, online: Online, tables: Tables, limiter: Table)

  const EMPTY := State([], map[], NO_TABLES, map[])

  datatype Config = Config(limits: Limits, codeTtlSecs: nat)

  /** A sealed frame's text is passed on as it came; only the device it is for is read. `pick` is not
      sent: it is what the database chooses among pairings that are equally new. */
  datatype Message =
    | DeviceAuth(device: string, valid: bool)
    | PairingRegister(code: string)
    | PairingInitiate(code: string, pcKey: string, phoneKey: string)
    | PairingResume(token: nat, phoneKey: string)
    | Sealed(to: string, text: seq<bv8>, wellFormed: bool)
    | PeerSessionReset(pick: nat)
    | Ignored

  datatype Frame =
    | Ack
    | PairingConfirm(token: nat, pc: string, phone: string, key: string)
    | PairingError(reason: Reason)
    | SealedText(text: seq<bv8>)
    | SessionResetNotice

  datatype Reason = InvalidCode | UnknownToken | OtherDevice | PcOffline

  datatype Reply =
    | Done
    | NotAuthenticated
    | RateLimited
    | Rejected
    | InvalidPairingCode
    | NotPaired
    | PcIsOffline
    | PeerClosed
    | BadFrame
    | DatabaseError

  datatype Event =
    | Connect
    | WriterStops(conn: nat)
    | Received(conn: nat, message: Message, now: int)
    | Disconnect(conn: nat)

  datatype Sent = Sent(conn: nat, frame: Frame)

  datatype Outcome = Outcome(state: State, sent: seq<Sent>, reply: Reply)

  predicate Takes(s: State, conn: nat) {
    conn < |s.sessions| && s.sessions[conn].open
  }

  /** What a handler puts on a channel arrives there only while the channel is open. */
  function Offer(s: State, conn: nat, frame: Frame): seq<Sent> {
    if Takes(s, conn) then [Sent(conn, frame)] else []
  }

  // ---- The handlers ----

  function Authenticated(cfg: Config, s: State, conn: nat, device: string, valid: bool, now: int): Outcome
    requires conn < |s.sessions|
  {
    if s.sessions[conn].device.Some? then Outcome(s, [], Done)
    else
      var asked := Touched(cfg.limits, s.limiter, device, now);
      if !IsAllowed(cfg.limits, s.limiter, device, now) then Outcome(s.(limiter := asked), [], RateLimited)
      else if !valid then Outcome(s.(limiter := Recorded(cfg.limits, asked, device, now)), [], Rejected)
      else if !Takes(s, conn) then
        Outcome(s.(limiter := Recorded(cfg.limits, asked - {device}, device, now)), [], PeerClosed)
      else
        Outcome(s.(sessions := s.sessions[conn := s.sessions[conn].(device := Some(device))],
                   online := s.online[device := conn],
                   limiter := asked - {device}),
                [Sent(conn, Ack)], Done)
  }

  function CodeRegistered(cfg: Config, s: State, conn: nat, pc: string, code: string, now: int): Outcome {
    var asked := Touched(cfg.limits, s.limiter, pc, now);
    if !IsAllowed(cfg.limits, s.limiter, pc, now) then Outcome(s.(limiter := asked), [], RateLimited)
    else
      var s' := s.(limiter := Recorded(cfg.limits, asked, pc, now),
                   tables := Registered(s.tables, code, pc, now + cfg.codeTtlSecs * 1000));
      if !CanRegister(s.tables, code, pc) then Outcome(s', [], DatabaseError)
      else Outcome(s', Offer(s, conn, Ack), if Takes(s, conn) then Done else PeerClosed)
  }

  /** The tables after `phone` has redeemed the code of `pc`. */
  function PairedTables(t: Tables, pc: string, phone: string, m: Message, now: int): Tables
    requires m.PairingInitiate?
  {
    var created := WithPairing(t, pc, phone, m.pcKey, now);
    MarkedUsed(created.(rows := Rebound(created.rows, pc, phone)), m.code)
  }

  /** The PC is told first; when its channel is closed the phone is not told any more. */
  function BothConfirmed(s: State, conn: nat, pc: string, phone: string, token: nat, m: Message): Outcome
    requires m.PairingInitiate?
  {
    if pc in s.online && !Takes(s, s.online[pc]) then Outcome(s, [], PeerClosed)
    else
      var toPc := if pc in s.online then [Sent(s.online[pc], PairingConfirm(token, pc, phone, m.phoneKey))] else [];
      Outcome(s, toPc + Offer(s, conn, PairingConfirm(token, pc, phone, m.pcKey)),
              if Takes(s, conn) then Done else PeerClosed)
  }

  function PairingInitiated(s: State, conn: nat, phone: string, m: Message, now: int): Outcome
    requires m.PairingInitiate?
  {
    match CodeOwner(s.tables, m.code, now)
    case None => Outcome(s, Offer(s, conn, PairingError(InvalidCode)), if Takes(s, conn) then InvalidPairingCode else PeerClosed)
    case Some(pc) =>
      BothConfirmed(s.(tables := PairedTables(s.tables, pc, phone, m, now)), conn, pc, phone, s.tables.issued, m)
  }

  function PairingResumed(s: State, conn: nat, phone: string, token: nat, phoneKey: string): Outcome {
    match RowOf(s.tables.rows, token)
    case None => Outcome(s, Offer(s, conn, PairingError(UnknownToken)), InvalidPairingCode)
    case Some(row) =>
      if row.phone != phone then Outcome(s, Offer(s, conn, PairingError(OtherDevice)), NotPaired)
      else if row.pc !in s.online then Outcome(s, Offer(s, conn, PairingError(PcOffline)), PcIsOffline)
      else if !Takes(s, s.online[row.pc]) then
        Outcome(s.(online := s.online - {row.pc}), Offer(s, conn, PairingError(PcOffline)), PcIsOffline)
      else
        Outcome(s, [Sent(s.online[row.pc], PairingConfirm(token, row.pc, phone, phoneKey))]
                   + Offer(s, conn, PairingConfirm(token, row.pc, phone, row.pcKey)),
                if Takes(s, conn) then Done else PeerClosed)
  }

  /** A frame for a device: to its channel when that is open, which otherwise is evicted. */
  function Forwarded(s: State, to: string, frame: Frame): Outcome {
    if to !in s.online then Outcome(s, [], Done)
    else if !Takes(s, s.online[to]) then Outcome(s.(online := s.online - {to}), [], Done)
    else Outcome(s, [Sent(s.online[to], frame)], Done)
  }

  function SealedRouted(s: State, from: string, m: Message): Outcome
    requires m.Sealed?
  {
    if |m.text| > MAX_ROUTED_FRAME_BYTES then Outcome(s, [], Done)
    else if !m.wellFormed then Outcome(s, [], BadFrame)
    else if !PairedTogether(s.tables.rows, from, m.to) then Outcome(s, [], NotPaired)
    else Forwarded(s, m.to, SealedText(m.text))
  }

  function ResetRouted(s: State, from: string, pick: nat): Outcome {
    match ReturnedRow(s.tables.rows, from, pick)
    case None => Outcome(s, [], Done)
    case Some(k) => Forwarded(s, Partner(s.tables.rows[k], from), SessionResetNotice)
  }

  function Handled(cfg: Config, s: State, conn: nat, m: Message, now: int): Outcome
    requires conn < |s.sessions|
  {
    if m.DeviceAuth? then Authenticated(cfg, s, conn, m.device, m.valid, now)
    else if m.Ignored? then Outcome(s, [], Done)
    else
      match s.sessions[conn].device
      case None => Outcome(s, [], NotAuthenticated)
      case Some(device) =>
        match m
        case PairingRegister(code) => CodeRegistered(cfg, s, conn, device, code, now)
        case PairingInitiate(_, _, _) => PairingInitiated(s, conn, device, m, now)
        case PairingResume(token, key) => PairingResumed(s, conn, device, token, key)
        case Sealed(_, _, _) => SealedRouted(s, device, m)
        case PeerSessionReset(pick) => ResetRouted(s, device, pick)
  }

  function Closed(s: State, conn: nat): State
    requires conn < |s.sessions|
  {
    var device := s.sessions[conn].device;
    s.(sessions := s.sessions[conn := s.sessions[conn].(running := false)],
       online := if device.Some? then RemovedIf(s.online, device.value, conn) else s.online)
  }

  function Step(cfg: Config, s: State, e: Event): Outcome {
    match e
    case Connect => Outcome(s.(sessions := s.sessions + [Session(None, true, true)]), [], Done)
    case WriterStops(conn) =>
      Outcome(if conn < |s.sessions| then s.(sessions := s.sessions[conn := s.sessions[conn].(open := false)]) else s, [], Done)
    case Received(conn, m, now) =>
      if conn < |s.sessions| && s.sessions[conn].running then Handled(cfg, s, conn, m, now) else Outcome(s, [], Done)
    case Disconnect(conn) =>
      Outcome(if conn < |s.sessions| && s.sessions[conn].running then Closed(s, conn) else s, [], Done)
  }

  // ---- The server ----

  class Server {
    const cfg: Config
    const db: Db
    const connections: Connections
    const limiter: RateLimiter
    var sessions: seq<Session>

    constructor (maxFailures: nat, windowSecs: nat, codeTtlSecs: nat)
      ensures Valid() && fresh(db) && fresh(connections) && fresh(limiter)
      ensures cfg == Config(Limits(maxFailures, windowSecs * 1000), codeTtlSecs) && Current() == EMPTY
    {
      cfg := Config(Limits(maxFailures, windowSecs * 1000), codeTtlSecs);
      db := new Db();
      connections := new Connections();
      limiter := new RateLimiter(maxFailures, windowSecs);
      sessions := [];
    }

    ghost predicate Valid() {
      limiter.limits == cfg.limits
    }

    function Current(): State
      reads this, db, connections, limiter
    {
      State(sessions, connections.online, db.State(), limiter.table)
    }

    method Accept() returns (conn: nat)
      modifies this`sessions
      ensures Current() == Step(cfg, old(Current()), Connect).state && conn == |old(sessions)|
    {
      conn := |sessions|;
      sessions := sessions + [Session(None, true, true)];
    }

    method SendMessage(conn: nat, frame: Frame) returns (sent: seq<Sent>, ok: bool)
      ensures sent == Offer(Current(), conn, frame) && ok == Takes(Current(), conn)
    {
      ok := conn < |sessions| && sessions[conn].open;
      sent := if ok then [Sent(conn, frame)] else [];
    }

    method HandleDeviceAuth(conn: nat, device: string, valid: bool, now: int) returns (sent: seq<Sent>, reply: Reply)
      requires Valid() && conn < |sessions|
      modifies this, connections, limiter
      ensures Outcome(Current(), sent, reply) == Authenticated(cfg, old(Current()), conn, device, valid, now)
    {
      if sessions[conn].device.Some? {
        return [], Done;
      }
      var allowed := limiter.Allowed(device, now);
      if !allowed {
        return [], RateLimited;
      }
      if !valid {
        limiter.RecordFailure(device, now);
        return [], Rejected;
      }
      limiter.Reset(device);
      var ok;
      sent, ok := SendMessage(conn, Ack);
      if !ok {
        limiter.RecordFailure(device, now);
        return [], PeerClosed;
      }
      connections.Insert(device, conn);
      sessions := sessions[conn := sessions[conn].(device := Some(device))];
      reply := Done;
    }

    method HandlePairingRegister(conn: nat, pc: string, code: string, now: int) returns (sent: seq<Sent>, reply: Reply)
      requires Valid()
      modifies db, limiter
      ensures Outcome(Current(), sent, reply) == CodeRegistered(cfg, old(Current()), conn, pc, code, now)
    {
      var allowed := limiter.Allowed(pc, now);
      if !allowed {
        return [], RateLimited;
      }
      limiter.RecordFailure(pc, now);
      var ok := db.RegisterPairingCode(code, pc, cfg.codeTtlSecs, now);
      if !ok {
        return [], DatabaseError;
      }
      sent, ok := SendMessage(conn, Ack);
      reply := if ok then Done else PeerClosed;
    }

    /** The code is looked up again every 100 ms; a code that is not there at first does not become
        valid while only time passes. */
    method AwaitCode(code: string, now: int) returns (owner: Option<string>)
      ensures owner == CodeOwner(db.State(), code, now)
    {
      owner := None;
      var attempt := 0;
      while attempt < 50 && owner.None?
        invariant 0 <= attempt <= 50
        invariant if attempt == 0 then owner.None? else owner == CodeOwner(db.State(), code, now)
      {
        owner := db.TakePairingCode(code, now + 100 * attempt);
        attempt := attempt + 1;
      }
    }

    method Pair(pc: string, phone: string, m: Message, now: int) returns (token: nat)
      requires m.PairingInitiate?
      modifies db
      ensures db.State() == PairedTables(old(db.State()), pc, phone, m, now) && token == old(db.issued)
    {
      token := db.CreatePairing(pc, phone, m.pcKey, now);
      db.RebindPcPairingsToPhone(pc, phone);
      db.MarkPairingCodeUsed(m.code);
    }

    method ConfirmBoth(conn: nat, pc: string, phone: string, token: nat, m: Message) returns (sent: seq<Sent>, reply: Reply)
      requires m.PairingInitiate?
      ensures Outcome(Current(), sent, reply) == BothConfirmed(Current(), conn, pc, phone, token, m)
    {
      var toPc: seq<Sent>, ok := [], true;
      var pcConn := connections.Get(pc);
      if pcConn.Some? {
        toPc, ok := SendMessage(pcConn.value, PairingConfirm(token, pc, phone, m.phoneKey));
        if !ok {
          return [], PeerClosed;
        }
      }
      sent, ok := SendMessage(conn, PairingConfirm(token, pc, phone, m.pcKey));
      sent := toPc + sent;
      reply := if ok then Done else PeerClosed;
    }

    method HandlePairingInitiate(conn: nat, phone: string, m: Message, now: int) returns (sent: seq<Sent>, reply: Reply)
      requires m.PairingInitiate?
      modifies db
      ensures Outcome(Current(), sent, reply) == PairingInitiated(old(Current()), conn, phone, m, now)
    {
      hide PairedTables, BothConfirmed;
      var owner := AwaitCode(m.code, now);
      if owner.None? {
        var ok;
        sent, ok := SendMessage(conn, PairingError(InvalidCode));
        reply := if ok then InvalidPairingCode else PeerClosed;
        return;
      }
      var token := Pair(owner.value, phone, m, now);
      sent, reply := ConfirmBoth(conn, owner.value, phone, token, m);
    }

    method HandlePairingResume(conn: nat, phone: string, token: nat, phoneKey: string) returns (sent: seq<Sent>, reply: Reply)
      modifies connections
      ensures Outcome(Current(), sent, reply) == PairingResumed(old(Current()), conn, phone, token, phoneKey)
    {
      var found := db.PairingByToken(token);
      var ok;
      if found.None? {
        sent, ok := SendMessage(conn, PairingError(UnknownToken));
        return sent, InvalidPairingCode;
      }
      var row := found.value;
      if row.phone != phone {
        sent, ok := SendMessage(conn, PairingError(OtherDevice));
        return sent, NotPaired;
      }
      var pcConn := connections.Get(row.pc);
      if pcConn.None? {
        sent, ok := SendMessage(conn, PairingError(PcOffline));
        return sent, PcIsOffline;
      }
      sent, ok := SendMessage(pcConn.value, PairingConfirm(token, row.pc, phone, phoneKey));
      if !ok {
        connections.Remove(row.pc);
        sent, ok := SendMessage(conn, PairingError(PcOffline));
        return sent, PcIsOffline;
      }
      var toPhone;
      toPhone, ok := SendMessage(conn, PairingConfirm(token, row.pc, phone, row.pcKey));
      sent := sent + toPhone;
      reply := if ok then Done else PeerClosed;
    }

    method Forward(to: string, frame: Frame) returns (sent: seq<Sent>)
      modifies connections
      ensures Outcome(Current(), sent, Done) == Forwarded(old(Current()), to, frame)
    {
      sent := [];
      var conn := connections.Get(to);
      if conn.Some? {
        var ok;
        sent, ok := SendMessage(conn.value, frame);
        if !ok {
          connections.Remove(to);
        }
      }
    }

    method RouteSealed(from: string, m: Message) returns (sent: seq<Sent>, reply: Reply)
      requires m.Sealed?
      modifies connections
      ensures Outcome(Current(), sent, reply) == SealedRouted(old(Current()), from, m)
    {
      if |m.text| > MAX_ROUTED_FRAME_BYTES {
        return [], Done;
      }
      if !m.wellFormed {
        return [], BadFrame;
      }
      var paired := db.PairingFor(from, m.to);
      if !paired {
        return [], NotPaired;
      }
      sent := Forward(m.to, SealedText(m.text));
      reply := Done;
    }

    method RoutePeerSessionReset(from: string, pick: nat) returns (sent: seq<Sent>, reply: Reply)
      modifies connections
      ensures Outcome(Current(), sent, reply) == ResetRouted(old(Current()), from, pick)
    {
      var partner := db.LatestPairingPartnerFor(from, pick);
      sent := [];
      if partner.Some? {
        sent := Forward(partner.value, SessionResetNotice);
      }
      reply := Done;
    }

    method HandleText(conn: nat, m: Message, now: int) returns (sent: seq<Sent>, reply: Reply)
      requires Valid() && conn < |sessions|
      modifies this, db, connections, limiter
      ensures Outcome(Current(), sent, reply) == Handled(cfg, old(Current()), conn, m, now)
    {
      if m.DeviceAuth? {
        sent, reply := HandleDeviceAuth(conn, m.device, m.valid, now);
        return;
      }
      if m.Ignored? {
        return [], Done;
      }
      if sessions[conn].device.None? {
        return [], NotAuthenticated;
      }
      var device := sessions[conn].device.value;
      match m {
        case PairingRegister(code) => sent, reply := HandlePairingRegister(conn, device, code, now);
        case PairingInitiate(_, _, _) => sent, reply := HandlePairingInitiate(conn, device, m, now);
        case PairingResume(token, key) => sent, reply := HandlePairingResume(conn, device, token, key);
        case Sealed(_, _, _) => sent, reply := RouteSealed(device, m);
        case PeerSessionReset(pick) => sent, reply := RoutePeerSessionReset(device, pick);
      }
    }

    /** The end of a session's read loop. */
    method Cleanup(conn: nat)
      requires conn < |sessions|
      modifies this, connections
      ensures Current() == Closed(old(Current()), conn)
    {
      sessions := sessions[conn := sessions[conn].(running := false)];
      if sessions[conn].device.Some? {
        connections.RemoveIf(sessions[conn].device.value, conn);
      }
    }
  }
}

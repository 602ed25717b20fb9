/**
 The relay's pairing tables. `Tables` is their content as a value; the class `Db` runs the
 statements against it one after the other.
 */
module RelayDb {
  import opened Options

  datatype Code = Code(pc: string, expires: int, used: bool)

  datatype Row = Row(token: nat, pc: string, phone: string, created: int, pcKey: string)

  /** Pairing codes by code, pairings in the order of their insertion. Tokens are fresh, so they are
      counted: `issued` of them exist. */
  datatype Tables = Tables(codes: map<string, Code>, rows: seq<Row>, issued: nat)

  const NO_TABLES := Tables(map[], [], 0)

  // ---- Codes ----

  function WithoutCodesOf(codes: map<string, Code>, pc: string): map<string, Code> {
    map c | c in codes && codes[c].pc != pc :: codes[c]
  }

  /** The insertion fails when another PC holds the code; by then this PC's old code is gone. */
  predicate CanRegister(t: Tables, code: string, pc: string) {
    code !in WithoutCodesOf(t.codes, pc)
  }

  function Registered(t: Tables, code: string, pc: string, expires: int): Tables {
    var kept := WithoutCodesOf(t.codes, pc);
    t.(codes := if code in kept then kept else kept[code := Code(pc, expires, false)])
  }

  function CodeOwner(t: Tables, code: string, now: int): Option<string> {
    if code in t.codes && !t.codes[code].used && t.codes[code].expires >= now then Some(t.codes[code].pc) else None
  }

  function MarkedUsed(t: Tables, code: string): Tables {
    if code in t.codes then t.(codes := t.codes[code := t.codes[code].(used := true)]) else t
  }

  // ---- Pairings ----

  function WithPairing(t: Tables, pc: string, phone: string, pcKey: string, now: int): Tables {
    t.(rows := t.rows + [Row(t.issued, pc, phone, now, pcKey)], issued := t.issued + 1)
  }

  function Redirected(row: Row, pc: string, phone: string): Row {
    if row.pc == pc then row.(phone := phone) else row
  }

  function Rebound(rows: seq<Row>, pc: string, phone: string): (r: seq<Row>)
    ensures |r| == |rows|
    ensures forall i :: 0 <= i < |rows| ==> r[i] == Redirected(rows[i], pc, phone)
  {
    if rows == [] then [] else [Redirected(rows[0], pc, phone)] + Rebound(rows[1..], pc, phone)
  }

  predicate Joins(row: Row, a: string, b: string) {
    (row.pc == a && row.phone == b) || (row.pc == b && row.phone == a)
  }

  predicate PairedTogether(rows: seq<Row>, a: string, b: string) {
    exists i :: 0 <= i < |rows| && Joins(rows[i], a, b)
  }

  predicate Involves(row: Row, device: string) {
    row.pc == device || row.phone == device
  }

  function Partner(row: Row, device: string): string {
    if row.pc == device then row.phone else row.pc
  }

  /** A row is the latest of a device's when none of them was created later. */
  predicate IsLatest(rows: seq<Row>, device: string, k: nat) {
    && k < |rows| && Involves(rows[k], device)
    && forall i :: 0 <= i < |rows| && Involves(rows[i], device) ==> rows[i].created <= rows[k].created
  }

  function LatestRow(rows: seq<Row>, device: string): (k: Option<nat>)
    ensures k.Some? ==> IsLatest(rows, device, k.value)
    ensures k.None? ==> forall i :: 0 <= i < |rows| ==> !Involves(rows[i], device)
  {
    if rows == [] then None
    else
      var last := |rows| - 1;
      var before := LatestRow(rows[..last], device);
      if !Involves(rows[last], device) || (before.Some? && rows[last].created < rows[before.value].created) then before
      else Some(last)
  }

  /** Of several rows that no other exceeds the query may return any; `pick` stands for its choice. */
  function ReturnedRow(rows: seq<Row>, device: string, pick: nat): (k: Option<nat>)
    ensures k.Some? ==> IsLatest(rows, device, k.value)
    ensures k.None? ==> forall i :: 0 <= i < |rows| ==> !Involves(rows[i], device)
    ensures IsLatest(rows, device, pick) ==> k == Some(pick)
  {
    if IsLatest(rows, device, pick) then Some(pick) else LatestRow(rows, device)
  }

  /** The row of a token; tokens are the table's primary key. */
  function RowOf(rows: seq<Row>, token: nat): (r: Option<Row>)
    ensures r.Some? ==> r.value in rows && r.value.token == token
    ensures r.None? ==> forall i :: 0 <= i < |rows| ==> rows[i].token != token
  {
    if rows == [] then None else if rows[0].token == token then Some(rows[0]) else RowOf(rows[1..], token)
  }

  class Db {
    var codes: map<string, Code>
    var rows: seq<Row>
    var issued: nat

    constructor ()
      ensures State() == NO_TABLES
    {
      codes, rows, issued := map[], [], 0;
    }

    function State(): Tables
      reads this
    {
      Tables(codes, rows, issued)
    }

    method RegisterPairingCode(code: string, pc: string, ttlSecs: nat, now: int) returns (ok: bool)
      modifies this
      ensures State() == Registered(old(State()), code, pc, now + ttlSecs * 1000)
      ensures ok == CanRegister(old(State()), code, pc)
    {
      var expiresAt := now + ttlSecs * 1000;
      codes := map c | c in codes && codes[c].pc != pc :: codes[c];
      if code in codes {
        return false;
      }
      codes := codes[code := Code(pc, expiresAt, false)];
      return true;
    }

    method TakePairingCode(code: string, now: int) returns (pc: Option<string>)
      ensures pc == CodeOwner(State(), code, now)
    {
      if code !in codes {
        return None;
      }
      var row := codes[code];
      if !row.used && row.expires >= now {
        pc := Some(row.pc);
      } else {
        pc := None;
      }
    }

    method MarkPairingCodeUsed(code: string)
      modifies this`codes
      ensures State() == MarkedUsed(old(State()), code)
    {
      if code in codes {
        codes := codes[code := codes[code].(used := true)];
      }
    }

    method CreatePairing(pc: string, phone: string, pcKey: string, now: int) returns (token: nat)
      modifies this
      ensures State() == WithPairing(old(State()), pc, phone, pcKey, now) && token == old(issued)
    {
      token := issued;
      rows := rows + [Row(token, pc, phone, now, pcKey)];
      issued := issued + 1;
    }

    method RebindPcPairingsToPhone(pc: string, phone: string)
      modifies this`rows
      ensures State() == old(State()).(rows := Rebound(old(rows), pc, phone))
    {
      hide Rebound;
      ghost var was := rows;
      var i := 0;
      while i < |rows|
        modifies this`rows
        invariant 0 <= i <= |rows| == |was|
        invariant forall j :: 0 <= j < i ==> rows[j] == Redirected(was[j], pc, phone)
        invariant forall j :: i <= j < |rows| ==> rows[j] == was[j]
      {
        if rows[i].pc == pc {
          rows := rows[i := rows[i].(phone := phone)];
        }
        i := i + 1;
      }
      assert rows == Rebound(was, pc, phone);
    }

    method PairingFor(a: string, b: string) returns (found: bool)
      ensures found == PairedTogether(rows, a, b)
    {
      var i := 0;
      while i < |rows|
        invariant 0 <= i <= |rows|
        invariant forall j :: 0 <= j < i ==> !Joins(rows[j], a, b)
      {
        if Joins(rows[i], a, b) {
          return true;
        }
        i := i + 1;
      }
      return false;
    }

    method LatestPairingPartnerFor(device: string, pick: nat) returns (partner: Option<string>)
      ensures partner == match ReturnedRow(rows, device, pick)
                         case Some(k) => Some(Partner(rows[k], device))
                         case None => None
    {
      var best: Option<nat> := None;
      var i := 0;
      while i < |rows|
        invariant 0 <= i <= |rows|
        invariant best == LatestRow(rows[..i], device)
      {
        assert rows[..i + 1][..i] == rows[..i];
        if Involves(rows[i], device) && !(best.Some? && rows[i].created < rows[best.value].created) {
          best := Some(i);
        }
        i := i + 1;
      }
      assert rows[..|rows|] == rows;
      if pick < |rows| && best.Some? && Involves(rows[pick], device) && rows[pick].created == rows[best.value].created {
        best := Some(pick);
      }
      partner := if best.Some? then Some(Partner(rows[best.value], device)) else None;
    }

    method PairingByToken(token: nat) returns (row: Option<Row>)
      ensures row == RowOf(rows, token)
    {
      var i := 0;
      while i < |rows|
        invariant 0 <= i <= |rows|
        invariant RowOf(rows, token) == RowOf(rows[i..], token)
      {
        if rows[i].token == token {
          return Some(rows[i]);
        }
        i := i + 1;
      }
      return None;
    }
  }
}

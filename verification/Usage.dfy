/**
 Token usage accounting. The ledger is updated one event at a time with saturating additions; its
 meaning is a function of the whole history of events.
 */
module Usage {
  import opened Options
  import opened Events

  // ---- Token breakdowns ----

  datatype Axis = Input | Output | CacheRead | CacheWrite | Reasoning | Total

  function On(b: TokenBreakdown, a: Axis): Option<U64> {
    match a
    case Input => b.input
    case Output => b.output
    case CacheRead => b.cacheRead
    case CacheWrite => b.cacheWrite
    case Reasoning => b.reasoning
    case Total => b.total
  }

  const NO_TOKENS := TokenBreakdown(None, None, None, None, None, None)

  function SaturatingAdd(x: U64, y: U64): U64 {
    if x + y > U64_MAX then U64_MAX else x + y
  }

  function AddOptional(target: Option<U64>, delta: Option<U64>): Option<U64> {
    if delta.None? then target else Some(SaturatingAdd(target.UnwrapOr(0), delta.value))
  }

  function AddTokens(target: TokenBreakdown, delta: TokenBreakdown): TokenBreakdown {
    TokenBreakdown(
      AddOptional(target.input, delta.input),
      AddOptional(target.output, delta.output),
      AddOptional(target.cacheRead, delta.cacheRead),
      AddOptional(target.cacheWrite, delta.cacheWrite),
      AddOptional(target.reasoning, delta.reasoning),
      AddOptional(target.total, delta.total))
  }

  predicate HasTokens(b: TokenBreakdown) {
    b.input.Some? || b.output.Some? || b.cacheRead.Some? || b.cacheWrite.Some? || b.reasoning.Some? || b.total.Some?
  }

  // ---- The ledger ----

  datatype Key = Key(model: Option<string>, provider: Option<string>, agentCli: Option<string>)

  datatype Row = Row(
    title: string, key: Key, eventCount: nat, requestCount: nat,
    tokens: TokenBreakdown, contextPeak: Option<U64>, hasSessionTotal: bool)

  datatype Ledger = Ledger(
    sessionTotal: TokenBreakdown, hasSessionTotal: bool, currentTurn: TokenBreakdown, byModel: seq<Row>)

  const EMPTY_LEDGER := Ledger(NO_TOKENS, false, NO_TOKENS, [])

  function KeyOf(e: UsageEvent): Key { Key(e.model, e.provider, e.agentCli) }

  function LabelOf(e: UsageEvent): string {
    if e.model.Some? then e.model.value else e.agentCli.UnwrapOr("Unknown model")
  }

  /** Index of the first row with the event's key, or the number of rows. */
  function FindRow(rows: seq<Row>, key: Key): (i: nat)
    ensures i <= |rows|
    ensures i < |rows| ==> rows[i].key == key
    ensures forall j :: 0 <= j < i ==> rows[j].key != key
  {
    if rows == [] || rows[0].key == key then 0 else 1 + FindRow(rows[1..], key)
  }

  function NewRow(e: UsageEvent): Row {
    Row(LabelOf(e), KeyOf(e), 0, 0, NO_TOKENS, None, false)
  }

  function RowTokens(r: Row, e: UsageEvent): Row {
    match e.scope
    case TurnDelta => if r.hasSessionTotal then r else r.(tokens := AddTokens(r.tokens, e.tokens))
    case SessionTotal => if HasTokens(e.tokens) then r.(tokens := e.tokens, hasSessionTotal := true) else r
    case ContextSnapshot => r
  }

  function Max(x: U64, y: U64): U64 { if x < y then y else x }

  function UpdateRow(r: Row, e: UsageEvent): (r': Row)
    ensures r'.key == r.key
  {
    RowTokens(r, e).(
      eventCount := r.eventCount + 1,
      requestCount := r.requestCount + if e.scope.TurnDelta? then 1 else 0,
      contextPeak := if e.contextUsed.Some? then Some(Max(r.contextPeak.UnwrapOr(0), e.contextUsed.value)) else r.contextPeak)
  }

  function UpdateRows(rows: seq<Row>, e: UsageEvent): seq<Row> {
    var i := FindRow(rows, KeyOf(e));
    if i < |rows| then rows[i := UpdateRow(rows[i], e)] else rows + [UpdateRow(NewRow(e), e)]
  }

  function UpdateSession(l: Ledger, e: UsageEvent): Ledger {
    match e.scope
    case TurnDelta =>
      l.(currentTurn := e.tokens,
         sessionTotal := if !l.hasSessionTotal && HasTokens(e.tokens) then AddTokens(l.sessionTotal, e.tokens) else l.sessionTotal)
    case SessionTotal =>
      if HasTokens(e.tokens) then l.(sessionTotal := e.tokens, hasSessionTotal := true) else l
    case ContextSnapshot => l
  }

  function Record(l: Ledger, e: UsageEvent): Ledger {
    UpdateSession(l, e).(byModel := UpdateRows(l.byModel, e))
  }

  function RecordAll(es: seq<UsageEvent>): Ledger {
    if es == [] then EMPTY_LEDGER else Record(RecordAll(es[..|es| - 1]), es[|es| - 1])
  }

  // ---- What the ledger means ----

  /** The last total the agent reported, if it ever reported a non-empty one. */
  function LastTotal(es: seq<UsageEvent>): Option<TokenBreakdown> {
    if es == [] then None
    else
      var e := es[|es| - 1];
      if e.scope.SessionTotal? && HasTokens(e.tokens) then Some(e.tokens) else LastTotal(es[..|es| - 1])
  }

  /** The exact, unbounded sum of what the turn deltas report on one axis. */
  function ExactSum(es: seq<UsageEvent>, a: Axis): Option<nat> {
    if es == [] then None
    else
      var before, e := ExactSum(es[..|es| - 1], a), es[|es| - 1];
      if e.scope.TurnDelta? && On(e.tokens, a).Some? then Some(before.UnwrapOr(0) + On(e.tokens, a).value) else before
  }

  function Clamp(n: nat): U64 { if n > U64_MAX then U64_MAX else n }

  function Meaning(es: seq<UsageEvent>, a: Axis): Option<U64> {
    match LastTotal(es)
    case Some(total) => On(total, a)
    case None => if ExactSum(es, a).None? then None else Some(Clamp(ExactSum(es, a).value))
  }

  function ForKey(es: seq<UsageEvent>, key: Key): seq<UsageEvent> {
    if es == [] then []
    else
      var before, e := ForKey(es[..|es| - 1], key), es[|es| - 1];
      if KeyOf(e) == key then before + [e] else before
  }

  function Deltas(es: seq<UsageEvent>): nat {
    if es == [] then 0 else Deltas(es[..|es| - 1]) + if es[|es| - 1].scope.TurnDelta? then 1 else 0
  }

  /** A delta that reports nothing adds nothing, so the guard on it changes nothing. */
  lemma AddTokensOn(t: TokenBreakdown, d: TokenBreakdown, a: Axis)
    ensures On(AddTokens(t, d), a) == AddOptional(On(t, a), On(d, a))
    ensures !HasTokens(d) ==> AddTokens(t, d) == t
  {}

  /** One axis of a running total, after any history. */
  lemma MeaningStep(es: seq<UsageEvent>, a: Axis, t: TokenBreakdown)
    requires es != []
    requires On(t, a) == Meaning(es[..|es| - 1], a)
    ensures var e := es[|es| - 1];
            Meaning(es, a) ==
              if e.scope.SessionTotal? && HasTokens(e.tokens) then On(e.tokens, a)
              else if e.scope.TurnDelta? && LastTotal(es[..|es| - 1]).None? then On(AddTokens(t, e.tokens), a)
              else On(t, a)
  {
    AddTokensOn(t, es[|es| - 1].tokens, a);
  }

  /** The session total is what the history says: the last non-empty reported total, or else the
      saturated sum of all turn deltas, on every axis. */
  lemma {:induction false} SessionTotalMeaning(es: seq<UsageEvent>, a: Axis)
    ensures On(RecordAll(es).sessionTotal, a) == Meaning(es, a)
    ensures RecordAll(es).hasSessionTotal <==> LastTotal(es).Some?
  {
    if es != [] {
      var before := es[..|es| - 1];
      SessionTotalMeaning(before, a);
      MeaningStep(es, a, RecordAll(before).sessionTotal);
      AddTokensOn(RecordAll(before).sessionTotal, es[|es| - 1].tokens, a);
    }
  }

  ghost predicate RowMeans(r: Row, es: seq<UsageEvent>) {
    && (forall a :: On(r.tokens, a) == Meaning(es, a))
    && (r.hasSessionTotal <==> LastTotal(es).Some?)
    && r.eventCount == |es| && r.requestCount == Deltas(es)
  }

  lemma RowStep(r: Row, es: seq<UsageEvent>, e: UsageEvent)
    requires RowMeans(r, es)
    ensures RowMeans(UpdateRow(r, e), es + [e])
  {
    assert (es + [e])[..|es|] == es;
    forall a
      ensures On(UpdateRow(r, e).tokens, a) == Meaning(es + [e], a)
    {
      MeaningStep(es + [e], a, r.tokens);
    }
  }

  lemma NewRowMeans(e: UsageEvent)
    ensures RowMeans(NewRow(e), [])
  {}

  ghost predicate UniqueKeys(rows: seq<Row>) {
    forall i, j :: 0 <= i < j < |rows| ==> rows[i].key != rows[j].key
  }

  ghost predicate RowsMean(rows: seq<Row>, es: seq<UsageEvent>) {
    && UniqueKeys(rows)
    && (forall i :: 0 <= i < |rows| ==> RowMeans(rows[i], ForKey(es, rows[i].key)))
    && (forall e :: e in es ==> FindRow(rows, KeyOf(e)) < |rows|)
  }

  lemma ForKeyEmpty(es: seq<UsageEvent>, key: Key)
    ensures ForKey(es, key) == [] <==> forall e :: e in es ==> KeyOf(e) != key
  {
    if es != [] {
      ForKeyEmpty(es[..|es| - 1], key);
      assert es == es[..|es| - 1] + [es[|es| - 1]];
    }
  }

  /** Every row is the ledger of its own events, each key has one row, and no event is without. */
  lemma {:induction false} RowsMeaning(es: seq<UsageEvent>)
    ensures RowsMean(RecordAll(es).byModel, es)
  {
    hide RowsMean, UpdateRows, UpdateSession;
    if es != [] {
      var before, e := es[..|es| - 1], es[|es| - 1];
      RowsMeaning(before);
      RowsStep(RecordAll(before).byModel, before, e);
      assert es == before + [e];
      assert RecordAll(es).byModel == UpdateRows(RecordAll(before).byModel, e);
    } else {
      NoRows();
    }
  }

  lemma NoRows()
    ensures RowsMean([], [])
  {
    hide FindRow;
  }

  lemma RowsStep(rows: seq<Row>, es: seq<UsageEvent>, e: UsageEvent)
    requires RowsMean(rows, es)
    ensures RowsMean(UpdateRows(rows, e), es + [e])
  {
    hide RowMeans, UpdateRow;
    var rows', es', i := UpdateRows(rows, e), es + [e], FindRow(rows, KeyOf(e));
    assert es'[..|es|] == es;
    assert i < |rows| ==> rows'[i].key == rows[i].key;
    if i == |rows| {
      forall x | x in es
        ensures KeyOf(x) != KeyOf(e)
      {
        assert FindRow(rows, KeyOf(x)) < |rows|;
      }
      ForKeyEmpty(es, KeyOf(e));
      NewRowMeans(e);
      RowStep(NewRow(e), [], e);
    } else {
      RowStep(rows[i], ForKey(es, rows[i].key), e);
    }
    forall j | 0 <= j < |rows'|
      ensures RowMeans(rows'[j], ForKey(es', rows'[j].key))
    {
      if j != i {
        assert rows'[j] == rows[j] && rows[j].key != KeyOf(e);
      } else {
        assert ForKey(es', KeyOf(e)) == ForKey(es, KeyOf(e)) + [e];
        assert [] + [e] == [e];
      }
    }
    forall x | x in es'
      ensures FindRow(rows', KeyOf(x)) < |rows'|
    {
      RowStaysFound(rows, e, x);
    }
  }

  lemma RowStaysFound(rows: seq<Row>, e: UsageEvent, x: UsageEvent)
    requires x == e || FindRow(rows, KeyOf(x)) < |rows|
    ensures FindRow(UpdateRows(rows, e), KeyOf(x)) < |UpdateRows(rows, e)|
  {
    assert UpdateRows(rows, e)[FindRow(rows, KeyOf(x))].key == KeyOf(x);
  }

  // ---- Conservation across rows ----

  /** A column of the rows. */
  datatype Column = EventCount | RequestCount | Tokens(axis: Axis)

  function Cell(r: Row, c: Column): nat {
    match c
    case EventCount => r.eventCount
    case RequestCount => r.requestCount
    case Tokens(a) => On(r.tokens, a).UnwrapOr(0)
  }

  function Sum(rows: seq<Row>, c: Column): nat {
    if rows == [] then 0 else Sum(rows[..|rows| - 1], c) + Cell(rows[|rows| - 1], c)
  }

  lemma {:induction false} SumUpdate(rows: seq<Row>, c: Column, i: nat, r: Row)
    requires i < |rows|
    ensures Sum(rows[i := r], c) + Cell(rows[i], c) == Sum(rows, c) + Cell(r, c)
    ensures Cell(rows[i], c) <= Sum(rows, c)
  {
    var n := |rows| - 1;
    if i == n {
      assert rows[i := r][..n] == rows[..n];
    } else {
      assert rows[i := r][..n] == rows[..n][i := r];
      SumUpdate(rows[..n], c, i, r);
    }
  }

  /** How one event moves a sum over the rows: only the event's own row changes. */
  lemma SumStep(rows: seq<Row>, c: Column, e: UsageEvent) returns (r: Row)
    ensures Sum(UpdateRows(rows, e), c) + Cell(r, c) == Sum(rows, c) + Cell(UpdateRow(r, e), c)
    ensures Cell(r, c) <= Sum(rows, c)
    ensures r in rows || r == NewRow(e)
  {
    hide UpdateRow, NewRow, Cell, Sum, FindRow;
    var i := FindRow(rows, KeyOf(e));
    if i < |rows| {
      SumUpdate(rows, c, i, UpdateRow(rows[i], e));
      return rows[i];
    }
    SumPush(rows, c, UpdateRow(NewRow(e), e));
    CellOfNewRow(e, c);
    return NewRow(e);
  }

  lemma SumPush(rows: seq<Row>, c: Column, r: Row)
    ensures Sum(rows + [r], c) == Sum(rows, c) + Cell(r, c)
  {
    assert (rows + [r])[..|rows|] == rows;
  }

  lemma CellOfNewRow(e: UsageEvent, c: Column)
    ensures Cell(NewRow(e), c) == 0
  {
  }

  /** No event is counted twice or dropped. */
  lemma {:induction false} CountsAddUp(es: seq<UsageEvent>)
    ensures Sum(RecordAll(es).byModel, EventCount) == |es|
    ensures Sum(RecordAll(es).byModel, RequestCount) == Deltas(es)
  {
    if es != [] {
      CountsAddUp(es[..|es| - 1]);
      var rows, e := RecordAll(es[..|es| - 1]).byModel, es[|es| - 1];
      var _ := SumStep(rows, EventCount, e);
      var _ := SumStep(rows, RequestCount, e);
    }
  }

  ghost predicate DeltasOnly(es: seq<UsageEvent>) {
    LastTotal(es).None?
  }

  lemma LastTotalPrefix(es: seq<UsageEvent>)
    requires es != [] && DeltasOnly(es)
    ensures DeltasOnly(es[..|es| - 1])
    ensures var e := es[|es| - 1]; !(e.scope.SessionTotal? && HasTokens(e.tokens))
  {}

  lemma {:induction false} NoRowTotals(es: seq<UsageEvent>, key: Key)
    requires DeltasOnly(es)
    ensures DeltasOnly(ForKey(es, key))
  {
    if es != [] {
      NoRowTotals(es[..|es| - 1], key);
      var before := ForKey(es[..|es| - 1], key);
      assert (before + [es[|es| - 1]])[..|before|] == before;
    }
  }

  function DeltaOn(e: UsageEvent, a: Axis): U64 {
    if e.scope.TurnDelta? then On(e.tokens, a).UnwrapOr(0) else 0
  }

  lemma RowValueStep(r: Row, e: UsageEvent, a: Axis)
    requires !r.hasSessionTotal && !(e.scope.SessionTotal? && HasTokens(e.tokens))
    ensures On(UpdateRow(r, e).tokens, a).UnwrapOr(0) == SaturatingAdd(On(r.tokens, a).UnwrapOr(0), DeltaOn(e, a))
  {
    AddTokensOn(r.tokens, e.tokens, a);
  }

  lemma SessionValueStep(l: Ledger, e: UsageEvent, a: Axis)
    requires !l.hasSessionTotal && !(e.scope.SessionTotal? && HasTokens(e.tokens))
    ensures On(Record(l, e).sessionTotal, a).UnwrapOr(0) == SaturatingAdd(On(l.sessionTotal, a).UnwrapOr(0), DeltaOn(e, a))
  {
    AddTokensOn(l.sessionTotal, e.tokens, a);
  }

  lemma ClampOnce(sum: nat, v: U64, d: U64)
    requires v <= sum
    ensures Clamp(sum - v + SaturatingAdd(v, d)) == SaturatingAdd(Clamp(sum), d)
  {}

  lemma RowsWithoutTotals(es: seq<UsageEvent>, r: Row)
    requires DeltasOnly(es) && r in RecordAll(es).byModel
    ensures !r.hasSessionTotal
  {
    RowsMeaning(es);
    NoRowTotals(es, r.key);
  }

  /** One event moves both sides of the law below in the same way. */
  lemma AgreementStep(l: Ledger, e: UsageEvent, a: Axis, exact: nat)
    requires !l.hasSessionTotal && !(e.scope.SessionTotal? && HasTokens(e.tokens))
    requires forall r :: r in l.byModel ==> !r.hasSessionTotal
    requires Clamp(Sum(l.byModel, Tokens(a))) == On(l.sessionTotal, a).UnwrapOr(0)
    requires Sum(l.byModel, Tokens(a)) <= exact
    ensures Clamp(Sum(Record(l, e).byModel, Tokens(a))) == On(Record(l, e).sessionTotal, a).UnwrapOr(0)
    ensures Sum(Record(l, e).byModel, Tokens(a)) <= exact + DeltaOn(e, a)
  {
    hide UpdateRow, UpdateRows, UpdateSession, Sum;
    var r := SumStep(l.byModel, Tokens(a), e);
    RowValueStep(r, e, a);
    SessionValueStep(l, e, a);
    ClampOnce(Sum(l.byModel, Tokens(a)), Cell(r, Tokens(a)), DeltaOn(e, a));
  }

  /** As long as the agent reports no totals, the rows and the session agree: the session total is
      the sum of the rows, saturated once. Rows may have saturated on the way. */
  lemma {:induction false} RowsAddUpToSession(es: seq<UsageEvent>, a: Axis)
    requires DeltasOnly(es)
    ensures Clamp(Sum(RecordAll(es).byModel, Tokens(a))) == On(RecordAll(es).sessionTotal, a).UnwrapOr(0)
    ensures Sum(RecordAll(es).byModel, Tokens(a)) <= ExactSum(es, a).UnwrapOr(0)
  {
    if es != [] {
      hide Record, Sum, Meaning, LastTotal, ExactSum, DeltasOnly, HasTokens;
      var init, e := es[..|es| - 1], es[|es| - 1];
      LastTotalPrefix(es);
      ExactSumStep(es, a);
      RowsAddUpToSession(init, a);
      forall r | r in RecordAll(init).byModel
        ensures !r.hasSessionTotal
      {
        RowsWithoutTotals(init, r);
      }
      assert !RecordAll(init).hasSessionTotal by {
        NoTotalSeen(init);
      }
      AgreementStep(RecordAll(init), e, a, ExactSum(init, a).UnwrapOr(0));
    }
  }

  lemma ExactSumStep(es: seq<UsageEvent>, a: Axis)
    requires es != []
    ensures ExactSum(es, a).UnwrapOr(0) == ExactSum(es[..|es| - 1], a).UnwrapOr(0) + DeltaOn(es[|es| - 1], a)
  {}

  lemma NoTotalSeen(es: seq<UsageEvent>)
    requires DeltasOnly(es)
    ensures !RecordAll(es).hasSessionTotal
  {
    SessionTotalMeaning(es, Input);
  }

  /** ... and without saturation they agree exactly. */
  lemma RowsAddUpExactly(es: seq<UsageEvent>, a: Axis)
    requires DeltasOnly(es) && ExactSum(es, a).UnwrapOr(0) <= U64_MAX
    ensures Sum(RecordAll(es).byModel, Tokens(a)) == ExactSum(es, a).UnwrapOr(0)
    ensures On(RecordAll(es).sessionTotal, a).UnwrapOr(0) == ExactSum(es, a).UnwrapOr(0)
  {
    RowsAddUpToSession(es, a);
    SessionTotalMeaning(es, a);
  }
}

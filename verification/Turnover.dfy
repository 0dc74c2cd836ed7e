/** The turnover lookup: five query windows in turn, the first one with an unfinished
    requirement or else the one with the most records, and the customer's verdict. */
module Turnover {
  import opened Base

  /** What the backend's status text says: nothing, or whether the requirement is unfinished. */
  datatype Status = Missing | Says(unfinished: bool)

  datatype Row = Row(status: Status, remaining: real, required: real, valid: real)

  /** A backend call fails, or returns the rows that extract_rows found. */
  datatype Response = Failed(error: string) | Rows(rows: seq<Row>)

  const WINDOWS :=
    ["custom_recent", "custom_month", "last_withdrawal_window", "last_withdrawal_recent", "custom_lookback"]

  /** One entry of query_windows. */
  datatype Report = Report(mode: string, records: nat, active: nat, remaining: int)

  /** Money is in cents.  Without an unfinished row there are no required and valid amounts. */
  datatype Summary = Summary(
    playerFound: bool, mode: string, records: seq<Row>, active: nat, remaining: int, required: Option<int>,
    valid: Option<int>, isMet: bool, queryWindows: seq<Report>)

  /** A status decides; without one, a positive remainder counts as unfinished. */
  predicate Incomplete(row: Row) {
    match row.status
    case Says(unfinished) => unfinished
    case Missing => row.remaining > 0.0
  }

  function Active(rows: seq<Row>): seq<Row> {
    if rows == [] then []
    else if Incomplete(rows[0]) then [rows[0]] + Active(rows[1..])
    else Active(rows[1..])
  }

  const REMAINING: Row -> real := (row: Row) => row.remaining
  const REQUIRED: Row -> real := (row: Row) => row.required
  const VALID: Row -> real := (row: Row) => row.valid

  function Sum(rows: seq<Row>, column: Row -> real): real {
    if rows == [] then 0.0 else column(rows[0]) + Sum(rows[1..], column)
  }

  /** round_money: to cents, halves away from zero. */
  function RoundMoney(amount: real): int {
    if amount >= 0.0 then (amount * 100.0 + 0.5).Floor else -((-amount) * 100.0 + 0.5).Floor
  }

  function Total(rows: seq<Row>, column: Row -> real): int {
    RoundMoney(Sum(Active(rows), column))
  }

  function ReportOf(i: nat, rows: seq<Row>): Report
    requires i < |WINDOWS|
  {
    Report(WINDOWS[i], |rows|, |Active(rows)|, Total(rows, REMAINING))
  }

  /** summarize_turnover_requirement, with the windows consulted so far. */
  function Summarize(i: nat, rows: seq<Row>, queryWindows: seq<Report>): Summary
    requires i < |WINDOWS|
  {
    var none := Active(rows) == [];
    Summary(true, WINDOWS[i], rows, |Active(rows)|, Total(rows, REMAINING),
            if none then None else Some(Total(rows, REQUIRED)), if none then None else Some(Total(rows, VALID)),
            none || Total(rows, REMAINING) <= 0, queryWindows)
  }

  // ---- What a summary says, in columns -------------------------------------------------------------

  /** The status says unfinished, or says nothing and something remains. */
  ghost predicate Unmet(row: Row) {
    row.status == Says(true) || (row.status == Missing && row.remaining > 0.0)
  }

  /** The amounts that count: those of unfinished rows. */
  ghost function Amounts(rows: seq<Row>, column: Row -> real): seq<real> {
    seq(|rows|, k requires 0 <= k < |rows| => if Unmet(rows[k]) then column(rows[k]) else 0.0)
  }

  /** sums are the running totals of the amounts. */
  ghost predicate Running(amounts: seq<real>, sums: seq<real>) {
    |sums| == |amounts| + 1 && sums[0] == 0.0 && forall k :: 0 <= k < |amounts| ==> sums[k + 1] == sums[k] + amounts[k]
  }

  ghost predicate AddsUp(amounts: seq<real>, total: real) {
    exists sums :: Running(amounts, sums) && sums[|amounts|] == total
  }

  /** The nearest number of cents; a half goes away from zero. */
  ghost predicate NearestCent(amount: real, cents: int) {
    var over := cents as real - 100.0 * amount;
    && -0.5 <= over <= 0.5
    && (over == 0.5 ==> amount > 0.0) && (over == -0.5 ==> amount < 0.0)
  }

  ghost predicate Owes(rows: seq<Row>, column: Row -> real, cents: int) {
    exists total :: AddsUp(Amounts(rows, column), total) && NearestCent(total, cents)
  }

  ghost function UnmetRows(rows: seq<Row>): set<int> {
    set k | 0 <= k < |rows| && Unmet(rows[k])
  }

  lemma {:induction false} ActiveOver(a: seq<Row>, b: seq<Row>)
    ensures Active(a + b) == Active(a) + Active(b)
  {
    if a == [] {
      assert a + b == b;
    } else {
      ActiveOver(a[1..], b);
      assert (a + b)[1..] == a[1..] + b;
    }
  }

  lemma {:induction false} ActiveCounts(rows: seq<Row>)
    ensures |Active(rows)| == |UnmetRows(rows)|
  {
    if rows == [] {
      assert UnmetRows(rows) == {};
    } else {
      var n := |rows| - 1;
      ActiveCounts(rows[..n]);
      ActiveOver(rows[..n], [rows[n]]);
      assert rows == rows[..n] + [rows[n]];
      assert UnmetRows(rows) == if Unmet(rows[n]) then UnmetRows(rows[..n]) + {n} else UnmetRows(rows[..n]);
    }
  }

  lemma {:induction false} ActiveAddsUp(rows: seq<Row>, column: Row -> real)
    ensures AddsUp(Amounts(rows, column), Sum(Active(rows), column))
  {
    if rows == [] {
      assert Running(Amounts(rows, column), [0.0]);
    } else {
      ActiveAddsUp(rows[1..], column);
      var first := if Unmet(rows[0]) then column(rows[0]) else 0.0;
      var head := Amounts(rows[..1], column);
      assert Running(head, [0.0, first]);
      AddsUpOver(head, first, Amounts(rows[1..], column), Sum(Active(rows[1..]), column));
      assert head + Amounts(rows[1..], column) == Amounts(rows, column);
    }
  }

  /** Totals add up over concatenated rows. */
  lemma AddsUpOver(a: seq<real>, x: real, b: seq<real>, y: real)
    requires AddsUp(a, x) && AddsUp(b, y)
    ensures AddsUp(a + b, x + y)
  {
    var s :| Running(a, s) && s[|a|] == x;
    var t :| Running(b, t) && t[|b|] == y;
    var sums := s + seq(|b|, k requires 0 <= k < |b| => x + t[k + 1]);
    assert Running(a + b, sums);
    if b != [] { assert sums[|a + b|] == x + t[|b|]; }
  }

  lemma TotalOwes(rows: seq<Row>, column: Row -> real)
    ensures Owes(rows, column, Total(rows, column))
  {
    ActiveAddsUp(rows, column);
    NearestIsRounded(Sum(Active(rows), column));
  }

  lemma NearestIsRounded(amount: real)
    ensures NearestCent(amount, RoundMoney(amount))
  {
  }

  lemma {:induction false} RunningUnique(amounts: seq<real>, s: seq<real>, t: seq<real>, k: nat)
    requires Running(amounts, s) && Running(amounts, t) && k <= |amounts|
    ensures s[k] == t[k]
  {
    if k > 0 { RunningUnique(amounts, s, t, k - 1); }
  }

  lemma AddsUpUnique(amounts: seq<real>, x: real, y: real)
    requires AddsUp(amounts, x) && AddsUp(amounts, y)
    ensures x == y
  {
    var s :| Running(amounts, s) && s[|amounts|] == x;
    var t :| Running(amounts, t) && t[|amounts|] == y;
    RunningUnique(amounts, s, t, |amounts|);
  }

  /** What is owed is one amount of cents. */
  lemma OwesUnique(rows: seq<Row>, column: Row -> real, c: int, d: int)
    requires Owes(rows, column, c) && Owes(rows, column, d)
    ensures c == d
  {
    var x :| AddsUp(Amounts(rows, column), x) && NearestCent(x, c);
    var y :| AddsUp(Amounts(rows, column), y) && NearestCent(y, d);
    AddsUpUnique(Amounts(rows, column), x, y);
  }

  /** One unfinished row owes what remains of it, whatever is required and valid; a finished one owes nothing. */
  lemma OneRowOwes(row: Row, c: int)
    ensures Owes([row], REMAINING, c) <==> NearestCent(if Unmet(row) then row.remaining else 0.0, c)
  {
    var amount := if Unmet(row) then row.remaining else 0.0;
    assert Running(Amounts([row], REMAINING), [0.0, amount]);
    if Owes([row], REMAINING, c) {
      var x :| AddsUp(Amounts([row], REMAINING), x) && NearestCent(x, c);
      AddsUpUnique(Amounts([row], REMAINING), x, amount);
    }
  }

  /** Finished rows, and the required and valid amounts, never affect what remains. */
  lemma OthersOweNothing(a: seq<Row>, finished: Row, b: seq<Row>, c: int)
    requires !Unmet(finished)
    ensures Owes(a + [finished] + b, REMAINING, c) <==> Owes(a + b, REMAINING, c)
  {
    var with, without := Amounts(a + [finished] + b, REMAINING), Amounts(a + b, REMAINING);
    var x, y := Sum(Active(a), REMAINING), Sum(Active(b), REMAINING);
    ActiveAddsUp(a, REMAINING);
    ActiveAddsUp(b, REMAINING);
    AddsUpOver(Amounts(a, REMAINING), x, Amounts(b, REMAINING), y);
    assert Running([0.0], [0.0, 0.0]);
    AddsUpOver(Amounts(a, REMAINING), x, [0.0], 0.0);
    AddsUpOver(Amounts(a, REMAINING) + [0.0], x, Amounts(b, REMAINING), y);
    assert with == Amounts(a, REMAINING) + [0.0] + Amounts(b, REMAINING);
    assert without == Amounts(a, REMAINING) + Amounts(b, REMAINING);
    forall z | AddsUp(with, z) ensures z == x + y { AddsUpUnique(with, z, x + y); }
    forall z | AddsUp(without, z) ensures z == x + y { AddsUpUnique(without, z, x + y); }
  }

  /** The windows are asked for in this order. */
  ghost function ModeOf(i: nat): string {
    match i
    case 0 => "custom_recent"
    case 1 => "custom_month"
    case 2 => "last_withdrawal_window"
    case 3 => "last_withdrawal_recent"
    case _ => "custom_lookback"
  }

  ghost predicate ShowsWindow(report: Report, i: nat, rows: seq<Row>)
    requires i < |WINDOWS|
  {
    && report.mode == ModeOf(i) && report.records == |rows| && report.active == |UnmetRows(rows)|
    && Owes(rows, REMAINING, report.remaining)
  }

  /** The summary of window i, listing the windows up to it, without reference to how it is computed. */
  ghost predicate Shows(s: Summary, responses: seq<Response>, i: nat) {
    && i < |responses| <= |WINDOWS| && (forall j :: 0 <= j <= i ==> responses[j].Rows?)
    && |s.queryWindows| == i + 1
    && (forall j :: 0 <= j <= i ==> ShowsWindow(s.queryWindows[j], j, responses[j].rows))
    && var rows := responses[i].rows;
       && s.playerFound && s.records == rows
       && ShowsWindow(Report(s.mode, |rows|, s.active, s.remaining), i, rows)
       && (s.isMet <==> s.active == 0 || s.remaining <= 0)
       && (s.required.None? <==> s.active == 0) && (s.valid.None? <==> s.active == 0)
       && (s.required.Some? ==> Owes(rows, REQUIRED, s.required.value))
       && (s.valid.Some? ==> Owes(rows, VALID, s.valid.value))
  }

  lemma ReportsShows(s: Summary, responses: seq<Response>, i: nat)
    requires Reports(s, responses, i)
    ensures Shows(s, responses, i)
  {
    forall j | 0 <= j <= i ensures responses[j].Rows? && ShowsWindow(s.queryWindows[j], j, responses[j].rows) {
      ActiveCounts(responses[j].rows);
      TotalOwes(responses[j].rows, REMAINING);
    }
    TotalOwes(responses[i].rows, REQUIRED);
    TotalOwes(responses[i].rows, VALID);
  }

  // ---- The search --------------------------------------------------------------------------------------

  ghost predicate HasIncomplete(rows: seq<Row>) {
    exists k :: 0 <= k < |rows| && Unmet(rows[k])
  }

  lemma {:induction false} ActiveIff(rows: seq<Row>)
    ensures Active(rows) != [] <==> HasIncomplete(rows)
  {
    if rows != [] {
      ActiveIff(rows[1..]);
      if HasIncomplete(rows[1..]) {
        var k :| 0 <= k < |rows[1..]| && Unmet(rows[1..][k]);
        assert Unmet(rows[k + 1]);
      }
      if HasIncomplete(rows) && !Unmet(rows[0]) {
        var k :| 0 <= k < |rows| && Unmet(rows[k]);
        assert Unmet(rows[1..][k - 1]);
      }
    }
  }

  ghost predicate Unfinished(responses: seq<Response>, i: nat) {
    i < |responses| && responses[i].Rows? && HasIncomplete(responses[i].rows)
  }

  /** The search ends at window i: the first failure or the first unfinished requirement. */
  ghost predicate StopsAt(responses: seq<Response>, i: nat) {
    && i < |responses| && (responses[i].Failed? || Unfinished(responses, i))
    && forall j :: 0 <= j < i ==> responses[j].Rows? && !Unfinished(responses, j)
  }

  ghost predicate NeverStops(responses: seq<Response>) {
    forall j :: 0 <= j < |responses| ==> responses[j].Rows? && !Unfinished(responses, j)
  }

  /** The earliest of the first n windows with the most records. */
  ghost predicate Fullest(responses: seq<Response>, n: nat, i: nat) {
    && i < n <= |responses| && responses[i].Rows?
    && forall j :: 0 <= j < n && responses[j].Rows? ==>
         |responses[j].rows| <= |responses[i].rows| && (j < i ==> |responses[j].rows| < |responses[i].rows|)
  }

  /** The reports of windows 0 to n - 1. */
  ghost predicate Prefix(reports: seq<Report>, responses: seq<Response>, n: nat) {
    && |reports| == n <= |responses| <= |WINDOWS|
    && forall j :: 0 <= j < n ==> responses[j].Rows? && reports[j] == ReportOf(j, responses[j].rows)
  }

  /** The summary of window i, listing the windows up to it. */
  ghost predicate Reports(s: Summary, responses: seq<Response>, i: nat) {
    && i < |responses| <= |WINDOWS| && responses[i].Rows?
    && Prefix(s.queryWindows, responses, i + 1)
    && s == Summarize(i, responses[i].rows, s.queryWindows)
  }

  const NOT_FOUND := Summary(false, WINDOWS[0], [], 0, 0, Some(0), Some(0), false, [Report(WINDOWS[0], 0, 0, 0)])

  lemma PrefixNext(reports: seq<Report>, responses: seq<Response>, i: nat)
    requires Prefix(reports, responses, i) && i < |responses| && responses[i].Rows?
    ensures Prefix(reports + [ReportOf(i, responses[i].rows)], responses, i + 1)
  {
  }

  /** The window kept so far, and the one just read. */
  lemma FullestNext(responses: seq<Response>, i: nat, at: nat)
    requires i < |responses| && responses[i].Rows? && (i == 0 || Fullest(responses, i, at))
    ensures if i == 0 || |responses[i].rows| > |responses[at].rows| then Fullest(responses, i + 1, i)
            else Fullest(responses, i + 1, at)
  {
  }

  /** query_turnover_requirement for a player that may be unknown. */
  method QueryTurnover(found: bool, responses: seq<Response>) returns (r: Result<Summary>)
    requires |responses| == |WINDOWS|
    ensures !found ==> r == Ok(NOT_FOUND)
    ensures !found ==>
              var s := r.value;
              && !s.playerFound && s.records == [] && s.active == 0 && s.remaining == 0 && !s.isMet
              && s.required == Some(0) && s.valid == Some(0) && s.mode == ModeOf(0)
              && s.queryWindows == [Report(ModeOf(0), 0, 0, 0)]
    ensures found ==> forall i: nat :: StopsAt(responses, i) ==>
              if responses[i].Failed? then r == Err(responses[i].error)
              else r.Ok? && Reports(r.value, responses, i) && Shows(r.value, responses, i)
    ensures found && NeverStops(responses) ==>
              r.Ok? && exists i: nat ::
                Fullest(responses, |responses|, i) && Reports(r.value, responses, i) && Shows(r.value, responses, i)
  {
    if !found {
      return Ok(NOT_FOUND);
    }
    var best: Option<Summary> := None;
    var queryWindows: seq<Report> := [];
    ghost var at: nat := 0;
    for i := 0 to |WINDOWS|
      invariant Prefix(queryWindows, responses, i)
      invariant forall j :: 0 <= j < i ==> !Unfinished(responses, j)
      invariant if i == 0 then best.None?
                else best.Some? && Fullest(responses, i, at) && Reports(best.value, responses, at)
    {
      if responses[i].Failed? {
        return Err(responses[i].error);
      }
      var rows := responses[i].rows;
      PrefixNext(queryWindows, responses, i);
      queryWindows := queryWindows + [ReportOf(i, rows)];
      var summary := Summarize(i, rows, queryWindows);
      ActiveIff(rows);
      if summary.active > 0 {
        ReportsShows(summary, responses, i);
        return Ok(summary);
      }
      FullestNext(responses, i, at);
      if best.None? || |summary.records| > |best.value.records| {
        best, at := Some(summary), i;
      }
    }
    ReportsShows(best.value, responses, at);
    r := Ok(best.value);
  }

  // ---- The customer's verdict ---------------------------------------------------------------------

  datatype Verdict = PlayerNotFound | TurnoverRemaining(amount: int) | TurnoverMet | TurnoverUnknown

  /** build_withdrawal_blocked_reply */
  function Reply(s: Summary): Verdict {
    if !s.playerFound then PlayerNotFound
    else if s.active > 0 || s.remaining > 0 then TurnoverRemaining(s.remaining)
    else if s.isMet then TurnoverMet
    else TurnoverUnknown
  }

  /** The reply to any summary. */
  lemma ReplyMeans(s: Summary)
    ensures Reply(s) == PlayerNotFound <==> !s.playerFound
    ensures s.playerFound ==>
              && (Reply(s) == TurnoverRemaining(s.remaining) <==> !(s.active == 0 && s.remaining <= 0))
              && (Reply(s) == TurnoverMet <==> s.active == 0 && s.remaining <= 0 && s.isMet)
              && (Reply(s) == TurnoverUnknown <==> s.active == 0 && s.remaining <= 0 && !s.isMet)
  {
  }

  /** Whatever summary the lookup returns for a known player, the reply says MET exactly when no window has an
      unfinished requirement, and otherwise what the first such window owes; never UNKNOWN. */
  lemma VerdictIff(s: Summary, responses: seq<Response>, i: nat)
    requires Shows(s, responses, i)
    requires StopsAt(responses, i) || (NeverStops(responses) && Fullest(responses, |responses|, i))
    ensures Reply(s) == TurnoverMet <==> NeverStops(responses)
    ensures Reply(s) == TurnoverRemaining(s.remaining) <==> StopsAt(responses, i)
    ensures Owes(responses[i].rows, REMAINING, s.remaining)
    ensures Reply(s) != TurnoverUnknown && Reply(s) != PlayerNotFound
  {
    var rows := responses[i].rows;
    if HasIncomplete(rows) {
      var k :| 0 <= k < |rows| && Unmet(rows[k]);
      assert k in UnmetRows(rows);
      assert Unfinished(responses, i);
    } else {
      assert NeverStops(responses) && UnmetRows(rows) == {};
      NothingOwed(rows);
      OwesUnique(rows, REMAINING, s.remaining, 0);
    }
  }

  lemma NothingOwed(rows: seq<Row>)
    requires !HasIncomplete(rows)
    ensures Owes(rows, REMAINING, 0)
  {
    assert Running(Amounts(rows, REMAINING), seq(|rows| + 1, _ => 0.0));
    assert AddsUp(Amounts(rows, REMAINING), 0.0);
  }

  /** A positive amount is owed whenever the unfinished rows add up to at least half a cent. */
  lemma RoundMoneySign(amount: real)
    ensures RoundMoney(amount) > 0 <==> amount >= 0.005
    ensures RoundMoney(-amount) == -RoundMoney(amount)
  {
  }
}

/** The depreciation board of an asset: the lines already posted, and those still to come. */
module AssetBoards {

  datatype Computation = Linear | Degressive
  datatype Horizon = Number | EndDate

  /** What an asset is depreciated by. Money is in whole rounding units of its currency, dates are in months. */
  datatype Terms = Terms(
    value: int, salvage: int, computation: Computation, factor: real, prorata: bool, share: real,
    horizon: Horizon, number: nat, period: nat, first: int, end: int)
  {
    predicate Valid() {
      number >= 1 && period >= 1
    }
  }

  datatype Line = Line(sequence: int, amount: int, remaining: int, depreciated: int, month: int, posted: bool)

  function Total(lines: seq<Line>): int {
    if lines == [] then 0 else Total(lines[..|lines| - 1]) + lines[|lines| - 1].amount
  }

  function Posted(lines: seq<Line>): seq<Line> {
    if lines == [] then []
    else Posted(lines[..|lines| - 1]) + if lines[|lines| - 1].posted then [lines[|lines| - 1]] else []
  }

  /** What is left to depreciate. */
  function Residual(terms: Terms, lines: seq<Line>): int {
    terms.value - Total(Posted(lines)) - terms.salvage
  }

  /** The whole value is accounted for: salvaged, depreciated or planned. */
  predicate Balanced(terms: Terms, lines: seq<Line>) {
    terms.value == terms.salvage + Total(lines)
  }

  /** The nearest whole number, away from zero when there are two. */
  function Rounded(x: real): (r: int)
    ensures -0.5 <= r as real - x <= 0.5
    ensures (r as real - x == -0.5 ==> x < 0.0) && (r as real - x == 0.5 ==> x > 0.0)
  {
    if x >= 0.0 then (x + 0.5).Floor else -(0.5 - x).Floor
  }

  function EvenShare(amount: int, n: nat): real
    requires n >= 1
  {
    amount as real / n as real
  }

  function Portion(amount: real, fraction: real): real {
    amount * fraction
  }

  /** How much the line numbered `sequence` should be, before rounding. */
  function BoardAmount(terms: Terms, sequence: int, residual: int, toDepreciate: int, undone: int, count: int): real
    requires terms.Valid() && count < sequence <= undone
  {
    if sequence == undone then residual as real
    else
      var amount := match terms.computation
        case Linear =>
          EvenShare(toDepreciate, if terms.prorata then terms.number else undone - count)
        case Degressive => Portion(residual as real, terms.factor);
      if terms.prorata && sequence == 1 then Portion(amount, terms.share) else amount
  }

  /** The amount of the line after the first `x`. */
  function Amount(terms: Terms, toDepreciate: int, undone: nat, count: nat, x: nat, residual: int): int
    requires terms.Valid() && count <= x < undone
  {
    Rounded(BoardAmount(terms, x + 1, residual, toDepreciate, undone, count))
  }

  /** The months from `month` to `end`, a period apart. */
  function Periods(terms: Terms, month: int): nat
    requires terms.Valid()
    decreases terms.end - month
  {
    if month > terms.end then 0 else 1 + Periods(terms, month + terms.period)
  }

  lemma {:induction false} PeriodsFit(terms: Terms, month: int, k: nat)
    requires terms.Valid()
    ensures k < Periods(terms, month) <==> month + k * terms.period <= terms.end
    decreases k
  {
    if month <= terms.end && k > 0 {
      PeriodsFit(terms, month + terms.period, k - 1);
    }
  }

  /** How many lines the board should have in all, when the next one is due in `month`. */
  function Undone(terms: Terms, month: int): nat
    requires terms.Valid()
  {
    (if terms.horizon.EndDate? then Periods(terms, month) else terms.number) + if terms.prorata then 1 else 0
  }

  function Latest(lines: seq<Line>): int
    requires lines != []
  {
    var last := lines[|lines| - 1].month;
    if |lines| == 1 then last
    else
      var m := Latest(lines[..|lines| - 1]);
      if last >= m then last else m
  }

  /** When the first line that is not posted is due. */
  function NextMonth(terms: Terms, posted: seq<Line>): int {
    if posted == [] then terms.first else Latest(posted) + terms.period
  }

  /** The lines after the first `x`, for a board of `undone` lines of which `count` are posted. */
  function Plan(
      terms: Terms, toDepreciate: int, undone: nat, count: nat, x: nat, residual: int, month: int): seq<Line>
    requires terms.Valid() && count <= x
    decreases undone - x
  {
    if x >= undone then []
    else
      var amount := Amount(terms, toDepreciate, undone, count, x, residual);
      if amount == 0 then Plan(terms, toDepreciate, undone, count, x + 1, residual, month)
      else
        var left := residual - amount;
        [Line(x + 1, amount, left, terms.value - (terms.salvage + left), month, false)]
        + Plan(terms, toDepreciate, undone, count, x + 1, left, month + terms.period)
  }

  function NewLines(terms: Terms, lines: seq<Line>): seq<Line>
    requires terms.Valid()
  {
    var posted := Posted(lines);
    var residual := Residual(terms, lines);
    var month := NextMonth(terms, posted);
    if residual == 0 then []
    else Plan(terms, residual, Undone(terms, month), |posted|, |posted|, residual, month)
  }

  function Recomputed(terms: Terms, lines: seq<Line>): seq<Line>
    requires terms.Valid()
  {
    Posted(lines) + NewLines(terms, lines)
  }

  /** The board still has room for a line when one is needed. */
  predicate HasRoom(terms: Terms, lines: seq<Line>)
    requires terms.Valid()
  {
    Residual(terms, lines) == 0 || |Posted(lines)| < Undone(terms, NextMonth(terms, Posted(lines)))
  }

  class Asset {
    var terms: Terms
    var lines: seq<Line>

    constructor (terms: Terms)
      ensures this.terms == terms && lines == []
    {
      this.terms, lines := terms, [];
    }

    method ValueResidual() returns (residual: int)
      ensures residual == Residual(terms, lines)
    {
      var total := 0;
      for i := 0 to |lines|
        invariant total == Total(Posted(lines[..i]))
      {
        assert lines[..i + 1][..i] == lines[..i];
        if lines[i].posted {
          total := total + lines[i].amount;
        }
        PostedTotal(lines[..i + 1]);
      }
      assert lines[..|lines|] == lines;
      residual := terms.value - total - terms.salvage;
    }

    method UndoneDotations(depreciationMonth: int) returns (undone: nat)
      requires terms.Valid()
      ensures undone == Undone(terms, depreciationMonth)
    {
      undone := terms.number;
      if terms.horizon.EndDate? {
        var month := depreciationMonth;
        undone := 0;
        while month <= terms.end
          invariant undone + Periods(terms, month) == Periods(terms, depreciationMonth)
          decreases terms.end - month
        {
          month := month + terms.period;
          undone := undone + 1;
        }
      }
      if terms.prorata {
        undone := undone + 1;
      }
    }

    /** Keep the posted lines and plan the others afresh. */
    method ComputeDepreciationBoard()
      requires terms.Valid()
      modifies this`lines
      ensures lines == Recomputed(terms, old(lines))
    {
      hide Amount, Posted, Periods, Latest, Plan, NewLines, Residual, Undone, NextMonth;
      var posted := Posted(lines);
      var residual := ValueResidual();
      var commands := [];
      ghost var planned := NewLines(terms, lines);
      PlanStarts(terms, lines);
      if residual != 0 {
        var toDepreciate := residual;
        var month := NextMonth(terms, posted);
        var undone := UndoneDotations(month);
        var x := |posted|;
        while x < undone
          invariant |posted| <= x
          invariant commands + Plan(terms, toDepreciate, undone, |posted|, x, residual, month) == planned
          decreases undone - x
        {
          var amount := Amount(terms, toDepreciate, undone, |posted|, x, residual);
          if amount != 0 {
            PlanStep(terms, toDepreciate, undone, |posted|, x, residual, month, amount);
            residual := residual - amount;
            var line := Line(x + 1, amount, residual, terms.value - (terms.salvage + residual), month, false);
            commands := commands + [line];
            month := month + terms.period;
          } else {
            PlanSkip(terms, toDepreciate, undone, |posted|, x, residual, month);
          }
          x := x + 1;
        }
        PlanEnd(terms, toDepreciate, undone, |posted|, x, residual, month);
      }
      lines := posted + commands;
    }

    /** Create the journal entry of the line at `i`; refused if it has one. */
    method CreateMove(i: nat) returns (ok: bool)
      requires i < |lines|
      modifies this`lines
      ensures ok == !old(lines[i].posted)
      ensures lines == if ok then old(lines)[i := old(lines)[i].(posted := true)] else old(lines)
    {
      ok := !lines[i].posted;
      if ok {
        lines := lines[i := lines[i].(posted := true)];
      }
    }

    /** Replace the planned lines by one for all that is left, and create its journal entry. */
    method Dispose(today: int) returns (disposed: bool)
      modifies this
      ensures disposed == (|Posted(old(lines))| < |old(lines)|)
      ensures terms == if disposed then DisposedTerms(old(terms), old(lines), today) else old(terms)
      ensures lines == if disposed then Disposed(old(terms), old(lines), today) else old(lines)
      ensures disposed ==> terms.end == today && terms.number == |lines|
    {
      var posted := Posted(lines);
      disposed := |posted| < |lines|;
      if disposed {
        var residual := ValueResidual();
        var sequence := |posted| + 1;
        lines := posted + [Line(sequence, residual, 0, terms.value - terms.salvage, today, true)];
        terms := terms.(end := today, number := sequence);
      }
    }
  }

  function DisposedTerms(terms: Terms, lines: seq<Line>, today: int): Terms {
    terms.(end := today, number := |Posted(lines)| + 1)
  }

  function Disposed(terms: Terms, lines: seq<Line>, today: int): seq<Line> {
    Posted(lines) + [Line(|Posted(lines)| + 1, Residual(terms, lines), 0, terms.value - terms.salvage, today, true)]
  }

  lemma PostedTotal(lines: seq<Line>)
    requires lines != []
    ensures var last := lines[|lines| - 1];
      Total(Posted(lines)) == Total(Posted(lines[..|lines| - 1])) + if last.posted then last.amount else 0
  {
    var last := lines[|lines| - 1];
    var before := Posted(lines[..|lines| - 1]);
    assert (before + [last])[..|before|] == before;
    assert before + [] == before;
  }

  // ---- Totals ----

  lemma {:induction false} TotalOfJoin(p: seq<Line>, q: seq<Line>)
    ensures Total(p + q) == Total(p) + Total(q)
  {
    if q == [] {
      assert p + q == p;
    } else {
      var n := |q| - 1;
      assert (p + q)[..|p + q| - 1] == p + q[..n];
      TotalOfJoin(p, q[..n]);
    }
  }

  lemma {:induction false} PostedOfJoin(p: seq<Line>, q: seq<Line>)
    ensures Posted(p + q) == Posted(p) + Posted(q)
  {
    if q == [] {
      assert p + q == p;
    } else {
      var n := |q| - 1;
      assert (p + q)[..|p + q| - 1] == p + q[..n];
      PostedOfJoin(p, q[..n]);
    }
  }

  lemma {:induction false} PostedAgain(p: seq<Line>)
    ensures Posted(Posted(p)) == Posted(p)
    ensures forall l | l in Posted(p) :: l.posted
  {
    if p != [] {
      var n := |p| - 1;
      PostedAgain(p[..n]);
      var last := if p[n].posted then [p[n]] else [];
      PostedOfJoin(Posted(p[..n]), last);
      assert Posted(last) == last;
    }
  }

  lemma {:induction false} NonePosted(p: seq<Line>)
    requires forall l | l in p :: !l.posted
    ensures Posted(p) == []
  {
    if p != [] {
      NonePosted(p[..|p| - 1]);
    }
  }

  // ---- The plan ----

  lemma LastAmount(terms: Terms, toDepreciate: int, undone: nat, count: nat, x: nat, residual: int)
    requires terms.Valid() && count <= x && x + 1 == undone
    ensures Amount(terms, toDepreciate, undone, count, x, residual) == residual
  {
  }

  lemma PlanStarts(terms: Terms, lines: seq<Line>)
    requires terms.Valid()
    ensures var posted, residual := Posted(lines), Residual(terms, lines);
      var month := NextMonth(terms, posted);
      NewLines(terms, lines) ==
        if residual == 0 then []
        else Plan(terms, residual, Undone(terms, month), |posted|, |posted|, residual, month)
  {
  }

  lemma PlanStep(
      terms: Terms, toDepreciate: int, undone: nat, count: nat, x: nat, residual: int, month: int, amount: int)
    requires terms.Valid() && count <= x < undone && amount != 0
    requires amount == Amount(terms, toDepreciate, undone, count, x, residual)
    ensures var left := residual - amount;
      Plan(terms, toDepreciate, undone, count, x, residual, month)
        == [Line(x + 1, amount, left, terms.value - (terms.salvage + left), month, false)]
           + Plan(terms, toDepreciate, undone, count, x + 1, left, month + terms.period)
  {
    hide Amount;
  }

  lemma PlanSkip(terms: Terms, toDepreciate: int, undone: nat, count: nat, x: nat, residual: int, month: int)
    requires terms.Valid() && count <= x < undone && Amount(terms, toDepreciate, undone, count, x, residual) == 0
    ensures Plan(terms, toDepreciate, undone, count, x, residual, month)
         == Plan(terms, toDepreciate, undone, count, x + 1, residual, month)
  {
    hide Amount;
  }

  lemma PlanEnd(terms: Terms, toDepreciate: int, undone: nat, count: nat, x: nat, residual: int, month: int)
    requires terms.Valid() && count <= x && undone <= x
    ensures Plan(terms, toDepreciate, undone, count, x, residual, month) == []
  {
  }

  /** The planned lines are worth exactly what is left, unless there is no room for any. */
  lemma {:induction false} PlanIsComplete(
      terms: Terms, toDepreciate: int, undone: nat, count: nat, x: nat, residual: int, month: int)
    requires terms.Valid() && count <= x
    ensures Total(Plan(terms, toDepreciate, undone, count, x, residual, month)) == if x < undone then residual else 0
    decreases undone - x
  {
    hide Amount;
    if x < undone {
      var amount := Amount(terms, toDepreciate, undone, count, x, residual);
      if x + 1 == undone {
        LastAmount(terms, toDepreciate, undone, count, x, residual);
      }
      if amount == 0 {
        PlanIsComplete(terms, toDepreciate, undone, count, x + 1, residual, month);
      } else {
        var left := residual - amount;
        var line := Line(x + 1, amount, left, terms.value - (terms.salvage + left), month, false);
        PlanIsComplete(terms, toDepreciate, undone, count, x + 1, left, month + terms.period);
        TotalOfJoin([line], Plan(terms, toDepreciate, undone, count, x + 1, left, month + terms.period));
      }
    }
  }

  /** A planned line is due `i` periods after the first, whatever its number, and shows the amounts up to it. */
  lemma {:induction false} PlannedLine(
      terms: Terms, toDepreciate: int, undone: nat, count: nat, x: nat, residual: int, month: int, i: nat)
    requires terms.Valid() && count <= x && i < |Plan(terms, toDepreciate, undone, count, x, residual, month)|
    ensures var plan := Plan(terms, toDepreciate, undone, count, x, residual, month);
      && x < plan[i].sequence <= undone && !plan[i].posted && plan[i].amount != 0
      && plan[i].remaining == residual - Total(plan[..i + 1])
      && plan[i].depreciated == terms.value - terms.salvage - plan[i].remaining
      && plan[i].month == month + i * terms.period
    decreases undone - x
  {
    hide Amount;
    var amount := Amount(terms, toDepreciate, undone, count, x, residual);
    if amount == 0 {
      PlannedLine(terms, toDepreciate, undone, count, x + 1, residual, month, i);
    } else {
      var left := residual - amount;
      var line := Line(x + 1, amount, left, terms.value - (terms.salvage + left), month, false);
      var rest := Plan(terms, toDepreciate, undone, count, x + 1, left, month + terms.period);
      assert ([line] + rest)[..i + 1] == [line] + rest[..i];
      TotalOfJoin([line], rest[..i]);
      assert Total([line]) == amount;
      if i > 0 {
        PlannedLine(terms, toDepreciate, undone, count, x + 1, left, month + terms.period, i - 1);
        assert month + terms.period + (i - 1) * terms.period == month + i * terms.period;
      }
    }
  }

  lemma NewLinesArePlanned(terms: Terms, lines: seq<Line>)
    requires terms.Valid()
    ensures Posted(NewLines(terms, lines)) == []
    ensures Total(NewLines(terms, lines)) == if HasRoom(terms, lines) then Residual(terms, lines) else 0
  {
    var posted := Posted(lines);
    var residual := Residual(terms, lines);
    var month := NextMonth(terms, posted);
    PlanIsComplete(terms, residual, Undone(terms, month), |posted|, |posted|, residual, month);
    forall i | 0 <= i < |NewLines(terms, lines)| ensures !NewLines(terms, lines)[i].posted {
      PlannedLine(terms, residual, Undone(terms, month), |posted|, |posted|, residual, month, i);
    }
    NonePosted(NewLines(terms, lines));
  }

  /** Recomputing the board accounts for the whole value exactly when the board has room for the lines it needs. */
  lemma RecomputeBalances(terms: Terms, lines: seq<Line>)
    requires terms.Valid()
    ensures Balanced(terms, Recomputed(terms, lines)) <==> HasRoom(terms, lines)
  {
    NewLinesArePlanned(terms, lines);
    TotalOfJoin(Posted(lines), NewLines(terms, lines));
  }

  lemma RecomputeKeepsPosted(terms: Terms, lines: seq<Line>)
    requires terms.Valid()
    ensures Posted(Recomputed(terms, lines)) == Posted(lines)
  {
    NewLinesArePlanned(terms, lines);
    PostedAgain(lines);
    PostedOfJoin(Posted(lines), NewLines(terms, lines));
  }

  /** Recomputing twice changes nothing more. */
  lemma RecomputeIsIdempotent(terms: Terms, lines: seq<Line>)
    requires terms.Valid()
    ensures Recomputed(terms, Recomputed(terms, lines)) == Recomputed(terms, lines)
  {
    RecomputeKeepsPosted(terms, lines);
  }

  /** A new line shows the total of all the lines up to it, and what remains after it. */
  lemma LinesAreCumulative(terms: Terms, lines: seq<Line>, i: nat)
    requires terms.Valid() && |Posted(lines)| <= i < |Recomputed(terms, lines)|
    ensures var board := Recomputed(terms, lines);
      && board[i].depreciated == Total(board[..i + 1])
      && board[i].remaining == terms.value - terms.salvage - Total(board[..i + 1])
      && |Posted(lines)| < board[i].sequence <= Undone(terms, NextMonth(terms, Posted(lines)))
      && board[i].month == NextMonth(terms, Posted(lines)) + (i - |Posted(lines)|) * terms.period
  {
    var posted := Posted(lines);
    var residual := Residual(terms, lines);
    var month := NextMonth(terms, posted);
    var plan := NewLines(terms, lines);
    var k := i - |posted|;
    PlannedLine(terms, residual, Undone(terms, month), |posted|, |posted|, residual, month, k);
    assert (posted + plan)[..i + 1] == posted + plan[..k + 1];
    TotalOfJoin(posted, plan[..k + 1]);
  }

  // ---- Runs ----

  datatype Event = Recompute | Post(i: nat) | Disposal(today: int)

  datatype State = State(terms: Terms, lines: seq<Line>)

  ghost predicate Step(before: State, event: Event, after: State) {
    match event
    case Recompute =>
      before.terms.Valid() && after.terms == before.terms && after.lines == Recomputed(before.terms, before.lines)
    case Post(i) =>
      && i < |before.lines| && !before.lines[i].posted
      && after == before.(lines := before.lines[i := before.lines[i].(posted := true)])
    case Disposal(today) =>
      && |Posted(before.lines)| < |before.lines|
      && after.terms == DisposedTerms(before.terms, before.lines, today)
      && after.lines == Disposed(before.terms, before.lines, today)
  }

  ghost predicate Run(states: seq<State>, events: seq<Event>) {
    && |states| == |events| + 1 && states[0].terms.Valid()
    && forall i, j | 0 <= i && j == i + 1 < |states| :: Step(states[i], events[i], states[j])
  }

  lemma PostingKeepsTotal(lines: seq<Line>, i: nat)
    requires i < |lines|
    ensures Total(lines[i := lines[i].(posted := true)]) == Total(lines)
  {
    var line := lines[i].(posted := true);
    assert lines == lines[..i] + [lines[i]] + lines[i + 1..];
    assert lines[i := line] == lines[..i] + [line] + lines[i + 1..];
    assert Total([line]) == line.amount && Total([lines[i]]) == line.amount;
    TotalOfJoin(lines[..i], [lines[i]]);
    TotalOfJoin(lines[..i], [line]);
    TotalOfJoin(lines[..i] + [lines[i]], lines[i + 1..]);
    TotalOfJoin(lines[..i] + [line], lines[i + 1..]);
  }

  lemma DisposalBalances(terms: Terms, lines: seq<Line>, today: int)
    ensures Balanced(terms, Disposed(terms, lines, today))
  {
    var posted := Posted(lines);
    var line := Line(|posted| + 1, Residual(terms, lines), 0, terms.value - terms.salvage, today, true);
    TotalOfJoin(posted, [line]);
    assert Total([line]) == line.amount;
  }

  lemma StepBalances(before: State, event: Event, after: State)
    requires before.terms.Valid() && Step(before, event, after)
    ensures after.terms.Valid()
    ensures Balanced(after.terms, after.lines) <==>
      match event
      case Recompute => HasRoom(before.terms, before.lines)
      case Post(_) => Balanced(before.terms, before.lines)
      case Disposal(_) => true
  {
    match event
    case Recompute => RecomputeBalances(before.terms, before.lines);
    case Post(i) => PostingKeepsTotal(before.lines, i);
    case Disposal(today) => DisposalBalances(before.terms, before.lines, today);
  }

  /** The last step before the end of a run that was not a posting. */
  function LastPlanned(events: seq<Event>): int {
    if events == [] then -1
    else if events[|events| - 1].Post? then LastPlanned(events[..|events| - 1])
    else |events| - 1
  }

  /**
   * Whatever lines are posted, and whenever the board is recomputed or the asset disposed of, the whole value stays
   * accounted for exactly when the last recomputation had room, or the asset was disposed of after it.
   */
  lemma {:induction false} RunBalances(states: seq<State>, events: seq<Event>)
    requires Run(states, events)
    ensures states[|events|].terms.Valid() && -1 <= LastPlanned(events) < |events|
    ensures var k := LastPlanned(events);
      Balanced(states[|events|].terms, states[|events|].lines) <==>
        if k < 0 then Balanced(states[0].terms, states[0].lines)
        else events[k].Disposal? || (states[k].terms.Valid() && HasRoom(states[k].terms, states[k].lines))
  {
    hide Balanced, HasRoom, Step;
    if events != [] {
      var n, j := |events| - 1, |events|;
      RunBalances(states[..n + 1], events[..n]);
      assert Step(states[n], events[n], states[j]);
      StepBalances(states[n], events[n], states[j]);
    }
  }

  // ---- What an ending date does to a board that is recomputed ----

  /**
   * When an ending date sets the number of lines, that number is counted afresh from the last posted line, yet the
   * numbering goes on from the posted lines: once half of the lines are posted, recomputing drops all the others.
   */
  lemma EndDateDropsLines(terms: Terms, lines: seq<Line>, k: nat)
    requires terms.Valid() && terms.horizon.EndDate? && !terms.prorata
    requires |Posted(lines)| == k && NextMonth(terms, Posted(lines)) == terms.first + k * terms.period
    requires k <= Periods(terms, terms.first)
    ensures Balanced(terms, Recomputed(terms, lines))
      <==> Residual(terms, lines) == 0 || 2 * k < Periods(terms, terms.first)
  {
    PeriodsLeft(terms, terms.first, k);
    RecomputeBalances(terms, lines);
  }

  lemma {:induction false} PeriodsLeft(terms: Terms, month: int, k: nat)
    requires terms.Valid() && k <= Periods(terms, month)
    ensures Periods(terms, month + k * terms.period) == Periods(terms, month) - k
    decreases k
  {
    if k > 0 {
      PeriodsLeft(terms, month + terms.period, k - 1);
    }
  }

  // An asset of 200 over the months 0 and 1: half of its board is posted, and recomputing drops the other half.

  const LOST: Terms := Terms(200, 0, Linear, 0.0, false, 0.0, EndDate, 1, 1, 0, 1)
  const FIRST: Line := Line(1, 100, 100, 100, 0, false)
  const SECOND: Line := Line(2, 100, 0, 200, 1, false)
  const PAID: Line := FIRST.(posted := true)

  lemma LostShare()
    ensures Amount(LOST, 200, 2, 0, 0, 200) == 100 && Amount(LOST, 200, 2, 0, 1, 100) == 100
  {
    ShareAmount(LOST, 200, 2, 0, 0, 200);
    LastAmount(LOST, 200, 2, 0, 1, 100);
    assert 200 as real / 2 as real == 100.0;
    assert Rounded(100.0) == 100;
  }

  lemma LostPeriods()
    ensures Undone(LOST, 0) == 2 && Undone(LOST, 1) == 1
  {
    PeriodsFit(LOST, 0, 1);
    PeriodsFit(LOST, 0, 2);
    PeriodsFit(LOST, 1, 0);
    PeriodsFit(LOST, 1, 1);
  }

  lemma LostBoard()
    ensures Recomputed(LOST, []) == [FIRST, SECOND]
  {
    hide Amount, Plan, Periods;
    LostPeriods();
    LostShare();
    PlanStep(LOST, 200, 2, 0, 0, 200, 0, 100);
    PlanStep(LOST, 200, 2, 0, 1, 100, 1, 100);
    PlanEnd(LOST, 200, 2, 0, 2, 0, 2);
  }

  lemma LostHalf()
    ensures Recomputed(LOST, [PAID, SECOND]) == [PAID]
    ensures Residual(LOST, [PAID]) == 100 && !Balanced(LOST, [PAID])
  {
    hide Amount, Plan, Periods;
    LostPeriods();
    var lines := [PAID, SECOND];
    assert lines[..1] == [PAID] && [PAID][..0] == [];
    assert Posted([PAID]) == [PAID] && Posted(lines) == [PAID];
    assert Total([PAID]) == 100 && Latest([PAID]) == 0;
    PlanEnd(LOST, 100, 1, 1, 1, 100, 1);
  }

  /** The board is computed, one of its two lines is posted, and computing it again drops the other. */
  lemma EndDateLosesHalf() returns (states: seq<State>, events: seq<Event>)
    ensures Run(states, events) && |states| == 4
    ensures states[0] == State(LOST, []) && events == [Recompute, Post(0), Recompute]
    ensures states[3].lines == [PAID] && Residual(LOST, [PAID]) == 100 && !Balanced(LOST, [PAID])
  {
    hide Recomputed, Posted, Total;
    events := [Recompute, Post(0), Recompute];
    LostBoard();
    LostHalf();
    var board := [FIRST, SECOND];
    assert board[0 := board[0].(posted := true)] == [PAID, SECOND];
    states := [State(LOST, []), State(LOST, board), State(LOST, [PAID, SECOND]), State(LOST, [PAID])];
  }

  // ---- Rounding ----

  lemma ShareAmount(terms: Terms, toDepreciate: int, undone: nat, count: nat, x: nat, residual: int)
    requires terms.Valid() && terms.computation.Linear? && count <= x && x + 1 < undone && (terms.prorata ==> x > 0)
    ensures Amount(terms, toDepreciate, undone, count, x, residual)
         == Rounded(EvenShare(toDepreciate, if terms.prorata then terms.number else undone - count))
  {
  }

  /** All the lines but the last are `share`, and the last one is `last`: there is none if that is nothing. */
  ghost predicate Even(plan: seq<Line>, undone: int, share: int, last: int) {
    && (forall l | l in plan && l.sequence < undone :: l.amount == share)
    && (if last == 0 then forall l | l in plan :: l.sequence < undone
        else plan != [] && plan[|plan| - 1].sequence == undone && plan[|plan| - 1].amount == last)
  }

  lemma EvenMore(line: Line, rest: seq<Line>, undone: int, share: int, last: int)
    requires Even(rest, undone, share, last) && line.sequence < undone && line.amount == share
    ensures Even([line] + rest, undone, share, last)
  {
  }

  lemma EvenEnds(plan: seq<Line>, undone: int, share: int, last: int)
    requires if last == 0 then plan == [] else |plan| == 1 && plan[0].sequence == undone && plan[0].amount == last
    ensures Even(plan, undone, share, last)
  {
  }

  lemma {:induction false} LinearLeaves(
      terms: Terms, toDepreciate: int, undone: nat, count: nat, x: nat, residual: int, month: int, share: int,
      last: int)
    requires terms.Valid() && terms.computation.Linear? && count <= x < undone && (terms.prorata ==> x > 0)
    requires share == Rounded(EvenShare(toDepreciate, if terms.prorata then terms.number else undone - count))
    requires last == residual - (undone - 1 - x) * share
    ensures Even(Plan(terms, toDepreciate, undone, count, x, residual, month), undone, share, last)
    decreases undone - x
  {
    hide Amount, Rounded, BoardAmount, Even;
    if x + 1 < undone {
      ShareAmount(terms, toDepreciate, undone, count, x, residual);
      Spread(undone - 1 - x, share);
      var left := residual - share;
      var later := if share == 0 then month else month + terms.period;
      LinearLeaves(terms, toDepreciate, undone, count, x + 1, left, later, share, last);
      if share != 0 {
        var line := Line(x + 1, share, left, terms.value - (terms.salvage + left), month, false);
        EvenMore(line, Plan(terms, toDepreciate, undone, count, x + 1, left, later), undone, share, last);
      }
    } else {
      LastAmount(terms, toDepreciate, undone, count, x, residual);
      assert Plan(terms, toDepreciate, undone, count, x + 1, 0, month + terms.period) == [];
      assert Plan(terms, toDepreciate, undone, count, x + 1, residual, month) == [];
      assert undone - 1 - x == 0 && last == residual;
      EvenEnds(Plan(terms, toDepreciate, undone, count, x, residual, month), undone, share, last);
    }
  }

  lemma Spread(k: int, share: int)
    ensures k * share == share + (k - 1) * share
  {
  }

  /**
   * On a linear board that is not prorated, all the lines but the last are the rounded even share, and the last one
   * makes up for the rounding: over n lines it is at most (n - 1) / 2 units from the even share.
   */
  lemma LastLineIsNear(terms: Terms, lines: seq<Line>)
    requires terms.Valid() && terms.computation.Linear? && !terms.prorata
    requires |Posted(lines)| < Undone(terms, NextMonth(terms, Posted(lines))) && Residual(terms, lines) != 0
    ensures var undone := Undone(terms, NextMonth(terms, Posted(lines)));
      var n, residual, plan := undone - |Posted(lines)|, Residual(terms, lines), NewLines(terms, lines);
      var even := EvenShare(residual, n);
      var last := residual - (n - 1) * Rounded(even);
      && -((n - 1) as real) / 2.0 <= last as real - even <= (n - 1) as real / 2.0
      && Even(plan, undone, Rounded(even), last)
  {
    var posted := Posted(lines);
    var month := NextMonth(terms, posted);
    var undone := Undone(terms, month);
    var n, residual := undone - |posted|, Residual(terms, lines);
    var share := Rounded(EvenShare(residual, n));
    var last := residual - (n - 1) * share;
    LinearLeaves(terms, residual, undone, |posted|, |posted|, residual, month, share, last);
    ShareErrorAdds(residual, n);
  }

  lemma Distributes(m: real, x: real, y: real)
    ensures m * (x - y) == m * x - m * y
  {
  }

  lemma NotNegative(m: real, x: real)
    requires m >= 0.0 && x >= 0.0
    ensures m * x >= 0.0
  {
  }

  /** Over m lines, an error of at most one half each adds up to at most m halves. */
  lemma ErrorsAdd(m: real, share: real, even: real)
    requires m >= 0.0 && -0.5 <= share - even <= 0.5
    ensures -m / 2.0 <= Portion(m, even) - Portion(m, share) <= m / 2.0
  {
    var error := even - share;
    NotNegative(m, 0.5 - error);
    NotNegative(m, error - -0.5);
    Distributes(m, 0.5, error);
    Distributes(m, error, -0.5);
    Distributes(m, even, share);
  }

  lemma EvenShareAdds(residual: int, n: nat)
    requires n >= 1
    ensures residual as real == Portion((n - 1) as real, EvenShare(residual, n)) + EvenShare(residual, n)
  {
    var m := (n - 1) as real;
    assert n as real == m + 1.0;
    var even := EvenShare(residual, n);
    assert (m + 1.0) * even == residual as real;
  }

  lemma WholePortion(a: int, b: int)
    ensures (a * b) as real == Portion(a as real, b as real)
  {
  }

  lemma ShareErrorAdds(residual: int, n: nat)
    requires n >= 1
    ensures var even := EvenShare(residual, n);
      var last := residual - (n - 1) * Rounded(even);
      -((n - 1) as real) / 2.0 <= last as real - even <= (n - 1) as real / 2.0
  {
    hide Rounded, EvenShare, Portion;
    var even := EvenShare(residual, n);
    var share := Rounded(even);
    EvenShareAdds(residual, n);
    WholePortion(n - 1, share);
    ErrorsAdd((n - 1) as real, share as real, even);
  }

  lemma PortionFits(amount: real, fraction: real)
    requires amount >= 0.0 && 0.0 <= fraction <= 1.0
    ensures 0.0 <= Portion(amount, fraction) <= amount
  {
    assert amount * (1.0 - fraction) >= 0.0;
  }

  lemma RoundedFits(x: real, r: int)
    requires 0.0 <= x <= r as real
    ensures 0 <= Rounded(x) <= r
  {
    assert x + 0.5 < (r + 1) as real;
  }

  lemma DegressiveAmount(terms: Terms, toDepreciate: int, undone: nat, count: nat, x: nat, residual: int)
    requires terms.Valid() && terms.computation.Degressive? && 0.0 <= terms.factor <= 1.0 && residual >= 0
    requires terms.prorata ==> 0.0 <= terms.share <= 1.0
    requires count <= x < undone
    ensures 0 <= Amount(terms, toDepreciate, undone, count, x, residual) <= residual
  {
    hide Portion, Rounded;
    PortionFits(residual as real, terms.factor);
    if terms.prorata {
      PortionFits(Portion(residual as real, terms.factor), terms.share);
    }
    RoundedFits(BoardAmount(terms, x + 1, residual, toDepreciate, undone, count), residual);
  }

  /** What remains starts below `residual`, and drops with every line without ever being negative. */
  ghost predicate Shrinking(plan: seq<Line>, residual: int) {
    && (forall l | l in plan :: 0 <= l.remaining < residual && l.amount > 0)
    && forall i, j | 0 <= i < j < |plan| :: plan[j].remaining < plan[i].remaining
  }

  lemma ShrinkingNot(residual: int)
    ensures Shrinking([], residual)
  {
  }

  lemma ShrinkingEnds(plan: seq<Line>, residual: int)
    requires Shrinking(plan, residual)
    ensures residual <= 0 ==> plan == []
  {
    assert plan != [] ==> plan[0] in plan;
  }

  lemma ShrinkingMore(line: Line, rest: seq<Line>, residual: int)
    requires 0 <= line.remaining < residual && line.amount > 0 && (rest == [] || Shrinking(rest, line.remaining))
    ensures Shrinking([line] + rest, residual)
  {
    assert forall j | 0 < j <= |rest| :: ([line] + rest)[j] in rest;
  }

  /** On a degressive board what remains is never negative, never grows, and is nothing after the last line. */
  lemma {:induction false} DegressiveShrinks(
      terms: Terms, toDepreciate: int, undone: nat, count: nat, x: nat, residual: int, month: int)
    requires terms.Valid() && terms.computation.Degressive? && 0.0 <= terms.factor <= 1.0 && residual >= 0
    requires terms.prorata ==> 0.0 <= terms.share <= 1.0
    requires count <= x < undone
    ensures var plan := Plan(terms, toDepreciate, undone, count, x, residual, month);
      Shrinking(plan, residual) && (residual > 0 ==> plan != [] && plan[|plan| - 1].remaining == 0)
    decreases undone - x
  {
    hide Amount, Shrinking, Plan;
    var amount := Amount(terms, toDepreciate, undone, count, x, residual);
    var left := residual - amount;
    if amount == 0 {
      PlanSkip(terms, toDepreciate, undone, count, x, residual, month);
    } else {
      PlanStep(terms, toDepreciate, undone, count, x, residual, month, amount);
    }
    DegressiveAmount(terms, toDepreciate, undone, count, x, residual);
    var line := Line(x + 1, amount, left, terms.value - (terms.salvage + left), month, false);
    ShrinkingNot(residual);
    if x + 1 == undone {
      LastAmount(terms, toDepreciate, undone, count, x, residual);
      if amount > 0 {
        PlanEnd(terms, toDepreciate, undone, count, undone, left, month + terms.period);
        ShrinkingMore(line, [], residual);
      } else {
        PlanEnd(terms, toDepreciate, undone, count, undone, residual, month);
      }
    } else if amount == 0 {
      DegressiveShrinks(terms, toDepreciate, undone, count, x + 1, residual, month);
    } else {
      DegressiveShrinks(terms, toDepreciate, undone, count, x + 1, left, month + terms.period);
      var rest := Plan(terms, toDepreciate, undone, count, x + 1, left, month + terms.period);
      ShrinkingEnds(rest, left);
      ShrinkingMore(line, rest, residual);
    }
  }

  /** On a degressive board with room, the whole residual value is depreciated by lines that leave less and less. */
  lemma DegressiveBoardShrinks(terms: Terms, lines: seq<Line>)
    requires terms.Valid() && terms.computation.Degressive? && 0.0 <= terms.factor <= 1.0
    requires terms.prorata ==> 0.0 <= terms.share <= 1.0
    requires HasRoom(terms, lines) && Residual(terms, lines) > 0
    ensures var plan := NewLines(terms, lines);
      Shrinking(plan, Residual(terms, lines)) && plan != [] && plan[|plan| - 1].remaining == 0
  {
    var posted := Posted(lines);
    var month := NextMonth(terms, posted);
    var residual := Residual(terms, lines);
    DegressiveShrinks(terms, residual, Undone(terms, month), |posted|, |posted|, residual, month);
  }
}

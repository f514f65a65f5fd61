/** How much each planned line of a depreciation board is, and when it is due. */
module BoardLines {
  import opened AssetBoards

  /** The amount is the whole number of units nearest to `x`. */
  predicate Near(amount: int, x: real) {
    -0.5 <= amount as real - x <= 0.5
  }

  /** A planned line is the amount for its number and for what remained before it. */
  lemma {:induction false} LineHasAmount(
      terms: Terms, toDepreciate: int, undone: nat, count: nat, x: nat, residual: int, month: int, i: nat)
    requires terms.Valid() && count <= x && i < |Plan(terms, toDepreciate, undone, count, x, residual, month)|
    ensures var l := Plan(terms, toDepreciate, undone, count, x, residual, month)[i];
      && count < l.sequence <= undone
      && l.amount == Amount(terms, toDepreciate, undone, count, l.sequence - 1, l.remaining + l.amount)
    decreases undone - x
  {
    hide Amount;
    var amount := Amount(terms, toDepreciate, undone, count, x, residual);
    if amount == 0 {
      LineHasAmount(terms, toDepreciate, undone, count, x + 1, residual, month, i);
    } else if i > 0 {
      LineHasAmount(terms, toDepreciate, undone, count, x + 1, residual - amount, month + terms.period, i - 1);
    }
  }

  /** A number that no planned line has would be a line of nothing. */
  lemma {:induction false} GapHasNoAmount(
      terms: Terms, toDepreciate: int, undone: nat, count: nat, x: nat, residual: int, month: int, i: nat, k: nat)
    requires terms.Valid() && count <= x
    requires var plan := Plan(terms, toDepreciate, undone, count, x, residual, month);
      && i <= |plan| && x < k <= undone
      && (i > 0 ==> plan[i - 1].sequence < k) && (i < |plan| ==> k < plan[i].sequence)
    ensures var plan := Plan(terms, toDepreciate, undone, count, x, residual, month);
      Amount(terms, toDepreciate, undone, count, k - 1, if i == 0 then residual else plan[i - 1].remaining) == 0
    decreases undone - x
  {
    hide Amount;
    var amount := Amount(terms, toDepreciate, undone, count, x, residual);
    if amount == 0 {
      if i > 0 {
        PlannedLine(terms, toDepreciate, undone, count, x + 1, residual, month, i - 1);
      }
      if k > x + 1 {
        GapHasNoAmount(terms, toDepreciate, undone, count, x + 1, residual, month, i, k);
      }
    } else {
      assert i > 0;
      if i > 1 {
        PlannedLine(terms, toDepreciate, undone, count, x + 1, residual - amount, month + terms.period, i - 2);
      }
      GapHasNoAmount(terms, toDepreciate, undone, count, x + 1, residual - amount, month + terms.period, i - 1, k);
    }
  }

  /**
   * What line `sequence` is worth, to the nearest unit, when `toDepreciate` was left for `room` lines and `before`
   * still is: an even share, a fixed share with prorata, or a fraction of what remains; the first of all is cut with
   * prorata.
   */
  predicate IsWorth(terms: Terms, toDepreciate: int, room: int, sequence: int, before: int, amount: int)
    requires terms.Valid() && room > 0
  {
    && (terms.computation.Linear? && !terms.prorata ==> Near(amount, EvenShare(toDepreciate, room)))
    && (terms.computation.Linear? && terms.prorata && sequence > 1 ==>
        Near(amount, EvenShare(toDepreciate, terms.number)))
    && (terms.computation.Linear? && terms.prorata && sequence == 1 ==>
        Near(amount, Portion(EvenShare(toDepreciate, terms.number), terms.share)))
    && (terms.computation.Degressive? && (terms.prorata ==> sequence > 1) ==>
        Near(amount, Portion(before as real, terms.factor)))
    && (terms.computation.Degressive? && terms.prorata && sequence == 1 ==>
        Near(amount, Portion(Portion(before as real, terms.factor), terms.share)))
  }

  lemma AmountIsWorth(terms: Terms, toDepreciate: int, undone: nat, count: nat, x: nat, before: int)
    requires terms.Valid() && count <= x < undone
    ensures x + 1 < undone ==> var amount := Amount(terms, toDepreciate, undone, count, x, before);
      IsWorth(terms, toDepreciate, undone - count, x + 1, before, amount)
  {
    hide Rounded, EvenShare, Portion;
  }

  /** The number of lines that the board of these terms should have in all. */
  function LineCount(terms: Terms, lines: seq<Line>): nat
    requires terms.Valid()
  {
    Undone(terms, NextMonth(terms, Posted(lines)))
  }

  /** As many lines as asked for or as there are dates up to the end, and one more with prorata. */
  lemma LineCountFits(terms: Terms, lines: seq<Line>, k: nat)
    requires terms.Valid()
    ensures (if terms.prorata then k + 1 else k) < LineCount(terms, lines) <==>
      if terms.horizon.Number? then k < terms.number
      else NextMonth(terms, Posted(lines)) + k * terms.period <= terms.end
  {
    PeriodsFit(terms, NextMonth(terms, Posted(lines)), k);
  }

  /**
   * The planned lines are numbered after the posted ones; the last is all that remains, any other is worth its
   * amount.
   */
  lemma PlannedAmounts(terms: Terms, lines: seq<Line>, l: Line)
    requires terms.Valid() && l in NewLines(terms, lines)
    ensures |Posted(lines)| < l.sequence <= LineCount(terms, lines)
    ensures l.sequence == LineCount(terms, lines) ==> l.remaining == 0
    ensures l.sequence < LineCount(terms, lines) ==>
      var room := LineCount(terms, lines) - |Posted(lines)|;
      IsWorth(terms, Residual(terms, lines), room, l.sequence, l.remaining + l.amount, l.amount)
  {
    hide Amount, IsWorth, Plan;
    var residual, count, month := Residual(terms, lines), |Posted(lines)|, NextMonth(terms, Posted(lines));
    var undone := Undone(terms, month);
    var i :| 0 <= i < |NewLines(terms, lines)| && NewLines(terms, lines)[i] == l;
    LineHasAmount(terms, residual, undone, count, count, residual, month, i);
    if l.sequence == undone {
      LastAmount(terms, residual, undone, count, l.sequence - 1, l.remaining + l.amount);
    } else {
      AmountIsWorth(terms, residual, undone, count, l.sequence - 1, l.remaining + l.amount);
    }
  }

  /** What remains before the planned line at `i`, or after the last one. */
  function Before(plan: seq<Line>, residual: int, i: nat): int
    requires i <= |plan|
  {
    if i == 0 then residual else plan[i - 1].remaining
  }

  /** There is no line with a number only if it would be worth nothing, to the nearest unit. */
  lemma GapsAreNothing(terms: Terms, lines: seq<Line>, i: nat, k: nat)
    requires terms.Valid() && Residual(terms, lines) != 0 && i <= |NewLines(terms, lines)|
    requires |Posted(lines)| < k <= LineCount(terms, lines)
    requires var plan := NewLines(terms, lines);
      (i > 0 ==> plan[i - 1].sequence < k) && (i < |plan| ==> k < plan[i].sequence)
    ensures var before := Before(NewLines(terms, lines), Residual(terms, lines), i);
      if k == LineCount(terms, lines) then before == 0
      else IsWorth(terms, Residual(terms, lines), LineCount(terms, lines) - |Posted(lines)|, k, before, 0)
  {
    hide Amount, IsWorth, Plan;
    var residual, count, month := Residual(terms, lines), |Posted(lines)|, NextMonth(terms, Posted(lines));
    var undone, before := Undone(terms, month), Before(NewLines(terms, lines), residual, i);
    GapHasNoAmount(terms, residual, undone, count, count, residual, month, i, k);
    if k == undone {
      LastAmount(terms, residual, undone, count, k - 1, before);
    } else {
      AmountIsWorth(terms, residual, undone, count, k - 1, before);
    }
  }

  /** Without prorata, a degressive line is the given factor of what remained before it, to the nearest unit. */
  lemma DegressiveLines(terms: Terms, lines: seq<Line>, l: Line)
    requires terms.Valid() && l in NewLines(terms, lines) && l.sequence < LineCount(terms, lines)
    requires terms.computation.Degressive? && !terms.prorata
    ensures -0.5 <= l.amount as real - (l.remaining + l.amount) as real * terms.factor <= 0.5
  {
    PlannedAmounts(terms, lines, l);
  }

  /** Without prorata, a linear line is an even share of what was left, to the nearest unit. */
  lemma EvenLines(terms: Terms, lines: seq<Line>, l: Line)
    requires terms.Valid() && l in NewLines(terms, lines) && l.sequence < LineCount(terms, lines)
    requires terms.computation.Linear? && !terms.prorata
    ensures |Posted(lines)| < LineCount(terms, lines)
    ensures var room := LineCount(terms, lines) - |Posted(lines)|;
      -0.5 <= l.amount as real - Residual(terms, lines) as real / room as real <= 0.5
  {
    PlannedAmounts(terms, lines, l);
  }

  /** With prorata the first line is the share of a regular line that its period is, and the others are regular. */
  lemma ProrataLines(terms: Terms, lines: seq<Line>, l: Line)
    requires terms.Valid() && l in NewLines(terms, lines) && l.sequence < LineCount(terms, lines) && terms.prorata
    ensures var amount, left, before := l.amount as real, Residual(terms, lines) as real, l.remaining + l.amount;
      && (terms.computation.Linear? && l.sequence > 1 ==> -0.5 <= amount - left / terms.number as real <= 0.5)
      && (terms.computation.Linear? && l.sequence == 1 ==>
          -0.5 <= amount - left / terms.number as real * terms.share <= 0.5)
      && (terms.computation.Degressive? && l.sequence > 1 ==> -0.5 <= amount - before as real * terms.factor <= 0.5)
      && (terms.computation.Degressive? && l.sequence == 1 ==>
          -0.5 <= amount - before as real * terms.factor * terms.share <= 0.5)
  {
    hide Residual, LineCount, NewLines, Posted;
    PlannedAmounts(terms, lines, l);
  }

  // ---- The last line of a linear board with prorata ----

  lemma FirstAmount(terms: Terms, toDepreciate: int, undone: nat)
    requires terms.Valid() && terms.computation.Linear? && terms.prorata && undone > 1
    ensures Amount(terms, toDepreciate, undone, 0, 0, toDepreciate)
         == Rounded(Portion(EvenShare(toDepreciate, terms.number), terms.share))
  {
  }

  lemma CutErrorAdds(toDepreciate: int, n: nat, share: real)
    requires n >= 1
    ensures var even := EvenShare(toDepreciate, n);
      var cut := Portion(even, share);
      var last := toDepreciate - Rounded(cut) - (n - 1) * Rounded(even);
      -(n as real) / 2.0 <= last as real - (even - cut) <= n as real / 2.0
  {
    hide Rounded, EvenShare, Portion;
    var even := EvenShare(toDepreciate, n);
    EvenShareAdds(toDepreciate, n);
    WholePortion(n - 1, Rounded(even));
    ErrorsAdd((n - 1) as real, Rounded(even) as real, even);
  }

  /**
   * The first line is the share of an even part, the last the rest of it, and the others are even, but for the
   * rounding.
   */
  ghost predicate Splits(amount: int, n: nat, share: real, first: int, regular: int, last: int)
    requires n >= 1
  {
    var even := EvenShare(amount, n);
    && last == amount - first - (n - 1) * regular
    && Near(first, Portion(even, share)) && Near(regular, even)
    && -(n as real) / 2.0 <= last as real - (even - Portion(even, share)) <= n as real / 2.0
  }

  lemma CutBounds(toDepreciate: int, n: nat, share: real)
    requires n >= 1
    ensures var even := EvenShare(toDepreciate, n);
      var first, regular := Rounded(Portion(even, share)), Rounded(even);
      var last := toDepreciate - first - (n - 1) * regular;
      Splits(toDepreciate, n, share, first, regular, last)
  {
    hide Rounded, EvenShare, Portion;
    CutErrorAdds(toDepreciate, n, share);
  }

  /**
   * The lines with numbers `2` to `n` are `regular`, the first is `first` and the last `last`; there are none of
   * nothing.
   */
  ghost predicate Cut(plan: seq<Line>, n: nat, first: int, regular: int, last: int) {
    && (forall l | l in plan :: 1 <= l.sequence <= n + 1)
    && (forall l | l in plan && l.sequence == 1 :: l.amount == first)
    && (forall l | l in plan && 1 < l.sequence <= n :: l.amount == regular)
    && (first != 0 ==> plan != [] && plan[0].sequence == 1)
    && (if last == 0 then forall l | l in plan :: l.sequence <= n
        else plan != [] && plan[|plan| - 1].sequence == n + 1 && plan[|plan| - 1].amount == last)
  }

  lemma CutStarts(first: seq<Line>, rest: seq<Line>, n: nat, amount: int, regular: int, last: int)
    requires Even(rest, n + 1, regular, last) && n >= 1
    requires forall l | l in rest :: 1 < l.sequence <= n + 1
    requires if amount == 0 then first == [] else |first| == 1 && first[0].sequence == 1 && first[0].amount == amount
    ensures Cut(first + rest, n, amount, regular, last)
  {
    var plan := first + rest;
    assert forall l :: l in plan <==> l in first || l in rest;
    if last != 0 {
      assert plan[|plan| - 1] == rest[|rest| - 1];
    }
  }

  /**
   * A linear board with prorata, nothing being posted, has one line more than its number of lines. The first is the
   * share of its period, the last the rest of that period, at most half a unit for each line away from it for the
   * rounding, and all the others are regular.
   */
  lemma ProrataSplitsOneLine(terms: Terms, lines: seq<Line>) returns (first: int, regular: int, last: int)
    requires terms.Valid() && terms.computation.Linear? && terms.prorata && terms.horizon.Number?
    requires Posted(lines) == [] && Residual(terms, lines) != 0
    ensures Cut(NewLines(terms, lines), terms.number, first, regular, last)
    ensures Splits(Residual(terms, lines), terms.number, terms.share, first, regular, last)
  {
    hide Cut, Splits, Rounded, EvenShare, Portion, Residual;
    var d, n := Residual(terms, lines), terms.number;
    first, regular := Rounded(Portion(EvenShare(d, n), terms.share)), Rounded(EvenShare(d, n));
    last := d - first - (n - 1) * regular;
    CutBounds(d, n, terms.share);
    ProrataPlan(terms, d, NextMonth(terms, []), first, regular, last);
  }

  lemma ProrataPlan(terms: Terms, d: int, month: int, first: int, regular: int, last: int)
    requires terms.Valid() && terms.computation.Linear? && terms.prorata
    requires first == Rounded(Portion(EvenShare(d, terms.number), terms.share))
    requires regular == Rounded(EvenShare(d, terms.number))
    requires last == d - first - (terms.number - 1) * regular
    ensures Cut(Plan(terms, d, terms.number + 1, 0, 0, d, month), terms.number, first, regular, last)
  {
    hide Amount, Rounded, EvenShare, Portion, Even, Cut, Plan;
    var n := terms.number;
    FirstAmount(terms, d, n + 1);
    var left, later := d - first, if first == 0 then month else month + terms.period;
    LinearLeaves(terms, d, n + 1, 0, 1, left, later, regular, last);
    var rest := Plan(terms, d, n + 1, 0, 1, left, later);
    forall i | 0 <= i < |rest| ensures 1 < rest[i].sequence <= n + 1 {
      PlannedLine(terms, d, n + 1, 0, 1, left, later, i);
    }
    if first == 0 {
      PlanSkip(terms, d, n + 1, 0, 0, d, month);
      CutStarts([], rest, n, first, regular, last);
      assert [] + rest == rest;
    } else {
      PlanStep(terms, d, n + 1, 0, 0, d, month, first);
      var line := Line(1, first, left, terms.value - (terms.salvage + left), month, false);
      CutStarts([line], rest, n, first, regular, last);
    }
  }

  // ---- Dates, and what a disposal leaves ----

  lemma {:induction false} LatestIsOne(lines: seq<Line>)
    requires lines != []
    ensures exists l | l in lines :: l.month == Latest(lines)
    ensures forall l | l in lines :: l.month <= Latest(lines)
  {
    var n := |lines| - 1;
    assert lines == lines[..n] + [lines[n]];
    if n > 0 {
      LatestIsOne(lines[..n]);
    }
  }

  /**
   * The planned lines are due a period apart, from the first date on or, once lines are posted, after the latest of
   * them.
   */
  lemma DueDates(terms: Terms, lines: seq<Line>, i: nat, latest: Line)
    requires terms.Valid() && i < |NewLines(terms, lines)|
    requires Posted(lines) != [] ==> latest in Posted(lines) && forall l | l in Posted(lines) :: l.month <= latest.month
    ensures NewLines(terms, lines)[i].month ==
      (if Posted(lines) == [] then terms.first else latest.month + terms.period) + i * terms.period
  {
    hide Plan, Posted;
    var posted := Posted(lines);
    var residual, month := Residual(terms, lines), NextMonth(terms, posted);
    if posted != [] {
      LatestIsOne(posted);
    }
    PlannedLine(terms, residual, Undone(terms, month), |posted|, |posted|, residual, month, i);
  }

  /** After a disposal every line is posted, and recomputing the board changes nothing. */
  lemma DisposalIsFinal(terms: Terms, lines: seq<Line>, today: int)
    requires terms.Valid()
    ensures var board := Disposed(terms, lines, today);
      && Posted(board) == board
      && Recomputed(DisposedTerms(terms, lines, today), board) == board
  {
    hide Plan, Total;
    var posted := Posted(lines);
    var line := Line(|posted| + 1, Residual(terms, lines), 0, terms.value - terms.salvage, today, true);
    PostedOfJoin(posted, [line]);
    PostedAgain(lines);
    assert Posted([line]) == [line];
    DisposalBalances(terms, lines, today);
  }
}

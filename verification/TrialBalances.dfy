/** The trial balance: movements before and within a period, merged account by account. */
module TrialBalances {

  /** A row of movements of one account; rows of one account need not be merged. Codes are ranks in their ordering. */
  datatype Row = Row(code: int, debit: int, credit: int)

  /** An account is active if it has movements at all. */
  datatype Account = Account(code: int, active: bool)

  datatype Figures = Figures(initD: int, initC: int, filterD: int, filterC: int, totalD: int, totalC: int)

  datatype Line = Line(code: int, figures: Figures)

  function Debits(rows: seq<Row>): int {
    if rows == [] then 0 else Debits(rows[..|rows| - 1]) + rows[|rows| - 1].debit
  }

  function Credits(rows: seq<Row>): int {
    if rows == [] then 0 else Credits(rows[..|rows| - 1]) + rows[|rows| - 1].credit
  }

  function RowsOf(rows: seq<Row>, code: int): seq<Row> {
    if rows == [] then []
    else RowsOf(rows[..|rows| - 1], code) + if rows[|rows| - 1].code == code then [rows[|rows| - 1]] else []
  }

  /** Where the rows with this code that start at `i` end. */
  function RunEnd(rows: seq<Row>, i: nat, code: int): (end: nat)
    requires i <= |rows|
    ensures i <= end <= |rows| && (forall k | i <= k < end :: rows[k].code == code)
    ensures end < |rows| ==> rows[end].code != code
    decreases |rows| - i
  {
    if i < |rows| && rows[i].code == code then RunEnd(rows, i + 1, code) else i
  }

  /** Where the cursor on `rows` stands when the first `k` accounts have been merged. */
  function Cursor(accounts: seq<Account>, rows: seq<Row>, k: nat): (i: nat)
    requires k <= |accounts|
    ensures i <= |rows|
  {
    if k == 0 then 0
    else
      var i := Cursor(accounts, rows, k - 1);
      if accounts[k - 1].active then RunEnd(rows, i, accounts[k - 1].code) else i
  }

  /** The rows merged into account `k`. */
  function Group(accounts: seq<Account>, rows: seq<Row>, k: nat): seq<Row>
    requires k < |accounts|
  {
    CursorAdvances(accounts, rows, k);
    rows[Cursor(accounts, rows, k)..Cursor(accounts, rows, k + 1)]
  }

  lemma CursorAdvances(accounts: seq<Account>, rows: seq<Row>, k: nat)
    requires k < |accounts|
    ensures Cursor(accounts, rows, k) <= Cursor(accounts, rows, k + 1)
  {
  }

  /** The figures of an account, its closing balance on one side only. */
  function Adjusted(init: seq<Row>, filter: seq<Row>): Figures {
    var balance := Debits(init) + Debits(filter) - Credits(init) - Credits(filter);
    Figures(Debits(init), Credits(init), Debits(filter), Credits(filter),
            if balance > 0 then balance else 0, if balance < 0 then -balance else 0)
  }

  function Plus(f: Figures, g: Figures): Figures {
    Figures(f.initD + g.initD, f.initC + g.initC, f.filterD + g.filterD, f.filterC + g.filterC,
            f.totalD + g.totalD, f.totalC + g.totalC)
  }

  predicate Shown(f: Figures) {
    f.initD != 0 || f.initC != 0 || f.filterD != 0 || f.filterC != 0
  }

  const ZERO := Figures(0, 0, 0, 0, 0, 0)

  function Sums(accounts: seq<Account>, init: seq<Row>, filter: seq<Row>, k: nat): Figures
    requires k <= |accounts|
  {
    if k == 0 then ZERO
    else
      var before := Sums(accounts, init, filter, k - 1);
      if accounts[k - 1].active then
        Plus(before, Adjusted(Group(accounts, init, k - 1), Group(accounts, filter, k - 1)))
      else before
  }

  function Lines(accounts: seq<Account>, init: seq<Row>, filter: seq<Row>, k: nat): seq<Line>
    requires k <= |accounts|
  {
    if k == 0 then []
    else
      var before := Lines(accounts, init, filter, k - 1);
      var figures := Adjusted(Group(accounts, init, k - 1), Group(accounts, filter, k - 1));
      if accounts[k - 1].active && Shown(figures) then before + [Line(accounts[k - 1].code, figures)] else before
  }

  lemma NextTotal(rows: seq<Row>, from: nat, i: nat)
    requires from <= i < |rows|
    ensures Debits(rows[from..i + 1]) == Debits(rows[from..i]) + rows[i].debit
    ensures Credits(rows[from..i + 1]) == Credits(rows[from..i]) + rows[i].credit
  {
    assert rows[from..i + 1][..i - from] == rows[from..i];
  }

  /** Add up the rows with this code from the cursor on, and move the cursor past them. */
  method Collect(rows: seq<Row>, cursor: nat, code: int) returns (end: nat, debit: int, credit: int)
    requires cursor <= |rows|
    ensures end == RunEnd(rows, cursor, code)
    ensures debit == Debits(rows[cursor..end]) && credit == Credits(rows[cursor..end])
  {
    end, debit, credit := cursor, 0, 0;
    if |rows| > end && rows[end].code == code {
      while true
        invariant cursor <= end < |rows| && rows[end].code == code
        invariant RunEnd(rows, end, code) == RunEnd(rows, cursor, code)
        invariant debit == Debits(rows[cursor..end]) && credit == Credits(rows[cursor..end])
        decreases |rows| - end
      {
        debit := debit + rows[end].debit;
        credit := credit + rows[end].credit;
        NextTotal(rows, cursor, end);
        end := end + 1;
        if |rows| > end {
          if rows[end].code != code {
            break;
          }
        } else {
          break;
        }
      }
    }
  }

  /** Merge the movements before the period and within it into the accounts. */
  method AccountTrialBalance(accounts: seq<Account>, init: seq<Row>, filter: seq<Row>)
    returns (sums: Figures, lines: seq<Line>)
    ensures sums == Sums(accounts, init, filter, |accounts|)
    ensures lines == Lines(accounts, init, filter, |accounts|)
  {
    hide Debits, Credits, RunEnd;
    sums, lines := ZERO, [];
    var i, j := 0, 0;
    for k := 0 to |accounts|
      invariant i == Cursor(accounts, init, k) && j == Cursor(accounts, filter, k)
      invariant sums == Sums(accounts, init, filter, k) && lines == Lines(accounts, init, filter, k)
    {
      var x := accounts[k];
      if x.active {
        var i', initD, initC := Collect(init, i, x.code);
        var j', filterD, filterC := Collect(filter, j, x.code);
        i, j := i', j';
        var td, tc := initD + filterD, initC + filterC;
        var tsum := td - tc;
        if tsum > 0 {
          td, tc := tsum, 0;
        } else if tsum < 0 {
          td, tc := 0, tsum * -1;
        } else {
          td, tc := 0, 0;
        }
        var row := Figures(initD, initC, filterD, filterC, td, tc);
        if Shown(row) {
          lines := lines + [Line(x.code, row)];
        }
        sums := Plus(sums, row);
      }
    }
  }

  // ---- What the merge means for rows in the order of the accounts ----

  ghost predicate SortedRows(rows: seq<Row>) {
    forall i, j | 0 <= i < j < |rows| :: rows[i].code <= rows[j].code
  }

  ghost predicate SortedAccounts(accounts: seq<Account>) {
    forall i, j | 0 <= i < j < |accounts| :: accounts[i].code < accounts[j].code
  }

  /** There is an active account with this code. */
  ghost predicate Known(accounts: seq<Account>, code: int) {
    exists k :: 0 <= k < |accounts| && accounts[k].active && accounts[k].code == code
  }

  /** The account whose rows come next is not one of the accounts already merged. */
  lemma BeyondAccount(accounts: seq<Account>, rows: seq<Row>, k: nat, i: nat, end: nat, a: nat)
    requires k < |accounts| && SortedAccounts(accounts) && SortedRows(rows) && i <= end < |rows|
    requires end == if accounts[k].active then RunEnd(rows, i, accounts[k].code) else i
    requires k <= a < |accounts| && accounts[a].active && accounts[a].code == rows[i].code
    ensures rows[end].code > accounts[k].code
  {
    assert accounts[k].code <= accounts[a].code;
    if a == k {
      assert rows[i].code <= rows[end].code;
    }
  }

  lemma {:induction false} MergedIsKnown(accounts: seq<Account>, rows: seq<Row>, k: nat, r: nat) returns (a: nat)
    requires k <= |accounts| && r < Cursor(accounts, rows, k)
    ensures a < k && accounts[a].active && accounts[a].code == rows[r].code && Known(accounts, rows[r].code)
  {
    if r < Cursor(accounts, rows, k - 1) {
      a := MergedIsKnown(accounts, rows, k - 1, r);
    } else {
      a := k - 1;
    }
  }

  /** A row of an active account at which the cursor stands is of an account still to be merged. */
  lemma {:induction false} CursorPassed(accounts: seq<Account>, rows: seq<Row>, k: nat)
    requires k <= |accounts| && SortedAccounts(accounts) && SortedRows(rows)
    requires var i := Cursor(accounts, rows, k); i < |rows| && Known(accounts, rows[i].code)
    ensures k > 0 ==> rows[Cursor(accounts, rows, k)].code > accounts[k - 1].code
  {
    if k > 0 {
      var i, end := Cursor(accounts, rows, k - 1), Cursor(accounts, rows, k);
      if i < end {
        var merged := MergedIsKnown(accounts, rows, k, i);
      }
      CursorPassed(accounts, rows, k - 1);
      var a :| 0 <= a < |accounts| && accounts[a].active && accounts[a].code == rows[i].code;
      assert k > 1 ==> accounts[a].code > accounts[k - 2].code;
      BeyondAccount(accounts, rows, k - 1, i, end, a);
    }
  }

  /**
   * With accounts and rows in the order of their codes, exactly the rows before the first one that is not of an active
   * account are merged: that one holds up all those after it.
   */
  lemma CursorStops(accounts: seq<Account>, rows: seq<Row>)
    requires SortedAccounts(accounts) && SortedRows(rows)
    ensures var end := Cursor(accounts, rows, |accounts|);
      && (forall r | 0 <= r < end :: Known(accounts, rows[r].code))
      && (end < |rows| ==> !Known(accounts, rows[end].code))
  {
    var n := |accounts|;
    var end := Cursor(accounts, rows, n);
    forall r | 0 <= r < end ensures Known(accounts, rows[r].code) {
      var a := MergedIsKnown(accounts, rows, n, r);
    }
    assert forall a | 0 <= a < n :: accounts[a].code <= accounts[n - 1].code;
    if end < |rows| && Known(accounts, rows[end].code) {
      CursorPassed(accounts, rows, n);
    }
  }

  /** Every row is merged exactly when every row is of an active account. */
  lemma AllMergedWhenKnown(accounts: seq<Account>, rows: seq<Row>)
    requires SortedAccounts(accounts) && SortedRows(rows)
    ensures Cursor(accounts, rows, |accounts|) == |rows|
      <==> forall r | 0 <= r < |rows| :: Known(accounts, rows[r].code)
  {
    CursorStops(accounts, rows);
  }

  lemma {:induction false} RowsOfJoin(p: seq<Row>, q: seq<Row>, code: int)
    ensures RowsOf(p + q, code) == RowsOf(p, code) + RowsOf(q, code)
  {
    if q == [] {
      assert p + q == p;
    } else {
      assert (p + q)[..|p + q| - 1] == p + q[..|q| - 1];
      RowsOfJoin(p, q[..|q| - 1], code);
    }
  }

  lemma {:induction false} RowsOfRun(rows: seq<Row>, code: int)
    ensures (forall r | r in rows :: r.code == code) ==> RowsOf(rows, code) == rows
    ensures (forall r | r in rows :: r.code != code) ==> RowsOf(rows, code) == []
  {
    if rows != [] {
      assert rows == rows[..|rows| - 1] + [rows[|rows| - 1]];
      RowsOfRun(rows[..|rows| - 1], code);
    }
  }

  lemma NoneBefore(accounts: seq<Account>, rows: seq<Row>, k: nat)
    requires SortedAccounts(accounts) && k < |accounts|
    ensures RowsOf(rows[..Cursor(accounts, rows, k)], accounts[k].code) == []
  {
    var before := rows[..Cursor(accounts, rows, k)];
    forall r | 0 <= r < |before| ensures before[r].code != accounts[k].code {
      var a := MergedIsKnown(accounts, rows, k, r);
    }
    RowsOfRun(before, accounts[k].code);
  }

  lemma AllWithin(accounts: seq<Account>, rows: seq<Row>, k: nat)
    requires k < |accounts|
    ensures RowsOf(Group(accounts, rows, k), accounts[k].code) == Group(accounts, rows, k)
  {
    RowsOfRun(Group(accounts, rows, k), accounts[k].code);
  }

  // By default induction on the rows would be tried in the next two lemmas, with a hypothesis that contradicts itself.

  lemma {:induction false} NoneAfter(accounts: seq<Account>, rows: seq<Row>, k: nat)
    requires SortedAccounts(accounts) && SortedRows(rows) && k < |accounts|
    requires forall r | 0 <= r < |rows| :: Known(accounts, rows[r].code)
    ensures RowsOf(rows[Cursor(accounts, rows, k + 1)..], accounts[k].code) == []
  {
    var end := Cursor(accounts, rows, k + 1);
    if end < |rows| {
      CursorPassed(accounts, rows, k + 1);
    }
    forall r | end <= r < |rows| ensures rows[r].code != accounts[k].code {
      assert r > end ==> rows[end].code <= rows[r].code;
    }
    RowsOfRun(rows[end..], accounts[k].code);
  }

  /** An active account is merged with all its rows, and with no other. */
  lemma {:induction false} GroupIsComplete(accounts: seq<Account>, rows: seq<Row>, k: nat)
    requires SortedAccounts(accounts) && SortedRows(rows) && k < |accounts| && accounts[k].active
    requires forall r | 0 <= r < |rows| :: Known(accounts, rows[r].code)
    ensures Group(accounts, rows, k) == RowsOf(rows, accounts[k].code)
  {
    hide RowsOf, Known, Cursor, SortedRows, SortedAccounts;
    var code := accounts[k].code;
    var i, end := Cursor(accounts, rows, k), Cursor(accounts, rows, k + 1);
    CursorAdvances(accounts, rows, k);
    NoneBefore(accounts, rows, k);
    AllWithin(accounts, rows, k);
    NoneAfter(accounts, rows, k);
    RowsOfJoin(rows[..i], rows[i..end], code);
    RowsOfJoin(rows[..i] + rows[i..end], rows[end..], code);
    assert rows == rows[..i] + rows[i..end] + rows[end..];
  }

  lemma NoneKnown(accounts: seq<Account>, code: int)
    ensures !Known(accounts[..0], code)
  {
  }

  lemma KnownNext(accounts: seq<Account>, k: nat, code: int)
    requires k < |accounts|
    ensures Known(accounts[..k + 1], code)
      <==> Known(accounts[..k], code) || (accounts[k].active && accounts[k].code == code)
  {
    if Known(accounts[..k], code) {
      var a :| 0 <= a < k && accounts[..k][a].active && accounts[..k][a].code == code;
      assert accounts[..k + 1][a].active && accounts[..k + 1][a].code == code;
    }
    assert accounts[..k + 1][k] == accounts[k];
  }

  /** An account is shown unless all its figures are nothing, those of its closing balance included. */
  lemma HiddenIsNothing(init: seq<Row>, filter: seq<Row>)
    ensures Shown(Adjusted(init, filter)) <==> Adjusted(init, filter) != ZERO
  {
    hide Debits, Credits;
  }

  /**
   * The closing balance of an account is on one side: what its debits exceed its credits by, or the other way round.
   */
  lemma {:induction false} ClosingIsOneSided(accounts: seq<Account>, init: seq<Row>, filter: seq<Row>, k: nat,
      line: Line)
    requires k <= |accounts| && line in Lines(accounts, init, filter, k)
    ensures var f := line.figures;
      && (f.totalD == 0 || f.totalC == 0) && f.totalD >= 0 && f.totalC >= 0
      && f.totalD - f.totalC == f.initD + f.filterD - f.initC - f.filterC
  {
    hide Debits, Credits, Group;
    if line !in Lines(accounts, init, filter, k - 1) {
      assert line.figures == Adjusted(Group(accounts, init, k - 1), Group(accounts, filter, k - 1));
    } else {
      ClosingIsOneSided(accounts, init, filter, k - 1, line);
    }
  }

  /** Every line shows an active account with all its rows, and every active account with any figure has one. */
  lemma {:induction false} LinesAreAccounts(accounts: seq<Account>, init: seq<Row>, filter: seq<Row>, k: nat,
      line: Line)
    requires SortedAccounts(accounts) && SortedRows(init) && SortedRows(filter) && k <= |accounts|
    requires forall r | 0 <= r < |init| :: Known(accounts, init[r].code)
    requires forall r | 0 <= r < |filter| :: Known(accounts, filter[r].code)
    ensures line in Lines(accounts, init, filter, k) <==>
      && Known(accounts[..k], line.code) && line.figures == Adjusted(RowsOf(init, line.code), RowsOf(filter, line.code))
      && line.figures != ZERO
  {
    hide Adjusted, Group, RowsOf, Known, Shown, Cursor, SortedRows, SortedAccounts;
    if k > 0 {
      HiddenIsNothing(Group(accounts, init, k - 1), Group(accounts, filter, k - 1));
      KnownNext(accounts, k - 1, line.code);
      LinesAreAccounts(accounts, init, filter, k - 1, line);
      if accounts[k - 1].active {
        GroupIsComplete(accounts, init, k - 1);
        GroupIsComplete(accounts, filter, k - 1);
      }
    } else {
      NoneKnown(accounts, line.code);
    }
  }

  /** The lines are in the order of the accounts, one at most for each. */
  ghost predicate InOrder(lines: seq<Line>, accounts: seq<Account>, k: nat) {
    && (forall i | 0 <= i < |lines| && k < |accounts| :: lines[i].code < accounts[k].code)
    && (forall i, j | 0 <= i < j < |lines| :: lines[i].code < lines[j].code)
  }

  lemma {:induction false} LinesAreInOrder(accounts: seq<Account>, init: seq<Row>, filter: seq<Row>, k: nat)
    requires SortedAccounts(accounts) && k <= |accounts|
    ensures InOrder(Lines(accounts, init, filter, k), accounts, k)
  {
    hide Adjusted, Group, Shown, InOrder;
    if k > 0 {
      LinesAreInOrder(accounts, init, filter, k - 1);
      OrderGoesOn(Lines(accounts, init, filter, k - 1), accounts, k - 1,
        Adjusted(Group(accounts, init, k - 1), Group(accounts, filter, k - 1)));
    } else {
      NoLinesInOrder(accounts);
    }
  }

  lemma NoLinesInOrder(accounts: seq<Account>)
    ensures InOrder([], accounts, 0)
  {
  }

  lemma OrderGoesOn(lines: seq<Line>, accounts: seq<Account>, k: nat, figures: Figures)
    requires SortedAccounts(accounts) && k < |accounts| && InOrder(lines, accounts, k)
    ensures InOrder(lines, accounts, k + 1) && InOrder(lines + [Line(accounts[k].code, figures)], accounts, k + 1)
  {
    assert k + 1 < |accounts| ==> accounts[k].code < accounts[k + 1].code;
  }

  // ---- Totals ----

  lemma {:induction false} TotalsOfJoin(p: seq<Row>, q: seq<Row>)
    ensures Debits(p + q) == Debits(p) + Debits(q) && Credits(p + q) == Credits(p) + Credits(q)
  {
    if q == [] {
      assert p + q == p;
    } else {
      assert (p + q)[..|p + q| - 1] == p + q[..|q| - 1];
      TotalsOfJoin(p, q[..|q| - 1]);
    }
  }

  lemma GroupExtends(accounts: seq<Account>, rows: seq<Row>, k: nat)
    requires k < |accounts|
    ensures var before, after := rows[..Cursor(accounts, rows, k)], rows[..Cursor(accounts, rows, k + 1)];
      && Debits(after) == Debits(before) + Debits(Group(accounts, rows, k))
      && Credits(after) == Credits(before) + Credits(Group(accounts, rows, k))
  {
    CursorAdvances(accounts, rows, k);
    var before, group := rows[..Cursor(accounts, rows, k)], Group(accounts, rows, k);
    assert rows[..Cursor(accounts, rows, k + 1)] == before + group;
    TotalsOfJoin(before, group);
  }

  lemma NothingMerged(accounts: seq<Account>, rows: seq<Row>)
    ensures Debits(rows[..Cursor(accounts, rows, 0)]) == 0 && Credits(rows[..Cursor(accounts, rows, 0)]) == 0
  {
  }

  lemma NothingMoves(accounts: seq<Account>, rows: seq<Row>, k: nat)
    requires k < |accounts| && !accounts[k].active
    ensures Cursor(accounts, rows, k + 1) == Cursor(accounts, rows, k)
  {
  }

  /** Whatever the rows, the sums are those of the rows merged, and the closing balances add up to theirs. */
  lemma {:induction false} SumsAreMerged(accounts: seq<Account>, init: seq<Row>, filter: seq<Row>, k: nat)
    requires k <= |accounts|
    ensures var sums := Sums(accounts, init, filter, k);
      var inits, filters := init[..Cursor(accounts, init, k)], filter[..Cursor(accounts, filter, k)];
      && sums.initD == Debits(inits) && sums.initC == Credits(inits)
      && sums.filterD == Debits(filters) && sums.filterC == Credits(filters)
      && sums.totalD - sums.totalC == Debits(inits) + Debits(filters) - Credits(inits) - Credits(filters)
      && sums.totalD >= 0 && sums.totalC >= 0
  {
    hide Debits, Credits, Cursor, Group;
    NothingMerged(accounts, init);
    NothingMerged(accounts, filter);
    if k > 0 {
      SumsAreMerged(accounts, init, filter, k - 1);
      if accounts[k - 1].active {
        GroupExtends(accounts, init, k - 1);
        GroupExtends(accounts, filter, k - 1);
      } else {
        NothingMoves(accounts, init, k - 1);
        NothingMoves(accounts, filter, k - 1);
      }
    }
  }

  /** The figures of the lines, added up. */
  function Printed(lines: seq<Line>): Figures {
    if lines == [] then ZERO else Plus(Printed(lines[..|lines| - 1]), lines[|lines| - 1].figures)
  }

  /** Whatever the rows, the lines printed add up to the sums: accounts that are left out would add nothing. */
  lemma {:induction false} LinesAddUp(accounts: seq<Account>, init: seq<Row>, filter: seq<Row>, k: nat)
    requires k <= |accounts|
    ensures Printed(Lines(accounts, init, filter, k)) == Sums(accounts, init, filter, k)
  {
    hide Adjusted, Group, Shown;
    if k > 0 {
      LinesAddUp(accounts, init, filter, k - 1);
      var before := Lines(accounts, init, filter, k - 1);
      var line := Line(accounts[k - 1].code,
        Adjusted(Group(accounts, init, k - 1), Group(accounts, filter, k - 1)));
      assert (before + [line])[..|before|] == before;
      HiddenIsNothing(Group(accounts, init, k - 1), Group(accounts, filter, k - 1));
    }
  }

  /**
   * With all rows of active accounts, the sums are those of all the rows, and the closing debits equal the closing
   * credits exactly when the debits of the rows equal their credits.
   */
  lemma BalanceCloses(accounts: seq<Account>, init: seq<Row>, filter: seq<Row>)
    requires SortedAccounts(accounts) && SortedRows(init) && SortedRows(filter)
    requires forall r | 0 <= r < |init| :: Known(accounts, init[r].code)
    requires forall r | 0 <= r < |filter| :: Known(accounts, filter[r].code)
    ensures var sums := Sums(accounts, init, filter, |accounts|);
      && sums.initD == Debits(init) && sums.initC == Credits(init)
      && sums.filterD == Debits(filter) && sums.filterC == Credits(filter)
      && (sums.totalD == sums.totalC <==> Debits(init) + Debits(filter) == Credits(init) + Credits(filter))
  {
    AllMergedWhenKnown(accounts, init);
    AllMergedWhenKnown(accounts, filter);
    SumsAreMerged(accounts, init, filter, |accounts|);
    assert init[..|init|] == init && filter[..|filter|] == filter;
  }
}

/// analysis2.py: the salary budget of every team in every season (line 18),
/// the number of salaries paid in every season (lines 46-50), and the ten
/// best-paid pitchers and batters of every season (lines 79-95).
module SalaryTrend {
  import opened Tables
  import opened Lahman

  // ------------------------------------------------------------------
  // Line 18: the budget, salaries summed per (yearID, teamID).

  /** A row of `budget`: the summed salary of one team in one season. */
  datatype BudgetRow = BudgetRow(yearID: int, teamID: string, salary: int)

  /** Salary row `s` belongs to the group of budget row `r`. */
  predicate InGroup(r: BudgetRow, s: Salary) {
    r.yearID == s.yearID && r.teamID == s.teamID
  }

  /** The sum of the salaries `team` paid in `year`. */
  function Payroll(salaries: seq<Salary>, year: int, team: string): int {
    if salaries == [] then 0
    else
      var last := salaries[|salaries| - 1];
      Payroll(salaries[..|salaries| - 1], year, team)
        + (if last.yearID == year && last.teamID == team then last.salary else 0)
  }

  function TotalSalary(salaries: seq<Salary>): int {
    if salaries == [] then 0
    else TotalSalary(salaries[..|salaries| - 1]) + salaries[|salaries| - 1].salary
  }

  function TotalBudget(budget: seq<BudgetRow>): int {
    if budget == [] then 0 else budget[0].salary + TotalBudget(budget[1..])
  }

  predicate Budgeted(budget: seq<BudgetRow>, year: int, team: string) {
    exists r :: r in budget && r.yearID == year && r.teamID == team
  }

  /** Adds salary `s` to the row of its group. */
  function Raise(budget: seq<BudgetRow>, s: Salary): seq<BudgetRow> {
    seq(|budget|, i requires 0 <= i < |budget| =>
      if InGroup(budget[i], s) then budget[i].(salary := budget[i].salary + s.salary) else budget[i])
  }

  /** Adds salary row `s` to the group of its season and team, opening a new
      group at the end when there is none yet. */
  function AddToBudget(budget: seq<BudgetRow>, s: Salary): seq<BudgetRow> {
    if Budgeted(budget, s.yearID, s.teamID) then Raise(budget, s)
    else budget + [BudgetRow(s.yearID, s.teamID, s.salary)]
  }

  /** `groupby(['yearID', 'teamID']).sum()`, one group per season and team. */
  function Budget(salaries: seq<Salary>): seq<BudgetRow> {
    if salaries == [] then []
    else AddToBudget(Budget(salaries[..|salaries| - 1]), salaries[|salaries| - 1])
  }

  predicate Paid(salaries: seq<Salary>, year: int, team: string) {
    exists s :: s in salaries && s.yearID == year && s.teamID == team
  }

  predicate DistinctGroups(budget: seq<BudgetRow>) {
    forall i, j :: 0 <= i < j < |budget| ==>
      budget[i].yearID != budget[j].yearID || budget[i].teamID != budget[j].teamID
  }

  /** `budget` is the grouped sum of `salaries`: one row per season and team
      that paid a salary, holding that team's payroll for that season. */
  ghost predicate SumsOf(budget: seq<BudgetRow>, salaries: seq<Salary>) {
    && DistinctGroups(budget)
    && (forall r :: r in budget ==> r.salary == Payroll(salaries, r.yearID, r.teamID))
    && (forall y, t :: Budgeted(budget, y, t) <==> Paid(salaries, y, t))
  }

  /** A team that paid nothing in a season has a payroll of 0 there. */
  lemma {:induction false} PayrollAbsent(salaries: seq<Salary>, year: int, team: string)
    requires !Paid(salaries, year, team)
    ensures Payroll(salaries, year, team) == 0
  {
    if salaries != [] {
      var init := salaries[..|salaries| - 1];
      assert !Paid(init, year, team) by {
        forall s | s in init ensures s in salaries { }
      }
      PayrollAbsent(init, year, team);
      assert salaries[|salaries| - 1] in salaries;
    }
  }

  /** Raising a group keeps every row's season and team. */
  lemma RaiseKeepsGroups(budget: seq<BudgetRow>, s: Salary)
    ensures DistinctGroups(budget) ==> DistinctGroups(Raise(budget, s))
    ensures forall y, t :: Budgeted(Raise(budget, s), y, t) <==> Budgeted(budget, y, t)
  {
    var next := Raise(budget, s);
    forall y, t ensures Budgeted(next, y, t) <==> Budgeted(budget, y, t) {
      if Budgeted(budget, y, t) {
        var r :| r in budget && r.yearID == y && r.teamID == t;
        var j :| 0 <= j < |budget| && budget[j] == r;
        assert next[j] in next;
      }
      if Budgeted(next, y, t) {
        var r :| r in next && r.yearID == y && r.teamID == t;
        var j :| 0 <= j < |next| && next[j] == r;
        assert budget[j] in budget;
      }
    }
  }

  lemma PaidAppend(salaries: seq<Salary>, s: Salary)
    ensures forall y, t :: Paid(salaries + [s], y, t) <==> Paid(salaries, y, t) || (s.yearID == y && s.teamID == t)
  {
    forall y, t | Paid(salaries + [s], y, t) && !(s.yearID == y && s.teamID == t) ensures Paid(salaries, y, t) {
      var x :| x in salaries + [s] && x.yearID == y && x.teamID == t;
      assert x in salaries;
    }
  }

  lemma PayrollAppend(salaries: seq<Salary>, s: Salary)
    ensures forall y, t :: Payroll(salaries + [s], y, t) ==
              Payroll(salaries, y, t) + if s.yearID == y && s.teamID == t then s.salary else 0
  {
    assert (salaries + [s])[..|salaries|] == salaries;
  }

  /** A salary of a team and season already in the budget raises that row. */
  lemma RaiseStep(budget: seq<BudgetRow>, salaries: seq<Salary>, s: Salary)
    requires SumsOf(budget, salaries) && Budgeted(budget, s.yearID, s.teamID)
    ensures SumsOf(Raise(budget, s), salaries + [s])
  {
    PaidAppend(salaries, s);
    PayrollAppend(salaries, s);
    RaiseKeepsGroups(budget, s);
    var next := Raise(budget, s);
    forall r | r in next ensures r.salary == Payroll(salaries + [s], r.yearID, r.teamID) {
      var j :| 0 <= j < |next| && next[j] == r;
      assert budget[j] in budget;
    }
  }

  /** A salary of a new team and season opens a row. */
  lemma OpenStep(budget: seq<BudgetRow>, salaries: seq<Salary>, s: Salary)
    requires SumsOf(budget, salaries) && !Budgeted(budget, s.yearID, s.teamID)
    ensures SumsOf(budget + [BudgetRow(s.yearID, s.teamID, s.salary)], salaries + [s])
  {
    PaidAppend(salaries, s);
    PayrollAppend(salaries, s);
    PayrollAbsent(salaries, s.yearID, s.teamID);
  }

  /** One more salary row keeps the budget the grouped sum. */
  lemma BudgetStep(budget: seq<BudgetRow>, salaries: seq<Salary>, s: Salary)
    requires SumsOf(budget, salaries)
    ensures SumsOf(AddToBudget(budget, s), salaries + [s])
  {
    if Budgeted(budget, s.yearID, s.teamID) {
      RaiseStep(budget, salaries, s);
    } else {
      OpenStep(budget, salaries, s);
    }
  }

  /** The budget is the grouped sum of the salary table. */
  lemma {:induction false} BudgetSums(salaries: seq<Salary>)
    ensures SumsOf(Budget(salaries), salaries)
  {
    if salaries != [] {
      var init := salaries[..|salaries| - 1];
      assert salaries == init + [salaries[|salaries| - 1]];
      BudgetSums(init);
      BudgetStep(Budget(init), init, salaries[|salaries| - 1]);
    }
  }

  /** With one row per group, raising a group adds the salary once. */
  lemma {:induction false} RaiseTotal(budget: seq<BudgetRow>, s: Salary)
    requires DistinctGroups(budget)
    ensures TotalBudget(Raise(budget, s)) ==
              TotalBudget(budget) + if Budgeted(budget, s.yearID, s.teamID) then s.salary else 0
  {
    if budget != [] {
      var rest := budget[1..];
      assert Raise(budget, s)[1..] == Raise(rest, s);
      assert DistinctGroups(rest);
      if InGroup(budget[0], s) {
        forall j | 0 <= j < |rest| ensures !InGroup(rest[j], s) {
          assert rest[j] == budget[j + 1];
        }
        assert Raise(rest, s) == rest;
      } else {
        RaiseTotal(rest, s);
        assert Budgeted(budget, s.yearID, s.teamID) ==> Budgeted(rest, s.yearID, s.teamID) by {
          if Budgeted(budget, s.yearID, s.teamID) {
            var r :| r in budget && r.yearID == s.yearID && r.teamID == s.teamID;
            var j :| 0 <= j < |budget| && budget[j] == r;
            assert rest[j - 1] == r;
          }
        }
        assert Budgeted(rest, s.yearID, s.teamID) ==> Budgeted(budget, s.yearID, s.teamID) by {
          if Budgeted(rest, s.yearID, s.teamID) {
            var r :| r in rest && r.yearID == s.yearID && r.teamID == s.teamID;
            assert r in budget;
          }
        }
      }
    }
  }

  lemma {:induction false} AppendTotal(budget: seq<BudgetRow>, row: BudgetRow)
    ensures TotalBudget(budget + [row]) == TotalBudget(budget) + row.salary
  {
    if budget != [] {
      assert (budget + [row])[1..] == budget[1..] + [row];
      AppendTotal(budget[1..], row);
    }
  }

  /** The budgets of all teams and seasons add up to the whole salary table. */
  lemma {:induction false} BudgetTotal(salaries: seq<Salary>)
    ensures TotalBudget(Budget(salaries)) == TotalSalary(salaries)
  {
    if salaries != [] {
      var init := salaries[..|salaries| - 1];
      var last := salaries[|salaries| - 1];
      BudgetTotal(init);
      BudgetSums(init);
      if Budgeted(Budget(init), last.yearID, last.teamID) {
        RaiseTotal(Budget(init), last);
      } else {
        AppendTotal(Budget(init), BudgetRow(last.yearID, last.teamID, last.salary));
      }
    }
  }

  // ------------------------------------------------------------------
  // Lines 46-50: the count of salaries per season.

  /** The salary rows of one season: the group `groupby('yearID')` makes for it. */
  function SeasonSalaries(salaries: seq<Salary>, year: int): seq<Salary> {
    Filter(salaries, (s: Salary) => s.yearID == year)
  }

  /** `salaries['yearID'].unique()`: every season of the salary rows, once each. */
  function SalaryYears(salaries: seq<Salary>): (ys: seq<int>)
    ensures forall y :: y in ys <==> exists s :: s in salaries && s.yearID == y
    ensures Distinct(ys)
  {
    var column := seq(|salaries|, i requires 0 <= i < |salaries| => salaries[i].yearID);
    assert forall s :: s in salaries ==> s.yearID in column by {
      forall s | s in salaries ensures s.yearID in column {
        var i :| 0 <= i < |salaries| && salaries[i] == s;
        assert column[i] == s.yearID;
      }
    }
    Unique(column)
  }

  /** Strictly increasing: sorted, each value once. */
  predicate Increasing(s: seq<int>) {
    forall i, j :: 0 <= i < j < |s| ==> s[i] < s[j]
  }

  lemma ConsIncreasing(a: int, rest: seq<int>)
    requires Increasing(rest) && forall x :: x in rest ==> a < x
    ensures Increasing([a] + rest)
  {
    var r := [a] + rest;
    forall i, j | 0 <= i < j < |r| ensures r[i] < r[j] {
      assert r[j] == rest[j - 1] && rest[j - 1] in rest;
      if i > 0 {
        assert r[i] == rest[i - 1];
      }
    }
  }

  function InsertYear(s: seq<int>, y: int): (r: seq<int>)
    requires Increasing(s)
    ensures Increasing(r)
    ensures forall x :: x in r <==> x in s || x == y
  {
    if s == [] then [y]
    else if y < s[0] then [y] + s
    else if y == s[0] then s
    else
      var rest := InsertYear(s[1..], y);
      assert forall x :: x in rest ==> s[0] < x by {
        forall x | x in s[1..] ensures s[0] < x {
          var i :| 0 <= i < |s[1..]| && s[1..][i] == x;
          assert s[i + 1] == x;
        }
      }
      var r := [s[0]] + rest;
      assert forall x :: x in r <==> x == s[0] || x in rest;
      ConsIncreasing(s[0], rest);
      r
  }

  /** The distinct values of `s` in ascending order, the order in which
      `groupby` visits its groups. */
  function SortedDistinct(s: seq<int>): (r: seq<int>)
    ensures Increasing(r)
    ensures forall x :: x in r <==> x in s
  {
    if s == [] then []
    else
      var init := s[..|s| - 1];
      assert s == init + [s[|s| - 1]];
      InsertYear(SortedDistinct(init), s[|s| - 1])
  }

  /** The count `describe()` reports for a season: the size of its group. */
  function SeasonSize(salaries: seq<Salary>, year: int): nat {
    |SeasonSalaries(salaries, year)|
  }

  /** Lines 46-50: `yearstat` has one row per season, blank at first; the loop
      over the season groups fills each row's count with the size of its
      group. The other statistics of `describe()` are not modelled. */
  method YearCounts(salaries: seq<Salary>) returns (count: map<int, Option<nat>>)
    ensures forall y :: y in count <==> exists s :: s in salaries && s.yearID == y
    ensures forall y :: y in count ==> count[y] == Some(|SeasonSalaries(salaries, y)|)
  {
    var years := SalaryYears(salaries);
    count := FillCounts(salaries, years);
  }

  /** The loop of lines 48-50 over a `yearstat` indexed by `years`. */
  method FillCounts(salaries: seq<Salary>, years: seq<int>) returns (count: map<int, Option<nat>>)
    ensures forall y :: y in count <==> y in years
    ensures forall y :: y in count ==> count[y] == Some(SeasonSize(salaries, y))
  {
    count := map y | y in years :: None;
    var groups := SortedDistinct(years);
    for i := 0 to |groups|
      invariant forall y :: y in count <==> y in years
      invariant forall y :: y in count ==> count[y] == if y in groups[..i] then Some(SeasonSize(salaries, y)) else None
    {
      assert groups[..i + 1] == groups[..i] + [groups[i]];
      count := count[groups[i] := Some(SeasonSize(salaries, groups[i]))];
    }
    assert groups[..|groups|] == groups;
  }

  /** The sum of the group sizes of the seasons `years`. */
  function CountSum(salaries: seq<Salary>, years: seq<int>): nat {
    if years == [] then 0
    else CountSum(salaries, years[..|years| - 1]) + |SeasonSalaries(salaries, years[|years| - 1])|
  }

  /** How often `y` occurs in `years`. */
  function Occurrences(years: seq<int>, y: int): nat {
    if years == [] then 0
    else Occurrences(years[..|years| - 1], y) + (if years[|years| - 1] == y then 1 else 0)
  }

  lemma {:induction false} OccursOnce(years: seq<int>, y: int)
    requires Distinct(years) && y in years
    ensures Occurrences(years, y) == 1
  {
    var init := years[..|years| - 1];
    assert Distinct(init);
    if years[|years| - 1] == y {
      assert y !in init by {
        forall i | 0 <= i < |init| ensures init[i] != y {
          assert init[i] == years[i];
        }
      }
      OccursNever(init, y);
    } else {
      assert y in init by {
        var i :| 0 <= i < |years| && years[i] == y;
        assert init[i] == y;
      }
      OccursOnce(init, y);
    }
  }

  lemma {:induction false} OccursNever(years: seq<int>, y: int)
    requires y !in years
    ensures Occurrences(years, y) == 0
  {
    if years != [] {
      var init := years[..|years| - 1];
      assert forall x :: x in init ==> x in years;
      OccursNever(init, y);
    }
  }

  lemma {:induction false} CountSumEmpty(years: seq<int>)
    ensures CountSum([], years) == 0
  {
    if years != [] {
      CountSumEmpty(years[..|years| - 1]);
    }
  }

  /** One more salary row raises exactly the count of its season. */
  lemma {:induction false} CountSumStep(salaries: seq<Salary>, s: Salary, years: seq<int>)
    ensures CountSum(salaries + [s], years) == CountSum(salaries, years) + Occurrences(years, s.yearID)
  {
    if years != [] {
      var y := years[|years| - 1];
      CountSumStep(salaries, s, years[..|years| - 1]);
      FilterAppend(salaries, [s], (x: Salary) => x.yearID == y);
    }
  }

  /** The season counts add up to the number of salary rows. */
  lemma {:induction false} SeasonCountsAddUp(salaries: seq<Salary>, years: seq<int>)
    requires Distinct(years) && forall s :: s in salaries ==> s.yearID in years
    ensures CountSum(salaries, years) == |salaries|
  {
    if salaries == [] {
      CountSumEmpty(years);
    } else {
      var init := salaries[..|salaries| - 1];
      var last := salaries[|salaries| - 1];
      assert salaries == init + [last];
      assert forall s :: s in init ==> s in salaries;
      SeasonCountsAddUp(init, years);
      CountSumStep(init, last, years);
      OccursOnce(years, last.yearID);
    }
  }

  // ------------------------------------------------------------------
  // Lines 79-82: the pitcher flag, the merge with Master.csv and the full name.

  /** A row of Master.csv with the `pitcher` column of line 79. */
  datatype FlaggedPlayer = FlaggedPlayer(player: Player, pitcher: bool)

  function FlagPitchers(master: seq<Player>, pitching: seq<Performance>): (r: seq<FlaggedPlayer>)
    ensures |r| == |master|
    ensures forall i :: 0 <= i < |r| ==>
              r[i].player == master[i] &&
              (r[i].pitcher <==> exists p :: p in pitching && p.playerID == master[i].playerID)
  {
    var ids := PlayerIDs(pitching);
    seq(|master|, i requires 0 <= i < |master| => FlaggedPlayer(master[i], master[i].playerID in ids))
  }

  /** A salary row after the left merge of line 80; the Master.csv columns are
      None when no Master row has the player's id. */
  datatype Listed = Listed(paid: Salary, pitcher: Option<bool>, nameGiven: Option<string>, nameLast: Option<string>)

  function ListedOf(s: Salary, f: FlaggedPlayer): Listed {
    Listed(s, Some(f.pitcher), f.player.nameGiven, f.player.nameLast)
  }

  function Unlisted(s: Salary): Listed {
    Listed(s, None, None, None)
  }

  predicate SamePlayer(f: FlaggedPlayer, s: Salary) {
    f.player.playerID == s.playerID
  }

  function MasterMatches(master: seq<FlaggedPlayer>, s: Salary): seq<FlaggedPlayer> {
    Filter(master, (f: FlaggedPlayer) => SamePlayer(f, s))
  }

  /** The rows the left merge makes of one salary row: one per Master row of
      the player, in Master order, or one with blank Master columns. */
  function MergeMasterRow(s: Salary, master: seq<FlaggedPlayer>): seq<Listed> {
    var ms := MasterMatches(master, s);
    if ms == [] then [Unlisted(s)]
    else seq(|ms|, i requires 0 <= i < |ms| => ListedOf(s, ms[i]))
  }

  function MergeMaster(salaries: seq<Salary>, master: seq<FlaggedPlayer>): seq<Listed> {
    if salaries == [] then []
    else MergeMaster(salaries[..|salaries| - 1], master) + MergeMasterRow(salaries[|salaries| - 1], master)
  }

  /** Each merged row is a salary row, with the pitcher flag and names of a
      Master row of the same player, or blank when there is none. */
  lemma MergeMasterRowSound(s: Salary, master: seq<FlaggedPlayer>, x: Listed)
    requires x in MergeMasterRow(s, master)
    ensures x.paid == s
    ensures x.pitcher.Some? ==> exists f :: f in master && SamePlayer(f, s) && x == ListedOf(s, f)
    ensures x.pitcher.None? ==> x == Unlisted(s) && forall f :: f in master ==> !SamePlayer(f, s)
  {
    var ms := MasterMatches(master, s);
    if ms != [] {
      var i :| 0 <= i < |ms| && MergeMasterRow(s, master)[i] == x;
      assert ms[i] in ms;
    }
  }

  lemma {:induction false} MergeMasterSound(salaries: seq<Salary>, master: seq<FlaggedPlayer>, x: Listed)
    requires x in MergeMaster(salaries, master)
    ensures x.paid in salaries
    ensures x.pitcher.Some? ==> exists f :: f in master && SamePlayer(f, x.paid) && x == ListedOf(x.paid, f)
  {
    var init := salaries[..|salaries| - 1];
    var last := salaries[|salaries| - 1];
    if x in MergeMaster(init, master) {
      MergeMasterSound(init, master, x);
      assert forall s :: s in init ==> s in salaries;
    } else {
      MergeMasterRowSound(last, master, x);
    }
  }

  /** Master.csv has one row per player. */
  predicate UniquePlayers(master: seq<FlaggedPlayer>) {
    forall i, j :: 0 <= i < j < |master| ==> master[i].player.playerID != master[j].player.playerID
  }

  lemma {:induction false} OnlyMatch(master: seq<FlaggedPlayer>, s: Salary, f: FlaggedPlayer)
    requires UniquePlayers(master) && f in master && SamePlayer(f, s)
    ensures MasterMatches(master, s) == [f]
  {
    var init := master[..|master| - 1];
    var last := master[|master| - 1];
    assert master == init + [last];
    assert UniquePlayers(init);
    if f == last {
      forall g | g in init ensures !SamePlayer(g, s) {
        var i :| 0 <= i < |init| && init[i] == g;
        assert master[i] == g;
      }
      FilterKeepsNone(init, (g: FlaggedPlayer) => SamePlayer(g, s));
    } else {
      assert f in init;
      OnlyMatch(init, s, f);
      var i :| 0 <= i < |init| && init[i] == f;
      assert master[i] == f;
    }
  }

  /** With one Master row per player, a salary row merges into exactly one row. */
  lemma MergeMasterRowOne(s: Salary, master: seq<FlaggedPlayer>)
    requires UniquePlayers(master)
    ensures |MergeMasterRow(s, master)| == 1
    ensures forall f :: f in master && SamePlayer(f, s) ==> MergeMasterRow(s, master)[0] == ListedOf(s, f)
    ensures (forall f :: f in master ==> !SamePlayer(f, s)) ==> MergeMasterRow(s, master)[0] == Unlisted(s)
  {
    if forall f :: f in master ==> !SamePlayer(f, s) {
      FilterKeepsNone(master, (f: FlaggedPlayer) => SamePlayer(f, s));
    } else {
      var f :| f in master && SamePlayer(f, s);
      OnlyMatch(master, s, f);
    }
  }

  /** With one Master row per player, the i-th merged row comes from the i-th salary row. */
  lemma {:induction false} MergeMasterAligned(salaries: seq<Salary>, master: seq<FlaggedPlayer>)
    requires UniquePlayers(master)
    ensures |MergeMaster(salaries, master)| == |salaries|
    ensures forall i :: 0 <= i < |salaries| ==> MergeMaster(salaries, master)[i] == MergeMasterRow(salaries[i], master)[0]
  {
    if salaries != [] {
      var init := salaries[..|salaries| - 1];
      var last := salaries[|salaries| - 1];
      var merged := MergeMaster(salaries, master);
      MergeMasterAligned(init, master);
      MergeMasterRowOne(last, master);
      assert merged == MergeMaster(init, master) + MergeMasterRow(last, master);
      forall i | 0 <= i < |salaries| ensures merged[i] == MergeMasterRow(salaries[i], master)[0] {
        if i < |init| {
          assert init[i] == salaries[i];
        }
      }
    }
  }

  /** With one Master row per player the merge is one to one: the i-th merged
      row is the i-th salary row with its player's flag and names, or with
      blanks when the player is missing from Master.csv. */
  lemma MergeMasterOneToOne(salaries: seq<Salary>, master: seq<FlaggedPlayer>)
    requires UniquePlayers(master)
    ensures |MergeMaster(salaries, master)| == |salaries|
    ensures forall i, f :: 0 <= i < |salaries| && f in master && SamePlayer(f, salaries[i]) ==>
              MergeMaster(salaries, master)[i] == ListedOf(salaries[i], f)
    ensures forall i :: 0 <= i < |salaries| && (forall f :: f in master ==> !SamePlayer(f, salaries[i])) ==>
              MergeMaster(salaries, master)[i] == Unlisted(salaries[i])
  {
    MergeMasterAligned(salaries, master);
    forall i | 0 <= i < |salaries| {
      MergeMasterRowOne(salaries[i], master);
    }
  }

  /** `str.cat(sep=' ')`: blank when either part is blank. */
  function FullName(given: Option<string>, last: Option<string>): Option<string> {
    if given.Some? && last.Some? then Some(given.value + " " + last.value) else None
  }

  /** The full name is present exactly when both parts are; it splits back
      into the given name, one space and the last name. */
  lemma FullNameSplits(given: Option<string>, last: Option<string>)
    ensures FullName(given, last).Some? <==> given.Some? && last.Some?
    ensures FullName(given, last).Some? ==>
              var n := FullName(given, last).value;
              && |n| == |given.value| + 1 + |last.value|
              && n[..|given.value|] == given.value
              && n[|given.value|] == ' '
              && n[|given.value| + 1..] == last.value
  {
  }

  /** A merged salary row with the `fullname` column of line 82. */
  datatype PaidPlayer = PaidPlayer(listed: Listed, fullname: Option<string>) {
    function Year(): int {
      listed.paid.yearID
    }

    function Pay(): int {
      listed.paid.salary
    }
  }

  /** Line 82: every merged row gains its full name. */
  function AddFullNames(rows: seq<Listed>): (r: seq<PaidPlayer>)
    ensures |r| == |rows|
    ensures forall i :: 0 <= i < |r| ==> r[i].listed == rows[i]
    ensures forall i :: 0 <= i < |r| ==>
              (r[i].fullname.Some? <==> rows[i].nameGiven.Some? && rows[i].nameLast.Some?)
    ensures forall i :: 0 <= i < |r| && r[i].fullname.Some? ==>
              r[i].fullname.value == rows[i].nameGiven.value + " " + rows[i].nameLast.value
  {
    seq(|rows|, i requires 0 <= i < |rows| => PaidPlayer(rows[i], FullName(rows[i].nameGiven, rows[i].nameLast)))
  }

  // ------------------------------------------------------------------
  // Lines 84-95: the ten best-paid players of every (season, pitcher) group.

  /** `iloc[0:10]`. */
  const TopN: nat := 10

  /** A row of topPitSal or topBatSal: the merged row, whose yearID, fullname
      and salary it shows, and its rank. */
  datatype Ranked = Ranked(row: PaidPlayer, rank: nat)

  /** The group `groupby(['yearID', 'pitcher'])` makes for a season and flag;
      rows with a blank flag are in no group. */
  function Group(rows: seq<PaidPlayer>, year: int, pitcher: bool): seq<PaidPlayer> {
    Filter(rows, (r: PaidPlayer) => r.Year() == year && r.listed.pitcher == Some(pitcher))
  }

  predicate NonIncreasing(s: seq<PaidPlayer>) {
    forall i, j :: 0 <= i < j < |s| ==> s[i].Pay() >= s[j].Pay()
  }

  /** Where `x` goes in the ordered `s`: after every row paid at least as much. */
  function Position(s: seq<PaidPlayer>, x: PaidPlayer): (k: nat)
    requires NonIncreasing(s)
    ensures k <= |s|
    ensures forall i :: 0 <= i < k ==> s[i].Pay() >= x.Pay()
    ensures forall i :: k <= i < |s| ==> s[i].Pay() < x.Pay()
  {
    if s == [] || s[0].Pay() < x.Pay() then 0 else 1 + Position(s[1..], x)
  }

  function InsertBySalary(s: seq<PaidPlayer>, x: PaidPlayer): (r: seq<PaidPlayer>)
    requires NonIncreasing(s)
    ensures NonIncreasing(r)
    ensures multiset(r) == multiset(s) + multiset{x}
  {
    var k := Position(s, x);
    assert s == s[..k] + s[k..];
    s[..k] + [x] + s[k..]
  }

  /** `sort_values(by='salary', ascending=False)`. Only the order of the
      salaries is promised: rows with equal salaries may come in any order. */
  method SortBySalaryDesc(group: seq<PaidPlayer>) returns (sorted: seq<PaidPlayer>)
    ensures NonIncreasing(sorted)
    ensures multiset(sorted) == multiset(group)
  {
    sorted := [];
    for i := 0 to |group|
      invariant NonIncreasing(sorted)
      invariant multiset(sorted) == multiset(group[..i])
    {
      assert group[..i + 1] == group[..i] + [group[i]];
      sorted := InsertBySalary(sorted, group[i]);
    }
    assert group[..|group|] == group;
  }

  /** Line 89: `np.linspace(1, n, n)` ranks the sorted rows 1..n. */
  function RankRows(sorted: seq<PaidPlayer>): seq<Ranked> {
    seq(|sorted|, i requires 0 <= i < |sorted| => Ranked(sorted[i], i + 1))
  }

  function Rows(block: seq<Ranked>): seq<PaidPlayer> {
    seq(|block|, i requires 0 <= i < |block| => block[i].row)
  }

  /** `block` is what lines 88-95 append for `group`: at most ten of its rows,
      ranked 1, 2, ... in order of non-increasing salary, and paid at least as
      much as every row of the group left out. Which of several rows with
      equal salaries are kept, and in which order, is not determined. */
  predicate IsTopBlock(group: seq<PaidPlayer>, block: seq<Ranked>) {
    var kept := Rows(block);
    && |block| == Min(TopN, |group|)
    && (forall i :: 0 <= i < |block| ==> block[i].rank == i + 1)
    && (forall i, j :: 0 <= i < j < |block| ==> block[i].row.Pay() >= block[j].row.Pay())
    && multiset(kept) <= multiset(group)
    && (forall x, i :: x in multiset(group) - multiset(kept) && 0 <= i < |block| ==>
          block[i].row.Pay() >= x.Pay())
  }

  lemma RowsOfRanked(kept: seq<PaidPlayer>)
    ensures Rows(RankRows(kept)) == kept
  {
  }

  /** In an ordered sequence, the first `m` rows are paid at least as much as the rest. */
  lemma KeptBeatDropped(sorted: seq<PaidPlayer>, m: nat)
    requires NonIncreasing(sorted) && m <= |sorted|
    ensures forall x, i :: x in multiset(sorted[m..]) && 0 <= i < m ==> sorted[i].Pay() >= x.Pay()
  {
    forall x, i | x in multiset(sorted[m..]) && 0 <= i < m ensures sorted[i].Pay() >= x.Pay() {
      var j :| 0 <= j < |sorted[m..]| && sorted[m..][j] == x;
      assert sorted[m + j] == x;
    }
  }

  /** The ranked rows are rows of the group. */
  lemma KeptInGroup(group: seq<PaidPlayer>, sorted: seq<PaidPlayer>, m: nat)
    requires multiset(sorted) == multiset(group) && m <= |sorted|
    ensures forall r :: r in RankRows(sorted[..m]) ==> r.row in group
  {
    var block := RankRows(sorted[..m]);
    forall r | r in block ensures r.row in group {
      var i :| 0 <= i < |block| && block[i] == r;
      assert sorted[i] in multiset(sorted);
    }
  }

  /** The first rows of a sorted group, ranked, are a top block of the group. */
  lemma TopOfSorted(group: seq<PaidPlayer>, sorted: seq<PaidPlayer>, m: nat)
    requires NonIncreasing(sorted) && multiset(sorted) == multiset(group)
    requires m == Min(TopN, |sorted|)
    ensures IsTopBlock(group, RankRows(sorted[..m]))
  {
    var kept := sorted[..m];
    var block := RankRows(kept);
    RowsOfRanked(kept);
    assert |group| == |multiset(group)| == |multiset(sorted)| == |sorted|;
    assert sorted == kept + sorted[m..];
    assert multiset(Rows(block)) <= multiset(group);
    assert multiset(group) - multiset(Rows(block)) == multiset(sorted[m..]);
    KeptBeatDropped(sorted, m);
    RankedOrdered(sorted, m);
  }

  lemma RankedOrdered(sorted: seq<PaidPlayer>, m: nat)
    requires NonIncreasing(sorted) && m <= |sorted|
    ensures forall i, j :: 0 <= i < j < m ==> RankRows(sorted[..m])[i].row.Pay() >= RankRows(sorted[..m])[j].row.Pay()
  {
    var block := RankRows(sorted[..m]);
    forall i, j | 0 <= i < j < m ensures block[i].row.Pay() >= block[j].row.Pay() {
      assert block[i].row == sorted[i] && block[j].row == sorted[j];
    }
  }

  /** Lines 88-92 for one group: sort, rank and keep the first ten. */
  method TopBlock(group: seq<PaidPlayer>) returns (block: seq<Ranked>)
    ensures IsTopBlock(group, block)
    ensures forall r :: r in block ==> r.row in group
  {
    var sorted := SortBySalaryDesc(group);
    var ranked := RankRows(sorted);
    block := ranked[..Min(TopN, |ranked|)];
    assert block == RankRows(sorted[..Min(TopN, |sorted|)]);
    TopOfSorted(group, sorted, Min(TopN, |sorted|));
    KeptInGroup(group, sorted, Min(TopN, |sorted|));
  }

  /** The best-paid row of a non-empty group has rank 1. */
  lemma TopBlockLeads(group: seq<PaidPlayer>, block: seq<Ranked>)
    requires IsTopBlock(group, block) && group != []
    ensures block != [] && block[0].rank == 1
    ensures forall x :: x in group ==> block[0].row.Pay() >= x.Pay()
  {
    forall x | x in group ensures block[0].row.Pay() >= x.Pay() {
      var kept := Rows(block);
      if x in multiset(kept) {
        var j :| 0 <= j < |kept| && kept[j] == x;
        assert block[j].row == x;
      } else {
        assert x in multiset(group) - multiset(kept);
      }
    }
  }

  /** The key of a group: season, then pitcher flag. */
  datatype GroupKey = GroupKey(yearID: int, pitcher: bool)

  /** The order of `groupby`'s keys: by season, then batters (False) before pitchers (True). */
  predicate Before(a: GroupKey, b: GroupKey) {
    a.yearID < b.yearID || (a.yearID == b.yearID && !a.pitcher && b.pitcher)
  }

  /** The keys of the non-empty groups of season `y`: batters, then pitchers. */
  function YearKeys(rows: seq<PaidPlayer>, y: int): seq<GroupKey> {
    (if Group(rows, y, false) != [] then [GroupKey(y, false)] else [])
    + (if Group(rows, y, true) != [] then [GroupKey(y, true)] else [])
  }

  /** The keys of the non-empty groups of seasons `years`, in visiting order. */
  function KeysOf(rows: seq<PaidPlayer>, years: seq<int>): seq<GroupKey> {
    if years == [] then []
    else KeysOf(rows, years[..|years| - 1]) + YearKeys(rows, years[|years| - 1])
  }

  /** A key is listed exactly when its season is one of `years` and its group has rows. */
  lemma {:induction false} KeysOfMembers(rows: seq<PaidPlayer>, years: seq<int>)
    ensures forall k :: k in KeysOf(rows, years) <==> k.yearID in years && Group(rows, k.yearID, k.pitcher) != []
  {
    if years != [] {
      var init := years[..|years| - 1];
      KeysOfMembers(rows, init);
      assert years == init + [years[|years| - 1]];
    }
  }

  /** For increasing seasons the keys come in visiting order. */
  lemma {:induction false} KeysOfSorted(rows: seq<PaidPlayer>, years: seq<int>)
    requires Increasing(years)
    ensures forall i, j :: 0 <= i < j < |KeysOf(rows, years)| ==> Before(KeysOf(rows, years)[i], KeysOf(rows, years)[j])
  {
    if years != [] {
      var init := years[..|years| - 1];
      var y := years[|years| - 1];
      var earlier := KeysOf(rows, init);
      var later := YearKeys(rows, y);
      KeysOfSorted(rows, init);
      KeysOfMembers(rows, init);
      assert forall k :: k in earlier ==> k.yearID < y by {
        forall k | k in earlier ensures k.yearID < y {
          var i :| 0 <= i < |init| && init[i] == k.yearID;
        }
      }
      var keys := earlier + later;
      forall i, j | 0 <= i < j < |keys| ensures Before(keys[i], keys[j]) {
        if j < |earlier| {
          assert keys[i] == earlier[i] && keys[j] == earlier[j];
        } else if i < |earlier| {
          assert keys[i] == earlier[i] && earlier[i] in earlier;
          assert keys[j] == later[j - |earlier|];
        } else {
          assert keys[i] == later[i - |earlier|] && keys[j] == later[j - |earlier|];
        }
      }
    }
  }

  function RowYears(rows: seq<PaidPlayer>): seq<int> {
    seq(|rows|, i requires 0 <= i < |rows| => rows[i].Year())
  }

  /** The groups lines 87-95 visit, in order. */
  function GroupKeys(rows: seq<PaidPlayer>): (keys: seq<GroupKey>)
    ensures forall i, j :: 0 <= i < j < |keys| ==> Before(keys[i], keys[j])
    ensures forall k :: k in keys <==> Group(rows, k.yearID, k.pitcher) != []
  {
    var years := SortedDistinct(RowYears(rows));
    assert forall k: GroupKey :: Group(rows, k.yearID, k.pitcher) != [] ==> k.yearID in years by {
      forall k: GroupKey | Group(rows, k.yearID, k.pitcher) != [] ensures k.yearID in years {
        var g := Group(rows, k.yearID, k.pitcher);
        assert g[0] in g;
        var i :| 0 <= i < |rows| && rows[i] == g[0];
        assert RowYears(rows)[i] == k.yearID;
      }
    }
    KeysOfMembers(rows, years);
    KeysOfSorted(rows, years);
    KeysOf(rows, years)
  }

  /** The rows of one season in a top table. */
  function YearBlock(t: seq<Ranked>, year: int): seq<Ranked> {
    Filter(t, (r: Ranked) => r.row.Year() == year)
  }

  /** topPitSal (flag true) or topBatSal (flag false) once the loop is over:
      rows of that role only, in season order, and for every season the top
      block of that season's group. */
  ghost predicate TopTable(rows: seq<PaidPlayer>, flag: bool, t: seq<Ranked>) {
    && (forall r :: r in t ==> r.row in rows && r.row.listed.pitcher == Some(flag))
    && (forall i, j :: 0 <= i < j < |t| ==> t[i].row.Year() <= t[j].row.Year())
    && (forall y :: IsTopBlock(Group(rows, y, flag), YearBlock(t, y)))
  }

  /** The same table after the loop has visited the groups `done`: its rows. */
  ghost predicate TopRows(rows: seq<PaidPlayer>, flag: bool, done: seq<GroupKey>, t: seq<Ranked>) {
    && (forall r :: r in t ==> r.row in rows && r.row.listed.pitcher == Some(flag) && GroupKey(r.row.Year(), flag) in done)
    && (forall i, j :: 0 <= i < j < |t| ==> t[i].row.Year() <= t[j].row.Year())
  }

  /** ... and its blocks: one for each visited group of the role. */
  ghost predicate TopBlocks(rows: seq<PaidPlayer>, flag: bool, done: seq<GroupKey>, t: seq<Ranked>) {
    && (forall y :: GroupKey(y, flag) in done ==> IsTopBlock(Group(rows, y, flag), YearBlock(t, y)))
    && (forall y :: GroupKey(y, flag) !in done ==> YearBlock(t, y) == [])
  }

  ghost predicate TopProgress(rows: seq<PaidPlayer>, flag: bool, done: seq<GroupKey>, t: seq<Ranked>) {
    TopRows(rows, flag, done, t) && TopBlocks(rows, flag, done, t)
  }

  lemma YearBlockAppend(t: seq<Ranked>, block: seq<Ranked>)
    ensures forall y :: YearBlock(t + block, y) == YearBlock(t, y) + YearBlock(block, y)
  {
    forall y ensures YearBlock(t + block, y) == YearBlock(t, y) + YearBlock(block, y) {
      FilterAppend(t, block, (r: Ranked) => r.row.Year() == y);
    }
  }

  /** A block of one season is all of that season's rows and none of another's. */
  lemma YearBlockSingle(block: seq<Ranked>, year: int)
    requires forall r :: r in block ==> r.row.Year() == year
    ensures YearBlock(block, year) == block
    ensures forall y :: y != year ==> YearBlock(block, y) == []
  {
    FilterKeepsAll(block, (r: Ranked) => r.row.Year() == year);
    forall y | y != year ensures YearBlock(block, y) == [] {
      FilterKeepsNone(block, (r: Ranked) => r.row.Year() == y);
    }
  }

  /** Appending the block of group `k`: the rows stay in season order. */
  lemma TopStepRows(rows: seq<PaidPlayer>, flag: bool, done: seq<GroupKey>, t: seq<Ranked>, k: GroupKey, block: seq<Ranked>)
    requires TopRows(rows, flag, done, t)
    requires k.pitcher == flag && forall d :: d in done ==> Before(d, k)
    requires forall r :: r in block ==> r.row in rows && r.row.Year() == k.yearID && r.row.listed.pitcher == Some(flag)
    ensures TopRows(rows, flag, done + [k], t + block)
  {
    assert forall r :: r in t ==> r.row.Year() < k.yearID by {
      forall r | r in t ensures r.row.Year() < k.yearID {
        assert Before(GroupKey(r.row.Year(), flag), k);
      }
    }
    var u := t + block;
    forall i, j | 0 <= i < j < |u| ensures u[i].row.Year() <= u[j].row.Year() {
      if i < |t| && j >= |t| {
        assert t[i] in t;
        assert block[j - |t|] in block;
      } else if i >= |t| {
        assert block[i - |t|] in block && block[j - |t|] in block;
      }
    }
  }

  /** Appending the block of group `k`: it becomes the block of its season. */
  lemma TopStepBlocks(rows: seq<PaidPlayer>, flag: bool, done: seq<GroupKey>, t: seq<Ranked>, k: GroupKey, block: seq<Ranked>)
    requires TopBlocks(rows, flag, done, t)
    requires k.pitcher == flag && k !in done
    requires IsTopBlock(Group(rows, k.yearID, flag), block)
    requires forall r :: r in block ==> r.row.Year() == k.yearID
    ensures TopBlocks(rows, flag, done + [k], t + block)
  {
    YearBlockAppend(t, block);
    YearBlockSingle(block, k.yearID);
    var u := t + block;
    forall y | GroupKey(y, flag) in done + [k] ensures IsTopBlock(Group(rows, y, flag), YearBlock(u, y)) {
      if y == k.yearID {
        assert YearBlock(t, y) == [] && [] + block == block;
        assert YearBlock(u, y) == block;
      } else {
        assert GroupKey(y, flag) in done;
        var b := YearBlock(t, y);
        assert YearBlock(block, y) == [] && b + [] == b;
        assert YearBlock(u, y) == b;
      }
    }
    forall y | GroupKey(y, flag) !in done + [k] ensures YearBlock(u, y) == [] {
      assert GroupKey(y, flag) !in done && y != k.yearID;
      assert YearBlock(u, y) == [] + [];
    }
  }

  /** Appending the block of group `k` to the table of its role. */
  lemma TopStep(rows: seq<PaidPlayer>, flag: bool, done: seq<GroupKey>, t: seq<Ranked>, k: GroupKey, block: seq<Ranked>)
    requires TopProgress(rows, flag, done, t)
    requires k.pitcher == flag && forall d :: d in done ==> Before(d, k)
    requires IsTopBlock(Group(rows, k.yearID, flag), block)
    requires forall r :: r in block ==> r.row in Group(rows, k.yearID, flag)
    ensures TopProgress(rows, flag, done + [k], t + block)
  {
    assert forall r :: r in block ==> r.row in rows && r.row.Year() == k.yearID && r.row.listed.pitcher == Some(flag);
    TopStepRows(rows, flag, done, t, k, block);
    assert k !in done;
    TopStepBlocks(rows, flag, done, t, k, block);
  }

  /** A group of the other role leaves the table as it is. */
  lemma TopSkip(rows: seq<PaidPlayer>, flag: bool, done: seq<GroupKey>, t: seq<Ranked>, k: GroupKey)
    requires TopProgress(rows, flag, done, t) && k.pitcher != flag
    ensures TopProgress(rows, flag, done + [k], t)
  {
    assert forall y :: GroupKey(y, flag) in done + [k] <==> GroupKey(y, flag) in done;
  }

  /** Once every group is visited, a season without a block has an empty group. */
  lemma TopFinish(rows: seq<PaidPlayer>, flag: bool, t: seq<Ranked>)
    requires TopProgress(rows, flag, GroupKeys(rows), t)
    ensures TopTable(rows, flag, t)
  {
    forall y ensures IsTopBlock(Group(rows, y, flag), YearBlock(t, y)) {
      if GroupKey(y, flag) !in GroupKeys(rows) {
        assert Group(rows, GroupKey(y, flag).yearID, GroupKey(y, flag).pitcher) == [];
      }
    }
  }

  /** One pass of the loop in TopSalaries: the block of group `keys[i]` goes
      to the table of its role, and the other table is left as it is. */
  lemma TopAdvance(rows: seq<PaidPlayer>, keys: seq<GroupKey>, i: nat, topPit: seq<Ranked>, topBat: seq<Ranked>, block: seq<Ranked>)
    requires i < |keys| && forall a, b :: 0 <= a < b < |keys| ==> Before(keys[a], keys[b])
    requires TopProgress(rows, true, keys[..i], topPit) && TopProgress(rows, false, keys[..i], topBat)
    requires IsTopBlock(Group(rows, keys[i].yearID, keys[i].pitcher), block)
    requires forall r :: r in block ==> r.row in Group(rows, keys[i].yearID, keys[i].pitcher)
    ensures TopProgress(rows, true, keys[..i + 1], if keys[i].pitcher then topPit + block else topPit)
    ensures TopProgress(rows, false, keys[..i + 1], if keys[i].pitcher then topBat else topBat + block)
  {
    var k := keys[i];
    assert keys[..i + 1] == keys[..i] + [k];
    assert forall d :: d in keys[..i] ==> Before(d, k) by {
      forall d | d in keys[..i] ensures Before(d, k) {
        var j :| 0 <= j < i && keys[j] == d;
      }
    }
    if k.pitcher {
      TopStep(rows, true, keys[..i], topPit, k, block);
      TopSkip(rows, false, keys[..i], topBat, k);
    } else {
      TopStep(rows, false, keys[..i], topBat, k, block);
      TopSkip(rows, true, keys[..i], topPit, k);
    }
  }

  /** Lines 85-95: visit the groups in key order; sort and rank each one and
      append its first ten rows to topPitSal or topBatSal by its flag. */
  method TopSalaries(rows: seq<PaidPlayer>) returns (topPit: seq<Ranked>, topBat: seq<Ranked>)
    ensures TopTable(rows, true, topPit)
    ensures TopTable(rows, false, topBat)
  {
    var keys := GroupKeys(rows);
    topPit := [];
    topBat := [];
    for i := 0 to |keys|
      invariant TopProgress(rows, true, keys[..i], topPit)
      invariant TopProgress(rows, false, keys[..i], topBat)
    {
      var block := TopBlock(Group(rows, keys[i].yearID, keys[i].pitcher));
      TopAdvance(rows, keys, i, topPit, topBat, block);
      if keys[i].pitcher {
        topPit := topPit + block;
      } else {
        topBat := topBat + block;
      }
    }
    assert keys[..|keys|] == keys;
    TopFinish(rows, true, topPit);
    TopFinish(rows, false, topBat);
  }

  /** Lines 79-95 from the three tables: every row of topPitSal is a salary
      row of a player who appears in Pitching.csv. */
  method TopPlayers(salaries: seq<Salary>, master: seq<Player>, pitching: seq<Performance>)
    returns (topPit: seq<Ranked>, topBat: seq<Ranked>)
    ensures var rows := AddFullNames(MergeMaster(salaries, FlagPitchers(master, pitching)));
            TopTable(rows, true, topPit) && TopTable(rows, false, topBat)
    ensures forall r :: r in topPit ==>
              r.row.listed.paid in salaries &&
              exists p :: p in pitching && p.playerID == r.row.listed.paid.playerID
  {
    var flagged := FlagPitchers(master, pitching);
    var merged := MergeMaster(salaries, flagged);
    var rows := AddFullNames(merged);
    topPit, topBat := TopSalaries(rows);
    forall r | r in topPit
      ensures r.row.listed.paid in salaries
      ensures exists p :: p in pitching && p.playerID == r.row.listed.paid.playerID
    {
      var i :| 0 <= i < |rows| && rows[i] == r.row;
      MergeMasterSound(salaries, flagged, merged[i]);
      var f :| f in flagged && SamePlayer(f, merged[i].paid) && merged[i] == ListedOf(merged[i].paid, f);
      var j :| 0 <= j < |flagged| && flagged[j] == f;
    }
  }
}

/// analysis3.py up to the regression: total hits, the string-keyed exclusion
/// of pitchers' batting rows, the join of performance in year Y with salary
/// in year Y+1, the per-opportunity rate columns and the choice of
/// regression columns by `get_formula`.
module LaggedSalary {
  import opened Tables
  import opened Lahman
  import opened Decimal

  /** The performance cells of one row, by column name. */
  type Stats = map<string, Option<real>>

  /** The cell of column `c`; a column the row lacks reads as missing. */
  function Cell(stats: Stats, c: string): Option<real> {
    if c in stats then stats[c] else None
  }

  /** The row has a cell for every listed column. */
  predicate Covers(columns: seq<string>, stats: Stats) {
    forall c :: c in columns ==> c in stats
  }

  /** A performance table as read from Batting.csv or Pitching.csv: its
      performance columns in file order, and its rows. */
  datatype PerfTable = PerfTable(columns: seq<string>, rows: seq<Performance>)

  predicate PerfWellFormed(t: PerfTable) {
    Distinct(t.columns) && forall r :: r in t.rows ==> Covers(t.columns, r.stats)
  }

  // ------------------------------------------------------------------
  // Line 17: TH = H + H2B + H3B + HR.

  /** Cell addition: missing as soon as one operand is missing (NaN). */
  function Plus(a: Option<real>, b: Option<real>): Option<real> {
    if a.Some? && b.Some? then Some(a.value + b.value) else None
  }

  /** `th` is the total of H, H2B, H3B and HR of `stats`, missing iff one of them is. */
  predicate IsTotalHits(stats: Stats, th: Option<real>) {
    && (th.Some? <==> Cell(stats, "H").Some? && Cell(stats, "H2B").Some? && Cell(stats, "H3B").Some? && Cell(stats, "HR").Some?)
    && (th.Some? ==> th.value == Cell(stats, "H").value + Cell(stats, "H2B").value + Cell(stats, "H3B").value + Cell(stats, "HR").value)
  }

  /** Line 17 on one row: the TH cell is added or overwritten, nothing else changes. */
  function WithTotalHits(stats: Stats): (r: Stats)
    ensures r.Keys == stats.Keys + {"TH"}
    ensures IsTotalHits(stats, Cell(r, "TH"))
    ensures forall c :: c != "TH" ==> Cell(r, c) == Cell(stats, c)
  {
    stats["TH" := Plus(Plus(Plus(Cell(stats, "H"), Cell(stats, "H2B")), Cell(stats, "H3B")), Cell(stats, "HR"))]
  }

  /** Line 17 on the batting table: TH is appended to the columns (or kept in
      place when already present) and every row gets its total. */
  function AddTotalHits(t: PerfTable): (r: PerfTable)
    ensures r.columns == if "TH" in t.columns then t.columns else t.columns + ["TH"]
    ensures |r.rows| == |t.rows|
    ensures forall i :: 0 <= i < |r.rows| ==>
              r.rows[i] == t.rows[i].(stats := r.rows[i].stats) && r.rows[i].stats == WithTotalHits(t.rows[i].stats)
  {
    PerfTable(
      if "TH" in t.columns then t.columns else t.columns + ["TH"],
      seq(|t.rows|, i requires 0 <= i < |t.rows| => t.rows[i].(stats := WithTotalHits(t.rows[i].stats))))
  }

  /** Adding TH keeps every column listed once and present in every row. */
  lemma TotalHitsKeepsSchema(t: PerfTable)
    requires PerfWellFormed(t)
    ensures PerfWellFormed(AddTotalHits(t))
  {
    var r := AddTotalHits(t);
    forall x | x in r.rows
      ensures Covers(r.columns, x.stats)
    {
      var i :| 0 <= i < |r.rows| && r.rows[i] == x;
      assert t.rows[i] in t.rows;
    }
  }

  // ------------------------------------------------------------------
  // Lines 20-25: the string index and the exclusion of pitchers' rows.

  /** The index of lines 20-23: str(yearID) + str(teamID) + str(playerID). */
  function RowKey(r: Performance): string {
    IntToString(r.yearID) + r.teamID + r.playerID
  }

  /** Line 25: a batting row is kept iff its index is not among the pitching
      rows' indexes. */
  function DropPitcherRows(batting: seq<Performance>, pitching: seq<Performance>): (r: seq<Performance>)
    ensures forall x :: x in r <==> x in batting && !exists p :: p in pitching && RowKey(p) == RowKey(x)
  {
    var keys := set p | p in pitching :: RowKey(p);
    Filter(batting, (b: Performance) => RowKey(b) !in keys)
  }

  predicate SameTriple(a: Performance, b: Performance) {
    a.yearID == b.yearID && a.teamID == b.teamID && a.playerID == b.playerID
  }

  /** The concatenation has no separator, so different triples can share an
      index: in any year, a batting row of player "cabreal01" for team "DET"
      is dropped by a pitching row of player "Tcabreal01" for team "DE". */
  lemma KeysCollide(year: int)
    ensures var b := Performance("cabreal01", year, 1, "DET", "AL", map[]);
            var p := Performance("Tcabreal01", year, 1, "DE", "AL", map[]);
            && !SameTriple(b, p)
            && RowKey(b) == RowKey(p)
            && DropPitcherRows([b], [p]) == []
  {
    var b := Performance("cabreal01", year, 1, "DET", "AL", map[]);
    var p := Performance("Tcabreal01", year, 1, "DE", "AL", map[]);
    var y := IntToString(year);
    assert "DET" + "cabreal01" == "DE" + "Tcabreal01";
    assert y + "DET" + "cabreal01" == y + ("DET" + "cabreal01");
    assert y + "DE" + "Tcabreal01" == y + ("DE" + "Tcabreal01");
  }

  /** When the year strings and the team ids have the same lengths, the index
      determines the triple. */
  lemma KeyDeterminesTriple(a: Performance, b: Performance)
    requires |IntToString(a.yearID)| == |IntToString(b.yearID)| && |a.teamID| == |b.teamID|
    requires RowKey(a) == RowKey(b)
    ensures SameTriple(a, b)
  {
    var ya, yb := IntToString(a.yearID), IntToString(b.yearID);
    var n, m := |ya|, |ya| + |a.teamID|;
    assert RowKey(a)[..n] == ya && RowKey(b)[..n] == yb;
    assert RowKey(a)[n..m] == a.teamID && RowKey(b)[n..m] == b.teamID;
    assert RowKey(a)[m..] == a.playerID && RowKey(b)[m..] == b.playerID;
    IntToStringInjective(a.yearID, b.yearID);
  }

  /** With fixed-width years and team ids, as in the Lahman tables (four-digit
      years, three-letter teams), line 25 drops exactly the batting rows whose
      (yearID, teamID, playerID) occurs in the pitching table. */
  lemma DropIsExactForFixedWidths(batting: seq<Performance>, pitching: seq<Performance>, yearWidth: nat, teamWidth: nat)
    requires forall r :: r in batting ==> |IntToString(r.yearID)| == yearWidth && |r.teamID| == teamWidth
    requires forall r :: r in pitching ==> |IntToString(r.yearID)| == yearWidth && |r.teamID| == teamWidth
    ensures forall x :: x in DropPitcherRows(batting, pitching) <==>
                        x in batting && !exists p :: p in pitching && SameTriple(p, x)
  {
    forall x, p | x in batting && p in pitching && RowKey(p) == RowKey(x)
      ensures SameTriple(p, x)
    {
      KeyDeterminesTriple(p, x);
    }
  }

  // ------------------------------------------------------------------
  // Lines 38-55: salary of year Y+1 joined to performance of year Y.

  /** A salary row once line 38 has added the column yearBasedOn. */
  datatype BasedSalary = BasedSalary(row: Salary, yearBasedOn: int)

  /** Line 38: a salary is attributed to the performance of the previous year. */
  function AddYearBasedOn(salaries: seq<Salary>): (r: seq<BasedSalary>)
    ensures |r| == |salaries|
    ensures forall i :: 0 <= i < |r| ==> r[i].row == salaries[i] && r[i].yearBasedOn + 1 == salaries[i].yearID
  {
    seq(|salaries|, i requires 0 <= i < |salaries| => BasedSalary(salaries[i], salaries[i].yearID - 1))
  }

  /** A row of the left merge of lines 39-44, before the rename: the
      performance year is yearID_x and the salary year yearID_y. */
  datatype Merged = Merged(
    playerID: string, yearID_x: int, stint: int, teamID: string, lgID: string, stats: Stats,
    yearID_y: Option<int>, salary: Option<int>, yearBasedOn: Option<int>)

  /** The merge keys: yearID against yearBasedOn, and team, league and player. */
  predicate LagMatches(s: BasedSalary, p: Performance) {
    s.yearBasedOn == p.yearID && s.row.teamID == p.teamID && s.row.lgID == p.lgID && s.row.playerID == p.playerID
  }

  function MergedOf(p: Performance, s: BasedSalary): Merged {
    Merged(p.playerID, p.yearID, p.stint, p.teamID, p.lgID, p.stats, Some(s.row.yearID), Some(s.row.salary), Some(s.yearBasedOn))
  }

  function Unmatched(p: Performance): Merged {
    Merged(p.playerID, p.yearID, p.stint, p.teamID, p.lgID, p.stats, None, None, None)
  }

  /** A left merge yields one row per matching salary row, or one row with
      empty salary columns when nothing matches. */
  function MergeLaggedRow(p: Performance, salaries: seq<BasedSalary>): seq<Merged> {
    var ms := Filter(salaries, (s: BasedSalary) => LagMatches(s, p));
    if ms == [] then [Unmatched(p)]
    else seq(|ms|, i requires 0 <= i < |ms| => MergedOf(p, ms[i]))
  }

  function MergeLagged(perf: seq<Performance>, salaries: seq<BasedSalary>): seq<Merged> {
    if perf == [] then []
    else MergeLagged(perf[..|perf| - 1], salaries) + MergeLaggedRow(perf[|perf| - 1], salaries)
  }

  /** A row after the rename of lines 48-49 and the drop of lines 51-52. */
  datatype Joined = Joined(
    playerID: string, pyearID: int, stint: int, teamID: string, lgID: string, stats: Stats,
    syearID: Option<int>, salary: Option<int>)

  function RenameAndDrop(m: Merged): Joined {
    Joined(m.playerID, m.yearID_x, m.stint, m.teamID, m.lgID, m.stats, m.yearID_y, m.salary)
  }

  function RenameAndDropAll(ms: seq<Merged>): seq<Joined> {
    seq(|ms|, i requires 0 <= i < |ms| => RenameAndDrop(ms[i]))
  }

  /** Lines 54-55. */
  function DropMissingSalary(rows: seq<Joined>): seq<Joined> {
    Filter(rows, (r: Joined) => r.salary.Some?)
  }

  /** Lines 38-55 for one performance table. */
  function LaggedJoin(perf: seq<Performance>, salaries: seq<Salary>): seq<Joined> {
    DropMissingSalary(RenameAndDropAll(MergeLagged(perf, AddYearBasedOn(salaries))))
  }

  /** Performance of year Y is paid by the salary of year Y+1 of the same
      team, league and player. */
  predicate PaidNextYear(s: Salary, p: Performance) {
    s.yearID == p.yearID + 1 && s.teamID == p.teamID && s.lgID == p.lgID && s.playerID == p.playerID
  }

  function JoinedOf(p: Performance, s: Salary): Joined {
    Joined(p.playerID, p.yearID, p.stint, p.teamID, p.lgID, p.stats, Some(s.yearID), Some(s.salary))
  }

  lemma MergeLaggedRowMatched(p: Performance, salaries: seq<BasedSalary>, m: Merged)
    ensures m in MergeLaggedRow(p, salaries) && m.salary.Some? <==>
              exists s :: s in salaries && LagMatches(s, p) && m == MergedOf(p, s)
  {
    var ms := Filter(salaries, (s: BasedSalary) => LagMatches(s, p));
    if ms != [] {
      if exists s :: s in salaries && LagMatches(s, p) && m == MergedOf(p, s) {
        var s :| s in salaries && LagMatches(s, p) && m == MergedOf(p, s);
        var i :| 0 <= i < |ms| && ms[i] == s;
        assert MergeLaggedRow(p, salaries)[i] == m;
      }
      if m in MergeLaggedRow(p, salaries) {
        var i :| 0 <= i < |ms| && MergeLaggedRow(p, salaries)[i] == m;
        assert ms[i] in ms;
      }
    }
  }

  /** The merged rows that carry a salary are exactly the matching pairs. */
  lemma {:induction false} MergeLaggedMatched(perf: seq<Performance>, salaries: seq<BasedSalary>, m: Merged)
    ensures m in MergeLagged(perf, salaries) && m.salary.Some? <==>
              exists p, s :: p in perf && s in salaries && LagMatches(s, p) && m == MergedOf(p, s)
  {
    if perf != [] {
      var init := perf[..|perf| - 1];
      var last := perf[|perf| - 1];
      assert perf == init + [last];
      MergeLaggedMatched(init, salaries, m);
      MergeLaggedRowMatched(last, salaries, m);
    }
  }

  /** A row survives lines 38-55 iff it pairs a performance row of year Y
      with a salary row of year Y+1 of the same team, league and player; it
      then has the performance year as pyearID, the salary year as syearID
      and a salary. */
  lemma LaggedJoinMembers(perf: seq<Performance>, salaries: seq<Salary>, x: Joined)
    ensures x in LaggedJoin(perf, salaries) <==>
              exists p, s :: p in perf && s in salaries && PaidNextYear(s, p) && x == JoinedOf(p, s)
  {
    if x in LaggedJoin(perf, salaries) {
      LaggedJoinSound(perf, salaries, x);
    }
    if exists p, s :: p in perf && s in salaries && PaidNextYear(s, p) && x == JoinedOf(p, s) {
      var p, s :| p in perf && s in salaries && PaidNextYear(s, p) && x == JoinedOf(p, s);
      LaggedJoinComplete(perf, salaries, p, s);
    }
  }

  /** Each joined row comes from a performance row and the salary of the next season. */
  lemma LaggedJoinSound(perf: seq<Performance>, salaries: seq<Salary>, x: Joined)
    requires x in LaggedJoin(perf, salaries)
    ensures exists p, s :: p in perf && s in salaries && PaidNextYear(s, p) && x == JoinedOf(p, s)
  {
    var based := AddYearBasedOn(salaries);
    var merged := MergeLagged(perf, based);
    var i :| 0 <= i < |merged| && RenameAndDrop(merged[i]) == x;
    MergeLaggedMatched(perf, based, merged[i]);
    var p, s :| p in perf && s in based && LagMatches(s, p) && merged[i] == MergedOf(p, s);
    var j :| 0 <= j < |based| && based[j] == s;
    assert salaries[j] in salaries && PaidNextYear(salaries[j], p);
  }

  /** Each performance row paired with the salary of the next season is in the join. */
  lemma LaggedJoinComplete(perf: seq<Performance>, salaries: seq<Salary>, p: Performance, s: Salary)
    requires p in perf && s in salaries && PaidNextYear(s, p)
    ensures JoinedOf(p, s) in LaggedJoin(perf, salaries)
  {
    var based := AddYearBasedOn(salaries);
    var merged := MergeLagged(perf, based);
    var j :| 0 <= j < |salaries| && salaries[j] == s;
    assert based[j] in based && LagMatches(based[j], p);
    MergeLaggedMatched(perf, based, MergedOf(p, based[j]));
    var i :| 0 <= i < |merged| && merged[i] == MergedOf(p, based[j]);
    assert RenameAndDropAll(merged)[i] == JoinedOf(p, s);
  }

  /** Every surviving row has a salary, and its salary year follows its
      performance year. */
  lemma LaggedJoinShape(perf: seq<Performance>, salaries: seq<Salary>)
    ensures forall x :: x in LaggedJoin(perf, salaries) ==>
              x.salary.Some? && x.syearID == Some(x.pyearID + 1)
  {
    forall x | x in LaggedJoin(perf, salaries)
      ensures x.salary.Some? && x.syearID == Some(x.pyearID + 1)
    {
      LaggedJoinMembers(perf, salaries, x);
    }
  }

  // ------------------------------------------------------------------
  // Lines 64-79: rate columns; lines 152-176: get_formula.

  /** The performance columns of a joined table in order, and its rows. */
  datatype Table = Table(columns: seq<string>, rows: seq<Joined>)

  predicate WellFormed(t: Table) {
    Distinct(t.columns) && forall k :: 0 <= k < |t.rows| ==> Covers(t.columns, t.rows[k].stats)
  }

  /** `col / denom`, then 0 wherever the denominator is 0 (lines 70-71, 78-79). */
  function Rate(v: Option<real>, d: Option<real>): (r: Option<real>)
    ensures d == Some(0.0) ==> r == Some(0.0)
    ensures d != Some(0.0) ==> (r.Some? <==> v.Some? && d.Some?)
    ensures d != Some(0.0) && r.Some? ==> r.value * d.value == v.value
  {
    if d == Some(0.0) then Some(0.0)
    else if v.Some? && d.Some? then Some(v.value / d.value)
    else None
  }

  function RateName(c: string): string {
    c + "r"
  }

  /** One pass of the loop body: the denominator column is skipped. */
  function RateStep(t: Table, c: string, denom: string): Table {
    if c == denom then t
    else
      Table(
        if RateName(c) in t.columns then t.columns else t.columns + [RateName(c)],
        seq(|t.rows|, k requires 0 <= k < |t.rows| =>
          t.rows[k].(stats := t.rows[k].stats[RateName(c) := Rate(Cell(t.rows[k].stats, c), Cell(t.rows[k].stats, denom))])))
  }

  /** The loop over the column list `cs`, fixed before the loop starts. */
  function AddRates(t: Table, cs: seq<string>, denom: string): Table {
    if cs == [] then t else RateStep(AddRates(t, cs[..|cs| - 1], denom), cs[|cs| - 1], denom)
  }

  /** The names of the rate columns the loop appends. */
  function RateNames(cs: seq<string>, denom: string): seq<string> {
    if cs == [] then []
    else RateNames(cs[..|cs| - 1], denom) + (if cs[|cs| - 1] == denom then [] else [RateName(cs[|cs| - 1])])
  }

  /** No column name is another column's rate name. */
  predicate NoRateClash(columns: seq<string>) {
    forall c :: c in columns ==> RateName(c) !in columns
  }

  lemma RateNameInjective(a: string, b: string)
    requires RateName(a) == RateName(b)
    ensures a == b
  {
    assert a == RateName(a)[..|a|];
    assert b == RateName(b)[..|b|];
  }

  lemma {:induction false} RateNamesMembers(cs: seq<string>, denom: string)
    ensures forall n :: n in RateNames(cs, denom) <==> exists c :: c in cs && c != denom && n == RateName(c)
  {
    if cs != [] {
      var init := cs[..|cs| - 1];
      assert cs == init + [cs[|cs| - 1]];
      RateNamesMembers(init, denom);
    }
  }

  /** The loop keeps every row with a cell for every listed column, and no
      column listed twice. */
  lemma {:induction false} AddRatesWellFormed(t: Table, cs: seq<string>, denom: string)
    requires WellFormed(t)
    ensures WellFormed(AddRates(t, cs, denom))
    ensures |AddRates(t, cs, denom).rows| == |t.rows|
  {
    if cs != [] {
      var init := cs[..|cs| - 1];
      AddRatesWellFormed(t, init, denom);
      var s := AddRates(t, init, denom);
      var c := cs[|cs| - 1];
      if c != denom {
        var r := RateStep(s, c, denom);
        forall k | 0 <= k < |r.rows|
          ensures Covers(r.columns, r.rows[k].stats)
        {
          assert Covers(s.columns, s.rows[k].stats);
        }
      }
    }
  }

  /** Removing the last element keeps a sequence free of repeats, and the
      last element does not occur before it. */
  lemma DistinctInit<T>(cs: seq<T>)
    requires Distinct(cs) && cs != []
    ensures Distinct(cs[..|cs| - 1]) && cs[|cs| - 1] !in cs[..|cs| - 1]
  {
    var init := cs[..|cs| - 1];
    forall i | 0 <= i < |init|
      ensures init[i] != cs[|cs| - 1]
    {
      assert init[i] == cs[i];
    }
  }

  /** The rate loop keeps the rows, in order, with their key fields. */
  lemma {:induction false} AddRatesKeepsKeys(t: Table, cs: seq<string>, denom: string)
    ensures |AddRates(t, cs, denom).rows| == |t.rows|
    ensures forall k :: 0 <= k < |t.rows| ==>
              AddRates(t, cs, denom).rows[k] == t.rows[k].(stats := AddRates(t, cs, denom).rows[k].stats)
  {
    if cs != [] {
      AddRatesKeepsKeys(t, cs[..|cs| - 1], denom);
    }
  }

  /** The rate columns of the listed columns other than the denominator are
      appended in order, each once. */
  lemma {:induction false} AddRatesColumns(t: Table, cs: seq<string>, denom: string)
    requires NoRateClash(t.columns) && Distinct(cs) && forall c :: c in cs ==> c in t.columns
    ensures AddRates(t, cs, denom).columns == t.columns + RateNames(cs, denom)
  {
    if cs != [] {
      var init := cs[..|cs| - 1];
      var c := cs[|cs| - 1];
      DistinctInit(cs);
      assert forall x :: x in init ==> x in cs;
      AddRatesColumns(t, init, denom);
      if c != denom {
        RateNamesMembers(init, denom);
        assert c in cs;
        assert RateName(c) !in RateNames(init, denom) by {
          if RateName(c) in RateNames(init, denom) {
            var c' :| c' in init && c' != denom && RateName(c) == RateName(c');
            RateNameInjective(c, c');
          }
        }
      }
    }
  }

  /** The cells of the original columns are never overwritten. */
  lemma {:induction false} AddRatesKeepsOriginals(t: Table, cs: seq<string>, denom: string)
    requires NoRateClash(t.columns) && forall c :: c in cs ==> c in t.columns
    ensures |AddRates(t, cs, denom).rows| == |t.rows|
    ensures forall k, c :: 0 <= k < |t.rows| && c in t.columns ==>
              Cell(AddRates(t, cs, denom).rows[k].stats, c) == Cell(t.rows[k].stats, c)
  {
    if cs != [] {
      var init := cs[..|cs| - 1];
      var c := cs[|cs| - 1];
      assert forall x :: x in init ==> x in cs;
      AddRatesKeepsOriginals(t, init, denom);
      assert c in cs && RateName(c) !in t.columns;
    }
  }

  /** Each rate cell holds the zero-guarded quotient of the original cells. */
  lemma {:induction false} AddRatesValues(t: Table, cs: seq<string>, denom: string)
    requires NoRateClash(t.columns) && denom in t.columns && forall c :: c in cs ==> c in t.columns
    ensures |AddRates(t, cs, denom).rows| == |t.rows|
    ensures forall k, c :: 0 <= k < |t.rows| && c in cs && c != denom ==>
              Cell(AddRates(t, cs, denom).rows[k].stats, RateName(c)) == Rate(Cell(t.rows[k].stats, c), Cell(t.rows[k].stats, denom))
  {
    if cs != [] {
      var init := cs[..|cs| - 1];
      var c := cs[|cs| - 1];
      assert cs == init + [c];
      assert forall x :: x in init ==> x in cs;
      AddRatesValues(t, init, denom);
      AddRatesKeepsOriginals(t, init, denom);
      if c != denom {
        var s := AddRates(t, init, denom);
        forall k, c2 | 0 <= k < |t.rows| && c2 in cs && c2 != denom
          ensures Cell(AddRates(t, cs, denom).rows[k].stats, RateName(c2)) == Rate(Cell(t.rows[k].stats, c2), Cell(t.rows[k].stats, denom))
        {
          if c2 != c && RateName(c2) == RateName(c) {
            RateNameInjective(c2, c);
          }
        }
      }
    }
  }

  /** What the rate loop computes, in closed form: the rate columns of the
      listed columns other than the denominator are appended in order; each
      holds the zero-guarded quotient of the original cells; the original
      columns and the key fields are untouched. */
  lemma AddRatesClosedForm(t: Table, cs: seq<string>, denom: string)
    requires NoRateClash(t.columns) && denom in t.columns
    requires Distinct(cs) && forall c :: c in cs ==> c in t.columns
    ensures AddRates(t, cs, denom).columns == t.columns + RateNames(cs, denom)
    ensures |AddRates(t, cs, denom).rows| == |t.rows|
    ensures forall k :: 0 <= k < |t.rows| ==>
              AddRates(t, cs, denom).rows[k] == t.rows[k].(stats := AddRates(t, cs, denom).rows[k].stats)
    ensures forall k, c :: 0 <= k < |t.rows| && c in t.columns ==>
              Cell(AddRates(t, cs, denom).rows[k].stats, c) == Cell(t.rows[k].stats, c)
    ensures forall k, c :: 0 <= k < |t.rows| && c in cs && c != denom ==>
              Cell(AddRates(t, cs, denom).rows[k].stats, RateName(c)) == Rate(Cell(t.rows[k].stats, c), Cell(t.rows[k].stats, denom))
  {
    AddRatesKeepsKeys(t, cs, denom);
    AddRatesColumns(t, cs, denom);
    AddRatesKeepsOriginals(t, cs, denom);
    AddRatesValues(t, cs, denom);
  }

  /** The cells of column `c`, row by row. */
  function Column(rows: seq<Joined>, c: string): seq<Option<real>> {
    seq(|rows|, k requires 0 <= k < |rows| => Cell(rows[k].stats, c))
  }

  /** `sum(col.isnull())`. */
  function Nulls(col: seq<Option<real>>): (n: nat)
    ensures n <= |col|
  {
    if col == [] then 0 else Nulls(col[..|col| - 1]) + (if col[|col| - 1].None? then 1 else 0)
  }

  /** The sum of the present cells. */
  function Total(col: seq<Option<real>>): real {
    if col == [] then 0.0 else Total(col[..|col| - 1]) + col[|col| - 1].GetOr(0.0)
  }

  /** `col.mean()`: the mean of the present cells. */
  function Mean(col: seq<Option<real>>): real
    requires Nulls(col) < |col|
  {
    Total(col) / ((|col| - Nulls(col)) as real)
  }

  /** Lines 162-163: a column enters the formula iff it has no nulls or more
      than half of its cells (rounded down, Python 2 division) are present. */
  predicate Selected(col: seq<Option<real>>) {
    Nulls(col) == 0 || |col| - Nulls(col) > |col| / 2
  }

  /** Nulls(col) == 0 says exactly that every cell is present. */
  lemma {:induction false} NoNulls(col: seq<Option<real>>)
    ensures Nulls(col) == 0 <==> forall k :: 0 <= k < |col| ==> col[k].Some?
  {
    if col != [] {
      var init := col[..|col| - 1];
      NoNulls(init);
      if Nulls(col) == 0 {
        forall k | 0 <= k < |col|
          ensures col[k].Some?
        {
          if k < |col| - 1 {
            assert col[k] == init[k];
          }
        }
      }
      if forall k :: 0 <= k < |col| ==> col[k].Some? {
        forall k | 0 <= k < |init|
          ensures init[k].Some?
        {
          assert init[k] == col[k];
        }
      }
    }
  }

  /** Line 166: every null cell of `c` becomes `v`. */
  function FillColumn(rows: seq<Joined>, c: string, v: real): seq<Joined> {
    seq(|rows|, k requires 0 <= k < |rows| =>
      if Cell(rows[k].stats, c).None? then rows[k].(stats := rows[k].stats[c := Some(v)]) else rows[k])
  }

  /** The table after the loop body has handled column `c`. */
  function ImputeStep(rows: seq<Joined>, c: string): seq<Joined> {
    var col := Column(rows, c);
    if Nulls(col) > 0 && |col| - Nulls(col) > |col| / 2 then FillColumn(rows, c, Mean(col)) else rows
  }

  function Imputed(rows: seq<Joined>, cs: seq<string>): seq<Joined> {
    if cs == [] then rows else ImputeStep(Imputed(rows, cs[..|cs| - 1]), cs[|cs| - 1])
  }

  /** Lines 167-170: the first column starts the formula, later ones follow " + ". */
  function AppendTerm(formula: string, c: string): string {
    if formula == "" then c else formula + " + " + c
  }

  function Terms(cs: seq<string>): string {
    if cs == [] then "" else AppendTerm(Terms(cs[..|cs| - 1]), cs[|cs| - 1])
  }

  /** The columns of `cs` that enter the formula, in column order. */
  function SelectedColumns(rows: seq<Joined>, cs: seq<string>): seq<string> {
    Filter(cs, (c: string) => Selected(Column(rows, c)))
  }

  /** The joined strings with `sep` between consecutive ones. */
  function Join(parts: seq<string>, sep: string): string {
    if |parts| == 0 then ""
    else if |parts| == 1 then parts[0]
    else Join(parts[..|parts| - 1], sep) + sep + parts[|parts| - 1]
  }

  lemma {:induction false} JoinNonEmpty(parts: seq<string>, sep: string)
    requires |parts| > 0 && forall c :: c in parts ==> c != ""
    ensures Join(parts, sep) != ""
  {
    if |parts| > 1 {
      var init := parts[..|parts| - 1];
      assert forall c :: c in init ==> c in parts;
      JoinNonEmpty(init, sep);
    } else {
      assert parts[0] in parts;
    }
  }

  /** With non-empty column names, the accumulated formula is the " + "-join
      of the columns. */
  lemma {:induction false} TermsAreJoin(cs: seq<string>)
    requires forall c :: c in cs ==> c != ""
    ensures Terms(cs) == Join(cs, " + ")
  {
    if cs != [] {
      var init := cs[..|cs| - 1];
      assert forall c :: c in init ==> c in cs;
      TermsAreJoin(init);
      if init != [] {
        JoinNonEmpty(init, " + ");
      }
    }
  }

  /** get_formula's result for `rows`: "salary ~ " followed by the selected
      columns, in column order, separated by " + ". */
  function Formula(rows: seq<Joined>, cs: seq<string>): string {
    "salary ~ " + Terms(SelectedColumns(rows, cs))
  }

  lemma FormulaIsJoin(rows: seq<Joined>, cs: seq<string>)
    requires forall c :: c in cs ==> c != ""
    ensures Formula(rows, cs) == "salary ~ " + Join(SelectedColumns(rows, cs), " + ")
    ensures forall c :: c in SelectedColumns(rows, cs) <==> c in cs && Selected(Column(rows, c))
  {
    TermsAreJoin(SelectedColumns(rows, cs));
  }

  /** Filling other columns leaves column `c` as it was. */
  lemma {:induction false} ImputedKeepsOthers(rows: seq<Joined>, cs: seq<string>, c: string)
    requires c !in cs
    ensures |Imputed(rows, cs)| == |rows|
    ensures Column(Imputed(rows, cs), c) == Column(rows, c)
  {
    if cs != [] {
      var init := cs[..|cs| - 1];
      assert forall x :: x in init ==> x in cs;
      ImputedKeepsOthers(rows, init, c);
      var s := Imputed(rows, init);
      var last := cs[|cs| - 1];
      assert last != c;
      var col := Column(s, last);
      if Nulls(col) > 0 && |col| - Nulls(col) > |col| / 2 {
        var f := FillColumn(s, last, Mean(col));
        assert Column(f, c) == Column(s, c);
      }
    }
  }

  /** Filling column `c` leaves it without nulls, keeps its present cells
      and every other column, and keeps every row's cells. */
  lemma FillColumnEffect(rows: seq<Joined>, c: string, v: real)
    ensures |FillColumn(rows, c, v)| == |rows|
    ensures Nulls(Column(FillColumn(rows, c, v), c)) == 0
    ensures forall c2 :: c2 != c ==> Column(FillColumn(rows, c, v), c2) == Column(rows, c2)
    ensures forall k, c2 :: 0 <= k < |rows| && Cell(rows[k].stats, c2).Some? ==>
              Cell(FillColumn(rows, c, v)[k].stats, c2) == Cell(rows[k].stats, c2)
    ensures forall k :: 0 <= k < |rows| ==> rows[k].stats.Keys <= FillColumn(rows, c, v)[k].stats.Keys
  {
    NoNulls(Column(FillColumn(rows, c, v), c));
  }

  /** The selection decision of one pass, and its rows. */
  lemma {:induction false} SelectedStep(rows: seq<Joined>, cs: seq<string>, c: string)
    ensures SelectedColumns(rows, cs + [c]) ==
              SelectedColumns(rows, cs) + (if Selected(Column(rows, c)) then [c] else [])
  {
    var p := (x: string) => Selected(Column(rows, x));
    FilterAppend(cs, [c], p);
    assert [c][..0] == [];
  }

  /** One more pass keeps every selected column free of nulls: the new
      column is either already complete or filled, and the earlier columns
      are not touched again. */
  lemma ImputedSelectedStep(rows: seq<Joined>, init: seq<string>, last: string)
    requires last !in init
    requires |Imputed(rows, init)| == |rows|
    requires forall c :: c in SelectedColumns(rows, init) ==> Nulls(Column(Imputed(rows, init), c)) == 0
    ensures |Imputed(rows, init + [last])| == |rows|
    ensures forall c :: c in SelectedColumns(rows, init + [last]) ==> Nulls(Column(Imputed(rows, init + [last]), c)) == 0
  {
    assert (init + [last])[..|init|] == init;
    ImputedKeepsOthers(rows, init, last);
    SelectedStep(rows, init, last);
    var s := Imputed(rows, init);
    var col := Column(s, last);
    if Nulls(col) > 0 && |col| - Nulls(col) > |col| / 2 {
      FillColumnEffect(s, last, Mean(col));
    }
  }

  /** After get_formula, every selected column is free of nulls. */
  lemma {:induction false} ImputedSelectedHasNoNulls(rows: seq<Joined>, cs: seq<string>)
    requires Distinct(cs)
    ensures |Imputed(rows, cs)| == |rows|
    ensures forall c :: c in SelectedColumns(rows, cs) ==> Nulls(Column(Imputed(rows, cs), c)) == 0
  {
    if cs != [] {
      var init := cs[..|cs| - 1];
      var last := cs[|cs| - 1];
      assert cs == init + [last];
      DistinctInit(cs);
      ImputedSelectedHasNoNulls(rows, init);
      ImputedSelectedStep(rows, init, last);
    }
  }

  /** After get_formula, the cells that were present are unchanged: only
      nulls are filled. */
  lemma {:induction false} ImputedKeepsPresent(rows: seq<Joined>, cs: seq<string>)
    ensures |Imputed(rows, cs)| == |rows|
    ensures forall c, k :: 0 <= k < |rows| && Cell(rows[k].stats, c).Some? ==>
              Cell(Imputed(rows, cs)[k].stats, c) == Cell(rows[k].stats, c)
  {
    if cs != [] {
      var init := cs[..|cs| - 1];
      var last := cs[|cs| - 1];
      ImputedKeepsPresent(rows, init);
      var s := Imputed(rows, init);
      var col := Column(s, last);
      if Nulls(col) > 0 && |col| - Nulls(col) > |col| / 2 {
        FillColumnEffect(s, last, Mean(col));
      }
    }
  }

  lemma TermsAppend(cs: seq<string>, c: string)
    ensures Terms(cs + [c]) == AppendTerm(Terms(cs), c)
  {
    assert (cs + [c])[..|cs|] == cs;
  }

  /** One pass of get_formula's loop extends the formula by column `cols[i]`
      exactly when that column is selected. */
  lemma TermsStep(rows: seq<Joined>, cols: seq<string>, i: nat)
    requires i < |cols|
    ensures Terms(SelectedColumns(rows, cols[..i + 1])) ==
              if Selected(Column(rows, cols[i])) then AppendTerm(Terms(SelectedColumns(rows, cols[..i])), cols[i])
              else Terms(SelectedColumns(rows, cols[..i]))
  {
    assert cols[..i + 1] == cols[..i] + [cols[i]];
    SelectedStep(rows, cols[..i], cols[i]);
    TermsAppend(SelectedColumns(rows, cols[..i]), cols[i]);
  }

  /** The column a pass of get_formula's loop reads has not been touched by
      the earlier passes. */
  lemma ImputeStepReadsOriginal(rows: seq<Joined>, cols: seq<string>, i: nat)
    requires Distinct(cols) && i < |cols|
    ensures Column(Imputed(rows, cols[..i]), cols[i]) == Column(rows, cols[i])
    ensures Imputed(rows, cols[..i + 1]) == ImputeStep(Imputed(rows, cols[..i]), cols[i])
  {
    var c := cols[i];
    var init := cols[..i];
    assert cols[..i + 1][..i] == init;
    assert c !in init by {
      forall j | 0 <= j < i
        ensures init[j] != c
      {
        assert init[j] == cols[j];
      }
    }
    ImputedKeepsOthers(rows, init, c);
  }

  /** The state of get_formula's loop after the first `i` columns: the table
      with those columns filled and the formula built from them. */
  predicate FormulaProgress(rows: seq<Joined>, cols: seq<string>, i: nat, table: seq<Joined>, terms: string) {
    && i <= |cols|
    && WellFormed(Table(cols, table))
    && table == Imputed(rows, cols[..i])
    && terms == Terms(SelectedColumns(rows, cols[..i]))
  }

  /** What the loop body of lines 162-175 does with column `c`. */
  predicate PassDone(current: seq<Joined>, c: string, terms: string, next: seq<Joined>, nextTerms: string) {
    var col := Column(current, c);
    if Nulls(col) > 0 then
      if |current| - Nulls(col) > |current| / 2
      then next == FillColumn(current, c, Mean(col)) && nextTerms == AppendTerm(terms, c)
      else next == current && nextTerms == terms
    else next == current && nextTerms == AppendTerm(terms, c)
  }

  /** One pass of get_formula's loop takes the table and the formula for the
      first `i` columns to those for the first `i + 1`. */
  lemma GetFormulaPass(rows: seq<Joined>, cols: seq<string>, i: nat, current: seq<Joined>, terms: string,
                       next: seq<Joined>, nextTerms: string)
    requires FormulaProgress(rows, cols, i, current, terms) && i < |cols|
    requires PassDone(current, cols[i], terms, next, nextTerms)
    ensures FormulaProgress(rows, cols, i + 1, next, nextTerms)
  {
    ImputeStepReadsOriginal(rows, cols, i);
    TermsStep(rows, cols, i);
    ImputeStepCovers(current, cols[i], cols);
  }

  /** After the last column the loop state is get_formula's result. */
  lemma FormulaFinished(rows: seq<Joined>, cols: seq<string>, table: seq<Joined>, terms: string)
    requires FormulaProgress(rows, cols, |cols|, table, terms)
    ensures WellFormed(Table(cols, table))
    ensures table == Imputed(rows, cols)
    ensures "salary ~ " + terms == Formula(rows, cols)
  {
    assert cols[..|cols|] == cols;
  }

  /** One pass of get_formula keeps a cell for every column in every row. */
  lemma ImputeStepCovers(rows: seq<Joined>, c: string, cols: seq<string>)
    requires WellFormed(Table(cols, rows))
    ensures WellFormed(Table(cols, ImputeStep(rows, c)))
  {
    var col := Column(rows, c);
    if Nulls(col) > 0 && |col| - Nulls(col) > |col| / 2 {
      FillColumnEffect(rows, c, Mean(col));
    }
  }

  /** A performance table that lines 38-55 have joined to salaries. */
  class Frame {
    var columns: seq<string>
    var rows: seq<Joined>

    ghost predicate Valid()
      reads this
    {
      WellFormed(Table(columns, rows))
    }

    function View(): Table
      reads this
    {
      Table(columns, rows)
    }

    constructor (t: Table)
      requires WellFormed(t)
      ensures Valid() && View() == t
    {
      columns := t.columns;
      rows := t.rows;
    }

    /** The loops of lines 66-71 (denominator G) and 74-79 (denominator AB):
        a rate column for every performance column present when the loop
        starts, except the denominator. */
    method AddRateColumns(denom: string)
      requires Valid()
      modifies this
      ensures Valid()
      ensures View() == AddRates(old(View()), old(columns), denom)
    {
      var cols := columns;
      ghost var start := View();
      var i := 0;
      while i < |cols|
        invariant 0 <= i <= |cols|
        invariant View() == AddRates(start, cols[..i], denom)
        invariant Valid()
      {
        var c := cols[i];
        if c != denom {
          var rateName := RateName(c);
          var current := rows;
          rows := seq(|current|, k requires 0 <= k < |current| =>
            current[k].(stats := current[k].stats[rateName := Rate(Cell(current[k].stats, c), Cell(current[k].stats, denom))]));
          if rateName !in columns {
            columns := columns + [rateName];
          }
        }
        assert cols[..i + 1][..i] == cols[..i];
        AddRatesWellFormed(start, cols[..i + 1], denom);
        i := i + 1;
      }
      assert cols[..i] == cols;
    }

    /** get_formula (lines 152-176) on this frame: the formula names the
        selected columns in order, and the nulls of each selected column are
        replaced in place by the column's mean. */
    method GetFormula() returns (formula: string)
      requires Valid()
      modifies this
      ensures Valid() && columns == old(columns)
      ensures formula == Formula(old(rows), old(columns))
      ensures rows == Imputed(old(rows), old(columns))
    {
      var cols := columns;
      var table := rows;
      var terms := "";
      var i := 0;
      assert cols[..0] == [];
      while i < |cols|
        invariant columns == cols && rows == old(rows)
        invariant FormulaProgress(rows, cols, i, table, terms)
      {
        var c := cols[i];
        var current := table;
        var before := terms;
        var col := Column(current, c);
        var nulls := Nulls(col);
        if nulls > 0 {
          if |current| - nulls > |current| / 2 {
            table := FillColumn(current, c, Mean(col));
            terms := AppendTerm(terms, c);
          }
        } else {
          terms := AppendTerm(terms, c);
        }
        GetFormulaPass(rows, cols, i, current, before, table, terms);
        i := i + 1;
      }
      FormulaFinished(old(rows), cols, table, terms);
      rows := table;
      formula := "salary ~ " + terms;
    }
  }

  /** Lines 15-79 in order: total hits, the exclusion of pitchers' batting
      rows, the lagged salary join of both tables and their rate columns. */
  method PrepareFrames(pitching: PerfTable, batting: PerfTable, salaries: seq<Salary>)
    returns (pit: Frame, bat: Frame)
    requires PerfWellFormed(pitching) && PerfWellFormed(batting)
    ensures fresh(pit) && fresh(bat) && pit.Valid() && bat.Valid()
    ensures pit.View() == AddRates(Table(pitching.columns, LaggedJoin(pitching.rows, salaries)), pitching.columns, "G")
    ensures var b := AddTotalHits(batting);
            bat.View() == AddRates(Table(b.columns, LaggedJoin(DropPitcherRows(b.rows, pitching.rows), salaries)), b.columns, "AB")
  {
    var b := AddTotalHits(batting);
    TotalHitsKeepsSchema(batting);
    var kept := DropPitcherRows(b.rows, pitching.rows);
    JoinedCovers(pitching.rows, salaries, pitching.columns);
    JoinedCovers(kept, salaries, b.columns);
    pit := new Frame(Table(pitching.columns, LaggedJoin(pitching.rows, salaries)));
    pit.AddRateColumns("G");
    bat := new Frame(Table(b.columns, LaggedJoin(kept, salaries)));
    bat.AddRateColumns("AB");
  }

  /** The joined rows carry the performance cells of their performance row,
      so they have a cell for every column the performance rows have. */
  lemma JoinedCovers(perf: seq<Performance>, salaries: seq<Salary>, columns: seq<string>)
    requires forall r :: r in perf ==> Covers(columns, r.stats)
    ensures forall k :: 0 <= k < |LaggedJoin(perf, salaries)| ==>
              exists p :: p in perf && LaggedJoin(perf, salaries)[k].stats == p.stats
                          && LaggedJoin(perf, salaries)[k].playerID == p.playerID
                          && LaggedJoin(perf, salaries)[k].pyearID == p.yearID
    ensures forall k :: 0 <= k < |LaggedJoin(perf, salaries)| ==> Covers(columns, LaggedJoin(perf, salaries)[k].stats)
  {
    var joined := LaggedJoin(perf, salaries);
    forall k | 0 <= k < |joined|
      ensures exists p :: p in perf && joined[k].stats == p.stats && joined[k].playerID == p.playerID && joined[k].pyearID == p.yearID
      ensures Covers(columns, joined[k].stats)
    {
      LaggedJoinSound(perf, salaries, joined[k]);
      var p, s :| p in perf && s in salaries && PaidNextYear(s, p) && joined[k] == JoinedOf(p, s);
    }
  }
}

/// analysis.py: the batting table is cleaned, restricted and joined to
/// salaries (lines 14-28), then the weighted on-base average (wOBA) is
/// computed season by season with that season's linear weights (lines 51-92)
/// and merged back onto the batting rows (line 95).
module Woba {
  import opened Tables
  import opened Lahman

  /** The first season Salaries.csv covers (analysis.py:21-22). */
  const FirstSalaryYear: int := 1985

  /** A row of Batting.csv as analysis.py reads it; blank counts are None. */
  datatype Batting = Batting(
    playerID: string, yearID: int, stint: int, teamID: string,
    G: Option<int>, AB: Option<int>, H: Option<int>, H2B: Option<int>, H3B: Option<int>,
    HR: Option<int>, BB: Option<int>, IBB: Option<int>, HBP: Option<int>, SF: Option<int>)

  /** A batting row after `fillna(0)`, with the derived unintentional walks `uBB`. */
  datatype CleanBatting = CleanBatting(
    playerID: string, yearID: int, stint: int, teamID: string,
    G: int, AB: int, H: int, H2B: int, H3B: int, HR: int,
    BB: int, IBB: int, HBP: int, SF: int, uBB: int)

  /** One season of linear weights from the FanGraphs leaderboard. */
  datatype Factor = Factor(season: int, wBB: real, wHBP: real, w1B: real, w2B: real, w3B: real, wHR: real)

  /** A cleaned batting row with the salary column the left merge adds. */
  datatype SalariedBatting = SalariedBatting(batting: CleanBatting, salary: Option<int>)

  /** The merge key (playerID, yearID, stint) of the wOBA table. */
  datatype Key = Key(playerID: string, yearID: int, stint: int)

  /** A row of the wOBA table; None where the division has no finite value. */
  datatype WobaRow = WobaRow(key: Key, wOBA: Option<real>)

  /** A batting row with the wOBA column merged back. */
  datatype BattingWoba = BattingWoba(row: SalariedBatting, wOBA: Option<real>)

  /** getwOBA raises when a season's factor rows cannot be broadcast against
      its batting rows; the merge of line 95 raises when the loop never ran,
      because the empty wOBA frame has none of the key columns. */
  datatype WobaError =
    | FactorShape(season: int, factorRows: nat, battingRows: nat)
    | NoMergeKeys

  // ------------------------------------------------------------------
  // Lines 14-15: fillna(0), then uBB = BB - IBB.

  predicate ZeroFilled(cell: Option<int>, v: int) {
    if cell.Some? then v == cell.value else v == 0
  }

  /** `c` is `b` with every blank count read as 0 and the key columns unchanged. */
  predicate Coalesced(b: Batting, c: CleanBatting) {
    && c.playerID == b.playerID && c.yearID == b.yearID && c.stint == b.stint && c.teamID == b.teamID
    && ZeroFilled(b.G, c.G) && ZeroFilled(b.AB, c.AB) && ZeroFilled(b.H, c.H)
    && ZeroFilled(b.H2B, c.H2B) && ZeroFilled(b.H3B, c.H3B) && ZeroFilled(b.HR, c.HR)
    && ZeroFilled(b.BB, c.BB) && ZeroFilled(b.IBB, c.IBB) && ZeroFilled(b.HBP, c.HBP)
    && ZeroFilled(b.SF, c.SF)
  }

  function Fill(b: Batting): CleanBatting {
    var bb := b.BB.GetOr(0);
    var ibb := b.IBB.GetOr(0);
    CleanBatting(b.playerID, b.yearID, b.stint, b.teamID,
                 b.G.GetOr(0), b.AB.GetOr(0), b.H.GetOr(0), b.H2B.GetOr(0), b.H3B.GetOr(0),
                 b.HR.GetOr(0), bb, ibb, b.HBP.GetOr(0), b.SF.GetOr(0), bb - ibb)
  }

  function FillNulls(rows: seq<Batting>): (r: seq<CleanBatting>)
    ensures |r| == |rows|
    ensures forall i :: 0 <= i < |r| ==> Coalesced(rows[i], r[i]) && r[i].uBB == r[i].BB - r[i].IBB
  {
    seq(|rows|, i requires 0 <= i < |rows| => Fill(rows[i]))
  }

  // ------------------------------------------------------------------
  // Lines 18, 20, 22: row selection.

  /** Line 18 keeps the rows of players who appear in Pitching.csv: `isin`
      without a negation, although the comment above it says "Remove pitchers". */
  function KeepPitchers(rows: seq<CleanBatting>, pitcherIDs: set<string>): (r: seq<CleanBatting>)
    ensures forall x :: x in r <==> x in rows && x.playerID in pitcherIDs
  {
    Filter(rows, (x: CleanBatting) => x.playerID in pitcherIDs)
  }

  function KeepAtBats(rows: seq<CleanBatting>): (r: seq<CleanBatting>)
    ensures forall x :: x in r <==> x in rows && x.AB > 0
  {
    Filter(rows, (x: CleanBatting) => x.AB > 0)
  }

  function KeepSalaryEra(rows: seq<CleanBatting>): (r: seq<CleanBatting>)
    ensures forall x :: x in r <==> x in rows && x.yearID >= FirstSalaryYear
  {
    Filter(rows, (x: CleanBatting) => x.yearID >= FirstSalaryYear)
  }

  /** The three selections of lines 18-22, in the script's order. */
  function Restrict(rows: seq<CleanBatting>, pitcherIDs: set<string>): seq<CleanBatting> {
    KeepSalaryEra(KeepAtBats(KeepPitchers(rows, pitcherIDs)))
  }

  predicate Eligible(c: CleanBatting, pitcherIDs: set<string>) {
    c.playerID in pitcherIDs && c.AB > 0 && c.yearID >= FirstSalaryYear
  }

  /** Every surviving row passes all three selections, so selecting again removes nothing. */
  lemma RestrictIdempotent(rows: seq<CleanBatting>, pitcherIDs: set<string>)
    ensures forall x :: x in Restrict(rows, pitcherIDs) <==> x in rows && Eligible(x, pitcherIDs)
    ensures Restrict(Restrict(rows, pitcherIDs), pitcherIDs) == Restrict(rows, pitcherIDs)
  {
    var r := Restrict(rows, pitcherIDs);
    FilterKeepsAll(r, (x: CleanBatting) => x.playerID in pitcherIDs);
    FilterKeepsAll(r, (x: CleanBatting) => x.AB > 0);
    FilterKeepsAll(r, (x: CleanBatting) => x.yearID >= FirstSalaryYear);
  }

  // ------------------------------------------------------------------
  // Lines 25-28: left merge with salaries on (yearID, playerID), then drop
  // the rows whose salary is blank.

  /** Salary row `s` is for the player-season of batting row `b`. */
  predicate PaidFor(s: Salary, b: CleanBatting) {
    s.yearID == b.yearID && s.playerID == b.playerID
  }

  function SalaryMatches(salaries: seq<Salary>, b: CleanBatting): seq<Salary> {
    Filter(salaries, (s: Salary) => PaidFor(s, b))
  }

  /** The rows a left merge makes of one batting row: one per matching salary
      row, in salary order, or a single row with a blank salary. */
  function MergeSalaryRow(b: CleanBatting, salaries: seq<Salary>): seq<SalariedBatting> {
    var ms := SalaryMatches(salaries, b);
    if ms == [] then [SalariedBatting(b, None)]
    else seq(|ms|, i requires 0 <= i < |ms| => SalariedBatting(b, Some(ms[i].salary)))
  }

  function MergeSalary(rows: seq<CleanBatting>, salaries: seq<Salary>): seq<SalariedBatting> {
    if rows == [] then []
    else MergeSalary(rows[..|rows| - 1], salaries) + MergeSalaryRow(rows[|rows| - 1], salaries)
  }

  function DropMissingSalary(rows: seq<SalariedBatting>): seq<SalariedBatting> {
    Filter(rows, (r: SalariedBatting) => r.salary.Some?)
  }

  lemma MergeSalaryRowMembers(b: CleanBatting, salaries: seq<Salary>, x: SalariedBatting)
    ensures x in DropMissingSalary(MergeSalaryRow(b, salaries)) <==>
              exists s :: s in salaries && PaidFor(s, b) && x == SalariedBatting(b, Some(s.salary))
  {
    var ms := SalaryMatches(salaries, b);
    var merged := MergeSalaryRow(b, salaries);
    if ms == [] {
      FilterKeepsNone(merged, (r: SalariedBatting) => r.salary.Some?);
    } else {
      FilterKeepsAll(merged, (r: SalariedBatting) => r.salary.Some?);
      if exists s :: s in salaries && PaidFor(s, b) && x == SalariedBatting(b, Some(s.salary)) {
        var s :| s in salaries && PaidFor(s, b) && x == SalariedBatting(b, Some(s.salary));
        var i :| 0 <= i < |ms| && ms[i] == s;
        assert merged[i] == x;
      }
      if x in merged {
        var i :| 0 <= i < |merged| && merged[i] == x;
        assert ms[i] in ms;
      }
    }
  }

  /** A row survives lines 25-28 iff it is a batting row paired with the salary
      of a salary row for the same yearID and playerID; rows with no such
      salary row are gone. */
  lemma {:induction false} SalaryJoin(rows: seq<CleanBatting>, salaries: seq<Salary>, x: SalariedBatting)
    ensures x in DropMissingSalary(MergeSalary(rows, salaries)) <==>
              exists b, s :: b in rows && s in salaries && PaidFor(s, b) && x == SalariedBatting(b, Some(s.salary))
  {
    if rows != [] {
      var init := rows[..|rows| - 1];
      var last := rows[|rows| - 1];
      assert rows == init + [last];
      FilterAppend(MergeSalary(init, salaries), MergeSalaryRow(last, salaries), (r: SalariedBatting) => r.salary.Some?);
      SalaryJoin(init, salaries, x);
      MergeSalaryRowMembers(last, salaries, x);
    }
  }

  /** Lines 14-28 as one function: the batting table they leave. */
  function Prepared(batting: seq<Batting>, pitching: seq<Performance>, salaries: seq<Salary>): seq<SalariedBatting> {
    DropMissingSalary(MergeSalary(Restrict(FillNulls(batting), PlayerIDs(pitching)), salaries))
  }

  /** A surviving row is a cleaned, eligible batting row with one of its salaries. */
  lemma PreparedSound(batting: seq<Batting>, pitching: seq<Performance>, salaries: seq<Salary>, x: SalariedBatting)
    requires x in Prepared(batting, pitching, salaries)
    ensures x.salary.Some? && x.batting.uBB == x.batting.BB - x.batting.IBB
    ensures exists b, s :: && b in batting && s in salaries
                           && Eligible(Fill(b), PlayerIDs(pitching)) && PaidFor(s, Fill(b))
                           && x == SalariedBatting(Fill(b), Some(s.salary))
  {
    var ids := PlayerIDs(pitching);
    var cleaned := Restrict(FillNulls(batting), ids);
    RestrictIdempotent(FillNulls(batting), ids);
    SalaryJoin(cleaned, salaries, x);
    var c, s :| c in cleaned && s in salaries && PaidFor(s, c) && x == SalariedBatting(c, Some(s.salary));
    var i :| 0 <= i < |batting| && FillNulls(batting)[i] == c;
    assert Fill(batting[i]) == c;
    assert batting[i] in batting;
  }

  /** Every cleaned, eligible batting row appears once per matching salary. */
  lemma PreparedComplete(batting: seq<Batting>, pitching: seq<Performance>, salaries: seq<Salary>, b: Batting, s: Salary)
    requires b in batting && s in salaries && Eligible(Fill(b), PlayerIDs(pitching)) && PaidFor(s, Fill(b))
    ensures SalariedBatting(Fill(b), Some(s.salary)) in Prepared(batting, pitching, salaries)
  {
    var ids := PlayerIDs(pitching);
    var cleaned := Restrict(FillNulls(batting), ids);
    RestrictIdempotent(FillNulls(batting), ids);
    var i :| 0 <= i < |batting| && batting[i] == b;
    assert FillNulls(batting)[i] == Fill(b);
    assert Fill(b) in cleaned;
    SalaryJoin(cleaned, salaries, SalariedBatting(Fill(b), Some(s.salary)));
  }

  /** Lines 14-28 as the script runs them, reassigning the batting table step by step. */
  method PrepareBatting(batting: seq<Batting>, pitching: seq<Performance>, salaries: seq<Salary>)
    returns (rows: seq<SalariedBatting>)
    ensures forall x :: x in rows ==>
              && x.salary.Some? && x.batting.uBB == x.batting.BB - x.batting.IBB
              && Eligible(x.batting, PlayerIDs(pitching))
    ensures forall x :: x in rows <==>
              exists b, s :: && b in batting && s in salaries
                             && Eligible(Fill(b), PlayerIDs(pitching)) && PaidFor(s, Fill(b))
                             && x == SalariedBatting(Fill(b), Some(s.salary))
  {
    var ids := PlayerIDs(pitching);
    var cleaned := FillNulls(batting);
    cleaned := KeepPitchers(cleaned, ids);
    cleaned := KeepAtBats(cleaned);
    cleaned := KeepSalaryEra(cleaned);
    var merged := MergeSalary(cleaned, salaries);
    rows := DropMissingSalary(merged);
    assert rows == Prepared(batting, pitching, salaries);

    forall x | x in rows
      ensures && x.salary.Some? && x.batting.uBB == x.batting.BB - x.batting.IBB
              && Eligible(x.batting, ids)
      ensures exists b, s :: && b in batting && s in salaries
                             && Eligible(Fill(b), ids) && PaidFor(s, Fill(b))
                             && x == SalariedBatting(Fill(b), Some(s.salary))
    {
      PreparedSound(batting, pitching, salaries, x);
    }
    forall b, s | && b in batting && s in salaries
                  && Eligible(Fill(b), ids) && PaidFor(s, Fill(b))
      ensures SalariedBatting(Fill(b), Some(s.salary)) in rows
    {
      PreparedComplete(batting, pitching, salaries, b, s);
    }
  }

  // ------------------------------------------------------------------
  // Lines 51-79: getwOBA.

  /** The plate appearances getwOBA divides by: AB + BB - IBB + SF + HBP. */
  function Denominator(b: CleanBatting): int {
    b.AB + b.BB - b.IBB + b.SF + b.HBP
  }

  /** The weighted numerator of line 77-78; w1B multiplies H, all hits. */
  function WeightedSum(f: Factor, b: CleanBatting): real {
    f.wBB * (b.uBB as real) + f.wHBP * (b.HBP as real) + f.w1B * (b.H as real)
    + f.w2B * (b.H2B as real) + f.w3B * (b.H3B as real) + f.wHR * (b.HR as real)
  }

  /** getwOBA on one row: a zero denominator yields no finite value (NaN or infinity). */
  function GetWoba(f: Factor, b: CleanBatting): (w: Option<real>)
    ensures w.Some? <==> Denominator(b) != 0
    ensures w.Some? ==> w.value * (Denominator(b) as real) == WeightedSum(f, b)
  {
    if Denominator(b) == 0 then None else Some(WeightedSum(f, b) / (Denominator(b) as real))
  }

  /** A row that has at-bats, no more intentional than total walks and no
      negative counts has a positive denominator, so its wOBA is defined. */
  lemma WobaDefined(f: Factor, b: CleanBatting)
    requires b.AB > 0 && b.BB >= b.IBB && b.SF >= 0 && b.HBP >= 0
    ensures Denominator(b) > 0 && GetWoba(f, b).Some?
  {
  }

  /** A worked row: AB 500, H 150, 2B 30, 3B 5, HR 20, BB 60, IBB 10, HBP 5,
      SF 5 with weights 0.7, 0.7, 0.9, 1.25, 1.6, 2.0. Because w1B multiplies
      all 150 hits, the numerator is 259, not the 209.5 that singles would give. */
  lemma WorkedExample()
    ensures
      var b := Fill(Batting("A", 2000, 1, "T", None, Some(500), Some(150), Some(30), Some(5),
                            Some(20), Some(60), Some(10), Some(5), Some(5)));
      var f := Factor(2000, 0.7, 0.7, 0.9, 1.25, 1.6, 2.0);
      b.uBB == 50 && Denominator(b) == 560 && WeightedSum(f, b) == 259.0
      && GetWoba(f, b) == Some(259.0 / 560.0)
  {
  }

  // ------------------------------------------------------------------
  // Lines 82-92: the per-season loop that appends to the wOBA table.

  function KeyOf(r: SalariedBatting): Key {
    Key(r.batting.playerID, r.batting.yearID, r.batting.stint)
  }

  function Years(batting: seq<SalariedBatting>): seq<int> {
    seq(|batting|, i requires 0 <= i < |batting| => batting[i].batting.yearID)
  }

  function SeasonRows(batting: seq<SalariedBatting>, y: int): seq<SalariedBatting> {
    Filter(batting, (r: SalariedBatting) => r.batting.yearID == y)
  }

  function SeasonFactors(factors: seq<Factor>, y: int): seq<Factor> {
    Filter(factors, (f: Factor) => f.season == y)
  }

  /** One pass of the loop body (lines 84-91). The factor columns are arrays:
      one factor row is broadcast to every batting row, as many factor rows as
      batting rows are paired with them one to one, any other count raises. */
  function SeasonWoba(b: seq<SalariedBatting>, f: seq<Factor>, y: int): Result<seq<WobaRow>, WobaError> {
    if |f| == 1 then
      Ok(seq(|b|, k requires 0 <= k < |b| => WobaRow(KeyOf(b[k]), GetWoba(f[0], b[k].batting))))
    else if |f| == |b| then
      Ok(seq(|b|, k requires 0 <= k < |b| => WobaRow(KeyOf(b[k]), GetWoba(f[k], b[k].batting))))
    else
      Err(FactorShape(y, |f|, |b|))
  }

  /** The wOBA table once the loop has visited `years` in order; the first
      season that raises ends the run. */
  function WobaTable(batting: seq<SalariedBatting>, factors: seq<Factor>, years: seq<int>): Result<seq<WobaRow>, WobaError>
  {
    if years == [] then Ok([])
    else
      match WobaTable(batting, factors, years[..|years| - 1])
      case Err(e) => Err(e)
      case Ok(acc) =>
        var y := years[|years| - 1];
        match SeasonWoba(SeasonRows(batting, y), SeasonFactors(factors, y), y)
        case Err(e) => Err(e)
        case Ok(rows) => Ok(acc + rows)
  }

  lemma {:induction false} WobaTableErrSticks(batting: seq<SalariedBatting>, factors: seq<Factor>, years: seq<int>, n: nat)
    requires 0 < n <= |years| && WobaTable(batting, factors, years[..n]).Err?
    ensures WobaTable(batting, factors, years) == WobaTable(batting, factors, years[..n])
    decreases |years| - n
  {
    if n < |years| {
      assert years[..n + 1][..n] == years[..n];
      WobaTableErrSticks(batting, factors, years, n + 1);
    } else {
      assert years[..n] == years;
    }
  }

  /** Lines 82-92: visit the seasons in order of first appearance and append each season's rows. */
  method SeasonalWoba(batting: seq<SalariedBatting>, factors: seq<Factor>) returns (r: Result<seq<WobaRow>, WobaError>)
    ensures r == WobaTable(batting, factors, Unique(Years(batting)))
  {
    var years := Unique(Years(batting));
    var woba: seq<WobaRow> := [];
    var i := 0;
    while i < |years|
      invariant 0 <= i <= |years|
      invariant WobaTable(batting, factors, years[..i]) == Ok(woba)
    {
      var y := years[i];
      var df := SeasonWoba(SeasonRows(batting, y), SeasonFactors(factors, y), y);
      assert years[..i + 1][..i] == years[..i];
      if df.Err? {
        WobaTableErrSticks(batting, factors, years, i + 1);
        return Err(df.error);
      }
      woba := woba + df.value;
      i := i + 1;
    }
    assert years[..i] == years;
    r := Ok(woba);
  }

  // ------------------------------------------------------------------
  // Season-exact weights.

  /** The factor table has exactly one row for every season of the batting table. */
  predicate OneFactorPerSeason(batting: seq<SalariedBatting>, factors: seq<Factor>) {
    forall r :: r in batting ==> |SeasonFactors(factors, r.batting.yearID)| == 1
  }

  /** The one factor row of season `y`. */
  function SeasonFactor(factors: seq<Factor>, y: int): (f: Factor)
    requires |SeasonFactors(factors, y)| == 1
    ensures f in factors && f.season == y
  {
    SeasonFactors(factors, y)[0]
  }

  function WobaRowOf(factors: seq<Factor>, r: SalariedBatting): WobaRow
    requires |SeasonFactors(factors, r.batting.yearID)| == 1
  {
    WobaRow(KeyOf(r), GetWoba(SeasonFactor(factors, r.batting.yearID), r.batting))
  }

  function ToWoba(factors: seq<Factor>, rows: seq<SalariedBatting>): seq<WobaRow>
    requires forall r :: r in rows ==> |SeasonFactors(factors, r.batting.yearID)| == 1
  {
    seq(|rows|, i requires 0 <= i < |rows| => WobaRowOf(factors, rows[i]))
  }

  function WobaWithKey(table: seq<WobaRow>, k: Key): seq<WobaRow> {
    Filter(table, (w: WobaRow) => w.key == k)
  }

  function BattingWithKey(batting: seq<SalariedBatting>, k: Key): seq<SalariedBatting> {
    Filter(batting, (r: SalariedBatting) => KeyOf(r) == k)
  }

  /** Computing the wOBA rows of stacked tables stacks the results. */
  lemma ToWobaAppend(factors: seq<Factor>, a: seq<SalariedBatting>, b: seq<SalariedBatting>)
    requires forall r :: r in a + b ==> |SeasonFactors(factors, r.batting.yearID)| == 1
    ensures ToWoba(factors, a + b) == ToWoba(factors, a) + ToWoba(factors, b)
  {
    assert forall r :: r in a ==> r in a + b;
    assert forall r :: r in b ==> r in a + b;
  }

  lemma {:induction false} ToWobaWithKey(factors: seq<Factor>, rows: seq<SalariedBatting>, k: Key)
    requires forall r :: r in rows ==> |SeasonFactors(factors, r.batting.yearID)| == 1
    ensures WobaWithKey(ToWoba(factors, rows), k) == ToWoba(factors, BattingWithKey(rows, k))
  {
    if rows != [] {
      var init := rows[..|rows| - 1];
      var last := rows[|rows| - 1];
      assert rows == init + [last];
      ToWobaAppend(factors, init, [last]);
      FilterAppend(ToWoba(factors, init), ToWoba(factors, [last]), (w: WobaRow) => w.key == k);
      ToWobaWithKey(factors, init, k);
      if KeyOf(last) == k {
        ToWobaAppend(factors, BattingWithKey(init, k), [last]);
      }
    }
  }

  /** The rows of one season all carry that season's year. */
  lemma SeasonRowsYear(batting: seq<SalariedBatting>, y: int)
    ensures forall r :: r in SeasonRows(batting, y) ==> r.batting.yearID == y
  {
  }

  /** With one factor row for the season, a pass of the loop broadcasts it:
      every row of the season gets the weights of that season. */
  lemma SeasonWobaBroadcast(batting: seq<SalariedBatting>, factors: seq<Factor>, y: int)
    requires |SeasonFactors(factors, y)| == 1
    ensures forall r :: r in SeasonRows(batting, y) ==> |SeasonFactors(factors, r.batting.yearID)| == 1
    ensures SeasonWoba(SeasonRows(batting, y), SeasonFactors(factors, y), y) == Ok(ToWoba(factors, SeasonRows(batting, y)))
  {
    var season := SeasonRows(batting, y);
    var fs := SeasonFactors(factors, y);
    SeasonRowsYear(batting, y);
    var computed := seq(|season|, i requires 0 <= i < |season| => WobaRow(KeyOf(season[i]), GetWoba(fs[0], season[i].batting)));
    var expected := ToWoba(factors, season);
    forall i | 0 <= i < |season| ensures expected[i] == computed[i] {
      assert season[i] in season;
    }
    assert expected == computed;
  }

  /** The season's wOBA rows with key `k` are those of the batting rows with
      key `k` when `k` belongs to the season, and none otherwise. */
  lemma SeasonWithKey(batting: seq<SalariedBatting>, factors: seq<Factor>, y: int, k: Key)
    requires |SeasonFactors(factors, y)| == 1
    ensures forall r :: r in SeasonRows(batting, y) ==> |SeasonFactors(factors, r.batting.yearID)| == 1
    ensures k.yearID == y ==>
              forall r :: r in BattingWithKey(batting, k) ==> |SeasonFactors(factors, r.batting.yearID)| == 1
    ensures WobaWithKey(ToWoba(factors, SeasonRows(batting, y)), k) ==
              if k.yearID == y then ToWoba(factors, BattingWithKey(batting, k)) else []
  {
    var season := SeasonRows(batting, y);
    SeasonWobaBroadcast(batting, factors, y);
    ToWobaWithKey(factors, season, k);
    if k.yearID == y {
      FilterNarrowed(batting, (r: SalariedBatting) => r.batting.yearID == y, (r: SalariedBatting) => KeyOf(r) == k);
    } else {
      FilterKeepsNone(season, (r: SalariedBatting) => KeyOf(r) == k);
    }
  }

  /** With one factor row per season and distinct seasons, the rows of the wOBA
      table with key `k` are the wOBA rows of the batting rows with key `k`,
      each computed with the weights of season k.yearID only. */
  lemma {:induction false} WobaTableByKey(batting: seq<SalariedBatting>, factors: seq<Factor>, years: seq<int>, k: Key)
    requires forall y :: y in years ==> |SeasonFactors(factors, y)| == 1
    requires Distinct(years)
    ensures WobaTable(batting, factors, years).Ok?
    ensures k.yearID in years ==>
              forall r :: r in BattingWithKey(batting, k) ==> |SeasonFactors(factors, r.batting.yearID)| == 1
    ensures WobaWithKey(WobaTable(batting, factors, years).value, k) ==
              if k.yearID in years then ToWoba(factors, BattingWithKey(batting, k)) else []
  {
    if years != [] {
      var ys := years[..|years| - 1];
      var y := years[|years| - 1];
      assert years == ys + [y];
      assert y in years && y !in ys;
      WobaTableByKey(batting, factors, ys, k);
      var acc := WobaTable(batting, factors, ys).value;
      SeasonWobaBroadcast(batting, factors, y);
      SeasonWithKey(batting, factors, y, k);
      FilterAppend(acc, ToWoba(factors, SeasonRows(batting, y)), (w: WobaRow) => w.key == k);
    }
  }

  // ------------------------------------------------------------------
  // Line 95: left merge of the wOBA table back on (playerID, yearID, stint).

  function MergeWobaRow(r: SalariedBatting, table: seq<WobaRow>): seq<BattingWoba> {
    var ms := WobaWithKey(table, KeyOf(r));
    if ms == [] then [BattingWoba(r, None)]
    else seq(|ms|, i requires 0 <= i < |ms| => BattingWoba(r, ms[i].wOBA))
  }

  function MergeWoba(rows: seq<SalariedBatting>, table: seq<WobaRow>): seq<BattingWoba> {
    if rows == [] then []
    else MergeWoba(rows[..|rows| - 1], table) + MergeWobaRow(rows[|rows| - 1], table)
  }

  /** A left merge loses no batting row and invents none. */
  lemma {:induction false} MergeWobaKeepsRows(rows: seq<SalariedBatting>, table: seq<WobaRow>)
    ensures forall x :: x in rows <==> exists m :: m in MergeWoba(rows, table) && m.row == x
  {
    if rows != [] {
      var init := rows[..|rows| - 1];
      var last := rows[|rows| - 1];
      assert rows == init + [last];
      MergeWobaKeepsRows(init, table);
      var tail := MergeWobaRow(last, table);
      assert tail[0].row == last;
      assert forall m :: m in tail ==> m.row == last;
    }
  }

  /** No two batting rows share (playerID, yearID, stint). */
  predicate UniqueKeys(batting: seq<SalariedBatting>) {
    forall i, j :: 0 <= i < j < |batting| ==> KeyOf(batting[i]) != KeyOf(batting[j])
  }

  lemma {:induction false} OnlyRowWithKey(batting: seq<SalariedBatting>, i: nat)
    requires UniqueKeys(batting) && i < |batting|
    ensures BattingWithKey(batting, KeyOf(batting[i])) == [batting[i]]
  {
    var init := batting[..|batting| - 1];
    var last := batting[|batting| - 1];
    var k := KeyOf(batting[i]);
    if i == |batting| - 1 {
      assert forall r :: r in init ==> KeyOf(r) != k;
      FilterKeepsNone(init, (r: SalariedBatting) => KeyOf(r) == k);
    } else {
      OnlyRowWithKey(init, i);
    }
  }

  /** The batting table with the wOBA of every row computed from its own season's weights. */
  function WobaColumn(batting: seq<SalariedBatting>, factors: seq<Factor>): (r: seq<BattingWoba>)
    requires OneFactorPerSeason(batting, factors)
    ensures |r| == |batting|
  {
    seq(|batting|, i requires 0 <= i < |batting| =>
          BattingWoba(batting[i], GetWoba(SeasonFactor(factors, batting[i].batting.yearID), batting[i].batting)))
  }

  lemma {:induction false} MergeWobaPrefix(batting: seq<SalariedBatting>, table: seq<WobaRow>, expected: seq<BattingWoba>, n: nat)
    requires |expected| == |batting| && n <= |batting|
    requires forall i :: 0 <= i < |batting| ==> MergeWobaRow(batting[i], table) == [expected[i]]
    ensures MergeWoba(batting[..n], table) == expected[..n]
  {
    if n > 0 {
      assert batting[..n][..n - 1] == batting[..n - 1];
      MergeWobaPrefix(batting, table, expected, n - 1);
      assert expected[..n] == expected[..n - 1] + [expected[n - 1]];
    }
  }

  lemma SeasonsHaveFactor(batting: seq<SalariedBatting>, factors: seq<Factor>)
    requires OneFactorPerSeason(batting, factors)
    ensures forall y :: y in Unique(Years(batting)) ==> |SeasonFactors(factors, y)| == 1
  {
    forall y | y in Unique(Years(batting)) ensures |SeasonFactors(factors, y)| == 1 {
      var i :| 0 <= i < |batting| && Years(batting)[i] == y;
      assert batting[i] in batting;
    }
  }

  lemma MergeWobaRowSingle(r: SalariedBatting, table: seq<WobaRow>, w: WobaRow)
    requires WobaWithKey(table, KeyOf(r)) == [w]
    ensures MergeWobaRow(r, table) == [BattingWoba(r, w.wOBA)]
  {
  }

  /** The wOBA table holds exactly one row for the key of batting row `i`. */
  lemma TableRowForKey(batting: seq<SalariedBatting>, factors: seq<Factor>, i: nat)
    requires OneFactorPerSeason(batting, factors) && UniqueKeys(batting) && i < |batting|
    ensures WobaTable(batting, factors, Unique(Years(batting))).Ok?
    ensures WobaWithKey(WobaTable(batting, factors, Unique(Years(batting))).value, KeyOf(batting[i]))
              == [WobaRowOf(factors, batting[i])]
  {
    var years := Unique(Years(batting));
    SeasonsHaveFactor(batting, factors);
    assert Years(batting)[i] in years;
    WobaTableByKey(batting, factors, years, KeyOf(batting[i]));
    OnlyRowWithKey(batting, i);
    assert ToWoba(factors, [batting[i]]) == [WobaRowOf(factors, batting[i])];
  }

  lemma MergeWobaRowExact(batting: seq<SalariedBatting>, factors: seq<Factor>, i: nat)
    requires OneFactorPerSeason(batting, factors) && UniqueKeys(batting) && i < |batting|
    ensures WobaTable(batting, factors, Unique(Years(batting))).Ok?
    ensures MergeWobaRow(batting[i], WobaTable(batting, factors, Unique(Years(batting))).value)
              == [WobaColumn(batting, factors)[i]]
  {
    TableRowForKey(batting, factors, i);
    MergeWobaRowSingle(batting[i], WobaTable(batting, factors, Unique(Years(batting))).value, WobaRowOf(factors, batting[i]));
  }

  /** With one factor row per season and unique keys, the merge of line 95
      gives every batting row, in order, exactly one wOBA: the one computed
      with its own season's weights. */
  lemma MergeBackExact(batting: seq<SalariedBatting>, factors: seq<Factor>)
    requires OneFactorPerSeason(batting, factors) && UniqueKeys(batting)
    ensures WobaTable(batting, factors, Unique(Years(batting))).Ok?
    ensures MergeWoba(batting, WobaTable(batting, factors, Unique(Years(batting))).value) == WobaColumn(batting, factors)
  {
    var years := Unique(Years(batting));
    SeasonsHaveFactor(batting, factors);
    WobaTableByKey(batting, factors, years, Key("", 0, 0));
    var table := WobaTable(batting, factors, years).value;
    forall i | 0 <= i < |batting|
      ensures MergeWobaRow(batting[i], table) == [WobaColumn(batting, factors)[i]]
    {
      MergeWobaRowExact(batting, factors, i);
    }
    MergeWobaPrefix(batting, table, WobaColumn(batting, factors), |batting|);
    assert batting[..|batting|] == batting;
  }

  // ------------------------------------------------------------------
  // Duplicate keys. The salary merge of lines 25-26 repeats a batting row
  // once per salary of its season, so (playerID, yearID, stint) need not be
  // unique at line 95; the repeated rows are the same cleaned batting row.

  /** Rows that share (playerID, yearID, stint) hold the same cleaned batting row. */
  predicate KeyDeterminesRow(batting: seq<SalariedBatting>) {
    forall r, s :: r in batting && s in batting && KeyOf(r) == KeyOf(s) ==> r.batting == s.batting
  }

  /** No two rows of Batting.csv share (playerID, yearID, stint). */
  predicate UniqueBattingKeys(batting: seq<Batting>) {
    forall a, b :: a in batting && b in batting && a.playerID == b.playerID && a.yearID == b.yearID && a.stint == b.stint
                   ==> a == b
  }

  /** Lines 14-28 keep the key of every batting row, so with Batting.csv's keys
      unique the prepared rows sharing a key differ at most in their salary. */
  lemma PreparedKeyDeterminesRow(batting: seq<Batting>, pitching: seq<Performance>, salaries: seq<Salary>)
    requires UniqueBattingKeys(batting)
    ensures KeyDeterminesRow(Prepared(batting, pitching, salaries))
  {
    var prepared := Prepared(batting, pitching, salaries);
    forall r, s | r in prepared && s in prepared && KeyOf(r) == KeyOf(s) ensures r.batting == s.batting {
      PreparedSound(batting, pitching, salaries, r);
      PreparedSound(batting, pitching, salaries, s);
      var b1, s1 :| b1 in batting && s1 in salaries && r == SalariedBatting(Fill(b1), Some(s1.salary));
      var b2, s2 :| b2 in batting && s2 in salaries && s == SalariedBatting(Fill(b2), Some(s2.salary));
      assert b1 == b2;
    }
  }

  /** Lines 14-15 on a one-row table. */
  lemma FillNullsOne(b: Batting)
    ensures FillNulls([b]) == [Fill(b)]
  {
    assert FillNulls([b])[0] == Fill(b);
  }

  /** The selections of lines 18-22 keep a lone eligible row. */
  lemma RestrictEligible(c: CleanBatting, ids: set<string>)
    requires Eligible(c, ids)
    ensures Restrict([c], ids) == [c]
  {
    FilterKeepsAll([c], (x: CleanBatting) => x.playerID in ids);
    FilterKeepsAll([c], (x: CleanBatting) => x.AB > 0);
    FilterKeepsAll([c], (x: CleanBatting) => x.yearID >= FirstSalaryYear);
  }

  /** The merge of a one-row table is the merge of that row. */
  lemma MergeSalaryOne(c: CleanBatting, salaries: seq<Salary>)
    ensures MergeSalary([c], salaries) == MergeSalaryRow(c, salaries)
  {
    assert [c][..0] == [];
  }

  /** A row whose two salaries both match it merges into one row per salary. */
  lemma TwoSalaryRows(c: CleanBatting, salaries: seq<Salary>)
    requires |salaries| == 2 && PaidFor(salaries[0], c) && PaidFor(salaries[1], c)
    ensures MergeSalaryRow(c, salaries) ==
              [SalariedBatting(c, Some(salaries[0].salary)), SalariedBatting(c, Some(salaries[1].salary))]
  {
    AllMatch(c, salaries);
  }

  /** Line 28 keeps every row that has a salary. */
  lemma KeepsSalaried(rows: seq<SalariedBatting>)
    requires forall r :: r in rows ==> r.salary.Some?
    ensures DropMissingSalary(rows) == rows
  {
    FilterKeepsAll(rows, (r: SalariedBatting) => r.salary.Some?);
  }

  /** Salaries that are all for the row's player-season all match it. */
  lemma AllMatch(c: CleanBatting, salaries: seq<Salary>)
    requires forall s :: s in salaries ==> PaidFor(s, c)
    ensures SalaryMatches(salaries, c) == salaries
  {
    FilterKeepsAll(salaries, (s: Salary) => PaidFor(s, c));
  }

  /** An eligible batting row with two salaries of its season becomes two
      prepared rows, one per salary, in salary order. */
  lemma PaidTwice(b: Batting, pitching: seq<Performance>, salaries: seq<Salary>)
    requires Eligible(Fill(b), PlayerIDs(pitching))
    requires |salaries| == 2 && PaidFor(salaries[0], Fill(b)) && PaidFor(salaries[1], Fill(b))
    ensures Prepared([b], pitching, salaries) ==
              [SalariedBatting(Fill(b), Some(salaries[0].salary)), SalariedBatting(Fill(b), Some(salaries[1].salary))]
  {
    var c := Fill(b);
    FillNullsOne(b);
    RestrictEligible(c, PlayerIDs(pitching));
    MergeSalaryOne(c, salaries);
    TwoSalaryRows(c, salaries);
    KeepsSalaried(MergeSalaryRow(c, salaries));
  }

  /** A player paid twice in one season (by two teams, say): the one batting
      row gives two prepared rows with the same key, which share one cleaned
      batting row. */
  lemma PaidTwiceRepeatsKey(b: Batting, pitching: seq<Performance>, salaries: seq<Salary>)
    requires Eligible(Fill(b), PlayerIDs(pitching))
    requires |salaries| == 2 && PaidFor(salaries[0], Fill(b)) && PaidFor(salaries[1], Fill(b))
    ensures !UniqueKeys(Prepared([b], pitching, salaries))
    ensures KeyDeterminesRow(Prepared([b], pitching, salaries))
  {
    PaidTwice(b, pitching, salaries);
    PreparedKeyDeterminesRow([b], pitching, salaries);
    var prepared := Prepared([b], pitching, salaries);
    assert KeyOf(prepared[0]) == KeyOf(prepared[1]);
  }

  /** A merged row comes from one batting row. */
  lemma {:induction false} MergeWobaFrom(rows: seq<SalariedBatting>, table: seq<WobaRow>, m: BattingWoba)
    requires m in MergeWoba(rows, table)
    ensures exists r :: r in rows && m in MergeWobaRow(r, table)
  {
    var init := rows[..|rows| - 1];
    var last := rows[|rows| - 1];
    assert rows == init + [last];
    if m in MergeWoba(init, table) {
      MergeWobaFrom(init, table, m);
      var r :| r in init && m in MergeWobaRow(r, table);
      assert r in rows;
    }
  }

  /** With one factor row per season, a batting row whose key `n` rows share
      merges into `n` rows, each carrying its own-season wOBA: pandas' merge
      pairs it with every wOBA row of its key. */
  lemma MergeWobaRowShared(batting: seq<SalariedBatting>, factors: seq<Factor>, i: nat)
    requires OneFactorPerSeason(batting, factors) && KeyDeterminesRow(batting) && i < |batting|
    ensures WobaTable(batting, factors, Unique(Years(batting))).Ok?
    ensures |MergeWobaRow(batting[i], WobaTable(batting, factors, Unique(Years(batting))).value)|
              == |BattingWithKey(batting, KeyOf(batting[i]))|
    ensures forall m :: m in MergeWobaRow(batting[i], WobaTable(batting, factors, Unique(Years(batting))).value)
              ==> m == WobaColumn(batting, factors)[i]
  {
    var years := Unique(Years(batting));
    var k := KeyOf(batting[i]);
    SeasonsHaveFactor(batting, factors);
    assert Years(batting)[i] in years;
    WobaTableByKey(batting, factors, years, k);
    var table := WobaTable(batting, factors, years).value;
    var same := BattingWithKey(batting, k);
    var ms := WobaWithKey(table, k);
    assert batting[i] in same;
    var w := WobaColumn(batting, factors)[i];
    forall j | 0 <= j < |ms| ensures ms[j].wOBA == w.wOBA {
      assert same[j] in same;
      assert same[j].batting == batting[i].batting;
    }
  }

  /** With one factor row per season and repeated keys only on repeated rows,
      every row the merge of line 95 produces is a batting row with its
      own-season wOBA. */
  lemma MergeOwnWoba(batting: seq<SalariedBatting>, factors: seq<Factor>)
    requires OneFactorPerSeason(batting, factors) && KeyDeterminesRow(batting)
    ensures WobaTable(batting, factors, Unique(Years(batting))).Ok?
    ensures forall m :: m in MergeWoba(batting, WobaTable(batting, factors, Unique(Years(batting))).value) ==>
              m.row in batting && m.wOBA == GetWoba(SeasonFactor(factors, m.row.batting.yearID), m.row.batting)
  {
    SeasonsHaveFactor(batting, factors);
    WobaTableByKey(batting, factors, Unique(Years(batting)), Key("", 0, 0));
    var table := WobaTable(batting, factors, Unique(Years(batting))).value;
    forall m | m in MergeWoba(batting, table)
      ensures m.row in batting && m.wOBA == GetWoba(SeasonFactor(factors, m.row.batting.yearID), m.row.batting)
    {
      MergeWobaFrom(batting, table, m);
      var r :| r in batting && m in MergeWobaRow(r, table);
      MergedRowOwnWoba(batting, factors, r, m);
    }
  }

  /** A row merged from batting row `r` is `r` with its own-season wOBA. */
  lemma MergedRowOwnWoba(batting: seq<SalariedBatting>, factors: seq<Factor>, r: SalariedBatting, m: BattingWoba)
    requires OneFactorPerSeason(batting, factors) && KeyDeterminesRow(batting) && r in batting
    requires WobaTable(batting, factors, Unique(Years(batting))).Ok?
    requires m in MergeWobaRow(r, WobaTable(batting, factors, Unique(Years(batting))).value)
    ensures m.row == r && m.wOBA == GetWoba(SeasonFactor(factors, r.batting.yearID), r.batting)
  {
    var i :| 0 <= i < |batting| && batting[i] == r;
    MergeWobaRowShared(batting, factors, i);
  }

  /** Lines 82-95: compute the wOBA table season by season, then merge it back. */
  method AttachWoba(batting: seq<SalariedBatting>, factors: seq<Factor>) returns (r: Result<seq<BattingWoba>, WobaError>)
    ensures |batting| == 0 ==> r == Err(NoMergeKeys)
    ensures OneFactorPerSeason(batting, factors) && |batting| > 0 ==> r.Ok?
    ensures r.Ok? ==> forall x :: x in batting <==> exists m :: m in r.value && m.row == x
    ensures OneFactorPerSeason(batting, factors) && UniqueKeys(batting) && |batting| > 0 ==>
              r == Ok(WobaColumn(batting, factors))
    ensures OneFactorPerSeason(batting, factors) && KeyDeterminesRow(batting) && r.Ok? ==>
              forall m :: m in r.value ==>
                m.row in batting && m.wOBA == GetWoba(SeasonFactor(factors, m.row.batting.yearID), m.row.batting)
  {
    var table := SeasonalWoba(batting, factors);
    if table.Err? {
      if OneFactorPerSeason(batting, factors) {
        SeasonsHaveFactor(batting, factors);
        WobaTableByKey(batting, factors, Unique(Years(batting)), Key("", 0, 0));
        assert false;
      }
      return Err(table.error);
    }
    if |batting| == 0 {
      return Err(NoMergeKeys);
    }
    var merged := MergeWoba(batting, table.value);
    MergeWobaKeepsRows(batting, table.value);
    if OneFactorPerSeason(batting, factors) && UniqueKeys(batting) {
      MergeBackExact(batting, factors);
    }
    if OneFactorPerSeason(batting, factors) && KeyDeterminesRow(batting) {
      MergeOwnWoba(batting, factors);
    }
    r := Ok(merged);
  }
}

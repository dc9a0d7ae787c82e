# Salary and performance pipeline of the Lahman analysis scripts

This project models the data-cleaning and aggregation pipeline that sits under
the plots and regressions of three pandas scripts about baseball salaries, and
proves properties of it in Dafny. Every table is a `seq` of records. Blank
cells are `Option` values. Derived ratios are exact `real` numbers, not
floating point.

- `analysis.py`, module `Woba` (`woba.dfy`): the batting table is cleaned,
  restricted and joined to salaries. Then the weighted on-base average (wOBA)
  is computed season by season with that season's linear weights, and merged
  back on (playerID, yearID, stint).
- `analysis3.py`, module `LaggedSalary` (`lagged_salary.dfy`):
  - total hits (`TH`);
  - the exclusion of pitchers' batting rows through a concatenated string
    index;
  - the join of performance in year Y with salary in year Y+1;
  - the per-game and per-at-bat rate columns;
  - `get_formula`, which picks the regression columns and fills their nulls.
  The rate loops and `get_formula` change their table in place, so they are
  methods of a `Frame` class whose fields are the column list and the rows.
- `analysis2.py`, module `SalaryTrend` (`salary_trend.dfy`):
  - the budget of every team in every season;
  - the per-season count of salaries;
  - the `pitcher` flag and the merge with Master.csv;
  - the full name;
  - the loop that sorts and ranks each (season, pitcher) group and appends its
    ten best-paid rows to `topPitSal` or `topBatSal`.
- Shared pieces:
  - `Tables` (`tables.dfy`): `Option`, `Result`, boolean-mask selection as
    `Filter`, and `unique()`;
  - `Lahman` (`lahman.dfy`): the CSV row types;
  - `Decimal` (`decimal.dfy`): `astype(str)` on integers.

Where the comments and the code disagree, the model follows the code:

- `analysis.py:17-18`: the comment says "Remove pitchers", but `isin`
  without negation keeps only the batting rows of players who appear in
  Pitching.csv. `Woba.KeepPitchers` keeps them.
- `analysis.py:77`: the weight `w1B` multiplies `H`, all hits, and not singles.
  `Woba.WorkedExample` shows this on a row with AB 500, H 150, 2B 30, 3B 5,
  HR 20, BB 60, IBB 10, HBP 5 and SF 5, and weights wBB 0.7, wHBP 0.7,
  w1B 0.9, w2B 1.25, w3B 1.6 and wHR 2.0. The code gives 259/560 there. A
  formula weighting only the 95 singles by w1B would give 209.5/560.
- `analysis2.py:88`: `sort_values` uses pandas' default sort, which is not
  stable. The order of equal salaries, and which of them make the top ten,
  is left open. Ties are not guaranteed to keep their original order.
- `analysis.py:77-79`: the factor columns are arrays, not a per-season lookup.
  With one factor row for the season it is broadcast. With as many factor rows
  as batting rows they are paired one to one. Any other count raises.
  `Woba.SeasonalWoba` returns `Err` in that case.
- `analysis.py:82-95`: with no batting rows the loop never runs, the wOBA
  frame has no columns, and the merge on (playerID, yearID, stint) raises.
  `Woba.AttachWoba` returns `Err(NoMergeKeys)` then.

## Model

| member | source | states |
|---|---|---|
| Tables.Filter | analysis.py:20 | boolean indexing keeps exactly the rows that pass the mask, and never adds rows |
| Tables.Unique | analysis.py:83 | `unique()` lists each value of the column, and no value twice |
| Tables.FilterAppend | analysis.py:92 | selecting from two stacked tables is stacking the two selections |
| Tables.FilterNarrowed | analysis.py:18-22 | selecting with a mask and then a stricter one equals selecting with the stricter one |
| Lahman.PlayerIDs | analysis.py:18 | `pitching.playerID.unique()` holds exactly the player ids of the pitching rows |
| Decimal.ParseNatToString | analysis3.py:20-23 | parsing the decimal string of a natural number gives the number back |
| Decimal.SignChar | analysis3.py:20-23 | the string of a year starts with '-' exactly when the year is negative |
| Decimal.IntToStringInjective | analysis3.py:20-23 | distinct integers have distinct `str` renderings |
| Woba.Fill | analysis.py:14-15 | one row after `fillna(0)` with `uBB = BB - IBB`; `Woba.FillNulls` states its effect |
| Woba.FillNulls | analysis.py:14-15 | every blank count becomes 0, present values and keys are unchanged, and `uBB == BB - IBB` on every row |
| Woba.KeepPitchers | analysis.py:18 | a row is kept iff its playerID is in the pitching table's id set, so pitchers are kept, not removed |
| Woba.KeepAtBats | analysis.py:20 | a row is kept iff `AB > 0` |
| Woba.KeepSalaryEra | analysis.py:22 | a row is kept iff `yearID >= 1985` |
| Woba.Restrict | analysis.py:18-22 | the three selections in the script's order; `Woba.RestrictIdempotent` states which rows survive |
| Woba.RestrictIdempotent | analysis.py:18-22 | the survivors are exactly the eligible rows, and applying the three filters again removes nothing |
| Woba.MergeSalary | analysis.py:25-26 | the left merge on (yearID, playerID): one row per matching salary, or one row with a blank salary; `Woba.SalaryJoin` states its result |
| Woba.DropMissingSalary | analysis.py:28 | the rows with a salary, in order |
| Woba.MergeSalaryRowMembers | analysis.py:25-28 | merging one batting row and dropping blank salaries yields the row paired with each matching salary, and nothing else |
| Woba.SalaryJoin | analysis.py:25-28 | the left merge followed by `notnull` is the inner join on (yearID, playerID) |
| Woba.Prepared | analysis.py:14-28 | lines 14-28 as one function; `Woba.PreparedSound` and `Woba.PreparedComplete` state its rows |
| Woba.PreparedSound | analysis.py:14-28 | every surviving row has a salary and `uBB == BB - IBB`, and comes from an eligible cleaned batting row and a salary of the same year and player |
| Woba.PreparedComplete | analysis.py:14-28 | every eligible cleaned batting row appears paired with each of its salaries |
| Woba.PreparedKeyDeterminesRow | analysis.py:14-28 | with (playerID, yearID, stint) unique in Batting.csv, prepared rows that share a key hold the same cleaned batting row and differ at most in salary |
| Woba.FillNullsOne | analysis.py:14-15 | a one-row table is filled to its one filled row |
| Woba.RestrictEligible | analysis.py:18-22 | a lone eligible row survives the three selections |
| Woba.MergeSalaryOne | analysis.py:25-26 | the merge of a one-row table is the merge of that row |
| Woba.AllMatch | analysis.py:25-26 | salaries that are all for the row's player-season all match it |
| Woba.TwoSalaryRows | analysis.py:25-26 | a row with two matching salaries merges into two rows, one per salary, in salary order |
| Woba.KeepsSalaried | analysis.py:28 | the `notnull` selection keeps every row that has a salary |
| Woba.PaidTwice | analysis.py:14-28 | an eligible batting row paid twice in its season gives exactly two prepared rows, one per salary |
| Woba.PaidTwiceRepeatsKey | analysis.py:25-26 | such a row leaves two rows with the same (playerID, yearID, stint) for line 95, which still hold the same batting row |
| Woba.PrepareBatting | analysis.py:14-28 | the step-by-step reassignments leave exactly the eligible batting rows joined to their salaries, each with a salary and `uBB == BB - IBB` |
| Woba.GetWoba | analysis.py:77-79 | the value exists iff the denominator `AB + BB - IBB + SF + HBP` is non-zero, and then value × denominator equals the weighted sum |
| Woba.WobaDefined | analysis.py:77-79 | with `AB > 0`, `BB >= IBB`, `SF >= 0` and `HBP >= 0` the denominator is positive and the wOBA is defined |
| Woba.WorkedExample | analysis.py:77-79 | on the sample row, uBB is 50, the denominator 560 and the weighted sum 259 (w1B × all hits) |
| Woba.SeasonWoba | analysis.py:84-91 | one pass of the loop: one factor row is broadcast, as many factor rows as batting rows are paired, any other count raises |
| Woba.WobaTable | analysis.py:82-92 | the passes over the listed seasons, appended in order, stopping at the first that raises; `Woba.WobaTableByKey` states its rows |
| Woba.WobaTableErrSticks | analysis.py:83-92 | once a season raises, later seasons do not change the outcome |
| Woba.SeasonalWoba | analysis.py:82-92 | the loop over `unique()` seasons computes the season-by-season table, or the error of the first season that raises |
| Woba.SeasonFactor | analysis.py:85 | the single factor row of a season is a factor row of that season |
| Woba.ToWoba | analysis.py:77-91 | every row's wOBA with its own season's factor row; `Woba.SeasonWobaBroadcast` ties it to the loop body |
| Woba.ToWobaAppend | analysis.py:92 | computing the wOBA rows of stacked batting rows stacks their wOBA rows |
| Woba.ToWobaWithKey | analysis.py:86-91 | the wOBA rows with a given key are those computed from the batting rows with that key |
| Woba.SeasonRowsYear | analysis.py:84 | `batting[batting.yearID == y]` holds only rows of season y |
| Woba.SeasonWobaBroadcast | analysis.py:84-91 | with one factor row for the season, the loop body computes every row's wOBA from that factor row |
| Woba.SeasonWithKey | analysis.py:84-91 | a season's wOBA rows with key k are computed from the batting rows with key k when k is of that season, and are empty otherwise |
| Woba.WobaTableByKey | analysis.py:82-92 | with one factor row per season and distinct seasons, the table succeeds, and its rows with key k are computed from the batting rows with key k |
| Woba.MergeWoba | analysis.py:95 | the left merge on (playerID, yearID, stint), many-to-many where keys repeat; `Woba.MergeWobaKeepsRows`, `Woba.MergeOwnWoba` and `Woba.MergeBackExact` state its result |
| Woba.MergeWobaKeepsRows | analysis.py:95 | the left merge keeps every batting row and invents none |
| Woba.OnlyRowWithKey | analysis.py:95 | with unique (playerID, yearID, stint) keys, a row is the only batting row with its key |
| Woba.WobaColumn | analysis.py:83-95 | the expected result has one row per batting row |
| Woba.MergeWobaPrefix | analysis.py:95 | when each row merges to exactly its expected row, the merge of a prefix is the prefix of the expected table |
| Woba.SeasonsHaveFactor | analysis.py:83-85 | with one factor row per season of the batting rows, every season the loop visits has exactly one factor row |
| Woba.MergeWobaRowSingle | analysis.py:95 | a row whose key has a single wOBA row merges into one row carrying that value |
| Woba.TableRowForKey | analysis.py:82-95 | the wOBA table has exactly one row for each batting row's key, computed from that row's season weights |
| Woba.MergeWobaRowExact | analysis.py:95 | each batting row merges into exactly its own wOBA |
| Woba.MergeBackExact | analysis.py:82-95 | with one factor row per season and unique keys, the merged table is the batting table with each row's own-season wOBA, in order |
| Woba.MergeWobaFrom | analysis.py:95 | every merged row comes from one batting row |
| Woba.MergeWobaRowShared | analysis.py:82-95 | a batting row whose key n rows share merges into n rows, each carrying its own-season wOBA, as pandas pairs it with every wOBA row of the key |
| Woba.MergedRowOwnWoba | analysis.py:82-95 | a row merged from batting row r is r with its own-season wOBA |
| Woba.MergeOwnWoba | analysis.py:82-95 | with one factor row per season and repeated keys only on repeated batting rows, every merged row is a batting row with its own-season wOBA |
| Woba.AttachWoba | analysis.py:82-95 | an empty batting table is an error, since the merge finds no key columns; a non-empty table with one factor row per season succeeds; every batting row is kept; when rows sharing a key hold the same batting row, as the salary merge leaves them, every merged row is a batting row with its own-season wOBA; with unique keys the result is the batting table with that wOBA, in order |
| LaggedSalary.WithTotalHits | analysis3.py:17 | TH is H + H2B + H3B + HR, blank iff one of them is, and no other cell changes |
| LaggedSalary.AddTotalHits | analysis3.py:17 | TH is added to the columns and to every row, and the rows keep their keys |
| LaggedSalary.TotalHitsKeepsSchema | analysis3.py:17 | after adding TH, the columns are still distinct and every row has a cell for each column |
| LaggedSalary.RowKey | analysis3.py:20-23 | the index `str(yearID) + str(teamID) + str(playerID)`; `LaggedSalary.KeysCollide` and `LaggedSalary.KeyDeterminesTriple` state when it identifies a row |
| LaggedSalary.DropPitcherRows | analysis3.py:20-25 | a batting row is dropped iff its concatenated index equals some pitching row's index |
| LaggedSalary.KeysCollide | analysis3.py:20-25 | two different (year, team, player) triples can share an index, and then the batting row is dropped by an unrelated pitching row |
| LaggedSalary.KeyDeterminesTriple | analysis3.py:20-23 | when the year strings and team ids have equal lengths, equal indexes mean equal triples |
| LaggedSalary.DropIsExactForFixedWidths | analysis3.py:20-25 | with fixed-width years and team ids, a batting row is dropped iff a pitching row has the same triple |
| LaggedSalary.AddYearBasedOn | analysis3.py:38 | every salary row gains `yearBasedOn = yearID - 1`, in order |
| LaggedSalary.MergeLaggedRowMatched | analysis3.py:39-44 | the merged rows of one performance row that carry a salary are exactly its pairings with the matching salary rows |
| LaggedSalary.MergeLagged | analysis3.py:39-44 | the left merge of performance year against salary yearBasedOn, team, league and player; `LaggedSalary.MergeLaggedMatched` states its salaried rows |
| LaggedSalary.LaggedJoin | analysis3.py:38-55 | merge, rename, drop of yearBasedOn and of blank salaries; `LaggedSalary.LaggedJoinMembers` states its rows |
| LaggedSalary.MergeLaggedMatched | analysis3.py:39-44 | the merged rows that carry a salary are exactly the pairs matched on year/yearBasedOn, team, league and player |
| LaggedSalary.LaggedJoinMembers | analysis3.py:38-55 | a row survives iff it pairs a performance row of year Y with a salary row of year Y+1 of the same team, league and player |
| LaggedSalary.LaggedJoinSound | analysis3.py:38-55 | each surviving row comes from a performance row and a salary of the next season |
| LaggedSalary.LaggedJoinComplete | analysis3.py:38-55 | each such pair survives |
| LaggedSalary.LaggedJoinShape | analysis3.py:38-55 | every surviving row has a salary and `syearID == pyearID + 1` |
| LaggedSalary.JoinedCovers | analysis3.py:39-55 | every joined row carries the cells, playerID and year of a performance row, so it has a cell for every column the performance rows have |
| LaggedSalary.Rate | analysis3.py:70-71 | the rate is 0 when the denominator is 0, otherwise present iff both cells are, and rate × denominator = value |
| LaggedSalary.RateStep | analysis3.py:67-71 | one pass of a rate loop: the denominator column is skipped, any other column gets its zero-guarded rate column |
| LaggedSalary.AddRates | analysis3.py:66-79 | the rate loop over the column list fixed before it; `LaggedSalary.AddRatesClosedForm` states its result |
| LaggedSalary.RateNameInjective | analysis3.py:70 | distinct columns get distinct `…r` names |
| LaggedSalary.RateNamesMembers | analysis3.py:66-79 | the new columns are exactly `c + 'r'` for the listed columns other than the denominator |
| LaggedSalary.AddRatesWellFormed | analysis3.py:66-79 | the rate loop keeps the columns distinct and every row covering them, and keeps the row count |
| LaggedSalary.AddRatesKeepsKeys | analysis3.py:66-79 | the rate loop keeps the rows, in order, with their key fields |
| LaggedSalary.AddRatesColumns | analysis3.py:66-79 | the columns become the old columns followed by one rate column per listed non-denominator column |
| LaggedSalary.AddRatesKeepsOriginals | analysis3.py:66-79 | no original cell is overwritten, because the column list is fixed before the loop |
| LaggedSalary.AddRatesValues | analysis3.py:66-79 | each rate cell is the zero-guarded quotient of its column by the denominator |
| LaggedSalary.AddRatesClosedForm | analysis3.py:64-79 | the rate loop in closed form: its columns, its rows and keys, the original cells and the rate cells |
| LaggedSalary.Nulls | analysis3.py:162 | `sum(col.isnull())` is at most the column length |
| LaggedSalary.Mean | analysis3.py:166 | `col.mean()`: the sum of the present cells divided by their number |
| LaggedSalary.Selected | analysis3.py:162-163 | a column qualifies iff it has no nulls or more than ⌊rows/2⌋ present cells |
| LaggedSalary.FillColumn | analysis3.py:166 | every null cell of the column becomes the given value; `LaggedSalary.FillColumnEffect` states its effect |
| LaggedSalary.ImputeStep | analysis3.py:162-166 | one pass of get_formula on the table: a qualifying column with nulls is filled with its mean |
| LaggedSalary.Imputed | analysis3.py:161-166 | the passes over the column list; `LaggedSalary.ImputedSelectedHasNoNulls` and `LaggedSalary.ImputedKeepsPresent` state its result |
| LaggedSalary.Formula | analysis3.py:160-176 | "salary ~ " and the accumulated terms of the selected columns; `LaggedSalary.FormulaIsJoin` states it as a join |
| LaggedSalary.NoNulls | analysis3.py:162 | the null count is 0 iff every cell is present |
| LaggedSalary.JoinNonEmpty | analysis3.py:167-175 | joining non-empty column names gives a non-empty string |
| LaggedSalary.TermsAreJoin | analysis3.py:167-175 | the accumulated formula is the selected columns joined by " + " |
| LaggedSalary.FormulaIsJoin | analysis3.py:160-176 | the result is "salary ~ " and the selected columns joined by " + ", and a column is selected iff it has no nulls or more than ⌊rows/2⌋ present cells |
| LaggedSalary.ImputedKeepsOthers | analysis3.py:166 | filling other columns leaves a column unchanged |
| LaggedSalary.FillColumnEffect | analysis3.py:166 | filling leaves the column without nulls, keeps every present cell and every other column |
| LaggedSalary.SelectedStep | analysis3.py:161-175 | one more column extends the selection by that column iff it qualifies |
| LaggedSalary.ImputedSelectedStep | analysis3.py:161-166 | one more pass keeps every selected column null-free |
| LaggedSalary.ImputedSelectedHasNoNulls | analysis3.py:161-166 | after the loop every selected column has no nulls |
| LaggedSalary.ImputedKeepsPresent | analysis3.py:166 | after the loop every cell that was present is unchanged |
| LaggedSalary.TermsAppend | analysis3.py:167-170 | adding a column appends it to the formula, with " + " unless it is the first |
| LaggedSalary.TermsStep | analysis3.py:161-175 | a pass extends the formula by the column exactly when the column is selected |
| LaggedSalary.ImputeStepReadsOriginal | analysis3.py:161-166 | the column a pass reads has not been changed by the earlier passes |
| LaggedSalary.GetFormulaPass | analysis3.py:161-175 | one pass takes the table and formula for the first i columns to those for i + 1 |
| LaggedSalary.FormulaFinished | analysis3.py:160-176 | after the last column the loop state is the filled table and the formula |
| LaggedSalary.ImputeStepCovers | analysis3.py:166 | filling keeps a cell for every column in every row |
| LaggedSalary.Frame.AddRateColumns | analysis3.py:66-79 | the in-place loop leaves the frame equal to the rate loop over the column list taken before the loop |
| LaggedSalary.Frame.GetFormula | analysis3.py:152-176 | returns the formula of the original table, fills the selected columns in place, and keeps the columns |
| LaggedSalary.PrepareFrames | analysis3.py:15-79 | the two frames are the lagged joins with rate columns; the batting frame also has TH and no pitcher rows |
| SalaryTrend.AddToBudget | analysis2.py:18 | one salary row is added to the row of its (season, team), or opens a new one |
| SalaryTrend.Budget | analysis2.py:18 | the grouped sum, one salary row at a time; `SalaryTrend.BudgetSums` and `SalaryTrend.BudgetTotal` state its result |
| SalaryTrend.PayrollAbsent | analysis2.py:18 | a team that paid nothing in a season has a payroll of 0 there |
| SalaryTrend.RaiseKeepsGroups | analysis2.py:18 | adding to an existing group keeps the groups and their distinctness |
| SalaryTrend.PaidAppend | analysis2.py:18 | one more salary row adds exactly its own (season, team) to the groups that paid |
| SalaryTrend.PayrollAppend | analysis2.py:18 | one more salary row adds its salary to its own group's payroll only |
| SalaryTrend.RaiseStep | analysis2.py:18 | a salary of an existing group keeps the budget the grouped sum |
| SalaryTrend.OpenStep | analysis2.py:18 | a salary of a new group opens a row, and the budget stays the grouped sum |
| SalaryTrend.BudgetStep | analysis2.py:18 | each salary row keeps the budget the grouped sum |
| SalaryTrend.BudgetSums | analysis2.py:18 | the budget has one row per (season, team) that paid a salary, holding the sum of that team's salaries in that season |
| SalaryTrend.RaiseTotal | analysis2.py:18 | with one row per group, raising a group adds the salary once |
| SalaryTrend.AppendTotal | analysis2.py:18 | a new row adds its salary to the total |
| SalaryTrend.BudgetTotal | analysis2.py:18 | all budgets add up to the total of the salary table |
| SalaryTrend.SalaryYears | analysis2.py:46 | `unique()` of the yearID column: the seasons listed are exactly those of the salary rows, each once |
| SalaryTrend.InsertYear | analysis2.py:49 | inserting a season into a strictly increasing list keeps it strictly increasing and adds exactly that season |
| SalaryTrend.SortedDistinct | analysis2.py:49 | the group keys are the distinct seasons, in increasing order |
| SalaryTrend.YearCounts | analysis2.py:46-50 | `yearstat` has a row for exactly the seasons with a salary, and each row's count is the number of salary rows of that season |
| SalaryTrend.FillCounts | analysis2.py:48-50 | the loop over the groups, sorted by season, sets every row of the index to the size of its season's group and adds no row |
| SalaryTrend.OccursOnce | analysis2.py:49 | a season in a repeat-free list occurs once |
| SalaryTrend.OccursNever | analysis2.py:49 | a season not in the list occurs zero times |
| SalaryTrend.CountSumEmpty | analysis2.py:49-50 | no salary rows give counts that add up to 0 |
| SalaryTrend.CountSumStep | analysis2.py:49-50 | one more salary row raises the summed counts by the number of times its season is listed |
| SalaryTrend.SeasonCountsAddUp | analysis2.py:49-50 | over the distinct seasons, the counts add up to the number of salary rows |
| SalaryTrend.FlagPitchers | analysis2.py:79 | `pitcher` is true iff the player's id occurs among the pitching ids, and Master rows are otherwise unchanged |
| SalaryTrend.MergeMaster | analysis2.py:80-81 | the left merge of the salaries with Master.csv on playerID; `SalaryTrend.MergeMasterSound` and `SalaryTrend.MergeMasterOneToOne` state its result |
| SalaryTrend.MergeMasterRowSound | analysis2.py:80-81 | each merged row is the salary row with the flag and names of a Master row of the same player, or blank when there is none |
| SalaryTrend.MergeMasterSound | analysis2.py:80-81 | each merged row comes from a salary row, and its Master columns come from a Master row of the same player |
| SalaryTrend.OnlyMatch | analysis2.py:80-81 | with one Master row per player, a salary row matches exactly that player's row |
| SalaryTrend.MergeMasterRowOne | analysis2.py:80-81 | with one Master row per player, a salary row merges into exactly one row, blank iff the player is not in Master |
| SalaryTrend.MergeMasterAligned | analysis2.py:80-81 | with one Master row per player, the i-th merged row comes from the i-th salary row |
| SalaryTrend.MergeMasterOneToOne | analysis2.py:80-81 | with one Master row per player, the merge keeps the salary rows in order and adds their player's flag and names, or blanks |
| SalaryTrend.FullName | analysis2.py:82 | `str.cat(sep=' ')`; `SalaryTrend.FullNameSplits` states its result |
| SalaryTrend.FullNameSplits | analysis2.py:82 | the full name is present iff both parts are, and splits back into the given name, one space and the last name |
| SalaryTrend.AddFullNames | analysis2.py:82 | every row keeps its columns and gains `fullname == nameGiven + " " + nameLast`, blank when either part is blank |
| SalaryTrend.Group | analysis2.py:87 | the rows of one (season, pitcher) group, in table order; rows with a blank flag are in no group |
| SalaryTrend.RankRows | analysis2.py:89 | rank i + 1 for the i-th sorted row; `SalaryTrend.TopOfSorted` states what the ranked first rows are |
| SalaryTrend.Position | analysis2.py:88 | the insertion point follows every row paid at least as much and precedes every row paid less |
| SalaryTrend.InsertBySalary | analysis2.py:88 | inserting keeps the rows ordered by non-increasing salary and adds exactly the new row |
| SalaryTrend.SortBySalaryDesc | analysis2.py:88 | the sorted group is ordered by non-increasing salary and is a permutation of the group |
| SalaryTrend.RowsOfRanked | analysis2.py:89 | ranking adds a column and keeps the rows |
| SalaryTrend.RankedOrdered | analysis2.py:88-89 | the ranked rows are ordered by non-increasing salary |
| SalaryTrend.KeptBeatDropped | analysis2.py:88-92 | in a sorted group, the first m rows are paid at least as much as every later row |
| SalaryTrend.KeptInGroup | analysis2.py:88-92 | the ranked rows are rows of the group |
| SalaryTrend.TopOfSorted | analysis2.py:88-92 | the first min(10, n) rows of a sorted group, ranked 1.., form a top block of the group |
| SalaryTrend.TopBlock | analysis2.py:88-92 | one group gives min(10, n) of its rows, ranked 1.. by non-increasing salary, each paid at least as much as every dropped row |
| SalaryTrend.TopBlockLeads | analysis2.py:88-89 | the row ranked 1 of a non-empty group is paid the group's maximum |
| SalaryTrend.KeysOfMembers | analysis2.py:87 | a key is visited iff its season is listed and its group has rows |
| SalaryTrend.KeysOfSorted | analysis2.py:87 | for increasing seasons the keys come by season, batters before pitchers |
| SalaryTrend.GroupKeys | analysis2.py:87 | `groupby(['yearID', 'pitcher'])` visits exactly the non-empty groups, in sorted key order |
| SalaryTrend.YearBlockAppend | analysis2.py:91-95 | the rows of a season in an appended table are those of each part, stacked |
| SalaryTrend.YearBlockSingle | analysis2.py:91-95 | a block of one season is all of that season's rows and none of another's |
| SalaryTrend.TopStepRows | analysis2.py:87-95 | appending the block of the next group keeps only that role's rows, in season order |
| SalaryTrend.TopStepBlocks | analysis2.py:87-95 | appending the block of the next group makes it the block of its season and leaves other seasons unchanged |
| SalaryTrend.TopStep | analysis2.py:87-95 | appending a group's block to its role's table keeps the loop invariant |
| SalaryTrend.TopSkip | analysis2.py:90-95 | a group of the other role leaves the table unchanged |
| SalaryTrend.TopFinish | analysis2.py:87-95 | once every group is visited, every season's block is the top block of its group |
| SalaryTrend.TopAdvance | analysis2.py:87-95 | one pass sends the group's block to the table of its role only |
| SalaryTrend.TopSalaries | analysis2.py:85-95 | `topPitSal` and `topBatSal` hold only their role's rows, in season order, and for each season the top block of that season's group |
| SalaryTrend.TopPlayers | analysis2.py:79-95 | from the three tables: the two top tables of the merged rows, where every `topPitSal` row is a salary row of a player who appears in Pitching.csv |

## Left out

- Reading the CSV files and writing the regression summaries are I/O. The
  tables are parameters.
- All plotting and the pivots for plotting (`analysis2.py:19`, `97-98`).
- `pearsonr` and the statsmodels OLS fits, including the per-year regression
  loop (`analysis3.py:131-141`, `180-202`). These are foreign numeric
  libraries.
- The column rename of `analysis3.py:15`: the model names the columns H2B and
  H3B from the start.
- SalaryTrend.YearCounts: of `describe()` only the count is modelled. Mean,
  std, min, quartiles and max are floating-point statistics.
- LaggedSalary.Frame.GetFormula: the mean used to fill nulls is the exact
  mean over reals, not a floating-point mean.
- LaggedSalary.Rate: rates are exact real quotients, not floating point. A
  blank cell or denominator gives a blank rate.
- Woba.GetWoba: a zero denominator gives `None`, standing for pandas' NaN or
  infinity. The value is exact, not floating point.
- Woba.SeasonalWoba: a season whose factor rows cannot be broadcast gives `Err`,
  where the script raises and stops. No missing-value fallback is modelled.
- SalaryTrend.BudgetSums: the budget's rows are in order of first appearance.
  `groupby` sorts them by (yearID, teamID). The contract says nothing about
  row order.
- SalaryTrend.TopBlock: ranks are natural numbers 1..n, not the floats
  `np.linspace` produces.
- SalaryTrend.TopSalaries: a top row keeps the whole merged row, not just the
  four columns yearID, rank, fullname and salary that the script copies.
- SalaryTrend.SortBySalaryDesc: the contract leaves the order of equal
  salaries open, because the script's default sort is not stable.
- Woba.SalaryJoin: a player with several salary rows for one season gets one
  batting row per salary row. The model keeps these duplicates, as the merge
  does. `Woba.MergeOwnWoba` and `Woba.AttachWoba` state each merged row's
  wOBA for them too.
- Lahman.Salary: the salary cell is an integer in every row, so a blank salary
  in Salaries.csv is not represented. Only the left merges produce blank
  salaries in the model.
- Integer columns are unbounded, so int64 overflow of the sums is not
  modelled.

/// Row types of the Lahman baseball CSV tables that more than one script reads.
module Lahman {
  import opened Tables

  /** A row of Salaries.csv. */
  datatype Salary = Salary(yearID: int, teamID: string, lgID: string, playerID: string, salary: int)

  /** A row of Batting.csv or Pitching.csv seen column by column: the key
      columns, and every performance column by name (blank cells are None;
      counts and ratios such as ERA alike are numbers). */
  datatype Performance = Performance(
    playerID: string, yearID: int, stint: int, teamID: string, lgID: string,
    stats: map<string, Option<real>>)

  /** The columns of Master.csv that the scripts read. */
  datatype Player = Player(playerID: string, nameGiven: Option<string>, nameLast: Option<string>)

  /** `pitching.playerID.unique()`, used as the argument of `isin`. */
  function PlayerIDs(pitching: seq<Performance>): (ids: set<string>)
    ensures forall id :: id in ids <==> exists p :: p in pitching && p.playerID == id
  {
    set p | p in pitching :: p.playerID
  }
}

/**
 * The league table of models/standings.rs (`Standing::get`): one SQL
 * aggregate over `teams LEFT JOIN matchups`, then the streak of each team.
 *
 * Every COUNT and SUM is a recursion over the matchups table. A matchup is
 * joined to a team when the team plays in it, home or away; the join does not
 * look at the season, so the aggregate covers every season in the table.
 */
module Standings {
  import opened Wrappers
  import opened Sorting
  import opened Matchups
  import opened Teams

  datatype Standing = Standing(
    teamId: int,
    teamName: string,
    wins: nat,
    losses: nat,
    draws: nat,
    pointsFor: int,
    pointsAgainst: int,
    streak: nat)

  // ---------------------------------------------------------------------------
  // One joined row: the CASE expressions
  // ---------------------------------------------------------------------------

  /** The two win CASEs of one row: as the home side and as the away side. */
  function WinsIn(m: Matchup, teamId: int): nat {
    if !Played(m) then 0
    else (if m.homeTeamId == teamId && m.homeScore.value > m.awayScore.value then 1 else 0) +
         (if m.awayTeamId == teamId && m.awayScore.value > m.homeScore.value then 1 else 0)
  }

  function LossesIn(m: Matchup, teamId: int): nat {
    if !Played(m) then 0
    else (if m.homeTeamId == teamId && m.homeScore.value < m.awayScore.value then 1 else 0) +
         (if m.awayTeamId == teamId && m.awayScore.value < m.homeScore.value then 1 else 0)
  }

  function DrawsIn(m: Matchup, teamId: int): nat {
    if Played(m) && Involves(m, teamId) && m.homeScore.value == m.awayScore.value then 1 else 0
  }

  /** `CASE WHEN teams.id = home_team_id THEN home_team_score ELSE away_team_score END` */
  function OwnScore(m: Matchup, teamId: int): Option<int> {
    if m.homeTeamId == teamId then m.homeScore else m.awayScore
  }

  /** `CASE WHEN teams.id = home_team_id THEN away_team_score ELSE home_team_score END` */
  function OppScore(m: Matchup, teamId: int): Option<int> {
    if m.homeTeamId == teamId then m.awayScore else m.homeScore
  }

  /** What a joined row adds to a sum: NULL adds nothing; a row not joined adds nothing. */
  function Points(m: Matchup, teamId: int, score: Option<int>): int {
    if Involves(m, teamId) && score.Some? then score.value else 0
  }

  // ---------------------------------------------------------------------------
  // The aggregates
  // ---------------------------------------------------------------------------

  function Wins(ledger: seq<Matchup>, teamId: int): nat {
    if ledger == [] then 0 else WinsIn(ledger[0], teamId) + Wins(ledger[1..], teamId)
  }

  function Losses(ledger: seq<Matchup>, teamId: int): nat {
    if ledger == [] then 0 else LossesIn(ledger[0], teamId) + Losses(ledger[1..], teamId)
  }

  function Draws(ledger: seq<Matchup>, teamId: int): nat {
    if ledger == [] then 0 else DrawsIn(ledger[0], teamId) + Draws(ledger[1..], teamId)
  }

  /** `points_for`, with a team that has no scored matchup at 0. */
  function PointsFor(ledger: seq<Matchup>, teamId: int): int {
    if ledger == [] then 0
    else Points(ledger[0], teamId, OwnScore(ledger[0], teamId)) + PointsFor(ledger[1..], teamId)
  }

  /** `points_against`, with a team that has no scored matchup at 0. */
  function PointsAgainst(ledger: seq<Matchup>, teamId: int): int {
    if ledger == [] then 0
    else Points(ledger[0], teamId, OppScore(ledger[0], teamId)) + PointsAgainst(ledger[1..], teamId)
  }

  /** The number of the team's matchups with both scores set. */
  function PlayedCount(ledger: seq<Matchup>, teamId: int): nat {
    if ledger == [] then 0
    else (if Played(ledger[0]) && Involves(ledger[0], teamId) then 1 else 0) + PlayedCount(ledger[1..], teamId)
  }

  /** SQL's addition inside SUM: NULLs are skipped, and the SUM of nothing is NULL. */
  function AddSql(a: Option<int>, b: Option<int>): Option<int> {
    match (a, b)
    case (None, _) => b
    case (_, None) => a
    case (Some(x), Some(y)) => Some(x + y)
  }

  /** `SUM(...)` exactly as SQL evaluates it over the team's joined rows. */
  function SqlSum(ledger: seq<Matchup>, teamId: int, own: bool): Option<int> {
    if ledger == [] then None
    else
      var m := ledger[0];
      var here := if Involves(m, teamId) then (if own then OwnScore(m, teamId) else OppScore(m, teamId)) else None;
      AddSql(here, SqlSum(ledger[1..], teamId, own))
  }

  /** A row the team plays in with that side's score set. */
  predicate Scored(m: Matchup, teamId: int, own: bool) {
    Involves(m, teamId) && (if own then OwnScore(m, teamId) else OppScore(m, teamId)).Some?
  }

  /** The SQL SUM is NULL exactly when no joined row has the score set, and otherwise is the modelled sum. */
  lemma {:induction false} SqlSumIsPoints(ledger: seq<Matchup>, teamId: int, own: bool)
    ensures SqlSum(ledger, teamId, own).None? <==> forall i :: 0 <= i < |ledger| ==> !Scored(ledger[i], teamId, own)
    ensures ValueOr0(SqlSum(ledger, teamId, own)) == if own then PointsFor(ledger, teamId) else PointsAgainst(ledger, teamId)
  {
    if ledger != [] {
      SqlSumIsPoints(ledger[1..], teamId, own);
      assert forall i :: 1 <= i < |ledger| ==> ledger[i] == ledger[1..][i - 1];
    }
  }

  // ---------------------------------------------------------------------------
  // The table
  // ---------------------------------------------------------------------------

  /** One `Standing` of a team: the aggregate row plus the team's streak in `year`. */
  function RowOf(ledger: seq<Matchup>, schedules: seq<ScheduleRow>, year: int, team: Team): Standing {
    Standing(team.id, team.name,
             Wins(ledger, team.id), Losses(ledger, team.id), Draws(ledger, team.id),
             PointsFor(ledger, team.id), PointsAgainst(ledger, team.id),
             Streak(ledger, schedules, team.id, year))
  }

  /** `ORDER BY wins - losses DESC`, as an ascending key. */
  function Rank(s: Standing): int {
    s.losses - s.wins
  }

  /**
   * `Standing::get`, with a team that has no scored matchup given 0 points:
   * one row per team (table order), sorted by wins minus losses, best first.
   */
  function StandingsOf(teams: seq<Team>, ledger: seq<Matchup>, schedules: seq<ScheduleRow>, year: int): seq<Standing> {
    SortBy(Map(t => RowOf(ledger, schedules, year, t), teams), Rank)
  }

  /**
   * `Standing::get` as written, assuming the driver refuses to decode a NULL
   * SUM into the `i32` field: the query's unwrap then panics (`None`).
   */
  function StandingsAsWritten(teams: seq<Team>, ledger: seq<Matchup>, schedules: seq<ScheduleRow>, year: int): Option<seq<Standing>> {
    if exists i :: 0 <= i < |teams| && (SqlSum(ledger, teams[i].id, true).None? || SqlSum(ledger, teams[i].id, false).None?)
    then None
    else Some(StandingsOf(teams, ledger, schedules, year))
  }

  // ---------------------------------------------------------------------------
  // What the table guarantees
  // ---------------------------------------------------------------------------

  /** The rows are ordered by wins minus losses, never increasing. */
  lemma StandingsOrdered(teams: seq<Team>, ledger: seq<Matchup>, schedules: seq<ScheduleRow>, year: int)
    ensures var r := StandingsOf(teams, ledger, schedules, year);
            forall i, j :: 0 <= i < j < |r| ==> r[i].wins - r[i].losses >= r[j].wins - r[j].losses
  {
    SortBySorts(Map(t => RowOf(ledger, schedules, year, t), teams), Rank);
  }

  /** There is exactly one row per team: the table is a rearrangement of the teams' rows. */
  lemma StandingsOnePerTeam(teams: seq<Team>, ledger: seq<Matchup>, schedules: seq<ScheduleRow>, year: int)
    ensures var r := StandingsOf(teams, ledger, schedules, year);
            |r| == |teams| &&
            multiset(r) == multiset(Map(t => RowOf(ledger, schedules, year, t), teams))
  {
    SortByPermutes(Map(t => RowOf(ledger, schedules, year, t), teams), Rank);
  }

  /** Every team's row is in the table. */
  lemma StandingsHaveEveryTeam(teams: seq<Team>, ledger: seq<Matchup>, schedules: seq<ScheduleRow>, year: int, i: nat)
    requires i < |teams|
    ensures RowOf(ledger, schedules, year, teams[i]) in StandingsOf(teams, ledger, schedules, year)
  {
    var rows := Map(t => RowOf(ledger, schedules, year, t), teams);
    StandingsOnePerTeam(teams, ledger, schedules, year);
    assert rows[i] in multiset(rows);
  }

  /** One played row between two different teams is exactly one of a win, a draw or a loss for each. */
  lemma OneOutcome(m: Matchup, teamId: int)
    requires m.homeTeamId != m.awayTeamId
    ensures WinsIn(m, teamId) + DrawsIn(m, teamId) + LossesIn(m, teamId) ==
            if Played(m) && Involves(m, teamId) then 1 else 0
  {
  }

  /** Wins, draws and losses add up to the number of completed matchups. */
  lemma {:induction false} RecordAddsUp(ledger: seq<Matchup>, teamId: int)
    requires forall i :: 0 <= i < |ledger| ==> ledger[i].homeTeamId != ledger[i].awayTeamId
    ensures Wins(ledger, teamId) + Draws(ledger, teamId) + Losses(ledger, teamId) == PlayedCount(ledger, teamId)
  {
    if ledger != [] {
      OneOutcome(ledger[0], teamId);
      RecordAddsUp(ledger[1..], teamId);
    }
  }

  /** The standings and the streak use the same test for a win. */
  lemma WinRuleShared(m: Matchup, teamId: int)
    ensures WinsIn(m, teamId) > 0 <==> Won(m, teamId)
  {
  }

  /** A matchup without scores counts for nothing and adds no points. */
  lemma {:induction false} UnscoredCountsNothing(ledger: seq<Matchup>, teamId: int)
    requires forall i :: 0 <= i < |ledger| ==> ledger[i].homeScore.None? && ledger[i].awayScore.None?
    ensures Wins(ledger, teamId) == 0 && Losses(ledger, teamId) == 0 && Draws(ledger, teamId) == 0
    ensures PointsFor(ledger, teamId) == 0 && PointsAgainst(ledger, teamId) == 0
  {
    if ledger != [] {
      UnscoredCountsNothing(ledger[1..], teamId);
    }
  }

  /** Adding an unscored matchup anywhere changes no count and no sum. */
  lemma {:induction false} UnscoredRowIgnored(before: seq<Matchup>, m: Matchup, after: seq<Matchup>, teamId: int)
    requires m.homeScore.None? && m.awayScore.None?
    ensures var ledger := before + [m] + after;
            Wins(ledger, teamId) == Wins(before + after, teamId) &&
            Losses(ledger, teamId) == Losses(before + after, teamId) &&
            Draws(ledger, teamId) == Draws(before + after, teamId) &&
            PointsFor(ledger, teamId) == PointsFor(before + after, teamId) &&
            PointsAgainst(ledger, teamId) == PointsAgainst(before + after, teamId)
    decreases |before|
  {
    if before == [] {
      assert before + [m] + after == [m] + after;
      assert ([m] + after)[0] == m && ([m] + after)[1..] == after;
      assert before + after == after;
    } else {
      UnscoredRowIgnored(before[1..], m, after, teamId);
      assert (before + [m] + after)[1..] == before[1..] + [m] + after;
      assert (before + after)[1..] == before[1..] + after;
    }
  }

  // ---------------------------------------------------------------------------
  // Points for and points against balance out
  // ---------------------------------------------------------------------------

  /** Every matchup is between two different teams of the table. */
  predicate WellFormedLedger(teams: seq<Team>, ledger: seq<Matchup>) {
    forall i :: 0 <= i < |ledger| ==>
      ledger[i].homeTeamId != ledger[i].awayTeamId &&
      HasId(teams, ledger[i].homeTeamId) && HasId(teams, ledger[i].awayTeamId)
  }

  function TotalFor(teams: seq<Team>, ledger: seq<Matchup>): int {
    if teams == [] then 0 else PointsFor(ledger, teams[0].id) + TotalFor(teams[1..], ledger)
  }

  function TotalAgainst(teams: seq<Team>, ledger: seq<Matchup>): int {
    if teams == [] then 0 else PointsAgainst(ledger, teams[0].id) + TotalAgainst(teams[1..], ledger)
  }

  /** What one matchup adds to the points for, and to the points against, over all teams. */
  function RowFor(teams: seq<Team>, m: Matchup): int {
    if teams == [] then 0 else Points(m, teams[0].id, OwnScore(m, teams[0].id)) + RowFor(teams[1..], m)
  }

  function RowAgainst(teams: seq<Team>, m: Matchup): int {
    if teams == [] then 0 else Points(m, teams[0].id, OppScore(m, teams[0].id)) + RowAgainst(teams[1..], m)
  }

  function ValueOr0(v: Option<int>): int {
    if v.Some? then v.value else 0
  }

  lemma {:induction false} TotalsStep(teams: seq<Team>, ledger: seq<Matchup>)
    requires ledger != []
    ensures TotalFor(teams, ledger) == RowFor(teams, ledger[0]) + TotalFor(teams, ledger[1..])
    ensures TotalAgainst(teams, ledger) == RowAgainst(teams, ledger[0]) + TotalAgainst(teams, ledger[1..])
  {
    if teams != [] {
      TotalsStep(teams[1..], ledger);
    }
  }

  /**
   * Over a table with distinct ids, a matchup between two different teams adds
   * the home score to the home team and the away score to the away team.
   */
  lemma {:induction false} RowSums(teams: seq<Team>, m: Matchup)
    requires DistinctIds(teams) && m.homeTeamId != m.awayTeamId
    ensures RowFor(teams, m) ==
            (if HasId(teams, m.homeTeamId) then ValueOr0(m.homeScore) else 0) +
            (if HasId(teams, m.awayTeamId) then ValueOr0(m.awayScore) else 0)
    ensures RowAgainst(teams, m) ==
            (if HasId(teams, m.homeTeamId) then ValueOr0(m.awayScore) else 0) +
            (if HasId(teams, m.awayTeamId) then ValueOr0(m.homeScore) else 0)
  {
    if teams != [] {
      var rest := teams[1..];
      RowSums(rest, m);
      forall id | true
        ensures HasId(teams, id) <==> teams[0].id == id || HasId(rest, id)
        ensures teams[0].id == id ==> !HasId(rest, id)
      {
        if HasId(teams, id) && teams[0].id != id {
          var i :| 0 <= i < |teams| && teams[i].id == id;
          assert rest[i - 1].id == id;
        }
        if HasId(rest, id) {
          var i :| 0 <= i < |rest| && rest[i].id == id;
          assert teams[i + 1].id == id;
        }
      }
    }
  }

  /** Every point scored is some team's point for and its opponent's point against. */
  lemma {:induction false} PointsBalance(teams: seq<Team>, ledger: seq<Matchup>)
    requires DistinctIds(teams) && WellFormedLedger(teams, ledger)
    ensures TotalFor(teams, ledger) == TotalAgainst(teams, ledger)
  {
    if ledger == [] {
      EmptyTotals(teams);
    } else {
      TotalsStep(teams, ledger);
      RowSums(teams, ledger[0]);
      assert WellFormedLedger(teams, ledger[1..]) by {
        forall i | 0 <= i < |ledger[1..]|
          ensures ledger[1..][i].homeTeamId != ledger[1..][i].awayTeamId
          ensures HasId(teams, ledger[1..][i].homeTeamId) && HasId(teams, ledger[1..][i].awayTeamId)
        {
          assert ledger[1..][i] == ledger[i + 1];
        }
      }
      PointsBalance(teams, ledger[1..]);
    }
  }

  lemma {:induction false} EmptyTotals(teams: seq<Team>)
    ensures TotalFor(teams, []) == 0 && TotalAgainst(teams, []) == 0
  {
    if teams != [] {
      EmptyTotals(teams[1..]);
    }
  }

  // ---------------------------------------------------------------------------
  // The season argument
  // ---------------------------------------------------------------------------

  /** A row without its streak: the part the SQL aggregate computes. */
  function Aggregate(s: Standing): Standing {
    s.(streak := 0)
  }

  /** Only the streak depends on the year: without it, the tables of any two years agree row by row. */
  lemma StandingsIgnoreYear(teams: seq<Team>, ledger: seq<Matchup>, schedules: seq<ScheduleRow>, y1: int, y2: int)
    ensures Map(Aggregate, StandingsOf(teams, ledger, schedules, y1)) ==
            Map(Aggregate, StandingsOf(teams, ledger, schedules, y2))
  {
    var rows1 := Map(t => RowOf(ledger, schedules, y1, t), teams);
    var rows2 := Map(t => RowOf(ledger, schedules, y2, t), teams);
    SortByMap(rows1, Rank, Aggregate, Rank);
    SortByMap(rows2, Rank, Aggregate, Rank);
    assert Map(Aggregate, rows1) == Map(Aggregate, rows2);
  }

  // ---------------------------------------------------------------------------
  // The NULL sums
  // ---------------------------------------------------------------------------

  /**
   * As written, the table cannot be read while any team has no scored
   * matchup: that team's SUM is NULL, which fails the query when the driver
   * refuses NULL for an `i32` field. At the start of a season this is every team.
   */
  lemma AsWrittenFailsBeforeFirstResult(teams: seq<Team>, ledger: seq<Matchup>, schedules: seq<ScheduleRow>, year: int, t: nat)
    requires t < |teams|
    requires forall i :: 0 <= i < |ledger| && Involves(ledger[i], teams[t].id) ==>
               ledger[i].homeScore.None? && ledger[i].awayScore.None?
    ensures StandingsAsWritten(teams, ledger, schedules, year) == None
  {
    SqlSumIsPoints(ledger, teams[t].id, true);
  }

  /** Once every team has a scored matchup, the query as written returns the same table. */
  lemma AsWrittenAgreesOnceAllScored(teams: seq<Team>, ledger: seq<Matchup>, schedules: seq<ScheduleRow>, year: int)
    requires forall t :: 0 <= t < |teams| ==>
               exists i :: 0 <= i < |ledger| && Involves(ledger[i], teams[t].id) && Played(ledger[i])
    ensures StandingsAsWritten(teams, ledger, schedules, year) == Some(StandingsOf(teams, ledger, schedules, year))
  {
    forall t | 0 <= t < |teams|
      ensures SqlSum(ledger, teams[t].id, true).Some? && SqlSum(ledger, teams[t].id, false).Some?
    {
      var i :| 0 <= i < |ledger| && Involves(ledger[i], teams[t].id) && Played(ledger[i]);
      assert Scored(ledger[i], teams[t].id, true) && Scored(ledger[i], teams[t].id, false);
      SqlSumIsPoints(ledger, teams[t].id, true);
      SqlSumIsPoints(ledger, teams[t].id, false);
    }
  }

  /** Corrected: a team without a scored matchup has a row of zeros. */
  lemma {:induction false} UnscoredTeamRow(ledger: seq<Matchup>, teamId: int)
    requires forall i :: 0 <= i < |ledger| ==>
               !Involves(ledger[i], teamId) || (ledger[i].homeScore.None? && ledger[i].awayScore.None?)
    ensures Wins(ledger, teamId) == 0 && Losses(ledger, teamId) == 0 && Draws(ledger, teamId) == 0
    ensures PointsFor(ledger, teamId) == 0 && PointsAgainst(ledger, teamId) == 0
  {
    if ledger != [] {
      UnscoredTeamRow(ledger[1..], teamId);
    }
  }
}

# oaken season core, in Dafny

This project models the season-simulation core of the oaken desktop app's Rust backend (`src-tauri/src`).

**Scheduler.** The round-robin scheduler of `models/schedule.rs` uses the circle method:
- team 0 stays fixed;
- the other teams rotate one place to the right each week;
- position `n - k - 1` hosts position `k`;
- the first leg is then repeated with home and away swapped.

**Week controller.** `next_week` and `restart_game` in `handlers/game.rs` form a one-counter state machine over the game's tables. Those tables are teams, schedules, matchups and the one-row `ctrl` record (`GameState`).

**Score rule.** `compute_scores` (`models/matchup.rs`) and `LedgerEntry::simulate` (`model.rs`) score a side as `max(0, skill + offset)`, with the offset drawn from `-2..5`.

**Aggregates.**
- The league table of `Standing::get` (`models/standings.rs`): wins, draws, losses, points for and against, ordered by wins minus losses.
- The win streak of `Team::get_streak` (`models/team.rs`).

**Helpers.** The default league layout of `conf.rs` and `Capitalize` of `util.rs`.

**How the Dafny code is organised.**
- **Stateful code.** The parts that change state in the source are imperative here. The database is `Game.Store`, a class whose fields are the three tables and the `ctrl` row. `NextWeek`, `CreateRoundRobin`, `ComputeScores`, `SetWeek` and `RestartGame` are its methods. Each method states its whole new state against specification functions such as `PlayWeek`, `Fixtures` and `Score`.
- **Loops.** `Schedule.ScheduleWeeks` turns the tail recursion and `rotate_right` of `schedule_weeks` into a loop over a rotation array, and is proved equal to the closed form `FirstLeg`. `Teams.GetStreak` sorts an array in place by week and folds it from the end.
- **Pure code.** The pure parts are functions with lemmas: the score rule, `simulate`, the standings aggregate and the configuration helpers.
- **Injected randomness.** Randomness becomes parameters. `ComputeScores` takes its two offsets. `NextWeek` takes one offset pair per table row, used only by the rows it scores.

| file | module | source |
|---|---|---|
| wrappers.dfy | Wrappers | `Option`/`Result` |
| sorting.dfy | Sorting | stable insertion sort by key, the reference for `sort_by_key` and `ORDER BY` |
| schedule.dfy | Schedule | models/schedule.rs (`Scheduler`) |
| matchup.dfy | Matchups | models/matchup.rs |
| team.dfy | Teams | models/team.rs |
| model.dfy | Model | model.rs |
| standings.dfy | Standings | models/standings.rs |
| game.dfy | Game | handlers/game.rs, models/game.rs, the store side of models/schedule.rs and models/matchup.rs |
| conf.dfy | Conf | conf.rs |
| util.dfy | Util | util.rs |

## Model

| member | source | states |
|---|---|---|
| Util.Capitalize | src-tauri/src/util.rs:17-20 | the empty string maps to itself; otherwise the first character is upper-cased, the length is kept and the rest is unchanged |
| Util.CapitalizeKeepsCapitalized | src-tauri/src/util.rs:19 | a string whose first character is not a lower-case letter is returned unchanged |
| Util.CapitalizeIdempotent | src-tauri/src/util.rs:17-20 | capitalizing twice equals capitalizing once |
| Util.CapitalizePreservesTail | src-tauri/src/util.rs:15-19 | every character after the first is preserved verbatim |
| Conf.FromPair | src-tauri/src/conf.rs:36-43 | `abbr` is the first component and `name` is the second |
| Conf.TierName | src-tauri/src/conf.rs:72 | "Tier " followed by the digit of `i` |
| Conf.AllTiersAt | src-tauri/src/conf.rs:67-75 | the flat-mapped tier list has 4 entries per league; entry `4j + i` is "Tier i+1" of league `j` |
| Conf.DefaultLeagueConfigShape | src-tauri/src/conf.rs:51-79 | 8 leagues with the listed codes and names in order; 32 tiers grouped by league, tier `t` named "Tier (t % 4 + 1)" with league field equal to league `t / 4`'s name |
| Schedule.RotateTail | src-tauri/src/models/schedule.rs:163 | `teams[1..].rotate_right(1)`: the buffer becomes `[t0, t_last, t1, …]` |
| Schedule.RotationStep | src-tauri/src/models/schedule.rs:163 | rotating the week-`w` order gives the week-`w+1` order of the closed form |
| Schedule.WeekMatches | src-tauri/src/models/schedule.rs:145-152 | the week's matches are `n/2` pairs, match `k` hosted by position `n-k-1` against position `k` |
| Schedule.ScheduleWeeks | src-tauri/src/models/schedule.rs:140-166 | an odd team count gives no weeks; an even one gives the first leg of the circle method |
| Schedule.RoundRobin | src-tauri/src/models/schedule.rs:120-138 | the first leg followed by its mirror; `2(N-1)` weeks for even `N` |
| Schedule.DoubleLegNumbering | src-tauri/src/models/schedule.rs:154-157 | the `2(N-1)` weeks are numbered 1, 2, … consecutively |
| Schedule.MatchAt | src-tauri/src/models/schedule.rs:147-152 | each first-leg week has `N/2` matches; match `k` is home `rotation[N-k-1]` against away `rotation[k]` |
| Schedule.FixedTeamAway | src-tauri/src/models/schedule.rs:147-163 | `teams[0]` never moves and is the away side of match 0 every first-leg week |
| Schedule.MatchIsProper | src-tauri/src/models/schedule.rs:147-152 | no team plays itself, and both sides are listed teams |
| Schedule.EachTeamOncePerWeek | src-tauri/src/models/schedule.rs:147-152 | every first-leg week pairs all `N` teams, each exactly once |
| Schedule.TeamPlaysInWeek | src-tauri/src/models/schedule.rs:147-152 | each listed team plays in every first-leg week |
| Schedule.TeamPlaysOnceInWeek | src-tauri/src/models/schedule.rs:147-152 | no team plays twice in a week |
| Schedule.FirstLegWithinTeams | src-tauri/src/models/schedule.rs:147-152 | only listed teams appear in the first leg |
| Schedule.DoubleLegWithinTeams | src-tauri/src/models/schedule.rs:120-138 | only listed teams appear anywhere in the double round robin |
| Schedule.PairMeetsOnceInFirstLeg | src-tauri/src/models/schedule.rs:147-163 | every two different teams meet exactly once in the first leg |
| Schedule.MeetExists | src-tauri/src/models/schedule.rs:147-163 | any two team indices meet in some week of the first leg |
| Schedule.MeetUnique | src-tauri/src/models/schedule.rs:147-163 | they meet in at most one (week, match) |
| Schedule.EachHomeAwayPairOnce | src-tauri/src/models/schedule.rs:120-138 | each ordered pair (x at home, y away) is played exactly once in the double round robin |
| Schedule.Unfold | src-tauri/src/models/schedule.rs:121-137 | week `k + (N-1)` holds week `k`'s matches with home and away swapped |
| Matchups.Score | src-tauri/src/models/matchup.rs:67-68 | the score is `max(0, skill + offset)`: at least 0, at least `skill + offset`, equal to one of them, at most `max(0, skill + 4)` |
| Matchups.ScoreRange | src-tauri/src/models/matchup.rs:67-68 | a score is possible for a skill exactly when some offset in `-2..5` produces it |
| Matchups.NewMatchup | src-tauri/src/models/matchup.rs:22-43 | a created row carries its id, week, teams and schedule, and has both scores unset |
| Matchups.WithScores | src-tauri/src/models/matchup.rs:70-77 | the update sets both scores together and changes no other column |
| Matchups.WithTeam | src-tauri/src/models/matchup.rs:45-56 | returns exactly the matchups where the team is home or away |
| Teams.FindTeam | src-tauri/src/model.rs:44-51 | `None` exactly when no team has the id; otherwise the team at the first index with it |
| Teams.Completed | src-tauri/src/models/team.rs:63-73 | exactly the team's matchups of the year with both scores set |
| Teams.TrailingWins | src-tauri/src/models/team.rs:80-95 | the length of the run of wins at the most recent end: those are wins, and the one before is not |
| Teams.Streak | src-tauri/src/models/team.rs:62-96 | the streak is at most the number of completed matchups |
| Teams.SortByWeek | src-tauri/src/models/team.rs:75 | the array is sorted in place into the stable order by `wk_no` |
| Sorting.SortBySorts | src-tauri/src/models/team.rs:75 | the sorted list is ordered by the key |
| Sorting.SortByPermutes | src-tauri/src/models/team.rs:75 | sorting keeps the length and the multiset of elements |
| Sorting.SortBySorted | src-tauri/src/models/team.rs:75 | a list already in key order is returned unchanged |
| Sorting.SortByStable | src-tauri/src/models/team.rs:75 | the sort is stable: for every key, the elements with that key keep their input order |
| Matchups.Won | src-tauri/src/models/team.rs:81-91 | a win: the team is the side with the strictly higher score; an unscored matchup is nobody's win. `Standings.WinRuleShared` ties it to the standings' win CASEs, and `Teams.TrailingWins` and `Teams.FoldStreak` count runs of it |
| Teams.InsertIntoPrefix | src-tauri/src/models/team.rs:75 | one insertion step of the sort: `a[i]` is moved into the sorted prefix |
| Teams.FoldStreak | src-tauri/src/models/team.rs:77-95 | scanning from the most recent matchup, the count stops at the first loss or draw |
| Teams.GetStreak | src-tauri/src/models/team.rs:62-96 | sort then fold computes `Streak` |
| Teams.StreakExample | src-tauri/src/models/team.rs:80-95 | the history win, win, loss, win (oldest first) has a streak of 1 |
| Model.Simulate | src-tauri/src/model.rs:43-63 | "unknown team id" when the home or the away id is missing, succeeding exactly when both exist; `match_id` is `for_match.id`; both scores are non-negative and possible for the side's skill |
| Model.SimulateScores | src-tauri/src/model.rs:55-56 | each score is the rule applied to the skill of the first team listed with that id |
| Standings.WinsIn | src-tauri/src/models/standings.rs:42-43 | the two win CASEs of one joined row; `Standings.OneOutcome` states that with `LossesIn` and `DrawsIn` it counts a played row exactly once |
| Standings.LossesIn | src-tauri/src/models/standings.rs:45-46 | the two loss CASEs of one joined row; see `Standings.OneOutcome` |
| Standings.DrawsIn | src-tauri/src/models/standings.rs:44 | the draw CASE of one joined row; see `Standings.OneOutcome` |
| Standings.Wins | src-tauri/src/models/standings.rs:42-43 | `wins`, the COUNT over the team's joined rows; `Standings.RecordAddsUp` and `Standings.UnscoredRowIgnored` state its properties |
| Standings.Losses | src-tauri/src/models/standings.rs:45-46 | `losses`; see `Standings.RecordAddsUp` |
| Standings.Draws | src-tauri/src/models/standings.rs:44 | `draws`; see `Standings.RecordAddsUp` |
| Standings.PointsFor | src-tauri/src/models/standings.rs:47 | `points_for` with 0 for no scored row; `Standings.SqlSumIsPoints` ties it to the SQL SUM and `Standings.PointsBalance` balances it against `PointsAgainst` |
| Standings.PointsAgainst | src-tauri/src/models/standings.rs:48 | `points_against` with 0 for no scored row; see `Standings.SqlSumIsPoints` and `Standings.PointsBalance` |
| Standings.SqlSum | src-tauri/src/models/standings.rs:47-48 | the SUM as SQL evaluates it, NULL over no scored row; `Standings.SqlSumIsPoints` states when it is NULL and what it equals otherwise |
| Standings.RowOf | src-tauri/src/models/standings.rs:56-65 | one `Standing`: the team's id and name, the aggregates above and the team's streak in the year |
| Standings.StandingsOf | src-tauri/src/models/standings.rs:36-71 | `Standing::get` with 0 points for an unscored team; `Standings.StandingsOrdered`, `Standings.StandingsOnePerTeam`, `Standings.StandingsHaveEveryTeam` and `Standings.StandingsIgnoreYear` state its properties |
| Standings.StandingsAsWritten | src-tauri/src/models/standings.rs:36-54 | the query as written, failing when a SUM is NULL; `Standings.AsWrittenFailsBeforeFirstResult` and `Standings.AsWrittenAgreesOnceAllScored` state when it fails and when it agrees with `StandingsOf` |
| Standings.SqlSumIsPoints | src-tauri/src/models/standings.rs:47-48 | the SQL SUM is NULL exactly when no joined row has that score, and otherwise equals the modelled points |
| Standings.StandingsOrdered | src-tauri/src/models/standings.rs:53 | rows are ordered by wins minus losses, never increasing |
| Standings.StandingsOnePerTeam | src-tauri/src/models/standings.rs:49-52 | one row per team: same length and same multiset as the per-team rows |
| Standings.StandingsHaveEveryTeam | src-tauri/src/models/standings.rs:49-52 | every team's row appears in the table |
| Standings.OneOutcome | src-tauri/src/models/standings.rs:42-46 | a played matchup between two different teams counts once, as a win, draw or loss, for each side |
| Standings.RecordAddsUp | src-tauri/src/models/standings.rs:42-46 | wins + draws + losses is the number of the team's played matchups |
| Standings.WinRuleShared | src-tauri/src/models/standings.rs:42-43 | the standings' win CASEs and the streak's win test agree |
| Standings.UnscoredCountsNothing | src-tauri/src/models/standings.rs:42-48 | a ledger of unscored matchups gives zero counts and zero points |
| Standings.UnscoredRowIgnored | src-tauri/src/models/standings.rs:42-48 | inserting an unscored matchup anywhere changes no count or sum |
| Standings.PointsBalance | src-tauri/src/models/standings.rs:47-48 | over all teams, the total of points for equals the total of points against |
| Standings.StandingsIgnoreYear | src-tauri/src/models/standings.rs:36-54 | apart from the streak, the tables for any two years are equal row by row |
| Standings.AsWrittenFailsBeforeFirstResult | src-tauri/src/models/standings.rs:47-48 | as written, the query fails whenever some team has no scored matchup (no row it plays in has a score set) |
| Standings.AsWrittenAgreesOnceAllScored | src-tauri/src/models/standings.rs:47-48 | once every team has a scored matchup, the query as written returns the modelled table |
| Standings.UnscoredTeamRow | src-tauri/src/models/standings.rs:42-48 | a team with no scored matchup gets 0 for every count and sum |
| Game.FirstWithYear | src-tauri/src/models/schedule.rs:64-70 | `None` exactly when no schedule has the year; otherwise the first such row |
| Game.FinalWeek | src-tauri/src/handlers/game.rs:53-58 | the maximum `wk_no` of the schedule's matchups, or 0 when there are none |
| Game.FoldFinalWeek | src-tauri/src/handlers/game.rs:53-58 | the fold from 0 with `max` computes `FinalWeek` |
| Game.ScoredWith | src-tauri/src/models/matchup.rs:64-77 | a scored row keeps its id, teams, schedule and week, has both scores set, and each score is possible for its side's skill |
| Game.PlayWeek | src-tauri/src/handlers/game.rs:66-76 | the matchups after the week is scored; `Game.PlayWeekScoresThisWeekOnly` and `Game.PlayWeekKeepsFinalWeek` state what it changes and keeps |
| Game.PlayWeekScoresThisWeekOnly | src-tauri/src/handlers/game.rs:66-76 | exactly the current week's rows get scored, even if they were already scored; every other row is unchanged |
| Game.PlayWeekKeepsFinalWeek | src-tauri/src/handlers/game.rs:53-76 | scoring a week leaves every schedule's final week unchanged |
| Game.SetScores | src-tauri/src/models/matchup.rs:70-77 | the `UPDATE ... WHERE id = $3`; `Game.SetScoresOnlyThatRow` states which rows change and how |
| Game.SetScoresOnlyThatRow | src-tauri/src/models/matchup.rs:70-77 | the update touches only rows with that id, giving them both scores |
| Game.Fixtures | src-tauri/src/models/schedule.rs:94-99 | one row per scheduled match |
| Game.FixtureAt | src-tauri/src/models/schedule.rs:94-99 | match `k` of week `w` becomes the row after the earlier weeks' rows, with that match's teams and week number |
| Game.FixturesFresh | src-tauri/src/models/matchup.rs:33-35 | the new rows carry consecutive fresh ids, the new schedule's id and no scores |
| Game.RoundRobinSize | src-tauri/src/models/schedule.rs:94-99 | a double round robin of `N` teams inserts `N(N-1)` matchups |
| Game.RoundRobinFielded | src-tauri/src/models/schedule.rs:83-99 | the scheduled matches only name teams of the table |
| Game.Store.constructor | src-tauri/src/models/game.rs:7-12 | empty tables and the given `ctrl` row |
| Game.Store.SetWeek | src-tauri/src/models/game.rs:23-31 | only `wk_no` changes; `year`, `schema_ver` and the tables are unchanged |
| Game.Store.InsertTeam | src-tauri/src/handlers/game.rs:33-36 | appends the team under a fresh id |
| Game.Store.CreateEmpty | src-tauri/src/models/schedule.rs:90 | appends a schedule row for the year under a fresh id |
| Game.Store.CreateMatchup | src-tauri/src/models/matchup.rs:22-43 | appends a row with both scores unset under a fresh id |
| Game.Store.ComputeScores | src-tauri/src/models/matchup.rs:59-79 | with both teams present, every row with that id gets both scores by the rule from those teams' skills; with either missing, nothing changes |
| Game.Store.NextWeek | src-tauri/src/handlers/game.rs:48-80 | no schedule for the year: nothing changes. Current week past the final week: nothing changes, so repeated calls stay put. Otherwise the table becomes `PlayWeek` of the old table and the week advances by exactly one, which keeps `wk_no <= final_wk + 1` |
| Game.Store.ScoreWeek | src-tauri/src/handlers/game.rs:66-76 | `compute_scores` over the week's rows yields `PlayWeek` |
| Game.Store.CreateRoundRobin | src-tauri/src/models/schedule.rs:82-102 | an odd team count writes nothing. Otherwise it writes one schedule row; no teams stops there; else the matchups become old rows + `Fixtures` of the double round robin of the team ids, `N(N-1)` new rows |
| Game.Store.AddWeeks | src-tauri/src/models/schedule.rs:94-99 | the outer loop appends the fixtures of every week |
| Game.Store.AddWeek | src-tauri/src/models/schedule.rs:95-98 | the inner loop appends one week's fixtures |
| Game.Store.RestartGame | src-tauri/src/handlers/game.rs:21-46 | a config that failed to load changes nothing. Otherwise the tables are replaced by the configured teams and, for an even non-zero count, by the 2023 schedule and its fixtures with the week set to 1. `year` is untouched |

## Left out

- Tauri wiring, the SQLite pool, schema bootstrap, event emission and the React front end are I/O. The tables are sequences in insertion order; a query without `ORDER BY` returns rows in that order.
- Randomness: each `rng.gen_range(-2..5)` is a parameter with that range as a precondition.
- Row ids come from counters that only grow. SQLite may reuse ids once a table is emptied; only uniqueness is relied on.
- `Matchup::create` also writes `season_id` (always 0 here) and `Team` rows carry tier and league columns; neither is modelled.
- `win_percent` is floating point, and divides by zero for a team with no games.
- Integer width: skills, scores, weeks and sums are unbounded integers; i32 overflow is not modelled.
- Util.Capitalize: upper-cases ASCII letters only. Rust's `to_uppercase` maps all of Unicode and can expand one character into several.
- Game.Store.RestartGame: reading and parsing the TOML team file is an `Option` argument (`None` stands for both failures: a file that cannot be read panics through `present_err().unwrap()`, and a TOML parse error skips the body silently; in both cases nothing is written). A panic in `create_round_robin` (odd or zero team count) is an outcome value; the tables stay as written up to that point and the week is not set. The `year` of `ctrl` is not set by the source either.
- Game.Store.ComputeScores: a missing team is the `unwrap` panic of `Team::get`; the model reports it as `found == false` with nothing written.
- Game.Store.NextWeek: the `unwrap` on a missing schedule is the `NoSchedule` outcome with nothing written. The loop walks the whole table and tests each row, which is the source's filter followed by its loop.
- Standings.StandingsOf: `ORDER BY` leaves ties in an unspecified order; the model keeps them in table order (a stable sort).
- `get_by_year` reads the first matching schedule row; a second schedule for the same year is never looked at.
- TOML serialisation of the configuration and the `LeagueConfig` file handlers are a foreign library and I/O.

## Findings

| source | as written | input that shows it | evidently intended | confidence | as-written member | corrected member |
|---|---|---|---|---|---|---|
| src-tauri/src/models/standings.rs:47-48 | `points_for`/`points_against` are `SUM`s over the team's joined rows. For a team with no scored matchup the SUM is NULL. The struct field is a plain `i32`, not an `Option`; if the SQLite driver refuses to decode NULL into it, `query` unwraps that error (shared/sql.rs:39) and the call panics. The driver's behaviour is not part of these sources. | any team none of whose matchups is scored, e.g. right after `restart_game` | a team with no scored games has 0 points for and against (e.g. `COALESCE(SUM(...), 0)`) | not executed | Standings.AsWrittenFailsBeforeFirstResult | Standings.UnscoredTeamRow |

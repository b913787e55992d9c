/**
 * The game's store and week controller: the tables that models/schedule.rs,
 * models/matchup.rs and models/game.rs write (teams, schedules, matchups and
 * the one-row `ctrl` table holding `GameState`), and the commands of
 * handlers/game.rs that drive them.
 *
 * A table is a sequence in insertion order. Row ids come from counters that
 * only grow; SQLite may reuse ids once a table is emptied, and the model
 * relies only on ids being unique.
 */
module Game {
  import opened Wrappers
  import opened Matchups
  import opened Teams
  import opened Schedule
  import Conf

  /** The `ctrl` row. */
  datatype GameState = GameState(schemaVer: int, year: int, wkNo: int)

  /** How `create_round_robin` ends: with a new schedule, or in one of its two panics. */
  datatype RoundRobinOutcome =
    | Created(scheduleId: int)
    | OddTeamCount   // "team count is not even", before anything is written
    | NoTeams        // the schedule row exists, then `schedule_weeks` fails on an empty list

  /** How `next_week` ends. */
  datatype WeekOutcome =
    | Advanced
    | SeasonOver     // the current week is past the last one: nothing happens
    | NoSchedule     // `get_by_year` found no schedule and the `unwrap` panics

  // ---------------------------------------------------------------------------
  // The queries `next_week` relies on
  // ---------------------------------------------------------------------------

  /** `Schedule::get_by_year`: the first schedule row of the year. */
  function FirstWithYear(schedules: seq<ScheduleRow>, year: int): (r: Option<ScheduleRow>)
    ensures r.None? <==> forall i :: 0 <= i < |schedules| ==> schedules[i].year != year
    ensures r.Some? ==> exists i :: 0 <= i < |schedules| && schedules[i] == r.value && r.value.year == year &&
                                    forall j :: 0 <= j < i ==> schedules[j].year != year
  {
    if schedules == [] then None
    else if schedules[0].year == year then Some(schedules[0])
    else
      var r := FirstWithYear(schedules[1..], year);
      assert r.Some? ==> exists i :: 1 <= i < |schedules| && schedules[i] == r.value && r.value.year == year &&
                                     forall j :: 0 <= j < i ==> schedules[j].year != year by {
        if r.Some? {
          var i :| 0 <= i < |schedules[1..]| && schedules[1..][i] == r.value && r.value.year == year &&
                   forall j :: 0 <= j < i ==> schedules[1..][j].year != year;
          assert schedules[i + 1] == r.value;
          forall j | 1 <= j < i + 1 ensures schedules[j].year != year {
            assert schedules[j] == schedules[1..][j - 1];
          }
        }
      }
      r
  }

  /**
   * `final_wk`: the largest week number among the schedule's matchups, folding
   * from 0, so 0 when it has none.
   */
  function FinalWeek(ms: seq<Matchup>, scheduleId: int): (r: int)
    ensures r >= 0
    ensures forall i :: 0 <= i < |ms| && ms[i].scheduleId == scheduleId ==> ms[i].wkNo <= r
    ensures r == 0 || exists i :: 0 <= i < |ms| && ms[i].scheduleId == scheduleId && ms[i].wkNo == r
  {
    if ms == [] then 0
    else
      var prev := FinalWeek(ms[..|ms| - 1], scheduleId);
      var m := ms[|ms| - 1];
      assert forall i :: 0 <= i < |ms| - 1 ==> ms[..|ms| - 1][i] == ms[i];
      if m.scheduleId == scheduleId && m.wkNo > prev then m.wkNo else prev
  }

  /** The final week depends only on which schedule and week each row belongs to. */
  lemma {:induction false} FinalWeekOfFixtures(ms1: seq<Matchup>, ms2: seq<Matchup>, scheduleId: int)
    requires |ms1| == |ms2|
    requires forall i :: 0 <= i < |ms1| ==> ms1[i].scheduleId == ms2[i].scheduleId && ms1[i].wkNo == ms2[i].wkNo
    ensures FinalWeek(ms1, scheduleId) == FinalWeek(ms2, scheduleId)
  {
    if ms1 != [] {
      FinalWeekOfFixtures(ms1[..|ms1| - 1], ms2[..|ms2| - 1], scheduleId);
    }
  }

  /** A matchup `next_week` scores: in the season's schedule, in the current week. */
  predicate Due(m: Matchup, scheduleId: int, wkNo: int) {
    m.scheduleId == scheduleId && m.wkNo == wkNo
  }

  /** Both sides of every offset pair are in `-2..5`. */
  predicate ValidRolls(rolls: seq<(int, int)>) {
    forall i :: 0 <= i < |rolls| ==> ValidOffset(rolls[i].0) && ValidOffset(rolls[i].1)
  }

  /** Every matchup names teams that exist. */
  predicate Referenced(teams: seq<Team>, ms: seq<Matchup>) {
    forall i :: 0 <= i < |ms| ==> HasId(teams, ms[i].homeTeamId) && HasId(teams, ms[i].awayTeamId)
  }

  /** The scores `compute_scores` gives a matchup, from the two offsets it draws. */
  function ScoredWith(teams: seq<Team>, m: Matchup, roll: (int, int)): (r: Matchup)
    requires ValidOffset(roll.0) && ValidOffset(roll.1)
    requires HasId(teams, m.homeTeamId) && HasId(teams, m.awayTeamId)
    ensures Played(r) && ScoresPaired(r)
    ensures r.id == m.id && r.wkNo == m.wkNo && r.scheduleId == m.scheduleId
    ensures r.homeTeamId == m.homeTeamId && r.awayTeamId == m.awayTeamId
    ensures PossibleScore(FindTeam(teams, m.homeTeamId).value.skill, r.homeScore.value)
    ensures PossibleScore(FindTeam(teams, m.awayTeamId).value.skill, r.awayScore.value)
  {
    var home := FindTeam(teams, m.homeTeamId).value;
    var away := FindTeam(teams, m.awayTeamId).value;
    ScoreRange(home.skill, Score(home.skill, roll.0));
    ScoreRange(away.skill, Score(away.skill, roll.1));
    WithScores(m, Score(home.skill, roll.0), Score(away.skill, roll.1))
  }

  /** The rows before `upTo` that are due this week scored; every other row as it was. */
  function PlayedUpTo(ms: seq<Matchup>, teams: seq<Team>, scheduleId: int, wkNo: int, rolls: seq<(int, int)>, upTo: int): (r: seq<Matchup>)
    requires |rolls| == |ms| && ValidRolls(rolls) && Referenced(teams, ms)
  {
    seq(|ms|, i requires 0 <= i < |ms| =>
      if i < upTo && Due(ms[i], scheduleId, wkNo) then ScoredWith(teams, ms[i], rolls[i]) else ms[i])
  }

  /** The table after `next_week` has scored the current week. */
  function PlayWeek(ms: seq<Matchup>, teams: seq<Team>, scheduleId: int, wkNo: int, rolls: seq<(int, int)>): seq<Matchup>
    requires |rolls| == |ms| && ValidRolls(rolls) && Referenced(teams, ms)
  {
    PlayedUpTo(ms, teams, scheduleId, wkNo, rolls, |ms|)
  }

  /**
   * Scoring a week sets both scores of exactly the due rows, whether or not
   * they were already scored, and leaves every other row as it was.
   */
  lemma PlayWeekScoresThisWeekOnly(ms: seq<Matchup>, teams: seq<Team>, scheduleId: int, wkNo: int, rolls: seq<(int, int)>, i: nat)
    requires |rolls| == |ms| && ValidRolls(rolls) && Referenced(teams, ms) && i < |ms|
    ensures var r := PlayWeek(ms, teams, scheduleId, wkNo, rolls);
            |r| == |ms| &&
            (Due(ms[i], scheduleId, wkNo) ==>
               Played(r[i]) &&
               r[i].homeScore.value == Score(FindTeam(teams, ms[i].homeTeamId).value.skill, rolls[i].0) &&
               r[i].awayScore.value == Score(FindTeam(teams, ms[i].awayTeamId).value.skill, rolls[i].1)) &&
            (!Due(ms[i], scheduleId, wkNo) ==> r[i] == ms[i])
  {
  }

  /** Scoring changes no row's id, teams, schedule or week, so the final week stays where it was. */
  lemma PlayWeekKeepsFinalWeek(ms: seq<Matchup>, teams: seq<Team>, scheduleId: int, wkNo: int, rolls: seq<(int, int)>, anySchedule: int)
    requires |rolls| == |ms| && ValidRolls(rolls) && Referenced(teams, ms)
    ensures FinalWeek(PlayWeek(ms, teams, scheduleId, wkNo, rolls), anySchedule) == FinalWeek(ms, anySchedule)
  {
    FinalWeekOfFixtures(PlayWeek(ms, teams, scheduleId, wkNo, rolls), ms, anySchedule);
  }

  /** `UPDATE matchups SET home_team_score = .., away_team_score = .. WHERE id = ..` */
  function SetScores(ms: seq<Matchup>, id: int, homeScore: int, awayScore: int): seq<Matchup> {
    seq(|ms|, i requires 0 <= i < |ms| => if ms[i].id == id then WithScores(ms[i], homeScore, awayScore) else ms[i])
  }

  /** The update touches only the rows with that id, and only their scores. */
  lemma SetScoresOnlyThatRow(ms: seq<Matchup>, id: int, homeScore: int, awayScore: int, i: nat)
    requires i < |ms|
    ensures |SetScores(ms, id, homeScore, awayScore)| == |ms|
    ensures ms[i].id != id ==> SetScores(ms, id, homeScore, awayScore)[i] == ms[i]
    ensures ms[i].id == id ==> SetScores(ms, id, homeScore, awayScore)[i] == ms[i].(homeScore := Some(homeScore), awayScore := Some(awayScore))
  {
  }

  // ---------------------------------------------------------------------------
  // The fixtures `create_round_robin` inserts
  // ---------------------------------------------------------------------------

  /** The number of scheduled matches in a list of weeks. */
  function MatchCount(wks: seq<ScheduledWeek>): nat {
    if wks == [] then 0 else MatchCount(wks[..|wks| - 1]) + |wks[|wks| - 1].matches|
  }

  /** The matchup rows of one week, with consecutive ids from `firstId`. */
  function WeekFixtures(wk: ScheduledWeek, scheduleId: int, firstId: int): seq<Matchup> {
    seq(|wk.matches|, k requires 0 <= k < |wk.matches| =>
      NewMatchup(firstId + k, wk.matches[k].homeId, wk.matches[k].awayId, wk.wkNo, scheduleId))
  }

  /** The matchup rows of a list of weeks, week by week, with consecutive ids from `firstId`. */
  function Fixtures(wks: seq<ScheduledWeek>, scheduleId: int, firstId: int): (r: seq<Matchup>)
    ensures |r| == MatchCount(wks)
  {
    if wks == [] then []
    else
      var init := wks[..|wks| - 1];
      Fixtures(init, scheduleId, firstId) + WeekFixtures(wks[|wks| - 1], scheduleId, firstId + MatchCount(init))
  }

  /** Match `k` of week `w` becomes the row after the matches of the earlier weeks, with that week's number. */
  lemma {:induction false} FixtureAt(wks: seq<ScheduledWeek>, scheduleId: int, firstId: int, w: nat, k: nat)
    requires w < |wks| && k < |wks[w].matches|
    ensures MatchCount(wks[..w]) + k < MatchCount(wks)
    ensures Fixtures(wks, scheduleId, firstId)[MatchCount(wks[..w]) + k] ==
            NewMatchup(firstId + MatchCount(wks[..w]) + k, wks[w].matches[k].homeId, wks[w].matches[k].awayId,
                       wks[w].wkNo, scheduleId)
  {
    var init := wks[..|wks| - 1];
    if w == |wks| - 1 {
      assert wks[..w] == init;
    } else {
      assert init[..w] == wks[..w] && init[w] == wks[w];
      FixtureAt(init, scheduleId, firstId, w, k);
    }
  }

  /** A row as `Matchup::create` inserts it: the given id and schedule, no scores. */
  predicate FreshRow(m: Matchup, id: int, scheduleId: int) {
    m.id == id && m.scheduleId == scheduleId && m.homeScore.None? && m.awayScore.None?
  }

  /** The rows of a new schedule carry consecutive fresh ids, the schedule's id and no scores. */
  lemma {:induction false} FixturesFresh(wks: seq<ScheduledWeek>, scheduleId: int, firstId: int)
    ensures forall i :: 0 <= i < MatchCount(wks) ==> FreshRow(Fixtures(wks, scheduleId, firstId)[i], firstId + i, scheduleId)
  {
    if wks != [] {
      var init := wks[..|wks| - 1];
      FixturesFresh(init, scheduleId, firstId);
      var done := Fixtures(init, scheduleId, firstId);
      var added := WeekFixtures(wks[|wks| - 1], scheduleId, firstId + MatchCount(init));
      var r := Fixtures(wks, scheduleId, firstId);
      assert r == done + added;
      forall i | 0 <= i < |r|
        ensures FreshRow(r[i], firstId + i, scheduleId)
      {
        if i < |done| {
          assert r[i] == done[i];
        } else {
          assert r[i] == added[i - |done|];
          assert added[i - |done|].id == firstId + MatchCount(init) + (i - |done|);
        }
      }
    }
  }

  /** The loop step of `create_round_robin`: the table holds the rows of one more week. */
  lemma FixturesStep(before: seq<Matchup>, prev: seq<Matchup>, now: seq<Matchup>, wks: seq<ScheduledWeek>,
                     scheduleId: int, firstId: int, w: nat)
    requires w < |wks|
    requires prev == before + Fixtures(wks[..w], scheduleId, firstId)
    requires now == prev + WeekFixtures(wks[w], scheduleId, firstId + MatchCount(wks[..w]))
    ensures now == before + Fixtures(wks[..w + 1], scheduleId, firstId)
    ensures MatchCount(wks[..w + 1]) == MatchCount(wks[..w]) + |wks[w].matches|
  {
    FixturesSnoc(wks, scheduleId, firstId, w);
    AppendAssoc(before, Fixtures(wks[..w], scheduleId, firstId), WeekFixtures(wks[w], scheduleId, firstId + MatchCount(wks[..w])));
  }

  /** One more week appends that week's rows, numbered after the earlier weeks' rows. */
  lemma FixturesSnoc(wks: seq<ScheduledWeek>, scheduleId: int, firstId: int, w: nat)
    requires w < |wks|
    ensures MatchCount(wks[..w + 1]) == MatchCount(wks[..w]) + |wks[w].matches|
    ensures Fixtures(wks[..w + 1], scheduleId, firstId) ==
            Fixtures(wks[..w], scheduleId, firstId) + WeekFixtures(wks[w], scheduleId, firstId + MatchCount(wks[..w]))
  {
    assert wks[..w + 1][..w] == wks[..w];
  }

  /** One more match of the week appends its row. */
  lemma WeekFixturesSnoc(wk: ScheduledWeek, scheduleId: int, firstId: int, k: nat)
    requires k < |wk.matches|
    ensures WeekFixtures(wk, scheduleId, firstId)[..k + 1] ==
            WeekFixtures(wk, scheduleId, firstId)[..k] +
            [NewMatchup(firstId + k, wk.matches[k].homeId, wk.matches[k].awayId, wk.wkNo, scheduleId)]
  {
  }

  lemma AppendAssoc<T>(a: seq<T>, b: seq<T>, c: seq<T>)
    ensures (a + b) + c == a + (b + c)
  {
  }

  /** Weeks that all hold `c` matches hold `|wks| * c` in total. */
  lemma {:induction false} MatchCountUniform(wks: seq<ScheduledWeek>, c: nat)
    requires forall w :: 0 <= w < |wks| ==> |wks[w].matches| == c
    ensures MatchCount(wks) == |wks| * c
  {
    if wks != [] {
      MatchCountUniform(wks[..|wks| - 1], c);
    }
  }

  /** A double round robin of n teams inserts n(n-1) matchups. */
  lemma RoundRobinSize(ids: seq<int>)
    requires 2 <= |ids| && |ids| % 2 == 0
    ensures MatchCount(DoubleLeg(FirstLeg(ids))) == |ids| * (|ids| - 1)
  {
    var wks := DoubleLeg(FirstLeg(ids));
    var first := FirstLeg(ids);
    forall w | 0 <= w < |wks| ensures |wks[w].matches| == |ids| / 2 {
      if w >= |first| {
        assert wks[w] == Mirrored(first[w - |first|], |first|);
      }
    }
    MatchCountUniform(wks, |ids| / 2);
    assert |wks| == 2 * (|ids| - 1);
  }

  /** The team ids in table order (`Team::get_all` mapped to ids). */
  function TeamIds(teams: seq<Team>): (r: seq<int>)
    ensures |r| == |teams| && forall i :: 0 <= i < |teams| ==> r[i] == teams[i].id
  {
    seq(|teams|, i requires 0 <= i < |teams| => teams[i].id)
  }

  /** An id in the list of team ids belongs to a team, and distinct rows give distinct ids. */
  lemma TeamIdsFacts(teams: seq<Team>)
    ensures forall x :: x in TeamIds(teams) ==> HasId(teams, x)
    ensures DistinctIds(teams) ==> Distinct(TeamIds(teams))
  {
    var ids := TeamIds(teams);
    forall x | x in ids ensures HasId(teams, x) {
      var i :| 0 <= i < |ids| && ids[i] == x;
      assert teams[i].id == x;
    }
  }

  /** Every match of the week is between teams of the table. */
  predicate Fielded(teams: seq<Team>, wk: ScheduledWeek) {
    forall k :: 0 <= k < |wk.matches| ==> HasId(teams, wk.matches[k].homeId) && HasId(teams, wk.matches[k].awayId)
  }

  /** The round robin of the table's teams only schedules teams of the table. */
  lemma RoundRobinFielded(teams: seq<Team>)
    requires 2 <= |teams| && DistinctIds(teams)
    ensures forall w :: 0 <= w < |DoubleLeg(FirstLeg(TeamIds(teams)))| ==> Fielded(teams, DoubleLeg(FirstLeg(TeamIds(teams)))[w])
  {
    var ids := TeamIds(teams);
    var wks := DoubleLeg(FirstLeg(ids));
    TeamIdsFacts(teams);
    forall w, k | 0 <= w < |wks| && 0 <= k < |wks[w].matches|
      ensures HasId(teams, wks[w].matches[k].homeId) && HasId(teams, wks[w].matches[k].awayId)
    {
      DoubleLegWithinTeams(ids, w, k);
    }
  }

  /** The teams `restart_game` inserts, with ids from `firstId` on. */
  function NewTeams(items: seq<Conf.TeamConfigItem>, firstId: int): (r: seq<Team>)
    ensures |r| == |items|
    ensures forall i :: 0 <= i < |items| ==> r[i] == Team(firstId + i, items[i].name, items[i].skill)
  {
    seq(|items|, i requires 0 <= i < |items| => Team(firstId + i, items[i].name, items[i].skill))
  }

  /** Both scores set or both unset, in every row. */
  predicate AllPaired(ms: seq<Matchup>) {
    forall i :: 0 <= i < |ms| ==> ScoresPaired(ms[i])
  }

  /** Matchup ids are the table's primary key, all below the next id to hand out. */
  predicate MatchupIds(ms: seq<Matchup>, nextId: int) {
    (forall i, j :: 0 <= i < j < |ms| ==> ms[i].id != ms[j].id) &&
    (forall i :: 0 <= i < |ms| ==> ms[i].id < nextId)
  }

  /** Team ids are the table's primary key, all below the next id to hand out. */
  predicate TeamIdsBelow(teams: seq<Team>, nextId: int) {
    DistinctIds(teams) && forall i :: 0 <= i < |teams| ==> teams[i].id < nextId
  }

  /** Scoring row `i` of the snapshot, as `compute_scores` does by id, extends the scored prefix by one row. */
  lemma PlayedUpToStep(ms: seq<Matchup>, teams: seq<Team>, scheduleId: int, wkNo: int, rolls: seq<(int, int)>, i: nat)
    requires |rolls| == |ms| && ValidRolls(rolls) && Referenced(teams, ms)
    requires forall j, k :: 0 <= j < k < |ms| ==> ms[j].id != ms[k].id
    requires i < |ms|
    ensures !Due(ms[i], scheduleId, wkNo) ==>
              PlayedUpTo(ms, teams, scheduleId, wkNo, rolls, i + 1) == PlayedUpTo(ms, teams, scheduleId, wkNo, rolls, i)
    ensures Due(ms[i], scheduleId, wkNo) ==>
              PlayedUpTo(ms, teams, scheduleId, wkNo, rolls, i + 1) ==
              SetScores(PlayedUpTo(ms, teams, scheduleId, wkNo, rolls, i), ms[i].id,
                        Score(FindTeam(teams, ms[i].homeTeamId).value.skill, rolls[i].0),
                        Score(FindTeam(teams, ms[i].awayTeamId).value.skill, rolls[i].1))
  {
    var before := PlayedUpTo(ms, teams, scheduleId, wkNo, rolls, i);
    var after := PlayedUpTo(ms, teams, scheduleId, wkNo, rolls, i + 1);
    if Due(ms[i], scheduleId, wkNo) {
      var h := Score(FindTeam(teams, ms[i].homeTeamId).value.skill, rolls[i].0);
      var a := Score(FindTeam(teams, ms[i].awayTeamId).value.skill, rolls[i].1);
      var scored := SetScores(before, ms[i].id, h, a);
      forall j | 0 <= j < |ms| ensures after[j] == scored[j] {
        if j != i {
          assert ms[j].id != ms[i].id;
        }
      }
    } else {
      forall j | 0 <= j < |ms| ensures after[j] == before[j] {
      }
    }
  }

  /**
   * The fold of `next_week` that finds `final_wk`: the largest week number of
   * the schedule's matchups, starting from 0.
   */
  method FoldFinalWeek(ms: seq<Matchup>, scheduleId: int) returns (finalWk: int)
    ensures finalWk == FinalWeek(ms, scheduleId)
  {
    finalWk := 0;
    for i := 0 to |ms|
      invariant finalWk == FinalWeek(ms[..i], scheduleId)
    {
      assert ms[..i + 1][..i] == ms[..i];
      if ms[i].scheduleId == scheduleId && ms[i].wkNo > finalWk {
        finalWk := ms[i].wkNo;
      }
    }
    assert ms[..|ms|] == ms;
  }

  /** The game's database: the three tables, the `ctrl` row and the id counters. */
  class Store {
    var teams: seq<Team>
    var schedules: seq<ScheduleRow>
    var matchups: seq<Matchup>
    var state: GameState
    var nextTeamId: int
    var nextScheduleId: int
    var nextMatchupId: int

    /** Ids are unique, every matchup names existing teams, and scores are set in pairs. */
    predicate Valid()
      reads this
    {
      TeamIdsBelow(teams, nextTeamId) &&
      MatchupIds(matchups, nextMatchupId) &&
      Referenced(teams, matchups) &&
      AllPaired(matchups)
    }

    constructor(initial: GameState)
      ensures Valid()
      ensures teams == [] && schedules == [] && matchups == [] && state == initial
    {
      teams := [];
      schedules := [];
      matchups := [];
      state := initial;
      nextTeamId := 1;
      nextScheduleId := 1;
      nextMatchupId := 1;
    }

    /** `GameState::set_week`: `UPDATE ctrl SET wk_no = $1`, nothing else. */
    method SetWeek(wk: int)
      requires Valid()
      modifies this
      ensures Valid()
      ensures state == old(state).(wkNo := wk)
      ensures state.year == old(state).year && state.schemaVer == old(state).schemaVer
      ensures teams == old(teams) && schedules == old(schedules) && matchups == old(matchups)
      ensures nextTeamId == old(nextTeamId) && nextScheduleId == old(nextScheduleId) && nextMatchupId == old(nextMatchupId)
    {
      state := state.(wkNo := wk);
    }

    /** `INSERT INTO teams (name, skill)`: a new team under a fresh id. */
    method InsertTeam(name: string, skill: int) returns (id: int)
      requires Valid()
      modifies this
      ensures Valid()
      ensures id == old(nextTeamId) && nextTeamId == id + 1
      ensures teams == old(teams) + [Team(id, name, skill)]
      ensures schedules == old(schedules) && matchups == old(matchups) && state == old(state)
      ensures nextScheduleId == old(nextScheduleId) && nextMatchupId == old(nextMatchupId)
    {
      id := nextTeamId;
      teams := teams + [Team(id, name, skill)];
      nextTeamId := nextTeamId + 1;
      assert forall x :: HasId(old(teams), x) ==> HasId(teams, x) by {
        forall x | HasId(old(teams), x) ensures HasId(teams, x) {
          var i :| 0 <= i < |old(teams)| && old(teams)[i].id == x;
          assert teams[i].id == x;
        }
      }
    }

    /** `Schedule::create_empty`: a new schedule row for the year. */
    method CreateEmpty(year: int) returns (id: int)
      requires Valid()
      modifies this
      ensures Valid()
      ensures id == old(nextScheduleId) && nextScheduleId == id + 1
      ensures schedules == old(schedules) + [ScheduleRow(id, year)]
      ensures teams == old(teams) && matchups == old(matchups) && state == old(state)
      ensures nextTeamId == old(nextTeamId) && nextMatchupId == old(nextMatchupId)
    {
      id := nextScheduleId;
      schedules := schedules + [ScheduleRow(id, year)];
      nextScheduleId := nextScheduleId + 1;
    }

    /** `Matchup::create`: a new row under a fresh id, with both scores unset. */
    method CreateMatchup(homeId: int, awayId: int, wkNo: int, scheduleId: int) returns (m: Matchup)
      requires Valid() && HasId(teams, homeId) && HasId(teams, awayId)
      modifies this
      ensures Valid()
      ensures m == NewMatchup(old(nextMatchupId), homeId, awayId, wkNo, scheduleId)
      ensures matchups == old(matchups) + [m] && nextMatchupId == old(nextMatchupId) + 1
      ensures teams == old(teams) && schedules == old(schedules) && state == old(state)
      ensures nextTeamId == old(nextTeamId) && nextScheduleId == old(nextScheduleId)
    {
      m := NewMatchup(nextMatchupId, homeId, awayId, wkNo, scheduleId);
      matchups := matchups + [m];
      nextMatchupId := nextMatchupId + 1;
    }

    /**
     * `Matchup::compute_scores` with the two drawn offsets as arguments: looks
     * up both teams of the given record (a missing one is the `unwrap` panic,
     * and nothing is written) and sets both scores of the rows with its id.
     */
    method ComputeScores(m: Matchup, homeOffset: int, awayOffset: int) returns (found: bool)
      requires Valid() && ValidOffset(homeOffset) && ValidOffset(awayOffset)
      modifies this
      ensures Valid()
      ensures teams == old(teams) && schedules == old(schedules) && state == old(state)
      ensures nextTeamId == old(nextTeamId) && nextScheduleId == old(nextScheduleId) && nextMatchupId == old(nextMatchupId)
      ensures found <==> HasId(teams, m.homeTeamId) && HasId(teams, m.awayTeamId)
      ensures !found ==> matchups == old(matchups)
      ensures found ==> matchups == SetScores(old(matchups), m.id,
                                              Score(FindTeam(teams, m.homeTeamId).value.skill, homeOffset),
                                              Score(FindTeam(teams, m.awayTeamId).value.skill, awayOffset))
    {
      var home := FindTeam(teams, m.homeTeamId);
      var away := FindTeam(teams, m.awayTeamId);
      if home.None? || away.None? {
        return false;
      }
      var homeScore := Score(home.value.skill, homeOffset);
      var awayScore := Score(away.value.skill, awayOffset);
      matchups := SetScores(matchups, m.id, homeScore, awayScore);
      return true;
    }

    /**
     * `next_week`: scores every matchup of the current week in the year's
     * schedule, then moves to the next week; once the current week is past
     * the schedule's final week it does nothing. `rolls[i]` is the pair of
     * offsets drawn for table row `i`, used only if that row is due.
     */
    method NextWeek(rolls: seq<(int, int)>) returns (outcome: WeekOutcome)
      requires Valid() && |rolls| == |matchups| && ValidRolls(rolls)
      modifies this
      ensures Valid()
      ensures teams == old(teams) && schedules == old(schedules)
      ensures nextTeamId == old(nextTeamId) && nextScheduleId == old(nextScheduleId) && nextMatchupId == old(nextMatchupId)
      ensures outcome == NoSchedule <==> FirstWithYear(schedules, old(state).year).None?
      ensures outcome != Advanced ==> matchups == old(matchups) && state == old(state)
      ensures outcome != NoSchedule ==>
                var sid := FirstWithYear(schedules, old(state).year).value.id;
                (outcome == SeasonOver <==> old(state).wkNo > FinalWeek(old(matchups), sid))
      ensures outcome == Advanced ==>
                var sid := FirstWithYear(schedules, old(state).year).value.id;
                matchups == PlayWeek(old(matchups), teams, sid, old(state).wkNo, rolls) &&
                state == old(state).(wkNo := old(state).wkNo + 1) &&
                FinalWeek(matchups, sid) == FinalWeek(old(matchups), sid) &&
                state.wkNo <= FinalWeek(matchups, sid) + 1
    {
      var current := state;
      var schedule := FirstWithYear(schedules, current.year);
      if schedule.None? {
        return NoSchedule;
      }
      var sid := schedule.value.id;
      var finalWk := FoldFinalWeek(matchups, sid);
      if current.wkNo > finalWk {
        return SeasonOver;
      }
      ScoreWeek(sid, current.wkNo, rolls);
      SetWeek(current.wkNo + 1);
      PlayWeekKeepsFinalWeek(old(matchups), teams, sid, current.wkNo, rolls, sid);
      return Advanced;
    }

    /** The loop of `next_week`: `compute_scores` on each matchup due this week, in table order. */
    method ScoreWeek(sid: int, wkNo: int, rolls: seq<(int, int)>)
      requires Valid() && |rolls| == |matchups| && ValidRolls(rolls)
      modifies this
      ensures Valid()
      ensures teams == old(teams) && schedules == old(schedules) && state == old(state)
      ensures nextTeamId == old(nextTeamId) && nextScheduleId == old(nextScheduleId) && nextMatchupId == old(nextMatchupId)
      ensures matchups == PlayWeek(old(matchups), teams, sid, wkNo, rolls)
    {
      var ms := matchups;
      for i := 0 to |ms|
        invariant Valid()
        invariant teams == old(teams) && schedules == old(schedules) && state == old(state)
        invariant nextTeamId == old(nextTeamId) && nextScheduleId == old(nextScheduleId) && nextMatchupId == old(nextMatchupId)
        invariant matchups == PlayedUpTo(ms, teams, sid, wkNo, rolls, i)
      {
        PlayedUpToStep(ms, teams, sid, wkNo, rolls, i);
        if Due(ms[i], sid, wkNo) {
          var found := ComputeScores(ms[i], rolls[i].0, rolls[i].1);
        }
      }
    }

    /**
     * `Schedule::create_round_robin`: refuses an odd number of teams before
     * writing anything; otherwise creates the year's schedule row and then,
     * if there are teams, one matchup per fixture of the double round robin,
     * week by week, numbered from the next free matchup id.
     */
    method CreateRoundRobin(year: int) returns (outcome: RoundRobinOutcome)
      requires Valid()
      modifies this
      ensures Valid()
      ensures teams == old(teams) && state == old(state) && nextTeamId == old(nextTeamId)
      ensures outcome == OddTeamCount <==> |teams| % 2 != 0
      ensures outcome == NoTeams <==> |teams| == 0
      ensures outcome == OddTeamCount ==>
                schedules == old(schedules) && matchups == old(matchups) &&
                nextScheduleId == old(nextScheduleId) && nextMatchupId == old(nextMatchupId)
      ensures outcome != OddTeamCount ==>
                schedules == old(schedules) + [ScheduleRow(old(nextScheduleId), year)] &&
                nextScheduleId == old(nextScheduleId) + 1
      ensures outcome == NoTeams ==> matchups == old(matchups) && nextMatchupId == old(nextMatchupId)
      ensures outcome.Created? ==> outcome.scheduleId == old(nextScheduleId) && 2 <= |teams|
      ensures outcome.Created? ==>
                matchups == old(matchups) + Fixtures(DoubleLeg(FirstLeg(TeamIds(teams))), outcome.scheduleId, old(nextMatchupId)) &&
                nextMatchupId == old(nextMatchupId) + |teams| * (|teams| - 1)
    {
      var ids := TeamIds(teams);
      if |ids| % 2 != 0 {
        return OddTeamCount;
      }
      var sid := CreateEmpty(year);
      if |ids| == 0 {
        return NoTeams;
      }
      var wks := RoundRobin(ids);
      RoundRobinFielded(teams);
      AddWeeks(wks, sid);
      RoundRobinSize(ids);
      return Created(sid);
    }

    /** The outer loop of `create_round_robin`: the weeks' matchups, week by week. */
    method AddWeeks(wks: seq<ScheduledWeek>, sid: int)
      requires forall w :: 0 <= w < |wks| ==> Fielded(teams, wks[w])
      requires Valid()
      modifies this
      ensures Valid()
      ensures teams == old(teams) && schedules == old(schedules) && state == old(state)
      ensures nextTeamId == old(nextTeamId) && nextScheduleId == old(nextScheduleId)
      ensures matchups == old(matchups) + Fixtures(wks, sid, old(nextMatchupId))
      ensures nextMatchupId == old(nextMatchupId) + MatchCount(wks)
    {
      ghost var before := matchups;
      ghost var firstId := nextMatchupId;
      for w := 0 to |wks|
        invariant Valid()
        invariant teams == old(teams) && schedules == old(schedules) && state == old(state)
        invariant nextTeamId == old(nextTeamId) && nextScheduleId == old(nextScheduleId)
        invariant matchups == before + Fixtures(wks[..w], sid, firstId)
        invariant nextMatchupId == firstId + MatchCount(wks[..w])
      {
        ghost var prev := matchups;
        AddWeek(wks[w], sid);
        FixturesStep(before, prev, matchups, wks, sid, firstId, w);
      }
      assert wks[..|wks|] == wks;
    }

    /** The inner loop of `create_round_robin`: one `Matchup::create` per match of the week. */
    method AddWeek(wk: ScheduledWeek, sid: int)
      requires Valid() && Fielded(teams, wk)
      modifies this
      ensures Valid()
      ensures teams == old(teams) && schedules == old(schedules) && state == old(state)
      ensures nextTeamId == old(nextTeamId) && nextScheduleId == old(nextScheduleId)
      ensures matchups == old(matchups) + WeekFixtures(wk, sid, old(nextMatchupId))
      ensures nextMatchupId == old(nextMatchupId) + |wk.matches|
    {
      for k := 0 to |wk.matches|
        invariant Valid()
        invariant teams == old(teams) && schedules == old(schedules) && state == old(state)
        invariant nextTeamId == old(nextTeamId) && nextScheduleId == old(nextScheduleId)
        invariant matchups == old(matchups) + WeekFixtures(wk, sid, old(nextMatchupId))[..k]
        invariant nextMatchupId == old(nextMatchupId) + k
      {
        var m := CreateMatchup(wk.matches[k].homeId, wk.matches[k].awayId, wk.wkNo, sid);
        WeekFixturesSnoc(wk, sid, old(nextMatchupId), k);
      }
      assert WeekFixtures(wk, sid, old(nextMatchupId))[..|wk.matches|] == WeekFixtures(wk, sid, old(nextMatchupId));
    }

    /**
     * `restart_game`: with a configuration that parsed (`None` stands for the
     * read or parse failure, where nothing is written), empties the three
     * tables, inserts the configured teams in order, creates the 2023 round
     * robin and, when that succeeds, sets the week to 1.
     */
    method RestartGame(config: Option<seq<Conf.TeamConfigItem>>) returns (outcome: Option<RoundRobinOutcome>)
      requires Valid()
      modifies this
      ensures Valid()
      ensures config.None? ==>
                outcome.None? && teams == old(teams) && schedules == old(schedules) &&
                matchups == old(matchups) && state == old(state)
      ensures config.Some? ==> outcome.Some? && teams == NewTeams(config.value, old(nextTeamId))
      ensures config.Some? && |config.value| % 2 != 0 ==>
                outcome == Some(OddTeamCount) && schedules == [] && matchups == [] && state == old(state)
      ensures config.Some? && |config.value| == 0 ==>
                outcome == Some(NoTeams) && schedules == [ScheduleRow(old(nextScheduleId), 2023)] &&
                matchups == [] && state == old(state)
      ensures config.Some? && |config.value| != 0 && |config.value| % 2 == 0 ==>
                outcome == Some(Created(old(nextScheduleId))) &&
                schedules == [ScheduleRow(old(nextScheduleId), 2023)] &&
                matchups == Fixtures(DoubleLeg(FirstLeg(TeamIds(teams))), old(nextScheduleId), old(nextMatchupId)) &&
                state == old(state).(wkNo := 1)
    {
      if config.None? {
        return None;
      }
      var items := config.value;
      matchups := [];
      schedules := [];
      teams := [];
      ghost var firstTeamId := nextTeamId;
      for i := 0 to |items|
        invariant Valid()
        invariant teams == NewTeams(items[..i], firstTeamId) && nextTeamId == firstTeamId + i
        invariant schedules == [] && matchups == [] && state == old(state)
        invariant nextScheduleId == old(nextScheduleId) && nextMatchupId == old(nextMatchupId)
      {
        var id := InsertTeam(items[i].name, items[i].skill);
        assert items[..i + 1][..i] == items[..i];
      }
      assert items[..|items|] == items;
      var rr := CreateRoundRobin(2023);
      if rr.Created? {
        SetWeek(1);
      }
      return Some(rr);
    }
  }
}

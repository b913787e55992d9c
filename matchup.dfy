/**
 * The `Matchup` record of models/matchup.rs, the score rule of `compute_scores`
 * and the filter of `get_with_teamid`.
 */
module Matchups {
  import opened Wrappers

  /**
   * A row of the `matchups` table. The scores are NULL until the match is
   * played. `scheduleId` is the row's `schedule_id` column, which the Rust
   * struct does not carry but every query that joins on schedules reads.
   */
  datatype Matchup = Matchup(
    id: int,
    wkNo: int,
    homeTeamId: int,
    awayTeamId: int,
    scheduleId: int,
    homeScore: Option<int>,
    awayScore: Option<int>)

  /** A row of the `schedules` table: one season's fixture list. */
  datatype ScheduleRow = ScheduleRow(id: int, year: int)

  /** `rng.gen_range(-2..5)`: from -2 up to, not including, 5. */
  const OffsetLow: int := -2
  const OffsetHigh: int := 5

  predicate ValidOffset(offset: int) {
    OffsetLow <= offset < OffsetHigh
  }

  /** `.max(0)` */
  function Max0(v: int): int {
    if v > 0 then v else 0
  }

  /** `(skill + offset).max(0)`: the score of one side. */
  function Score(skill: int, offset: int): (r: int)
    requires ValidOffset(offset)
    ensures r >= 0 && r >= skill + offset
    ensures r == 0 || r == skill + offset
    ensures r <= Max0(skill + OffsetHigh - 1)
  {
    Max0(skill + offset)
  }

  /** The scores a side of the given skill can receive. */
  predicate PossibleScore(skill: int, score: int) {
    Max0(skill + OffsetLow) <= score <= Max0(skill + OffsetHigh - 1)
  }

  /** The possible scores are exactly the scores of the valid offsets. */
  lemma ScoreRange(skill: int, score: int)
    ensures PossibleScore(skill, score) <==> exists offset :: ValidOffset(offset) && Score(skill, offset) == score
  {
    if PossibleScore(skill, score) {
      var offset := if score == 0 then OffsetLow else score - skill;
      assert ValidOffset(offset) && Score(skill, offset) == score;
    }
  }

  /** Both scores set. */
  predicate Played(m: Matchup) {
    m.homeScore.Some? && m.awayScore.Some?
  }

  /** Both scores set or both unset. */
  predicate ScoresPaired(m: Matchup) {
    m.homeScore.Some? == m.awayScore.Some?
  }

  /** A freshly inserted matchup row: no scores yet. */
  function NewMatchup(id: int, homeTeamId: int, awayTeamId: int, wkNo: int, scheduleId: int): (m: Matchup)
    ensures m.homeScore.None? && m.awayScore.None? && ScoresPaired(m) && !Played(m)
    ensures m.id == id && m.wkNo == wkNo && m.scheduleId == scheduleId
    ensures m.homeTeamId == homeTeamId && m.awayTeamId == awayTeamId
  {
    Matchup(id, wkNo, homeTeamId, awayTeamId, scheduleId, None, None)
  }

  /** The single UPDATE of `compute_scores`: both scores at once, nothing else. */
  function WithScores(m: Matchup, homeScore: int, awayScore: int): (r: Matchup)
    ensures Played(r) && ScoresPaired(r)
    ensures r.homeScore == Some(homeScore) && r.awayScore == Some(awayScore)
    ensures r.id == m.id && r.wkNo == m.wkNo && r.scheduleId == m.scheduleId
    ensures r.homeTeamId == m.homeTeamId && r.awayTeamId == m.awayTeamId
  {
    m.(homeScore := Some(homeScore), awayScore := Some(awayScore))
  }

  predicate Involves(m: Matchup, teamId: int) {
    m.homeTeamId == teamId || m.awayTeamId == teamId
  }

  /** `get_with_teamid`: the matchups in which the team plays at home or away, in table order. */
  function WithTeam(ms: seq<Matchup>, teamId: int): (r: seq<Matchup>)
    ensures |r| <= |ms|
    ensures forall m :: m in r <==> m in ms && Involves(m, teamId)
  {
    if ms == [] then []
    else (if Involves(ms[0], teamId) then [ms[0]] else []) + WithTeam(ms[1..], teamId)
  }

  /**
   * The win test of `get_streak`: the team is the away side with the higher
   * score or the home side with the higher score. An unplayed matchup is
   * nobody's win (a comparison with NULL is never true).
   */
  predicate Won(m: Matchup, teamId: int) {
    Played(m) &&
    ((m.homeTeamId == teamId && m.homeScore.value > m.awayScore.value) ||
     (m.awayTeamId == teamId && m.awayScore.value > m.homeScore.value))
  }
}

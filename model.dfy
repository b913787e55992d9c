/**
 * The simulation record types of model.rs: a fixture (`Match`) and the
 * outcome of simulating it (`LedgerEntry`).
 */
module Model {
  import opened Wrappers
  import opened Matchups
  import opened Teams

  datatype Match = Match(id: int, wkNo: int, seasonId: int, homeTeamId: int, awayTeamId: int)

  datatype LedgerEntry = LedgerEntry(matchId: int, homeScore: int, awayScore: int)

  const UnknownTeam: string := "unknown team id"

  /**
   * `LedgerEntry::simulate`: looks up both sides by id (home first; a missing
   * id is the `expect` failure "unknown team id") and scores each side with its
   * own offset. The team list is a value and is not changed.
   */
  function Simulate(teams: seq<Team>, forMatch: Match, homeOffset: int, awayOffset: int): (r: Result<LedgerEntry>)
    requires ValidOffset(homeOffset) && ValidOffset(awayOffset)
    ensures FindTeam(teams, forMatch.homeTeamId).None? ==> r == Err(UnknownTeam)
    ensures FindTeam(teams, forMatch.awayTeamId).None? ==> r == Err(UnknownTeam)
    ensures r.Ok? <==> (exists i :: 0 <= i < |teams| && teams[i].id == forMatch.homeTeamId) &&
                       (exists j :: 0 <= j < |teams| && teams[j].id == forMatch.awayTeamId)
    ensures r.Ok? ==> r.value.matchId == forMatch.id
    ensures r.Ok? ==> r.value.homeScore >= 0 && r.value.awayScore >= 0
    ensures r.Ok? ==> PossibleScore(FindTeam(teams, forMatch.homeTeamId).value.skill, r.value.homeScore)
    ensures r.Ok? ==> PossibleScore(FindTeam(teams, forMatch.awayTeamId).value.skill, r.value.awayScore)
  {
    match FindTeam(teams, forMatch.homeTeamId)
    case None => Err(UnknownTeam)
    case Some(home) =>
      match FindTeam(teams, forMatch.awayTeamId)
      case None => Err(UnknownTeam)
      case Some(away) =>
        Ok(LedgerEntry(forMatch.id, Score(home.skill, homeOffset), Score(away.skill, awayOffset)))
  }

  /**
   * The scores are the score rule applied to the skill of the first team
   * listed with each id.
   */
  lemma SimulateScores(teams: seq<Team>, forMatch: Match, homeOffset: int, awayOffset: int, i: nat, j: nat)
    requires ValidOffset(homeOffset) && ValidOffset(awayOffset)
    requires i < |teams| && teams[i].id == forMatch.homeTeamId
    requires forall k :: 0 <= k < i ==> teams[k].id != forMatch.homeTeamId
    requires j < |teams| && teams[j].id == forMatch.awayTeamId
    requires forall k :: 0 <= k < j ==> teams[k].id != forMatch.awayTeamId
    ensures Simulate(teams, forMatch, homeOffset, awayOffset) ==
            Ok(LedgerEntry(forMatch.id, Score(teams[i].skill, homeOffset), Score(teams[j].skill, awayOffset)))
  {
    FirstWithId(teams, forMatch.homeTeamId, i);
    FirstWithId(teams, forMatch.awayTeamId, j);
  }

  /** `FindTeam` returns the team at the first index with the id. */
  lemma FirstWithId(teams: seq<Team>, id: int, i: nat)
    requires i < |teams| && teams[i].id == id
    requires forall k :: 0 <= k < i ==> teams[k].id != id
    ensures FindTeam(teams, id) == Some(teams[i])
  {
    var r := FindTeam(teams, id);
    var i' :| 0 <= i' < |teams| && teams[i'] == r.value && r.value.id == id &&
              forall k :: 0 <= k < i' ==> teams[k].id != id;
    assert i' == i;
  }
}

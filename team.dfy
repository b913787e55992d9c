/**
 * Teams (models/team.rs and the `Team` of model.rs), the lookup by id that
 * `LedgerEntry::simulate` does, and `Team::get_streak`.
 */
module Teams {
  import opened Wrappers
  import opened Sorting
  import opened Matchups

  /** A row of the `teams` table; the tier and league columns are not modelled. */
  datatype Team = Team(id: int, name: string, skill: int)

  /** `teams.iter().find(|team| team.id == id)`: the first team with that id, if any. */
  function FindTeam(teams: seq<Team>, id: int): (r: Option<Team>)
    ensures r.None? <==> forall i :: 0 <= i < |teams| ==> teams[i].id != id
    ensures r.Some? ==> exists i :: 0 <= i < |teams| && teams[i] == r.value && r.value.id == id &&
                                    forall j :: 0 <= j < i ==> teams[j].id != id
  {
    if teams == [] then None
    else if teams[0].id == id then Some(teams[0])
    else
      var r := FindTeam(teams[1..], id);
      assert r.Some? ==> exists i :: 1 <= i < |teams| && teams[i] == r.value && r.value.id == id &&
                                     forall j :: 0 <= j < i ==> teams[j].id != id by {
        if r.Some? {
          var i :| 0 <= i < |teams[1..]| && teams[1..][i] == r.value && r.value.id == id &&
                   forall j :: 0 <= j < i ==> teams[1..][j].id != id;
          assert teams[i + 1] == r.value;
          assert forall j :: 1 <= j < i + 1 ==> teams[j].id != id by {
            forall j | 1 <= j < i + 1 ensures teams[j].id != id {
              assert teams[j] == teams[1..][j - 1];
            }
          }
        }
      }
      r
  }

  /** Team ids are the table's primary key. */
  predicate DistinctIds(teams: seq<Team>) {
    forall i, j :: 0 <= i < j < |teams| ==> teams[i].id != teams[j].id
  }

  predicate HasId(teams: seq<Team>, id: int) {
    exists i :: 0 <= i < |teams| && teams[i].id == id
  }

  /** The join `schedules.id = matchups.schedule_id` with `schedules.year = $1`. */
  predicate InYear(schedules: seq<ScheduleRow>, scheduleId: int, year: int) {
    ScheduleRow(scheduleId, year) in schedules
  }

  /**
   * The query of `get_streak`: the team's matchups of the given year whose
   * scores are both set, in table order.
   */
  function Completed(ledger: seq<Matchup>, schedules: seq<ScheduleRow>, teamId: int, year: int): (r: seq<Matchup>)
    ensures |r| <= |ledger|
    ensures forall m :: m in r <==> m in ledger && InYear(schedules, m.scheduleId, year) && Involves(m, teamId) && Played(m)
  {
    if ledger == [] then []
    else
      var m := ledger[0];
      (if InYear(schedules, m.scheduleId, year) && Involves(m, teamId) && Played(m) then [m] else [])
      + Completed(ledger[1..], schedules, teamId, year)
  }

  /** The key of `sort_by_key(|each| each.wk_no)`. */
  function WeekKey(m: Matchup): int {
    m.wkNo
  }

  /** The number of wins at the end of `history`, up to the first loss or draw counted back from the end. */
  function TrailingWins(history: seq<Matchup>, teamId: int): (r: nat)
    ensures r <= |history|
    ensures forall k :: |history| - r <= k < |history| ==> Won(history[k], teamId)
    ensures r < |history| ==> !Won(history[|history| - r - 1], teamId)
  {
    if history == [] || !Won(history[|history| - 1], teamId) then 0
    else TrailingWins(history[..|history| - 1], teamId) + 1
  }

  /**
   * The streak of a team in a year: its completed matchups ordered by week,
   * and the run of wins at the most recent end.
   */
  function Streak(ledger: seq<Matchup>, schedules: seq<ScheduleRow>, teamId: int, year: int): (r: nat)
    ensures r <= |Completed(ledger, schedules, teamId, year)|
  {
    var completed := Completed(ledger, schedules, teamId, year);
    SortByPermutes(completed, WeekKey);
    TrailingWins(SortBy(completed, WeekKey), teamId)
  }

  /** `matchups.sort_by_key(|each| each.wk_no)`: a stable in-place insertion sort. */
  method SortByWeek(a: array<Matchup>)
    modifies a
    ensures a[..] == SortBy(old(a[..]), WeekKey)
  {
    ghost var input := a[..];
    var i := 0;
    while i < a.Length
      invariant 0 <= i <= a.Length
      invariant a[..i] == SortBy(input[..i], WeekKey)
      invariant a[i..] == input[i..]
    {
      ghost var before := a[..];
      InsertIntoPrefix(a, i);
      assert a[..i + 1] == SortBy(input[..i + 1], WeekKey) by {
        assert before[..i] == SortBy(input[..i], WeekKey);
        assert before[i] == input[i];
        assert input[..i + 1][..i] == input[..i];
      }
      assert a[i + 1..] == input[i + 1..] by {
        assert before[i + 1..] == input[i + 1..];
      }
      i := i + 1;
    }
    assert input[..a.Length] == input;
  }

  /** One pass of the insertion sort: moves `a[i]` left past the elements of larger week. */
  method InsertIntoPrefix(a: array<Matchup>, i: int)
    requires 0 <= i < a.Length
    modifies a
    ensures a[..i + 1] == InsertBy(old(a[..i]), old(a[i]), WeekKey)
    ensures a[i + 1..] == old(a[i + 1..])
  {
    ghost var sorted := a[..i];
    var x := a[i];
    var j := i;
    while j > 0 && WeekKey(a[j - 1]) > WeekKey(x)
      invariant 0 <= j <= i
      invariant forall k :: 0 <= k < j ==> a[k] == sorted[k]
      invariant forall k :: j < k <= i ==> a[k] == sorted[k - 1]
      invariant forall k :: i < k < a.Length ==> a[k] == old(a[k])
      invariant forall k :: j <= k < i ==> WeekKey(sorted[k]) > WeekKey(x)
    {
      a[j] := a[j - 1];
      j := j - 1;
    }
    a[j] := x;
    assert a[..i + 1] == InsertBy(sorted, x, WeekKey) by {
      InsertByAt(sorted, x, WeekKey, j);
      assert a[..i + 1] == sorted[..j] + [x] + sorted[j..];
    }
    assert a[i + 1..] == old(a[i + 1..]);
  }

  /**
   * `get_streak`: sort the completed matchups by week, then fold from the most
   * recent one.
   */
  method GetStreak(ledger: seq<Matchup>, schedules: seq<ScheduleRow>, teamId: int, year: int) returns (streak: nat)
    ensures streak == Streak(ledger, schedules, teamId, year)
  {
    var completed := Completed(ledger, schedules, teamId, year);
    var a := new Matchup[|completed|](i requires 0 <= i < |completed| => completed[i]);
    assert a[..] == completed;
    SortByWeek(a);
    streak := FoldStreak(a, teamId);
  }

  /**
   * The `fold_while` of `get_streak`: walks from the last element back,
   * counting wins, and stops at the first matchup that is not a win.
   */
  method FoldStreak(a: array<Matchup>, teamId: int) returns (streak: nat)
    ensures streak == TrailingWins(a[..], teamId)
  {
    streak := 0;
    var i := a.Length;
    while i > 0
      invariant 0 <= i <= a.Length
      invariant streak == a.Length - i
      invariant forall k :: i <= k < a.Length ==> Won(a[k], teamId)
    {
      if !Won(a[i - 1], teamId) {
        break;
      }
      streak := streak + 1;
      i := i - 1;
    }
    TrailingWinsUnique(a[..], teamId, streak);
  }

  /** The three facts `TrailingWins` guarantees determine it. */
  lemma TrailingWinsUnique(history: seq<Matchup>, teamId: int, r: nat)
    requires r <= |history|
    requires forall k :: |history| - r <= k < |history| ==> Won(history[k], teamId)
    requires r < |history| ==> !Won(history[|history| - r - 1], teamId)
    ensures TrailingWins(history, teamId) == r
  {
  }

  /** The four matchups of `StreakExample`: team 7 wins, wins, loses, wins. */
  predicate ExampleHistory(ledger: seq<Matchup>, schedules: seq<ScheduleRow>) {
    |schedules| == 1 && schedules[0] == ScheduleRow(1, 2023) &&
    |ledger| == 4 &&
    ledger[0] == Matchup(10, 1, 7, 8, 1, Some(3), Some(1)) &&
    ledger[1] == Matchup(11, 2, 9, 7, 1, Some(0), Some(2)) &&
    ledger[2] == Matchup(12, 3, 7, 9, 1, Some(1), Some(4)) &&
    ledger[3] == Matchup(13, 4, 8, 7, 1, Some(2), Some(5))
  }

  lemma ExampleCompleted(ledger: seq<Matchup>, schedules: seq<ScheduleRow>)
    requires ExampleHistory(ledger, schedules)
    ensures Completed(ledger, schedules, 7, 2023) == ledger
  {
    assert InYear(schedules, 1, 2023);
    CompletedKeepsHead(ledger[3..], schedules, 7, 2023);
    assert ledger[2..][1..] == ledger[3..];
    CompletedKeepsHead(ledger[2..], schedules, 7, 2023);
    assert ledger[1..][1..] == ledger[2..];
    CompletedKeepsHead(ledger[1..], schedules, 7, 2023);
    CompletedKeepsHead(ledger, schedules, 7, 2023);
  }

  lemma CompletedKeepsHead(ledger: seq<Matchup>, schedules: seq<ScheduleRow>, teamId: int, year: int)
    requires ledger != []
    requires InYear(schedules, ledger[0].scheduleId, year) && Involves(ledger[0], teamId) && Played(ledger[0])
    requires Completed(ledger[1..], schedules, teamId, year) == ledger[1..]
    ensures Completed(ledger, schedules, teamId, year) == ledger
  {
    assert ledger == [ledger[0]] + ledger[1..];
  }

  lemma ExampleInWeekOrder(ledger: seq<Matchup>, schedules: seq<ScheduleRow>)
    requires ExampleHistory(ledger, schedules)
    ensures SortBy(ledger, WeekKey) == ledger
  {
    assert SortedBy(ledger, WeekKey);
    SortBySorted(ledger, WeekKey);
  }

  /** A history of win, win, loss, win (oldest first, all in one year) has a streak of 1. */
  lemma StreakExample(ledger: seq<Matchup>, schedules: seq<ScheduleRow>)
    requires ExampleHistory(ledger, schedules)
    ensures Streak(ledger, schedules, 7, 2023) == 1
  {
    ExampleCompleted(ledger, schedules);
    ExampleInWeekOrder(ledger, schedules);
    assert Won(ledger[3], 7) && !Won(ledger[2], 7);
    assert ledger[..3][2] == ledger[2];
  }
}

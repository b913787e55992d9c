/**
 * The round-robin fixture generator of models/schedule.rs (`Scheduler`).
 *
 * The circle method: team 0 stays put, the other teams sit around a circle that
 * turns one place to the right after every week, and in each week position `k`
 * plays position `n - k - 1`. `ScheduleWeeks` builds the first leg with an
 * explicit rotation buffer; `RoundRobin` appends the mirrored second leg.
 */
module Schedule {

  datatype ScheduledMatch = ScheduledMatch(homeId: int, awayId: int)

  datatype ScheduledWeek = ScheduledWeek(wkNo: int, matches: seq<ScheduledMatch>)

  predicate Distinct(s: seq<int>) {
    forall i, j :: 0 <= i < j < |s| ==> s[i] != s[j]
  }

  /** Team `x` takes part in match `m`. */
  predicate Plays(m: ScheduledMatch, x: int) {
    m.homeId == x || m.awayId == x
  }

  /** Match `m` is between `x` and `y`, either way round. */
  predicate Pairs(m: ScheduledMatch, x: int, y: int) {
    (m.homeId == x && m.awayId == y) || (m.homeId == y && m.awayId == x)
  }

  // ---------------------------------------------------------------------------
  // The circle, in closed form
  // ---------------------------------------------------------------------------

  /**
   * The index (into the initial team list) of the team standing at position `p`
   * in week `w` (0-based): position 0 never moves, the other n-1 positions have
   * been turned right `w` times.
   */
  function Slot(n: nat, w: nat, p: nat): (r: nat)
    requires 2 <= n && w < n - 1 && p < n
    ensures r < n
    ensures r == 0 <==> p == 0
  {
    if p == 0 then 0
    else if w <= p - 1 then p - w
    else p - w + (n - 1)
  }

  /** Where the team with index `a` stands in week `w`. */
  function Position(n: nat, w: nat, a: nat): (p: nat)
    requires 2 <= n && w < n - 1 && a < n
    ensures p < n && Slot(n, w, p) == a
  {
    if a == 0 then 0
    else if a + w <= n - 1 then a + w
    else a + w - (n - 1)
  }

  /** In any one week, each position holds a different team. */
  lemma SlotInjective(n: nat, w: nat, p1: nat, p2: nat)
    requires 2 <= n && w < n - 1 && p1 < n && p2 < n
    requires Slot(n, w, p1) == Slot(n, w, p2)
    ensures p1 == p2
  {
  }

  /** The team order in week `w`. */
  function Rotation(teams: seq<int>, w: nat): (r: seq<int>)
    requires 2 <= |teams| && w < |teams| - 1
    ensures |r| == |teams|
  {
    seq(|teams|, p requires 0 <= p < |teams| => teams[Slot(|teams|, w, p)])
  }

  /** `teams[1..].rotate_right(1)`: the last team moves to position 1. */
  function RotatedTail(s: seq<int>): (r: seq<int>)
    requires |s| >= 2
  {
    [s[0], s[|s| - 1]] + s[1..|s| - 1]
  }

  /** Turning the circle once more gives the next week's order. */
  lemma RotationStep(teams: seq<int>, w: nat)
    requires 2 <= |teams| && w + 1 < |teams| - 1
    ensures RotatedTail(Rotation(teams, w)) == Rotation(teams, w + 1)
  {
    var n := |teams|;
    var s, t := Rotation(teams, w), Rotation(teams, w + 1);
    var r := RotatedTail(s);
    assert |r| == n;
    forall p | 0 <= p < n ensures r[p] == t[p] {
      if p == 0 {
      } else if p == 1 {
        assert r[1] == s[n - 1];
      } else {
        assert r[p] == s[p - 1];
      }
    }
  }

  /** The matches of one week: home `s[n - k - 1]` against away `s[k]`. */
  function WeekOf(s: seq<int>): (r: seq<ScheduledMatch>)
    ensures |r| == |s| / 2
  {
    seq(|s| / 2, k requires 0 <= k < |s| / 2 => ScheduledMatch(s[|s| - k - 1], s[k]))
  }

  /** The first leg: weeks 1 .. n-1, week `w + 1` played in the order `Rotation(teams, w)`. */
  function FirstLeg(teams: seq<int>): (r: seq<ScheduledWeek>)
    requires 2 <= |teams|
    ensures |r| == |teams| - 1
  {
    seq(|teams| - 1, w requires 0 <= w < |teams| - 1 =>
      ScheduledWeek(w + 1, WeekOf(Rotation(teams, w))))
  }

  /** The same week with every match's home and away swapped, renumbered by `offset`. */
  function Mirrored(wk: ScheduledWeek, offset: int): ScheduledWeek {
    ScheduledWeek(wk.wkNo + offset,
      seq(|wk.matches|, j requires 0 <= j < |wk.matches| =>
        ScheduledMatch(wk.matches[j].awayId, wk.matches[j].homeId)))
  }

  /** A first leg followed by its mirror image. */
  function DoubleLeg(first: seq<ScheduledWeek>): seq<ScheduledWeek> {
    first + seq(|first|, k requires 0 <= k < |first| => Mirrored(first[k], |first|))
  }

  // ---------------------------------------------------------------------------
  // The imperative scheduler
  // ---------------------------------------------------------------------------

  /** `teams[1..].rotate_right(1)` on the rotation buffer. */
  method RotateTail(a: array<int>)
    requires a.Length >= 2
    modifies a
    ensures a[..] == RotatedTail(old(a[..]))
  {
    var last := a[a.Length - 1];
    var i := a.Length - 1;
    while i > 1
      invariant 1 <= i <= a.Length - 1
      invariant forall k :: 0 <= k <= i ==> a[k] == old(a[k])
      invariant forall k :: i < k < a.Length ==> a[k] == old(a[k - 1])
    {
      a[i] := a[i - 1];
      i := i - 1;
    }
    a[1] := last;
    forall k | 0 <= k < a.Length ensures a[k] == RotatedTail(old(a[..]))[k] {
    }
  }

  /** The inner `for` loop of `schedule_weeks`: one week's matches from the current order. */
  method WeekMatches(a: array<int>) returns (matches: seq<ScheduledMatch>)
    ensures matches == WeekOf(a[..])
  {
    var n := a.Length;
    matches := [];
    for k := 0 to n / 2
      invariant matches == WeekOf(a[..])[..k]
    {
      matches := matches + [ScheduledMatch(a[n - k - 1], a[k])];
    }
  }

  /**
   * `Scheduler::schedule_weeks`: the first leg, or no weeks at all when the team
   * count is odd. An empty team list makes the source fail (`teams.len() - 1`
   * underflows, `teams[1..]` is out of range), so it is excluded.
   */
  method ScheduleWeeks(teams: seq<int>) returns (wks: seq<ScheduledWeek>)
    requires |teams| != 0
    ensures |teams| % 2 != 0 ==> wks == []
    ensures |teams| % 2 == 0 ==> wks == FirstLeg(teams)
  {
    if |teams| % 2 != 0 {
      return [];
    }
    var n := |teams|;
    var a := new int[n](i requires 0 <= i < n => teams[i]);
    assert a[..] == Rotation(teams, 0);
    wks := [];
    while |wks| < n - 1
      invariant |wks| <= n - 1
      invariant |wks| < n - 1 ==> a[..] == Rotation(teams, |wks|)
      invariant wks == FirstLeg(teams)[..|wks|]
      decreases n - 1 - |wks|
    {
      ghost var w := |wks|;
      var matches := WeekMatches(a);
      wks := wks + [ScheduledWeek(|wks| + 1, matches)];
      assert wks == FirstLeg(teams)[..w + 1];
      if |wks| == n - 1 {
        return;
      }
      RotationStep(teams, w);
      RotateTail(a);
    }
  }

  /**
   * `Scheduler::round_robin`: the first leg, then the same weeks again with home
   * and away swapped and numbered after the first leg.
   */
  method RoundRobin(players: seq<int>) returns (wks: seq<ScheduledWeek>)
    requires |players| != 0
    ensures wks == DoubleLeg(if |players| % 2 == 0 then FirstLeg(players) else [])
    ensures |players| % 2 == 0 ==> |wks| == 2 * (|players| - 1)
  {
    var homeWks := ScheduleWeeks(players);
    var awayWks := ScheduleWeeks(players);
    wks := homeWks + seq(|awayWks|, k requires 0 <= k < |awayWks| => Mirrored(awayWks[k], |homeWks|));
  }

  // ---------------------------------------------------------------------------
  // What the circle method guarantees
  // ---------------------------------------------------------------------------

  /** Weeks of a double round robin are numbered 1, 2, ..., 2(n-1) in order. */
  lemma DoubleLegNumbering(teams: seq<int>)
    requires 2 <= |teams|
    ensures |DoubleLeg(FirstLeg(teams))| == 2 * (|teams| - 1)
    ensures forall k :: 0 <= k < |DoubleLeg(FirstLeg(teams))| ==> DoubleLeg(FirstLeg(teams))[k].wkNo == k + 1
  {
    var first := FirstLeg(teams);
    var all := DoubleLeg(first);
    forall k | 0 <= k < |all| ensures all[k].wkNo == k + 1 {
      if k >= |first| {
        assert all[k] == Mirrored(first[k - |first|], |first|);
      }
    }
  }

  /** Team 0 never moves, so it is the away side of the first match of every first-leg week. */
  lemma FixedTeamAway(teams: seq<int>, w: nat)
    requires 2 <= |teams| && w < |teams| - 1
    ensures FirstLeg(teams)[w].matches[0] == ScheduledMatch(Rotation(teams, w)[|teams| - 1], teams[0])
    ensures Rotation(teams, w)[|teams| - 1] == teams[|teams| - 1 - w]
  {
  }

  lemma DistinctIndex(teams: seq<int>, i: int, j: int)
    requires Distinct(teams) && 0 <= i < |teams| && 0 <= j < |teams|
    requires teams[i] == teams[j]
    ensures i == j
  {
    if i < j {
    } else if j < i {
    }
  }

  /** Match `k` of week `w + 1`, read off the circle. */
  lemma MatchAt(teams: seq<int>, w: nat, k: nat)
    requires 2 <= |teams| && w < |teams| - 1 && k < |teams| / 2
    ensures |FirstLeg(teams)[w].matches| == |teams| / 2
    ensures FirstLeg(teams)[w].matches[k] ==
      ScheduledMatch(teams[Slot(|teams|, w, |teams| - k - 1)], teams[Slot(|teams|, w, k)])
  {
    assert FirstLeg(teams)[w].matches == WeekOf(Rotation(teams, w));
  }

  /** No team plays itself, and only listed teams play. */
  lemma MatchIsProper(teams: seq<int>, w: nat, k: nat)
    requires 2 <= |teams| && Distinct(teams) && w < |teams| - 1 && k < |teams| / 2
    ensures var m := FirstLeg(teams)[w].matches[k];
      m.homeId != m.awayId && m.homeId in teams && m.awayId in teams
  {
    var n := |teams|;
    MatchAt(teams, w, k);
    if teams[Slot(n, w, n - k - 1)] == teams[Slot(n, w, k)] {
      DistinctIndex(teams, Slot(n, w, n - k - 1), Slot(n, w, k));
    }
  }

  /** Every listed team plays in every week. */
  lemma TeamPlaysInWeek(teams: seq<int>, w: nat, x: int) returns (k: nat)
    requires 2 <= |teams| && |teams| % 2 == 0 && w < |teams| - 1 && x in teams
    ensures k < |teams| / 2 && Plays(FirstLeg(teams)[w].matches[k], x)
  {
    var n := |teams|;
    var a :| 0 <= a < n && teams[a] == x;
    var p := Position(n, w, a);
    k := if p < n / 2 then p else n - 1 - p;
    MatchAt(teams, w, k);
  }

  /** No team plays twice in one week. */
  lemma TeamPlaysOnceInWeek(teams: seq<int>, w: nat, x: int, k1: nat, k2: nat)
    requires 2 <= |teams| && Distinct(teams) && w < |teams| - 1
    requires k1 < |teams| / 2 && k2 < |teams| / 2
    requires Plays(FirstLeg(teams)[w].matches[k1], x) && Plays(FirstLeg(teams)[w].matches[k2], x)
    ensures k1 == k2
  {
    var n := |teams|;
    MatchAt(teams, w, k1);
    MatchAt(teams, w, k2);
    var p1 := if FirstLeg(teams)[w].matches[k1].homeId == x then n - k1 - 1 else k1;
    var p2 := if FirstLeg(teams)[w].matches[k2].homeId == x then n - k2 - 1 else k2;
    DistinctIndex(teams, Slot(n, w, p1), Slot(n, w, p2));
    SlotInjective(n, w, p1, p2);
  }

  /** A week of n/2 matches in which each listed team plays exactly once, never against itself. */
  ghost predicate PerfectWeek(teams: seq<int>, ms: seq<ScheduledMatch>) {
    |ms| == |teams| / 2 && NoSelfMatch(ms) && CoversTeams(teams, ms) && NoTeamTwice(ms)
  }

  ghost predicate NoSelfMatch(ms: seq<ScheduledMatch>) {
    forall k :: 0 <= k < |ms| ==> ms[k].homeId != ms[k].awayId
  }

  /** Only listed teams play. */
  ghost predicate WithinTeams(teams: seq<int>, ms: seq<ScheduledMatch>) {
    forall k :: 0 <= k < |ms| ==> ms[k].homeId in teams && ms[k].awayId in teams
  }

  ghost predicate CoversTeams(teams: seq<int>, ms: seq<ScheduledMatch>) {
    forall x :: x in teams ==> exists k :: 0 <= k < |ms| && Plays(ms[k], x)
  }

  ghost predicate NoTeamTwice(ms: seq<ScheduledMatch>) {
    forall k1, k2 :: 0 <= k1 < k2 < |ms| ==> Disjoint(ms[k1], ms[k2])
  }

  /** Two matches with no team in common. */
  predicate Disjoint(m1: ScheduledMatch, m2: ScheduledMatch) {
    !Plays(m2, m1.homeId) && !Plays(m2, m1.awayId)
  }

  /** Only teams of the list appear in the first leg. */
  lemma FirstLegWithinTeams(teams: seq<int>, w: nat)
    requires 2 <= |teams| && Distinct(teams) && w < |teams| - 1
    ensures WithinTeams(teams, FirstLeg(teams)[w].matches)
  {
    var ms := FirstLeg(teams)[w].matches;
    assert |ms| == |teams| / 2;
    forall k | 0 <= k < |ms| ensures ms[k].homeId in teams && ms[k].awayId in teams {
      MatchIsProper(teams, w, k);
    }
  }

  /** Only teams of the list appear anywhere in the double round robin. */
  lemma DoubleLegWithinTeams(teams: seq<int>, w: nat, k: nat)
    requires 2 <= |teams| && Distinct(teams)
    requires w < |DoubleLeg(FirstLeg(teams))| && k < |DoubleLeg(FirstLeg(teams))[w].matches|
    ensures DoubleLeg(FirstLeg(teams))[w].matches[k].homeId in teams
    ensures DoubleLeg(FirstLeg(teams))[w].matches[k].awayId in teams
  {
    var first := FirstLeg(teams);
    if w < |first| {
      FirstLegWithinTeams(teams, w);
    } else {
      FirstLegWithinTeams(teams, w - |first|);
      assert DoubleLeg(first)[w] == Mirrored(first[w - |first|], |first|);
    }
  }

  /** Every week of the first leg is perfect. */
  lemma EachTeamOncePerWeek(teams: seq<int>, w: nat)
    requires 2 <= |teams| && |teams| % 2 == 0 && Distinct(teams) && w < |teams| - 1
    ensures PerfectWeek(teams, FirstLeg(teams)[w].matches)
  {
    var n := |teams|;
    var ms := FirstLeg(teams)[w].matches;
    MatchAt(teams, w, 0);
    assert NoSelfMatch(ms) by {
      forall k | 0 <= k < |ms| ensures ms[k].homeId != ms[k].awayId {
        MatchIsProper(teams, w, k);
      }
    }
    assert CoversTeams(teams, ms) by {
      forall x | x in teams ensures exists k :: 0 <= k < |ms| && Plays(ms[k], x) {
        var k := TeamPlaysInWeek(teams, w, x);
      }
    }
    assert NoTeamTwice(ms) by {
      forall k1, k2 | 0 <= k1 < k2 < |ms| ensures Disjoint(ms[k1], ms[k2]) {
        if Plays(ms[k2], ms[k1].homeId) {
          TeamPlaysOnceInWeek(teams, w, ms[k1].homeId, k1, k2);
        } else if Plays(ms[k2], ms[k1].awayId) {
          TeamPlaysOnceInWeek(teams, w, ms[k1].awayId, k1, k2);
        }
      }
    }
  }

  /** Positions `k` and `n - k - 1` meet in week `w`, and hold indices {a, b}. */
  predicate Meet(n: nat, w: nat, k: nat, a: nat, b: nat)
    requires 2 <= n && w < n - 1 && k < n / 2
  {
    (Slot(n, w, n - k - 1) == a && Slot(n, w, k) == b) ||
    (Slot(n, w, n - k - 1) == b && Slot(n, w, k) == a)
  }

  /**
   * The invariant of the circle: two moving teams at indices a and b that meet
   * in week w satisfy a + b + 2w = M, 2M or 3M, where M = n - 1.
   */
  lemma PairKey(n: nat, w: nat, k: nat)
    requires 2 <= n && n % 2 == 0 && w < n - 1 && 1 <= k < n / 2
    ensures var s := Slot(n, w, k) + Slot(n, w, n - k - 1) + 2 * w;
      s == n - 1 || s == 2 * (n - 1) || s == 3 * (n - 1)
  {
  }

  /** Two weeks whose keys agree are the same week, because M is odd. */
  lemma SameKeySameWeek(n: nat, a: nat, b: nat, w1: nat, w2: nat)
    requires 2 <= n && n % 2 == 0 && w1 < n - 1 && w2 < n - 1
    requires var s := a + b + 2 * w1; s == n - 1 || s == 2 * (n - 1) || s == 3 * (n - 1)
    requires var s := a + b + 2 * w2; s == n - 1 || s == 2 * (n - 1) || s == 3 * (n - 1)
    ensures w1 == w2
  {
    assert (n - 1) % 2 == 1;
  }

  /** At most one (week, match) of the first leg brings indices a and b together. */
  lemma {:induction false} MeetUnique(n: nat, a: nat, b: nat, w1: nat, k1: nat, w2: nat, k2: nat)
    requires 2 <= n && n % 2 == 0 && a < n && b < n && a != b
    requires w1 < n - 1 && k1 < n / 2 && w2 < n - 1 && k2 < n / 2
    requires Meet(n, w1, k1, a, b) && Meet(n, w2, k2, a, b)
    ensures w1 == w2 && k1 == k2
  {
    if a == 0 || b == 0 {
      var c := if a == 0 then b else a;
      assert k1 == 0 && k2 == 0;
      assert Slot(n, w1, n - 1) == c == Slot(n, w2, n - 1);
    } else {
      assert k1 != 0 && k2 != 0;
      PairKey(n, w1, k1);
      PairKey(n, w2, k2);
      SameKeySameWeek(n, a, b, w1, w2);
      if Slot(n, w1, k1) != Slot(n, w1, k2) {
        // then Slot(k1) == Slot(n - k2 - 1), and k1 + k2 + 1 == n is out of reach
        assert false;
      }
      SlotInjective(n, w1, k1, k2);
    }
  }

  /** Some (week, match) of the first leg brings indices a and b together. */
  lemma {:induction false} MeetExists(n: nat, a: nat, b: nat) returns (w: nat, k: nat)
    requires 2 <= n && n % 2 == 0 && a < n && b < n && a != b
    ensures w < n - 1 && k < n / 2 && Meet(n, w, k, a, b)
  {
    if a == 0 || b == 0 {
      var c := if a == 0 then b else a;
      w, k := n - 1 - c, 0;
      assert Slot(n, w, n - 1) == c;
    } else {
      w := KeyWeek(n, a, b);
      k := MeetInKeyWeek(n, a, b, w);
    }
  }

  /** The week in which the key a + b + 2w of two moving indices is a multiple of M = n - 1. */
  lemma KeyWeek(n: nat, a: nat, b: nat) returns (w: nat)
    requires 2 <= n && n % 2 == 0 && 1 <= a < n && 1 <= b < n && a != b
    ensures w < n - 1
    ensures var s := a + b + 2 * w; s == n - 1 || s == 2 * (n - 1) || s == 3 * (n - 1)
  {
    var m := n - 1;
    var s := a + b - 2;
    var t := if m - 2 - s >= 0 then m - 2 - s else 2 * m - 2 - s;
    w := if t % 2 == 0 then t / 2 else (t + m) / 2;
    assert 2 * w == t || 2 * w == t + m;
  }

  /** In the week of their key, two moving indices stand opposite each other. */
  lemma MeetInKeyWeek(n: nat, a: nat, b: nat, w: nat) returns (k: nat)
    requires 2 <= n && n % 2 == 0 && 1 <= a < n && 1 <= b < n && a != b && w < n - 1
    requires var s := a + b + 2 * w; s == n - 1 || s == 2 * (n - 1) || s == 3 * (n - 1)
    ensures k < n / 2 && Meet(n, w, k, a, b)
  {
    var p := Position(n, w, a);
    if p == n - 1 {
      assert false;
    }
    assert 1 <= p < n - 1;
    k := if p < n / 2 then p else n - 1 - p;
    PairKey(n, w, k);
    var other := if p < n / 2 then n - k - 1 else k;
    assert Slot(n, w, other) == b;
  }

  /** Every two different teams meet exactly once in the first leg. */
  lemma PairMeetsOnceInFirstLeg(teams: seq<int>, x: int, y: int)
    requires 2 <= |teams| && |teams| % 2 == 0 && Distinct(teams)
    requires x in teams && y in teams && x != y
    ensures exists w, k :: (0 <= w < |teams| - 1 && 0 <= k < |teams| / 2 &&
      Pairs(FirstLeg(teams)[w].matches[k], x, y))
    ensures forall w1, k1, w2, k2 ::
      0 <= w1 < |teams| - 1 && 0 <= k1 < |teams| / 2 && 0 <= w2 < |teams| - 1 && 0 <= k2 < |teams| / 2 &&
      Pairs(FirstLeg(teams)[w1].matches[k1], x, y) && Pairs(FirstLeg(teams)[w2].matches[k2], x, y)
      ==> w1 == w2 && k1 == k2
  {
    var a :| 0 <= a < |teams| && teams[a] == x;
    var b :| 0 <= b < |teams| && teams[b] == y;
    var w, k := PairMeetsInFirstLeg(teams, a, b);
    PairMeetsAtMostOnceInFirstLeg(teams, a, b);
  }

  lemma PairMeetsInFirstLeg(teams: seq<int>, a: nat, b: nat) returns (w: nat, k: nat)
    requires 2 <= |teams| && |teams| % 2 == 0 && Distinct(teams)
    requires a < |teams| && b < |teams| && a != b
    ensures w < |teams| - 1 && k < |teams| / 2 && Pairs(FirstLeg(teams)[w].matches[k], teams[a], teams[b])
  {
    var n := |teams|;
    w, k := MeetExists(n, a, b);
    assert FirstLeg(teams)[w].matches[k] == ScheduledMatch(teams[Slot(n, w, n - k - 1)], teams[Slot(n, w, k)]);
  }

  lemma PairMeetsAtMostOnceInFirstLeg(teams: seq<int>, a: nat, b: nat)
    requires 2 <= |teams| && |teams| % 2 == 0 && Distinct(teams)
    requires a < |teams| && b < |teams| && a != b
    ensures forall w1, k1, w2, k2 ::
      0 <= w1 < |teams| - 1 && 0 <= k1 < |teams| / 2 && 0 <= w2 < |teams| - 1 && 0 <= k2 < |teams| / 2 &&
      Pairs(FirstLeg(teams)[w1].matches[k1], teams[a], teams[b]) && Pairs(FirstLeg(teams)[w2].matches[k2], teams[a], teams[b])
      ==> w1 == w2 && k1 == k2
  {
    var n := |teams|;
    var leg := FirstLeg(teams);
    forall w1, k1, w2, k2 |
      0 <= w1 < n - 1 && 0 <= k1 < n / 2 && 0 <= w2 < n - 1 && 0 <= k2 < n / 2 &&
      Pairs(leg[w1].matches[k1], teams[a], teams[b]) && Pairs(leg[w2].matches[k2], teams[a], teams[b])
      ensures w1 == w2 && k1 == k2
    {
      MeetOf(teams, w1, k1, a, b);
      MeetOf(teams, w2, k2, a, b);
      MeetUnique(n, a, b, w1, k1, w2, k2);
    }
  }

  /** A match between teams[a] and teams[b] stands for a meeting of the indices a and b. */
  lemma MeetOf(teams: seq<int>, w: nat, k: nat, a: nat, b: nat)
    requires 2 <= |teams| && Distinct(teams) && w < |teams| - 1 && k < |teams| / 2
    requires a < |teams| && b < |teams|
    requires Pairs(FirstLeg(teams)[w].matches[k], teams[a], teams[b])
    ensures Meet(|teams|, w, k, a, b)
  {
    var n := |teams|;
    var h, v := Slot(n, w, n - k - 1), Slot(n, w, k);
    assert FirstLeg(teams)[w].matches[k] == ScheduledMatch(teams[h], teams[v]);
    if teams[h] == teams[a] && teams[v] == teams[b] {
      DistinctIndex(teams, h, a);
      DistinctIndex(teams, v, b);
    } else {
      DistinctIndex(teams, h, b);
      DistinctIndex(teams, v, a);
    }
  }

  /**
   * The double round robin: every ordered pair of different teams (x at home,
   * y away) is played exactly once.
   */
  lemma EachHomeAwayPairOnce(teams: seq<int>, x: int, y: int)
    requires 2 <= |teams| && |teams| % 2 == 0 && Distinct(teams)
    requires x in teams && y in teams && x != y
    ensures var all := DoubleLeg(FirstLeg(teams));
      exists w, k :: 0 <= w < |all| && 0 <= k < |all[w].matches| &&
        all[w].matches[k] == ScheduledMatch(x, y)
    ensures var all := DoubleLeg(FirstLeg(teams));
      forall w1, k1, w2, k2 ::
        0 <= w1 < |all| && 0 <= k1 < |all[w1].matches| && 0 <= w2 < |all| && 0 <= k2 < |all[w2].matches| &&
        all[w1].matches[k1] == ScheduledMatch(x, y) && all[w2].matches[k2] == ScheduledMatch(x, y)
        ==> w1 == w2 && k1 == k2
  {
    PairMeetsOnceInFirstLeg(teams, x, y);
    var w, k := HomeAwayPairPlayed(teams, x, y);
    HomeAwayPairAtMostOnce(teams, x, y);
  }

  /** The first-leg meeting of x and y is played x at home either as scheduled or mirrored. */
  lemma HomeAwayPairPlayed(teams: seq<int>, x: int, y: int) returns (w: nat, k: nat)
    requires 2 <= |teams| && |teams| % 2 == 0
    requires exists w, k :: (0 <= w < |teams| - 1 && 0 <= k < |teams| / 2 &&
      Pairs(FirstLeg(teams)[w].matches[k], x, y))
    ensures w < |DoubleLeg(FirstLeg(teams))| && k < |DoubleLeg(FirstLeg(teams))[w].matches|
    ensures DoubleLeg(FirstLeg(teams))[w].matches[k] == ScheduledMatch(x, y)
  {
    var n := |teams|;
    var first := FirstLeg(teams);
    var all := DoubleLeg(first);
    var v, j :| 0 <= v < n - 1 && 0 <= j < n / 2 && Pairs(first[v].matches[j], x, y);
    assert |first[v].matches| == n / 2;
    if first[v].matches[j] == ScheduledMatch(x, y) {
      w, k := v, j;
      assert all[w] == first[v];
    } else {
      w, k := v + (n - 1), j;
      assert all[w] == Mirrored(first[v], n - 1);
    }
  }

  /** Since x and y meet once in the first leg, x hosts y once in the double round robin. */
  lemma HomeAwayPairAtMostOnce(teams: seq<int>, x: int, y: int)
    requires 2 <= |teams| && |teams| % 2 == 0 && x != y
    requires forall w1, k1, w2, k2 ::
      0 <= w1 < |teams| - 1 && 0 <= k1 < |teams| / 2 && 0 <= w2 < |teams| - 1 && 0 <= k2 < |teams| / 2 &&
      Pairs(FirstLeg(teams)[w1].matches[k1], x, y) && Pairs(FirstLeg(teams)[w2].matches[k2], x, y)
      ==> w1 == w2 && k1 == k2
    ensures var all := DoubleLeg(FirstLeg(teams));
      forall w1, k1, w2, k2 ::
        0 <= w1 < |all| && 0 <= k1 < |all[w1].matches| && 0 <= w2 < |all| && 0 <= k2 < |all[w2].matches| &&
        all[w1].matches[k1] == ScheduledMatch(x, y) && all[w2].matches[k2] == ScheduledMatch(x, y)
        ==> w1 == w2 && k1 == k2
  {
    var first := FirstLeg(teams);
    var all := DoubleLeg(first);
    forall w1, k1, w2, k2 |
      0 <= w1 < |all| && 0 <= k1 < |all[w1].matches| && 0 <= w2 < |all| && 0 <= k2 < |all[w2].matches| &&
      all[w1].matches[k1] == ScheduledMatch(x, y) && all[w2].matches[k2] == ScheduledMatch(x, y)
      ensures w1 == w2 && k1 == k2
    {
      var v1, h1 := Unfold(teams, w1, k1);
      var v2, h2 := Unfold(teams, w2, k2);
      assert Pairs(first[v1].matches[k1], x, y) && Pairs(first[v2].matches[k2], x, y);
      assert v1 == v2 && k1 == k2;
      // the same first-leg match appears once as played and once mirrored
      assert h1 == h2;
    }
  }

  /**
   * A match of the double round robin is a first-leg match, played as scheduled
   * (`home`) in week `w < n - 1` or mirrored in week `w - (n - 1)`.
   */
  lemma Unfold(teams: seq<int>, w: nat, k: nat) returns (v: nat, home: bool)
    requires 2 <= |teams| && |teams| % 2 == 0
    requires w < |DoubleLeg(FirstLeg(teams))| && k < |DoubleLeg(FirstLeg(teams))[w].matches|
    ensures v < |teams| - 1 && k < |teams| / 2 && home == (w < |teams| - 1)
    ensures v == if home then w else w - (|teams| - 1)
    ensures var m := FirstLeg(teams)[v].matches[k];
      DoubleLeg(FirstLeg(teams))[w].matches[k] ==
        if home then m else ScheduledMatch(m.awayId, m.homeId)
  {
    var first := FirstLeg(teams);
    var n := |teams|;
    home := w < n - 1;
    if home {
      v := w;
    } else {
      v := w - (n - 1);
      assert DoubleLeg(first)[w] == Mirrored(first[v], n - 1);
    }
  }
}

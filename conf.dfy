/**
 * The configuration records of conf.rs and the built-in default league layout
 * (`LeagueConfig::default`): eight leagues, each with the tiers "Tier 1" to "Tier 4".
 */
module Conf {

  datatype TeamConfigItem = TeamConfigItem(name: string, skill: int, tier: string, league: string)

  datatype LeagueConfigItem = LeagueConfigItem(abbr: string, name: string)

  datatype TierConfigItem = TierConfigItem(name: string, league: string)

  datatype LeagueConfig = LeagueConfig(leagues: seq<LeagueConfigItem>, tiers: seq<TierConfigItem>)

  /** `From<(&str, &str)> for LeagueConfigItem`: the first part is the code, the second the name. */
  function FromPair(pair: (string, string)): (item: LeagueConfigItem)
    ensures item.abbr == pair.0 && item.name == pair.1
  {
    LeagueConfigItem(pair.0, pair.1)
  }

  const TiersPerLeague: nat := 4

  /** The eight default leagues as (code, name) pairs, in order. */
  const DefaultLeaguePairs: seq<(string, string)> := [
    ("NE", "Northeast"),
    ("AT", "Atlantic"),
    ("SE", "Southeast"),
    ("GL", "Great Lakes"),
    ("SO", "South"),
    ("SW", "Southwest"),
    ("NW", "Northwest"),
    ("CT", "Central")
  ]

  /** `format!("Tier {i}")` for a one-digit `i`. */
  function TierName(i: nat): (r: string)
    requires 1 <= i <= 9
    ensures |r| == 6 && r[..5] == "Tier " && r[5] as int == '0' as int + i
  {
    "Tier " + [('0' as int + i) as char]
  }

  /** The tiers 1..4 of one league. */
  function TiersOf(league: LeagueConfigItem): (r: seq<TierConfigItem>)
    ensures |r| == TiersPerLeague
  {
    seq(TiersPerLeague, i requires 0 <= i < TiersPerLeague => TierConfigItem(TierName(i + 1), league.name))
  }

  /** The `flat_map` over the leagues. */
  function AllTiers(leagues: seq<LeagueConfigItem>): seq<TierConfigItem>
  {
    if leagues == [] then [] else TiersOf(leagues[0]) + AllTiers(leagues[1..])
  }

  /** Tier `i` of league `j` sits at index 4j + i, named "Tier i+1" and owned by that league. */
  lemma {:induction false} AllTiersAt(leagues: seq<LeagueConfigItem>, j: nat, i: nat)
    requires j < |leagues| && i < TiersPerLeague
    ensures |AllTiers(leagues)| == TiersPerLeague * |leagues|
    ensures AllTiers(leagues)[TiersPerLeague * j + i] == TierConfigItem(TierName(i + 1), leagues[j].name)
  {
    AllTiersLength(leagues);
    if j > 0 {
      AllTiersAt(leagues[1..], j - 1, i);
    }
  }

  lemma {:induction false} AllTiersLength(leagues: seq<LeagueConfigItem>)
    ensures |AllTiers(leagues)| == TiersPerLeague * |leagues|
  {
    if leagues != [] {
      AllTiersLength(leagues[1..]);
    }
  }

  function DefaultLeagueConfig(): LeagueConfig {
    var leagues := seq(|DefaultLeaguePairs|, k requires 0 <= k < |DefaultLeaguePairs| => FromPair(DefaultLeaguePairs[k]));
    LeagueConfig(leagues, AllTiers(leagues))
  }

  /**
   * The default configuration: the eight listed leagues in order, then 4 tiers
   * per league, 32 in all, grouped by league; tier t is "Tier (t % 4 + 1)" of league t / 4.
   */
  lemma DefaultLeagueConfigShape()
    ensures var c := DefaultLeagueConfig();
      && |c.leagues| == 8
      && (forall k :: 0 <= k < 8 ==> c.leagues[k].abbr == DefaultLeaguePairs[k].0 && c.leagues[k].name == DefaultLeaguePairs[k].1)
      && |c.tiers| == 32
      && (forall t :: 0 <= t < 32 ==>
            c.tiers[t] == TierConfigItem(TierName(t % 4 + 1), c.leagues[t / 4].name))
  {
    var c := DefaultLeagueConfig();
    forall t | 0 <= t < 32
      ensures c.tiers[t] == TierConfigItem(TierName(t % 4 + 1), c.leagues[t / 4].name)
    {
      AllTiersAt(c.leagues, t / 4, t % 4);
    }
    AllTiersLength(c.leagues);
  }
}

/**
 * The `ACHIEVEMENTS` table of src/playerState.js: ten achievements, each with
 * a string id and an XP reward.  Names, descriptions and icons are
 * presentation data and are not part of this model.
 */
module Achievements {
  import opened Prelude

  datatype Achievement =
    | FirstMatch
    | PerfectGame
    | SpeedDemon
    | ComboMaster
    | BlitzChampion
    | TimeTrialExpert
    | HardModeVictor
    | StreakMaster
    | HundredMatches
    | ThemeExplorer

  /** `Object.values(ACHIEVEMENTS)`, in declaration order. */
  const AllAchievements: seq<Achievement> := [
    FirstMatch, PerfectGame, SpeedDemon, ComboMaster, BlitzChampion,
    TimeTrialExpert, HardModeVictor, StreakMaster, HundredMatches, ThemeExplorer
  ]

  function Id(a: Achievement): string
  {
    match a
    case FirstMatch => "first_match"
    case PerfectGame => "perfect_game"
    case SpeedDemon => "speed_demon"
    case ComboMaster => "combo_master"
    case BlitzChampion => "blitz_champion"
    case TimeTrialExpert => "time_trial_expert"
    case HardModeVictor => "hard_mode_victor"
    case StreakMaster => "streak_master"
    case HundredMatches => "hundred_matches"
    case ThemeExplorer => "theme_explorer"
  }

  function XPReward(a: Achievement): nat
  {
    match a
    case FirstMatch => 10
    case PerfectGame => 50
    case SpeedDemon => 75
    case ComboMaster => 100
    case BlitzChampion => 100
    case TimeTrialExpert => 75
    case HardModeVictor => 100
    case StreakMaster => 50
    case HundredMatches => 200
    case ThemeExplorer => 25
  }

  /** No two achievements share an id, so an id names at most one achievement. */
  lemma IdInjective(a: Achievement, b: Achievement)
    ensures Id(a) == Id(b) ==> a == b
  {
  }

  lemma AllAchievementsListsEach(a: Achievement)
    ensures a in AllAchievements
  {
  }

  /** The first entry of `list` with the given id: `list.find(a => a.id === id)`. */
  function FindIn(list: seq<Achievement>, id: string): (r: Option<Achievement>)
    ensures r.Some? ==> r.value in list && Id(r.value) == id
    ensures r.None? ==> forall a :: a in list ==> Id(a) != id
  {
    if list == [] then None
    else if Id(list[0]) == id then Some(list[0])
    else FindIn(list[1..], id)
  }

  /** `Object.values(ACHIEVEMENTS).find(a => a.id === id)`. */
  function Find(id: string): (r: Option<Achievement>)
    ensures r.Some? <==> exists a :: Id(a) == id
    ensures r.Some? ==> Id(r.value) == id
  {
    var r := FindIn(AllAchievements, id);
    forall a: Achievement ensures a in AllAchievements {
      AllAchievementsListsEach(a);
    }
    r
  }

  /** Looking up an achievement's own id finds that achievement. */
  lemma FindId(a: Achievement)
    ensures Find(Id(a)) == Some(a)
  {
    IdInjective(a, Find(Id(a)).value);
  }
}

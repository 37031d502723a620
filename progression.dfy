/**
 * Player progression of src/playerState.js: XP and levels, the per-game
 * statistics, achievements and the high-score table.
 *
 * The record `this.state` of the JavaScript class is the datatype `Ledger`;
 * every operation is first a pure function from one ledger to the next, and
 * class `PlayerState` carries out the same steps by updating its `state`
 * field.  The clock (`new Date().toISOString()`) is the parameter `now`.
 */
module Progression {
  import opened Prelude
  import opened Achievements

  /** An ISO-8601 time stamp, supplied by the caller. */
  type Timestamp = string

  /** One entry of `state.achievements`. */
  datatype Status = Status(unlocked: bool, unlockedAt: Option<Timestamp>, progress: nat)

  const Locked := Status(false, None, 0)

  function UnlockedAt(now: Timestamp): Status
  {
    Status(true, Some(now), 100)
  }

  /** The argument of `recordGame`; `None` stands for a field the caller left out. */
  datatype GameData = GameData(
    mode: string,
    difficulty: string,
    score: int,
    mistakes: int,
    timeElapsed: Option<int>,
    timeRemaining: Option<int>,
    maxCombo: int,
    matches: Option<int>)

  /** One cell of the high-score table. */
  datatype ScoreRecord = ScoreRecord(
    score: int,
    date: Timestamp,
    mistakes: int,
    timeElapsed: Option<int>,
    timeRemaining: Option<int>,
    maxCombo: int)

  /**
   * `this.state`.  The nested `stats` record is flattened into the last three
   * fields, and the high-score table is keyed by (mode, difficulty): an absent
   * key is a cell holding `null`.
   */
  datatype Ledger = Ledger(
    xp: int,
    level: int,
    gamesPlayed: nat,
    totalMatches: int,
    perfectGames: nat,
    currentStreak: nat,
    longestStreak: nat,
    themeSwitches: nat,
    achievements: map<string, Status>,
    highScores: map<(string, string), ScoreRecord>,
    fastestGame: Option<int>,
    highestCombo: int,
    totalScore: int)

  /** What `addXP` returns. */
  datatype LevelResult = LevelResult(leveledUp: bool, level: int, xp: int)

  /** What `recordGame` returns. */
  datatype GameResult = GameResult(
    xpGained: int,
    leveledUp: bool,
    level: int,
    xp: int,
    newAchievements: seq<Achievement>)

  /** JavaScript truthiness of a number that may be missing: missing and `0` are falsy. */
  predicate Truthy(t: Option<int>)
  {
    t.Some? && t.value != 0
  }

  /** `x || 0` for a number that may be missing. */
  function OrZero(t: Option<int>): int
  {
    if t.Some? then t.value else 0
  }

  // ---------------------------------------------------------------------
  // Achievement table
  // ---------------------------------------------------------------------

  function Ids(ks: seq<Achievement>): set<string>
  {
    set a | a in ks :: Id(a)
  }

  /** Every achievement has an entry. */
  predicate Complete(m: map<string, Status>)
  {
    forall a :: Id(a) in m
  }

  /** `state.achievements[id]?.unlocked || false`. */
  predicate IsUnlocked(m: map<string, Status>, id: string)
  {
    id in m && m[id].unlocked
  }

  /** The table the `forEach` of `initializeState` builds after visiting `list`. */
  function LockedTable(list: seq<Achievement>): (m: map<string, Status>)
    ensures m.Keys == Ids(list)
    ensures forall id :: id in m ==> m[id] == Locked
  {
    if list == [] then map[]
    else
      var init := list[..|list| - 1];
      assert list == init + [list[|list| - 1]];
      assert Ids(list) == Ids(init) + {Id(list[|list| - 1])};
      LockedTable(init)[Id(list[|list| - 1]) := Locked]
  }

  /** The state `initializeState` builds. */
  function Fresh(): (l: Ledger)
    ensures Complete(l.achievements)
    ensures forall id :: id in l.achievements ==> l.achievements[id] == Locked
    ensures l.highScores == map[] && l.fastestGame == None
    ensures l.xp == 0 && l.level == 1 && l.gamesPlayed == 0 && l.currentStreak == 0 && l.totalMatches == 0
  {
    var table := LockedTable(AllAchievements);
    forall a: Achievement ensures Id(a) in table {
      AllAchievementsListsEach(a);
    }
    Ledger(0, 1, 0, 0, 0, 0, 0, 0, table, map[], None, 0, 0)
  }

  /** The table after each of `ks` is marked unlocked at `now`, in order. */
  function Unlocking(m: map<string, Status>, ks: seq<Achievement>, now: Timestamp): map<string, Status>
  {
    if ks == [] then m
    else Unlocking(m, ks[..|ks| - 1], now)[Id(ks[|ks| - 1]) := UnlockedAt(now)]
  }

  /** Unlocking touches exactly the ids of `ks`. */
  lemma {:induction false} UnlockingLookup(m: map<string, Status>, ks: seq<Achievement>, now: Timestamp, id: string)
    ensures id in Ids(ks) ==> id in Unlocking(m, ks, now) && Unlocking(m, ks, now)[id] == UnlockedAt(now)
    ensures id !in Ids(ks) ==>
      (id in Unlocking(m, ks, now) <==> id in m) &&
      (id in m ==> Unlocking(m, ks, now)[id] == m[id])
  {
    if ks != [] {
      var init := ks[..|ks| - 1];
      assert ks == init + [ks[|ks| - 1]];
      assert Ids(ks) == Ids(init) + {Id(ks[|ks| - 1])};
      UnlockingLookup(m, init, now, id);
    }
  }

  /** An achievement is listed exactly when its id is. */
  lemma ListedById(ks: seq<Achievement>, a: Achievement)
    ensures a in ks <==> Id(a) in Ids(ks)
  {
    if Id(a) in Ids(ks) {
      var b :| b in ks && Id(b) == Id(a);
      IdInjective(a, b);
    }
  }

  /** The result of `unlockAchievement(id)`: the ledger after it, and the achievement or `null`. */
  function AfterUnlock(l: Ledger, id: string, now: Timestamp): (r: (Ledger, Option<Achievement>))
    ensures r.0 == l.(achievements := r.0.achievements)
  {
    var found := Find(id);
    if found.Some? && !IsUnlocked(l.achievements, id) then
      (l.(achievements := l.achievements[id := UnlockedAt(now)]), found)
    else
      (l, None)
  }

  /**
   * `unlockAchievement` succeeds exactly for a known id that is still locked;
   * a second call with the same id changes nothing.
   */
  lemma UnlockOnce(l: Ledger, id: string, now: Timestamp)
    ensures AfterUnlock(l, id, now).1.Some? <==> (exists a :: Id(a) == id) && !IsUnlocked(l.achievements, id)
    ensures AfterUnlock(l, id, now).1.Some? ==>
      Id(AfterUnlock(l, id, now).1.value) == id &&
      IsUnlocked(AfterUnlock(l, id, now).0.achievements, id)
    ensures AfterUnlock(l, id, now).1.None? ==> AfterUnlock(l, id, now).0 == l
    ensures var l' := AfterUnlock(l, id, now).0;
      AfterUnlock(l', id, now) == (l', None)
  {
  }

  // ---------------------------------------------------------------------
  // XP and levels
  // ---------------------------------------------------------------------

  /** The XP total at which the level after `level` starts (`getXPForNextLevel`). */
  function XPForNextLevel(level: int): (n: int)
    ensures level >= 1 ==> n == 50 * level + 50 && n >= 100
  {
    if level == 1 then 100 else 100 + (level - 1) * 50
  }

  /**
   * `calculateLevel`: level 1 below 100 XP, then one more level per 50 XP.
   * The result is the level whose XP band holds `xp`.
   */
  function CalculateLevel(xp: int): (level: int)
    ensures level >= 1
    ensures xp < XPForNextLevel(level)
    ensures level >= 2 ==> XPForNextLevel(level - 1) <= xp
  {
    if xp < 100 then 1 else (xp - 100) / 50 + 2
  }

  /** A level above `level` is reached exactly at `XPForNextLevel(level)`. */
  lemma LevelReached(xp: int, level: int)
    requires level >= 1
    ensures CalculateLevel(xp) > level <==> xp >= XPForNextLevel(level)
  {
    var c := CalculateLevel(xp);
    if c > level {
      assert XPForNextLevel(level) <= XPForNextLevel(c - 1);
    } else {
      assert XPForNextLevel(c) <= XPForNextLevel(level);
    }
  }

  /** More XP never means a lower level. */
  lemma LevelMonotone(x: int, y: int)
    requires x <= y
    ensures CalculateLevel(x) <= CalculateLevel(y)
  {
    var cx := CalculateLevel(x);
    if cx >= 2 {
      LevelReached(y, cx - 1);
    }
  }

  /** Exactly one level fits each XP total. */
  lemma LevelUnique(xp: int, level: int)
    requires level >= 1 && xp < XPForNextLevel(level)
    requires level >= 2 ==> XPForNextLevel(level - 1) <= xp
    ensures CalculateLevel(xp) == level
  {
    LevelReached(xp, level);
    if level >= 2 {
      LevelReached(xp, level - 1);
    }
  }

  /** The result of `addXP(amount)`: the ledger after it and the returned record. */
  function WithXP(l: Ledger, amount: int): (r: (Ledger, LevelResult))
    ensures r.0 == l.(xp := l.xp + amount, level := CalculateLevel(l.xp + amount))
    ensures r.1.xp == r.0.xp && r.1.level == r.0.level
  {
    var xp := l.xp + amount;
    var level := CalculateLevel(xp);
    (l.(xp := xp, level := level), LevelResult(level > l.level, level, xp))
  }

  /**
   * `addXP` keeps the level derived from the XP total and reports a level-up
   * exactly when the new total reaches the threshold `getXPForNextLevel`
   * showed before the call.
   */
  lemma AddXPLevelsUp(l: Ledger, amount: int)
    requires l.level == CalculateLevel(l.xp)
    ensures var (l', r) := WithXP(l, amount);
      l'.xp == l.xp + amount && r.xp == l'.xp &&
      l'.level == CalculateLevel(l'.xp) && r.level == l'.level &&
      (r.leveledUp <==> l.xp + amount >= XPForNextLevel(l.level)) &&
      (amount >= 0 ==> l'.level >= l.level) &&
      l'.achievements == l.achievements
  {
    LevelReached(l.xp + amount, l.level);
    if amount >= 0 {
      LevelMonotone(l.xp, l.xp + amount);
    }
  }

  /** The XP of a game before the mode multiplier: base, score, perfect and combo bonuses. */
  function BaseXP(g: GameData): (b: int)
    ensures b >= 10 + g.score / 10
    ensures g.mistakes == 0 ==> b >= 30 + g.score / 10
  {
    10 + g.score / 10
    + (if g.mistakes == 0 then 20 else 0)
    + (if g.maxCombo >= 3 then g.maxCombo * 5 else 0)
  }

  /**
   * `calculateGameXP`: the base XP, times 1.5 rounded down in blitz mode and
   * times 1.2 rounded down in timed mode.
   */
  function CalculateGameXP(g: GameData): (xp: int)
    ensures g.mode == "blitz" ==> 2 * xp <= 3 * BaseXP(g) < 2 * xp + 2
    ensures g.mode == "timed" ==> 5 * xp <= 6 * BaseXP(g) < 5 * xp + 5
    ensures g.mode != "blitz" && g.mode != "timed" ==> xp == BaseXP(g)
  {
    var base := BaseXP(g);
    if g.mode == "blitz" then (3 * base) / 2
    else if g.mode == "timed" then (6 * base) / 5
    else base
  }

  /** A game without mistakes earns more XP than the same game with some. */
  lemma PerfectGameEarnsMore(g: GameData)
    requires g.mistakes != 0
    ensures CalculateGameXP(g.(mistakes := 0)) > CalculateGameXP(g)
  {
  }

  /** Blitz pays more than classic from a base XP of 2 on; from 5 on, blitz beats timed and timed beats classic. */
  lemma ModeBonus(g: GameData)
    ensures BaseXP(g) >= 2 ==> CalculateGameXP(g.(mode := "blitz")) > CalculateGameXP(g.(mode := "classic"))
    ensures BaseXP(g) >= 5 ==>
      CalculateGameXP(g.(mode := "blitz")) > CalculateGameXP(g.(mode := "timed")) > CalculateGameXP(g.(mode := "classic"))
  {
    assert BaseXP(g.(mode := "blitz")) == BaseXP(g.(mode := "timed")) == BaseXP(g.(mode := "classic")) == BaseXP(g);
  }

  /** A game with a non-negative score earns at least the 10 base XP. */
  lemma GameXPAtLeastBase(g: GameData)
    requires g.score >= 0
    ensures CalculateGameXP(g) >= 10
  {
  }

  // ---------------------------------------------------------------------
  // Recording a game
  // ---------------------------------------------------------------------

  /** The statistics updates at the start of `recordGame`. */
  function Tally(l: Ledger, g: GameData): (t: Ledger)
    ensures t.gamesPlayed == l.gamesPlayed + 1 && t.currentStreak == l.currentStreak + 1
    ensures t.totalMatches == l.totalMatches + OrZero(g.matches)
    ensures t.longestStreak >= t.currentStreak && t.longestStreak >= l.longestStreak
    ensures t.highestCombo >= g.maxCombo && t.highestCombo >= l.highestCombo
    ensures t.xp == l.xp && t.level == l.level && t.themeSwitches == l.themeSwitches
    ensures t.achievements == l.achievements && t.highScores == l.highScores
  {
    var streak := l.currentStreak + 1;
    l.(gamesPlayed := l.gamesPlayed + 1,
       totalMatches := l.totalMatches + OrZero(g.matches),
       currentStreak := streak,
       totalScore := l.totalScore + g.score,
       longestStreak := if streak > l.longestStreak then streak else l.longestStreak,
       perfectGames := if g.mistakes == 0 then l.perfectGames + 1 else l.perfectGames,
       fastestGame :=
         if Truthy(g.timeElapsed) && (!Truthy(l.fastestGame) || g.timeElapsed.value < l.fastestGame.value)
         then g.timeElapsed else l.fastestGame,
       highestCombo := if g.maxCombo > l.highestCombo then g.maxCombo else l.highestCombo)
  }

  /** `updateHighScore`: the cell takes the new record when it is empty or strictly beaten. */
  function BestOf(hs: map<(string, string), ScoreRecord>, mode: string, difficulty: string, data: ScoreRecord)
    : (r: map<(string, string), ScoreRecord>)
    ensures r.Keys == hs.Keys + {(mode, difficulty)}
    ensures r[(mode, difficulty)].score >= data.score
  {
    var key := (mode, difficulty);
    if key !in hs || data.score > hs[key].score then hs[key := data] else hs
  }

  /** The high-score cell holds the better of the old record and the new one; ties keep the old one. */
  lemma BestOfKeepsBest(hs: map<(string, string), ScoreRecord>, mode: string, difficulty: string, data: ScoreRecord)
    ensures var best := BestOf(hs, mode, difficulty, data); var key := (mode, difficulty);
      key in best && data.score <= best[key].score &&
      (key in hs ==> hs[key].score <= best[key].score) &&
      (best[key] == data || best[key] == hs[key]) &&
      (key in hs && best[key] != hs[key] ==> data.score > hs[key].score) &&
      (forall k :: k != key ==> (k in best <==> k in hs) && (k in hs ==> best[k] == hs[k]))
  {
  }

  /** A run of `updateHighScore` calls on one (mode, difficulty) cell. */
  function SubmitAll(hs: map<(string, string), ScoreRecord>, mode: string, difficulty: string, recs: seq<ScoreRecord>)
    : map<(string, string), ScoreRecord>
  {
    if recs == [] then hs
    else BestOf(SubmitAll(hs, mode, difficulty, recs[..|recs| - 1]), mode, difficulty, recs[|recs| - 1])
  }

  /** After a run of submissions the cell holds a record with the highest score seen, and other cells are untouched. */
  lemma {:induction false} HighScoreIsBestSubmitted(
    hs: map<(string, string), ScoreRecord>, mode: string, difficulty: string, recs: seq<ScoreRecord>)
    ensures var best := SubmitAll(hs, mode, difficulty, recs); var key := (mode, difficulty);
      (key in best <==> key in hs || |recs| > 0) &&
      (key in best ==>
        (forall i :: 0 <= i < |recs| ==> recs[i].score <= best[key].score) &&
        (key in hs ==> hs[key].score <= best[key].score) &&
        (best[key] in recs || (key in hs && best[key] == hs[key]))) &&
      (forall k :: k != key ==> (k in best <==> k in hs) && (k in hs ==> best[k] == hs[k]))
  {
    if recs != [] {
      var init := recs[..|recs| - 1];
      var last := recs[|recs| - 1];
      HighScoreIsBestSubmitted(hs, mode, difficulty, init);
      BestOfKeepsBest(SubmitAll(hs, mode, difficulty, init), mode, difficulty, last);
      assert recs == init + [last];
    }
  }

  /** The record `recordGame` offers to `updateHighScore`. */
  function ScoreOf(g: GameData, now: Timestamp): ScoreRecord
  {
    ScoreRecord(g.score, now, g.mistakes, g.timeElapsed, g.timeRemaining, g.maxCombo)
  }

  /** The ledger `checkAchievements` sees: statistics tallied and the high score updated. */
  function Scored(l: Ledger, g: GameData, now: Timestamp): Ledger
  {
    var t := Tally(l, g);
    t.(highScores := BestOf(t.highScores, g.mode, g.difficulty, ScoreOf(g, now)))
  }

  /** The condition of each achievement's check, on the ledger `checkAchievements` sees. */
  predicate Earned(l: Ledger, g: GameData, a: Achievement)
  {
    match a
    case FirstMatch => l.totalMatches > 0
    case PerfectGame => g.mistakes == 0
    case SpeedDemon => Truthy(g.timeElapsed) && g.timeElapsed.value < 30
    case ComboMaster => g.maxCombo >= 5
    case BlitzChampion => g.mode == "blitz" && g.score >= 500
    case TimeTrialExpert => g.mode == "timed" && g.timeRemaining.Some? && g.timeRemaining.value >= 30
    case HardModeVictor => g.difficulty == "hard"
    case StreakMaster => l.currentStreak >= 5
    case HundredMatches => l.totalMatches >= 100
    case ThemeExplorer => l.themeSwitches >= 2
  }

  /** One check of `checkAchievements`: `[a]` when earned and still locked. */
  function Keep(l: Ledger, g: GameData, a: Achievement): seq<Achievement>
  {
    if Earned(l, g, a) && !IsUnlocked(l.achievements, Id(a)) then [a] else []
  }

  /** The achievements `checkAchievements` tests, in the order it tests them. */
  const CheckOrder: seq<Achievement> := [
    FirstMatch, PerfectGame, SpeedDemon, ComboMaster, BlitzChampion,
    TimeTrialExpert, HardModeVictor, StreakMaster, HundredMatches
  ]

  lemma CheckOrderDistinct()
    ensures Distinct(CheckOrder)
    ensures forall a :: a in CheckOrder <==> a != ThemeExplorer
  {
  }

  /** The outcome of the checks for `order`, one after another. */
  function Pick(l: Ledger, g: GameData, order: seq<Achievement>): seq<Achievement>
  {
    if order == [] then []
    else Pick(l, g, order[..|order| - 1]) + Keep(l, g, order[|order| - 1])
  }

  lemma {:induction false} PickMembers(l: Ledger, g: GameData, order: seq<Achievement>, a: Achievement)
    ensures a in Pick(l, g, order) <==> a in order && Earned(l, g, a) && !IsUnlocked(l.achievements, Id(a))
  {
    if order != [] {
      var init := order[..|order| - 1];
      assert order == init + [order[|order| - 1]];
      PickMembers(l, g, init, a);
    }
  }

  lemma {:induction false} PickDistinct(l: Ledger, g: GameData, order: seq<Achievement>)
    requires Distinct(order)
    ensures Distinct(Pick(l, g, order))
  {
    if order != [] {
      var init := order[..|order| - 1];
      var last := order[|order| - 1];
      assert order == init + [last];
      assert Distinct(init);
      PickDistinct(l, g, init);
      PickMembers(l, g, init, last);
      var p := Pick(l, g, init);
      var q := p + Keep(l, g, last);
      forall i, j | 0 <= i < j < |q| ensures q[i] != q[j] {
        if j == |p| {
          assert q[i] == p[i] && p[i] in p;
        }
      }
    }
  }

  /** The list `checkAchievements` returns. */
  function NewlyEarned(l: Ledger, g: GameData): seq<Achievement>
  {
    Pick(l, g, CheckOrder)
  }

  /**
   * `checkAchievements` lists an achievement exactly when its condition holds
   * and it is still locked (theme explorer is never checked here), each at
   * most once.
   */
  lemma NewlyEarnedMembers(l: Ledger, g: GameData)
    ensures forall a :: a in NewlyEarned(l, g) <==>
      a != ThemeExplorer && Earned(l, g, a) && !IsUnlocked(l.achievements, Id(a))
    ensures Distinct(NewlyEarned(l, g))
  {
    CheckOrderDistinct();
    forall a ensures a in NewlyEarned(l, g) <==> a in CheckOrder && Earned(l, g, a) && !IsUnlocked(l.achievements, Id(a)) {
      PickMembers(l, g, CheckOrder, a);
    }
    PickDistinct(l, g, CheckOrder);
  }

  /** One `if` block of `checkAchievements`: unlock `a` and list it when `earned` and still locked. */
  function CheckStep(l: Ledger, found: seq<Achievement>, a: Achievement, earned: bool, now: Timestamp)
    : (r: (Ledger, seq<Achievement>))
  {
    if earned && !IsUnlocked(l.achievements, Id(a)) then
      (l.(achievements := l.achievements[Id(a) := UnlockedAt(now)]), found + [a])
    else
      (l, found)
  }

  /** The blocks for `order`, run one after another, each reading the table the previous ones left. */
  function Checks(l: Ledger, g: GameData, order: seq<Achievement>, now: Timestamp): (r: (Ledger, seq<Achievement>))
  {
    if order == [] then (l, [])
    else
      var (l', found) := Checks(l, g, order[..|order| - 1], now);
      var a := order[|order| - 1];
      CheckStep(l', found, a, Earned(l', g, a), now)
  }

  /**
   * Running the checks one after another gives the same list as testing every
   * achievement against the starting state, because each check only unlocks
   * its own achievement.
   */
  lemma {:induction false} ChecksInSequence(l: Ledger, g: GameData, order: seq<Achievement>, now: Timestamp)
    requires Distinct(order)
    ensures Checks(l, g, order, now).1 == Pick(l, g, order)
    ensures Checks(l, g, order, now).0 == l.(achievements := Unlocking(l.achievements, Pick(l, g, order), now))
  {
    if order != [] {
      var init := order[..|order| - 1];
      var a := order[|order| - 1];
      assert order == init + [a];
      assert Distinct(init) && a !in init;
      ChecksInSequence(l, g, init, now);
      ChecksExtend(l, g, init, a, now);
      CheckAfterPick(l, g, init, a, now);
    }
  }

  /** The check of `a`, after those of `init` (which do not include `a`), sees `a` as the starting state does. */
  lemma CheckAfterPick(l: Ledger, g: GameData, init: seq<Achievement>, a: Achievement, now: Timestamp)
    requires a !in init
    ensures var p := Pick(l, g, init);
      var l1 := l.(achievements := Unlocking(l.achievements, p, now));
      var q := Pick(l, g, init + [a]);
      CheckStep(l1, p, a, Earned(l1, g, a), now) == (l.(achievements := Unlocking(l.achievements, q, now)), q)
  {
    var p := Pick(l, g, init);
    var m1 := Unlocking(l.achievements, p, now);
    EarnedIgnoresTable(l, g, a, m1);
    PickLeavesOthers(l, g, init, a, now);
    PickExtend(l, g, init, a);
    if Earned(l, g, a) && !IsUnlocked(l.achievements, Id(a)) {
      UnlockingExtend(l.achievements, p, a, now);
    } else {
      assert p + [] == p;
    }
  }

  /** No achievement's condition reads the achievement table. */
  lemma EarnedIgnoresTable(l: Ledger, g: GameData, a: Achievement, m: map<string, Status>)
    ensures Earned(l.(achievements := m), g, a) == Earned(l, g, a)
  {
  }

  /** The checks of `init` leave the entry of an achievement outside `init` as it was. */
  lemma PickLeavesOthers(l: Ledger, g: GameData, init: seq<Achievement>, a: Achievement, now: Timestamp)
    requires a !in init
    ensures IsUnlocked(Unlocking(l.achievements, Pick(l, g, init), now), Id(a)) == IsUnlocked(l.achievements, Id(a))
  {
    var p := Pick(l, g, init);
    PickMembers(l, g, init, a);
    ListedById(p, a);
    UnlockingLookup(l.achievements, p, now, Id(a));
  }

  lemma PickExtend(l: Ledger, g: GameData, init: seq<Achievement>, a: Achievement)
    ensures Pick(l, g, init + [a]) == Pick(l, g, init) + Keep(l, g, a)
  {
    assert (init + [a])[..|init|] == init;
  }

  lemma UnlockingExtend(m: map<string, Status>, ks: seq<Achievement>, a: Achievement, now: Timestamp)
    ensures Unlocking(m, ks + [a], now) == Unlocking(m, ks, now)[Id(a) := UnlockedAt(now)]
  {
    assert (ks + [a])[..|ks|] == ks;
  }

  lemma ChecksExtend(l: Ledger, g: GameData, done: seq<Achievement>, a: Achievement, now: Timestamp)
    ensures var (l', found) := Checks(l, g, done, now);
      Checks(l, g, done + [a], now) == CheckStep(l', found, a, Earned(l', g, a), now)
  {
    assert (done + [a])[..|done|] == done;
  }

  /** The sum of the XP rewards of `ks`. */
  function Rewards(ks: seq<Achievement>): nat
  {
    if ks == [] then 0 else Rewards(ks[..|ks| - 1]) + XPReward(ks[|ks| - 1])
  }

  /** Adding the reward of `ks[i]` to the rewards of the prefix before it. */
  lemma RewardsExtend(ks: seq<Achievement>, i: nat)
    requires i < |ks|
    ensures Rewards(ks[..i + 1]) == Rewards(ks[..i]) + XPReward(ks[i])
  {
    assert ks[..i + 1][..i] == ks[..i];
  }

  /** The result of `recordGame(g)`: the ledger after it and the returned record. */
  function AfterGame(l: Ledger, g: GameData, now: Timestamp): (r: (Ledger, GameResult))
    ensures r.0.gamesPlayed == l.gamesPlayed + 1 && r.0.themeSwitches == l.themeSwitches
    ensures r.0.currentStreak == l.currentStreak + 1 && r.0.totalMatches == l.totalMatches + OrZero(g.matches)
    ensures r.0.xp == l.xp + r.1.xpGained && r.1.xp == r.0.xp && r.1.level == r.0.level
  {
    var h := Scored(l, g, now);
    var ks := NewlyEarned(h, g);
    var u := h.(achievements := Unlocking(h.achievements, ks, now));
    var gained := CalculateGameXP(g) + Rewards(ks);
    var (l', r) := WithXP(u, gained);
    (l', GameResult(gained, r.leveledUp, r.level, r.xp, ks))
  }

  /**
   * The bookkeeping of `recordGame`: one more game and one longer streak, the
   * matches and score added, the longest streak, fastest time and highest
   * combo are the extremes seen, and the XP gained is the game's XP plus the
   * rewards of the newly unlocked achievements.
   */
  lemma RecordGameAccounting(l: Ledger, g: GameData, now: Timestamp)
    requires l.level == CalculateLevel(l.xp)
    ensures var (l', r) := AfterGame(l, g, now);
      l'.gamesPlayed == l.gamesPlayed + 1 &&
      l'.currentStreak == l.currentStreak + 1 &&
      l'.totalMatches == l.totalMatches + OrZero(g.matches) &&
      l'.totalScore == l.totalScore + g.score &&
      l'.perfectGames == l.perfectGames + (if g.mistakes == 0 then 1 else 0) &&
      l'.themeSwitches == l.themeSwitches &&
      l'.longestStreak >= l'.currentStreak && l'.longestStreak >= l.longestStreak &&
      (l'.longestStreak == l.longestStreak || l'.longestStreak == l'.currentStreak) &&
      l'.highestCombo >= g.maxCombo && l'.highestCombo >= l.highestCombo &&
      (l'.highestCombo == l.highestCombo || l'.highestCombo == g.maxCombo) &&
      (l'.fastestGame == l.fastestGame || l'.fastestGame == g.timeElapsed) &&
      (l'.fastestGame != l.fastestGame ==>
        Truthy(g.timeElapsed) && (!Truthy(l.fastestGame) || g.timeElapsed.value < l.fastestGame.value)) &&
      (Truthy(g.timeElapsed) ==> Truthy(l'.fastestGame) && l'.fastestGame.value <= g.timeElapsed.value) &&
      (Truthy(l.fastestGame) ==> Truthy(l'.fastestGame) && l'.fastestGame.value <= l.fastestGame.value) &&
      l'.highScores == BestOf(l.highScores, g.mode, g.difficulty, ScoreOf(g, now)) &&
      r.xpGained == CalculateGameXP(g) + Rewards(r.newAchievements) &&
      l'.xp == l.xp + r.xpGained && r.xp == l'.xp &&
      l'.level == CalculateLevel(l'.xp) && r.level == l'.level &&
      (r.leveledUp <==> l'.xp >= XPForNextLevel(l.level))
  {
    var h := Scored(l, g, now);
    var ks := NewlyEarned(h, g);
    AddXPLevelsUp(h.(achievements := Unlocking(h.achievements, ks, now)), CalculateGameXP(g) + Rewards(ks));
  }

  /**
   * `recordGame` reports exactly the achievements it unlocked, each once,
   * stamped with the time of the call, and leaves every other entry alone.
   */
  lemma RecordGameUnlocks(l: Ledger, g: GameData, now: Timestamp)
    ensures var (l', r) := AfterGame(l, g, now);
      (forall a :: a in r.newAchievements <==>
        !IsUnlocked(l.achievements, Id(a)) && IsUnlocked(l'.achievements, Id(a))) &&
      (forall a :: a in r.newAchievements ==> l'.achievements[Id(a)] == UnlockedAt(now)) &&
      (forall id :: id !in Ids(r.newAchievements) ==>
        (id in l'.achievements <==> id in l.achievements) &&
        (id in l.achievements ==> l'.achievements[id] == l.achievements[id])) &&
      (forall a :: a in r.newAchievements ==> Earned(Scored(l, g, now), g, a)) &&
      Distinct(r.newAchievements)
  {
    var h := Scored(l, g, now);
    var ks := NewlyEarned(h, g);
    NewlyEarnedMembers(h, g);
    forall a: Achievement
      ensures a in ks <==> !IsUnlocked(l.achievements, Id(a)) && IsUnlocked(AfterGame(l, g, now).0.achievements, Id(a))
      ensures a in ks ==> AfterGame(l, g, now).0.achievements[Id(a)] == UnlockedAt(now)
    {
      UnlockingLookup(h.achievements, ks, now, Id(a));
      ListedById(ks, a);
    }
    forall id | id !in Ids(ks)
      ensures (id in AfterGame(l, g, now).0.achievements <==> id in l.achievements)
      ensures id in l.achievements ==> AfterGame(l, g, now).0.achievements[id] == l.achievements[id]
    {
      UnlockingLookup(h.achievements, ks, now, id);
    }
  }

  /** `recordGame` keeps every achievement entry present. */
  lemma RecordGameKeepsTable(l: Ledger, g: GameData, now: Timestamp)
    requires Complete(l.achievements)
    ensures Complete(AfterGame(l, g, now).0.achievements)
  {
    var ks := AfterGame(l, g, now).1.newAchievements;
    RecordGameUnlocks(l, g, now);
    forall a: Achievement ensures Id(a) in AfterGame(l, g, now).0.achievements {
      ListedById(ks, a);
    }
  }

  /**
   * Recording the same game twice in a row: the second call unlocks nothing
   * but possibly the two thresholds a second game can cross, the five-game
   * streak and the hundred matches, and each only once it is crossed.
   */
  lemma SameGameTwice(l: Ledger, g: GameData, now1: Timestamp, now2: Timestamp)
    requires l.totalMatches >= 0
    ensures var l1 := AfterGame(l, g, now1).0; var h2 := Scored(l1, g, now2);
      forall a :: a in AfterGame(l1, g, now2).1.newAchievements ==>
        (a == StreakMaster && h2.currentStreak >= 5) || (a == HundredMatches && h2.totalMatches >= 100)
  {
    var l1 := AfterGame(l, g, now1).0;
    var h1 := Scored(l, g, now1);
    var h2 := Scored(l1, g, now2);
    RecordGameUnlocks(l, g, now1);
    NewlyEarnedMembers(h1, g);
    NewlyEarnedMembers(h2, g);
    forall a | a in AfterGame(l1, g, now2).1.newAchievements
      ensures (a == StreakMaster && h2.currentStreak >= 5) || (a == HundredMatches && h2.totalMatches >= 100)
    {
      if a != StreakMaster && a != HundredMatches {
        assert Earned(h1, g, a);
        var ks1 := AfterGame(l, g, now1).1.newAchievements;
        ListedById(ks1, a);
        assert IsUnlocked(l1.achievements, Id(a));
        assert false;
      }
    }
  }

  /**
   * When the second game crosses neither the five-game streak nor the hundred
   * matches, recording the same game twice unlocks nothing the second time.
   */
  lemma SameSmallGameTwice(l: Ledger, g: GameData, now1: Timestamp, now2: Timestamp)
    requires l.currentStreak < 3 && 0 <= l.totalMatches && l.totalMatches + 2 * OrZero(g.matches) < 100
    ensures var l1 := AfterGame(l, g, now1).0;
      AfterGame(l1, g, now2).1.newAchievements == []
  {
    var l1 := AfterGame(l, g, now1).0;
    var h2 := Scored(l1, g, now2);
    var ks := AfterGame(l1, g, now2).1.newAchievements;
    SecondGameTotals(l, g, now1, now2);
    SameGameTwice(l, g, now1, now2);
    FirstListed(ks);
  }

  /** The streak and match total that the checks of a second identical game see. */
  lemma SecondGameTotals(l: Ledger, g: GameData, now1: Timestamp, now2: Timestamp)
    ensures var h2 := Scored(AfterGame(l, g, now1).0, g, now2);
      h2.currentStreak == l.currentStreak + 2 && h2.totalMatches == l.totalMatches + 2 * OrZero(g.matches)
  {
    var l1 := AfterGame(l, g, now1).0;
    assert l1.currentStreak == l.currentStreak + 1 && l1.totalMatches == l.totalMatches + OrZero(g.matches);
  }

  lemma FirstListed(ks: seq<Achievement>)
    ensures ks != [] ==> ks[0] in ks
  {
  }

  /** From a fresh state, the same small game recorded twice unlocks nothing the second time. */
  lemma SameGameTwiceFromFresh(g: GameData, now1: Timestamp, now2: Timestamp)
    requires OrZero(g.matches) < 50
    ensures var l1 := AfterGame(Fresh(), g, now1).0;
      AfterGame(l1, g, now2).1.newAchievements == []
  {
    SameSmallGameTwice(Fresh(), g, now1, now2);
  }

  // ---------------------------------------------------------------------
  // Theme switches and streaks
  // ---------------------------------------------------------------------

  /** The state after `recordThemeSwitch`. */
  function AfterThemeSwitch(l: Ledger, now: Timestamp): (r: Ledger)
    ensures r.(xp := l.xp, level := l.level, achievements := l.achievements) == l.(themeSwitches := l.themeSwitches + 1)
    ensures r.xp == l.xp || r.xp == l.xp + XPReward(ThemeExplorer)
  {
    var t := l.(themeSwitches := l.themeSwitches + 1);
    if t.themeSwitches >= 2 && !IsUnlocked(t.achievements, Id(ThemeExplorer)) then
      WithXP(t.(achievements := t.achievements[Id(ThemeExplorer) := UnlockedAt(now)]), XPReward(ThemeExplorer)).0
    else
      t
  }

  /**
   * A theme switch unlocks theme explorer from the second switch on, and pays
   * its 25 XP only on the switch that unlocks it.
   */
  lemma ThemeExplorerRewardedOnce(l: Ledger, now: Timestamp)
    ensures var l' := AfterThemeSwitch(l, now);
      l'.themeSwitches == l.themeSwitches + 1 &&
      (IsUnlocked(l'.achievements, Id(ThemeExplorer)) <==>
        IsUnlocked(l.achievements, Id(ThemeExplorer)) || l.themeSwitches >= 1) &&
      l'.xp == l.xp + (if !IsUnlocked(l.achievements, Id(ThemeExplorer)) && l.themeSwitches >= 1 then 25 else 0)
  {
  }

  /** Two theme switches from a fresh state unlock theme explorer and earn 25 XP; a third earns nothing. */
  lemma ThreeThemeSwitchesFromFresh(now1: Timestamp, now2: Timestamp, now3: Timestamp)
    ensures var l2 := AfterThemeSwitch(AfterThemeSwitch(Fresh(), now1), now2);
      IsUnlocked(l2.achievements, Id(ThemeExplorer)) && l2.xp == 25 &&
      AfterThemeSwitch(l2, now3).xp == 25
  {
    ThemeExplorerRewardedOnce(Fresh(), now1);
    ThemeExplorerRewardedOnce(AfterThemeSwitch(Fresh(), now1), now2);
    ThemeExplorerRewardedOnce(AfterThemeSwitch(AfterThemeSwitch(Fresh(), now1), now2), now3);
  }

  /** Streak master is unlocked exactly when the current streak has reached five. */
  predicate StreakAgrees(l: Ledger)
  {
    IsUnlocked(l.achievements, Id(StreakMaster)) <==> l.currentStreak >= 5
  }

  lemma RecordGameKeepsStreakAgreement(l: Ledger, g: GameData, now: Timestamp)
    requires StreakAgrees(l)
    ensures StreakAgrees(AfterGame(l, g, now).0)
    ensures AfterGame(l, g, now).0.currentStreak == l.currentStreak + 1
  {
    var h := Scored(l, g, now);
    RecordGameUnlocks(l, g, now);
    NewlyEarnedMembers(h, g);
  }

  // ---------------------------------------------------------------------
  // Runs of operations
  // ---------------------------------------------------------------------

  /** One call of a public state-changing operation of `PlayerState`. */
  datatype Action =
    | Gain(amount: int)
    | Play(game: GameData, now: Timestamp)
    | Unlock(id: string, now: Timestamp)
    | Check(game: GameData, now: Timestamp)
    | SwitchTheme(now: Timestamp)
    | BreakStreak
    | SubmitScore(mode: string, difficulty: string, data: ScoreRecord)
    | Restart

  function Apply(l: Ledger, act: Action): Ledger
  {
    match act
    case Gain(amount) => WithXP(l, amount).0
    case Play(g, now) => AfterGame(l, g, now).0
    case Unlock(id, now) => AfterUnlock(l, id, now).0
    case Check(g, now) => l.(achievements := Unlocking(l.achievements, NewlyEarned(l, g), now))
    case SwitchTheme(now) => AfterThemeSwitch(l, now)
    case BreakStreak => l.(currentStreak := 0)
    case SubmitScore(mode, difficulty, data) => l.(highScores := BestOf(l.highScores, mode, difficulty, data))
    case Restart => Fresh()
  }

  function Run(l: Ledger, acts: seq<Action>): Ledger
    decreases |acts|
  {
    if acts == [] then l else Run(Apply(l, acts[0]), acts[1..])
  }

  /** The invariant of `this.state`: every achievement has an entry and the level is derived from the XP. */
  predicate Consistent(l: Ledger)
  {
    Complete(l.achievements) && l.level == CalculateLevel(l.xp)
  }

  lemma ApplyPreserves(l: Ledger, act: Action)
    requires Consistent(l)
    ensures Consistent(Apply(l, act))
  {
    if act.Play? {
      RecordGameKeepsTable(l, act.game, act.now);
    } else if act.Check? {
      forall a: Achievement ensures Id(a) in Apply(l, act).achievements {
        UnlockingLookup(l.achievements, NewlyEarned(l, act.game), act.now, Id(a));
      }
    }
  }

  /** Whatever the player does, the level stays the one the XP total determines. */
  lemma {:induction false} RunPreserves(l: Ledger, acts: seq<Action>)
    requires Consistent(l)
    ensures Consistent(Run(l, acts))
    decreases |acts|
  {
    if acts != [] {
      ApplyPreserves(l, acts[0]);
      RunPreserves(Apply(l, acts[0]), acts[1..]);
    }
  }

  lemma ApplyKeepsUnlocked(l: Ledger, act: Action, id: string)
    requires !act.Restart? && IsUnlocked(l.achievements, id)
    ensures id in Apply(l, act).achievements && Apply(l, act).achievements[id] == l.achievements[id]
  {
    if act.Play? {
      var ks := AfterGame(l, act.game, act.now).1.newAchievements;
      RecordGameUnlocks(l, act.game, act.now);
      assert id !in Ids(ks) by {
        forall a | a in ks ensures Id(a) != id {
        }
      }
    } else if act.Check? {
      var ks := NewlyEarned(l, act.game);
      NewlyEarnedMembers(l, act.game);
      assert id !in Ids(ks) by {
        forall a | a in ks ensures Id(a) != id {
        }
      }
      UnlockingLookup(l.achievements, ks, act.now, id);
    }
  }

  /** Short of a reset, an unlocked achievement stays unlocked with its original time stamp. */
  lemma {:induction false} UnlockedStaysUnlocked(l: Ledger, acts: seq<Action>, id: string)
    requires forall i :: 0 <= i < |acts| ==> !acts[i].Restart?
    requires IsUnlocked(l.achievements, id)
    ensures id in Run(l, acts).achievements && Run(l, acts).achievements[id] == l.achievements[id]
    decreases |acts|
  {
    if acts != [] {
      ApplyKeepsUnlocked(l, acts[0], id);
      UnlockedStaysUnlocked(Apply(l, acts[0]), acts[1..], id);
    }
  }

  predicate AllPlays(acts: seq<Action>)
  {
    forall i :: 0 <= i < |acts| ==> acts[i].Play?
  }

  /** Over consecutive games the streak counts them, and streak master follows the streak. */
  lemma {:induction false} ConsecutiveGames(l: Ledger, acts: seq<Action>)
    requires AllPlays(acts) && StreakAgrees(l)
    ensures StreakAgrees(Run(l, acts))
    ensures Run(l, acts).currentStreak == l.currentStreak + |acts|
    decreases |acts|
  {
    if acts != [] {
      RecordGameKeepsStreakAgreement(l, acts[0].game, acts[0].now);
      assert AllPlays(acts[1..]) by {
        forall i | 0 <= i < |acts[1..]| ensures acts[1..][i].Play? {
          assert acts[1..][i] == acts[i + 1];
        }
      }
      ConsecutiveGames(Apply(l, acts[0]), acts[1..]);
    }
  }

  /** From a fresh state, streak master is unlocked exactly once five games have been played in a row. */
  lemma StreakMasterAtFiveGames(acts: seq<Action>)
    requires AllPlays(acts)
    ensures IsUnlocked(Run(Fresh(), acts).achievements, Id(StreakMaster)) <==> |acts| >= 5
  {
    ConsecutiveGames(Fresh(), acts);
  }

  // ---------------------------------------------------------------------
  // The class
  // ---------------------------------------------------------------------

  class PlayerState {
    var state: Ledger

    ghost predicate Valid()
      reads this
    {
      Consistent(state)
    }

    /** A player with no saved state: `load` falls back to `initializeState`. */
    constructor ()
      ensures state == Fresh() && Valid()
    {
      new;
      InitializeState();
    }

    method InitializeState()
      modifies this
      ensures state == Fresh() && Valid()
    {
      state := Ledger(0, 1, 0, 0, 0, 0, 0, 0, map[], map[], None, 0, 0);
      for i := 0 to |AllAchievements|
        invariant state == Fresh().(achievements := LockedTable(AllAchievements[..i]))
      {
        assert AllAchievements[..i + 1][..i] == AllAchievements[..i];
        state := state.(achievements := state.achievements[Id(AllAchievements[i]) := Locked]);
      }
      assert AllAchievements[..|AllAchievements|] == AllAchievements;
    }

    method AddXP(amount: int) returns (r: LevelResult)
      requires Valid()
      modifies this
      ensures state == WithXP(old(state), amount).0
      ensures r == WithXP(old(state), amount).1
      ensures Valid()
    {
      state := state.(xp := state.xp + amount);
      var newLevel := CalculateLevel(state.xp);
      var leveledUp := newLevel > state.level;
      state := state.(level := newLevel);
      r := LevelResult(leveledUp, newLevel, state.xp);
    }

    /** The threshold of the next level: the XP total stays below it until the level goes up. */
    function GetXPForNextLevel(): (n: int)
      requires Valid()
      reads this
      ensures state.xp < n
      ensures CalculateLevel(n) == state.level + 1
      ensures forall x :: state.xp <= x < n ==> CalculateLevel(x) == state.level
    {
      var n := XPForNextLevel(state.level);
      LevelReached(n, state.level);
      LevelReached(n - 1, state.level);
      assert CalculateLevel(n) == state.level + 1 by {
        LevelUnique(n, state.level + 1);
      }
      forall x | state.xp <= x < n ensures CalculateLevel(x) == state.level {
        LevelMonotone(state.xp, x);
        LevelReached(x, state.level);
      }
      n
    }

    /** Missing entries read as locked. */
    function IsAchievementUnlocked(id: string): (b: bool)
      reads this
      ensures b ==> id in state.achievements
      ensures id !in state.achievements ==> !b
    {
      IsUnlocked(state.achievements, id)
    }

    method UnlockAchievement(id: string, now: Timestamp) returns (r: Option<Achievement>)
      requires Valid()
      modifies this
      ensures state == AfterUnlock(old(state), id, now).0
      ensures r == AfterUnlock(old(state), id, now).1
      ensures Valid()
    {
      var achievement := Find(id);
      if achievement.Some? && !state.achievements[id].unlocked {
        state := state.(achievements := state.achievements[id := UnlockedAt(now)]);
        return achievement;
      }
      return None;
    }

    /**
     * The nine `if` blocks of `checkAchievements` share one shape: when the
     * achievement's condition holds and it is still locked, unlock it and
     * list it.  They run here as one loop over `CheckOrder`, in the source's
     * order, with `Earned` holding each block's condition.
     */
    method CheckAchievements(g: GameData, now: Timestamp) returns (newAchievements: seq<Achievement>)
      requires Valid()
      modifies this
      ensures newAchievements == NewlyEarned(old(state), g)
      ensures state == old(state).(achievements := Unlocking(old(state).achievements, newAchievements, now))
      ensures Valid()
    {
      ghost var l0 := state;
      newAchievements := [];
      for i := 0 to |CheckOrder|
        invariant Valid()
        invariant (state, newAchievements) == Checks(l0, g, CheckOrder[..i], now)
      {
        var a := CheckOrder[i];
        assert CheckOrder[..i + 1] == CheckOrder[..i] + [a];
        ChecksExtend(l0, g, CheckOrder[..i], a, now);
        newAchievements := CheckBlock(g, a, now, newAchievements);
      }
      assert CheckOrder[..|CheckOrder|] == CheckOrder;
      CheckOrderDistinct();
      ChecksInSequence(l0, g, CheckOrder, now);
    }

    /** One `if` block of `checkAchievements`: unlock `a` and list it when earned and still locked. */
    method CheckBlock(g: GameData, a: Achievement, now: Timestamp, found: seq<Achievement>)
      returns (found': seq<Achievement>)
      requires Valid()
      modifies this
      ensures (state, found') == CheckStep(old(state), found, a, Earned(old(state), g, a), now)
      ensures Valid()
    {
      found' := found;
      if Earned(state, g, a) && !IsAchievementUnlocked(Id(a)) {
        FindId(a);
        var achievement := UnlockAchievement(Id(a), now);
        found' := found + [achievement.value];
      }
    }

    method UpdateHighScore(mode: string, difficulty: string, scoreData: ScoreRecord)
      requires Valid()
      modifies this
      ensures state == old(state).(highScores := BestOf(old(state).highScores, mode, difficulty, scoreData))
      ensures Valid()
    {
      var key := (mode, difficulty);
      if key !in state.highScores || scoreData.score > state.highScores[key].score {
        state := state.(highScores := state.highScores[key := scoreData]);
      }
    }

    /** The record of a cell, or `None` for an empty one. */
    function GetHighScore(mode: string, difficulty: string): (r: Option<ScoreRecord>)
      reads this
      ensures r.Some? <==> (mode, difficulty) in state.highScores
      ensures r.Some? ==> r.value == state.highScores[(mode, difficulty)]
    {
      if (mode, difficulty) in state.highScores then Some(state.highScores[(mode, difficulty)]) else None
    }

    /** The statistics updates at the head of `recordGame`. */
    method RecordStats(g: GameData)
      requires Valid()
      modifies this
      ensures state == Tally(old(state), g)
      ensures Valid()
    {
      state := state.(gamesPlayed := state.gamesPlayed + 1);
      state := state.(totalMatches := state.totalMatches + OrZero(g.matches));
      state := state.(currentStreak := state.currentStreak + 1);
      state := state.(totalScore := state.totalScore + g.score);
      if state.currentStreak > state.longestStreak {
        state := state.(longestStreak := state.currentStreak);
      }
      if g.mistakes == 0 {
        state := state.(perfectGames := state.perfectGames + 1);
      }
      if Truthy(g.timeElapsed) && (!Truthy(state.fastestGame) || g.timeElapsed.value < state.fastestGame.value) {
        state := state.(fastestGame := g.timeElapsed);
      }
      if g.maxCombo > state.highestCombo {
        state := state.(highestCombo := g.maxCombo);
      }
    }

    method RecordGame(g: GameData, now: Timestamp) returns (r: GameResult)
      requires Valid()
      modifies this
      ensures state == AfterGame(old(state), g, now).0
      ensures r == AfterGame(old(state), g, now).1
      ensures Valid()
    {
      RecordStats(g);
      UpdateHighScore(g.mode, g.difficulty, ScoreOf(g, now));
      assert state == Scored(old(state), g, now);
      var newAchievements := CheckAchievements(g, now);
      var xpGained := CalculateGameXP(g);
      ghost var checked := state;
      for i := 0 to |newAchievements|
        invariant state == checked
        invariant xpGained == CalculateGameXP(g) + Rewards(newAchievements[..i])
      {
        RewardsExtend(newAchievements, i);
        xpGained := xpGained + XPReward(newAchievements[i]);
      }
      assert newAchievements[..|newAchievements|] == newAchievements;
      var levelResult := AddXP(xpGained);
      r := GameResult(xpGained, levelResult.leveledUp, levelResult.level, levelResult.xp, newAchievements);
    }

    method RecordThemeSwitch(now: Timestamp)
      requires Valid()
      modifies this
      ensures state == AfterThemeSwitch(old(state), now)
      ensures Valid()
    {
      state := state.(themeSwitches := state.themeSwitches + 1);
      if state.themeSwitches >= 2 && !IsAchievementUnlocked(Id(ThemeExplorer)) {
        FindId(ThemeExplorer);
        ghost var switched := state;
        var achievement := UnlockAchievement(Id(ThemeExplorer), now);
        assert achievement == Some(ThemeExplorer);
        assert state == switched.(achievements := switched.achievements[Id(ThemeExplorer) := UnlockedAt(now)]);
        if achievement.Some? {
          var _ := AddXP(XPReward(achievement.value));
        }
      }
    }

    method ResetStreak()
      requires Valid()
      modifies this
      ensures state == old(state).(currentStreak := 0)
      ensures Valid()
    {
      state := state.(currentStreak := 0);
    }

    method Reset()
      modifies this
      ensures state == Fresh() && Valid()
    {
      InitializeState();
    }
  }
}

# Lucy's Match — a Dafny model of the card-matching engine and player progression

Lucy's Match is a browser memory game. The player turns cards over two at a
time, looking for pairs of emoji. When the last pair is found, a result
screen shows one to three stars, based on how many mismatches there were.
A persistent player profile tracks XP and levels, per-game statistics,
achievements, and a high-score table per mode and difficulty.

This project models the two core files of the repository:

- `src/game.js` is the card engine. It covers the Fisher–Yates `shuffle`,
  `initGame`, `onCardClick` with its deferred flip-back after a mismatch,
  `getStarRating`, and the title that `showResult` chooses.
  - `shuffle.dfy` (module `Shuffling`) has the in-place shuffle on an
    `array`, its specification function `Shuffled`, and the permutation
    lemmas.
  - `match_engine.dfy` (module `MatchEngine`) has the class `Game`, whose
    fields are the module-level variables of `game.js`. A card is a `Card`
    record, named by its position.
  - A pure `Board` snapshot with the step functions `Click` and `FlipBack`
    specifies the class methods. The lemmas prove that the board invariant
    `Consistent` holds across every click and flip-back, and that the result
    screen appears exactly when the last pair is matched.
- `src/playerState.js` is the player progression.
  - `achievements.dfy` (module `Achievements`) has the `ACHIEVEMENTS` table:
    the ten ids, their XP rewards, and lookup by id.
  - `progression.dfy` (module `Progression`) has the class `PlayerState`.
    Its single field `state` is the record `this.state`, modelled as the
    datatype `Ledger`.
  - Each operation is first a pure function from one ledger to the next
    (`WithXP`, `AfterUnlock`, `AfterGame`, `AfterThemeSwitch`, `BestOf`).
    Each method of the class is proved to update `state` exactly as that
    function says.
  - The lemmas are stated on those functions. They cover:
    - levels derived from XP;
    - the XP a game earns;
    - high scores that keep the best record;
    - achievements unlocked at most once and never lost short of a reset;
    - the streak achievement following the streak over any run of games.

`prelude.dfy` (module `Prelude`) holds what the modules share: the `Option`
datatype and the predicate `Distinct`.

Randomness, the clock and the timer are inputs:

- `Math.random` is replaced by a sequence of swap indices, `picks`.
  `picks[i]` lies between 0 and i, so every run of the source corresponds to
  some sequence.
- `new Date().toISOString()` is a `now` parameter.
- The `setTimeout` callback after a mismatch is the method
  `Game.ResolveMismatch`. The card it closes over is the field
  `pendingCard`.

## Model

| member | source | states |
|---|---|---|
| `Shuffling.Swap` | src/game.js:15 | the two positions exchange their elements and every other position is unchanged |
| `Shuffling.FisherYates` | src/game.js:13-16 | the loop from position i down to 1 keeps the length |
| `Shuffling.Shuffled` | src/game.js:12-18 | the shuffle keeps the length |
| `Shuffling.SwapPermutes` | src/game.js:15 | a swap is a permutation and keeps distinct elements distinct |
| `Shuffling.FisherYatesPermutes` | src/game.js:13-16 | the whole loop is a permutation of its input and keeps distinct elements distinct (by induction over the positions) |
| `Shuffling.ShuffledPermutes` | src/game.js:12-18 | `shuffle` returns a permutation of the array it was given |
| `Shuffling.Shuffle` | src/game.js:12-18 | the in-place loop leaves in the array exactly `Shuffled` of its old contents, a permutation of them |
| `MatchEngine.MasterSymbolsDistinct` | src/game.js:4 | there are sixteen master symbols, all different |
| `MatchEngine.Unstarted` | src/game.js:2-8 | before the first `initGame` there are no cards, nothing found, no misses, and the board invariant holds |
| `MatchEngine.Symbols` | src/game.js:44 | the symbol of each card, position by position |
| `MatchEngine.FaceDown` | src/game.js:35-47 | freshly dealt cards carry the deck's symbols in order, neither flipped nor matched |
| `MatchEngine.StarRating` | src/game.js:113-118 | three stars for at most 6 misses, two for 7 to 10, one above 10, and always between 1 and 3 |
| `MatchEngine.ResultTitle` | src/game.js:125-127 | "AMAZING!" exactly for three stars, "Great!" exactly for two, otherwise "Nice!" |
| `MatchEngine.ShowResult` | src/game.js:120-127 | the result screen shows 1 to 3 stars; its title is "AMAZING!" exactly for at most 6 misses, "Great!" exactly for 7 to 10, and "Nice!" exactly above 10 |
| `MatchEngine.StarRatingNonIncreasing` | src/game.js:113-118 | more misses never earn more stars |
| `MatchEngine.FlawlessGameIsAmazing` | src/game.js:120-127 | a game with no misses shows three stars and "AMAZING!" |
| `MatchEngine.Prefix` | src/game.js:31 | `slice(0, n)` gives the first min(n, length) elements |
| `MatchEngine.PairCount` | src/game.js:29-31 | the number of pairs dealt is the smaller of half the card count, rounded down, and the sixteen master symbols |
| `MatchEngine.Deal` | src/game.js:24-32 | `initGame` activates `PairCount` symbols and deals two cards for each. It starts with no misses, no pairs found, no first card and an unlocked board. |
| `MatchEngine.DealFrom` | src/game.js:29-32 | dealing from a pool activates the smaller of the pair count and the pool size, and deals twice that many cards from a cleared board |
| `MatchEngine.DealProperties` | src/game.js:24-32 | `initGame(n)` picks min(n/2, 16) distinct master symbols. It deals twice that many face-down cards, each active symbol on exactly two of them, and an even n up to 32 gives n cards. The board satisfies the invariant. |
| `MatchEngine.DealFromProperties` | src/game.js:29-32 | the same facts for dealing from any pool of distinct symbols |
| `MatchEngine.DistinctOccursOnce` | src/game.js:31 | an element of a duplicate-free list occurs in it once |
| `MatchEngine.MatchedCountZero` | src/game.js:35-47 | a board with no matched card has a matched count of zero |
| `MatchEngine.MatchedCountUpdate` | src/game.js:68-69 | replacing one card changes the matched count by that card's change alone |
| `MatchEngine.MatchedCountBound` | src/game.js:72 | at most every card is matched, and a full count means every card is matched |
| `MatchEngine.AtMostTwoFaceUp` | src/game.js:56-86 | on a consistent board at most two cards are shown and unmatched |
| `MatchEngine.MatchesWithinPairs` | src/game.js:70-72 | pairs found never exceed the active symbols; when they reach them, every card is matched |
| `MatchEngine.SymbolsKept` | src/game.js:61 | changing only the flags of cards keeps their symbols |
| `MatchEngine.Click` | src/game.js:56-86 | a click keeps the number of cards, the active symbols and the misses. It finds at most one new pair. A result screen comes only with the last pair, rated by the misses so far. |
| `MatchEngine.FlipBack` | src/game.js:79-85 | the deferred callback counts one miss, clears the first card and unlocks the board; the cards, the active symbols and the pairs found keep their number |
| `MatchEngine.ClickPreserves` | src/game.js:56-86 | every click keeps the board invariant |
| `MatchEngine.FirstClickPreserves` | src/game.js:61-65 | the first card of a turn keeps the invariant |
| `MatchEngine.MatchingClickPreserves` | src/game.js:67-76 | a matching second card keeps the invariant |
| `MatchEngine.MismatchingClickPreserves` | src/game.js:78-79 | a mismatching second card, which locks the board, keeps the invariant |
| `MatchEngine.FlipBackPreserves` | src/game.js:79-85 | the deferred flip-back keeps the invariant |
| `MatchEngine.ClickCases` | src/game.js:56-86 | a click does nothing while locked or on a shown card. A first click records the card. A matching second click marks both cards, counts one pair and changes no other card. A mismatching one locks the board with the card pending. No click changes the misses or the symbol layout. |
| `MatchEngine.ResultShownOnlyWhenComplete` | src/game.js:70-74 | the result screen appears exactly on the click that matches the last pair, rated by the misses so far, with every card matched |
| `MatchEngine.FinishedBoardIgnoresClicks` | src/game.js:57-59 | once every pair is found, no click changes anything |
| `MatchEngine.FlipBackCases` | src/game.js:79-85 | the flip-back hides exactly the two mismatched cards, counts one miss, clears the first card and unlocks the board |
| `MatchEngine.CopyOf` | src/game.js:30 | a spread copy is a fresh array with the same contents |
| `MatchEngine.ShuffledCopy` | src/game.js:30-32 | `shuffle([...s])` is a fresh array holding `Shuffled(s)` |
| `MatchEngine.SetFlipped` | src/game.js:61 | adding or removing `flipped` on one card changes that flag of that card and nothing else |
| `MatchEngine.SetMatched` | src/game.js:68-69 | adding `matched` to one card changes that flag of that card and nothing else |
| `MatchEngine.Game.constructor` | src/game.js:2-8 | the module-level initial values: no cards, nothing found, board unlocked |
| `MatchEngine.Game.InitGame` | src/game.js:24-32 | the new state is the dealt board, and the invariant holds |
| `MatchEngine.Game.OnCardClick` | src/game.js:56-86 | the new state and the result screen are those of `Click`, and the invariant is kept |
| `MatchEngine.Game.SecondCard` | src/game.js:61-78 | with a first card showing, a click on another hidden card leaves the state and result screen that `Click` gives |
| `MatchEngine.Game.ResolveMismatch` | src/game.js:79-85 | the new state is `FlipBack` of the old one, and the invariant is kept |
| `Achievements.IdInjective` | src/playerState.js:6-77 | no two achievements share an id |
| `Achievements.Id` | src/playerState.js:6-77 | the `id` of each of the ten `ACHIEVEMENTS` entries; `IdInjective` proves no two share one |
| `Achievements.XPReward` | src/playerState.js:6-77 | the `xpReward` of each of the ten entries |
| `Achievements.AllAchievementsListsEach` | src/playerState.js:6-77 | `Object.values(ACHIEVEMENTS)` lists every achievement |
| `Achievements.FindIn` | src/playerState.js:340 | `find` returns an entry of the list with that id, or none exists |
| `Achievements.Find` | src/playerState.js:340 | an id is found exactly when some achievement has it, and the result carries that id |
| `Achievements.FindId` | src/playerState.js:340 | looking up an achievement's own id finds that achievement |
| `Progression.LockedTable` | src/playerState.js:130-136 | the `forEach` makes one locked entry per visited id and no other |
| `Progression.IsUnlocked` | src/playerState.js:356-358 | an id reads as unlocked exactly when its entry exists and is marked unlocked |
| `Progression.Fresh` | src/playerState.js:106-136 | a new state has every achievement locked, no high scores, no fastest game, 0 XP, level 1, no games and no streak |
| `Progression.Unlocking` | src/playerState.js:342-346 | the table after each listed achievement's entry is stamped unlocked at the given time, in order; `UnlockingLookup` proves what it touches |
| `Progression.UnlockingLookup` | src/playerState.js:342-346 | unlocking a list of achievements stamps exactly their ids and leaves every other entry as it was |
| `Progression.ListedById` | src/playerState.js:340 | an achievement is in a list exactly when its id is among the list's ids |
| `Progression.AfterUnlock` | src/playerState.js:339-351 | `unlockAchievement` changes nothing but the achievement table |
| `Progression.UnlockOnce` | src/playerState.js:339-351 | `unlockAchievement` succeeds exactly for a known, still-locked id, returns that achievement and unlocks it. Otherwise it changes nothing, and a second call returns null. |
| `Progression.CalculateLevel` | src/playerState.js:167-170 | the level is at least 1, and the XP lies in that level's band: below its threshold, and at or above the previous one |
| `Progression.XPForNextLevel` | src/playerState.js:175-178 | from level 1 on, the next level starts at 50 per level plus 50 XP, so never below 100 |
| `Progression.LevelReached` | src/playerState.js:167-178 | the level exceeds L exactly when the XP reaches `getXPForNextLevel` of L |
| `Progression.LevelMonotone` | src/playerState.js:167-170 | more XP never means a lower level |
| `Progression.LevelUnique` | src/playerState.js:167-170 | any level whose band holds the XP is the computed level |
| `Progression.WithXP` | src/playerState.js:155-162 | `addXP` adds the amount, sets the level derived from the new total, changes nothing else, and returns the new total and level |
| `Progression.AddXPLevelsUp` | src/playerState.js:155-162 | `addXP` adds the amount and keeps the level derived from the XP. It reports a level-up exactly when the total reaches the old next-level threshold, never lowers the level for a non-negative amount, and leaves the achievements alone. |
| `Progression.BaseXP` | src/playerState.js:257-270 | the XP before the mode multiplier is at least 10 plus a tenth of the score, and 20 more for a game without mistakes |
| `Progression.CalculateGameXP` | src/playerState.js:254-280 | the game XP is the base XP times 1.5 rounded down in blitz mode, times 1.2 rounded down in timed mode, and the base XP otherwise |
| `Progression.PerfectGameEarnsMore` | src/playerState.js:263-265 | a game without mistakes earns more than the same game with some |
| `Progression.ModeBonus` | src/playerState.js:272-277 | blitz pays more than classic from a base of 2 XP; from 5, blitz beats timed and timed beats classic |
| `Progression.GameXPAtLeastBase` | src/playerState.js:257-260 | a game with a non-negative score earns at least 10 XP |
| `Progression.Tally` | src/playerState.js:195-217 | the statistics block adds one game, one to the streak and the matches. The longest streak and highest combo never fall below the new streak, the game's combo or their old values. XP, level, theme switches, achievements and high scores are untouched. |
| `Progression.BestOf` | src/playerState.js:385-393 | the table gains the cell for the mode and difficulty, if it lacked it, and that cell's score is at least the submitted one |
| `Progression.BestOfKeepsBest` | src/playerState.js:385-393 | the cell then holds a record at least as good as both the old one and the new one. It is one of those two, a tie keeps the old record, and other cells are untouched. |
| `Progression.HighScoreIsBestSubmitted` | src/playerState.js:385-393 | after any run of submissions, the cell holds a record with the highest score seen, taken from the run or kept from before; other cells are untouched |
| `Progression.ScoreOf` | src/playerState.js:220-227 | the record `recordGame` submits: score, time of the call, mistakes, elapsed and remaining time, and best combo |
| `Progression.Scored` | src/playerState.js:195-227 | the ledger `checkAchievements` reads inside `recordGame`: statistics tallied and the high score updated |
| `Progression.Earned` | src/playerState.js:289-330 | the nine conditions of `checkAchievements`, plus the theme explorer condition of `recordThemeSwitch` (two switches) |
| `Progression.CheckOrderDistinct` | src/playerState.js:288-331 | the nine checks test nine different achievements, all but theme explorer |
| `Progression.Pick` | src/playerState.js:289-331 | the achievements listed by the checks for a given order, each tested against the same ledger; `PickMembers` and `PickDistinct` prove what it holds |
| `Progression.NewlyEarned` | src/playerState.js:285-334 | the list `checkAchievements` returns; `NewlyEarnedMembers` proves which achievements it holds |
| `Progression.CheckStep` | src/playerState.js:289-331 | one `if` block: unlock and append the achievement when it is earned and still locked, else change nothing |
| `Progression.Checks` | src/playerState.js:285-334 | the blocks run one after another, each reading the table the earlier ones left; `ChecksInSequence` relates it to `NewlyEarned` |
| `Progression.PickMembers` | src/playerState.js:289-331 | the checks list an achievement exactly when it is checked, earned and still locked |
| `Progression.PickDistinct` | src/playerState.js:289-331 | the checks list each achievement at most once |
| `Progression.NewlyEarnedMembers` | src/playerState.js:285-334 | `checkAchievements` lists an achievement exactly when it is not theme explorer, its condition holds and it is still locked, each at most once |
| `Progression.ChecksInSequence` | src/playerState.js:285-334 | running the nine blocks one after another, each seeing the unlocks of the earlier ones, lists and unlocks the same achievements as testing each against the starting state |
| `Progression.CheckAfterPick` | src/playerState.js:289-331 | a block sees its own achievement as the starting state does |
| `Progression.EarnedIgnoresTable` | src/playerState.js:289-331 | no achievement condition reads the achievement table |
| `Progression.PickLeavesOthers` | src/playerState.js:289-331 | earlier blocks leave a later block's entry unchanged |
| `Progression.PickExtend` | src/playerState.js:289-331 | one more block appends at most its own achievement |
| `Progression.UnlockingExtend` | src/playerState.js:342-346 | unlocking one more achievement stamps its entry |
| `Progression.ChecksExtend` | src/playerState.js:289-331 | the blocks for a longer list run the last block on what the earlier ones left |
| `Progression.RewardsExtend` | src/playerState.js:236-238 | the XP added by the `forEach` grows by each achievement's reward |
| `Progression.AfterGame` | src/playerState.js:183-249 | `recordGame` adds one game, one to the streak and the matches, keeps the theme switches, adds the XP it reports gained, and returns the new total and level |
| `Progression.RecordGameAccounting` | src/playerState.js:183-249 | `recordGame` adds one game and one to the streak, adds the matches and score, and counts perfect games. The longest streak, fastest time and highest combo become the extremes seen; the fastest time changes only to a truthy elapsed time below the stored one, or when none is stored. The high-score cell takes the better record. The XP gained is the game XP plus the new achievements' rewards, and the level follows the XP. |
| `Progression.RecordGameUnlocks` | src/playerState.js:229-231 | `recordGame` returns exactly the achievements it unlocked, each once and each earned, stamped with the call's time; every other entry is left alone |
| `Progression.RecordGameKeepsTable` | src/playerState.js:183-249 | every achievement keeps an entry |
| `Progression.SameGameTwice` | src/playerState.js:183-249 | recording the same game again can newly unlock only streak master, once the streak reaches five, or hundred matches, once the total reaches 100 |
| `Progression.SameSmallGameTwice` | src/playerState.js:183-249 | when a second identical game reaches neither a streak of five nor a hundred matches, it unlocks nothing |
| `Progression.SameGameTwiceFromFresh` | src/playerState.js:183-249 | from a new profile, the same game with fewer than 50 matches recorded twice unlocks nothing the second time |
| `Progression.AfterThemeSwitch` | src/playerState.js:363-372 | a theme switch counts one switch, changes nothing else outside XP, level and achievements, and adds either no XP or the 25 XP of theme explorer |
| `Progression.ThemeExplorerRewardedOnce` | src/playerState.js:363-372 | a theme switch counts one switch, unlocks theme explorer from the second switch on, and pays 25 XP only on the switch that unlocks it |
| `Progression.ThreeThemeSwitchesFromFresh` | src/playerState.js:363-372 | two switches from a new profile unlock theme explorer with 25 XP; a third adds nothing |
| `Progression.RecordGameKeepsStreakAgreement` | src/playerState.js:324-326 | if streak master is unlocked exactly when the streak is at least five, a recorded game keeps that so |
| `Progression.ApplyPreserves` | src/playerState.js:106-452 | each of `addXP`, `recordGame`, `unlockAchievement`, `checkAchievements`, `recordThemeSwitch`, `resetStreak`, `updateHighScore` and `reset` keeps the achievement table complete and the level derived from the XP |
| `Progression.RunPreserves` | src/playerState.js:106-452 | any sequence of operations does the same |
| `Progression.ApplyKeepsUnlocked` | src/playerState.js:341-346 | no operation but reset relocks or restamps an unlocked achievement |
| `Progression.UnlockedStaysUnlocked` | src/playerState.js:339-351 | short of a reset, an unlocked achievement stays unlocked with its original time stamp over any sequence of operations |
| `Progression.ConsecutiveGames` | src/playerState.js:195-197 | over consecutive games the streak counts them, and streak master follows the streak |
| `Progression.StreakMasterAtFiveGames` | src/playerState.js:323-326 | from a new profile, streak master is unlocked exactly once five games have been played in a row |
| `Progression.PlayerState.constructor` | src/playerState.js:80-101 | with no saved state, the player starts from the new state |
| `Progression.PlayerState.InitializeState` | src/playerState.js:106-139 | the state becomes the new state built by the `forEach` over the achievements |
| `Progression.PlayerState.AddXP` | src/playerState.js:155-162 | the state and result are those of `WithXP`, about which `AddXPLevelsUp` holds |
| `Progression.PlayerState.GetXPForNextLevel` | src/playerState.js:175-178 | the threshold lies above the current XP, it is the first total of the next level, and every total in between keeps the current level |
| `Progression.PlayerState.IsAchievementUnlocked` | src/playerState.js:356-358 | an id without an entry reads as locked |
| `Progression.PlayerState.UnlockAchievement` | src/playerState.js:339-351 | the state and result are those of `AfterUnlock`, about which `UnlockOnce` holds |
| `Progression.PlayerState.CheckAchievements` | src/playerState.js:285-334 | the list returned is `NewlyEarned` of the old state, and exactly those achievements are unlocked |
| `Progression.PlayerState.CheckBlock` | src/playerState.js:289-331 | one `if` block changes the state and the list as `CheckStep` says |
| `Progression.PlayerState.UpdateHighScore` | src/playerState.js:385-393 | only the high-score table changes, as `BestOf` says |
| `Progression.PlayerState.GetHighScore` | src/playerState.js:398-400 | a cell is returned exactly when it holds a record, and an empty cell reads as null |
| `Progression.PlayerState.RecordStats` | src/playerState.js:195-218 | the statistics block of `recordGame` changes the state as `Tally` says |
| `Progression.PlayerState.RecordGame` | src/playerState.js:183-249 | the state and result are those of `AfterGame`, about which `RecordGameAccounting` and `RecordGameUnlocks` hold |
| `Progression.PlayerState.RecordThemeSwitch` | src/playerState.js:363-372 | the state becomes `AfterThemeSwitch` of the old one |
| `Progression.PlayerState.ResetStreak` | src/playerState.js:377-380 | only the current streak changes, to 0 |
| `Progression.PlayerState.Reset` | src/playerState.js:450-452 | the state becomes the new state |

## Left out

- The DOM is not modelled: rendering of cards, the modals, the stars and their staggered stamp animation, `setGameBoardElement`, `startGame`, `restartGame` and `confettiEffect`. `showResult` is modelled only by the star count and the title it chooses.
- `setMismatchDelay` and the delay itself are not modelled. Time is not modelled; the deferred flip-back is an explicit event.
- `_internals` is not modelled. The fields of `Game` are that state.
- `Game.InitGame` requires that no flip-back is pending. In the source, a callback still pending after a new `initGame` has two outcomes. If `firstCard` is still null when it runs, it throws. If a card of the new board was clicked first, `firstCard` is that card (src/game.js:62-64), and the callback (src/game.js:79-85) turns it face down, clears `firstCard` and `lockBoard`, and counts a miss against the new game.
- `initGame` with a negative or fractional card count is not modelled. The count is a natural number, and `slice` truncates `cardCount / 2` the way Dafny's division does.
- Persistence is not modelled: `localStorage`, `save`, and `load` of a saved state. The constructor models only the path with nothing saved.
- States loaded from storage, which may be partial, are not modelled. Every method requires the invariant that `initializeState` establishes.
- `Progression.CalculateGameXP` does not model the floating-point products `baseXP * 1.5` and `baseXP * 1.2`. It uses the exact rational values, rounded down. For base XP below 2^51 the double results round down to the same integers; from 2^52 + 1 on, double rounding can make them one larger.
- `undefined` and `NaN` for `score`, `mistakes` and `maxCombo` are not modelled. They are integers, so `score || 0` is `score`. The optional `timeElapsed`, `timeRemaining` and `matches` are `Option`s that follow JavaScript truthiness.
- The high-score table has no nine initial `null` cells; an absent key is a `null` cell. `getHighScore` therefore returns the same answers.
- `getAllHighScores`, `getAllAchievements`, `getUnlockedAchievements` and `getStats` are read-only views and are not modelled.
- Achievement names, descriptions and icons are presentation data and are not modelled.
- One reading of the clock is used per call. `recordGame` calls `new Date()` once for the score record and once per unlocked achievement. The model stamps them all with the same `now`.
- `Progression.PlayerState.CheckAchievements` runs the nine `if` blocks of `checkAchievements` as one loop over `CheckOrder`. The blocks share one shape, and `Earned` holds each block's condition. `ChecksInSequence` proves the sequential run equals testing each achievement against the starting state.
- `Progression.PlayerState.RecordStats` is the statistics block at the head of `recordGame`, given its own name.
- The progress counter of an achievement entry is modelled only as 0 (locked) or 100 (unlocked), which are the only values the source writes.

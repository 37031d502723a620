/**
 * The card-pairing engine of src/game.js.
 *
 * The module-level variables of the source (`misses`, `matchesFound`,
 * `cards`, `activeSymbols`, `firstCard`, `lockBoard`) are the fields of the
 * class `Game`.  A card on the board, which the source keeps as a DOM element
 * with the CSS classes `flipped` and `matched`, is a `Card` record; a card is
 * named by its position.  The flip-back that `onCardClick` schedules with
 * `setTimeout` after a mismatch is the explicit event `ResolveMismatch`; the
 * card that the callback closes over is the field `pendingCard`.
 *
 * `Board` is a snapshot of those fields as a value; `Click` and `FlipBack`
 * say what one click and one flip-back do to it, and the lemmas below prove
 * the board invariant `Consistent` is kept.
 */
module MatchEngine {
  import opened Prelude
  import opened Shuffling

  type Symbol = string

  /** The sixteen emoji of `masterSymbols`, in source order. */
  const MasterSymbols: seq<Symbol> := [
    "\U{1F436}", "\U{1F431}", "\U{1F984}", "\U{1F43C}", "\U{1F435}", "\U{1F424}", "\U{1F438}", "\U{1F419}",
    "\U{1F370}", "\U{1F9F8}", "\U{1F353}", "\U{1F308}", "\U{1F42F}", "\U{1F43B}", "\U{1F98A}", "\U{1F41D}"
  ]

  lemma MasterSymbolsDistinct()
    ensures |MasterSymbols| == 16 && Distinct(MasterSymbols)
  {
  }

  datatype Card = Card(symbol: Symbol, flipped: bool, matched: bool)

  /** What `showResult` puts on screen: the star count and the title. */
  datatype ResultScreen = ResultScreen(stars: int, title: string)

  datatype Board = Board(
    cards: seq<Card>,
    activeSymbols: seq<Symbol>,
    firstCard: Option<nat>,
    pendingCard: Option<nat>,
    lockBoard: bool,
    matchesFound: nat,
    misses: nat)

  /** The state at module load, before the first `initGame`. */
  function Unstarted(): (b: Board)
    ensures Consistent(b) && b.cards == [] && b.matchesFound == 0 && b.misses == 0
  {
    Board([], [], None, None, false, 0, 0)
  }

  function Symbols(cs: seq<Card>): (r: seq<Symbol>)
    ensures |r| == |cs| && forall i :: 0 <= i < |cs| ==> r[i] == cs[i].symbol
  {
    seq(|cs|, i requires 0 <= i < |cs| => cs[i].symbol)
  }

  function FaceDown(symbols: seq<Symbol>): (cs: seq<Card>)
    ensures Symbols(cs) == symbols
    ensures forall i :: 0 <= i < |cs| ==> !cs[i].flipped && !cs[i].matched
  {
    seq(|symbols|, i requires 0 <= i < |symbols| => Card(symbols[i], false, false))
  }

  /** Shown and not yet matched: the state of a card awaiting its partner. */
  predicate FaceUp(c: Card)
  {
    c.flipped && !c.matched
  }

  function FaceUpCards(cs: seq<Card>): set<nat>
  {
    set i: nat | i < |cs| && FaceUp(cs[i])
  }

  function MatchedCount(cs: seq<Card>): nat
  {
    if cs == [] then 0
    else MatchedCount(cs[..|cs| - 1]) + (if cs[|cs| - 1].matched then 1 else 0)
  }

  // ---------------------------------------------------------------------------
  // Star rating and result title (getStarRating, showResult)
  // ---------------------------------------------------------------------------

  function StarRating(missCount: int): (stars: int)
    ensures 1 <= stars <= 3
    ensures stars == 3 <==> missCount <= 6
    ensures stars == 2 <==> 7 <= missCount <= 10
    ensures stars == 1 <==> 10 < missCount
  {
    if missCount <= 6 then 3 else if missCount <= 10 then 2 else 1
  }

  function ResultTitle(stars: int): (title: string)
    ensures title == "AMAZING!" <==> stars == 3
    ensures title == "Great!" <==> stars == 2
    ensures title == "Nice!" <==> stars != 3 && stars != 2
  {
    if stars == 3 then "AMAZING!" else if stars == 2 then "Great!" else "Nice!"
  }

  function ShowResult(missCount: int): (r: ResultScreen)
    ensures 1 <= r.stars <= 3
    ensures r.title == "AMAZING!" <==> missCount <= 6
    ensures r.title == "Great!" <==> 7 <= missCount <= 10
    ensures r.title == "Nice!" <==> 10 < missCount
  {
    var stars := StarRating(missCount);
    ResultScreen(stars, ResultTitle(stars))
  }

  /** More misses never earn more stars. */
  lemma StarRatingNonIncreasing(m: int, m': int)
    requires m <= m'
    ensures StarRating(m') <= StarRating(m)
  {
  }

  /** A game without misses ends on three stars and "AMAZING!". */
  lemma FlawlessGameIsAmazing()
    ensures ShowResult(0) == ResultScreen(3, "AMAZING!")
  {
  }

  // ---------------------------------------------------------------------------
  // Dealing (initGame)
  // ---------------------------------------------------------------------------

  function Min(a: nat, b: nat): nat
  {
    if a <= b then a else b
  }

  /** `s.slice(0, n)` for n >= 0: the first n elements, or all of s when it is shorter. */
  function Prefix<T>(s: seq<T>, n: nat): (r: seq<T>)
    ensures |r| == Min(n, |s|) && r == s[..|r|]
  {
    if n <= |s| then s[..n] else s
  }

  /** The number of pairs `initGame(cardCount)` deals: `cardCount / 2`, at most the sixteen master symbols. */
  function PairCount(cardCount: nat): (n: nat)
    ensures n <= cardCount / 2 && n <= |MasterSymbols|
    ensures n == cardCount / 2 || n == |MasterSymbols|
  {
    Min(cardCount / 2, |MasterSymbols|)
  }

  /** The swap choices of the two shuffles fit the arrays they shuffle. */
  predicate ValidDeal(cardCount: nat, masterPicks: seq<nat>, cardPicks: seq<nat>)
  {
    ValidPicks(masterPicks, |MasterSymbols|) && ValidPicks(cardPicks, 2 * PairCount(cardCount))
  }

  /** The board `initGame(cardCount)` builds when `shuffle` makes the given picks. */
  function Deal(cardCount: nat, masterPicks: seq<nat>, cardPicks: seq<nat>): (b: Board)
    requires ValidDeal(cardCount, masterPicks, cardPicks)
    ensures |b.activeSymbols| == PairCount(cardCount) && |b.cards| == 2 * PairCount(cardCount)
    ensures b.firstCard == None && b.pendingCard == None && !b.lockBoard
    ensures b.matchesFound == 0 && b.misses == 0
  {
    DealFrom(MasterSymbols, cardCount / 2, masterPicks, cardPicks)
  }

  /** Dealing from any symbol pool: take the first pairs of the shuffled pool, double them, shuffle. */
  function DealFrom(pool: seq<Symbol>, pairCount: nat, poolPicks: seq<nat>, cardPicks: seq<nat>): (b: Board)
    requires ValidPicks(poolPicks, |pool|) && ValidPicks(cardPicks, 2 * Min(pairCount, |pool|))
    ensures |b.activeSymbols| == Min(pairCount, |pool|) && |b.cards| == 2 * |b.activeSymbols|
    ensures b.firstCard == None && b.pendingCard == None && !b.lockBoard
    ensures b.matchesFound == 0 && b.misses == 0
  {
    var active := Prefix(Shuffled(pool, poolPicks), pairCount);
    Board(FaceDown(Shuffled(active + active, cardPicks)), active, None, None, false, 0, 0)
  }

  /** The symbol layout fixed at deal time: every active symbol on exactly two cards. */
  ghost predicate Dealt(b: Board)
  {
    && |b.cards| == 2 * |b.activeSymbols|
    && Distinct(b.activeSymbols)
    && multiset(Symbols(b.cards)) == multiset(b.activeSymbols + b.activeSymbols)
  }

  /** The board invariant kept across clicks and flip-backs. */
  ghost predicate Consistent(b: Board)
  {
    && Dealt(b)
    && (forall i :: 0 <= i < |b.cards| && b.cards[i].matched ==> b.cards[i].flipped)
    && (b.firstCard.Some? ==> b.firstCard.value < |b.cards| && FaceUp(b.cards[b.firstCard.value]))
    && (b.lockBoard <==> b.pendingCard.Some?)
    && (b.pendingCard.Some? ==>
          && b.firstCard.Some?
          && b.pendingCard.value < |b.cards|
          && b.pendingCard.value != b.firstCard.value
          && FaceUp(b.cards[b.pendingCard.value])
          && b.cards[b.pendingCard.value].symbol != b.cards[b.firstCard.value].symbol)
    && (forall i :: 0 <= i < |b.cards| && FaceUp(b.cards[i]) ==> Some(i) == b.firstCard || Some(i) == b.pendingCard)
    && 2 * b.matchesFound == MatchedCount(b.cards)
  }

  lemma {:induction false} DistinctOccursOnce<T>(s: seq<T>, x: T)
    requires Distinct(s)
    ensures multiset(s)[x] == if x in s then 1 else 0
  {
    if s != [] {
      var t := s[..|s| - 1];
      assert s == t + [s[|s| - 1]];
      assert Distinct(t);
      DistinctOccursOnce(t, x);
    }
  }

  /**
   * `initGame(n)`: min(n / 2, 16) distinct symbols of the master list, twice
   * as many face-down cards on which each of them occurs exactly twice, and a
   * board satisfying the invariant.  An even n up to 32 gives n cards.
   */
  lemma DealProperties(cardCount: nat, masterPicks: seq<nat>, cardPicks: seq<nat>)
    requires ValidDeal(cardCount, masterPicks, cardPicks)
    ensures var b := Deal(cardCount, masterPicks, cardPicks);
      && |b.activeSymbols| == PairCount(cardCount)
      && Distinct(b.activeSymbols)
      && (forall x :: x in b.activeSymbols ==> x in MasterSymbols)
      && |b.cards| == 2 * PairCount(cardCount)
      && (cardCount % 2 == 0 && cardCount <= 2 * |MasterSymbols| ==> |b.cards| == cardCount)
      && (forall x :: multiset(Symbols(b.cards))[x] == if x in b.activeSymbols then 2 else 0)
      && (forall i :: 0 <= i < |b.cards| ==> !b.cards[i].flipped && !b.cards[i].matched)
      && Consistent(b)
  {
    MasterSymbolsDistinct();
    DealFromProperties(MasterSymbols, cardCount / 2, masterPicks, cardPicks);
  }

  lemma DealFromProperties(pool: seq<Symbol>, pairCount: nat, poolPicks: seq<nat>, cardPicks: seq<nat>)
    requires Distinct(pool)
    requires ValidPicks(poolPicks, |pool|) && ValidPicks(cardPicks, 2 * Min(pairCount, |pool|))
    ensures var b := DealFrom(pool, pairCount, poolPicks, cardPicks);
      && |b.activeSymbols| == Min(pairCount, |pool|)
      && Distinct(b.activeSymbols)
      && (forall x :: x in b.activeSymbols ==> x in pool)
      && |b.cards| == 2 * Min(pairCount, |pool|)
      && (forall x :: multiset(Symbols(b.cards))[x] == if x in b.activeSymbols then 2 else 0)
      && (forall i :: 0 <= i < |b.cards| ==> !b.cards[i].flipped && !b.cards[i].matched)
      && Consistent(b)
  {
    var b := DealFrom(pool, pairCount, poolPicks, cardPicks);
    var shuffled := Shuffled(pool, poolPicks);
    ShuffledPermutes(pool, poolPicks);
    var active := Prefix(shuffled, pairCount);
    assert Distinct(active);
    forall x | x in active ensures x in pool {
      assert x in multiset(shuffled);
    }
    var deck := Shuffled(active + active, cardPicks);
    ShuffledPermutes(active + active, cardPicks);
    assert Symbols(b.cards) == deck;
    forall x ensures multiset(deck)[x] == if x in active then 2 else 0 {
      DistinctOccursOnce(active, x);
    }
    MatchedCountZero(b.cards);
    assert Dealt(b);
  }

  lemma {:induction false} MatchedCountZero(cs: seq<Card>)
    requires forall i :: 0 <= i < |cs| ==> !cs[i].matched
    ensures MatchedCount(cs) == 0
  {
    if cs != [] {
      MatchedCountZero(cs[..|cs| - 1]);
    }
  }

  // ---------------------------------------------------------------------------
  // Counting lemmas
  // ---------------------------------------------------------------------------

  /** Replacing one card changes the matched count by the change in that card alone. */
  lemma {:induction false} MatchedCountUpdate(cs: seq<Card>, i: nat, c: Card)
    requires i < |cs|
    ensures MatchedCount(cs[i := c]) + (if cs[i].matched then 1 else 0)
         == MatchedCount(cs) + (if c.matched then 1 else 0)
  {
    var n := |cs| - 1;
    assert cs[i := c][..n] == if i == n then cs[..n] else cs[..n][i := c];
    if i < n {
      MatchedCountUpdate(cs[..n], i, c);
    }
  }

  /** The matched count never exceeds the board, and reaches it only when every card is matched. */
  lemma {:induction false} MatchedCountBound(cs: seq<Card>)
    ensures MatchedCount(cs) <= |cs|
    ensures MatchedCount(cs) == |cs| ==> forall i :: 0 <= i < |cs| ==> cs[i].matched
  {
    if cs != [] {
      var n := |cs| - 1;
      MatchedCountBound(cs[..n]);
      if MatchedCount(cs) == |cs| {
        forall i | 0 <= i < |cs| ensures cs[i].matched {
          if i < n { assert cs[..n][i] == cs[i]; }
        }
      }
    }
  }

  /** At most two cards are shown and unmatched at any time. */
  lemma AtMostTwoFaceUp(b: Board)
    requires Consistent(b)
    ensures |FaceUpCards(b.cards)| <= 2
  {
    var known: set<nat> :=
      (if b.firstCard.Some? then {b.firstCard.value} else {})
      + (if b.pendingCard.Some? then {b.pendingCard.value} else {});
    var up := FaceUpCards(b.cards);
    assert up <= known;
    assert known == up + (known - up);
  }

  /** The number of pairs found never exceeds the number of active symbols. */
  lemma MatchesWithinPairs(b: Board)
    requires Consistent(b)
    ensures b.matchesFound <= |b.activeSymbols|
    ensures b.matchesFound == |b.activeSymbols| ==> forall i :: 0 <= i < |b.cards| ==> b.cards[i].matched
  {
    MatchedCountBound(b.cards);
  }

  // ---------------------------------------------------------------------------
  // One click and one flip-back (onCardClick, its setTimeout callback)
  // ---------------------------------------------------------------------------

  /**
   * `onCardClick` on card k: the new board, and the result screen when
   * `showResult` is called.
   */
  function Click(b: Board, k: nat): (r: (Board, Option<ResultScreen>))
    requires k < |b.cards|
    requires b.firstCard.Some? ==> b.firstCard.value < |b.cards|
    ensures |r.0.cards| == |b.cards| && r.0.activeSymbols == b.activeSymbols && r.0.misses == b.misses
    ensures r.0.matchesFound == b.matchesFound || r.0.matchesFound == b.matchesFound + 1
    ensures r.1.Some? ==> r.1.value == ShowResult(b.misses) && r.0.matchesFound == |b.activeSymbols|
  {
    if b.lockBoard || b.cards[k].flipped then (b, None)
    else
      var cs := b.cards[k := b.cards[k].(flipped := true)];
      match b.firstCard
      case None => (b.(cards := cs, firstCard := Some(k)), None)
      case Some(f) =>
        if cs[f].symbol == cs[k].symbol then
          var matched := cs[f := cs[f].(matched := true)][k := cs[k].(matched := true)];
          var found := b.matchesFound + 1;
          (b.(cards := matched, matchesFound := found, firstCard := None),
           if found == |b.activeSymbols| then Some(ShowResult(b.misses)) else None)
        else
          (b.(cards := cs, lockBoard := true, pendingCard := Some(k)), None)
  }

  /** The deferred flip-back after a mismatch. */
  function FlipBack(b: Board): (r: Board)
    requires b.pendingCard.Some? && b.firstCard.Some?
    requires b.pendingCard.value < |b.cards| && b.firstCard.value < |b.cards|
    ensures |r.cards| == |b.cards| && r.activeSymbols == b.activeSymbols
    ensures r.misses == b.misses + 1 && r.matchesFound == b.matchesFound
    ensures r.firstCard == None && r.pendingCard == None && !r.lockBoard
  {
    var p, f := b.pendingCard.value, b.firstCard.value;
    var cs := b.cards[p := b.cards[p].(flipped := false)];
    b.(cards := cs[f := cs[f].(flipped := false)], firstCard := None, lockBoard := false,
       pendingCard := None, misses := b.misses + 1)
  }

  lemma SymbolsKept(cs: seq<Card>, cs': seq<Card>)
    requires |cs| == |cs'| && forall i :: 0 <= i < |cs| ==> cs[i].symbol == cs'[i].symbol
    ensures Symbols(cs) == Symbols(cs')
  {
  }

  /** Every click keeps the board invariant. */
  lemma ClickPreserves(b: Board, k: nat)
    requires Consistent(b) && k < |b.cards|
    ensures Consistent(Click(b, k).0)
  {
    if !(b.lockBoard || b.cards[k].flipped) {
      match b.firstCard
      case None => FirstClickPreserves(b, k);
      case Some(f) =>
        if b.cards[f].symbol == b.cards[k].symbol {
          MatchingClickPreserves(b, k);
        } else {
          MismatchingClickPreserves(b, k);
        }
    }
  }

  lemma FirstClickPreserves(b: Board, k: nat)
    requires Consistent(b) && k < |b.cards|
    requires !b.lockBoard && !b.cards[k].flipped && b.firstCard.None?
    ensures Consistent(Click(b, k).0)
  {
    var cs := b.cards[k := b.cards[k].(flipped := true)];
    MatchedCountUpdate(b.cards, k, cs[k]);
    SymbolsKept(b.cards, cs);
  }

  lemma MatchingClickPreserves(b: Board, k: nat)
    requires Consistent(b) && k < |b.cards|
    requires !b.lockBoard && !b.cards[k].flipped && b.firstCard.Some?
    requires b.cards[b.firstCard.value].symbol == b.cards[k].symbol
    ensures Consistent(Click(b, k).0)
  {
    var f := b.firstCard.value;
    var cs := b.cards[k := b.cards[k].(flipped := true)];
    var cs1 := cs[f := cs[f].(matched := true)];
    var cs2 := cs1[k := cs1[k].(matched := true)];
    MatchedCountUpdate(b.cards, k, cs[k]);
    MatchedCountUpdate(cs, f, cs1[f]);
    MatchedCountUpdate(cs1, k, cs2[k]);
    SymbolsKept(b.cards, cs2);
    forall i | 0 <= i < |cs2| ensures !FaceUp(cs2[i]) && (cs2[i].matched ==> cs2[i].flipped) {
      if i != f && i != k {
        assert cs2[i] == b.cards[i];
      }
    }
    assert Click(b, k).0 == b.(cards := cs2, matchesFound := b.matchesFound + 1, firstCard := None);
  }

  lemma MismatchingClickPreserves(b: Board, k: nat)
    requires Consistent(b) && k < |b.cards|
    requires !b.lockBoard && !b.cards[k].flipped && b.firstCard.Some?
    requires b.cards[b.firstCard.value].symbol != b.cards[k].symbol
    ensures Consistent(Click(b, k).0)
  {
    var cs := b.cards[k := b.cards[k].(flipped := true)];
    MatchedCountUpdate(b.cards, k, cs[k]);
    SymbolsKept(b.cards, cs);
  }

  /** Every flip-back keeps the board invariant. */
  lemma FlipBackPreserves(b: Board)
    requires Consistent(b) && b.lockBoard
    ensures Consistent(FlipBack(b))
  {
    var p, f := b.pendingCard.value, b.firstCard.value;
    var cs := b.cards[p := b.cards[p].(flipped := false)];
    var cs2 := cs[f := cs[f].(flipped := false)];
    MatchedCountUpdate(b.cards, p, b.cards[p].(flipped := false));
    MatchedCountUpdate(cs, f, cs[f].(flipped := false));
    SymbolsKept(b.cards, cs2);
  }

  /**
   * What a click does, case by case: nothing while the board is locked or on
   * a card already shown; a first click records the card; a matching second
   * click marks both cards and counts one pair; a mismatching one locks the
   * board.  Misses never change on a click.
   */
  lemma ClickCases(b: Board, k: nat)
    requires Consistent(b) && k < |b.cards|
    ensures var (b', shown) := Click(b, k);
      && b'.misses == b.misses
      && Symbols(b'.cards) == Symbols(b.cards)
      && (b.lockBoard || b.cards[k].flipped ==> b' == b && shown == None)
      && (!b.lockBoard && !b.cards[k].flipped && b.firstCard == None ==>
            b' == b.(cards := b.cards[k := b.cards[k].(flipped := true)], firstCard := Some(k)) && shown == None)
      && (!b.lockBoard && !b.cards[k].flipped && b.firstCard.Some?
          && b.cards[b.firstCard.value].symbol == b.cards[k].symbol ==>
            && b'.matchesFound == b.matchesFound + 1
            && b'.firstCard == None && !b'.lockBoard
            && b'.cards[k].matched && b'.cards[b.firstCard.value].matched
            && (forall i :: 0 <= i < |b.cards| && i != k && i != b.firstCard.value ==> b'.cards[i] == b.cards[i])
            && (shown.Some? <==> b'.matchesFound == |b.activeSymbols|))
      && (!b.lockBoard && !b.cards[k].flipped && b.firstCard.Some?
          && b.cards[b.firstCard.value].symbol != b.cards[k].symbol ==>
            && b'.lockBoard && b'.pendingCard == Some(k) && b'.firstCard == b.firstCard
            && b'.matchesFound == b.matchesFound && shown == None)
  {
    SymbolsKept(b.cards, Click(b, k).0.cards);
  }

  /** The result screen appears exactly on the click that matches the last pair, showing the misses so far. */
  lemma ResultShownOnlyWhenComplete(b: Board, k: nat)
    requires Consistent(b) && k < |b.cards|
    ensures var (b', shown) := Click(b, k);
      && (shown.Some? <==> b.matchesFound < |b.activeSymbols| && b'.matchesFound == |b.activeSymbols|)
      && (shown.Some? ==> shown.value == ShowResult(b.misses)
                          && forall i :: 0 <= i < |b'.cards| ==> b'.cards[i].matched)
  {
    ClickPreserves(b, k);
    MatchesWithinPairs(b);
    MatchesWithinPairs(Click(b, k).0);
  }

  /** Once every pair is found, no click changes anything. */
  lemma FinishedBoardIgnoresClicks(b: Board, k: nat)
    requires Consistent(b) && k < |b.cards| && b.matchesFound == |b.activeSymbols|
    ensures Click(b, k) == (b, None)
  {
    MatchesWithinPairs(b);
  }

  /** The flip-back hides exactly the two mismatched cards and counts exactly one miss. */
  lemma FlipBackCases(b: Board)
    requires Consistent(b) && b.lockBoard
    ensures var b' := FlipBack(b);
      && b'.misses == b.misses + 1
      && b'.matchesFound == b.matchesFound
      && b'.firstCard == None && b'.pendingCard == None && !b'.lockBoard
      && !b'.cards[b.firstCard.value].flipped && !b'.cards[b.pendingCard.value].flipped
      && (forall i :: 0 <= i < |b.cards| && Some(i) != b.firstCard && Some(i) != b.pendingCard ==> b'.cards[i] == b.cards[i])
      && FaceUpCards(b'.cards) == {}
  {
  }

  /** A fresh array holding s: the spread copies `[...xs]` of the source. */
  method CopyOf<T>(s: seq<T>) returns (a: array<T>)
    ensures fresh(a) && a[..] == s
  {
    a := new T[|s|](i requires 0 <= i < |s| => s[i]);
  }

  /** `shuffle([...s])`: a fresh copy of `s`, shuffled in place. */
  method ShuffledCopy<T>(s: seq<T>, picks: seq<nat>) returns (a: array<T>)
    requires ValidPicks(picks, |s|)
    ensures fresh(a) && a[..] == Shuffled(s, picks)
  {
    a := CopyOf(s);
    Shuffle(a, picks);
  }

  /** `classList.add('flipped')` or `classList.remove('flipped')` on card i. */
  method SetFlipped(cs: array<Card>, i: nat, flipped: bool)
    requires i < cs.Length
    modifies cs
    ensures cs[..] == old(cs[..])[i := old(cs[i]).(flipped := flipped)]
  {
    cs[i] := cs[i].(flipped := flipped);
  }

  /** `classList.add('matched')` on card i. */
  method SetMatched(cs: array<Card>, i: nat)
    requires i < cs.Length
    modifies cs
    ensures cs[..] == old(cs[..])[i := old(cs[i]).(matched := true)]
  {
    cs[i] := cs[i].(matched := true);
  }

  // ---------------------------------------------------------------------------
  // The engine state
  // ---------------------------------------------------------------------------

  class Game {
    var misses: nat
    var matchesFound: nat
    var cards: array<Card>
    var activeSymbols: seq<Symbol>
    var firstCard: Option<nat>
    var lockBoard: bool
    /** The second card of a mismatch, held by the pending flip-back. */
    var pendingCard: Option<nat>

    function Snapshot(): Board
      reads this, cards
    {
      Board(cards[..], activeSymbols, firstCard, pendingCard, lockBoard, matchesFound, misses)
    }

    ghost predicate Valid()
      reads this, cards
    {
      Consistent(Snapshot())
    }

    /** The module-level initial values. */
    constructor ()
      ensures Snapshot() == Unstarted() && Valid()
    {
      misses, matchesFound := 0, 0;
      cards := new Card[0];
      activeSymbols := [];
      firstCard, lockBoard, pendingCard := None, false, None;
    }

    /**
     * `initGame(cardCount)`; the two calls of `shuffle` swap by `masterPicks`
     * and `cardPicks`.  No flip-back may be pending.
     */
    method InitGame(cardCount: nat, masterPicks: seq<nat>, cardPicks: seq<nat>)
      requires pendingCard == None
      requires ValidDeal(cardCount, masterPicks, cardPicks)
      modifies this
      ensures fresh(cards)
      ensures Snapshot() == Deal(cardCount, masterPicks, cardPicks)
      ensures Valid()
    {
      misses := 0;
      matchesFound := 0;
      firstCard := None;
      lockBoard := false;
      var pairCount := cardCount / 2;
      var shuffledMaster := ShuffledCopy(MasterSymbols, masterPicks);
      activeSymbols := Prefix(shuffledMaster[..], pairCount);
      var deck := ShuffledCopy(activeSymbols + activeSymbols, cardPicks);
      cards := CopyOf(FaceDown(deck[..]));
      DealProperties(cardCount, masterPicks, cardPicks);
    }

    /** `onCardClick` on the card at position k; `shown` is the screen `showResult` displays, if called. */
    method OnCardClick(k: nat) returns (shown: Option<ResultScreen>)
      requires Valid() && k < cards.Length
      modifies this, cards
      ensures cards == old(cards)
      ensures Snapshot() == Click(old(Snapshot()), k).0
      ensures shown == Click(old(Snapshot()), k).1
      ensures Valid()
    {
      ClickPreserves(Snapshot(), k);
      if lockBoard {
        return None;
      }
      if cards[k].flipped {
        return None;
      }
      if firstCard.None? {
        SetFlipped(cards, k, true);
        firstCard := Some(k);
        return None;
      }
      shown := SecondCard(k);
    }

    /**
     * The rest of `onCardClick` once a first card is showing: turn card k and
     * either match the pair, showing the result after the last one, or lock
     * the board until the flip-back.
     */
    method SecondCard(k: nat) returns (shown: Option<ResultScreen>)
      requires Valid() && k < cards.Length
      requires !lockBoard && !cards[k].flipped && firstCard.Some?
      modifies this, cards
      ensures cards == old(cards)
      ensures Snapshot() == Click(old(Snapshot()), k).0
      ensures shown == Click(old(Snapshot()), k).1
    {
      SetFlipped(cards, k, true);
      var f := firstCard.value;
      if cards[f].symbol == cards[k].symbol {
        SetMatched(cards, f);
        SetMatched(cards, k);
        matchesFound := matchesFound + 1;
        firstCard := None;
        if matchesFound == |activeSymbols| {
          return Some(ShowResult(misses));
        }
        return None;
      }
      lockBoard := true;
      pendingCard := Some(k);
      shown := None;
    }

    /** The `setTimeout` callback of a mismatch; callable only while one is pending. */
    method ResolveMismatch()
      requires Valid() && lockBoard
      modifies this, cards
      ensures cards == old(cards)
      ensures Snapshot() == FlipBack(old(Snapshot()))
      ensures Valid()
    {
      FlipBackPreserves(Snapshot());
      var p, f := pendingCard.value, firstCard.value;
      SetFlipped(cards, p, false);
      SetFlipped(cards, f, false);
      firstCard := None;
      lockBoard := false;
      pendingCard := None;
      misses := misses + 1;
    }
  }
}

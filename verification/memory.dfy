/**
 * Scene06, "Memory Challenge!": twelve face-down cards, two of each of six
 * symbols in shuffled order. A click turns a card up; the second card of a
 * turn locks the board and 800 ms later the pair is kept (same symbol) or
 * turned back. The sixth kept pair schedules the closing narration.
 */
module MemoryScene {
  import Script
  import opened Wrappers
  import opened Events
  import opened Panels
  import opened Ui

  /**
   * An entry of `gameState.flipped`: the card's symbol, its position, and
   * the grid its element belongs to. Each `showMemoryGame` builds new card
   * elements, so a turn begun on one grid can end on another.
   */
  datatype Flip = Flip(symbol: Symbol, index: nat, grid: nat)

  datatype Game = Game(
    flipped: seq<Flip>,
    matched: seq<Symbol>,   // one entry per kept pair
    canFlip: bool,
    grids: nat)             // how many grids have been built; the latest is number `grids`

  const Symbols: seq<Symbol> := [Rainbow, Star, Dizzy, Sparkles, Glowing, Burst]
  const Pairs: nat := 6

  const IntroText: Script.Line := Script.TestYourMemory
  const DoneText: Script.Line := Script.AllMatchesFound

  function Initial(): (g: Game)
    ensures g.flipped == [] && g.matched == [] && g.canFlip && g.grids == 0
  {
    Game([], [], true, 0)
  }

  /** The shuffled deck: some arrangement of every symbol twice (the random order is an input). */
  predicate IsShuffle(deck: seq<Symbol>) {
    multiset(deck) == multiset(Symbols + Symbols)
  }

  /** init: only the opening timer; the game state carries over. */
  function Init(g: Game, u: Ui): (r: Reaction<Game>)
    ensures r.scene == g && r.ui == u && r.scheduled == [Opening(5)]
  {
    Reaction(g, u, [Opening(5)])
  }

  function ShowOpening(u: Ui): (r: Ui)
    ensures r.narration == IntroText && r.onNext == Some(MemoryGame)
  {
    ShowNarration(u, IntroText, MemoryGame)
  }

  /** showMemoryGame: a new grid of the shuffled deck, all face down, counter at zero; the turn in progress is kept. */
  function ShowGame(g: Game, u: Ui, deck: seq<Symbol>): (r: Reaction<Game>)
    requires IsShuffle(deck)
    ensures r.scene == g.(grids := g.grids + 1) && r.scheduled == []
    ensures r.ui.game == MemoryPanel(g.grids + 1, deck, {}, {}, 0) && |r.ui.game.deck| == 2 * Pairs
    ensures forall k :: 0 <= k < |g.flipped| && g.flipped[k].grid <= g.grids ==> g.flipped[k].grid != r.ui.game.grid
    ensures r.ui.gameVisible && !r.ui.narrationVisible
  {
    assert |deck| == |multiset(deck)|;
    Reaction(g.(grids := g.grids + 1), ShowGameUI(HideNarration(u), MemoryPanel(g.grids + 1, deck, {}, {}, 0)), [])
  }

  /**
   * Click on card `i` of the mounted grid: ignored while the board is
   * locked, on a card already up or kept, or with two cards up; otherwise
   * the card turns up, and as the second of the turn it locks the board
   * and schedules the check.
   */
  function CardClick(g: Game, u: Ui, i: nat): (r: Reaction<Game>)
    requires u.game.MemoryPanel? && i < |u.game.deck|
    ensures var p := u.game;
      !g.canFlip || i in p.up || i in p.done || |g.flipped| >= 2 ==> r == Reaction(g, u, [])
    ensures var p := u.game;
      g.canFlip && i !in p.up && i !in p.done && |g.flipped| < 2 ==>
        && r.scene.flipped == g.flipped + [Flip(p.deck[i], i, p.grid)]
        && r.scene.matched == g.matched && r.scene.grids == g.grids
        && r.scene.canFlip == (|g.flipped| != 1)
        && r.ui.game == p.(up := p.up + {i})
        && r.ui.audio == u.audio + [Play(Click)]
        && r.scheduled == (if |g.flipped| == 1 then [MemoryResolve] else [])
  {
    var p := u.game;
    if !g.canFlip || i in p.up || i in p.done || |g.flipped| >= 2 then Reaction(g, u, [])
    else
      var f := g.flipped + [Flip(p.deck[i], i, p.grid)];
      var v := PlaySound(u, Click).(game := p.(up := p.up + {i}));
      if |f| == 2 then Reaction(g.(flipped := f, canFlip := false), v, [MemoryResolve])
      else Reaction(g.(flipped := f), v, [])
  }

  /** The positions, on the grid numbered `grid`, of the turn's cards that belong to that grid. */
  function OnGrid(fs: seq<Flip>, grid: nat): (r: set<nat>)
    ensures forall x :: x in r <==> exists k :: 0 <= k < |fs| && fs[k].grid == grid && fs[k].index == x
    decreases |fs|
  {
    if fs == [] then {}
    else (if fs[0].grid == grid then {fs[0].index} else {}) + OnGrid(fs[1..], grid)
  }

  lemma OnGridPair(a: Flip, b: Flip, grid: nat)
    ensures OnGrid([a, b], grid) == (if a.grid == grid then {a.index} else {}) + (if b.grid == grid then {b.index} else {})
  {
    assert [a, b][1..] == [b];
    assert [b][1..] == [];
  }

  /** What the check does to one card's element: on the mounted grid it is kept or turned back; an element of an older grid is not on screen. */
  function MarkCard(p: Panel, f: Flip, same: bool): Panel {
    if p.MemoryPanel? && f.grid == p.grid then
      if same then p.(done := p.done + {f.index}) else p.(up := p.up - {f.index})
    else p
  }

  /**
   * The check's effect on the mounted grid: both cards' elements are kept
   * or turned back, and on a kept pair the match counter of the second
   * card's grid (the one `checkMatch` was handed) shows `count`.
   */
  function Settle(p: Panel, a: Flip, b: Flip, same: bool, count: nat): (r: Panel)
    ensures !p.MemoryPanel? ==> r == p
    ensures p.MemoryPanel? ==>
      var mine := OnGrid([a, b], p.grid);
      && r.MemoryPanel? && r.grid == p.grid && r.deck == p.deck
      && r.up == (if same then p.up else p.up - mine)
      && r.done == (if same then p.done + mine else p.done)
      && r.counter == (if same && b.grid == p.grid then count else p.counter)
  {
    var q := MarkCard(MarkCard(p, a, same), b, same);
    if same && q.MemoryPanel? && b.grid == q.grid then MemoryPanel(q.grid, q.deck, q.up, q.done, count) else q
  }

  /**
   * checkMatch (800 ms after the second flip): same symbol at different
   * positions keeps the pair and counts it, and the count becoming exactly
   * six schedules completion; otherwise both cards turn back. Either way
   * the turn ends and the board unlocks.
   */
  function Resolve(g: Game, u: Ui): (r: Result<Reaction<Game>, Fault>)
    ensures |g.flipped| < 2 <==> r.Threw?
    ensures r.Ok? ==>
      var a := g.flipped[0]; var b := g.flipped[1];
      var same := a.symbol == b.symbol && a.index != b.index;
      && r.value.scene == Game([], if same then g.matched + [a.symbol] else g.matched, true, g.grids)
      && r.value.ui.audio == u.audio + [Play(if same then Success else Boink)]
      && r.value.ui.game == Settle(u.game, a, b, same, |g.matched| + 1)
      && r.value.scheduled == (if same && |g.matched| + 1 == Pairs then [MemoryComplete] else [])
  {
    if |g.flipped| < 2 then Threw(NoPair)
    else
      var a := g.flipped[0];
      var b := g.flipped[1];
      if a.symbol == b.symbol && a.index != b.index then
        var m := g.matched + [a.symbol];
        Ok(Reaction(Game([], m, true, g.grids),
                    PlaySound(u, Success).(game := Settle(u.game, a, b, true, |m|)),
                    if |m| == Pairs then [MemoryComplete] else []))
      else
        Ok(Reaction(Game([], g.matched, true, g.grids),
                    PlaySound(u, Boink).(game := Settle(u.game, a, b, false, |g.matched| + 1)), []))
  }

  /** completeGame (500 ms after the sixth pair); the confetti is not modelled. */
  function Complete(u: Ui): (r: Ui)
    ensures r.game == Empty && r.narration == DoneText && r.onNext == Some(NextScene)
    ensures r.audio == u.audio + [Play(Success), Speak(DoneText)]
  {
    ShowNarration(HideGameUI(PlaySound(u, Success)), DoneText, NextScene)
  }

  /** cleanup: panel and narration go; `gameState` stays. */
  function Cleanup(g: Game, u: Ui): (r: Reaction<Game>)
    ensures r.scene == g && r.ui.game == Empty && !r.ui.narrationVisible && r.scheduled == []
  {
    Reaction(g, HideNarration(HideGameUI(u)), [])
  }

  /** The turn on its own: at most two cards, the board locked exactly at two, every card from a grid already built. */
  predicate TurnState(g: Game) {
    && |g.flipped| <= 2
    && (g.canFlip <==> |g.flipped| < 2)
    && (forall k :: 0 <= k < |g.flipped| ==> g.flipped[k].grid <= g.grids)
    && (|g.flipped| == 2 && g.flipped[0].grid == g.flipped[1].grid ==> g.flipped[0].index != g.flipped[1].index)
  }

  /**
   * The turn invariant against the mounted grid, the latest one built:
   * each card of the turn that belongs to it carries its own symbol and is
   * face up and unkept, and every face-up card of it is kept or in the turn.
   */
  predicate Turn(g: Game, p: Panel) {
    && TurnState(g)
    && p.MemoryPanel? && p.grid == g.grids
    && (forall k :: 0 <= k < |g.flipped| && g.flipped[k].grid == p.grid ==>
          var f := g.flipped[k];
          f.index < |p.deck| && p.deck[f.index] == f.symbol && f.index in p.up && f.index !in p.done)
    && p.up <= p.done + OnGrid(g.flipped, p.grid)
  }

  /** Showing the grid, even in the middle of a turn begun on an earlier grid, starts from the invariant. */
  lemma ShowGameKeepsTurn(g: Game, u: Ui, deck: seq<Symbol>)
    requires IsShuffle(deck) && TurnState(g)
    ensures Turn(ShowGame(g, u, deck).scene, ShowGame(g, u, deck).ui.game)
  {
  }

  /** Clicks keep the turn invariant. */
  lemma ClickKeepsTurn(g: Game, u: Ui, i: nat)
    requires Turn(g, u.game) && i < |u.game.deck|
    ensures Turn(CardClick(g, u, i).scene, CardClick(g, u, i).ui.game)
  {
  }

  /** The check never faults inside a turn that has locked the board, and leaves a clean turn. */
  lemma ResolveAfterLock(g: Game, u: Ui)
    requires Turn(g, u.game) && !g.canFlip
    ensures Resolve(g, u).Ok?
    ensures Turn(Resolve(g, u).value.scene, Resolve(g, u).value.ui.game)
    ensures Resolve(g, u).value.scene.flipped == []
    ensures Resolve(g, u).value.ui.game.up <= Resolve(g, u).value.ui.game.done
  {
  }

  /**
   * A turn begun on one grid and finished on a grid shown after it: a
   * mismatched card of the new grid is turned back, and can be clicked
   * again as the first card of the next turn.
   */
  lemma InterruptedTurnTurnsBack(g: Game, u: Ui, deck: seq<Symbol>, j: nat)
    requires Turn(g, u.game) && |g.flipped| == 1
    requires IsShuffle(deck) && j < |deck| && deck[j] != g.flipped[0].symbol
    ensures var v := ShowGame(g, u, deck);
      var b := CardClick(v.scene, v.ui, j);
      var c := Resolve(b.scene, b.ui);
      && b.scheduled == [MemoryResolve]
      && c.Ok? && c.value.scene.matched == g.matched
      && c.value.ui.game.up == {} && c.value.ui.game.done == {}
      && CardClick(c.value.scene, c.value.ui, j).scene.flipped == [Flip(deck[j], j, g.grids + 1)]
  {
    var v := ShowGame(g, u, deck);
    assert |deck| == |multiset(deck)|;
    var b := CardClick(v.scene, v.ui, j);
    assert b.scene == Game(g.flipped + [Flip(deck[j], j, g.grids + 1)], g.matched, false, g.grids + 1);
    assert b.ui.game == MemoryPanel(g.grids + 1, deck, {j}, {}, 0);
    MixedTurnTurnsBack(b.scene, b.ui, g.flipped[0], Flip(deck[j], j, g.grids + 1));
  }

  /** The check of a mismatched turn whose first card is not on the mounted grid turns back the second. */
  lemma MixedTurnTurnsBack(g: Game, u: Ui, a: Flip, b: Flip)
    requires g.flipped == [a, b] && a.symbol != b.symbol && !g.canFlip
    requires u.game.MemoryPanel? && u.game.up == {b.index} && u.game.done == {}
    requires b.grid == u.game.grid != a.grid && b.index < |u.game.deck| && u.game.deck[b.index] == b.symbol
    ensures var c := Resolve(g, u);
      && c.Ok? && c.value.scene == Game([], g.matched, true, g.grids)
      && c.value.ui.game == u.game.(up := {})
      && CardClick(c.value.scene, c.value.ui, b.index).scene.flipped == [Flip(b.symbol, b.index, b.grid)]
  {
    OnGridPair(a, b, u.game.grid);
  }

  /** Two cards with the same face, clicked in one turn, become a kept pair. */
  lemma MatchingPairIsKept(g: Game, u: Ui, i: nat, j: nat)
    requires Turn(g, u.game) && g.flipped == []
    requires i < |u.game.deck| && j < |u.game.deck| && i != j
    requires i !in u.game.up && i !in u.game.done && j !in u.game.up && j !in u.game.done
    requires u.game.deck[i] == u.game.deck[j]
    ensures var a := CardClick(g, u, i);
      var b := CardClick(a.scene, a.ui, j);
      var c := Resolve(b.scene, b.ui);
      && b.scheduled == [MemoryResolve]
      && c.Ok? && c.value.scene.matched == g.matched + [u.game.deck[i]]
      && c.value.ui.game.done == u.game.done + {i, j}
      && c.value.ui.game.counter == |g.matched| + 1
  {
  }

  /** Two cards with different faces are turned back and nothing is counted. */
  lemma MismatchTurnsBack(g: Game, u: Ui, i: nat, j: nat)
    requires Turn(g, u.game) && g.flipped == []
    requires i < |u.game.deck| && j < |u.game.deck|
    requires i !in u.game.up && i !in u.game.done && j !in u.game.up && j !in u.game.done
    requires u.game.deck[i] != u.game.deck[j]
    ensures var a := CardClick(g, u, i);
      var b := CardClick(a.scene, a.ui, j);
      var c := Resolve(b.scene, b.ui);
      && c.Ok? && c.value.scene == Game([], g.matched, true, g.grids)
      && c.value.ui.game.up == u.game.up && c.value.ui.game.done == u.game.done
      && c.value.scheduled == []
  {
  }

  /** A third click while two cards are up does nothing, not even a sound. */
  lemma LockedBoardIgnoresClicks(g: Game, u: Ui, i: nat)
    requires Turn(g, u.game) && |g.flipped| == 2 && i < |u.game.deck|
    ensures CardClick(g, u, i) == Reaction(g, u, [])
  {
  }

  /** Completion is scheduled by the sixth pair and by no other check. */
  lemma CompletionOnlyAtSix(g: Game, u: Ui)
    requires Resolve(g, u).Ok?
    ensures MemoryComplete in Resolve(g, u).value.scheduled <==>
      Resolve(g, u).value.scene.matched != g.matched && |g.matched| == Pairs - 1
  {
  }

  /** Replaying the scene with six pairs already counted: the counter reads past six and completion never comes. */
  lemma ReplayNeverCompletes(g: Game, u: Ui)
    requires |g.matched| >= Pairs && Resolve(g, u).Ok?
    ensures Resolve(g, u).value.scheduled == []
    ensures var p := Resolve(g, u).value.ui.game;
      (p.MemoryPanel? && u.game.MemoryPanel? && p.counter != u.game.counter) ==> p.counter > Pairs
  {
  }

  /** In any shuffle each symbol is on exactly two cards. */
  lemma ShuffleHasPairs(deck: seq<Symbol>, s: Symbol)
    requires IsShuffle(deck)
    ensures multiset(deck)[s] == 2
  {
    assert multiset(Symbols + Symbols) == multiset(Symbols) + multiset(Symbols);
    assert Symbols == [Rainbow] + [Star] + [Dizzy] + [Sparkles] + [Glowing] + [Burst];
    assert multiset(Symbols)[s] == 1;
  }
}

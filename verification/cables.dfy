/**
 * Scene03, "Helping Farmers & Engineers": a two-beat opening, then the
 * cable-matching panel. A cable is selected by dragging, touching or
 * clicking it; a drop or a click on the socket of the same colour counts
 * a match. Four matches schedule the closing narration.
 */
module CableScene {
  import Script
  import opened Wrappers
  import opened Events
  import opened Panels
  import opened Ui

  /** `gameState`: matches so far, in order, and the selected cable colour. */
  datatype Game = Game(matched: seq<Colour>, currentDrag: Option<Colour>)

  const Cables: seq<Colour> := [Red, Blue, Green, Yellow]
  const Needed: nat := 4

  const IntroText: Script.Line := Script.TractorStopped
  const IntroText2: Script.Line := Script.FixTheTechnology
  const DoneText: Script.Line := Script.PowerRestored

  function Initial(): (g: Game)
    ensures g.matched == [] && g.currentDrag.None?
  {
    Game([], None)
  }

  /** init: only the opening timer (3 s); the game state is not reset. */
  function Init(g: Game, u: Ui): (r: Reaction<Game>)
    ensures r.scene == g && r.ui == u && r.scheduled == [Opening(2)]
  {
    Reaction(g, u, [Opening(2)])
  }

  function ShowOpening(u: Ui): (r: Ui)
    ensures r.narration == IntroText && r.onNext == Some(CableIntro)
  {
    ShowNarration(u, IntroText, CableIntro)
  }

  function Intro(u: Ui): (r: Ui)
    ensures r.narration == IntroText2 && r.onNext == Some(CableGame)
  {
    ShowNarration(u, IntroText2, CableGame)
  }

  /** showCableGame: a fresh panel with all four cables visible. */
  function ShowGame(u: Ui): (r: Ui)
    ensures r.game == CablePanel({}) && r.gameVisible && !r.narrationVisible
    ensures r.onNext == u.onNext
  {
    ShowGameUI(HideNarration(u), CablePanel({}))
  }

  /** The cable of colour `c` gets `display: none`, when the panel holds cables. */
  function HideCable(p: Panel, c: Colour): (r: Panel)
    ensures p.CablePanel? ==> r == CablePanel(p.hidden + {c})
    ensures !p.CablePanel? ==> r == p
  {
    if p.CablePanel? then CablePanel(p.hidden + {c}) else p
  }

  /** dragstart / touchstart on a cable: select it, silently. */
  function Grab(g: Game, c: Colour): (r: Game)
    ensures r.currentDrag == Some(c) && r.matched == g.matched
  {
    g.(currentDrag := Some(c))
  }

  /** click on a cable: select it with a click sound. */
  function CableClick(g: Game, u: Ui, c: Colour): (r: Reaction<Game>)
    ensures r.scene == Grab(g, c)
    ensures r.ui.audio == u.audio + [Play(Click)] && r.ui.game == u.game
    ensures r.scheduled == []
  {
    Reaction(Grab(g, c), PlaySound(u, Click), [])
  }

  /**
   * A successful match on `socket`: success sound, cable hidden, colour
   * appended; the completion timer only when the count becomes exactly four.
   */
  function Connect(g: Game, u: Ui, socket: Colour): (r: Reaction<Game>)
    ensures r.scene.matched == g.matched + [socket] && r.scene.currentDrag == g.currentDrag
    ensures r.ui.audio == u.audio + [Play(Success)]
    ensures r.ui.game == HideCable(u.game, socket)
    ensures r.scheduled == (if |g.matched| + 1 == Needed then [CableComplete] else [])
  {
    var m := g.matched + [socket];
    Reaction(g.(matched := m), PlaySound(u, Success).(game := HideCable(u.game, socket)),
             if |m| == Needed then [CableComplete] else [])
  }

  /** drop on a socket: match iff the selection has the socket's colour; the selection is kept either way. */
  function Drop(g: Game, u: Ui, socket: Colour): (r: Reaction<Game>)
    ensures g.currentDrag == Some(socket) ==> r == Connect(g, u, socket)
    ensures g.currentDrag != Some(socket) ==>
      r == Reaction(g, PlaySound(u, Boink), [])
    ensures r.scene.currentDrag == g.currentDrag
  {
    if g.currentDrag == Some(socket) then Connect(g, u, socket)
    else Reaction(g, PlaySound(u, Boink), [])
  }

  /** click on a socket: ignored without a selection; otherwise match or boink, and the selection is cleared. */
  function SocketClick(g: Game, u: Ui, socket: Colour): (r: Reaction<Game>)
    ensures g.currentDrag.None? ==> r == Reaction(g, u, [])
    ensures g.currentDrag == Some(socket) ==>
      var c := Connect(g, u, socket); r == c.(scene := c.scene.(currentDrag := None))
    ensures g.currentDrag.Some? && g.currentDrag != Some(socket) ==>
      r == Reaction(g.(currentDrag := None), PlaySound(u, Boink), [])
    ensures r.scene.currentDrag.None?
  {
    if g.currentDrag.None? then Reaction(g, u, [])
    else if g.currentDrag == Some(socket) then
      var c := Connect(g, u, socket);
      c.(scene := c.scene.(currentDrag := None))
    else Reaction(g.(currentDrag := None), PlaySound(u, Boink), [])
  }

  /** completeGame (500 ms after the fourth match). */
  function Complete(u: Ui): (r: Ui)
    ensures r.game == Empty && !r.gameVisible
    ensures r.narration == DoneText && r.onNext == Some(NextScene)
    ensures r.audio == u.audio + [Play(Beep), Speak(DoneText)]
  {
    ShowNarration(HideGameUI(PlaySound(u, Beep)), DoneText, NextScene)
  }

  /** cleanup: panels and narration go; `gameState` survives for the next visit. */
  function Cleanup(g: Game, u: Ui): (r: Reaction<Game>)
    ensures r.scene == g && r.ui.game == Empty && !r.ui.narrationVisible && r.scheduled == []
  {
    Reaction(g, HideNarration(HideGameUI(u)), [])
  }

  /** The panel shows exactly the matched colours as hidden cables. */
  predicate Consistent(g: Game, p: Panel) {
    p.CablePanel? && forall c :: c in p.hidden <==> c in g.matched
  }

  lemma ShowGameConsistent(u: Ui)
    ensures Consistent(Initial(), ShowGame(u).game)
  {
  }

  /** Clicking a cable keeps the hidden cables equal to the matched colours. */
  lemma CableClickKeepsConsistent(g: Game, u: Ui, c: Colour)
    requires Consistent(g, u.game)
    ensures Consistent(CableClick(g, u, c).scene, CableClick(g, u, c).ui.game)
  {
  }

  /** Dropping a dragged cable keeps the hidden cables equal to the matched colours. */
  lemma DropKeepsConsistent(g: Game, u: Ui, c: Colour)
    requires Consistent(g, u.game)
    ensures Consistent(Drop(g, u, c).scene, Drop(g, u, c).ui.game)
  {
  }

  /** Clicking a socket keeps the hidden cables equal to the matched colours. */
  lemma SocketClickKeepsConsistent(g: Game, u: Ui, c: Colour)
    requires Consistent(g, u.game)
    ensures Consistent(SocketClick(g, u, c).scene, SocketClick(g, u, c).ui.game)
  {
  }

  predicate Distinct(s: seq<Colour>) {
    forall i, j :: 0 <= i < j < |s| ==> s[i] != s[j]
  }

  /** With no repeats, four matches mean every colour was matched, and vice versa. */
  lemma FourDistinctIsAll(m: seq<Colour>)
    requires Distinct(m)
    ensures |m| == Needed <==> forall c: Colour :: c in m
  {
    var all := {Red, Blue, Green, Yellow};
    assert Elements(m) <= all by {
      forall c | c in Elements(m) ensures c in all {
        assert c.Red? || c.Blue? || c.Green? || c.Yellow?;
      }
    }
    if |m| == Needed {
      DistinctElementsSize(m);
      forall c: Colour ensures c in m {
        if c !in m {
          var rest := all - {c};
          assert |rest| == 3 by {
            match c
            case Red => assert rest == {Blue, Green, Yellow};
            case Blue => assert rest == {Red, Green, Yellow};
            case Green => assert rest == {Red, Blue, Yellow};
            case Yellow => assert rest == {Red, Blue, Green};
          }
          assert Elements(m) <= rest;
          SubsetSize(Elements(m), rest);
        }
      }
    }
    if forall c: Colour :: c in m {
      AtMostFour(m);
      assert all <= Elements(m);
      SubsetSize(all, Elements(m));
      ElementsSize(m);
    }
  }

  function Elements(s: seq<Colour>): set<Colour> {
    set c | c in s
  }

  /** Pigeonhole: with four colours there is no fifth distinct entry. */
  lemma AtMostFour(m: seq<Colour>)
    requires Distinct(m)
    ensures |m| <= Needed
  {
    DistinctElementsSize(m);
    assert Elements(m) <= {Red, Blue, Green, Yellow} by {
      forall c | c in Elements(m) ensures c in {Red, Blue, Green, Yellow} {
        assert c.Red? || c.Blue? || c.Green? || c.Yellow?;
      }
    }
    SubsetSize(Elements(m), {Red, Blue, Green, Yellow});
  }

  lemma {:induction false} DistinctElementsSize(s: seq<Colour>)
    requires Distinct(s)
    ensures |Elements(s)| == |s|
  {
    if s != [] {
      var t := s[..|s| - 1];
      DistinctElementsSize(t);
      assert s == t + [s[|s| - 1]];
      assert s[|s| - 1] !in Elements(t);
      assert Elements(s) == Elements(t) + {s[|s| - 1]};
    }
  }

  lemma {:induction false} ElementsSize(s: seq<Colour>)
    ensures |Elements(s)| <= |s|
  {
    if s != [] {
      var t := s[..|s| - 1];
      ElementsSize(t);
      assert Elements(s) == Elements(t) + {s[|s| - 1]} by {
        assert s == t + [s[|s| - 1]];
      }
    }
  }

  lemma {:induction false} SubsetSize<T>(a: set<T>, b: set<T>)
    requires a <= b
    ensures |a| <= |b|
  {
    if a != {} {
      var x :| x in a;
      SubsetSize(a - {x}, b - {x});
    }
  }

  /** A click and a socket click per colour of `cs`, in order. */
  function ClickRounds(g: Game, u: Ui, cs: seq<Colour>): (r: Reaction<Game>)
    decreases |cs|
  {
    if cs == [] then Reaction(g, u, [])
    else
      var a := CableClick(g, u, cs[0]);
      var b := SocketClick(a.scene, a.ui, cs[0]);
      var rest := ClickRounds(b.scene, b.ui, cs[1..]);
      Reaction(rest.scene, rest.ui, a.scheduled + b.scheduled + rest.scheduled)
  }

  /** Clicking each cable and then its socket matches exactly those colours and leaves nothing selected. */
  lemma {:induction false} ClickRoundsMatch(g: Game, u: Ui, cs: seq<Colour>)
    requires g.currentDrag.None? || cs != []
    ensures ClickRounds(g, u, cs).scene == Game(g.matched + cs, if cs == [] then g.currentDrag else None)
    ensures Consistent(g, u.game) ==> Consistent(ClickRounds(g, u, cs).scene, ClickRounds(g, u, cs).ui.game)
    decreases |cs|
  {
    if cs != [] {
      var a := CableClick(g, u, cs[0]);
      var b := SocketClick(a.scene, a.ui, cs[0]);
      if Consistent(g, u.game) {
        CableClickKeepsConsistent(g, u, cs[0]);
        SocketClickKeepsConsistent(a.scene, a.ui, cs[0]);
      }
      ClickRoundsMatch(b.scene, b.ui, cs[1..]);
      assert g.matched + cs == g.matched + [cs[0]] + cs[1..];
    }
  }

  /** The rounds schedule completion once, exactly when they carry the count across four. */
  lemma {:induction false} ClickRoundsSchedule(g: Game, u: Ui, cs: seq<Colour>)
    requires g.currentDrag.None? || cs != []
    ensures ClickRounds(g, u, cs).scheduled ==
      (if |g.matched| < Needed <= |g.matched| + |cs| then [CableComplete] else [])
    decreases |cs|
  {
    if cs != [] {
      var a := CableClick(g, u, cs[0]);
      var b := SocketClick(a.scene, a.ui, cs[0]);
      ClickRoundsSchedule(b.scene, b.ui, cs[1..]);
    }
  }

  /** Played in order from a fresh panel, the four colours complete the game once, with every cable hidden. */
  lemma HappyPath(u: Ui)
    ensures var r := ClickRounds(Initial(), ShowGame(u), Cables);
      r.scene.matched == Cables && r.scheduled == [CableComplete]
      && r.ui.game == CablePanel({Red, Blue, Green, Yellow})
  {
    ShowGameConsistent(u);
    ClickRoundsMatch(Initial(), ShowGame(u), Cables);
    ClickRoundsSchedule(Initial(), ShowGame(u), Cables);
    var r := ClickRounds(Initial(), ShowGame(u), Cables);
    assert r.ui.game.hidden == {Red, Blue, Green, Yellow};
  }

  /**
   * A drop keeps the selection, so clicking the same socket afterwards
   * counts the colour a second time: red twice, then blue and green,
   * completes the game with the yellow cable never connected.
   */
  lemma StaleSelectionCountsTwice(u: Ui)
    ensures var a := Drop(Grab(Initial(), Red), u, Red);
      var b := SocketClick(a.scene, a.ui, Red);
      var r := ClickRounds(b.scene, b.ui, [Blue, Green]);
      r.scene.matched == [Red, Red, Blue, Green] && Yellow !in r.scene.matched
      && a.scheduled + b.scheduled + r.scheduled == [CableComplete]
  {
    var a := Drop(Grab(Initial(), Red), u, Red);
    var b := SocketClick(a.scene, a.ui, Red);
    ClickRoundsMatch(b.scene, b.ui, [Blue, Green]);
    ClickRoundsSchedule(b.scene, b.ui, [Blue, Green]);
  }

  /** A game already at four or more matches never schedules completion again: a replayed scene cannot finish. */
  lemma NoCompletionPastFour(g: Game, u: Ui, c: Colour)
    requires |g.matched| >= Needed
    ensures Drop(g, u, c).scheduled == [] && SocketClick(g, u, c).scheduled == []
    ensures CableClick(g, u, c).scheduled == []
  {
  }
}

/**
 * Scene05, "Learning Time!": one opening beat, then the dictionary panel
 * with three term buttons and a Continue button. The scene keeps no state
 * of its own; only the narration chain and the Continue button, which
 * drive the story onward, are modelled here.
 */
module DefinitionsScene {
  import Script
  import opened Wrappers
  import opened Events
  import opened Panels
  import opened Ui

  const IntroText: Script.Line := Script.SpaceWeatherTerms
  const DoneText: Script.Line := Script.GreatLearning

  /** init: only the opening timer. */
  function Init(u: Ui): (r: seq<Timer>)
    ensures r == [Opening(4)]
  {
    [Opening(4)]
  }

  function ShowOpening(u: Ui): (r: Ui)
    ensures r.narration == IntroText && r.onNext == Some(DefinitionsGame)
  {
    ShowNarration(u, IntroText, DefinitionsGame)
  }

  /** showDefinitionsGame: the dictionary panel replaces the narration. */
  function ShowGame(u: Ui): (r: Ui)
    ensures r.game == DefinitionsPanel && r.gameVisible && !r.narrationVisible
    ensures r.onNext == u.onNext
  {
    ShowGameUI(HideNarration(u), DefinitionsPanel)
  }

  /** Continue button: success sound, then completeScene hides the panel and announces the next scene. */
  function Continue(u: Ui): (r: Ui)
    ensures r.game == Empty && !r.gameVisible
    ensures r.narration == DoneText && r.onNext == Some(NextScene)
    ensures r.audio == u.audio + [Play(Success), Speak(DoneText)]
  {
    ShowNarration(HideGameUI(PlaySound(u, Success)), DoneText, NextScene)
  }

  function Cleanup(u: Ui): (r: Ui)
    ensures r.game == Empty && !r.narrationVisible && r.onNext == u.onNext
  {
    HideNarration(HideGameUI(u))
  }
}

/**
 * The UI collaborator (UIManager): narration box with its single stored
 * advance continuation, the next and skip buttons, the game panel, the
 * progress bar and the scene indicator. The audio collaborator is only
 * observed through the calls made to it, kept in order in `audio`.
 */
module Ui {
  import opened Wrappers
  import opened Events
  import opened Panels
  import Decimal
  import Script

  datatype Ui = Ui(
    narrationVisible: bool,
    skipVisible: bool,
    narration: Script.Line,
    onNext: Option<Cont>,      // onNextCallback
    gameVisible: bool,
    game: Panel,               // gameUI.innerHTML
    progress: real,            // progress fill width, percent
    indicator: string,         // sceneIndicator.textContent
    narratorVisible: bool,     // astronautNarrator container
    audio: seq<AudioCall>)

  /** State right after the constructor: no callback, empty panel, no audio yet. */
  function Fresh(): (u: Ui)
    ensures u.onNext == None && u.game == Empty && u.audio == []
  {
    Ui(false, false, Script.Silence, None, false, Empty, 0.0, "", false, [])
  }

  /** Result of pressing next or skip: the new UI and the continuation invoked, if any. */
  datatype Press = Press(ui: Ui, fired: Option<Cont>)

  /** A scene's reaction to one event: its new state, the UI, and the timers it scheduled. */
  datatype Reaction<S> = Reaction(scene: S, ui: Ui, scheduled: seq<Timer>)

  function PlaySound(u: Ui, s: Sound): Ui {
    u.(audio := u.audio + [Play(s)])
  }

  /** showNarration: sets the text, shows box and skip button, overwrites the continuation, speaks. */
  function ShowNarration(u: Ui, text: Script.Line, k: Cont): (r: Ui)
    ensures r.narrationVisible && r.skipVisible && r.narration == text
    ensures r.onNext == Some(k)
    ensures r.audio == u.audio + [Speak(text)]
    ensures r.game == u.game && r.gameVisible == u.gameVisible
    ensures r.indicator == u.indicator && r.progress == u.progress
  {
    u.(narration := text, narrationVisible := true, skipVisible := true,
       onNext := Some(k), audio := u.audio + [Speak(text)])
  }

  /** hideNarration: hides box and skip button, stops speech, keeps the continuation. */
  function HideNarration(u: Ui): (r: Ui)
    ensures !r.narrationVisible && !r.skipVisible
    ensures r.onNext == u.onNext && r.narration == u.narration
    ensures r.audio == u.audio + [StopSpeaking]
    ensures r.game == u.game && r.gameVisible == u.gameVisible
  {
    u.(narrationVisible := false, skipVisible := false, audio := u.audio + [StopSpeaking])
  }

  /** Next button: click sound, then the stored continuation if there is one. */
  function PressNext(u: Ui): (r: Press)
    ensures r.fired == u.onNext
    ensures r.ui == u.(audio := u.audio + [Play(Click)])
  {
    Press(PlaySound(u, Click), u.onNext)
  }

  /** Skip button: click sound, stop speaking, then the stored continuation if there is one. */
  function PressSkip(u: Ui): (r: Press)
    ensures r.fired == u.onNext
    ensures r.ui == u.(audio := u.audio + [Play(Click), StopSpeaking])
  {
    Press(u.(audio := u.audio + [Play(Click), StopSpeaking]), u.onNext)
  }

  /** showGameUI: mounts the panel content and shows it. */
  function ShowGameUI(u: Ui, content: Panel): (r: Ui)
    ensures r.gameVisible && r.game == content
    ensures r.onNext == u.onNext && r.narrationVisible == u.narrationVisible && r.audio == u.audio
  {
    u.(game := content, gameVisible := true)
  }

  /** hideGameUI: hides the panel and empties its content. */
  function HideGameUI(u: Ui): (r: Ui)
    ensures !r.gameVisible && r.game == Empty
    ensures r.onNext == u.onNext && r.narrationVisible == u.narrationVisible && r.audio == u.audio
  {
    u.(gameVisible := false, game := Empty)
  }

  /** updateProgress: the fill shows the percentage; nothing else on the page changes. */
  function UpdateProgress(u: Ui, percentage: real): (r: Ui)
    ensures r.progress == percentage
    ensures r.(progress := u.progress) == u
  {
    u.(progress := percentage)
  }

  /** The text `Scene ${current}/${total}`. */
  function IndicatorText(current: nat, total: nat): string {
    "Scene " + Decimal.Show(current) + "/" + Decimal.Show(total)
  }

  /** updateSceneIndicator: the indicator reads back as exactly (current, total). */
  function UpdateSceneIndicator(u: Ui, current: nat, total: nat): (r: Ui)
    ensures ParseIndicator(r.indicator) == Some((current, total))
    ensures r.indicator[..6] == "Scene "
    ensures current < 10 && total < 10 ==> |r.indicator| == 9
    ensures r.onNext == u.onNext && r.game == u.game && r.audio == u.audio
  {
    IndicatorRoundTrip(current, total);
    u.(indicator := IndicatorText(current, total))
  }

  /** Position of the first `c` in `s`, if any. */
  function IndexOf(s: string, c: char): (r: Option<nat>)
    ensures r.Some? ==> r.value < |s| && s[r.value] == c
    ensures r.Some? ==> forall i :: 0 <= i < r.value ==> s[i] != c
    ensures r.None? ==> forall i :: 0 <= i < |s| ==> s[i] != c
  {
    if s == [] then None
    else if s[0] == c then Some(0)
    else match IndexOf(s[1..], c)
      case None => None
      case Some(i) => Some(i + 1)
  }

  /** Reads a `Scene c/t` text back into its two numbers. */
  function ParseIndicator(s: string): Option<(nat, nat)> {
    if |s| < 6 || s[..6] != "Scene " then None
    else
      var rest := s[6..];
      match IndexOf(rest, '/')
      case None => None
      case Some(i) =>
        var a := rest[..i];
        var b := rest[i + 1..];
        if a != [] && b != [] && Decimal.AllDigits(a) && Decimal.AllDigits(b)
        then Some((Decimal.Read(a), Decimal.Read(b)))
        else None
  }

  lemma IndicatorRoundTrip(current: nat, total: nat)
    ensures ParseIndicator(IndicatorText(current, total)) == Some((current, total))
  {
    var a := Decimal.Show(current);
    var b := Decimal.Show(total);
    var s := IndicatorText(current, total);
    assert s[..6] == "Scene ";
    var rest := s[6..];
    assert rest == a + "/" + b;
    assert forall i :: 0 <= i < |a| ==> rest[i] == a[i] && Decimal.IsDigit(a[i]);
    assert rest[|a|] == '/';
    assert IndexOf(rest, '/') == Some(|a|);
    assert rest[..|a|] == a;
    assert rest[|a| + 1..] == b;
    Decimal.ReadShow(current);
    Decimal.ReadShow(total);
  }

  /** At most one pending continuation: a later narration replaces an earlier one. */
  lemma LatestNarrationWins(u: Ui, t1: Script.Line, k1: Cont, t2: Script.Line, k2: Cont)
    ensures PressNext(ShowNarration(ShowNarration(u, t1, k1), t2, k2)).fired == Some(k2)
    ensures PressSkip(ShowNarration(ShowNarration(u, t1, k1), t2, k2)).fired == Some(k2)
  {
  }

  /** Hiding the narration does not disarm its continuation: next still fires it. */
  lemma HiddenNarrationStillFires(u: Ui, t: Script.Line, k: Cont)
    ensures PressNext(HideNarration(ShowNarration(u, t, k))).fired == Some(k)
    ensures !HideNarration(ShowNarration(u, t, k)).narrationVisible
  {
  }

  /** Pressing does not consume the continuation: a second press fires it again. */
  lemma PressIsRepeatable(u: Ui)
    ensures PressNext(PressNext(u).ui).fired == u.onNext
    ensures PressSkip(PressNext(u).ui).fired == u.onNext
  {
  }
}

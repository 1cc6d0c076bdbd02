/**
 * Scene08, "Everyone's Day": a two-beat opening, the restoration panel of
 * four system buttons, and, once four systems are counted, the closing
 * narration, the epilogue and the final notice with its restart button.
 */
module RestoreScene {
  import Script
  import opened Wrappers
  import opened Events
  import opened Panels
  import opened Ui

  /** The scene's only state: `fixedSystems`, set to 0 by the constructor and never reset. */
  datatype State = State(fixedSystems: nat)

  const Needed: nat := 4

  const IntroText: Script.Line := Script.WorkingTogether
  const IntroText2: Script.Line := Script.RestoreLastLine
  const DoneText: Script.Line := Script.AllSystemsWorking
  const EpilogueText: Script.Line := Script.SmilingTogether

  function Initial(): (s: State)
    ensures s.fixedSystems == 0
  {
    State(0)
  }

  function Init(s: State, u: Ui): (r: Reaction<State>)
    ensures r.scene == s && r.ui == u && r.scheduled == [Opening(7)]
  {
    Reaction(s, u, [Opening(7)])
  }

  function ShowOpening(u: Ui): (r: Ui)
    ensures r.narration == IntroText && r.onNext == Some(RestoreIntro)
  {
    ShowNarration(u, IntroText, RestoreIntro)
  }

  function Intro(u: Ui): (r: Ui)
    ensures r.narration == IntroText2 && r.onNext == Some(RestoreGame)
  {
    ShowNarration(u, IntroText2, RestoreGame)
  }

  /** showRestorationGame: four unrestored buttons; the progress line always starts at 0. */
  function ShowGame(u: Ui): (r: Ui)
    ensures r.game == RestorePanel({}, 0) && r.gameVisible && !r.narrationVisible
  {
    ShowGameUI(HideNarration(u), RestorePanel({}, 0))
  }

  /**
   * Tap on a system button of the mounted panel: a restored button is
   * inert; otherwise it is marked, the count goes up by one and is shown,
   * and completion is scheduled only when the count is now exactly four.
   */
  function Tap(s: State, u: Ui, sys: System): (r: Reaction<State>)
    requires u.game.RestorePanel?
    ensures sys in u.game.restored ==> r == Reaction(s, u, [])
    ensures sys !in u.game.restored ==>
      && r.scene.fixedSystems == s.fixedSystems + 1
      && r.ui == u.(game := RestorePanel(u.game.restored + {sys}, s.fixedSystems + 1),
                    audio := u.audio + [Play(Success)])
      && r.scheduled == (if s.fixedSystems + 1 == Needed then [RestoreComplete] else [])
  {
    if sys in u.game.restored then Reaction(s, u, [])
    else
      var n := s.fixedSystems + 1;
      Reaction(State(n), PlaySound(u, Success).(game := RestorePanel(u.game.restored + {sys}, n)),
               if n == Needed then [RestoreComplete] else [])
  }

  /** completeStory (1 s after the fourth restoration); the confetti is not modelled. */
  function CompleteStory(u: Ui): (r: Ui)
    ensures r.game == Empty && r.narration == DoneText && r.onNext == Some(StoryEpilogue)
    ensures r.audio == u.audio + [Play(Beep), Speak(DoneText)]
  {
    ShowNarration(PlaySound(HideGameUI(u), Beep), DoneText, StoryEpilogue)
  }

  function Epilogue(u: Ui): (r: Ui)
    ensures r.narration == EpilogueText && r.onNext == Some(StoryFinal)
  {
    ShowNarration(u, EpilogueText, StoryFinal)
  }

  /** showFinalMessage: the congratulations panel; the narration box is left as it is. */
  function ShowFinal(u: Ui): (r: Ui)
    ensures r.game == FinalPanel && r.gameVisible
    ensures r.narrationVisible == u.narrationVisible && r.onNext == u.onNext
  {
    ShowGameUI(u, FinalPanel)
  }

  function Cleanup(s: State, u: Ui): (r: Reaction<State>)
    ensures r.scene == s && r.ui.game == Empty && !r.ui.narrationVisible && r.scheduled == []
  {
    Reaction(s, HideNarration(HideGameUI(u)), [])
  }

  /** The panel's marks, counter and the scene's count agree, given the count the panel was shown at. */
  predicate Agrees(s: State, p: Panel, base: nat) {
    p.RestorePanel? && s.fixedSystems == base + |p.restored| && (p.restored != {} ==> p.counter == s.fixedSystems)
  }

  lemma ShowGameAgrees(s: State, u: Ui)
    ensures Agrees(s, ShowGame(u).game, s.fixedSystems)
  {
  }

  lemma TapKeepsAgreement(s: State, u: Ui, sys: System, base: nat)
    requires Agrees(s, u.game, base)
    ensures Agrees(Tap(s, u, sys).scene, Tap(s, u, sys).ui.game, base)
  {
  }

  /** Taps on the given systems, one after another. */
  function Taps(s: State, u: Ui, ts: seq<System>): (r: Reaction<State>)
    requires u.game.RestorePanel?
    ensures r.ui.game.RestorePanel?
    decreases |ts|
  {
    if ts == [] then Reaction(s, u, [])
    else
      var a := Tap(s, u, ts[0]);
      var b := Taps(a.scene, a.ui, ts[1..]);
      Reaction(b.scene, b.ui, a.scheduled + b.scheduled)
  }

  function Named(ts: seq<System>): set<System> {
    set t | t in ts
  }

  /** After a run of taps the marked buttons are those marked before plus every system tapped. */
  lemma {:induction false} TapsMark(s: State, u: Ui, ts: seq<System>)
    requires u.game.RestorePanel?
    ensures Taps(s, u, ts).ui.game.restored == u.game.restored + Named(ts)
    decreases |ts|
  {
    if ts != [] {
      var a := Tap(s, u, ts[0]);
      TapsMark(a.scene, a.ui, ts[1..]);
      assert Named(ts) == {ts[0]} + Named(ts[1..]);
    }
  }

  /** A run of taps keeps the count equal to the base plus the marked buttons: each system counts once. */
  lemma {:induction false} TapsKeepAgreement(s: State, u: Ui, ts: seq<System>, base: nat)
    requires Agrees(s, u.game, base)
    ensures Agrees(Taps(s, u, ts).scene, Taps(s, u, ts).ui.game, base)
    decreases |ts|
  {
    if ts != [] {
      TapKeepsAgreement(s, u, ts[0], base);
      var a := Tap(s, u, ts[0]);
      TapsKeepAgreement(a.scene, a.ui, ts[1..], base);
    }
  }

  /** First visit: tapping all four systems (in any order, repeats allowed) schedules completion exactly once. */
  lemma FirstVisitCompletesOnce(u: Ui, ts: seq<System>)
    requires forall x: System :: x in ts
    ensures var r := Taps(Initial(), ShowGame(u), ts);
      r.scene.fixedSystems == Needed && r.scheduled == [RestoreComplete]
  {
    var v := ShowGame(u);
    ShowGameAgrees(Initial(), u);
    TapsKeepAgreement(Initial(), v, ts, 0);
    TapsMark(Initial(), v, ts);
    AllSystemsNamed(ts);
    var r := Taps(Initial(), v, ts);
    assert r.ui.game.restored == Named(ts);
    assert r.scene.fixedSystems == Needed;
    TapsSchedule(Initial(), v, ts);
  }

  /** A sequence naming every system names four of them. */
  lemma AllSystemsNamed(ts: seq<System>)
    requires forall x: System :: x in ts
    ensures |Named(ts)| == Needed
  {
    var all := {Tractor, Power, Radio, Satellite};
    forall x: System ensures x in Named(ts) <==> x in all {
      assert x in ts;
      assert x.Tractor? || x.Power? || x.Radio? || x.Satellite?;
    }
    assert Named(ts) == all;
  }

  /** Each tap that counts a new system adds one to the count; completion fires once as the count passes four. */
  lemma {:induction false} TapsSchedule(s: State, u: Ui, ts: seq<System>)
    requires u.game.RestorePanel?
    ensures var r := Taps(s, u, ts);
      r.scheduled == (if s.fixedSystems < Needed <= r.scene.fixedSystems then [RestoreComplete] else [])
    decreases |ts|
  {
    if ts != [] {
      var a := Tap(s, u, ts[0]);
      TapsSchedule(a.scene, a.ui, ts[1..]);
      TapsMonotone(a.scene, a.ui, ts[1..]);
    }
  }

  lemma {:induction false} TapsMonotone(s: State, u: Ui, ts: seq<System>)
    requires u.game.RestorePanel?
    ensures Taps(s, u, ts).scene.fixedSystems >= s.fixedSystems
    decreases |ts|
  {
    if ts != [] {
      var a := Tap(s, u, ts[0]);
      TapsMonotone(a.scene, a.ui, ts[1..]);
    }
  }

  /** A replay starts with the count at four: no tap sequence ever schedules completion again. */
  lemma ReplayNeverCompletes(s: State, u: Ui, ts: seq<System>)
    requires s.fixedSystems >= Needed && u.game.RestorePanel?
    ensures Taps(s, u, ts).scheduled == []
  {
    TapsSchedule(s, u, ts);
  }
}

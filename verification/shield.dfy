/**
 * Scene07, "Space Challenges": first the astronaut challenge (tap the
 * eight radiation waves, or raise the shield to sweep away the ones near
 * Alex), then, once eight waves are cleared, the pilot's radio game
 * (press Red, Blue, Green in order).
 */
module ShieldScene {
  import Script
  import opened Wrappers
  import opened Events
  import opened Panels
  import opened Ui

  datatype Phase = Astronaut | Pilot   // challengePhase

  datatype State = State(
    waves: seq<nat>,        // radiationWaves, by identity
    nextWave: nat,          // identity of the next wave created
    shieldActive: bool,
    wavesCleared: nat,
    phase: Phase,
    enabled: bool)          // enableInteraction

  const WaveCount: nat := 8
  const RadioSequence: seq<Colour> := [Red, Blue, Green]

  const IntroText: Script.Line := Script.WavesApproach
  const IntroText2: Script.Line := Script.TapTheWaves
  const PilotText: Script.Line := Script.FixTheRadio
  const DoneText: Script.Line := Script.AlexIsSafe

  function Initial(): (s: State)
    ensures s.waves == [] && !s.shieldActive && s.wavesCleared == 0 && s.phase == Astronaut && !s.enabled
  {
    State([], 0, false, 0, Astronaut, false)
  }

  /** init: only the opening timer; counters and phase carry over. */
  function Init(s: State, u: Ui): (r: Reaction<State>)
    ensures r.scene == s && r.ui == u && r.scheduled == [Opening(6)]
  {
    Reaction(s, u, [Opening(6)])
  }

  function ShowOpening(u: Ui): (r: Ui)
    ensures r.narration == IntroText && r.onNext == Some(ShieldIntro)
  {
    ShowNarration(u, IntroText, ShieldIntro)
  }

  function Intro(u: Ui): (r: Ui)
    ensures r.narration == IntroText2 && r.onNext == Some(ShieldGame)
  {
    ShowNarration(u, IntroText2, ShieldGame)
  }

  /** showAstronautChallenge: eight new waves, the panel reading 8, interaction on. */
  function ShowChallenge(s: State, u: Ui): (r: Reaction<State>)
    ensures r.scene.waves == s.waves + seq(WaveCount, k => s.nextWave + k)
    ensures r.scene.nextWave == s.nextWave + WaveCount && r.scene.enabled
    ensures r.scene.wavesCleared == s.wavesCleared && r.scene.phase == s.phase && r.scene.shieldActive == s.shieldActive
    ensures r.ui.game == ShieldPanel(WaveCount) && !r.ui.narrationVisible && r.scheduled == []
  {
    Reaction(s.(waves := s.waves + seq(WaveCount, k => s.nextWave + k), nextWave := s.nextWave + WaveCount,
                enabled := true),
             ShowGameUI(HideNarration(u), ShieldPanel(WaveCount)), [])
  }

  /** Position of the first occurrence of `w` (`indexOf`). */
  function IndexOf(ws: seq<nat>, w: nat): (i: nat)
    requires w in ws
    ensures i < |ws| && ws[i] == w && w !in ws[..i]
  {
    if ws[0] == w then 0
    else
      var i := 1 + IndexOf(ws[1..], w);
      assert ws[..i] == [ws[0]] + ws[1..][..i - 1];
      i
  }

  /** The wave counter text follows `8 - wavesCleared`, when the shield panel is up. */
  function SetCounter(p: Panel, cleared: nat): (r: Panel)
    ensures p.ShieldPanel? ==> r == ShieldPanel(WaveCount - cleared)
    ensures !p.ShieldPanel? ==> r == p
  {
    if p.ShieldPanel? then ShieldPanel(WaveCount - cleared) else p
  }

  /**
   * removeWave: a wave still in the list is spliced out and counted; each
   * removal that leaves eight or more cleared in the astronaut phase
   * schedules the pilot challenge. A wave no longer listed is ignored.
   */
  function RemoveWave(s: State, u: Ui, w: nat): (r: Reaction<State>)
    ensures w !in s.waves ==> r == Reaction(s, u, [])
    ensures w in s.waves ==>
      var i := IndexOf(s.waves, w);
      && r.scene == s.(waves := s.waves[..i] + s.waves[i + 1..], wavesCleared := s.wavesCleared + 1)
      && r.ui == u.(game := SetCounter(u.game, s.wavesCleared + 1))
      && r.scheduled == (if s.wavesCleared + 1 >= WaveCount && s.phase == Astronaut then [PilotPhase] else [])
    ensures r.scene.wavesCleared + |r.scene.waves| == s.wavesCleared + |s.waves|
  {
    if w !in s.waves then Reaction(s, u, [])
    else
      var i := IndexOf(s.waves, w);
      var c := s.wavesCleared + 1;
      Reaction(s.(waves := s.waves[..i] + s.waves[i + 1..], wavesCleared := c),
               u.(game := SetCounter(u.game, c)),
               if c >= WaveCount && s.phase == Astronaut then [PilotPhase] else [])
  }

  /**
   * The shield's `forEach` over the live wave list from position `i`:
   * removing the wave at `i` shifts the next one into `i`, and the walk
   * moves on to `i + 1`, so the wave right after each removed one is not
   * examined.
   */
  function Sweep(s: State, u: Ui, near: set<nat>, i: nat): (r: Reaction<State>)
    ensures r.scene.wavesCleared + |r.scene.waves| == s.wavesCleared + |s.waves|
    ensures forall v :: v in r.scene.waves ==> v in s.waves
    ensures forall v :: v in s.waves && v !in near ==> v in r.scene.waves
    ensures r.scene.phase == s.phase && r.scene.shieldActive == s.shieldActive && r.scene.enabled == s.enabled
    ensures r.scene.nextWave == s.nextWave
    ensures r.ui == u.(game := r.ui.game)
    decreases |s.waves| + 1 - i
  {
    if i >= |s.waves| then Reaction(s, u, [])
    else if s.waves[i] in near then
      var a := RemoveWave(s, u, s.waves[i]);
      RemoveWaveMembers(s, u, s.waves[i]);
      var b := Sweep(a.scene, a.ui, near, i + 1);
      Reaction(b.scene, b.ui, a.scheduled + b.scheduled)
    else Sweep(s, u, near, i + 1)
  }

  /**
   * activateShield (shield button): ignored while a shield is up; otherwise
   * raises it, sweeps the waves within reach (`near`, distance below 3 to
   * Alex) and schedules the shield's expiry.
   */
  function ActivateShield(s: State, u: Ui, near: set<nat>): (r: Reaction<State>)
    ensures s.shieldActive ==> r == Reaction(s, u, [])
    ensures !s.shieldActive ==>
      var w := Sweep(s.(shieldActive := true), PlaySound(u, Whoosh), near, 0);
      r == Reaction(w.scene, w.ui, w.scheduled + [ShieldExpire])
    ensures r.scene.shieldActive
  {
    if s.shieldActive then Reaction(s, u, [])
    else
      var w := Sweep(s.(shieldActive := true), PlaySound(u, Whoosh), near, 0);
      Reaction(w.scene, w.ui, w.scheduled + [ShieldExpire])
  }

  /** Shield expiry (2 s): the shield can be raised again. */
  function ShieldExpired(s: State): (r: State)
    ensures !r.shieldActive && r == s.(shieldActive := false)
  {
    s.(shieldActive := false)
  }

  /** handleClick: only in the astronaut phase with interaction on; the first wave under the pointer is removed. */
  function HandleClick(s: State, u: Ui, hit: Option<nat>): (r: Reaction<State>)
    ensures !s.enabled || s.phase != Astronaut || hit.None? ==> r == Reaction(s, u, [])
    ensures s.enabled && s.phase == Astronaut && hit.Some? ==> r == RemoveWave(s, PlaySound(u, Success), hit.value)
  {
    if !s.enabled || s.phase != Astronaut || hit.None? then Reaction(s, u, [])
    else RemoveWave(s, PlaySound(u, Success), hit.value)
  }

  /** showPilotChallenge (1 s after the eighth clearance): the phase switches and the radio game is announced. */
  function ShowPilot(s: State, u: Ui): (r: Reaction<State>)
    ensures r.scene == s.(phase := Pilot)
    ensures r.ui.game == Empty && r.ui.narration == PilotText && r.ui.onNext == Some(RadioGame)
    ensures r.scheduled == []
  {
    Reaction(s.(phase := Pilot), ShowNarration(HideGameUI(u), PilotText, RadioGame), [])
  }

  /** showRadioGame: a fresh radio panel whose step counter starts at zero. */
  function ShowRadio(u: Ui): (r: Ui)
    ensures r.game == RadioPanel(0) && r.gameVisible && !r.narrationVisible
  {
    ShowGameUI(HideNarration(u), RadioPanel(0))
  }

  /**
   * One radio button press at `step`: a press matching `sequence[step]`
   * advances, anything else (including any press once the step has run
   * past the sequence, where the expected colour is undefined) starts over
   * at zero.
   */
  function RadioStep(step: nat, c: Colour): (next: nat)
    ensures next == 0 || next == step + 1
    ensures next == step + 1 <==> step < |RadioSequence| && c == RadioSequence[step]
  {
    if step < |RadioSequence| && c == RadioSequence[step] then step + 1 else 0
  }

  /** Click on a radio button while the radio panel is up; completion is scheduled when the step reaches three. */
  function RadioPress(u: Ui, c: Colour): (r: Reaction<()>)
    requires u.game.RadioPanel?
    ensures var next := RadioStep(u.game.step, c);
      && r.ui == u.(game := RadioPanel(next), audio := u.audio + [Play(if next > 0 then Success else Boink)])
      && r.scheduled == (if next == |RadioSequence| then [RadioComplete] else [])
  {
    var next := RadioStep(u.game.step, c);
    Reaction((), u.(game := RadioPanel(next), audio := u.audio + [Play(if next > 0 then Success else Boink)]),
             if next == |RadioSequence| then [RadioComplete] else [])
  }

  /** completeScene (1 s after the third correct press). */
  function Complete(u: Ui): (r: Ui)
    ensures r.game == Empty && r.narration == DoneText && r.onNext == Some(NextScene)
  {
    ShowNarration(HideGameUI(u), DoneText, NextScene)
  }

  /** cleanup: the wave list is emptied; counters, phase and flags stay. */
  function Cleanup(s: State, u: Ui): (r: Reaction<State>)
    ensures r.scene == s.(waves := [])
    ensures r.ui.game == Empty && !r.ui.narrationVisible && r.scheduled == []
  {
    Reaction(s.(waves := []), HideNarration(HideGameUI(u)), [])
  }

  predicate Distinct(ws: seq<nat>) {
    forall i, j :: 0 <= i < j < |ws| ==> ws[i] != ws[j]
  }

  /** Wave identities are distinct and below the next one to be handed out. */
  predicate Valid(s: State) {
    && Distinct(s.waves)
    && (forall i :: 0 <= i < |s.waves| ==> s.waves[i] < s.nextWave)
  }

  lemma ShowChallengeValid(s: State, u: Ui)
    requires Valid(s)
    ensures Valid(ShowChallenge(s, u).scene)
  {
    var r := ShowChallenge(s, u).scene;
    forall i, j | 0 <= i < j < |r.waves| ensures r.waves[i] != r.waves[j] {
      if j >= |s.waves| && i < |s.waves| {
        assert r.waves[i] == s.waves[i] < s.nextWave <= r.waves[j];
      }
    }
  }

  lemma RemoveWaveValid(s: State, u: Ui, w: nat)
    requires Valid(s)
    ensures Valid(RemoveWave(s, u, w).scene)
  {
    if w in s.waves {
      SpliceKeepsDistinct(s.waves, IndexOf(s.waves, w), s.nextWave);
    }
  }

  /** Splicing one position out of a list of distinct identities below `bound` keeps both properties. */
  lemma SpliceKeepsDistinct(ws: seq<nat>, i: nat, bound: nat)
    requires Distinct(ws) && i < |ws| && (forall k :: 0 <= k < |ws| ==> ws[k] < bound)
    ensures var vs := ws[..i] + ws[i + 1..];
      Distinct(vs) && forall k :: 0 <= k < |vs| ==> vs[k] < bound
  {
    var vs := ws[..i] + ws[i + 1..];
    forall k | 0 <= k < |vs| ensures vs[k] == ws[if k < i then k else k + 1] {
    }
  }

  /** Removal takes out at most the one wave: every other listed wave stays, and none is added. */
  lemma RemoveWaveMembers(s: State, u: Ui, w: nat)
    ensures forall v :: v in RemoveWave(s, u, w).scene.waves ==> v in s.waves
    ensures forall v :: v in s.waves && v != w ==> v in RemoveWave(s, u, w).scene.waves
  {
    if w in s.waves {
      var i := IndexOf(s.waves, w);
      assert s.waves == s.waves[..i] + [w] + s.waves[i + 1..];
    }
  }

  /** A valid wave list no longer holds a wave once it is removed. */
  lemma RemovedWaveIsGone(s: State, u: Ui, w: nat)
    requires Valid(s) && w in s.waves
    ensures w !in RemoveWave(s, u, w).scene.waves
    ensures RemoveWave(s, u, w).scene.wavesCleared == s.wavesCleared + 1
  {
    var i := IndexOf(s.waves, w);
    var ws := s.waves[..i] + s.waves[i + 1..];
    forall k | 0 <= k < |ws| ensures ws[k] != w {
      if k < i { assert ws[k] == s.waves[k]; } else { assert ws[k] == s.waves[k + 1]; }
    }
  }

  /**
   * Reference for the shield's walk over a list of distinct waves: a wave
   * within reach is removed and the one that slides into its place is
   * passed over; a wave out of reach stays.
   */
  function Swept(ws: seq<nat>, near: set<nat>): seq<nat>
    decreases |ws|
  {
    if ws == [] then []
    else if ws[0] !in near then [ws[0]] + Swept(ws[1..], near)
    else if |ws| == 1 then []
    else [ws[1]] + Swept(ws[2..], near)
  }

  lemma {:induction false} SweptSubset(ws: seq<nat>, near: set<nat>)
    ensures forall v :: v in Swept(ws, near) ==> v in ws
    decreases |ws|
  {
    if ws == [] {
    } else if ws[0] !in near {
      SweptSubset(ws[1..], near);
    } else if |ws| > 1 {
      SweptSubset(ws[2..], near);
    }
  }

  /** In a list of distinct waves, `indexOf` of the wave at `i` is `i`. */
  lemma IndexOfDistinct(ws: seq<nat>, i: nat)
    requires Distinct(ws) && i < |ws|
    ensures IndexOf(ws, ws[i]) == i
  {
  }

  /** One step of the walk on a wave within reach: `removeWave` splices exactly position `i`. */
  lemma SweepRemoveStep(s: State, u: Ui, near: set<nat>, i: nat)
    requires Valid(s) && i < |s.waves| && s.waves[i] in near
    ensures var a := RemoveWave(s, u, s.waves[i]);
      && Valid(a.scene)
      && a.scene.waves == s.waves[..i] + s.waves[i + 1..]
      && Sweep(s, u, near, i).scene == Sweep(a.scene, a.ui, near, i + 1).scene
  {
    IndexOfDistinct(s.waves, i);
    RemoveWaveValid(s, u, s.waves[i]);
  }

  /** The walk from position `i` leaves the waves before `i` and the reference walk of the rest. */
  lemma {:induction false} SweepIsSwept(s: State, u: Ui, near: set<nat>, i: nat)
    requires Valid(s) && i <= |s.waves|
    ensures Sweep(s, u, near, i).scene.waves == s.waves[..i] + Swept(s.waves[i..], near)
    decreases |s.waves| - i
  {
    var ws := s.waves;
    if i == |ws| {
      assert ws[i..] == [] && ws[..i] == ws;
    } else if ws[i] in near {
      SweepRemoveStep(s, u, near, i);
      var a := RemoveWave(s, u, ws[i]);
      if i + 1 == |ws| {
        assert ws[i..] == [ws[i]];
      } else {
        SweepIsSwept(a.scene, a.ui, near, i + 1);
        SweptSplice(ws, a.scene.waves, near, i);
      }
    } else {
      assert Sweep(s, u, near, i) == Sweep(s, u, near, i + 1);
      SweepIsSwept(s, u, near, i + 1);
      SweptKeep(ws, near, i);
    }
  }

  /** Sequence bookkeeping for a removal at `i` followed by the walk from `i + 1`. */
  lemma SweptSplice(ws: seq<nat>, vs: seq<nat>, near: set<nat>, i: nat)
    requires i + 1 < |ws| && ws[i] in near && vs == ws[..i] + ws[i + 1..]
    ensures vs[..i + 1] + Swept(vs[i + 1..], near) == ws[..i] + Swept(ws[i..], near)
  {
    assert vs[..i + 1] == ws[..i] + [ws[i + 1]];
    assert vs[i + 1..] == ws[i + 2..];
    assert ws[i..][2..] == ws[i + 2..];
  }

  /** Sequence bookkeeping for a wave out of reach at `i`. */
  lemma SweptKeep(ws: seq<nat>, near: set<nat>, i: nat)
    requires i < |ws| && ws[i] !in near
    ensures ws[..i + 1] + Swept(ws[i + 1..], near) == ws[..i] + Swept(ws[i..], near)
  {
    assert ws[..i + 1] == ws[..i] + [ws[i]];
    assert ws[i..][1..] == ws[i + 1..];
  }

  /** The reference walk removes every wave within reach that it reaches: the first one, or one after a wave out of reach. */
  lemma {:induction false} SweptDrops(ws: seq<nat>, near: set<nat>, k: nat)
    requires Distinct(ws) && k < |ws| && ws[k] in near && (k == 0 || ws[k - 1] !in near)
    ensures ws[k] !in Swept(ws, near)
    decreases |ws|
  {
    if ws[0] !in near {
      SweptSubset(ws[1..], near);
      if k > 0 {
        SweptDrops(ws[1..], near, k - 1);
      }
    } else if |ws| > 1 {
      SweptSubset(ws[2..], near);
      if k >= 2 {
        SweptDrops(ws[2..], near, k - 2);
      }
    }
  }

  /** Raising the shield removes each wave within reach that is first in the list or follows a wave out of reach. */
  lemma ShieldClearsReached(s: State, u: Ui, near: set<nat>)
    requires Valid(s) && !s.shieldActive
    ensures forall k :: 0 <= k < |s.waves| && s.waves[k] in near && (k == 0 || s.waves[k - 1] !in near) ==>
      s.waves[k] !in ActivateShield(s, u, near).scene.waves
  {
    var t := s.(shieldActive := true);
    SweepIsSwept(t, PlaySound(u, Whoosh), near, 0);
    assert s.waves[0..] == s.waves && s.waves[..0] == [];
    assert ActivateShield(s, u, near).scene.waves == Swept(s.waves, near);
    forall k | 0 <= k < |s.waves| && s.waves[k] in near && (k == 0 || s.waves[k - 1] !in near)
      ensures s.waves[k] !in ActivateShield(s, u, near).scene.waves
    {
      SweptDrops(s.waves, near, k);
    }
  }

  /** Raising the shield over two adjacent waves both within reach clears only the first. */
  lemma ShieldSkipsNeighbour(u: Ui)
    ensures var s := State([0, 1], 2, false, 0, Astronaut, true);
      var r := ActivateShield(s, u, {0, 1});
      r.scene.waves == [1] && r.scene.wavesCleared == 1
  {
    var s := State([0, 1], 2, false, 0, Astronaut, true);
    var a := RemoveWave(s.(shieldActive := true), PlaySound(u, Whoosh), 0);
    assert a.scene.waves == [1];
  }

  /** After the switch to the pilot phase, taps never remove waves and no clearance schedules the pilot challenge again. */
  lemma PilotPhaseIsFinal(s: State, u: Ui, hit: Option<nat>, near: set<nat>, w: nat)
    requires s.phase == Pilot
    ensures HandleClick(s, u, hit) == Reaction(s, u, [])
    ensures RemoveWave(s, u, w).scheduled == []
    ensures RemoveWave(s, u, w).scene.phase == Pilot
  {
  }

  /** Presses, one after another, from step `step`. */
  function RadioRun(step: nat, cs: seq<Colour>): nat
    decreases |cs|
  {
    if cs == [] then step else RadioRun(RadioStep(step, cs[0]), cs[1..])
  }

  /** The step counts how many of the sequence's colours the latest presses spell, in order. */
  lemma RadioStepKeepsSuffix(step: nat, hist: seq<Colour>, c: Colour)
    requires step <= |RadioSequence| && step <= |hist|
    requires hist[|hist| - step..] == RadioSequence[..step]
    ensures var next := RadioStep(step, c);
      next <= |RadioSequence| && hist + [c] == (hist + [c])[..|hist| + 1 - next] + RadioSequence[..next]
  {
    var next := RadioStep(step, c);
    if next > 0 {
      assert RadioSequence[..next] == RadioSequence[..step] + [c];
      assert hist == hist[..|hist| - step] + hist[|hist| - step..];
    }
  }

  /** Red, Blue, Green from a fresh panel completes on the Green press. */
  lemma RadioInOrderCompletes()
    ensures RadioRun(0, [Red, Blue]) == 2
    ensures RadioStep(2, Green) == |RadioSequence|
  {
  }

  /** A wrong press restarts at zero even when it is Red: Red, Blue, Red, Blue, Green is not enough. */
  lemma WrongRedRestartsAtZero()
    ensures RadioRun(0, [Red, Blue, Red]) == 0
    ensures RadioRun(0, [Red, Blue, Red, Blue, Green]) == 0
    ensures RadioRun(0, [Red, Blue, Red, Red, Blue, Green]) == |RadioSequence|
  {
  }

  /** Once complete, any further press starts over, and the sequence completes (and schedules completion) again. */
  lemma RadioCompletesAgain(u: Ui)
    requires u.game == RadioPanel(|RadioSequence|)
    ensures var a := RadioPress(u, Red);
      a.ui.game == RadioPanel(0) && a.scheduled == []
    ensures RadioRun(RadioStep(|RadioSequence|, Red), [Red, Blue, Green]) == |RadioSequence|
  {
  }

  /**
   * One tap on the front wave, stated directly: in the astronaut phase with
   * interaction on, the front wave is dropped and counted, with a success
   * sound and the counter updated. `TapStepIsHandleClick` shows that this is
   * exactly what handleClick does.
   */
  function TapStep(s: State, u: Ui): (r: Reaction<State>)
    requires s.waves != []
  {
    if s.enabled && s.phase == Astronaut then
      var c := s.wavesCleared + 1;
      Reaction(s.(waves := s.waves[1..], wavesCleared := c),
               u.(audio := u.audio + [Play(Success)], game := SetCounter(u.game, c)),
               if c >= WaveCount then [PilotPhase] else [])
    else Reaction(s, u, [])
  }

  /** Taps on the front wave, `n` times. */
  function TapFront(s: State, u: Ui, n: nat): Reaction<State>
    decreases n
  {
    if n == 0 || s.waves == [] then Reaction(s, u, [])
    else
      var a := TapStep(s, u);
      var b := TapFront(a.scene, a.ui, n - 1);
      Reaction(b.scene, b.ui, a.scheduled + b.scheduled)
  }

  /** One pilot-challenge timer for each of the counts `c + 1 .. c + n` that reaches eight. */
  function PilotTimers(c: nat, n: nat): seq<Timer>
    decreases n
  {
    if n == 0 then [] else (if c + 1 >= WaveCount then [PilotPhase] else []) + PilotTimers(c + 1, n - 1)
  }

  /** Each tap clears the front wave and counts it. */
  lemma {:induction false} TapFrontClears(s: State, u: Ui, n: nat)
    requires s.enabled && s.phase == Astronaut && n <= |s.waves|
    ensures TapFront(s, u, n).scene == s.(waves := s.waves[n..], wavesCleared := s.wavesCleared + n)
    decreases n
  {
    if n > 0 {
      var a := TapStep(s, u);
      TapFrontClears(a.scene, a.ui, n - 1);
      assert s.waves[1..][n - 1..] == s.waves[n..];
    }
  }

  /** Each clearance that reaches eight schedules the pilot challenge once. */
  lemma {:induction false} TapFrontSchedules(s: State, u: Ui, n: nat)
    requires s.enabled && s.phase == Astronaut && n <= |s.waves|
    ensures TapFront(s, u, n).scheduled == PilotTimers(s.wavesCleared, n)
    decreases n
  {
    if n > 0 {
      var a := TapStep(s, u);
      TapFrontSchedules(a.scene, a.ui, n - 1);
    }
  }

  /** A tap whose ray hits the front wave does exactly what `TapStep` says. */
  lemma TapStepIsHandleClick(s: State, u: Ui)
    requires s.waves != []
    ensures HandleClick(s, u, Some(s.waves[0])) == TapStep(s, u)
  {
    assert IndexOf(s.waves, s.waves[0]) == 0;
    assert s.waves[..0] + s.waves[1..] == s.waves[1..];
  }

  /** Clearing a fresh challenge's eight waves by taps schedules the pilot challenge exactly once. */
  lemma EightTapsReachPilot(s: State, u: Ui)
    requires s.waves == [] && s.wavesCleared == 0 && s.phase == Astronaut
    ensures var c := ShowChallenge(s, u);
      var r := TapFront(c.scene, c.ui, WaveCount);
      r.scene.waves == [] && r.scheduled == [PilotPhase]
  {
    var c := ShowChallenge(s, u);
    TapFrontClears(c.scene, c.ui, WaveCount);
    TapFrontSchedules(c.scene, c.ui, WaveCount);
    assert PilotTimers(0, WaveCount) == [PilotPhase];
  }
}

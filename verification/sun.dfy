/**
 * Scene01, "Meet Sunny the Sun": a three-beat narration chain driven by
 * `narrationStep`, then taps on the Sun launch Sparky with a burst of
 * spark particles.
 */
module SunScene {
  import Script
  import opened Wrappers
  import opened Events
  import opened Geometry
  import opened Particles
  import opened Ui

  /** Sparky: position, per-frame velocity, and whether it still has a parent in the scene graph. */
  datatype Sparky = Sparky(pos: Vec3, vel: Vec3, attached: bool)

  datatype State = State(
    narrationStep: nat,
    enabled: bool,            // enableInteraction (undefined, hence false, until set)
    sparky: Option<Sparky>,
    particles: seq<Particle>)

  const Beats: seq<Script.Line> := [Script.MeetSunny, Script.SunnyLaunches, Script.TapTheRays]

  const DoneText: Script.Line := Script.SparkyOnItsWay

  const SparkCount: nat := 10
  const SparkLife: real := 1.0
  const LaunchPoint: Vec3 := Vec3(0.0, 0.0, 2.0)
  const LaunchSpeed: real := 0.3
  /** Square of the distance 20 past which the scene is complete. */
  const FarSq: real := 400.0

  /** Constructor state: step 0, interaction off, no Sparky, no particles. */
  function Initial(): (s: State)
    ensures s.narrationStep == 0 && !s.enabled && s.sparky.None? && s.particles == []
  {
    State(0, false, None, [])
  }

  /** init: decoration is not modelled; startNarration schedules the first beat (4.5 s). */
  function Init(s: State, u: Ui): (r: Reaction<State>)
    ensures r.scene == s && r.ui == u && r.scheduled == [Opening(0)]
  {
    Reaction(s, u, [Opening(0)])
  }

  /** showNextNarration: shows beat `narrationStep` while one remains, else does nothing. */
  function ShowNextNarration(s: State, u: Ui): (r: Ui)
    ensures s.narrationStep < |Beats| ==>
      r.narration == Beats[s.narrationStep] && r.onNext == Some(SunBeat) && r.narrationVisible
    ensures s.narrationStep >= |Beats| ==> r == u
  {
    if s.narrationStep < |Beats| then ShowNarration(u, Beats[s.narrationStep], SunBeat) else u
  }

  /** The advance closure: step + 1, then the next beat, or hide and enable interaction. */
  function Advance(s: State, u: Ui): (r: Reaction<State>)
    ensures r.scene.narrationStep == s.narrationStep + 1
    ensures r.scene.enabled == (s.enabled || s.narrationStep + 1 >= |Beats|)
    ensures s.narrationStep + 1 < |Beats| ==>
      r.ui.narration == Beats[s.narrationStep + 1] && r.ui.onNext == Some(SunBeat)
    ensures s.narrationStep + 1 >= |Beats| ==>
      !r.ui.narrationVisible && r.ui.narration == u.narration
    ensures r.scene.sparky == s.sparky && r.scene.particles == s.particles && r.scheduled == []
  {
    var t := s.(narrationStep := s.narrationStep + 1);
    if t.narrationStep < |Beats| then Reaction(t, ShowNextNarration(t, u), [])
    else Reaction(t.(enabled := true), HideNarration(u), [])
  }

  /** launchSparky: replaces any previous Sparky, whooshes, and spawns ten sparks of life 1.0. */
  function Launch(s: State, u: Ui, drift: Vec2): (r: Result<Reaction<State>, Fault>)
    ensures r.Threw? <==> s.sparky.Some? && !s.sparky.value.attached
    ensures r.Ok? ==>
      && r.value.scene.sparky == Some(Sparky(LaunchPoint, Vec3(drift.x, drift.y, LaunchSpeed), true))
      && |r.value.scene.particles| == |s.particles| + SparkCount
      && r.value.scene.particles[..|s.particles|] == s.particles
      && (forall i :: |s.particles| <= i < |r.value.scene.particles| ==> r.value.scene.particles[i].life == SparkLife)
      && r.value.ui.audio == u.audio + [Play(Whoosh)]
      && r.value.scene.narrationStep == s.narrationStep && r.value.scene.enabled == s.enabled
  {
    if s.sparky.Some? && !s.sparky.value.attached then Threw(DetachedSparky)
    else
      var sparky := Sparky(LaunchPoint, Vec3(drift.x, drift.y, LaunchSpeed), true);
      Ok(Reaction(
        s.(sparky := Some(sparky), particles := Spawn(s.particles, SparkCount, SparkLife)),
        PlaySound(u, Whoosh), []))
  }

  /**
   * handleClick: ignored while interaction is off; otherwise launches only
   * when the first hit object is the Sun group or one of its direct children
   * (`hitsSun`, the ray-cast answer).
   */
  function HandleClick(s: State, u: Ui, hitsSun: bool, drift: Vec2): (r: Result<Reaction<State>, Fault>)
    ensures !(s.enabled && hitsSun) ==> r == Ok(Reaction(s, u, []))
    ensures s.enabled && hitsSun ==> r == Launch(s, u, drift)
  {
    if !s.enabled then Ok(Reaction(s, u, []))
    else if hitsSun then Launch(s, u, drift)
    else Ok(Reaction(s, u, []))
  }

  /** Whether a moved Sparky is past distance 20 from the origin. */
  predicate Far(p: Vec3) {
    LengthSq(p) > FarSq
  }

  /**
   * update: Sparky moves by its velocity; whenever it is past distance 20
   * the closing narration is shown again (no one-shot guard); every spark
   * loses `dt` of life and expired ones are spliced out.
   */
  function Update(s: State, u: Ui, dt: real): (r: Reaction<State>)
    ensures r.scene.particles == Tick(s.particles, dt)
    ensures s.sparky.None? ==> r.scene.sparky.None? && r.ui == u
    ensures s.sparky.Some? ==>
      r.scene.sparky == Some(s.sparky.value.(pos := Add(s.sparky.value.pos, s.sparky.value.vel)))
    ensures s.sparky.Some? && Far(Add(s.sparky.value.pos, s.sparky.value.vel)) ==>
      r.ui == ShowNarration(u, DoneText, NextScene)
    ensures s.sparky.Some? && !Far(Add(s.sparky.value.pos, s.sparky.value.vel)) ==> r.ui == u
    ensures r.scene.narrationStep == s.narrationStep && r.scene.enabled == s.enabled
    ensures r.scheduled == []
  {
    var particles := Tick(s.particles, dt);
    match s.sparky
    case None => Reaction(s.(particles := particles), u, [])
    case Some(sp) =>
      var moved := sp.(pos := Add(sp.pos, sp.vel));
      var ui := if Far(moved.pos) then ShowNarration(u, DoneText, NextScene) else u;
      Reaction(s.(sparky := Some(moved), particles := particles), ui, [])
  }

  /**
   * cleanup: every object leaves the scene graph and the particle list is
   * emptied; the Sparky reference, the step counter and the interaction
   * flag are kept.
   */
  function Cleanup(s: State, u: Ui): (r: Reaction<State>)
    ensures r.scene.particles == []
    ensures s.sparky.Some? ==> r.scene.sparky == Some(s.sparky.value.(attached := false))
    ensures s.sparky.None? ==> r.scene.sparky.None?
    ensures r.scene.narrationStep == s.narrationStep && r.scene.enabled == s.enabled
    ensures r.ui == HideNarration(u) && r.scheduled == []
  {
    var sparky := match s.sparky
      case None => None
      case Some(sp) => Some(sp.(attached := false));
    Reaction(s.(particles := [], sparky := sparky), HideNarration(u), [])
  }

  /** `n` presses of next on the scene's narration, each running the advance closure. */
  function Advances(s: State, u: Ui, n: nat): Reaction<State>
    decreases n
  {
    if n == 0 then Reaction(s, u, [])
    else
      var r := Advance(s, u);
      Advances(r.scene, r.ui, n - 1)
  }

  /**
   * From any state, `n` advances move the step forward by exactly `n`,
   * never back; interaction is on afterwards exactly when it was on or the
   * step has reached the number of beats; while a beat remains it is the
   * one shown, with the advance closure stored again.
   */
  lemma {:induction false} AdvancesReachBeat(s: State, u: Ui, n: nat)
    ensures var r := Advances(s, u, n);
      && r.scene.narrationStep == s.narrationStep + n
      && r.scene.enabled == (s.enabled || (n > 0 && s.narrationStep + n >= |Beats|))
      && (n > 0 && s.narrationStep + n < |Beats| ==>
            r.ui.narration == Beats[s.narrationStep + n] && r.ui.onNext == Some(SunBeat))
      && r.scene.sparky == s.sparky && r.scene.particles == s.particles
    decreases n
  {
    if n > 0 {
      var r := Advance(s, u);
      AdvancesReachBeat(r.scene, r.ui, n - 1);
    }
  }

  /** Three advances from a fresh scene show beats 0, 1, 2 and enable interaction only at the third. */
  lemma ThirdAdvanceEnables(u: Ui)
    ensures var u0 := ShowNextNarration(Initial(), u);
      var r1 := Advance(Initial(), u0);
      var r2 := Advance(r1.scene, r1.ui);
      var r3 := Advance(r2.scene, r2.ui);
      && u0.narration == Beats[0]
      && r1.ui.narration == Beats[1] && !r1.scene.enabled
      && r2.ui.narration == Beats[2] && !r2.scene.enabled
      && r3.scene.enabled && !r3.ui.narrationVisible && r3.scene.narrationStep == 3
  {
  }

  /** Once the beats are exhausted, a further advance shows nothing and interaction stays on. */
  lemma ExhaustedAdvanceShowsNothing(s: State, u: Ui)
    requires s.narrationStep >= |Beats|
    ensures Advance(s, u).scene.enabled
    ensures Advance(s, u).ui.narration == u.narration
    ensures ShowNextNarration(Advance(s, u).scene, u) == u
  {
  }

  /** A replayed scene keeps its step counter, so its opening shows no beat at all. */
  lemma ReplayShowsNoBeat(s: State, u: Ui, v: Ui)
    requires s.narrationStep >= |Beats|
    ensures ShowNextNarration(Cleanup(s, u).scene, v) == v
  {
  }

  /** After cleanup, a tap on the Sun of a replayed scene throws instead of launching. */
  lemma ReplayLaunchFaults(s: State, u: Ui, v: Ui, drift: Vec2)
    requires s.enabled && s.sparky.Some?
    ensures HandleClick(Cleanup(s, u).scene, v, true, drift) == Threw(DetachedSparky)
  {
  }

  /** Only one Sparky is tracked: a second launch replaces the first and adds ten more sparks. */
  lemma RelaunchReplaces(s: State, u: Ui, d1: Vec2, d2: Vec2)
    requires s.sparky.None? || s.sparky.value.attached
    ensures var r1 := Launch(s, u, d1);
      r1.Ok? && Launch(r1.value.scene, r1.value.ui, d2).Ok? &&
      var r2 := Launch(r1.value.scene, r1.value.ui, d2);
      r2.value.scene.sparky == Some(Sparky(LaunchPoint, Vec3(d2.x, d2.y, LaunchSpeed), true)) &&
      |r2.value.scene.particles| == |s.particles| + 2 * SparkCount
  {
  }

  /** No one-shot guard: two updates past distance 20 speak the closing narration twice. */
  lemma CompletionReissued(s: State, u: Ui, dt: real)
    requires s.sparky.Some?
    requires Far(Add(s.sparky.value.pos, s.sparky.value.vel))
    requires Far(Add(Add(s.sparky.value.pos, s.sparky.value.vel), s.sparky.value.vel))
    ensures var r1 := Update(s, u, dt);
      var r2 := Update(r1.scene, r1.ui, dt);
      r2.ui.audio == u.audio + [Speak(DoneText), Speak(DoneText)] && r2.ui.onNext == Some(NextScene)
  {
  }
}

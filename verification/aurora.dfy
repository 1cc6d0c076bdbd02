/**
 * Scene04, "Pilots & Beautiful Auroras": after a two-beat opening the
 * player paints by pressing and dragging; each press, and each move of
 * more than 0.1 from the last painted point, adds an aurora particle.
 * A hint paints twenty particles if nothing was painted within 3 s, and
 * the Finish button closes the game.
 */
module AuroraScene {
  import Script
  import opened Wrappers
  import opened Events
  import opened Geometry
  import opened Panels
  import opened Particles
  import opened Ui

  datatype State = State(
    enabled: bool,              // enableInteraction
    isDrawing: bool,
    lastDrawPos: Option<Vec2>,  // pointer position of the last painted particle
    particles: seq<Particle>)   // auroraParticles

  const IntroText: Script.Line := Script.RadioCrackling
  const IntroText2: Script.Line := Script.PaintAnAurora
  const DoneText: Script.Line := Script.NaturesLightShow

  const AuroraLife: real := 3.0
  const HintCount: nat := 20
  /** Square of the 0.1 stroke spacing. */
  const SpacingSq: real := 0.01
  const DecayRate: real := 0.3
  const MaxOpacity: real := 0.6

  function Initial(): (s: State)
    ensures !s.enabled && !s.isDrawing && s.lastDrawPos.None? && s.particles == []
  {
    State(false, false, None, [])
  }

  /** init: only the opening timer; nothing is reset. */
  function Init(s: State, u: Ui): (r: Reaction<State>)
    ensures r.scene == s && r.ui == u && r.scheduled == [Opening(3)]
  {
    Reaction(s, u, [Opening(3)])
  }

  function ShowOpening(u: Ui): (r: Ui)
    ensures r.narration == IntroText && r.onNext == Some(AuroraIntro)
  {
    ShowNarration(u, IntroText, AuroraIntro)
  }

  function Intro(u: Ui): (r: Ui)
    ensures r.narration == IntroText2 && r.onNext == Some(AuroraGame)
  {
    ShowNarration(u, IntroText2, AuroraGame)
  }

  /** showAuroraGame: painting on, the panel with its Finish button, and the hint check after 3 s. */
  function ShowGame(s: State, u: Ui): (r: Reaction<State>)
    ensures r.scene == s.(enabled := true)
    ensures r.ui.game == AuroraPanel && r.ui.gameVisible && !r.ui.narrationVisible
    ensures r.scheduled == [AuroraHint]
  {
    Reaction(s.(enabled := true), ShowGameUI(HideNarration(u), AuroraPanel), [AuroraHint])
  }

  /** Hint check: twenty staggered spark timers, but only if nothing has been painted (or all of it faded). */
  function Hint(s: State): (r: seq<Timer>)
    ensures s.particles == [] ==> |r| == HintCount && forall i :: 0 <= i < |r| ==> r[i] == AuroraSpark
    ensures s.particles != [] ==> r == []
  {
    if s.particles == [] then seq(HintCount, _ => AuroraSpark) else []
  }

  /** createAuroraParticle: one more particle with life 3.0 (colour, place and drift are not modelled). */
  function AddParticle(s: State): (r: State)
    ensures r.particles == s.particles + [Particle(AuroraLife)]
    ensures r == s.(particles := r.particles)
  {
    s.(particles := Spawn(s.particles, 1, AuroraLife))
  }

  /** handleMouseDown / handleTouchStart: when enabled, start a stroke at `p` and paint. */
  function MouseDown(s: State, p: Vec2): (r: State)
    ensures s.enabled ==> r == AddParticle(s).(isDrawing := true, lastDrawPos := Some(p))
    ensures !s.enabled ==> r == s
  {
    if !s.enabled then s
    else AddParticle(s).(isDrawing := true, lastDrawPos := Some(p))
  }

  function Gap(a: Vec2, b: Vec2): real {
    (a.x - b.x) * (a.x - b.x) + (a.y - b.y) * (a.y - b.y)
  }

  /** handleMouseMove: while drawing, paint again once the pointer is more than 0.1 from the last painted point. */
  function MouseMove(s: State, p: Vec2): (r: State)
    ensures s.enabled && s.isDrawing && s.lastDrawPos.Some? && Gap(p, s.lastDrawPos.value) > SpacingSq ==>
      r == AddParticle(s).(lastDrawPos := Some(p))
    ensures !(s.enabled && s.isDrawing && s.lastDrawPos.Some? && Gap(p, s.lastDrawPos.value) > SpacingSq) ==>
      r == s
  {
    if s.enabled && s.isDrawing && s.lastDrawPos.Some? && Gap(p, s.lastDrawPos.value) > SpacingSq
    then AddParticle(s).(lastDrawPos := Some(p))
    else s
  }

  /** handleMouseUp / handleTouchEnd: the stroke ends, unconditionally. */
  function MouseUp(s: State): (r: State)
    ensures !r.isDrawing && r.lastDrawPos.None?
    ensures r.enabled == s.enabled && r.particles == s.particles
  {
    s.(isDrawing := false, lastDrawPos := None)
  }

  /** completeGame (Finish button): painting off, panel gone, closing narration. */
  function Finish(s: State, u: Ui): (r: Reaction<State>)
    ensures !r.scene.enabled && r.scene == s.(enabled := false)
    ensures r.ui.game == Empty && r.ui.narration == DoneText && r.ui.onNext == Some(NextScene)
    ensures r.ui.audio == u.audio + [Play(Success), Speak(DoneText)]
    ensures r.scheduled == []
  {
    Reaction(s.(enabled := false), ShowNarration(HideGameUI(PlaySound(u, Success)), DoneText, NextScene), [])
  }

  /** update: every particle loses 0.3 dt of life; expired ones are spliced out. */
  function Update(s: State, dt: real): (r: State)
    ensures r == s.(particles := Tick(s.particles, DecayRate * dt))
    ensures |r.particles| <= |s.particles|
  {
    s.(particles := Tick(s.particles, DecayRate * dt))
  }

  /** Particle opacity, min(0.6, life * 0.2): never above 0.6, and fading linearly below life 3. */
  function Opacity(p: Particle): (r: real)
    ensures r <= MaxOpacity
    ensures p.life <= AuroraLife ==> r == p.life * 0.2
    ensures p.life >= AuroraLife ==> r == MaxOpacity
  {
    if p.life * 0.2 < MaxOpacity then p.life * 0.2 else MaxOpacity
  }

  /** cleanup: the particles and the panel go; flags stay as they were. */
  function Cleanup(s: State, u: Ui): (r: Reaction<State>)
    ensures r.scene == s.(particles := [])
    ensures r.ui.game == Empty && !r.ui.narrationVisible && r.scheduled == []
  {
    Reaction(s.(particles := []), HideNarration(HideGameUI(u)), [])
  }

  /** A stroke is in progress exactly when there is a last painted point; particles are alive and at most 3.0. */
  predicate Valid(s: State) {
    && (s.isDrawing <==> s.lastDrawPos.Some?)
    && AllAlive(s.particles) && AllAtMost(s.particles, AuroraLife)
  }

  lemma InitialValid()
    ensures Valid(Initial())
  {
  }

  /** Every handler keeps the scene valid. */
  lemma {:induction false} HandlersKeepValid(s: State, u: Ui, p: Vec2, dt: real)
    requires Valid(s) && dt >= 0.0
    ensures Valid(ShowGame(s, u).scene)
    ensures Valid(MouseDown(s, p)) && Valid(MouseMove(s, p)) && Valid(MouseUp(s))
    ensures Valid(AddParticle(s))
    ensures Valid(Finish(s, u).scene) && Valid(Cleanup(s, u).scene)
    ensures Valid(Update(s, dt))
  {
    TickKeepsBound(s.particles, DecayRate * dt, AuroraLife);
  }

  /** A move within 0.1 of the last painted point paints nothing, however often repeated. */
  lemma CloseMovesPaintNothing(s: State, p: Vec2)
    requires s.lastDrawPos.Some? && Gap(p, s.lastDrawPos.value) <= SpacingSq
    ensures MouseMove(s, p) == s
  {
  }

  /** Once finished, presses and moves paint nothing. */
  lemma FinishedIgnoresStrokes(s: State, u: Ui, p: Vec2, q: Vec2)
    ensures var f := Finish(s, u).scene;
      MouseDown(f, p) == f && MouseMove(f, q) == f
  {
  }

  /** Per-frame decay with the render loop's fixed frame time. */
  const FrameDecay: real := DecayRate * FrameTime

  /** Aurora particles (life at most 3.0) are all gone after 625 frames more than there are particles. */
  lemma AuroraFades(s: State, n: nat)
    requires Valid(s)
    requires n >= |s.particles| + 625
    ensures Ticks(s.particles, FrameDecay, n) == []
  {
    Drain(s.particles, FrameDecay, AuroraLife, 625, n);
  }
}

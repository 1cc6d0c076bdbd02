/**
 * Scene02, "Sparky Zooms Through Space": after the opening narration the
 * player may drag Sparky (clamped to the play area) while it drifts right
 * on its own, leaving a trail of short-lived particles; rocks it touches
 * are moved away.
 */
module ZoomScene {
  import Script
  import opened Wrappers
  import opened Events
  import opened Geometry
  import opened Particles
  import opened Ui

  datatype State = State(
    isDragging: bool,
    enabled: bool,             // enableInteraction
    sparky: Option<Vec3>,      // Sparky group position, null until init
    trail: seq<Particle>,
    rocks: seq<Vec3>)          // obstacle positions

  const IntroText: Script.Line := Script.RaceAcrossSpace
  const FinaleText: Script.Line := Script.EarthHereIComes

  const Start: Vec3 := Vec3(-8.0, 0.0, 0.0)
  const RockDepth: real := -1.0
  const RockCount: nat := 5
  const MaxX: real := 9.0
  const MaxY: real := 4.0
  const DriftSpeed: real := 0.5
  const TrailLife: real := 1.0
  const TrailChance: real := 0.1

  function Initial(): (s: State)
    ensures !s.isDragging && !s.enabled && s.sparky.None? && s.trail == [] && s.rocks == []
  {
    State(false, false, None, [], [])
  }

  /** Rocks are placed where `spots` says (Math.random), all on the depth plane z = -1. */
  function NewRocks(spots: nat -> Vec2): (r: seq<Vec3>)
    ensures |r| == RockCount
    ensures forall k :: 0 <= k < RockCount ==> r[k] == Vec3(spots(k).x, spots(k).y, RockDepth)
  {
    seq(RockCount, (k: nat) => Vec3(spots(k).x, spots(k).y, RockDepth))
  }

  /** init: Sparky back at its start, five more rocks, opening narration after 3 s. */
  function Init(s: State, u: Ui, spots: nat -> Vec2): (r: Reaction<State>)
    ensures r.scene.sparky == Some(Start)
    ensures r.scene.rocks == s.rocks + NewRocks(spots)
    ensures r.scene.isDragging == s.isDragging && r.scene.enabled == s.enabled
    ensures r.ui == u && r.scheduled == [Opening(1)]
  {
    Reaction(s.(sparky := Some(Start), rocks := s.rocks + NewRocks(spots)), u, [Opening(1)])
  }

  /** Opening timer: the narration whose advance enables dragging. */
  function ShowOpening(u: Ui): (r: Ui)
    ensures r.onNext == Some(ZoomIntro) && r.narration == IntroText
  {
    ShowNarration(u, IntroText, ZoomIntro)
  }

  /** Advance of the opening narration: the only place interaction is switched on. */
  function Intro(s: State, u: Ui): (r: Reaction<State>)
    ensures r.scene == s.(enabled := true)
    ensures !r.ui.narrationVisible && r.scheduled == [ZoomFinale]
  {
    Reaction(s.(enabled := true), HideNarration(u), [ZoomFinale])
  }

  /** Closing timer (10 s after the intro advance). */
  function Finale(u: Ui): (r: Ui)
    ensures r.onNext == Some(NextScene) && r.narration == FinaleText
  {
    ShowNarration(u, FinaleText, NextScene)
  }

  /** handleMouseDown: starts a drag only when enabled and the ray hits Sparky. */
  function MouseDown(s: State, u: Ui, hitsSparky: bool): (r: Reaction<State>)
    ensures r.scene.isDragging == (s.isDragging || (s.enabled && hitsSparky))
    ensures r.scene == s.(isDragging := r.scene.isDragging)
    ensures s.enabled && hitsSparky ==> r.ui.audio == u.audio + [Play(Click)]
    ensures !(s.enabled && hitsSparky) ==> r.ui == u
    ensures r.scheduled == []
  {
    if s.enabled && hitsSparky then Reaction(s.(isDragging := true), PlaySound(u, Click), [])
    else Reaction(s, u, [])
  }

  /** The distance test checkCollisions performs, as written: 3-D distance below 1. */
  predicate CloseAsWritten(sparky: Vec3, rock: Vec3) {
    DistanceSq(sparky, rock) < 1.0
  }

  /** The intended test: Sparky over the rock in the picture plane, depth ignored. */
  predicate Close(sparky: Vec3, rock: Vec3) {
    PlanarDistanceSq(sparky, rock) < 1.0
  }

  /** One boink per rock that `close` selects. */
  function Boinks(sparky: Vec3, rocks: seq<Vec3>, close: (Vec3, Vec3) -> bool): (r: seq<AudioCall>)
    ensures |r| <= |rocks|
    ensures forall i :: 0 <= i < |r| ==> r[i] == Play(Boink)
    ensures r == [] <==> forall k :: 0 <= k < |rocks| ==> !close(sparky, rocks[k])
  {
    if rocks == [] then []
    else
      var rest := Boinks(sparky, rocks[1..], close);
      assert forall k :: 1 <= k < |rocks| ==> rocks[k] == rocks[1..][k - 1];
      (if close(sparky, rocks[0]) then [Play(Boink)] else []) + rest
  }

  /** Rocks that `close` selects jump to new x, y (same depth); the rest stay put. */
  function Relocate(sparky: Vec3, rocks: seq<Vec3>, jump: nat -> Vec2, close: (Vec3, Vec3) -> bool): (r: seq<Vec3>)
    ensures |r| == |rocks|
    ensures forall k :: 0 <= k < |rocks| && !close(sparky, rocks[k]) ==> r[k] == rocks[k]
    ensures forall k :: 0 <= k < |rocks| && close(sparky, rocks[k]) ==>
      r[k] == Vec3(jump(k).x, jump(k).y, rocks[k].z)
  {
    seq(|rocks|, k requires 0 <= k < |rocks| =>
      if close(sparky, rocks[k]) then Vec3(jump(k).x, jump(k).y, rocks[k].z) else rocks[k])
  }

  /** checkCollisions as written in the source. */
  function CheckCollisionsAsWritten(sparky: Vec3, rocks: seq<Vec3>, jump: nat -> Vec2): (r: seq<Vec3>)
    ensures |r| == |rocks|
    ensures forall k :: 0 <= k < |rocks| && !CloseAsWritten(sparky, rocks[k]) ==> r[k] == rocks[k]
  {
    Relocate(sparky, rocks, jump, CloseAsWritten)
  }

  /** checkCollisions with the planar test; the model of dragging uses this one. */
  function CheckCollisions(sparky: Vec3, rocks: seq<Vec3>, jump: nat -> Vec2): (r: seq<Vec3>)
    ensures |r| == |rocks|
    ensures forall k :: 0 <= k < |rocks| && !Close(sparky, rocks[k]) ==> r[k] == rocks[k]
    ensures forall k :: 0 <= k < |rocks| && Close(sparky, rocks[k]) ==>
      r[k] == Vec3(jump(k).x, jump(k).y, rocks[k].z)
  {
    Relocate(sparky, rocks, jump, Close)
  }

  /** Sparky on the z = 0 plane and every rock on z = -1, as init places them. */
  predicate Planes(s: State) {
    && (s.sparky.Some? ==> s.sparky.value.z == 0.0)
    && forall k :: 0 <= k < |s.rocks| ==> s.rocks[k].z == RockDepth
  }

  /** As written, no rock is ever close: a depth gap of one keeps the 3-D distance at least one. */
  lemma AsWrittenNeverRelocates(sparky: Vec3, rocks: seq<Vec3>, jump: nat -> Vec2)
    requires sparky.z == 0.0
    requires forall k :: 0 <= k < |rocks| ==> rocks[k].z == RockDepth
    ensures CheckCollisionsAsWritten(sparky, rocks, jump) == rocks
    ensures Boinks(sparky, rocks, CloseAsWritten) == []
  {
    forall k | 0 <= k < |rocks|
      ensures !CloseAsWritten(sparky, rocks[k])
    {
      DepthGapBoundsDistance(sparky, rocks[k]);
    }
  }

  /** Sparky right over a rock: the planar test moves it, the written test does not. */
  lemma OverlapIsMissedAsWritten()
    ensures var sparky := Vec3(0.0, 0.0, 0.0);
      var rock := Vec3(0.0, 0.0, RockDepth);
      Close(sparky, rock) && !CloseAsWritten(sparky, rock)
  {
  }

  /**
   * handleMouseMove: only while dragging and enabled; Sparky follows the
   * pointer's projection with x clamped to [-9, 9] and y to [-4, 4], then
   * rocks under it are moved.
   */
  function MouseMove(s: State, u: Ui, world: Vec2, jump: nat -> Vec2): (r: Reaction<State>)
    ensures !(s.isDragging && s.enabled) || s.sparky.None? ==> r == Reaction(s, u, [])
    ensures s.isDragging && s.enabled && s.sparky.Some? ==>
      && r.scene.sparky == Some(Vec3(Clamp(world.x, -MaxX, MaxX), Clamp(world.y, -MaxY, MaxY), s.sparky.value.z))
      && -MaxX <= r.scene.sparky.value.x <= MaxX && -MaxY <= r.scene.sparky.value.y <= MaxY
      && r.scene.rocks == CheckCollisions(r.scene.sparky.value, s.rocks, jump)
      && r.ui.audio == u.audio + Boinks(r.scene.sparky.value, s.rocks, Close)
    ensures r.scene.isDragging == s.isDragging && r.scene.enabled == s.enabled && r.scene.trail == s.trail
    ensures r.scheduled == []
  {
    if !(s.isDragging && s.enabled) || s.sparky.None? then Reaction(s, u, [])
    else
      var p := Vec3(Clamp(world.x, -MaxX, MaxX), Clamp(world.y, -MaxY, MaxY), s.sparky.value.z);
      Reaction(s.(sparky := Some(p), rocks := CheckCollisions(p, s.rocks, jump)),
               u.(audio := u.audio + Boinks(p, s.rocks, Close)), [])
  }

  /** handleMouseUp: always ends the drag, whatever the other flags say. */
  function MouseUp(s: State): (r: State)
    ensures !r.isDragging
    ensures r.(isDragging := s.isDragging) == s
  {
    s.(isDragging := false)
  }

  /**
   * update: Sparky drifts right by 0.5 dt unless dragged; with `roll`
   * (Math.random) below 0.1 a trail particle of life 1.0 is added; then
   * every trail particle loses dt and expired ones are spliced out.
   */
  function Update(s: State, dt: real, roll: real): (r: State)
    ensures s.sparky.Some? && !s.isDragging ==>
      r.sparky == Some(s.sparky.value.(x := s.sparky.value.x + DriftSpeed * dt))
    ensures s.sparky.None? || s.isDragging ==> r.sparky == s.sparky
    ensures s.sparky.Some? && roll < TrailChance ==> r.trail == Tick(s.trail + [Particle(TrailLife)], dt)
    ensures !(s.sparky.Some? && roll < TrailChance) ==> r.trail == Tick(s.trail, dt)
    ensures r.isDragging == s.isDragging && r.enabled == s.enabled && r.rocks == s.rocks
  {
    var sparky := if s.sparky.Some? && !s.isDragging
      then Some(s.sparky.value.(x := s.sparky.value.x + DriftSpeed * dt)) else s.sparky;
    var trail := if s.sparky.Some? && roll < TrailChance then s.trail + [Particle(TrailLife)] else s.trail;
    s.(sparky := sparky, trail := Tick(trail, dt))
  }

  /** cleanup: trail and rocks are emptied; drag and interaction flags and Sparky's position stay. */
  function Cleanup(s: State, u: Ui): (r: Reaction<State>)
    ensures r.scene == s.(trail := [], rocks := [])
    ensures r.ui == HideNarration(u) && r.scheduled == []
  {
    Reaction(s.(trail := [], rocks := []), HideNarration(u), [])
  }

  /** Every handler keeps Sparky and the rocks on their planes. */
  lemma PlanesPreserved(s: State, u: Ui, spots: nat -> Vec2, jump: nat -> Vec2,
                        world: Vec2, hit: bool, dt: real, roll: real)
    requires Planes(s)
    ensures Planes(Init(s, u, spots).scene)
    ensures Planes(Intro(s, u).scene)
    ensures Planes(MouseDown(s, u, hit).scene)
    ensures Planes(MouseMove(s, u, world, jump).scene)
    ensures Planes(MouseUp(s))
    ensures Planes(Update(s, dt, roll))
    ensures Planes(Cleanup(s, u).scene)
  {
    var i := Init(s, u, spots).scene;
    assert forall k :: |s.rocks| <= k < |i.rocks| ==> i.rocks[k] == NewRocks(spots)[k - |s.rocks|];
  }

  /** Hence, as written, dragging never moves a rock in any reachable state. */
  lemma DragNeverRelocatesAsWritten(s: State, world: Vec2, jump: nat -> Vec2)
    requires Planes(s) && s.sparky.Some?
    ensures var p := Vec3(Clamp(world.x, -MaxX, MaxX), Clamp(world.y, -MaxY, MaxY), s.sparky.value.z);
      CheckCollisionsAsWritten(p, s.rocks, jump) == s.rocks
  {
    var p := Vec3(Clamp(world.x, -MaxX, MaxX), Clamp(world.y, -MaxY, MaxY), s.sparky.value.z);
    AsWrittenNeverRelocates(p, s.rocks, jump);
  }

  /** Until the opening narration is advanced, a fresh scene ignores presses: no drag can start. */
  lemma PressIgnoredBeforeIntro(u: Ui, spots: nat -> Vec2, hit: bool)
    ensures var s := Init(Initial(), u, spots).scene;
      !MouseDown(s, u, hit).scene.isDragging
  {
  }

  /** Release always ends a drag, and a move after release changes nothing. */
  lemma MoveAfterReleaseIsInert(s: State, u: Ui, world: Vec2, jump: nat -> Vec2)
    ensures MouseMove(MouseUp(s), u, world, jump) == Reaction(MouseUp(s), u, [])
  {
  }
}

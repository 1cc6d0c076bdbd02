/**
 * The scene orchestrator (SceneManager): the eight scene instances built
 * once by the constructor, the index of the current one, loading with
 * cleanup before init, the end-of-story state, the per-frame update and
 * the input forwarders. The manager also owns the dispatch of everything
 * the browser delivers: narration button presses (firing the stored
 * continuation), expiring timers and clicks on the game panel's widgets.
 */
module SceneManager {
  import Script
  import opened Wrappers
  import opened Events
  import opened Geometry
  import opened Panels
  import opened Ui
  import SunScene
  import ZoomScene
  import CableScene
  import AuroraScene
  import DefinitionsScene
  import MemoryScene
  import ShieldScene
  import RestoreScene

  const SceneCount: nat := 8
  const EndText: Script.Line := Script.TheEnd

  /** A position in the scene array. */
  type SceneId = n: nat | n < 8

  /** The scene instances; Scene05 keeps no state of its own and has no field. */
  datatype Scenes = Scenes(
    sun: SunScene.State,
    zoom: ZoomScene.State,
    cables: CableScene.Game,
    aurora: AuroraScene.State,
    memory: MemoryScene.Game,
    shield: ShieldScene.State,
    restore: RestoreScene.State)

  /** Calls the manager makes on scene instances, in order. */
  datatype Call = CleanupOf(scene: SceneId) | InitOf(scene: SceneId)

  datatype Manager = Manager(
    scenes: Scenes,
    index: SceneId,            // currentSceneIndex
    current: Option<SceneId>,  // currentScene, by position; None is null
    ui: Ui,
    timers: multiset<Timer>,   // pending setTimeout callbacks
    trace: seq<Call>,
    faults: seq<Fault>)

  /** Answers of `Math.random` the story needs: rock spots for Scene02 and the shuffled deck for Scene06. */
  datatype Chance = Chance(spots: nat -> Vec2, deck: seq<Symbol>)

  predicate Fair(c: Chance) {
    MemoryScene.IsShuffle(c.deck)
  }

  /** The constructor: every scene in its constructor state, none current, index 0. */
  function Initial(): (m: Manager)
    ensures m.current.None? && m.index == 0 && m.trace == [] && m.timers == multiset{}
  {
    Manager(
      Scenes(SunScene.Initial(), ZoomScene.Initial(), CableScene.Initial(), AuroraScene.Initial(),
             MemoryScene.Initial(), ShieldScene.Initial(), RestoreScene.Initial()),
      0, None, Fresh(), multiset{}, [], [])
  }

  function Schedule(m: Manager, ts: seq<Timer>): Manager {
    m.(timers := m.timers + multiset(ts))
  }

  function WithSun(m: Manager, r: Reaction<SunScene.State>): Manager {
    Schedule(m.(scenes := m.scenes.(sun := r.scene), ui := r.ui), r.scheduled)
  }

  function WithZoom(m: Manager, r: Reaction<ZoomScene.State>): Manager {
    Schedule(m.(scenes := m.scenes.(zoom := r.scene), ui := r.ui), r.scheduled)
  }

  function WithCables(m: Manager, r: Reaction<CableScene.Game>): Manager {
    Schedule(m.(scenes := m.scenes.(cables := r.scene), ui := r.ui), r.scheduled)
  }

  function WithAurora(m: Manager, r: Reaction<AuroraScene.State>): Manager {
    Schedule(m.(scenes := m.scenes.(aurora := r.scene), ui := r.ui), r.scheduled)
  }

  function WithMemory(m: Manager, r: Reaction<MemoryScene.Game>): Manager {
    Schedule(m.(scenes := m.scenes.(memory := r.scene), ui := r.ui), r.scheduled)
  }

  function WithShield(m: Manager, r: Reaction<ShieldScene.State>): Manager {
    Schedule(m.(scenes := m.scenes.(shield := r.scene), ui := r.ui), r.scheduled)
  }

  function WithRestore(m: Manager, r: Reaction<RestoreScene.State>): Manager {
    Schedule(m.(scenes := m.scenes.(restore := r.scene), ui := r.ui), r.scheduled)
  }

  /**
   * What a visit records and no later init or cleanup resets: Scene01's
   * narration step, the matched cables and cards, the cleared waves and the
   * challenge phase, and the restored-system count.
   */
  predicate Kept(a: Scenes, b: Scenes) {
    && b.sun.narrationStep == a.sun.narrationStep
    && b.cables.matched == a.cables.matched
    && b.memory.matched == a.memory.matched
    && b.shield.wavesCleared == a.shield.wavesCleared
    && b.shield.phase == a.shield.phase
    && b.restore == a.restore
  }

  /** Every scene instance except the one at position `n` is as it was. */
  predicate OnlyTouches(a: Scenes, b: Scenes, n: SceneId) {
    && (n != 0 ==> b.sun == a.sun)
    && (n != 1 ==> b.zoom == a.zoom)
    && (n != 2 ==> b.cables == a.cables)
    && (n != 3 ==> b.aurora == a.aurora)
    && (n != 5 ==> b.memory == a.memory)
    && (n != 6 ==> b.shield == a.shield)
    && (n != 7 ==> b.restore == a.restore)
  }

  /** `scenes[n].init()`. */
  function SceneInit(m: Manager, n: SceneId, spots: nat -> Vec2): (r: Manager)
    ensures r.index == m.index && r.current == m.current && r.trace == m.trace && r.faults == m.faults
    ensures m.timers <= r.timers
    ensures Kept(m.scenes, r.scenes)
  {
    var s := m.scenes;
    match n
    case 0 => WithSun(m, SunScene.Init(s.sun, m.ui))
    case 1 => WithZoom(m, ZoomScene.Init(s.zoom, m.ui, spots))
    case 2 => WithCables(m, CableScene.Init(s.cables, m.ui))
    case 3 => WithAurora(m, AuroraScene.Init(s.aurora, m.ui))
    case 4 => Schedule(m, DefinitionsScene.Init(m.ui))
    case 5 => WithMemory(m, MemoryScene.Init(s.memory, m.ui))
    case 6 => WithShield(m, ShieldScene.Init(s.shield, m.ui))
    case 7 => WithRestore(m, RestoreScene.Init(s.restore, m.ui))
  }

  /** `scenes[n].cleanup()`. */
  function SceneCleanup(m: Manager, n: SceneId): (r: Manager)
    ensures r.index == m.index && r.current == m.current && r.trace == m.trace && r.faults == m.faults
    ensures r.timers == m.timers && Kept(m.scenes, r.scenes)
  {
    var s := m.scenes;
    match n
    case 0 => WithSun(m, SunScene.Cleanup(s.sun, m.ui))
    case 1 => WithZoom(m, ZoomScene.Cleanup(s.zoom, m.ui))
    case 2 => WithCables(m, CableScene.Cleanup(s.cables, m.ui))
    case 3 => WithAurora(m, AuroraScene.Cleanup(s.aurora, m.ui))
    case 4 => m.(ui := DefinitionsScene.Cleanup(m.ui))
    case 5 => WithMemory(m, MemoryScene.Cleanup(s.memory, m.ui))
    case 6 => WithShield(m, ShieldScene.Cleanup(s.shield, m.ui))
    case 7 => WithRestore(m, RestoreScene.Cleanup(s.restore, m.ui))
  }

  /** The cleanup call a load or a manager cleanup makes: one for the current scene, none without one. */
  function Teardown(m: Manager): seq<Call> {
    if m.current.Some? then [CleanupOf(m.current.value)] else []
  }

  /** The progress bar width for scene `i`, in percent. */
  function Progress(i: SceneId): (p: real)
    ensures 0.0 < p <= 100.0
    ensures p == 100.0 <==> i == SceneCount - 1
    ensures p * SceneCount as real == (i + 1) as real * 100.0
  {
    ((i + 1) as real / SceneCount as real) * 100.0
  }

  /**
   * loadScene: an index outside the array only shows the end notice,
   * whose advance loads scene 0; otherwise the current scene is cleaned
   * up, the new one becomes current and is initialised, and progress and
   * indicator are updated.
   */
  function LoadScene(m: Manager, index: int, spots: nat -> Vec2): (r: Manager)
    ensures !(0 <= index < SceneCount) ==> r == m.(ui := ShowNarration(m.ui, EndText, RestartStory))
    ensures 0 <= index < SceneCount ==>
      && r.index == index && r.current == Some(index as SceneId)
      && r.trace == m.trace + Teardown(m) + [InitOf(index as SceneId)]
      && r.ui.progress == Progress(index as SceneId)
      && ParseIndicator(r.ui.indicator) == Some((index + 1, SceneCount))
      && r.ui.narratorVisible
    ensures r.faults == m.faults && m.timers <= r.timers
    ensures Kept(m.scenes, r.scenes)
  {
    if !(0 <= index < SceneCount) then m.(ui := ShowNarration(m.ui, EndText, RestartStory))
    else
      var a := if m.current.Some? then SceneCleanup(m, m.current.value) else m;
      var b := SceneInit(a.(index := index, current := Some(index as SceneId), trace := m.trace + Teardown(m)),
                         index, spots);
      var u := UpdateSceneIndicator(UpdateProgress(b.ui, Progress(index)), index + 1, SceneCount);
      b.(trace := b.trace + [InitOf(index as SceneId)], ui := u.(narratorVisible := true))
  }

  /** nextScene: the load of the following index; past the last scene, only the end notice. */
  function NextScene(m: Manager, spots: nat -> Vec2): (r: Manager)
    ensures m.index + 1 < SceneCount ==>
      r.index == m.index + 1 && r.current == Some(m.index + 1)
      && r.trace == m.trace + Teardown(m) + [InitOf(m.index + 1)]
    ensures m.index + 1 == SceneCount ==>
      r.current == m.current && r.index == m.index && r.trace == m.trace && r.scenes == m.scenes
      && r.ui.onNext == Some(RestartStory) && r.ui.narration == EndText
  {
    LoadScene(m, m.index + 1, spots)
  }

  /** cleanup: the current scene's cleanup, once, and no scene current; narration and panel hidden. */
  function Cleanup(m: Manager): (r: Manager)
    ensures r.current.None? && r.index == m.index
    ensures r.trace == m.trace + Teardown(m)
    ensures !r.ui.narrationVisible && r.ui.game == Empty && r.timers == m.timers
  {
    var a := if m.current.Some? then SceneCleanup(m, m.current.value) else m;
    a.(current := None, trace := m.trace + Teardown(m), ui := HideGameUI(HideNarration(a.ui)))
  }

  /** update: only the current scene's update runs; scenes without particles or flags to tick change nothing. */
  function Update(m: Manager, dt: real, roll: real): (r: Manager)
    ensures m.current.None? ==> r == m
    ensures m.current.Some? ==> OnlyTouches(m.scenes, r.scenes, m.current.value)
    ensures r.index == m.index && r.current == m.current && r.trace == m.trace && r.timers == m.timers
  {
    if m.current.None? then m
    else
      var s := m.scenes;
      match m.current.value
      case 0 => WithSun(m, SunScene.Update(s.sun, m.ui, dt))
      case 1 => m.(scenes := s.(zoom := ZoomScene.Update(s.zoom, dt, roll)))
      case 3 => m.(scenes := s.(aurora := AuroraScene.Update(s.aurora, dt)))
      case _ => m
  }

  /** The pointer handlers the manager forwards. */
  datatype Input =
    | HandleClick | HandleMouseDown | HandleMouseMove | HandleMouseUp
    | HandleTouchStart | HandleTouchMove | HandleTouchEnd

  /**
   * What the browser and the scene graph answer for one pointer event:
   * ray-cast hits, the pointer's world position, the pointer itself in
   * normalised coordinates, and the random numbers the handler draws.
   */
  datatype Probe = Probe(
    hitsSun: bool, drift: Vec2,
    hitsSparky: bool, world: Vec2, jump: nat -> Vec2,
    pointer: Vec2,
    wave: Option<nat>)

  /** Which scenes define which handler: Scene01 and Scene07 a click handler, Scene02 and Scene04 the six drag handlers. */
  predicate HasHandler(n: SceneId, i: Input) {
    if i == HandleClick then n == 0 || n == 6 else n == 1 || n == 3
  }

  /** The touch handlers of the scenes delegate to their mouse handlers. */
  function AsMouse(i: Input): (r: Input)
    ensures r != HandleTouchStart && r != HandleTouchMove && r != HandleTouchEnd
    ensures i != HandleTouchStart && i != HandleTouchMove && i != HandleTouchEnd ==> r == i
  {
    match i
    case HandleTouchStart => HandleMouseDown
    case HandleTouchMove => HandleMouseMove
    case HandleTouchEnd => HandleMouseUp
    case _ => i
  }

  /** The scene's handler for `i`, run on scene `n`. */
  function Handle(m: Manager, n: SceneId, i: Input, p: Probe): Manager
    requires HasHandler(n, i)
  {
    var s := m.scenes;
    match (n, AsMouse(i))
    case (0, _) =>
      (match SunScene.HandleClick(s.sun, m.ui, p.hitsSun, p.drift)
       case Ok(r) => WithSun(m, r)
       case Threw(e) => m.(faults := m.faults + [e]))
    case (6, _) => WithShield(m, ShieldScene.HandleClick(s.shield, m.ui, p.wave))
    case (1, HandleMouseDown) => WithZoom(m, ZoomScene.MouseDown(s.zoom, m.ui, p.hitsSparky))
    case (1, HandleMouseMove) => WithZoom(m, ZoomScene.MouseMove(s.zoom, m.ui, p.world, p.jump))
    case (1, _) => m.(scenes := s.(zoom := ZoomScene.MouseUp(s.zoom)))
    case (3, HandleMouseDown) => m.(scenes := s.(aurora := AuroraScene.MouseDown(s.aurora, p.pointer)))
    case (3, HandleMouseMove) => m.(scenes := s.(aurora := AuroraScene.MouseMove(s.aurora, p.pointer)))
    case (3, _) => m.(scenes := s.(aurora := AuroraScene.MouseUp(s.aurora)))
  }

  /** handleClick, handleMouse*, handleTouch*: to the current scene, and only if it has that handler. */
  function Forward(m: Manager, i: Input, p: Probe): (r: Manager)
    ensures m.current.None? || !HasHandler(m.current.value, i) ==> r == m
    ensures m.current.Some? ==> OnlyTouches(m.scenes, r.scenes, m.current.value)
    ensures r.index == m.index && r.current == m.current && r.trace == m.trace
  {
    if m.current.None? || !HasHandler(m.current.value, i) then m
    else Handle(m, m.current.value, i, p)
  }

  /** Run a stored continuation. */
  function Fire(m: Manager, k: Cont, c: Chance): (r: Manager)
    requires Fair(c)
    ensures k.RestartStory? ==> r == LoadScene(m, 0, c.spots)
    ensures k.NextScene? ==> r == NextScene(m, c.spots)
    ensures !k.RestartStory? && !k.NextScene? ==>
      r.index == m.index && r.current == m.current && r.trace == m.trace
  {
    var s := m.scenes;
    match k
    case RestartStory => LoadScene(m, 0, c.spots)
    case NextScene => NextScene(m, c.spots)
    case SunBeat => WithSun(m, SunScene.Advance(s.sun, m.ui))
    case ZoomIntro => WithZoom(m, ZoomScene.Intro(s.zoom, m.ui))
    case CableIntro => m.(ui := CableScene.Intro(m.ui))
    case CableGame => m.(ui := CableScene.ShowGame(m.ui))
    case AuroraIntro => m.(ui := AuroraScene.Intro(m.ui))
    case AuroraGame => WithAurora(m, AuroraScene.ShowGame(s.aurora, m.ui))
    case DefinitionsGame => m.(ui := DefinitionsScene.ShowGame(m.ui))
    case MemoryGame => WithMemory(m, MemoryScene.ShowGame(s.memory, m.ui, c.deck))
    case ShieldIntro => m.(ui := ShieldScene.Intro(m.ui))
    case ShieldGame => WithShield(m, ShieldScene.ShowChallenge(s.shield, m.ui))
    case RadioGame => m.(ui := ShieldScene.ShowRadio(m.ui))
    case RestoreIntro => m.(ui := RestoreScene.Intro(m.ui))
    case RestoreGame => m.(ui := RestoreScene.ShowGame(m.ui))
    case StoryEpilogue => m.(ui := RestoreScene.Epilogue(m.ui))
    case StoryFinal => m.(ui := RestoreScene.ShowFinal(m.ui))
  }

  /** The next button: click sound, then the stored continuation if there is one. */
  function NextButton(m: Manager, c: Chance): (r: Manager)
    requires Fair(c)
    ensures m.ui.onNext.None? ==> r == m.(ui := m.ui.(audio := m.ui.audio + [Play(Click)]))
    ensures m.ui.onNext.Some? ==>
      r == Fire(m.(ui := m.ui.(audio := m.ui.audio + [Play(Click)])), m.ui.onNext.value, c)
  {
    var p := PressNext(m.ui);
    if p.fired.Some? then Fire(m.(ui := p.ui), p.fired.value, c) else m.(ui := p.ui)
  }

  /** The skip button: click sound, speech stopped, then the stored continuation if there is one. */
  function SkipButton(m: Manager, c: Chance): (r: Manager)
    requires Fair(c)
    ensures m.ui.onNext.None? ==> r == m.(ui := m.ui.(audio := m.ui.audio + [Play(Click), StopSpeaking]))
    ensures m.ui.onNext.Some? ==>
      r == Fire(m.(ui := m.ui.(audio := m.ui.audio + [Play(Click), StopSpeaking])), m.ui.onNext.value, c)
  {
    var p := PressSkip(m.ui);
    if p.fired.Some? then Fire(m.(ui := p.ui), p.fired.value, c) else m.(ui := p.ui)
  }

  /** A pending timer fires: its callback runs on its own scene instance, current or not. */
  function FireTimer(m: Manager, t: Timer): (r: Manager)
    requires t in m.timers
    ensures r.index == m.index && r.current == m.current && r.trace == m.trace
    ensures m.timers - multiset{t} <= r.timers
    ensures !t.AuroraHint? && !t.MemoryResolve? ==> r.timers == m.timers - multiset{t}
  {
    var n := m.(timers := m.timers - multiset{t});
    var s := n.scenes;
    match t
    case Opening(k) =>
      if k == 0 then n.(ui := SunScene.ShowNextNarration(s.sun, n.ui))
      else if k == 1 then n.(ui := ZoomScene.ShowOpening(n.ui))
      else if k == 2 then n.(ui := CableScene.ShowOpening(n.ui))
      else if k == 3 then n.(ui := AuroraScene.ShowOpening(n.ui))
      else if k == 4 then n.(ui := DefinitionsScene.ShowOpening(n.ui))
      else if k == 5 then n.(ui := MemoryScene.ShowOpening(n.ui))
      else if k == 6 then n.(ui := ShieldScene.ShowOpening(n.ui))
      else if k == 7 then n.(ui := RestoreScene.ShowOpening(n.ui))
      else n
    case ZoomFinale => n.(ui := ZoomScene.Finale(n.ui))
    case CableComplete => n.(ui := CableScene.Complete(n.ui))
    case AuroraHint => Schedule(n, AuroraScene.Hint(s.aurora))
    case AuroraSpark => n.(scenes := s.(aurora := AuroraScene.AddParticle(s.aurora)))
    case MemoryResolve =>
      (match MemoryScene.Resolve(s.memory, n.ui)
       case Ok(r) => WithMemory(n, r)
       case Threw(e) => n.(faults := n.faults + [e]))
    case MemoryComplete => n.(ui := MemoryScene.Complete(n.ui))
    case ShieldExpire => n.(scenes := s.(shield := ShieldScene.ShieldExpired(s.shield)))
    case PilotPhase => WithShield(n, ShieldScene.ShowPilot(s.shield, n.ui))
    case RadioComplete => n.(ui := ShieldScene.Complete(n.ui))
    case RestoreComplete => n.(ui := RestoreScene.CompleteStory(n.ui))
  }

  /** Clicks, drags and drops on the elements of the game panel. */
  datatype Widget =
    | CableGrab(cable: Colour)      // dragstart or touchstart on a cable
    | CableTap(cable: Colour)       // click on a cable
    | SocketDrop(socket: Colour)
    | SocketTap(socket: Colour)
    | FinishAurora
    | Card(card: nat)
    | ShieldButton(near: set<nat>)  // waves within reach of Alex when pressed
    | RadioButton(button: Colour)
    | SystemButton(system: System)
    | ContinueButton
    | RestartButton

  /** Whether the widget is on screen: the panel holding it is mounted and the element is shown. */
  predicate OnScreen(p: Panel, w: Widget) {
    match w
    case CableGrab(c) => p.CablePanel? && c !in p.hidden
    case CableTap(c) => p.CablePanel? && c !in p.hidden
    case SocketDrop(_) => p.CablePanel?
    case SocketTap(_) => p.CablePanel?
    case FinishAurora => p.AuroraPanel?
    case Card(i) => p.MemoryPanel? && i < |p.deck|
    case ShieldButton(_) => p.ShieldPanel?
    case RadioButton(c) => p.RadioPanel? && c != Yellow
    case SystemButton(_) => p.RestorePanel?
    case ContinueButton => p.DefinitionsPanel?
    case RestartButton => p == FinalPanel
  }

  /** A widget event; one on an element that is not on screen cannot happen and changes nothing. */
  function Press(m: Manager, w: Widget, spots: nat -> Vec2): (r: Manager)
    ensures !OnScreen(m.ui.game, w) ==> r == m
    ensures OnScreen(m.ui.game, w) && w == RestartButton ==> r == LoadScene(m.(ui := PlaySound(m.ui, Events.Sound.Click)), 0, spots)
    ensures w != RestartButton ==> r.index == m.index && r.current == m.current && r.trace == m.trace
  {
    var s := m.scenes;
    var u := m.ui;
    if !OnScreen(u.game, w) then m
    else match w
      case CableGrab(c) => m.(scenes := s.(cables := CableScene.Grab(s.cables, c)))
      case CableTap(c) => WithCables(m, CableScene.CableClick(s.cables, u, c))
      case SocketDrop(c) => WithCables(m, CableScene.Drop(s.cables, u, c))
      case SocketTap(c) => WithCables(m, CableScene.SocketClick(s.cables, u, c))
      case FinishAurora => WithAurora(m, AuroraScene.Finish(s.aurora, u))
      case Card(i) => WithMemory(m, MemoryScene.CardClick(s.memory, u, i))
      case ShieldButton(near) => WithShield(m, ShieldScene.ActivateShield(s.shield, u, near))
      case RadioButton(c) =>
        var r := ShieldScene.RadioPress(u, c);
        Schedule(m.(ui := r.ui), r.scheduled)
      case SystemButton(y) => WithRestore(m, RestoreScene.Tap(s.restore, u, y))
      case ContinueButton => m.(ui := DefinitionsScene.Continue(u))
      case RestartButton => LoadScene(m.(ui := PlaySound(u, Events.Sound.Click)), 0, spots)
  }

  /** The scene whose init is the latest call in the trace with no cleanup after it. */
  function Open(t: seq<Call>): Option<SceneId> {
    if t == [] then None
    else match t[|t| - 1]
      case InitOf(n) => Some(n)
      case CleanupOf(_) => None
  }

  /** Each cleanup is of the scene last initialised, and a scene is initialised only once the previous one is cleaned up. */
  predicate Proper(t: seq<Call>)
    decreases |t|
  {
    t == [] ||
    (var pre := t[..|t| - 1];
     && Proper(pre)
     && match t[|t| - 1]
        case InitOf(_) => Open(pre).None?
        case CleanupOf(n) => Open(pre) == Some(n))
  }

  /** A current scene is the one at the current index, and the call history accounts for it. */
  predicate Valid(m: Manager) {
    && (m.current.Some? ==> m.current.value == m.index)
    && Proper(m.trace)
    && Open(m.trace) == m.current
  }

  lemma InitialValid()
    ensures Valid(Initial())
  {
  }

  /** The calls a load or a cleanup appends keep the history proper and leave it pointing at the new current scene. */
  lemma {:induction false} TeardownProper(m: Manager)
    requires Valid(m)
    ensures Proper(m.trace + Teardown(m)) && Open(m.trace + Teardown(m)).None?
  {
    if m.current.Some? {
      var t := m.trace + [CleanupOf(m.current.value)];
      assert t[..|t| - 1] == m.trace;
    } else {
      assert m.trace + Teardown(m) == m.trace;
    }
  }

  lemma {:induction false} AppendInit(t: seq<Call>, n: SceneId)
    requires Proper(t) && Open(t).None?
    ensures Proper(t + [InitOf(n)]) && Open(t + [InitOf(n)]) == Some(n)
  {
    var u := t + [InitOf(n)];
    assert u[..|u| - 1] == t;
  }

  lemma LoadKeepsValid(m: Manager, index: int, spots: nat -> Vec2)
    requires Valid(m)
    ensures Valid(LoadScene(m, index, spots))
  {
    if 0 <= index < SceneCount {
      LoadedValid(m, LoadScene(m, index, spots), index as SceneId);
    }
  }

  lemma CleanupKeepsValid(m: Manager)
    requires Valid(m)
    ensures Valid(Cleanup(m))
  {
    TeardownProper(m);
  }

  /** Everything that can happen to the manager from outside. */
  datatype Event =
    | Load(index: int)
    | Advance
    | Leave
    | Frame(dt: real, roll: real)
    | Pointer(input: Input, probe: Probe)
    | NextPressed
    | SkipPressed
    | Expire(timer: Timer)
    | WidgetEvent(widget: Widget)

  /**
   * One event, with `c` the random draws it may need. The skip button is
   * hidden by hideNarration and shown by showNarration, and a hidden button
   * cannot be clicked; a timer that is not pending cannot expire. Both
   * change nothing.
   */
  function Step(m: Manager, e: Event, c: Chance): (r: Manager)
    requires Fair(c)
    ensures e.SkipPressed? && !m.ui.skipVisible ==> r == m
    ensures e.SkipPressed? && m.ui.skipVisible ==> r == SkipButton(m, c)
    ensures e.NextPressed? ==> r == NextButton(m, c)
    ensures e.Expire? && e.timer !in m.timers ==> r == m
    ensures e.Expire? && e.timer in m.timers ==> r == FireTimer(m, e.timer)
    ensures e.WidgetEvent? && !OnScreen(m.ui.game, e.widget) ==> r == m
    ensures e.Load? ==> r == LoadScene(m, e.index, c.spots)
    ensures e.Advance? ==> r == NextScene(m, c.spots)
    ensures e.Leave? ==> r.current.None? && r.index == m.index
  {
    match e
    case Load(i) => LoadScene(m, i, c.spots)
    case Advance => NextScene(m, c.spots)
    case Leave => Cleanup(m)
    case Frame(dt, roll) => Update(m, dt, roll)
    case Pointer(i, p) => Forward(m, i, p)
    case NextPressed => NextButton(m, c)
    case SkipPressed => if m.ui.skipVisible then SkipButton(m, c) else m
    case Expire(t) => if t in m.timers then FireTimer(m, t) else m
    case WidgetEvent(w) => Press(m, w, c.spots)
  }

  lemma FireKeepsValid(m: Manager, k: Cont, c: Chance)
    requires Valid(m) && Fair(c)
    ensures Valid(Fire(m, k, c))
  {
    match k
    case RestartStory => LoadKeepsValid(m, 0, c.spots);
    case NextScene => NextKeepsValid(m, c.spots);
    case _ =>
  }

  lemma ButtonsKeepValid(m: Manager, c: Chance)
    requires Valid(m) && Fair(c)
    ensures Valid(NextButton(m, c)) && Valid(SkipButton(m, c))
  {
    if m.ui.onNext.Some? {
      FireKeepsValid(m.(ui := m.ui.(audio := m.ui.audio + [Play(Click)])), m.ui.onNext.value, c);
      FireKeepsValid(m.(ui := m.ui.(audio := m.ui.audio + [Play(Click), StopSpeaking])), m.ui.onNext.value, c);
    }
  }

  lemma PressKeepsValid(m: Manager, w: Widget, spots: nat -> Vec2)
    requires Valid(m)
    ensures Valid(Press(m, w, spots))
  {
    if OnScreen(m.ui.game, w) && w.RestartButton? {
      LoadKeepsValid(m.(ui := PlaySound(m.ui, Events.Sound.Click)), 0, spots);
    }
  }

  lemma StepKeepsValid(m: Manager, e: Event, c: Chance)
    requires Valid(m) && Fair(c)
    ensures Valid(Step(m, e, c))
  {
    if e.Load? || e.Advance? || e.Leave? {
      LoadStepKeepsValid(m, e, c);
    } else if e.NextPressed? || e.SkipPressed? || e.WidgetEvent? {
      PressStepKeepsValid(m, e, c);
    } else {
      QuietStepKeepsValid(m, e, c);
    }
  }

  /** Loads, advances and leaves keep the history proper. */
  lemma LoadStepKeepsValid(m: Manager, e: Event, c: Chance)
    requires Valid(m) && Fair(c) && (e.Load? || e.Advance? || e.Leave?)
    ensures Valid(Step(m, e, c))
  {
    if e.Load? {
      LoadEventKeepsValid(m, e.index, c);
    } else if e.Advance? {
      AdvanceEventKeepsValid(m, c);
    } else {
      LeaveEventKeepsValid(m, c);
    }
  }

  lemma LoadEventKeepsValid(m: Manager, i: int, c: Chance)
    requires Valid(m) && Fair(c)
    ensures Valid(Step(m, Load(i), c))
  {
    LoadKeepsValid(m, i, c.spots);
  }

  lemma AdvanceEventKeepsValid(m: Manager, c: Chance)
    requires Valid(m) && Fair(c)
    ensures Valid(Step(m, Advance, c))
  {
    NextKeepsValid(m, c.spots);
  }

  lemma NextKeepsValid(m: Manager, spots: nat -> Vec2)
    requires Valid(m)
    ensures Valid(NextScene(m, spots))
  {
    var r := NextScene(m, spots);
    if m.index + 1 < SceneCount {
      LoadedValid(m, r, m.index + 1);
    } else {
      SameSceneKeepsValid(m, r);
    }
  }

  /** A state reached by cleaning up the current scene of a valid one and initialising scene `n` is valid. */
  lemma LoadedValid(m: Manager, r: Manager, n: SceneId)
    requires Valid(m) && r.index == n && r.current == Some(n)
    requires r.trace == m.trace + Teardown(m) + [InitOf(n)]
    ensures Valid(r)
  {
    TeardownProper(m);
    AppendInit(m.trace + Teardown(m), n);
  }

  lemma LeaveEventKeepsValid(m: Manager, c: Chance)
    requires Valid(m) && Fair(c)
    ensures Valid(Step(m, Leave, c))
  {
    CleanupKeepsValid(m);
  }

  /** Button presses and panel presses keep the history proper. */
  lemma PressStepKeepsValid(m: Manager, e: Event, c: Chance)
    requires Valid(m) && Fair(c) && (e.NextPressed? || e.SkipPressed? || e.WidgetEvent?)
    ensures Valid(Step(m, e, c))
  {
    if e.NextPressed? {
      NextEventKeepsValid(m, c);
    } else if e.SkipPressed? {
      SkipEventKeepsValid(m, c);
    } else {
      WidgetEventKeepsValid(m, e.widget, c);
    }
  }

  lemma NextEventKeepsValid(m: Manager, c: Chance)
    requires Valid(m) && Fair(c)
    ensures Valid(Step(m, NextPressed, c))
  {
    ButtonsKeepValid(m, c);
  }

  lemma SkipEventKeepsValid(m: Manager, c: Chance)
    requires Valid(m) && Fair(c)
    ensures Valid(Step(m, SkipPressed, c))
  {
    if m.ui.skipVisible {
      ButtonsKeepValid(m, c);
    } else {
      SameSceneKeepsValid(m, Step(m, SkipPressed, c));
    }
  }

  lemma WidgetEventKeepsValid(m: Manager, w: Widget, c: Chance)
    requires Valid(m) && Fair(c)
    ensures Valid(Step(m, WidgetEvent(w), c))
  {
    PressKeepsValid(m, w, c.spots);
  }

  /** Frames, pointer input and timers never load or clean up a scene. */
  lemma QuietStepKeepsValid(m: Manager, e: Event, c: Chance)
    requires Valid(m) && Fair(c) && (e.Frame? || e.Pointer? || e.Expire?)
    ensures Valid(Step(m, e, c))
  {
    match e
    case Frame(dt, roll) => SameSceneKeepsValid(m, Update(m, dt, roll));
    case Pointer(i, p) => SameSceneKeepsValid(m, Forward(m, i, p));
    case Expire(t) => if t in m.timers { SameSceneKeepsValid(m, FireTimer(m, t)); }
  }

  /** Frames, pointer input, timers and every widget but restart leave the scene and its history alone. */
  lemma StepKeepsScene(m: Manager, e: Event, c: Chance)
    requires Fair(c) && (e.Frame? || e.Pointer? || e.Expire? || (e.WidgetEvent? && e.widget != RestartButton))
    ensures var r := Step(m, e, c);
      r.index == m.index && r.current == m.current && r.trace == m.trace
  {
  }

  /** A state with the same index, current scene and history as a valid one is valid. */
  lemma SameSceneKeepsValid(m: Manager, r: Manager)
    requires Valid(m) && r.index == m.index && r.current == m.current && r.trace == m.trace
    ensures Valid(r)
  {
  }

  /** Every draw of a run is one the page can make. */
  predicate AllFair(cs: seq<Chance>) {
    forall k :: 0 <= k < |cs| ==> Fair(cs[k])
  }

  /** A run of events from one state; event `k` makes its random draws `cs[k]` afresh. */
  function Run(m: Manager, es: seq<Event>, cs: seq<Chance>): Manager
    requires |cs| == |es| && AllFair(cs)
    decreases |es|
  {
    if es == [] then m else Run(Step(m, es[0], cs[0]), es[1..], cs[1..])
  }

  /** No sequence of events breaks the invariant: scenes are cleaned up exactly once, before the next init. */
  lemma {:induction false} RunKeepsValid(m: Manager, es: seq<Event>, cs: seq<Chance>)
    requires Valid(m) && |cs| == |es| && AllFair(cs)
    ensures Valid(Run(m, es, cs))
    decreases |es|
  {
    if es != [] {
      assert Fair(cs[0]);
      var n := Step(m, es[0], cs[0]);
      StepKeepsValid(m, es[0], cs[0]);
      assert AllFair(cs[1..]) by {
        forall k | 0 <= k < |cs| - 1 ensures Fair(cs[1..][k]) {
          assert cs[1..][k] == cs[k + 1];
        }
      }
      RunKeepsValid(n, es[1..], cs[1..]);
      assert Run(m, es, cs) == Run(n, es[1..], cs[1..]);
    }
  }

  /** The end notice after the last scene leaves scene 7 current; its advance cleans it up and starts the story over. */
  lemma EndThenRestart(m: Manager, c: Chance)
    requires Valid(m) && Fair(c) && m.index == SceneCount - 1 && m.current.Some?
    ensures var e := NextScene(m, c.spots);
      && e.current == Some(7) && e.ui.onNext == Some(RestartStory)
      && var r := NextButton(e, c);
      && r.index == 0 && r.current == Some(0)
      && r.trace == m.trace + [CleanupOf(7), InitOf(0)]
  {
    var e := NextScene(m, c.spots);
    assert e.trace == m.trace && e.current == Some(7);
    RestartPress(e, c);
  }

  /** A next press on the end notice, with scene 7 current, cleans scene 7 up and initialises scene 0. */
  lemma RestartPress(e: Manager, c: Chance)
    requires Fair(c) && e.current == Some(7) && e.ui.onNext == Some(RestartStory)
    ensures var r := NextButton(e, c);
      && r.index == 0 && r.current == Some(0)
      && r.trace == e.trace + [CleanupOf(7), InitOf(0)]
  {
    var pressed := e.(ui := e.ui.(audio := e.ui.audio + [Play(Click)]));
    assert NextButton(e, c) == LoadScene(pressed, 0, c.spots);
    assert Teardown(pressed) == [CleanupOf(7)];
  }

  /** The touch handlers do exactly what the mouse handlers do. */
  lemma TouchIsMouse(m: Manager, i: Input, p: Probe)
    ensures Forward(m, i, p) == Forward(m, AsMouse(i), p)
  {
  }

  /**
   * Timers are never cancelled: the pending opening of Scene02 still
   * takes over the narration, and its advance, after the story has moved
   * on to another scene.
   */
  lemma StaleOpeningTakesOver(m: Manager)
    requires Opening(1) in m.timers && m.current.Some? && m.current.value != 1
    ensures var r := FireTimer(m, Opening(1));
      && r.current == m.current
      && r.ui.narration == ZoomScene.IntroText && r.ui.onNext == Some(ZoomIntro)
      && r.timers == m.timers - multiset{Opening(1)}
  {
  }

  /** Once all four systems were restored, a later visit to Scene08 never schedules the ending again. */
  lemma ReplayedRestoreNeverCompletes(m: Manager, y: System, spots: nat -> Vec2)
    requires m.scenes.restore.fixedSystems >= RestoreScene.Needed
    ensures Press(m, SystemButton(y), spots).timers == m.timers
  {
  }
}

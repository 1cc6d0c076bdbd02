# Space weather story: a Dafny model of the scene logic

The application is an eight-scene interactive story for children, drawn with three.js. A scene manager
holds the eight scene objects. It loads one at a time, always cleaning up the previous scene first, and
shows an end notice past the last scene. A UI manager keeps one pending "next" continuation. The next and
skip buttons fire it. Each scene runs a narration chain and then a small game:
- launching Sparky from the Sun (Scene01);
- dragging Sparky past rocks (Scene02);
- matching cables to sockets (Scene03);
- painting an aurora (Scene04);
- a dictionary panel (Scene05);
- a memory-pairs game (Scene06);
- clearing radiation waves, then a radio sequence (Scene07);
- restoring four systems (Scene08).

This project models the discrete state on top of the drawing code. Everything is an immutable record
stepped by pure functions:

- `Ui` is the UI manager's state. It holds:
  - narration visibility;
  - the `onNextCallback` slot, as an `Option<Cont>`;
  - the mounted game panel (`Panels.Panel`), which holds the per-element DOM state (hidden cables,
    turned cards, restored buttons, the radio step);
  - progress and scene indicator;
  - the list of audio calls made.
- Each scene module (`SunScene`, `ZoomScene`, `CableScene`, `AuroraScene`, `DefinitionsScene`,
  `MemoryScene`, `ShieldScene`, `RestoreScene`) has:
  - a state record with the scene object's fields;
  - one function per handler, returning a `Reaction`: the new state, the new UI, and the `setTimeout`
    callbacks it scheduled (`Events.Timer`).
- `SceneManager` owns the eight scene states, the current index and scene, the pending timers (a multiset,
  fired in any order) and a trace of `cleanup`/`init` calls. It dispatches:
  - loads, frames and pointer input;
  - next and skip presses, which fire the stored continuation (`Fire`); skip only while its button is shown;
  - timers (`FireTimer`);
  - clicks on the panel's widgets (`Press`), which only happen for widgets on screen.
- Narration texts, shown and spoken, are `Script.Line` names, one constructor per distinct text the scenes pass to the UI.
- Ray-cast answers, unprojected pointer positions, `Math.random` results and the shuffled deck are inputs
  to the handlers (`Probe`, `Chance`, the `spots`/`jump` position functions). Each event of a run gets
  its own `Chance`, so every deal and every rock placement is drawn afresh.
- `Particles.Tick` is the `forEach` + `splice` update pass that all three particle lists share. It keeps
  the source's skip of the element right after a removed one. `ForEachSplice` runs the index loop step by
  step, and `Compact` is the mark-and-compact pass it is compared with.

Behaviour that looks accidental is modelled as written:
- scene objects are built once, so counters survive a replay;
- completion tests are exact equalities with no one-shot guard;
- a cable drop keeps the selection, so a colour can be counted twice;
- a wrong radio press, Red included, restarts at zero;
- timers are never cancelled.

The code cancels no timer: a pending timer fires on its own scene object even after the story has
moved on (`SceneManager.StaleOpeningTakesOver`). The one defect recorded under "Findings" is
corrected in the model, and the as-written behaviour is kept beside it.

## Model

| member | source | states |
|---|---|---|
| SceneManager.Initial | scripts/SceneManager.js:18-30 | the constructor leaves no scene current, index 0, no calls made and no timers pending |
| SceneManager.LoadScene | scripts/SceneManager.js:33-54 | an index outside [0, 8) changes nothing but the narration, which becomes the end notice whose advance restarts the story. In range: the current scene's cleanup (none if there is no current scene) is traced before the new scene's init. The new index and scene become current, progress is (index+1)/8·100, the indicator reads back as (index+1, 8) and the narrator is shown. Scene progress kept by earlier visits is never reset |
| SceneManager.Progress | scripts/SceneManager.js:50 | progress lies in (0, 100], is 100 exactly for the last scene, and 8·progress = (index+1)·100 |
| SceneManager.NextScene | scripts/SceneManager.js:68-70 | below the last index, the next index is loaded with the same cleanup-then-init trace. From the last index, only the end notice appears: no teardown, same current scene and index, scenes untouched |
| SceneManager.Cleanup | scripts/SceneManager.js:56-66 | the current scene's cleanup runs once (no call without a current scene) and no scene is current afterwards. Narration and game panel are hidden; the index and the pending timers stay |
| SceneManager.Update | scripts/SceneManager.js:72-76 | nothing happens without a current scene. Otherwise only the current scene's state may change; index, current scene, trace and timers are kept |
| SceneManager.Forward | scripts/SceneManager.js:78-118 | a pointer event does nothing without a current scene or when the current scene lacks that handler. Otherwise it reaches only the current scene |
| SceneManager.AsMouse | scenes/Scene02.js:240-250 | each touch event maps to its mouse counterpart; mouse events and clicks map to themselves |
| SceneManager.TouchIsMouse | scenes/Scene04.js:243-253 | forwarding a touch event has exactly the effect of forwarding the corresponding mouse event |
| SceneManager.SceneInit | scripts/SceneManager.js:47-48 | a scene's init keeps index, current scene, trace and faults, and never resets recorded scene progress |
| SceneManager.SceneCleanup | scripts/SceneManager.js:42-44 | a scene's cleanup keeps index, current scene, trace and pending timers, and never resets recorded scene progress |
| SceneManager.NextButton | scripts/UIManager.js:24-29 | a next press records exactly the click sound, then runs the stored continuation if there is one. Without one nothing else changes |
| SceneManager.SkipButton | scripts/UIManager.js:31-37 | a skip press records the click sound and the speech stop, then runs the stored continuation if there is one. Without one nothing else changes |
| SceneManager.Fire | scripts/UIManager.js:26-28 | the end notice's continuation is a load of scene 0, and every scene's "next scene" continuation is the manager's next scene. No other continuation loads a scene, changes the current scene or adds to the trace |
| SceneManager.ButtonsKeepValid | scripts/UIManager.js:23-37 | a next press and a skip press both keep the manager invariant, whatever continuation is stored |
| SceneManager.PressKeepsValid | scenes/Scene08.js:282-285 | a click on any panel widget keeps the manager invariant, the restart button's reload included |
| SceneManager.FireTimer | scripts/SceneManager.js:42-48 | a firing timer is removed once while every other pending timer stays. Only the aurora hint check and the memory check can add timers. A timer never loads a scene, never changes the current scene and adds nothing to the trace |
| SceneManager.Press | scenes/Scene08.js:282-285 | a widget that is not on screen cannot be used. The restart button on the final panel plays the click and loads scene 0. No other widget touches index, current scene or trace |
| SceneManager.InitialValid | scripts/SceneManager.js:29-30 | the constructor state satisfies the manager invariant |
| SceneManager.TeardownProper | scripts/SceneManager.js:42-44 | the cleanup call a load or a cleanup appends is of the scene last initialised, and leaves no scene open |
| SceneManager.AppendInit | scripts/SceneManager.js:46-48 | an init appended when no scene is open keeps the call history proper and opens that scene |
| SceneManager.LoadKeepsValid | scripts/SceneManager.js:33-54 | loading keeps the invariant: the current scene is the one at the current index, and it is the scene whose init is last in the history with no cleanup after it |
| SceneManager.CleanupKeepsValid | scripts/SceneManager.js:56-60 | the manager's cleanup keeps the invariant |
| SceneManager.FireKeepsValid | scripts/UIManager.js:26-28 | running any stored continuation, including restart and next scene, keeps the invariant |
| SceneManager.NextKeepsValid | scripts/SceneManager.js:68-70 | the advance to the following scene keeps the invariant, including from the last scene where only the end notice appears |
| SceneManager.StepKeepsValid | scripts/SceneManager.js:33-118 | every event keeps the invariant: loads, next, cleanup, frames, pointer input, button presses, timers and widget clicks |
| SceneManager.RunKeepsValid | scripts/SceneManager.js:33-118 | no sequence of events, each with its own random draws, breaks the invariant. So cleanup always runs once for the current scene before the next init, and never twice for one init |
| SceneManager.Step | scripts/UIManager.js:24-56 | each event reaches its handler: loads and advances load a scene, a leave cleans up, next runs the next button. A skip press does nothing while hideNarration has hidden the skip button, a timer that is not pending cannot expire, and a widget not on screen cannot be clicked |
| SceneManager.StepKeepsScene | scripts/SceneManager.js:72-118 | frames, pointer input, timers and every widget but restart leave the index, the current scene and the call history alone |
| SceneManager.LoadedValid | scripts/SceneManager.js:33-54 | cleaning up the current scene of a valid state and initialising one scene gives a valid state |
| SceneManager.EndThenRestart | scripts/SceneManager.js:34-48 | from the last scene, next scene leaves scene 7 current under the end notice. Its advance then cleans up scene 7 and initialises scene 0: exactly two calls |
| SceneManager.RestartPress | scripts/SceneManager.js:36-48 | a next press on the end notice with scene 7 current cleans scene 7 up, then initialises scene 0, and makes it current at index 0 |
| SceneManager.StaleOpeningTakesOver | scripts/SceneManager.js:42-44 | cleanup cancels no timer: Scene02's pending opening still replaces the narration and its continuation after another scene became current |
| SceneManager.ReplayedRestoreNeverCompletes | scenes/Scene08.js:238-242 | once four systems were restored, a tap on any system button of a later visit schedules nothing |
| Ui.Fresh | scripts/UIManager.js:19 | no continuation is stored at start and the panel is empty |
| Ui.ShowNarration | scripts/UIManager.js:40-49 | text shown, box and skip button visible, the continuation overwritten, the text spoken. The game panel, progress and indicator are kept |
| Ui.HideNarration | scripts/UIManager.js:51-56 | box and skip button hidden and speech stopped. The continuation is kept, so next still fires it |
| Ui.PressNext | scripts/UIManager.js:24-29 | a press fires exactly the stored continuation (none if null) after the click sound |
| Ui.PressSkip | scripts/UIManager.js:31-37 | like next, and speech is stopped as well |
| Ui.ShowGameUI | scripts/UIManager.js:87-90 | the panel gets the new content and is shown; narration and continuation are untouched |
| Ui.HideGameUI | scripts/UIManager.js:92-95 | the panel is hidden and emptied; narration and continuation are untouched |
| Ui.UpdateProgress | scripts/UIManager.js:97-99 | the progress fill shows the given percentage and nothing else on the page changes |
| Ui.UpdateSceneIndicator | scripts/UIManager.js:119-121 | the indicator text starts with "Scene ", has 9 characters for one-digit numbers, and parses back as exactly (current, total) |
| Ui.IndicatorRoundTrip | scripts/UIManager.js:120 | reading the text `Scene c/t` back gives (c, t) for every c, t |
| Decimal.ReadShow | scripts/UIManager.js:120 | the decimal rendering of a number in the template reads back as that number |
| Decimal.ShowInjective | scripts/UIManager.js:120 | distinct numbers render as distinct strings |
| Ui.LatestNarrationWins | scripts/UIManager.js:44 | there is at most one pending continuation: after two narrations, next and skip fire the second one |
| Ui.HiddenNarrationStillFires | scripts/UIManager.js:51-56 | hiding a narration does not disarm it: the box is hidden, yet next still fires its continuation |
| Ui.PressIsRepeatable | scripts/UIManager.js:24-37 | a press does not consume the continuation: a second press fires the same one |
| Particles.Decayed | scenes/Scene01.js:266 | every particle keeps its place and loses exactly the given amount of life |
| Particles.Spawn | scenes/Scene01.js:168-188 | `n` particles with the given life are appended after the existing ones, which are unchanged |
| Particles.Tick | scenes/Scene01.js:264-273 | one pass never grows the list, and leaves only live particles when it starts from live ones. When nothing is removed, every particle was visited and decayed |
| Particles.ForEachSplice | scenes/Scene02.js:290-299 | the source's index loop (decay, splice on expiry, always step to the next index) computes exactly `Tick` |
| Particles.StepRemoved | scenes/Scene04.js:285-288 | splicing out an expired particle that has a successor makes the loop skip that successor |
| Particles.StepRemovedLast | scenes/Scene04.js:285-288 | splicing out the last particle ends the pass |
| Particles.StepKept | scenes/Scene04.js:280 | a surviving particle is decayed in place and the loop moves on |
| Particles.Compact | scenes/Scene01.js:264-273 | the intended mark-and-compact pass never grows the list and leaves only live particles |
| Particles.TickIsCompactWithoutExpiry | scenes/Scene01.js:264-273 | when no particle expires in a pass, the source's pass, the compacting pass and plain decay coincide |
| Particles.SkipAfterRemoval | scenes/Scene01.js:269-272 | two particles that both expire: the source's pass leaves the second untouched, while compaction removes both |
| Particles.TickKeepsBound | scenes/Scene02.js:291 | no particle's life goes up in a pass |
| Particles.Drain | scenes/Scene04.js:278-289 | despite the skip, lives bounded by k passes' decay are all gone after at most (length + k) passes |
| Particles.SparksExpire | scenes/Scene01.js:183 | sparks and trail particles (life at most 1.0, frame time 0.016) are all gone after as many passes as there are particles, plus 63 |
| SunScene.Initial | scenes/Scene01.js:4-12 | the constructor state: step 0, interaction off, no Sparky, no particles |
| SunScene.Init | scenes/Scene01.js:14-20 | init only schedules the first beat; the step counter and Sparky are left as they were |
| SunScene.ShowNextNarration | scenes/Scene01.js:200-218 | while the step is below 3, beat number `step` is shown with the step continuation; otherwise nothing changes |
| SunScene.Advance | scenes/Scene01.js:208-215 | the step goes up by one. The next beat is shown while one remains; otherwise the narration is hidden and interaction enabled |
| SunScene.Launch | scenes/Scene01.js:130-189 | a launch throws exactly when the previous Sparky was removed from the scene. Otherwise one new Sparky is tracked at (0, 0, 2) with forward speed 0.3, ten sparks of life 1.0 are appended and a whoosh plays |
| SunScene.HandleClick | scenes/Scene01.js:220-234 | a click does nothing unless interaction is on and the first hit is the Sun; then it launches |
| SunScene.Update | scenes/Scene01.js:236-278 | Sparky moves by its velocity. Whenever it is past distance 20 the closing narration is shown again, and the sparks go through one splice pass |
| SunScene.Cleanup | scenes/Scene01.js:280-291 | particles are dropped and Sparky is detached. The reference, step counter and interaction flag stay |
| SunScene.AdvancesReachBeat | scenes/Scene01.js:200-218 | from any state, n advances move the step forward by exactly n, never back. Interaction is on afterwards exactly when it was on or the step has reached 3. While a beat remains, that beat is shown with the advance stored again. Sparky and the sparks are untouched |
| SunScene.ThirdAdvanceEnables | scenes/Scene01.js:207-215 | from a fresh scene, three advances show beats 0, 1, 2. Interaction is enabled only on the third advance |
| SunScene.ExhaustedAdvanceShowsNothing | scenes/Scene01.js:207 | past the last beat, advances show nothing and interaction stays on |
| SunScene.ReplayShowsNoBeat | scenes/Scene01.js:11 | a replay keeps the exhausted step counter, so its opening timer shows no beat |
| SunScene.ReplayLaunchFaults | scenes/Scene01.js:131-133 | after cleanup, tapping the Sun of the replayed scene throws instead of launching |
| SunScene.RelaunchReplaces | scenes/Scene01.js:141 | a second launch replaces the tracked Sparky and adds ten more sparks |
| SunScene.CompletionReissued | scenes/Scene01.js:254-261 | two updates past distance 20 speak the closing narration twice |
| ZoomScene.Initial | scenes/Scene02.js:4-13 | the constructor state: not dragging, interaction off, no Sparky, no trail, no rocks |
| ZoomScene.NewRocks | scenes/Scene02.js:135-161 | five rocks at the given x, y, all at depth -1 |
| ZoomScene.Init | scenes/Scene02.js:15-22 | Sparky back at (-8, 0, 0), five rocks added, the opening scheduled; the drag and interaction flags carry over |
| ZoomScene.ShowOpening | scenes/Scene02.js:166-175 | the opening narration, whose advance is the intro |
| ZoomScene.Intro | scenes/Scene02.js:169-173 | the only place interaction is switched on; the finale is scheduled |
| ZoomScene.Finale | scenes/Scene02.js:196-203 | the closing narration, whose advance moves to the next scene |
| ZoomScene.MouseDown | scenes/Scene02.js:206-218 | a drag starts, with a click sound, exactly when interaction is on and the ray hits Sparky. Otherwise nothing changes |
| ZoomScene.MouseMove | scenes/Scene02.js:220-234 | a move does nothing unless dragging and enabled. Otherwise Sparky follows the pointer with x clamped to [-9, 9] and y to [-4, 4], then rocks under it are moved with one boink each, with the corrected planar test (see Findings) |
| ZoomScene.MouseUp | scenes/Scene02.js:236-238 | release always ends the drag and changes nothing else |
| ZoomScene.CheckCollisions | scenes/Scene02.js:252-262 | corrected test: rocks within 1 of Sparky in the picture plane jump to their new x, y; all other rocks are untouched |
| ZoomScene.CheckCollisionsAsWritten | scenes/Scene02.js:252-262 | as written: a rock at 3-D distance 1 or more is untouched |
| ZoomScene.Boinks | scenes/Scene02.js:255-256 | only boink sounds, at most one per rock, and none exactly when the test selects no rock |
| ZoomScene.AsWrittenNeverRelocates | scenes/Scene02.js:145-149 | with Sparky at depth 0 and rocks at depth -1, the written test never moves a rock or boinks |
| ZoomScene.OverlapIsMissedAsWritten | scenes/Scene02.js:254-255 | Sparky right over a rock: the planar test fires and the written one does not |
| ZoomScene.DragNeverRelocatesAsWritten | scenes/Scene02.js:230-233 | in every reachable state, dragging with the written test moves no rock |
| ZoomScene.PlanesPreserved | scenes/Scene02.js:81 | every handler keeps Sparky at depth 0 and the rocks at depth -1 |
| ZoomScene.Update | scenes/Scene02.js:280-310 | Sparky drifts right by 0.5·dt unless dragged. A trail particle of life 1.0 is added when the roll is below 0.1, then the trail gets one splice pass |
| ZoomScene.Cleanup | scenes/Scene02.js:312-325 | trail and rocks are emptied; the flags and Sparky's position stay |
| ZoomScene.PressIgnoredBeforeIntro | scenes/Scene02.js:207 | before the intro advance, a press on a fresh scene cannot start a drag |
| ZoomScene.MoveAfterReleaseIsInert | scenes/Scene02.js:221 | after release, a move changes nothing |
| Geometry.Clamp | scenes/Scene02.js:230-231 | the result lies within the bounds, equals the value inside them, and equals the nearer bound outside |
| Geometry.DepthGapBoundsDistance | scenes/Scene02.js:254 | a depth gap of one keeps the 3-D distance at least one |
| CableScene.Initial | scenes/Scene03.js:7-11 | nothing matched and nothing selected |
| CableScene.Init | scenes/Scene03.js:14-18 | init only schedules the opening; the game state is not reset |
| CableScene.ShowOpening | scenes/Scene03.js:106-118 | the first beat, whose advance is the second |
| CableScene.Intro | scenes/Scene03.js:110-115 | the second beat, whose advance shows the game |
| CableScene.ShowGame | scenes/Scene03.js:121-143 | a fresh panel with all four cables visible, narration hidden |
| CableScene.HideCable | scenes/Scene03.js:183-186 | the cable of the socket's colour is hidden when the cable panel is up |
| CableScene.Grab | scenes/Scene03.js:150-162 | dragstart or touchstart selects the cable's colour and changes nothing else |
| CableScene.CableClick | scenes/Scene03.js:226-233 | a click selects the cable's colour with a click sound |
| CableScene.Connect | scenes/Scene03.js:179-192 | a match appends the colour with no membership check and hides the cable. Completion is scheduled only when the count becomes exactly 4 |
| CableScene.Drop | scenes/Scene03.js:174-196 | a drop matches iff the selection has the socket's colour; otherwise it boinks. The selection is kept either way |
| CableScene.SocketClick | scenes/Scene03.js:198-223 | without a selection nothing happens. Otherwise it is a match or a boink, and the selection is cleared either way |
| CableScene.Complete | scenes/Scene03.js:236-246 | beep, panel hidden, closing narration whose advance is the next scene |
| CableScene.Cleanup | scenes/Scene03.js:256-266 | panel and narration go; the game state survives |
| CableScene.ShowGameConsistent | scenes/Scene03.js:121-143 | a fresh game on a fresh panel hides exactly the matched cables (none) |
| CableScene.CableClickKeepsConsistent | scenes/Scene03.js:226-233 | selecting a cable keeps the hidden cables equal to the set of matched colours |
| CableScene.DropKeepsConsistent | scenes/Scene03.js:174-196 | a drop keeps the hidden cables equal to the set of matched colours, matched or not |
| CableScene.SocketClickKeepsConsistent | scenes/Scene03.js:198-223 | a socket click keeps the hidden cables equal to the set of matched colours, matched or not |
| CableScene.FourDistinctIsAll | scenes/Scene03.js:188-190 | with no repeated match, four matches happen exactly when every colour has been matched |
| CableScene.AtMostFour | scenes/Scene03.js:8 | at most four distinct colours can be matched |
| CableScene.ClickRoundsMatch | scenes/Scene03.js:198-233 | a cable click followed by a click on its socket, colour after colour, matches exactly those colours and leaves nothing selected |
| CableScene.ClickRoundsSchedule | scenes/Scene03.js:212-216 | such rounds schedule completion once, exactly when they carry the count across four |
| CableScene.HappyPath | scenes/Scene03.js:121-233 | the four colours played in order complete the game once, with every cable hidden |
| CableScene.StaleSelectionCountsTwice | scenes/Scene03.js:178-213 | a drop keeps the selection, so Red, Red, Blue, Green completes the game with Yellow never connected |
| CableScene.NoCompletionPastFour | scenes/Scene03.js:188-216 | with four or more matches already counted, no event schedules completion again |
| AuroraScene.Initial | scenes/Scene04.js:4-10 | not drawing, no last point, no particles, interaction off |
| AuroraScene.Init | scenes/Scene04.js:12-16 | init only schedules the opening |
| AuroraScene.ShowOpening | scenes/Scene04.js:130-142 | the first beat, whose advance is the second |
| AuroraScene.Intro | scenes/Scene04.js:134-139 | the second beat, whose advance shows the game |
| AuroraScene.ShowGame | scenes/Scene04.js:145-168 | painting is switched on, the panel is shown and the hint check is scheduled |
| AuroraScene.Hint | scenes/Scene04.js:163-178 | twenty spark timers if nothing has been painted, none otherwise |
| AuroraScene.AddParticle | scenes/Scene04.js:180-205 | exactly one particle of life 3.0 is appended and nothing else changes |
| AuroraScene.MouseDown | scenes/Scene04.js:216-221 | a press does nothing unless enabled. Otherwise it starts a stroke at the pointer and paints exactly one particle |
| AuroraScene.MouseMove | scenes/Scene04.js:223-236 | a move paints one particle and records the point exactly when enabled, drawing and more than 0.1 from the last painted point. Otherwise nothing changes |
| AuroraScene.MouseUp | scenes/Scene04.js:238-241 | release ends the stroke and forgets the last point, unconditionally |
| AuroraScene.Finish | scenes/Scene04.js:255-266 | painting switched off, success sound, panel hidden, closing narration whose advance is the next scene |
| AuroraScene.Update | scenes/Scene04.js:278-289 | every particle gets one splice pass with decay 0.3·dt |
| AuroraScene.Opacity | scenes/Scene04.js:281 | opacity never exceeds 0.6, and is life·0.2 at life 3.0 and below |
| AuroraScene.Cleanup | scenes/Scene04.js:292-303 | particles and panel go; the flags stay |
| AuroraScene.InitialValid | scenes/Scene04.js:8-9 | the constructor state is valid |
| AuroraScene.HandlersKeepValid | scenes/Scene04.js:216-241 | every handler keeps these facts: a stroke is in progress iff a last point is recorded, and particles are alive with life at most 3.0 |
| AuroraScene.CloseMovesPaintNothing | scenes/Scene04.js:231 | moves within 0.1 of the last painted point paint nothing |
| AuroraScene.FinishedIgnoresStrokes | scenes/Scene04.js:216-256 | after Finish, presses and moves paint nothing |
| AuroraScene.AuroraFades | scenes/Scene04.js:278-288 | at the render loop's frame time, every aurora particle is gone after as many frames as there are particles, plus 625 |
| DefinitionsScene.Init | scenes/Scene05.js:11-15 | init only schedules the opening |
| DefinitionsScene.ShowOpening | scenes/Scene05.js:127-134 | the opening narration, whose advance shows the dictionary |
| DefinitionsScene.ShowGame | scenes/Scene05.js:137-156 | the dictionary panel replaces the narration |
| DefinitionsScene.Continue | scenes/Scene05.js:194-209 | success sound, panel hidden, closing narration whose advance is the next scene |
| DefinitionsScene.Cleanup | scenes/Scene05.js:232-242 | panel and narration hidden; the continuation stays |
| MemoryScene.Initial | scenes/Scene06.js:7-12 | no cards up, nothing matched, flipping allowed |
| MemoryScene.Init | scenes/Scene06.js:15-19 | init only schedules the opening; the game state carries over |
| MemoryScene.ShowOpening | scenes/Scene06.js:94-101 | the opening narration, whose advance shows the game |
| MemoryScene.ShowGame | scenes/Scene06.js:104-133 | a new grid of the shuffled twelve cards, all face down, counter at 0. The turn in progress is kept, and no earlier card belongs to the new grid |
| MemoryScene.CardClick | scenes/Scene06.js:139-161 | a click is ignored while locked, on a card already up or kept, or with two cards up. Otherwise the card turns up with a click sound and is recorded with the grid it was clicked on; the second card locks the board and schedules the check |
| MemoryScene.Resolve | scenes/Scene06.js:165-196 | the check throws iff fewer than two cards are up. Same symbol at different positions keeps the pair and counts it, and only the count becoming exactly 6 schedules completion. Otherwise both turn back. Only cards of the grid on screen change: a card clicked on an earlier grid has no element there, and the counter shows the new count only when the second card is on screen. The turn always ends and the board unlocks |
| MemoryScene.Complete | scenes/Scene06.js:198-209 | success, panel hidden, closing narration whose advance is the next scene |
| MemoryScene.Cleanup | scenes/Scene06.js:224-234 | panel and narration go; the game state stays |
| MemoryScene.ShowGameKeepsTurn | scenes/Scene06.js:104-133 | showing the grid, even in the middle of a turn begun on an earlier grid, satisfies the turn invariant |
| MemoryScene.OnGrid | scenes/Scene06.js:172-173 | a position belongs to the set exactly when some card of the turn was clicked at it on that grid |
| MemoryScene.Settle | scenes/Scene06.js:172-188 | the check marks both cards kept, or turns both back, on the grid on screen only; the counter changes only on a kept pair whose second card is on screen |
| MemoryScene.InterruptedTurnTurnsBack | scenes/Scene06.js:104-188 | a turn begun on one grid and finished with a different card of a newer grid: the check counts nothing, leaves no card up on screen, and the turned-back card can be clicked again |
| MemoryScene.MixedTurnTurnsBack | scenes/Scene06.js:181-191 | a mismatched turn whose first card is off screen turns back just the second, which can then start the next turn |
| MemoryScene.ClickKeepsTurn | scenes/Scene06.js:139-161 | clicks keep the turn invariant: at most two cards up, locked iff two, each a distinct face-up unkept card |
| MemoryScene.ResolveAfterLock | scenes/Scene06.js:157-194 | a check scheduled by a locking click never throws, and leaves an empty, unlocked turn |
| MemoryScene.MatchingPairIsKept | scenes/Scene06.js:169-176 | two same-faced cards clicked in one turn are kept and counted once |
| MemoryScene.MismatchTurnsBack | scenes/Scene06.js:181-191 | two different cards are turned back, nothing is counted, nothing is scheduled |
| MemoryScene.LockedBoardIgnoresClicks | scenes/Scene06.js:141-143 | a third click while two cards are up does nothing, not even a sound |
| MemoryScene.CompletionOnlyAtSix | scenes/Scene06.js:178-179 | completion is scheduled iff the check counts a pair that makes six |
| MemoryScene.ReplayNeverCompletes | scenes/Scene06.js:175-179 | on a replay with six pairs counted, a check never schedules completion and the counter reads above 6 |
| MemoryScene.ShuffleHasPairs | scenes/Scene06.js:107-108 | each symbol is on exactly two cards of any shuffle |
| ShieldScene.Initial | scenes/Scene07.js:4-11 | no waves, no shield, 0 cleared, astronaut phase |
| ShieldScene.Init | scenes/Scene07.js:13-17 | init only schedules the opening; counters and phase carry over |
| ShieldScene.ShowOpening | scenes/Scene07.js:146-158 | the first beat, whose advance is the second |
| ShieldScene.Intro | scenes/Scene07.js:150-155 | the second beat, whose advance starts the challenge |
| ShieldScene.ShowChallenge | scenes/Scene07.js:161-184 | eight new, distinct waves are added, the panel reads 8 and interaction is on |
| ShieldScene.IndexOf | scenes/Scene07.js:221 | the first position holding the wave |
| ShieldScene.SetCounter | scenes/Scene07.js:227-230 | the wave counter reads 8 minus the cleared count while the shield panel is up |
| ShieldScene.RemoveWave | scenes/Scene07.js:220-236 | an absent wave is ignored. Otherwise its first occurrence is removed, one more wave is counted, and the pilot challenge is scheduled whenever the count is 8 or more in the astronaut phase. Cleared plus remaining is preserved |
| ShieldScene.RemoveWaveMembers | scenes/Scene07.js:220-223 | removal only drops waves: every remaining wave was there before, and every other wave stays |
| ShieldScene.Sweep | scenes/Scene07.js:206-211 | the shield's walk over the live list only removes waves within reach, keeps every wave out of reach, and keeps cleared plus remaining |
| ShieldScene.SweepIsSwept | scenes/Scene07.js:206-211 | the walk from any position leaves the waves before it and exactly the reference walk of the rest, in which the wave sliding into a removed wave's place is passed over |
| ShieldScene.SweptDrops | scenes/Scene07.js:206-211 | the reference walk removes a wave within reach that is first or follows a wave out of reach |
| ShieldScene.ShieldClearsReached | scenes/Scene07.js:186-211 | raising the shield removes every wave within reach that is first in the list or follows a wave out of reach |
| ShieldScene.IndexOfDistinct | scenes/Scene07.js:221 | with distinct identities, `indexOf` finds each wave at its own position |
| ShieldScene.SweepRemoveStep | scenes/Scene07.js:206-223 | one step of the walk on a wave within reach splices out exactly that position and keeps identities distinct |
| ShieldScene.ActivateShield | scenes/Scene07.js:186-218 | ignored while a shield is up. Otherwise the shield is raised with a whoosh, the walk runs, and the expiry is scheduled |
| ShieldScene.ShieldExpired | scenes/Scene07.js:213-217 | the shield can be raised again; nothing else changes |
| ShieldScene.HandleClick | scenes/Scene07.js:308-320 | a tap does nothing unless enabled and in the astronaut phase with a hit. Otherwise the hit wave is removed with a success sound |
| ShieldScene.ShowPilot | scenes/Scene07.js:238-248 | the phase becomes pilot, the panel closes and the radio narration appears |
| ShieldScene.ShowRadio | scenes/Scene07.js:250-266 | a fresh radio panel with step 0 |
| ShieldScene.RadioStep | scenes/Scene07.js:278-291 | the step advances by one iff the press matches the expected colour (none past the third); otherwise it resets to 0 |
| ShieldScene.RadioPress | scenes/Scene07.js:274-293 | success or boink. Completion is scheduled exactly when the step reaches 3 |
| ShieldScene.Complete | scenes/Scene07.js:297-306 | panel hidden, closing narration whose advance is the next scene |
| ShieldScene.Cleanup | scenes/Scene07.js:348-359 | the wave list is emptied; counters, phase and flags stay |
| ShieldScene.ShowChallengeValid | scenes/Scene07.js:164-168 | wave identities stay distinct and below the next one to be handed out |
| ShieldScene.RemoveWaveValid | scenes/Scene07.js:223 | removal keeps wave identities distinct |
| ShieldScene.RemovedWaveIsGone | scenes/Scene07.js:221-225 | a removed wave is no longer listed, and exactly one more is counted |
| ShieldScene.ShieldSkipsNeighbour | scenes/Scene07.js:206-211 | with two adjacent waves both within reach, the shield clears only the first |
| ShieldScene.PilotPhaseIsFinal | scenes/Scene07.js:232-309 | in the pilot phase taps are ignored and no removal schedules the pilot challenge again |
| ShieldScene.RadioStepKeepsSuffix | scenes/Scene07.js:278-291 | the step always counts how many colours of Red, Blue, Green the latest presses spell, in order |
| ShieldScene.RadioInOrderCompletes | scenes/Scene07.js:269-285 | Red, Blue, Green completes on the Green press |
| ShieldScene.WrongRedRestartsAtZero | scenes/Scene07.js:287-291 | a wrong press, Red included, restarts at 0: Red, Blue, Red, Blue, Green does not complete, and one more Red makes it complete |
| ShieldScene.RadioCompletesAgain | scenes/Scene07.js:278-291 | after completion any press resets the step, and the sequence can complete again |
| ShieldScene.TapStepIsHandleClick | scenes/Scene07.js:308-320 | a tap whose ray hits the front wave is, for every state, the direct description of one tap. With interaction on in the astronaut phase, the front wave is dropped and counted, a success sound plays and the counter is updated. Otherwise nothing happens |
| ShieldScene.TapFrontClears | scenes/Scene07.js:220-225 | `n` taps on the front wave remove the first `n` waves and count `n` |
| ShieldScene.TapFrontSchedules | scenes/Scene07.js:232-234 | each of those clearances that reaches 8 schedules the pilot challenge once |
| ShieldScene.EightTapsReachPilot | scenes/Scene07.js:164-234 | tapping away a fresh challenge's eight waves empties it and schedules the pilot challenge exactly once |
| RestoreScene.Initial | scenes/Scene08.js:7 | no system restored |
| RestoreScene.Init | scenes/Scene08.js:10-14 | init only schedules the opening; the count carries over |
| RestoreScene.ShowOpening | scenes/Scene08.js:190-202 | the first beat, whose advance is the second |
| RestoreScene.Intro | scenes/Scene08.js:194-199 | the second beat, whose advance shows the game |
| RestoreScene.ShowGame | scenes/Scene08.js:205-222 | four unrestored buttons, the progress line at 0 |
| RestoreScene.Tap | scenes/Scene08.js:229-244 | a restored button is inert. Otherwise it is marked, the count rises by exactly one and is shown, and completion is scheduled only when the count equals 4 |
| RestoreScene.CompleteStory | scenes/Scene08.js:248-264 | panel hidden, beep, closing narration whose advance is the epilogue |
| RestoreScene.Epilogue | scenes/Scene08.js:256-261 | the epilogue, whose advance shows the final panel |
| RestoreScene.ShowFinal | scenes/Scene08.js:266-286 | the final panel with its restart button; narration left as it is |
| RestoreScene.Cleanup | scenes/Scene08.js:307-317 | panel and narration go; the count stays |
| RestoreScene.ShowGameAgrees | scenes/Scene08.js:205-222 | on a fresh panel the count equals the count at showing plus the marked buttons |
| RestoreScene.TapKeepsAgreement | scenes/Scene08.js:230-239 | each tap keeps the count equal to the count at showing plus the marked buttons. Once a button is marked, the shown number equals the count |
| RestoreScene.Taps | scenes/Scene08.js:229-244 | a sequence of taps on the mounted panel keeps it mounted |
| RestoreScene.TapsMark | scenes/Scene08.js:233 | after a sequence of taps, exactly the tapped systems are marked |
| RestoreScene.TapsKeepAgreement | scenes/Scene08.js:230-239 | any sequence of taps keeps the agreement |
| RestoreScene.FirstVisitCompletesOnce | scenes/Scene08.js:238-242 | on a first visit, tapping every system (in any order, repeats allowed) brings the count to 4 and schedules completion exactly once |
| RestoreScene.TapsSchedule | scenes/Scene08.js:241-242 | taps schedule completion once, exactly when they carry the count across 4 |
| RestoreScene.TapsMonotone | scenes/Scene08.js:238 | the count never goes down |
| RestoreScene.ReplayNeverCompletes | scenes/Scene08.js:238-242 | on a replay, with the count already at 4, no tap sequence ever schedules completion |

## Left out

- Scene graph construction, materials, rotation, bobbing, pulsing and scale animation: they affect no discrete state.
- Ray casting and camera unprojection. The hit answers (`hitsSun`, `hitsSparky`, `wave`, the shield's `near` set) and the pointer's world position are inputs. So the Sun-or-direct-child test and the shield's distance-below-3 test are assumed, not computed.
- `Math.random` enters as inputs: rock spots and jumps, spark drift, the trail roll, the deck order (any arrangement of the twelve cards). Spawn ranges such as `Math.random() * 10 - 5` are not constrained.
- The audio collaborator (`AudioManager.js`): sounds and speech are recorded as a list of calls only. The speech-end callback that animates the next button is left out.
- `main.js`: DOM wiring, renderer and resize. Frames use its fixed time step 0.016 where a lemma needs one.
- Narration texts are carried as `Script.Line` names, not as characters: the model says which text is shown and spoken, never what it reads; panel markup (`innerHTML`) is not modelled beyond the per-element state listed above.
- Scene05's term lookup and definition display: a static table with no state. Only its narration chain and Continue button are modelled.
- Dialogue boxes, scene titles, the astronaut speech bubble and their auto-hide timers. The narrator container is only ever shown, since hiding the bubble does not hide it. Confetti is also left out.
- Positions and velocities of particles, waves and the aurora strokes; particle colour, scale and opacity except the aurora opacity bound.
- SunScene.Update: Sparky's distance is compared as squared length (400) on exact reals, not IEEE doubles.
- Particles.Tick: lives are exact reals; IEEE rounding of `life -= deltaTime` is not modelled.
- ShieldScene.Sweep: which waves are within reach is fixed for the whole walk, as the positions do not move during it.
- SceneManager.FireTimer: timers fire in any order. The source's delays (which make some orders impossible in practice) are not modelled.
- SceneManager.Step: the next button is taken to be clickable whenever the page is up, even while the narration box is hidden. Its placement in the page markup is not part of this model; the skip button is guarded by the visibility that showNarration and hideNarration set.
- SceneManager.Fire: the memory deck comes from the `Chance` input and is required to be a shuffle of the six symbols twice, as `[...symbols, ...symbols].sort(...)` always is.

## Findings

| source | as written | input that shows it | evidently intended | confidence | as-written member | corrected member |
|---|---|---|---|---|---|---|
| scenes/Scene02.js:252-262 | `checkCollisions` compares the 3-D `distanceTo` with 1. Sparky moves on z = 0 and every rock is placed at z = -1 (lines 145-149), so the distance is never below 1 | Sparky dragged to (0, 0, 0) over a rock at (0, 0, -1): distance exactly 1, no boink, the rock stays | a rock under Sparky on screen (planar distance below 1) is boinked and moved | high, not executed | ZoomScene.CheckCollisionsAsWritten (with ZoomScene.AsWrittenNeverRelocates, ZoomScene.OverlapIsMissedAsWritten, ZoomScene.DragNeverRelocatesAsWritten) | ZoomScene.CheckCollisions (used by ZoomScene.MouseMove) |

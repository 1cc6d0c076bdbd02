/**
 * The callbacks the core hands to its collaborators, named.
 *
 * Every closure the source stores in `onNextCallback` or passes to
 * `setTimeout` is one constructor here; firing it is dispatched by the
 * scene manager.
 */
module Events {
  import Script

  /** Effect names passed to `audioManager.playSound`. */
  datatype Sound = Click | Success | Boink | Beep | Whoosh

  /** One call made to the audio collaborator. */
  datatype AudioCall = Play(sound: Sound) | Speak(line: Script.Line) | StopSpeaking

  /** Closures stored as the narration advance continuation. */
  datatype Cont =
    | RestartStory     // end-of-story notice: loadScene(0)
    | NextScene        // every `() => this.manager.nextScene()`
    | SunBeat          // Scene01 narration step closure
    | ZoomIntro        // Scene02: enable dragging, start planet dialogue
    | CableIntro       // Scene03: second opening beat
    | CableGame        // Scene03: showCableGame
    | AuroraIntro      // Scene04: second opening beat
    | AuroraGame       // Scene04: showAuroraGame
    | DefinitionsGame  // Scene05: showDefinitionsGame
    | MemoryGame       // Scene06: showMemoryGame
    | ShieldIntro      // Scene07: second opening beat
    | ShieldGame       // Scene07: showAstronautChallenge
    | RadioGame        // Scene07: showRadioGame
    | RestoreIntro     // Scene08: second opening beat
    | RestoreGame      // Scene08: showRestorationGame
    | StoryEpilogue    // Scene08: second closing beat
    | StoryFinal       // Scene08: showFinalMessage

  /** Pending `setTimeout` callbacks. */
  datatype Timer =
    | Opening(scene: nat)   // startNarration / startScene delay of scene `scene`
    | ZoomFinale            // Scene02: closing narration after 10 s
    | CableComplete         // Scene03: completeGame after 500 ms
    | AuroraHint            // Scene04: hint check after 3 s
    | AuroraSpark           // Scene04: one hint particle
    | MemoryResolve         // Scene06: checkMatch after 800 ms
    | MemoryComplete        // Scene06: completeGame after 500 ms
    | ShieldExpire          // Scene07: shield reset after 2000 ms
    | PilotPhase            // Scene07: showPilotChallenge after 1 s
    | RadioComplete         // Scene07: completeScene after 1 s
    | RestoreComplete       // Scene08: completeStory after 1 s

  /**
   * Errors thrown out of an event handler: the handler stops, the page
   * carries on. `DetachedSparky` is Scene01's `this.sparky.parent.remove`
   * on a Sparky already taken out of the scene; `NoPair` is Scene06's
   * `const [first, second] = flipped` on fewer than two entries.
   */
  datatype Fault = DetachedSparky | NoPair
}

/**
 * The narration lines of the story, by name.
 *
 * The UI and the audio collaborator are modelled as receiving a line, not its
 * characters: which line is shown and spoken is what the story logic decides.
 * Each constructor stands for one distinct text of the source.
 */
module Script {

  datatype Line =
    | Silence  // the narration box before anything is shown
    | MeetSunny
    | SunnyLaunches
    | TapTheRays
    | SparkyOnItsWay
    | RaceAcrossSpace
    | EarthHereIComes
    | TractorStopped
    | FixTheTechnology
    | PowerRestored
    | RadioCrackling
    | PaintAnAurora
    | NaturesLightShow
    | SpaceWeatherTerms
    | GreatLearning
    | TestYourMemory
    | AllMatchesFound
    | WavesApproach
    | TapTheWaves
    | FixTheRadio
    | AlexIsSafe
    | WorkingTogether
    | RestoreLastLine
    | AllSystemsWorking
    | SmilingTogether
    | TheEnd
}

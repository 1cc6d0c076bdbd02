/**
 * What the game panel (`#game-ui`) holds. `showGameUI(markup)` mounts one
 * of these and `hideGameUI()` empties it; the per-widget DOM state that
 * the source keeps in element classes (hidden cables, flipped cards,
 * restored buttons) and the radio game's closure-local step counter live
 * with the mounted widget, so they are discarded when it is replaced.
 */
module Panels {

  /** `data-color` values of cables, sockets and radio buttons. */
  datatype Colour = Red | Blue | Green | Yellow

  /** Memory card faces. */
  datatype Symbol = Rainbow | Star | Dizzy | Sparkles | Glowing | Burst

  /** `data-system` values of the restoration buttons. */
  datatype System = Tractor | Power | Radio | Satellite

  datatype Panel =
    | Empty
    | CablePanel(hidden: set<Colour>)                          // cables set to display:none
    | AuroraPanel
    | DefinitionsPanel
    | MemoryPanel(grid: nat, deck: seq<Symbol>, up: set<nat>, done: set<nat>, counter: nat)
        // which grid this is, card faces, 'flipped' / 'matched' classes, the number in the match counter
    | ShieldPanel(remaining: int)                              // the number in 'Waves remaining'
    | RadioPanel(step: nat)                                    // `currentStep` of setupRadioGame
    | RestorePanel(restored: set<System>, counter: nat)      // 'restored' class, 'Systems restored' number
    | FinalPanel
}

/** The game modes every component consults. */
module Modes {
  /**
   * The four modes of the game. `NoMode` stands for the `null` mode a game and its ship
   * carry before the game is first initialised with a mode.
   */
  datatype GameMode = NoMode | Singleplayer | COOP | Deathmatch | Spectate
}

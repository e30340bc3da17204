/**
 * A game of one round: its id, the ids of the pairables holding black and white,
 * and its result. Game.kt is not part of this model; this shape is taken from
 * its uses in the pairing code and the tournament.
 */
module Games {

  /** `Black` and `White` are the wins the statistics look at; `OtherResult`
      stands for every other result, the not-yet-played one included. */
  datatype GameResult = Black | White | OtherResult

  datatype Game = Game(id: int, black: int, white: int, result: GameResult)
}

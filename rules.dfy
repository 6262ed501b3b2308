/**
 The board of the game: the terminal square, the fixed table of snakes and
 ladders, the die's range and the rule that turns a position and a die value
 into the next position. Everything here is pure: the table never changes.
 */
module Rules {

  /** The terminal square; a token must land on it exactly to finish. */
  const END_OF_GAME_POSITION: int := 100

  /** Snakes (destination below the trigger) and ladders (destination above it). */
  const SNAKES_AND_LADDERS: map<int, int> := map[
    4 := 23,   // ladder
    97 := 49,  // snake
    82 := 65,  // snake
    43 := 21,  // snake
    59 := 8,   // snake
    91 := 37,  // snake
    86 := 90,  // ladder
    41 := 62,  // ladder
    28 := 53,  // ladder
    62 := 98   // ladder
  ]

  /** The die is `Random.Next(1, 6)`: 1 inclusive, 6 exclusive, so 1..5. */
  const DIE_MIN: int := 1
  const DIE_MAX_EXCLUSIVE: int := 6

  /** A value the die can show: one of the five faces 1 to 5. */
  predicate IsDieValue(d: int): (b: bool)
    ensures b <==> d in {1, 2, 3, 4, 5}
  {
    DIE_MIN <= d < DIE_MAX_EXCLUSIVE
  }

  /**
   The move rule, tried in this order: exact landing on the end, overshoot
   (the roll is wasted), one lookup in the table, plain move.
   */
  function CalculateNewPosition(currentPosition: int, diceValue: int): (r: int)
    ensures r == currentPosition || r == currentPosition + diceValue
         || (currentPosition + diceValue in SNAKES_AND_LADDERS
             && r == SNAKES_AND_LADDERS[currentPosition + diceValue])
    ensures 0 <= currentPosition <= END_OF_GAME_POSITION && 0 <= diceValue
         ==> 0 <= r <= END_OF_GAME_POSITION
  {
    var newPosition := currentPosition + diceValue;
    if newPosition == END_OF_GAME_POSITION then
      END_OF_GAME_POSITION
    else if newPosition > END_OF_GAME_POSITION then
      currentPosition
    else if newPosition in SNAKES_AND_LADDERS then
      SNAKES_AND_LADDERS[newPosition]
    else
      newPosition
  }

  /**
   The completion test the board gives each player: exactly on the end square,
   which is not the trigger of a snake or a ladder.
   */
  predicate CompletionCheck(position: int): (b: bool)
    ensures b <==> position == END_OF_GAME_POSITION
    ensures b ==> position !in SNAKES_AND_LADDERS
  {
    position == END_OF_GAME_POSITION
  }

  /** The table has ten entries, none sharing a trigger. */
  lemma TableHasTenEntries()
    ensures |SNAKES_AND_LADDERS| == 10
  {
  }

  /** Every trigger and every destination is a square strictly inside the track. */
  lemma TableInsideTrack()
    ensures forall k :: k in SNAKES_AND_LADDERS ==>
              1 <= k < END_OF_GAME_POSITION
              && 1 <= SNAKES_AND_LADDERS[k] < END_OF_GAME_POSITION
    ensures END_OF_GAME_POSITION !in SNAKES_AND_LADDERS
  {
  }

  /** Landing exactly on the end square wins, whatever the table says. */
  lemma ExactLandingWins(currentPosition: int, diceValue: int)
    requires currentPosition + diceValue == END_OF_GAME_POSITION
    ensures CalculateNewPosition(currentPosition, diceValue) == END_OF_GAME_POSITION
    ensures CompletionCheck(CalculateNewPosition(currentPosition, diceValue))
  {
  }

  /** A roll that would pass the end square leaves the token where it was. */
  lemma OvershootStays(currentPosition: int, diceValue: int)
    requires currentPosition + diceValue > END_OF_GAME_POSITION
    ensures CalculateNewPosition(currentPosition, diceValue) == currentPosition
  {
  }

  /** Hence the end square is a fixed point for every positive roll. */
  lemma EndIsFixedPoint(diceValue: int)
    requires diceValue >= 1
    ensures CalculateNewPosition(END_OF_GAME_POSITION, diceValue) == END_OF_GAME_POSITION
  {
  }

  /**
   A target inside the track that is a trigger goes to its destination, and no
   further: the destination is not looked up again even when it is a trigger too.
   */
  lemma JumpIsSingleHop(currentPosition: int, diceValue: int)
    requires currentPosition + diceValue < END_OF_GAME_POSITION
    requires currentPosition + diceValue in SNAKES_AND_LADDERS
    ensures CalculateNewPosition(currentPosition, diceValue)
            == SNAKES_AND_LADDERS[currentPosition + diceValue]
  {
  }

  /** A target inside the track that is not a trigger is the result as it is. */
  lemma PlainMove(currentPosition: int, diceValue: int)
    requires currentPosition + diceValue < END_OF_GAME_POSITION
    requires currentPosition + diceValue !in SNAKES_AND_LADDERS
    ensures CalculateNewPosition(currentPosition, diceValue) == currentPosition + diceValue
  {
  }

  /**
   The table holds a chain, 41 to 62 and 62 to 98, yet a move onto 41 stops at
   62. The other sample moves: (1,3) climbs to 23, (10,2) is a plain move to 12,
   (94,6) lands on the end and (96,6) overshoots.
   */
  lemma SampleMoves()
    ensures 41 in SNAKES_AND_LADDERS && SNAKES_AND_LADDERS[41] in SNAKES_AND_LADDERS
    ensures CalculateNewPosition(40, 1) == 62 != SNAKES_AND_LADDERS[62]
    ensures CalculateNewPosition(1, 3) == 23
    ensures CalculateNewPosition(10, 2) == 12
    ensures CalculateNewPosition(94, 6) == END_OF_GAME_POSITION
    ensures CalculateNewPosition(96, 6) == 96
  {
  }

  /**
   The squares a token goes round for ever when every roll is 1: 8 to 27, the
   ladder 28 to 53, 53 to 58, and the snake 59 back to 8.
   */
  predicate InOnesCycle(position: int) {
    8 <= position <= 27 || 53 <= position <= 58
  }

  /** A roll of 1 keeps a token on the cycle, which does not hold the end square. */
  lemma OneStaysInCycle(position: int)
    requires InOnesCycle(position)
    ensures InOnesCycle(CalculateNewPosition(position, 1))
    ensures CalculateNewPosition(position, 1) != END_OF_GAME_POSITION
    ensures !CompletionCheck(CalculateNewPosition(position, 1))
  {
  }

  /** From any square of the track, any roll of the die keeps the token on the track. */
  lemma MoveStaysOnTrack(currentPosition: int, diceValue: int)
    requires 0 <= currentPosition <= END_OF_GAME_POSITION
    requires IsDieValue(diceValue)
    ensures 0 <= CalculateNewPosition(currentPosition, diceValue) <= END_OF_GAME_POSITION
  {
  }
}

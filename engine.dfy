/**
 The game engine as objects: players whose position and completion flag change
 in place, a board that keeps the players in registration order, and a
 controller that subscribes its move handler to every entry and whose turn
 loop drives the players. A player's subscribed handlers are counted in
 `moveHandlers`; each handler call is a direct call in the same order (roll,
 resolve, set position), then the completion check. The die is the sequence
 `rolls`, read from the front.
 */
module Engine {
  import opened Rules
  import opened GameSpec

  class Player {
    const name: string
    var position: int
    var hasCompleted: bool
    /** How many times the controller's move handler is subscribed to this player. */
    var moveHandlers: nat

    constructor (name: string)
      ensures this.name == name
      ensures position == 0 && !hasCompleted && moveHandlers == 0
      ensures State() == START
    {
      this.name := name;
      position := 0;
      hasCompleted := false;
      moveHandlers := 0;
    }

    /** The player's state as a value. */
    function State(): PlayerState
      reads this
    {
      PlayerState(position, hasCompleted, moveHandlers)
    }

    /** Subscribes one more move handler; nothing else changes. */
    method AddMoveHandler()
      modifies this
      ensures State() == old(State()).(moveHandlers := old(moveHandlers) + 1)
    {
      moveHandlers := moveHandlers + 1;
    }

    method ChangePosition(newPosition: int)
      modifies this
      ensures position == newPosition
      ensures hasCompleted == old(hasCompleted) && moveHandlers == old(moveHandlers)
    {
      position := newPosition;
    }

    /**
     One turn: the position is read once, and every move handler, with its own
     roll, resolves a move from that position and sets the position to it, so
     the last handler's move is kept. Then the flag is set to the board's
     completion check of the new position.
     */
    method Play(diceValues: seq<int>)
      requires moveHandlers >= 1 && |diceValues| == moveHandlers
      modifies this
      ensures position == CalculateNewPosition(old(position), diceValues[|diceValues| - 1])
      ensures hasCompleted <==> position == END_OF_GAME_POSITION
      ensures State() == Turn(old(State()), diceValues[|diceValues| - 1])
    {
      var start := position;
      var j := 0;
      while j < |diceValues|
        invariant 0 <= j <= |diceValues|
        invariant hasCompleted == old(hasCompleted) && moveHandlers == old(moveHandlers)
        invariant j > 0 ==> position == CalculateNewPosition(start, diceValues[j - 1])
      {
        ChangePosition(CalculateNewPosition(start, diceValues[j]));
        j := j + 1;
      }
      hasCompleted := CompletionCheck(position);
    }
  }

  class Board {
    /** The registered players, in registration order, which is turn order. */
    var players: seq<Player>

    constructor ()
      ensures players == []
    {
      players := [];
    }

    method AddPlayer(player: Player)
      modifies this
      ensures players == old(players) + [player]
    {
      players := players + [player];
    }
  }

  /** The state of every registered player, keyed by the player itself. */
  ghost function States(players: seq<Player>): (m: map<Player, PlayerState>)
    reads players
    ensures Covers(players, m)
    ensures forall i :: 0 <= i < |players| ==> m[players[i]] == players[i].State()
  {
    map p | p in players :: p.State()
  }

  /**
   The turn of the i-th registered player: it plays the rolls from `next` on,
   one per move handler, and its entry of `States` is the only one that
   changes, to the turn decided by the last of those rolls.
   */
  method PlayTurn(players: seq<Player>, i: nat, rolls: seq<int>, next: nat)
    requires i < |players| && players[i].moveHandlers >= 1
    requires next + players[i].moveHandlers <= |rolls|
    modifies players[i]
    ensures var before := old(States(players));
      var last := rolls[next + old(players[i].moveHandlers) - 1];
      States(players) == before[players[i] := Turn(before[players[i]], last)]
  {
    var dice := rolls[next..next + players[i].moveHandlers];
    players[i].Play(dice);
  }

  /** The outer loop's test, read off the objects. */
  function AnyHasCompleted(players: seq<Player>): (b: bool)
    reads players
    ensures b == AnyCompleted(players, States(players))
  {
    exists i :: 0 <= i < |players| && players[i].hasCompleted
  }

  class GameController {
    const board: Board

    constructor ()
      ensures fresh(board) && board.players == []
    {
      board := new Board();
    }

    /**
     The turn loop: subscribe the move handler to every entry, then, while no
     player has completed, one pass in registration order over the players not
     completed when the pass reaches them. The test is made only between
     passes. Returns how the game stopped and how many rolls it used; the
     players end in the states of `Game` from the subscribed initial states,
     and, every entry having a handler, no turn fails for want of one.
     */
    method PlayGame(rolls: seq<int>) returns (status: Status, used: nat)
      modifies board.players
      ensures board.players == old(board.players)
      ensures var g := Game(board.players, GameSpec.Setup(board.players, old(States(board.players))), rolls, 0);
        status == g.status && used == g.used && States(board.players) == g.states
      ensures status != MoveUnhandled
    {
      var players := board.players;
      GameAfterSetupHasHandlers(players, States(players), rolls);
      Setup(players);
      status, used := PlayPasses(players, rolls);
    }

    /** The outer loop: one pass after another while no player has completed. */
    method PlayPasses(players: seq<Player>, rolls: seq<int>) returns (status: Status, used: nat)
      modifies players
      ensures var g := Game(players, old(States(players)), rolls, 0);
        status == g.status && used == g.used && States(players) == g.states
    {
      ghost var initial := States(players);
      used := 0;
      if |players| == 0 {
        // Nobody ever completes and a pass does nothing: the loop never exits.
        return NeverEnds, used;
      }
      while !AnyHasCompleted(players)
        invariant used <= |rolls|
        invariant Game(players, States(players), rolls, used) == Game(players, initial, rolls, 0)
        decreases |rolls| - used
      {
        assert !States(players)[players[0]].completed;
        var end;
        end, used := PlayPass(players, rolls, used);
        if end == Starved {
          // The die had too few rolls left for a turn of this pass.
          return RollsExhausted, used;
        } else if end == NoHandler {
          // A turn found no move handler: the original throws here.
          return MoveUnhandled, used;
        }
      }
      status := Won;
    }

    /** Subscribes the move handler once for every entry of the players. */
    method Setup(players: seq<Player>)
      modifies players
      ensures States(players) == GameSpec.Setup(players, old(States(players)))
    {
      ghost var start := States(players);
      var i := 0;
      while i < |players|
        invariant 0 <= i <= |players|
        invariant forall p :: p in start ==>
                    p.State() == start[p].(moveHandlers := start[p].moveHandlers + Occurrences(players[..i], p))
      {
        assert players[..i + 1] == players[..i] + [players[i]];
        forall p | p in start
          ensures Occurrences(players[..i + 1], p) == Occurrences(players[..i], p) + (if players[i] == p then 1 else 0)
        {
          OccurrencesSnoc(players[..i], players[i], p);
        }
        players[i].AddMoveHandler();
        i := i + 1;
      }
      assert players[..i] == players;
      SetupByCounts(players, start, States(players));
    }

    /**
     One pass of the turn loop: each player in order, if not completed when
     reached, plays with the next rolls, one per move handler. Stops early
     when a turn needs more rolls than are left or finds no move handler.
     */
    method PlayPass(players: seq<Player>, rolls: seq<int>, next: nat) returns (end: PassEnd, used: nat)
      requires next <= |rolls|
      modifies players
      ensures Pass(players, old(States(players)), rolls, next) == PassResult(end, States(players), used)
    {
      ghost var passStart := States(players);
      used := next;
      var i := 0;
      while i < |players|
        invariant 0 <= i <= |players|
        invariant next <= used <= |rolls|
        invariant Pass(players[i..], States(players), rolls, used) == Pass(players, passStart, rolls, next)
      {
        end, used := PassEntry(players, i, rolls, used);
        if end != Finished {
          return;
        }
        i := i + 1;
      }
      end := Finished;
    }

    /**
     The i-th entry of a pass: skipped when its player has completed; when not,
     a turn that has no move handler (`NoHandler`) or fewer rolls left than the
     player has handlers (`Starved`) stops the pass, and otherwise the player
     plays. `Finished` means that the pass goes on with the next entry.
     */
    method PassEntry(players: seq<Player>, i: nat, rolls: seq<int>, next: nat) returns (end: PassEnd, used: nat)
      requires i < |players| && next <= |rolls|
      modifies players[i]
      ensures next <= used <= |rolls|
      ensures Pass(players[i..], old(States(players)), rolls, next)
              == if end == Finished then Pass(players[i + 1..], States(players), rolls, used)
                 else PassResult(end, States(players), used)
    {
      var player := players[i];
      ghost var before := States(players);
      used := next;
      if player.hasCompleted {
        PassSkipsEntry(players, before, rolls, next, i);
      } else {
        var h := player.moveHandlers;
        if h == 0 || next + h > |rolls| {
          PassStopsAtEntry(players, before, rolls, next, i);
          return if h == 0 then NoHandler else Starved, next;
        }
        PlayTurn(players, i, rolls, next);
        used := next + h;
        PassPlaysEntry(players, before, rolls, next, i, States(players));
      }
      end := Finished;
    }
  }
}

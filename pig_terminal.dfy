/** The terminal version of Pig, diceGame/main.js. Its `main` is a pair of
    nested loops over the local scores, the current player and the turn score;
    each answer typed at the prompt drives one step. Here the answers arrive as
    a sequence, each paired with the value `rollDie` would produce if the answer
    asks for a roll. The game stops when a player reaches 20, or when the
    answers run out (where the program would keep waiting at the prompt).

    `Run` is the specification: the state after a sequence of answers, one
    `Step` at a time. `PlayGame` keeps the source's loops and is proved to end
    in `Run(Start, inputs)`. */
module PigTerminal {
  import opened Wrappers
  import opened PigDice

  /** One answer at the prompt and the die value a roll would produce. */
  datatype Input = Input(answer: string, die: int)

  /** The loop variables of `main` that outlive a single answer. */
  datatype Game = Game(player1Score: int, player2Score: int, currentPlayer: int, turnScore: int)

  const Start: Game := Game(0, 0, 1, 0)

  /** `action.toLowerCase() === "r"`. */
  predicate IsRoll(answer: string)
  {
    answer == "r" || answer == "R"
  }

  /** `action.toLowerCase() === "h"`. */
  predicate IsHold(answer: string)
  {
    answer == "h" || answer == "H"
  }

  /** `currentPlayer === 1 ? 2 : 1`. */
  function Other(player: int): (r: int)
    ensures r == 1 || r == 2
    ensures player == 1 <==> r == 2
  {
    if player == 1 then 2 else 1
  }

  /** The total of `player` (the `else` branch of the hold serves any player other than 1). */
  function ScoreOf(g: Game, player: int): int
  {
    if player == 1 then g.player1Score else g.player2Score
  }

  /** The condition that ends the outer loop. */
  predicate Over(g: Game)
  {
    CheckWin(g.player1Score, TargetScore) || CheckWin(g.player2Score, TargetScore)
  }

  /** The effect of one answer during a turn. A roll goes through `processTurn`;
      a 1 ends the turn. A hold banks the turn score, whatever it is, into the
      current player's total and ends the turn. Anything else changes nothing.
      A finished turn hands over to the other player with a fresh turn score. */
  function Step(g: Game, input: Input): Game
  {
    if IsRoll(input.answer) then
      var result := ProcessTurn(input.die, g.turnScore);
      if result.turnOver then Game(g.player1Score, g.player2Score, Other(g.currentPlayer), 0)
      else g.(turnScore := result.turnScore)
    else if IsHold(input.answer) then
      if g.currentPlayer == 1 then
        Game(AddToScore(g.player1Score, g.turnScore), g.player2Score, Other(g.currentPlayer), 0)
      else
        Game(g.player1Score, AddToScore(g.player2Score, g.turnScore), Other(g.currentPlayer), 0)
    else g
  }

  /** The state after the answers: steps are taken while nobody has won. */
  function Run(g: Game, inputs: seq<Input>): Game
    decreases |inputs|
  {
    if Over(g) || |inputs| == 0 then g
    else Run(Step(g, inputs[0]), inputs[1..])
  }

  /** Every die value lies in 1..6, as `rollDie` guarantees. */
  predicate FairDice(inputs: seq<Input>)
  {
    forall i :: 0 <= i < |inputs| ==> 1 <= inputs[i].die <= 6
  }

  // ---------------------------------------------------------------------------
  // One step
  // ---------------------------------------------------------------------------

  /** Rolling a 1 ends the turn and banks nothing: both totals stay, the other
      player is up, and the turn score is gone. */
  lemma RollOfOneBanksNothing(g: Game, input: Input)
    requires IsRoll(input.answer) && input.die == 1
    ensures Step(g, input) == Game(g.player1Score, g.player2Score, Other(g.currentPlayer), 0)
  {
  }

  /** Any other roll keeps the turn going and adds its value to the turn score. */
  lemma OtherRollAddsToTurn(g: Game, input: Input)
    requires IsRoll(input.answer) && input.die != 1
    ensures Step(g, input) == g.(turnScore := g.turnScore + input.die)
  {
  }

  /** A hold adds the turn score to the current player's total only, hands the
      turn over, and is accepted even when the turn score is 0. */
  lemma HoldBanksForCurrentPlayerOnly(g: Game, input: Input)
    requires IsHold(input.answer)
    ensures ScoreOf(Step(g, input), g.currentPlayer) == ScoreOf(g, g.currentPlayer) + g.turnScore
    ensures ScoreOf(Step(g, input), Other(g.currentPlayer)) == ScoreOf(g, Other(g.currentPlayer))
    ensures Step(g, input).currentPlayer == Other(g.currentPlayer) && Step(g, input).turnScore == 0
    ensures g.turnScore == 0 && (g.currentPlayer == 1 || g.currentPlayer == 2) ==>
      Step(g, input) == g.(currentPlayer := Other(g.currentPlayer))
  {
  }

  /** An answer that is neither r nor h (in either case) changes nothing and the
      turn goes on. */
  lemma InvalidAnswerChangesNothing(g: Game, input: Input)
    requires !IsRoll(input.answer) && !IsHold(input.answer)
    ensures Step(g, input) == g
  {
  }

  /** A step either keeps the player and the totals (the turn goes on) or ends
      the turn: the other player is up with a turn score of 0. */
  lemma StepEndsTurnOrKeepsPlayer(g: Game, input: Input)
    requires g.currentPlayer == 1 || g.currentPlayer == 2
    ensures Step(g, input).currentPlayer == g.currentPlayer || Step(g, input).currentPlayer == Other(g.currentPlayer)
    ensures Step(g, input).currentPlayer == g.currentPlayer ==>
      Step(g, input).player1Score == g.player1Score && Step(g, input).player2Score == g.player2Score
    ensures Step(g, input).currentPlayer != g.currentPlayer ==> Step(g, input).turnScore == 0
  {
  }

  // ---------------------------------------------------------------------------
  // Whole games
  // ---------------------------------------------------------------------------

  /** What holds of every state the game reaches: a valid player, no negative
      score, never two winners, and once the game is over the winner is the
      player who has just handed the turn over. */
  predicate Reachable(g: Game)
  {
    && (g.currentPlayer == 1 || g.currentPlayer == 2)
    && g.player1Score >= 0 && g.player2Score >= 0 && g.turnScore >= 0
    && !(CheckWin(g.player1Score, TargetScore) && CheckWin(g.player2Score, TargetScore))
    && (Over(g) ==> CheckWin(ScoreOf(g, Other(g.currentPlayer)), TargetScore))
  }

  lemma StartIsReachable()
    ensures Reachable(Start) && !Over(Start)
  {
  }

  lemma StepKeepsReachable(g: Game, input: Input)
    requires Reachable(g) && !Over(g) && 1 <= input.die <= 6
    ensures Reachable(Step(g, input))
    ensures Step(g, input).player1Score >= g.player1Score && Step(g, input).player2Score >= g.player2Score
  {
  }

  lemma {:induction false} RunKeepsReachable(g: Game, inputs: seq<Input>)
    requires Reachable(g) && FairDice(inputs)
    ensures Reachable(Run(g, inputs))
    ensures Run(g, inputs).player1Score >= g.player1Score && Run(g, inputs).player2Score >= g.player2Score
    decreases |inputs|
  {
    if !Over(g) && |inputs| > 0 {
      StepKeepsReachable(g, inputs[0]);
      RunKeepsReachable(Step(g, inputs[0]), inputs[1..]);
    }
  }

  /** A finished game has exactly one winner, and it is the player who made the
      last move: the source flips `currentPlayer` once more after the winning
      hold, so the player left current is the loser. */
  lemma {:induction false} GameHasOneWinner(inputs: seq<Input>)
    requires FairDice(inputs)
    ensures Over(Run(Start, inputs)) ==>
      (CheckWin(Run(Start, inputs).player1Score, TargetScore) <==> !CheckWin(Run(Start, inputs).player2Score, TargetScore))
    ensures Over(Run(Start, inputs)) ==>
      CheckWin(ScoreOf(Run(Start, inputs), Other(Run(Start, inputs).currentPlayer)), TargetScore)
  {
    RunKeepsReachable(Start, inputs);
  }

  /** The run after the first answer continues the run before it. */
  lemma RunUnfold(g: Game, inputs: seq<Input>, k: nat)
    requires k < |inputs| && !Over(g)
    ensures Run(g, inputs[k..]) == Run(Step(g, inputs[k]), inputs[k + 1..])
  {
    assert inputs[k..][1..] == inputs[k + 1..];
  }

  /** `main`: the game loop and the turn loop, reading one input per prompt. The
      final state is the specified run, and the winner announced is player 1
      exactly when player 1 reached the target. */
  method PlayGame(inputs: seq<Input>) returns (final: Game, winner: Option<int>)
    requires FairDice(inputs)
    ensures final == Run(Start, inputs)
    ensures winner.Some? <==> Over(final)
    ensures winner == Some(1) <==> CheckWin(final.player1Score, TargetScore)
    ensures winner == Some(2) <==> CheckWin(final.player2Score, TargetScore)
  {
    var player1Score, player2Score, currentPlayer := 0, 0, 1;
    var k := 0;
    var waiting := false;
    final := Start;
    while !waiting && !CheckWin(player1Score, TargetScore) && !CheckWin(player2Score, TargetScore)
      invariant 0 <= k <= |inputs|
      invariant !waiting ==> Run(Start, inputs) == Run(Game(player1Score, player2Score, currentPlayer, 0), inputs[k..])
      invariant waiting ==> final == Run(Start, inputs)
      decreases |inputs| - k + (if waiting then 0 else 1)
    {
      var turnScore := 0;
      var turnActive := true;
      ghost var turnStart := k;
      while turnActive && k < |inputs|
        invariant turnStart <= k <= |inputs|
        invariant turnActive ==> !CheckWin(player1Score, TargetScore) && !CheckWin(player2Score, TargetScore)
        invariant turnActive ==>
          Run(Start, inputs) == Run(Game(player1Score, player2Score, currentPlayer, turnScore), inputs[k..])
        invariant !turnActive ==>
          Run(Start, inputs) == Run(Game(player1Score, player2Score, Other(currentPlayer), 0), inputs[k..])
        invariant !turnActive ==> k > turnStart
        decreases |inputs| - k
      {
        ghost var before := Game(player1Score, player2Score, currentPlayer, turnScore);
        RunUnfold(before, inputs, k);
        var action := inputs[k].answer;
        if IsRoll(action) {
          var roll := inputs[k].die;
          var result := ProcessTurn(roll, turnScore);
          turnScore := result.turnScore;
          if result.turnOver {
            turnActive := false;
          }
        } else if IsHold(action) {
          if currentPlayer == 1 {
            player1Score := AddToScore(player1Score, turnScore);
          } else {
            player2Score := AddToScore(player2Score, turnScore);
          }
          turnActive := false;
        }
        k := k + 1;
      }
      if turnActive {
        final := Game(player1Score, player2Score, currentPlayer, turnScore);
        waiting := true;
      } else {
        currentPlayer := Other(currentPlayer);
      }
    }
    if !waiting {
      final := Game(player1Score, player2Score, currentPlayer, 0);
    }
    GameHasOneWinner(inputs);
    if !Over(final) {
      winner := None;
    } else if CheckWin(final.player1Score, TargetScore) {
      winner := Some(1);
    } else {
      winner := Some(2);
    }
  }
}

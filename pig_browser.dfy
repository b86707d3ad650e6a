/** The browser version of Pig, diceGame/game.js. The page keeps its state in
    module-level variables that the click handlers update: both totals, the
    current player and the turn score. The roll and hold buttons are enabled and
    disabled together, so one flag stands for both.

    The handlers finish their work after `setTimeout` delays; each method here
    is the handler together with the callbacks it schedules, run to completion.
    The die value is an argument, since it comes from `Math.random`. */
module PigBrowser {
  import opened PigDice
  import PigTerminal

  /** The state the handlers share. */
  datatype Board = Board(player1Score: int, player2Score: int, currentPlayer: int, turnScore: int, buttonsEnabled: bool)

  /** The state after `resetGame`, and the state the page starts in. */
  const Fresh: Board := Board(0, 0, 1, 0, true)

  /** The total of `player`, read the way the terminal game reads it. */
  function ScoreOf(b: Board, player: int): int
  {
    PigTerminal.ScoreOf(AsGame(b), player)
  }

  /** The test `hold` makes before ending the game: the current player (1 or 2)
      has a winning total. */
  predicate HasWon(b: Board)
  {
    (b.currentPlayer == 1 || b.currentPlayer == 2) && CheckWin(ScoreOf(b, b.currentPlayer), TargetScore)
  }

  /** A board the page can show: a valid player, no negative score, and the
      buttons enabled exactly while nobody has won; once the game is over, the
      current player is the winner. */
  predicate ValidBoard(b: Board)
  {
    && (b.currentPlayer == 1 || b.currentPlayer == 2)
    && b.player1Score >= 0 && b.player2Score >= 0 && b.turnScore >= 0
    && (b.buttonsEnabled <==> b.player1Score < TargetScore && b.player2Score < TargetScore)
    && (!b.buttonsEnabled ==> HasWon(b) && ScoreOf(b, PigTerminal.Other(b.currentPlayer)) < TargetScore)
  }

  /** `switchPlayer()`: the other player is up with a turn score of 0, and the
      buttons are enabled again. */
  function Switched(b: Board): Board
  {
    b.(currentPlayer := PigTerminal.Other(b.currentPlayer), turnScore := 0, buttonsEnabled := true)
  }

  /** `rollDice()` once its timers have fired: a 1 loses the turn score and
      passes the turn; any other value is added to the turn score. */
  function Rolled(b: Board, roll: int): Board
  {
    if roll == 1 then Switched(b.(turnScore := 0))
    else b.(turnScore := b.turnScore + roll, buttonsEnabled := true)
  }

  /** The totals after `hold` has banked the turn score. */
  function Banked(b: Board): Board
  {
    if b.currentPlayer == 1 then b.(player1Score := b.player1Score + b.turnScore)
    else b.(player2Score := b.player2Score + b.turnScore)
  }

  /** `hold()` once its timer has fired: nothing happens while the turn score is
      0; otherwise the turn score is banked, and either the holder has won (the
      game ends with the buttons disabled and no switch) or the turn passes. */
  function Held(b: Board): Board
  {
    if b.turnScore == 0 then b
    else
      var banked := Banked(b);
      if HasWon(banked) then banked.(buttonsEnabled := false)
      else Switched(banked.(turnScore := 0))
  }

  // ---------------------------------------------------------------------------
  // Properties of the transitions
  // ---------------------------------------------------------------------------

  /** A hold before any roll of the turn changes nothing. */
  lemma HoldWithoutPointsChangesNothing(b: Board)
    requires b.turnScore == 0
    ensures Held(b) == b
  {
  }

  /** A hold adds the turn score to the current player's total only. */
  lemma HoldBanksForCurrentPlayerOnly(b: Board)
    requires ValidBoard(b) && b.turnScore > 0
    ensures ScoreOf(Held(b), b.currentPlayer) == ScoreOf(b, b.currentPlayer) + b.turnScore
    ensures ScoreOf(Held(b), PigTerminal.Other(b.currentPlayer)) == ScoreOf(b, PigTerminal.Other(b.currentPlayer))
  {
  }

  /** A hold that brings the holder to 20 ends the game without switching
      player; any other hold passes the turn. */
  lemma HoldEndsGameOrPassesTurn(b: Board)
    requires ValidBoard(b) && b.buttonsEnabled && b.turnScore > 0
    ensures ScoreOf(b, b.currentPlayer) + b.turnScore >= TargetScore ==>
      !Held(b).buttonsEnabled && Held(b).currentPlayer == b.currentPlayer
    ensures ScoreOf(b, b.currentPlayer) + b.turnScore < TargetScore ==>
      Held(b).buttonsEnabled && Held(b).currentPlayer == PigTerminal.Other(b.currentPlayer) && Held(b).turnScore == 0
  {
  }

  /** A 1 passes the turn and banks nothing; any other roll adds to the turn score. */
  lemma RollCases(b: Board, roll: int)
    ensures roll == 1 ==> Rolled(b, roll) == b.(currentPlayer := PigTerminal.Other(b.currentPlayer), turnScore := 0, buttonsEnabled := true)
    ensures roll != 1 ==> Rolled(b, roll).turnScore == b.turnScore + roll
    ensures Rolled(b, roll).player1Score == b.player1Score && Rolled(b, roll).player2Score == b.player2Score
  {
  }

  /** Switching twice gives the turn back, each time with a turn score of 0. */
  lemma SwitchToggles(b: Board)
    requires b.currentPlayer == 1 || b.currentPlayer == 2
    ensures Switched(b).currentPlayer != b.currentPlayer
    ensures Switched(Switched(b)).currentPlayer == b.currentPlayer
    ensures Switched(b).turnScore == 0 && Switched(b).player1Score == b.player1Score && Switched(b).player2Score == b.player2Score
  {
  }

  lemma FreshIsValid()
    ensures ValidBoard(Fresh)
  {
  }

  /** The handlers keep the board valid and never lower a total. */
  lemma RollKeepsValid(b: Board, roll: int)
    requires ValidBoard(b) && b.buttonsEnabled && 1 <= roll <= 6
    ensures ValidBoard(Rolled(b, roll)) && Rolled(b, roll).buttonsEnabled
  {
  }

  lemma HoldKeepsValid(b: Board)
    requires ValidBoard(b) && b.buttonsEnabled
    ensures ValidBoard(Held(b))
    ensures Held(b).player1Score >= b.player1Score && Held(b).player2Score >= b.player2Score
  {
  }

  // ---------------------------------------------------------------------------
  // The two drivers compared
  // ---------------------------------------------------------------------------

  /** The terminal game state the board corresponds to. */
  function AsGame(b: Board): PigTerminal.Game
  {
    PigTerminal.Game(b.player1Score, b.player2Score, b.currentPlayer, b.turnScore)
  }

  /** On a roll the two drivers agree. */
  lemma DriversAgreeOnRolls(b: Board, input: PigTerminal.Input)
    requires PigTerminal.IsRoll(input.answer)
    ensures AsGame(Rolled(b, input.die)) == PigTerminal.Step(AsGame(b), input)
  {
  }

  /** On a hold they differ in two places. With a turn score of 0 the terminal
      passes the turn while the page refuses the hold. After a winning hold the
      terminal still switches player while the page keeps the winner current.
      Otherwise they agree. */
  lemma DriversOnHold(b: Board, input: PigTerminal.Input)
    requires ValidBoard(b) && b.buttonsEnabled && PigTerminal.IsHold(input.answer)
    ensures b.turnScore == 0 ==>
      Held(b) == b && PigTerminal.Step(AsGame(b), input).currentPlayer != b.currentPlayer
    ensures b.turnScore > 0 && !PigTerminal.Over(PigTerminal.Step(AsGame(b), input)) ==>
      AsGame(Held(b)) == PigTerminal.Step(AsGame(b), input)
    ensures b.turnScore > 0 && PigTerminal.Over(PigTerminal.Step(AsGame(b), input)) ==>
      Held(b).player1Score == PigTerminal.Step(AsGame(b), input).player1Score
      && Held(b).player2Score == PigTerminal.Step(AsGame(b), input).player2Score
      && Held(b).currentPlayer == b.currentPlayer
      && PigTerminal.Step(AsGame(b), input).currentPlayer == PigTerminal.Other(b.currentPlayer)
  {
  }

  // ---------------------------------------------------------------------------
  // The page
  // ---------------------------------------------------------------------------

  class PigPage {
    var player1Score: int
    var player2Score: int
    var currentPlayer: int
    var turnScore: int
    var buttonsEnabled: bool

    function State(): Board
      reads this
    {
      Board(player1Score, player2Score, currentPlayer, turnScore, buttonsEnabled)
    }

    predicate Valid()
      reads this
    {
      ValidBoard(State())
    }

    /** The module-level initialisers: 0, 0, player 1, turn score 0. */
    constructor ()
      ensures Valid() && State() == Fresh
    {
      player1Score, player2Score, currentPlayer, turnScore := 0, 0, 1, 0;
      buttonsEnabled := true;
    }

    /** `switchPlayer()`. */
    method SwitchPlayer()
      modifies this
      ensures State() == Switched(old(State()))
    {
      currentPlayer := if currentPlayer == 1 then 2 else 1;
      turnScore := 0;
      buttonsEnabled := true;
    }

    /** `rollDice()` with the die showing `roll`. A click reaches only an
        enabled button. */
    method RollDice(roll: int)
      requires Valid() && buttonsEnabled && 1 <= roll <= 6
      modifies this
      ensures Valid() && State() == Rolled(old(State()), roll)
    {
      RollKeepsValid(State(), roll);
      buttonsEnabled := false;
      if roll == 1 {
        turnScore := 0;
        SwitchPlayer();
      } else {
        turnScore := turnScore + roll;
        buttonsEnabled := true;
      }
    }

    /** `hold()`. */
    method Hold()
      requires Valid() && buttonsEnabled
      modifies this
      ensures Valid() && State() == Held(old(State()))
      ensures player1Score >= old(player1Score) && player2Score >= old(player2Score)
    {
      HoldKeepsValid(State());
      if turnScore == 0 {
        return;
      }
      if currentPlayer == 1 {
        player1Score := player1Score + turnScore;
      } else {
        player2Score := player2Score + turnScore;
      }
      if (currentPlayer == 1 && player1Score >= TargetScore) || (currentPlayer == 2 && player2Score >= TargetScore) {
        buttonsEnabled := false;
        return;
      }
      turnScore := 0;
      SwitchPlayer();
    }

    /** `resetGame()`: back to the initial state with the buttons enabled. */
    method ResetGame()
      modifies this
      ensures Valid() && State() == Fresh
    {
      player1Score := 0;
      player2Score := 0;
      currentPlayer := 1;
      turnScore := 0;
      buttonsEnabled := true;
    }
  }
}

/** The pure rules of the Pig dice game, diceGame/pigdice.js: banking a turn,
    the win test, the effect of one roll on the turn score, the ASCII die faces
    and the progress bars of the scoreboard. Scores and die values are integers. */
module PigDice {
  import opened Wrappers

  /** The score a player needs to win. */
  const TargetScore: int := 20

  /** `addToScore(currentScore, turnScore)`: the new total after banking a turn. */
  function AddToScore(currentScore: int, turnScore: int): (r: int)
    ensures turnScore >= 0 ==> r >= currentScore
    ensures r - turnScore == currentScore
  {
    currentScore + turnScore
  }

  /** The two examples in the documentation of `addToScore`. */
  lemma AddToScoreExamples()
    ensures AddToScore(10, 5) == 15
    ensures AddToScore(0, 8) == 8
  {
  }

  /** `checkWin(score, targetScore = 20)`. */
  function CheckWin(score: int, targetScore: int := TargetScore): bool
  {
    score >= targetScore
  }

  /** Once a score has won it keeps winning as it grows; reaching the target
      exactly is enough. */
  lemma CheckWinMonotone(score: int, larger: int, targetScore: int)
    requires score <= larger
    ensures CheckWin(score, targetScore) ==> CheckWin(larger, targetScore)
    ensures CheckWin(targetScore, targetScore)
    ensures !CheckWin(targetScore - 1, targetScore)
  {
  }

  /** The three examples in the documentation of `checkWin`. */
  lemma CheckWinExamples()
    ensures CheckWin(20, 20) && CheckWin(25, 20) && !CheckWin(15, 20)
    ensures CheckWin(20) && !CheckWin(19)
  {
  }

  /** The object `processTurn` returns. */
  datatype TurnResult = TurnResult(turnScore: int, turnOver: bool)

  /** `processTurn(rollValue, currentTurnScore)`: a 1 loses the turn's points and
      ends the turn; any other value is added to them. */
  function ProcessTurn(rollValue: int, currentTurnScore: int): (r: TurnResult)
    ensures r.turnOver <==> rollValue == 1
    ensures r.turnOver ==> r.turnScore == 0
    ensures !r.turnOver ==> r.turnScore - currentTurnScore == rollValue
  {
    if rollValue == 1 then TurnResult(0, true)
    else TurnResult(currentTurnScore + rollValue, false)
  }

  /** With a six-sided die the turn score never goes negative, and a roll that
      does not end the turn raises it by 2 to 6. */
  lemma ProcessTurnBounds(rollValue: int, currentTurnScore: int)
    requires 1 <= rollValue <= 6 && currentTurnScore >= 0
    ensures ProcessTurn(rollValue, currentTurnScore).turnScore >= 0
    ensures !ProcessTurn(rollValue, currentTurnScore).turnOver ==>
      currentTurnScore + 2 <= ProcessTurn(rollValue, currentTurnScore).turnScore <= currentTurnScore + 6
  {
  }

  /** The three examples in the documentation of `processTurn`. */
  lemma ProcessTurnExamples()
    ensures ProcessTurn(5, 10) == TurnResult(15, false)
    ensures ProcessTurn(1, 10) == TurnResult(0, true)
    ensures ProcessTurn(3, 0) == TurnResult(3, false)
  {
  }

  // ---------------------------------------------------------------------------
  // Die faces
  // ---------------------------------------------------------------------------

  const Top: string := "┌─────────┐"
  const Bottom: string := "└─────────┘"
  const Blank: string := "│         │"
  const Centre: string := "│    ●    │"
  const LeftPip: string := "│  ●      │"
  const RightPip: string := "│      ●  │"
  const BothPips: string := "│  ●   ●  │"

  /** The five lines of the face showing `value`, or None when the lookup table
      has no entry for it. */
  function DieFace(value: int): (r: Option<seq<string>>)
    ensures r.Some? <==> 1 <= value <= 6
    ensures r.Some? ==> |r.value| == 5 && r.value[0] == Top && r.value[4] == Bottom
    ensures r.Some? ==> forall i :: 0 <= i < 5 ==> |r.value[i]| == 11
  {
    if value == 1 then Some([Top, Blank, Centre, Blank, Bottom])
    else if value == 2 then Some([Top, LeftPip, Blank, RightPip, Bottom])
    else if value == 3 then Some([Top, LeftPip, Centre, RightPip, Bottom])
    else if value == 4 then Some([Top, BothPips, Blank, BothPips, Bottom])
    else if value == 5 then Some([Top, BothPips, Centre, BothPips, Bottom])
    else if value == 6 then Some([Top, BothPips, BothPips, BothPips, Bottom])
    else None
  }

  /** `lines.join("\n")`. */
  function Join(lines: seq<string>): string
  {
    if |lines| == 0 then ""
    else if |lines| == 1 then lines[0]
    else lines[0] + "\n" + Join(lines[1..])
  }

  /** `displayDice(value)`: the face joined into one string, or the message for a
      value outside 1..6. */
  function DisplayDice(value: int): (r: string)
    ensures !(1 <= value <= 6) ==> r == "Invalid die value"
    ensures 1 <= value <= 6 ==> r == Join(DieFace(value).value)
  {
    match DieFace(value)
    case Some(lines) => Join(lines)
    case None => "Invalid die value"
  }

  /** The number of pips drawn in `s`. */
  function Pips(s: string): nat
  {
    multiset(s)['●']
  }

  /** The pips in the lines of a face. */
  function PipsInLines(lines: seq<string>): nat
  {
    if |lines| == 0 then 0 else Pips(lines[0]) + PipsInLines(lines[1..])
  }

  lemma {:induction false} JoinedPips(lines: seq<string>)
    ensures Pips(Join(lines)) == PipsInLines(lines)
  {
    if |lines| >= 2 {
      assert multiset(Join(lines)) == multiset(lines[0]) + multiset("\n") + multiset(Join(lines[1..]));
      JoinedPips(lines[1..]);
    }
  }

  lemma PiplessTop()
    ensures Pips(Top) == 0
  {
  }

  lemma PiplessBottom()
    ensures Pips(Bottom) == 0
  {
  }

  lemma PiplessBlank()
    ensures Pips(Blank) == 0
  {
  }

  lemma {:induction false} FivePips(a: string, b: string, c: string, d: string, e: string)
    ensures PipsInLines([a, b, c, d, e]) == Pips(a) + Pips(b) + Pips(c) + Pips(d) + Pips(e)
  {
    assert [a, b, c, d, e][1..] == [b, c, d, e];
    assert [b, c, d, e][1..] == [c, d, e];
    assert [c, d, e][1..] == [d, e];
    assert [d, e][1..] == [e];
    assert [e][1..] == [];
    assert PipsInLines([e]) == Pips(e);
    assert PipsInLines([d, e]) == Pips(d) + Pips(e);
    assert PipsInLines([c, d, e]) == Pips(c) + Pips(d) + Pips(e);
    assert PipsInLines([b, c, d, e]) == Pips(b) + Pips(c) + Pips(d) + Pips(e);
  }

  lemma OnePipLines()
    ensures Pips(Centre) == 1 && Pips(LeftPip) == 1 && Pips(RightPip) == 1
  {
  }

  lemma TwoPipLine()
    ensures Pips(BothPips) == 2
  {
  }

  /** The pips of a joined five-line face are those of its lines. */
  lemma FacePips(lines: seq<string>)
    requires |lines| == 5
    ensures Pips(Join(lines)) == Pips(lines[0]) + Pips(lines[1]) + Pips(lines[2]) + Pips(lines[3]) + Pips(lines[4])
  {
    JoinedPips(lines);
    FivePips(lines[0], lines[1], lines[2], lines[3], lines[4]);
    assert lines == [lines[0], lines[1], lines[2], lines[3], lines[4]];
  }

  lemma FaceTotal(value: int, a: string, b: string, c: string, d: string, e: string)
    requires DieFace(value) == Some([a, b, c, d, e])
    ensures Pips(DisplayDice(value)) == Pips(a) + Pips(b) + Pips(c) + Pips(d) + Pips(e)
  {
    FacePips([a, b, c, d, e]);
  }

  /** Every face `displayDice` draws shows as many pips as the value it stands for. */
  lemma DisplayDiceShowsValue(value: int)
    requires 1 <= value <= 6
    ensures Pips(DisplayDice(value)) == value
  {
    PiplessTop();
    PiplessBottom();
    if value == 1 {
      FaceTotal(value, Top, Blank, Centre, Blank, Bottom);
      PiplessBlank();
      OnePipLines();
    } else if value == 2 {
      FaceTotal(value, Top, LeftPip, Blank, RightPip, Bottom);
      PiplessBlank();
      OnePipLines();
    } else if value == 3 {
      FaceTotal(value, Top, LeftPip, Centre, RightPip, Bottom);
      OnePipLines();
    } else if value == 4 {
      FaceTotal(value, Top, BothPips, Blank, BothPips, Bottom);
      PiplessBlank();
      TwoPipLine();
    } else if value == 5 {
      FaceTotal(value, Top, BothPips, Centre, BothPips, Bottom);
      OnePipLines();
      TwoPipLine();
    } else {
      FaceTotal(value, Top, BothPips, BothPips, BothPips, Bottom);
      TwoPipLine();
    }
  }

  // ---------------------------------------------------------------------------
  // Progress bars
  // ---------------------------------------------------------------------------

  /** `c.repeat(n)`. */
  function Repeat(c: char, n: nat): (r: string)
    ensures |r| == n && forall i :: 0 <= i < n ==> r[i] == c
  {
    if n == 0 then "" else [c] + Repeat(c, n - 1)
  }

  /** `s.padEnd(targetLength, c)`: unchanged when already long enough, otherwise
      extended with `c` up to `targetLength`. */
  function PadEnd(s: string, targetLength: int, c: char): (r: string)
    ensures |s| >= targetLength ==> r == s
    ensures |s| < targetLength ==> |r| == targetLength && r[..|s|] == s
    ensures forall i :: |s| <= i < |r| ==> r[i] == c
  {
    if |s| >= targetLength then s else s + Repeat(c, targetLength - |s|)
  }

  function Min(a: int, b: int): int
  {
    if a <= b then a else b
  }

  /** A progress bar of `displayScoreboard`: `"█".repeat(Math.min(score,
      targetScore)).padEnd(targetScore, "░")`. `repeat` throws on a negative
      count, so the score and the target are non-negative. */
  function ProgressBar(score: int, targetScore: int): (r: string)
    requires score >= 0 && targetScore >= 0
    ensures |r| == targetScore
    ensures forall i :: 0 <= i < |r| ==> (r[i] == '█' <==> i < score)
    ensures forall i :: 0 <= i < |r| ==> (r[i] == '░' <==> i >= score)
  {
    PadEnd(Repeat('█', Min(score, targetScore) as nat), targetScore, '░')
  }

  /** A winning score fills the whole bar; a score of 0 leaves it empty. */
  lemma ProgressBarEnds(score: int, targetScore: int)
    requires score >= 0 && targetScore >= 0
    ensures CheckWin(score, targetScore) ==> ProgressBar(score, targetScore) == Repeat('█', targetScore as nat)
    ensures ProgressBar(0, targetScore) == Repeat('░', targetScore as nat)
  {
  }
}

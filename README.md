# Gold futures simulator, area utilities and Pig dice game: a Dafny model

This project models three small JavaScript programs from one repository and
proves properties about them.

- **Gold futures simulator** (`demo-edit-file/index.js` and its twin
  `demo-edit-file/server.js`). It keeps a price history capped at 50 quotes.
  `analyzeMarket` turns the history into a LONG, SHORT or WAIT signal from the
  MA5/MA10/MA20 moving averages, the momentum and the volatility.
  `executeTrade` closes an open position at the current price, or opens one
  when the signal says so. Opening commits 30% of the capital as margin with a
  leverage of 1/0.3. Closing realises the relative price change times the
  capital and appends a record to the trade history. The server builds a
  report after each quote (statistics, the open position, the last five
  trades). The pure part is module `GoldMarket`. The mutable module-level
  state is the class `GoldTrading.Trader`, proved against functions on
  `Session` values. The report is `GoldServer`.
- **Numeric utilities** (`demo-1/index.js`, module `MathUtils`):
  - triangle and rectangle areas with their thrown errors;
  - the trial-division prime test and the sum of primes, as loops proved
    against a prime predicate;
  - a sort that returns a sorted permutation;
  - the Fibonacci prefix, as a loop proved against the recurrence.
- **Area formulas** (`demo-1/areaUtils.js`, module `AreaUtils`). There are
  thirteen validated formulas. Each returns `Failure` with the source's
  message exactly when it would throw, and a positive area otherwise. Lemmas
  relate the formulas to each other.
- **Pig dice game** (`diceGame/`):
  - `PigDice` holds the pure rules: banking, the win test, one roll's effect,
    the die faces and the progress bars.
  - `PigTerminal` is the terminal driver `main.js`. It is a specification
    `Run` over a sequence of answers plus the loop `PlayGame`, which is proved
    to reach the same state.
  - `PigBrowser` is the page `game.js`. It is a class whose click handlers are
    proved against transition functions. A lemma compares the two drivers.

Thrown errors become `Failure` values of `Result`; "no value" becomes `None`
of `Option` (module `Wrappers`). Prices, lengths and areas are exact reals.
Dice values, answers typed at the prompt and quotes fetched from the network
are inputs.

## Model

| member | source | states |
|---|---|---|
| GoldMarket.Pushed | demo-edit-file/index.js:382-385 | a push keeps the history within 50 samples and makes the new price the newest one |
| GoldMarket.PushedIsFifo | demo-edit-file/index.js:410-413 | below the cap a push only appends; at the cap it evicts exactly the oldest sample |
| GoldMarket.PushedAll | demo-edit-file/server.js:307-310 | the history after each quote of a feed is pushed in arrival order, one capped push at a time (no contract of its own; `PushedAllKeepsNewest` states what it yields) |
| GoldMarket.PushedAllKeepsNewest | demo-edit-file/server.js:307-310 | whatever the feed of quotes, the history is exactly the newest 50 of them, in order |
| GoldMarket.MovingAverage | demo-edit-file/index.js:165-171 | `calculateMovingAverage`, with the source's two branches in the source's order: fewer samples than the period fall back to the newest sample or 0, otherwise the mean of the last `period` samples (no contract of its own; `MovingAverageFallback`, `MovingAverageOfConstant` and `RisingShortAverageAbove` state its properties) |
| GoldMarket.MovingAverageFallback | demo-edit-file/index.js:165-171 | with fewer samples than the period, the average is the newest sample, or 0 for an empty history |
| GoldMarket.MovingAverageOfConstant | demo-edit-file/index.js:165-171 | when the last `period` samples are equal, their average is that sample |
| GoldMarket.SeqMax | demo-edit-file/index.js:198-200 | the maximum is one of the samples and no sample exceeds it |
| GoldMarket.SeqMin | demo-edit-file/index.js:198-200 | the minimum is one of the samples and no sample is below it |
| GoldMarket.ComputeIndicators | demo-edit-file/index.js:187-202 | the current price is the newest sample, the momentum is its change from 6 samples back, and the volatility is never negative |
| GoldMarket.TrendDecision | demo-edit-file/index.js:209-237 | WAIT exactly when the confidence is 0; LONG only with positive momentum and the price above MA10, SHORT only in the mirror case; the confidence lies in 60..90 for a strong trend and 50..75 for a moderate one; strictly ordered averages with a failed inner test give WAIT with an empty reason |
| GoldMarket.VolatilityFilter | demo-edit-file/index.js:240-244 | a LONG or SHORT survives only at a volatility of at least 0.05%; below that it becomes WAIT for low volatility |
| GoldMarket.Analyze | demo-edit-file/index.js:177-260 | under 20 samples it answers WAIT for insufficient history; otherwise any trade signal has a confidence in 50..90, enough volatility, and momentum and price on the side of the trade |
| GoldMarket.ConstantHistoryWaits | demo-edit-file/index.js:177-260 | a flat history has zero momentum and zero volatility and is reported as sideways with WAIT |
| GoldMarket.RisingShortAverageAbove | demo-edit-file/index.js:165-171 | on a strictly rising history the k-sample average lies above the 2k-sample average |
| GoldMarket.RisingHistoryGoesLong | demo-edit-file/index.js:209-244 | a strictly rising history of 20 or more samples is a strong uptrend: LONG with a confidence of 60..90, unless the low-volatility override turns it into WAIT |
| GoldTrading.NewPosition | demo-edit-file/index.js:267-281 | the position keeps the side and the entry price, and margin times leverage is the whole capital |
| GoldTrading.ProfitLoss | demo-edit-file/index.js:290-304 | the profit/loss of `closePosition`: for LONG the relative price rise times margin times leverage, otherwise the relative fall times the same (no contract of its own; `ProfitIsPriceChangeTimesCapital` states its meaning) |
| GoldTrading.UnrealizedPL | demo-edit-file/index.js:459-468 | 0 without a position; with one, exactly the profit/loss that closing at that price would realise |
| GoldTrading.AfterPush | demo-edit-file/index.js:382-385 | a new quote becomes the current price and is pushed onto the capped history, nothing else changes (no contract of its own; `PushPreservesValid` states what it keeps) |
| GoldTrading.Opened | demo-edit-file/index.js:267-281 | `openPosition` sets the position slot from the current capital, overwriting any open one, nothing else changes (no contract of its own; `OpenCloseAtEntryRoundTrip` pairs it with `Closed`) |
| GoldTrading.ProfitIsPriceChangeTimesCapital | demo-edit-file/index.js:287-336 | a LONG earns the relative price change times the capital at open, a SHORT earns its negation, and closing at the entry price earns nothing |
| GoldTrading.Closed | demo-edit-file/index.js:287-336 | without a position nothing changes; otherwise the position is gone, the capital moves by the profit/loss, and one record is appended whose capital-after is the new capital |
| GoldTrading.Executed | demo-edit-file/index.js:601-622 | `executeTrade`, with the source's branches in the source's order: stop without capital, close an open position at the current price, else open on LONG/SHORT (no contract of its own; `ExecuteTradeCases` and `ExecutePreservesValid` state its properties) |
| GoldTrading.StartIsValid | demo-edit-file/index.js:23-28 | the initial variables satisfy the session invariant |
| GoldTrading.PushPreservesValid | demo-edit-file/index.js:382-385 | a new positive quote keeps the invariant: a capped, positive history whose newest sample is the current price |
| GoldTrading.LedgerAppend | demo-edit-file/index.js:287-336 | appending a record whose capital-after is the running total keeps every record's capital-after equal to 10,000,000 plus the profit/loss up to it |
| GoldTrading.ClosePreservesValid | demo-edit-file/index.js:287-336 | closing keeps the session invariant |
| GoldTrading.ExecutePreservesValid | demo-edit-file/index.js:601-622 | every trading step keeps the invariant; the capital is always 10,000,000 plus the realised profit/loss |
| GoldTrading.ExecuteTradeCases | demo-edit-file/index.js:601-622 | no capital means no change; an open position is only closed; without one, a position is opened exactly when the analysis says LONG or SHORT, on that side, at the newest price, and no trade is recorded |
| GoldTrading.OpenCloseAtEntryRoundTrip | demo-edit-file/index.js:267-336 | opening and then closing at the entry price leaves the capital unchanged and records a profit/loss of 0 |
| GoldTrading.LongTenPercentExample | demo-edit-file/index.js:287-336 | a LONG bought at 1,000 and sold at 1,100 raises the capital by a tenth |
| GoldTrading.Trader.constructor | demo-edit-file/index.js:23-28 | the simulator starts valid, with 10,000,000 of capital, no history, no position and no trades |
| GoldTrading.Trader.PushPrice | demo-edit-file/index.js:382-385 | the new state is the capped push of the quote, and the invariant holds |
| GoldTrading.Trader.OpenPosition | demo-edit-file/index.js:267-281 | the new state is the old one with the position for the current capital, and the invariant holds |
| GoldTrading.Trader.ClosePosition | demo-edit-file/index.js:287-336 | the new state is the specified close of the old one, and the invariant holds |
| GoldTrading.Trader.ExecuteTrade | demo-edit-file/index.js:601-622 | the new state is the specified trading step of the old one, and the invariant holds |
| GoldServer.WinsAndLossesAtMostTrades | demo-edit-file/server.js:331-337 | winning and losing trades together never outnumber the trades |
| GoldServer.WinCount | demo-edit-file/server.js:332 | the number of trades with a strictly positive profit/loss (no contract of its own) |
| GoldServer.LossCount | demo-edit-file/server.js:333 | the number of trades with a strictly negative profit/loss (no contract of its own) |
| GoldServer.WinRate | demo-edit-file/server.js:331-337 | the win rate lies in 0..100 and is 0 without trades |
| GoldServer.RecentTrades | demo-edit-file/server.js:370-382 | at most five trades, the newest first, each the matching record counted back from the end |
| GoldServer.BuildReport | demo-edit-file/server.js:313-389 | the trading part of the cached report, field by field from the session: capital, total profit/loss, its percentage, margin, the counts, the win rate, the open position with its unrealised profit/loss, the recent trades, the analysis and the sample count (no contract of its own; `ReportStatistics` and `ReportedPLIsWhatClosingRealises` state its properties) |
| GoldServer.ReportStatistics | demo-edit-file/server.js:331-389 | the report's total profit/loss is the capital minus 10,000,000 and the sum of the recorded trades; wins plus losses never exceed the trades; the position appears exactly when one is open |
| GoldServer.ReportedPLIsWhatClosingRealises | demo-edit-file/server.js:313-325 | the unrealised profit/loss reported is exactly what the next trading step realises at the same price |
| GoldServer.UpdateGoldData | demo-edit-file/server.js:291-391 | the quote is pushed, the invariant holds, and the report is built from the new state |
| MathUtils.CalculateTriangleArea | demo-1/index.js:7-12 | fails with the source's message exactly when a side is not positive; otherwise a positive area that is half of base times height |
| MathUtils.CalculateRectangleArea | demo-1/index.js:20-25 | fails with the source's message exactly when a side is not positive; otherwise a positive area |
| MathUtils.TriangleIsHalfRectangle | demo-1/index.js:7-25 | both accept the same inputs, and the triangle is half the rectangle |
| MathUtils.OddHasNoEvenDivisor | demo-1/index.js:37-46 | an odd number has no even divisor, so trial division skips the even candidates safely |
| MathUtils.NoSmallDivisorMeansPrime | demo-1/index.js:37-46 | a number with no divisor up to its square root is prime |
| MathUtils.IsPrime | demo-1/index.js:37-46 | true exactly for the primes |
| MathUtils.SumOfPrimes | demo-1/index.js:32-56 | the sum of all primes up to n, and 0 below 2 |
| MathUtils.PrimeSumUpToTen | demo-1/index.js:32-56 | the primes up to 10 sum to 17 |
| MathUtils.Insert | demo-1/index.js:58-60 | inserting into a sorted sequence gives a sorted sequence with one more occurrence of the element |
| MathUtils.SortArray | demo-1/index.js:58-60 | the result is sorted ascending and is a permutation of the input |
| MathUtils.Fibonacci | demo-1/index.js:62-71 | fails with the source's message exactly when n is not positive; otherwise the first n Fibonacci numbers, starting 0, 1, each later one the sum of the two before |
| AreaUtils.PiBounds | demo-1/areaUtils.js:32-35 | the constant used for pi lies between 3.14159 and 3.1416 |
| AreaUtils.SquareArea | demo-1/areaUtils.js:10-13 | fails with the source's message exactly when the side is not positive; otherwise positive |
| AreaUtils.RectangleArea | demo-1/areaUtils.js:21-25 | fails with the source's message exactly when a side is not positive; otherwise positive |
| AreaUtils.CircleArea | demo-1/areaUtils.js:32-35 | fails with the source's message exactly when the radius is not positive; otherwise positive |
| AreaUtils.TriangleArea | demo-1/areaUtils.js:43-47 | fails with the source's message exactly when the base or height is not positive; otherwise positive |
| AreaUtils.TriangleAreaHeronSquared | demo-1/areaUtils.js:56-63 | fails exactly when the sides do not form a triangle: the positivity message for a non-positive side, the triangle-inequality message otherwise; a triangle has a positive squared area |
| AreaUtils.TrapezoidArea | demo-1/areaUtils.js:72-77 | fails with the source's message exactly when a base or the height is not positive; otherwise positive |
| AreaUtils.ParallelogramArea | demo-1/areaUtils.js:85-89 | fails with the source's message exactly when the base or height is not positive; otherwise positive |
| AreaUtils.RhombusArea | demo-1/areaUtils.js:97-102 | fails with the source's message exactly when a diagonal is not positive; otherwise positive |
| AreaUtils.EllipseArea | demo-1/areaUtils.js:110-115 | fails with the source's message exactly when a semi-axis is not positive; otherwise positive |
| AreaUtils.SectorArea | demo-1/areaUtils.js:123-127 | fails with the source's message exactly when the radius or angle is not positive; otherwise positive |
| AreaUtils.SectorAreaRadian | demo-1/areaUtils.js:135-139 | fails with the source's message exactly when the radius or angle is not positive; otherwise positive |
| AreaUtils.RegularPolygonArea | demo-1/areaUtils.js:147-151 | fails exactly when there are fewer than 3 sides (checked first) or the side is not positive, with the matching message; otherwise positive |
| AreaUtils.HexagonAreaSquared | demo-1/areaUtils.js:158-161 | fails with the source's message exactly when the side is not positive; otherwise a positive squared area |
| AreaUtils.FormulasAsInSource | demo-1/areaUtils.js:10-139 | on valid inputs the square, rectangle, circle, triangle, trapezoid, parallelogram, rhombus, ellipse and both sector formulas yield the source's own expressions |
| AreaUtils.SquareIsRectangle | demo-1/areaUtils.js:10-25 | a square is the rectangle with equal sides, on success and on failure |
| AreaUtils.TriangleIsHalfParallelogram | demo-1/areaUtils.js:43-89 | the triangle fails with the same message as the parallelogram on the same base and height, and otherwise is half of it |
| AreaUtils.RhombusIsHalfRectangleOfDiagonals | demo-1/areaUtils.js:97-102 | a rhombus is half the rectangle spanned by its diagonals |
| AreaUtils.EqualBasesTrapezoidIsParallelogram | demo-1/areaUtils.js:72-89 | a trapezoid with equal bases has the parallelogram's area |
| AreaUtils.EqualAxesEllipseIsCircle | demo-1/areaUtils.js:110-115 | an ellipse with equal semi-axes has the circle's area |
| AreaUtils.FullSectorIsCircle | demo-1/areaUtils.js:123-127 | a 360-degree sector has the circle's area |
| AreaUtils.SectorDegreesAgreeWithRadians | demo-1/areaUtils.js:123-139 | the degree and radian sector formulas agree on the same angle |
| AreaUtils.LegsShorterThanHypotenuse | demo-1/areaUtils.js:56-63 | the sides of a right triangle pass the triangle inequality |
| AreaUtils.HeronAgreesOnRightTriangle | demo-1/areaUtils.js:43-63 | on a right triangle, Heron's formula gives the square of the base-height area of the legs |
| AreaUtils.HexagonIsSixSidedPolygon | demo-1/areaUtils.js:147-161 | with tan(pi/6) satisfying 3 tan^2 = 1, the hexagon formula agrees with the six-sided regular polygon |
| PigDice.AddToScore | diceGame/pigdice.js:21-32 | the total grows by exactly the turn score, so banking never lowers it |
| PigDice.AddToScoreExamples | diceGame/pigdice.js:21-27 | the documented examples: 10+5 is 15, 0+8 is 8 |
| PigDice.CheckWin | diceGame/pigdice.js:55-57 | `checkWin`: a score wins when it reaches the target, 20 by default (no contract of its own; `CheckWinMonotone` and `CheckWinExamples` state its properties) |
| PigDice.CheckWinMonotone | diceGame/pigdice.js:41-57 | a winning score keeps winning as it grows; reaching the target exactly wins and one below does not |
| PigDice.CheckWinExamples | diceGame/pigdice.js:41-53 | the documented examples, and 20 as the default target |
| PigDice.ProcessTurn | diceGame/pigdice.js:66-85 | the turn ends exactly on a 1, which loses the turn score; any other roll adds its value |
| PigDice.ProcessTurnBounds | diceGame/pigdice.js:66-85 | with a six-sided die the turn score stays non-negative and a continuing roll adds 2 to 6 |
| PigDice.ProcessTurnExamples | diceGame/pigdice.js:66-78 | the documented examples |
| PigDice.DieFace | diceGame/pigdice.js:196-243 | a face exists exactly for 1..6; it has five lines of width 11, framed top and bottom |
| PigDice.DisplayDice | diceGame/pigdice.js:196-243 | a value outside 1..6 gives "Invalid die value"; otherwise the face lines joined by newlines |
| PigDice.Join | diceGame/pigdice.js:243 | `join("\n")`: the lines with a newline between neighbours (no contract of its own; `JoinedPips` relates it to the lines) |
| PigDice.DisplayDiceShowsValue | diceGame/pigdice.js:196-243 | every drawn face shows exactly as many pips as its value |
| PigDice.Repeat | diceGame/pigdice.js:111-112 | `repeat(n)` of one character: exactly n copies of it |
| PigDice.PadEnd | diceGame/pigdice.js:127-128 | `padEnd`: an already long enough string is unchanged; otherwise it is extended with the pad character up to the target length, keeping the original as prefix |
| PigDice.ProgressBar | diceGame/pigdice.js:111-112 | the bar is as long as the target, filled exactly at the positions below the score and empty from there on |
| PigDice.ProgressBarEnds | diceGame/pigdice.js:127-128 | a winning score fills the whole bar and a score of 0 leaves it empty |
| PigTerminal.Other | diceGame/main.js:111 | the other player is 1 or 2, and it is 2 exactly when the current one is 1 |
| PigTerminal.Step | diceGame/main.js:60-111 | one answer of the turn loop, with the source's branches in the source's order: roll through `processTurn`, hold banking into the current player's total, anything else ignored; a finished turn flips the player (no contract of its own; the lemmas below state its properties) |
| PigTerminal.Run | diceGame/main.js:40-112 | the outer game loop: steps are taken while nobody has reached 20 and answers remain (no contract of its own; `RunKeepsReachable`, `GameHasOneWinner` and `PlayGame` state its properties) |
| PigTerminal.RollOfOneBanksNothing | diceGame/main.js:63-84 | a 1 keeps both totals, drops the turn score and passes the turn |
| PigTerminal.OtherRollAddsToTurn | diceGame/main.js:63-84 | any other roll adds its value to the turn score and changes nothing else |
| PigTerminal.HoldBanksForCurrentPlayerOnly | diceGame/main.js:85-104 | a hold adds the turn score to the holder's total only and passes the turn, even with a turn score of 0 |
| PigTerminal.InvalidAnswerChangesNothing | diceGame/main.js:105-107 | an answer other than r or h changes nothing |
| PigTerminal.StepEndsTurnOrKeepsPlayer | diceGame/main.js:60-111 | a step either keeps the player and both totals or passes the turn with a turn score of 0 |
| PigTerminal.StartIsReachable | diceGame/main.js:34-37 | the initial state is reachable and nobody has won |
| PigTerminal.StepKeepsReachable | diceGame/main.js:60-111 | a step keeps scores non-negative and a single winner, and never lowers a total |
| PigTerminal.RunKeepsReachable | diceGame/main.js:40-112 | a whole run keeps the same invariant and never lowers a total |
| PigTerminal.GameHasOneWinner | diceGame/main.js:40-125 | a finished game has exactly one winner, and it is the player before the last turn flip |
| PigTerminal.RunUnfold | diceGame/main.js:60-108 | the run from an answer continues the run after one step |
| PigTerminal.PlayGame | diceGame/main.js:34-125 | the loops end in the specified run; a winner is announced exactly when someone reached 20, and it is the player who did |
| PigBrowser.HoldWithoutPointsChangesNothing | diceGame/game.js:99-102 | a hold with a turn score of 0 changes nothing |
| PigBrowser.Switched | diceGame/game.js:133-142 | `switchPlayer`: the other player, turn score 0, buttons enabled (no contract of its own; `SwitchToggles` states its properties) |
| PigBrowser.Rolled | diceGame/game.js:54-96 | `rollDice` after its timers: a 1 drops the turn score and switches, anything else adds to the turn score and re-enables the buttons (no contract of its own; `RollCases` and `RollKeepsValid` state its properties) |
| PigBrowser.Banked | diceGame/game.js:105-113 | the holder's total plus the turn score (no contract of its own) |
| PigBrowser.Held | diceGame/game.js:98-131 | `hold` after its timer, with the source's branches in the source's order: nothing at turn score 0, else bank, then end the game on a win or switch (no contract of its own; `HoldEndsGameOrPassesTurn` and `HoldKeepsValid` state its properties) |
| PigBrowser.HoldBanksForCurrentPlayerOnly | diceGame/game.js:105-113 | a hold adds the turn score to the holder's total only |
| PigBrowser.HoldEndsGameOrPassesTurn | diceGame/game.js:98-131 | a hold reaching 20 ends the game with the holder still current; any other hold passes the turn with a turn score of 0 |
| PigBrowser.RollCases | diceGame/game.js:71-94 | a 1 passes the turn with a turn score of 0; any other roll adds to the turn score; the totals never change |
| PigBrowser.SwitchToggles | diceGame/game.js:133-142 | switching changes the player, switching twice restores them, and the turn score is reset |
| PigBrowser.FreshIsValid | diceGame/game.js:2-6 | the initial page is a valid board |
| PigBrowser.RollKeepsValid | diceGame/game.js:54-96 | a roll keeps the board valid and the buttons enabled |
| PigBrowser.HoldKeepsValid | diceGame/game.js:98-131 | a hold keeps the board valid and never lowers a total |
| PigBrowser.DriversAgreeOnRolls | diceGame/game.js:71-94 | on a roll the page and the terminal reach the same state |
| PigBrowser.DriversOnHold | diceGame/game.js:98-131 | on a hold the page refuses a zero turn score where the terminal passes the turn, keeps the winner current where the terminal flips, and otherwise agrees with the terminal |
| PigBrowser.PigPage.constructor | diceGame/game.js:2-6 | the page starts valid with 0, 0, player 1 and the buttons enabled |
| PigBrowser.PigPage.SwitchPlayer | diceGame/game.js:133-142 | the new state is the switched board |
| PigBrowser.PigPage.RollDice | diceGame/game.js:54-96 | the new state is the specified roll of the old one, and the board stays valid |
| PigBrowser.PigPage.Hold | diceGame/game.js:98-131 | the new state is the specified hold of the old one, the board stays valid, and no total decreases |
| PigBrowser.PigPage.ResetGame | diceGame/game.js:186-207 | the page is back in its initial valid state |

## Left out

- The network: `fetchExchangeRate`, `fetchGoldPrice`, `fetchGoldPriceFromMetalAPI` and the fallback random-walk quote are not modelled. A quote is a parameter of `PushPrice`/`UpdateGoldData`.
- The conversion of USD per ounce into VND and its `parseInt` are not modelled, because they only produce the quote. Quotes must be positive, because the source divides by prices without a guard.
- Timers and clocks: `setInterval` scheduling, `Date` stamps on trades and reports, and the `setTimeout` delays in `game.js` are not modelled. Each handler runs to completion.
- Console output, HTML rendering, `toFixed`/`toLocaleString` formatting, `displayScoreboard` text other than its bars, `displayGameState` and `getRules` are not modelled, because they only render state.
- `demo-1/server.js` (an HTTP wrapper) is not part of this model.
- Floating point: prices, areas and ratios are exact reals. So margin times leverage is exactly the capital here, while IEEE arithmetic may round it.
- GoldServer.WinRate: the value is not rounded to two decimals as `toFixed(2)` does, because that only formats it.
- The duplicates in `demo-edit-file/server.js` of the history, the moving average, `analyzeMarket`, `openPosition`, `closePosition` and `executeTrade` are modelled once. Their branches and constants are the same as in `index.js`.
- GoldTrading.Trader.OpenPosition: an already open position is overwritten, because the code does so without a guard. `executeTrade` never reaches that case.
- AreaUtils.TriangleAreaHeronSquared and AreaUtils.HexagonAreaSquared return the square of the area, because `Math.sqrt` has no exact real counterpart.
- AreaUtils.RegularPolygonArea takes tan(pi/n) as a positive argument, because `Math.tan` is not modelled.
- AreaUtils.CircleArea and the other formulas that use `Math.PI` use a fixed rational close to it (see `AreaUtils.PiBounds`).
- MathUtils.IsPrime loops while `i * i <= num`, where the source compares against `Math.sqrt(num)`. The two agree for integers. Non-integer arguments are not modelled.
- MathUtils.SumOfPrimes takes an integer `n`. The source accepts any number, and `sumOfPrimes(10.5)` sums the primes up to 10; non-integer bounds are not modelled.
- MathUtils.Fibonacci takes an integer `n`. The source accepts any number: `fibonacci(0.5)` passes the guard and returns `[]`, and `fibonacci(2.5)` returns `[0, 1]`, because `slice` truncates the bound. Non-integer lengths are not modelled.
- MathUtils.Fibonacci: values are unbounded integers, whereas JavaScript numbers lose precision above 2^53.
- Randomness: `rollDie` and `Math.random` are not modelled. Die values are inputs, assumed in 1..6 (`FairDice`, and `RollDice`'s precondition).
- `readline` and the DOM are not modelled. The answers at the prompt are a sequence. The terminal game stops when that sequence runs out, where the program would wait for more input.
- `toLowerCase` is modelled only for the answers that matter: "r"/"R" roll and "h"/"H" hold.
- PigDice.ProgressBar requires non-negative arguments, because `repeat` throws a RangeError on a negative count.
- `startGame` in `game.js` only hides the rules and shows the board, so it changes no game state and is not modelled.

# Guess the Number — a verified model

This project models a terminal number-guessing game with the console taken out:

- the **difficulty catalog**: three fixed presets, Easy (1–50, 10 attempts), Medium (1–100, 10 attempts) and Hard (1–200, 5 attempts), and the menu selector 1/2/3 that picks one (`difficulties.dfy`);
- the **guessing session**: a secret target, an attempt counter and the ordered list of accepted guesses. Each line the player types is an `Input` (`Quit`, `NotANumber` or `Num(n)`), and one pass of the play loop is the transition `Next`. The class `NumberGuessingGame` keeps the same state in fields. Its `Step` updates them in place and its `Play` loops over the lines (`guessing_game.dfy`);
- the **high-score registry**: a map from difficulty to the lowest score submitted. An absent entry counts as `Integer.MAX_VALUE`, and the class `HighScoreManager` updates the map in place (`high_scores.dfy`);
- one **Play round** of the main menu: select a preset, play a game to its end, and submit its attempt count (`menu.dfy`).

The pure functions (`Next`, `Run`, `Update`, `Replay`, `Round`) are the specification. The methods are proved equal to them, and the lemmas prove what the game promises about them.

Session states are `Active`, `Won`, `Lost` and `Quitted`. Java has no such field: it ends the loop with `return`, `break` or the loop test `attempts < numberOfAttempts`. The model records which of those happened in `status`. A session that has ended ignores further lines (feedback `Ignored`), so the terminal states are absorbing.

In the Java code the list of guesses is a local variable of `play()`. Since `play()` runs once per game, the model keeps the list as a field that starts empty.

Main.java:187-191 submits `getAttempts()` after every game, whether it was won, lost or quit. So a lost game submits its whole budget, and quitting at the first prompt submits 0, which then stays the record (`Menu.QuitAtOnceRecordsZero`, `Menu.LostRoundRecordsBudget`).

## Model

| member | source | states |
|---|---|---|
| `Difficulties.PresetWellFormed` | Main.java:8-34 | every preset has lower bound ≤ upper bound and a positive attempt budget |
| `Difficulties.CatalogValues` | Main.java:9-11 | the presets are exactly Easy (1, 50, 10), Medium (1, 100, 10), Hard (1, 200, 5) |
| `Difficulties.Select` | Main.java:172-185 | a selector picks a preset exactly when it is 1, 2 or 3, and the preset picked is the one the menu lists under that number; any other integer picks none |
| `Difficulties.SelectorRoundTrip` | Main.java:157-181 | selecting the number the menu shows for a preset gives back that preset |
| `GuessingGame.DrawTarget` | Main.java:47-48 | a target computed from a draw in [0, upper − lower] lies in [lower, upper] inclusive |
| `GuessingGame.DrawTargetCoversRange` | Main.java:48 | every number t of the range is the target of the draw `t − lower`, a value nextInt can return |
| `GuessingGame.Start` | Main.java:43-50 | a new session takes its range and budget from the preset, has 0 attempts and no guesses, is active, satisfies the session invariant, and its target is in range |
| `GuessingGame.Next` | Main.java:63-96 | one pass of the loop never changes range, budget or target, uses at most one attempt, and preserves the session invariant (attempts = number of guesses ≤ budget, every guess in range, only a winning last guess hits the target, active or quit ⇒ attempts < budget, lost ⇒ budget used up) |
| `GuessingGame.QuitEndsSession` | Main.java:67-70 | the quit keyword ends an active session at once, with attempts and guesses unchanged |
| `GuessingGame.RejectedInputChangesNothing` | Main.java:73-83 | non-numeric input, or a number below the lower or above the upper bound, leaves the session unchanged and active, with feedback invalid-input or out-of-range |
| `GuessingGame.AcceptedGuessIsRecorded` | Main.java:80-86 | an in-range guess increases attempts by exactly 1 and is appended to the end of the guess history |
| `GuessingGame.FeedbackMeaning` | Main.java:67-95 | for an active session each feedback holds exactly in its case: quit ⇔ quit keyword, invalid ⇔ not a number, out-of-range ⇔ outside the bounds, correct ⇔ equals target, higher ⇔ in range and below target, lower ⇔ in range and above target |
| `GuessingGame.OutcomeOfStep` | Main.java:63-101 | from a valid active session a step wins exactly on a correct guess, is lost exactly when a wrong in-range guess makes attempts reach the budget, and quits exactly on the quit keyword |
| `GuessingGame.TerminalIsAbsorbing` | Main.java:63-96 | once won, lost or quit, any further line changes nothing |
| `GuessingGame.RunAppend` | Main.java:63-96 | running two lists of lines in turn equals running their concatenation |
| `GuessingGame.RunAbsorbing` | Main.java:63-96 | once a session has ended, any list of further lines leaves it unchanged |
| `GuessingGame.RunPreservesValid` | Main.java:63-96 | after any list of lines the invariant still holds; in particular attempts = number of guesses ≤ budget |
| `GuessingGame.RunUsedUpBudgetIsLost` | Main.java:63-101 | after any list of lines from a valid session, a session that used up its budget without a win is lost, and a lost session used up its budget and never hit the target |
| `GuessingGame.RunExtendsHistory` | Main.java:55-86 | after any list of lines range, budget and target are unchanged, the old guess history is a prefix of the new one, and attempts grew by at most the number of lines |
| `GuessingGame.EasyScenario` | Main.java:63-96 | Easy with target 25 and lines 10, "abc", 60, 25: "higher" after 10, attempts still 1 after "abc" and after 60, then won with attempts 2 and history [10, 25] |
| `GuessingGame.HardScenario` | Main.java:63-101 | Hard with target 100 and five wrong guesses: lost with attempts 5 |
| `GuessingGame.NumberGuessingGame.constructor` | Main.java:43-50 | the new game's state is `Start` of the preset and the nextInt draw, and it is valid |
| `GuessingGame.NumberGuessingGame.Step` | Main.java:64-95 | the fields after one line and the feedback returned are exactly `Next` of the fields before |
| `GuessingGame.NumberGuessingGame.Play` | Main.java:53-106 | the loop reads lines only while the session is active; the final state is `Run` of the initial state over all lines, and also over the lines read; it stops early only on a terminal state, and every line it read found the session active |
| `GuessingGame.NumberGuessingGame.GetAttempts` | Main.java:108-110 | on a valid game the attempt count equals the number of recorded guesses and lies in [0, budget] |
| `HighScores.Update` | Main.java:116-122 | the new best for the difficulty is the minimum of the score and the old best (absent = MAX_VALUE); the map changes only on strict improvement, and then the entry is the score; an entry exists afterwards iff it existed or the score is below MAX_VALUE; other difficulties keep their entry or its absence |
| `HighScores.ReplayIsMinimum` | Main.java:116-122 | after any list of submissions the best for a difficulty is at most its old value and every score submitted for it, and equals the old value or one of those scores |
| `HighScores.ReplayLeavesOthers` | Main.java:116-122 | a difficulty that no submission names keeps its entry, or its absence |
| `HighScores.ReplayBelowDefault` | Main.java:117-119 | every stored score stays below MAX_VALUE if it started so |
| `HighScores.StoredIsMinimumSubmitted` | Main.java:114-122 | from an empty registry, a difficulty has an entry iff some score below MAX_VALUE was submitted for it, and that entry is the minimum of all scores submitted for it |
| `HighScores.MediumScenario` | Main.java:116-122 | Medium after no entry: 7 is stored, 9 leaves 7, 3 replaces it |
| `HighScores.HighScoreManager.constructor` | Main.java:114 | a new registry is empty |
| `HighScores.HighScoreManager.UpdateHighScore` | Main.java:116-122 | the map afterwards is `Update` of the map before, and the result says whether the score was strictly lower than the current best |
| `Menu.Round` | Main.java:171-192 | for lines that end the game (won, lost or quit), an unknown selector leaves the registry unchanged; otherwise only the chosen preset's entry can change, it becomes the minimum of its old value and the attempts of the finished game, and it never exceeds the preset's budget |
| `Menu.QuitAtOnceRecordsZero` | Main.java:187-191 | quitting at the first prompt ends the game and still submits 0 attempts to the registry |
| `Menu.LostRoundRecordsBudget` | Main.java:187-191 | a lost game submits its whole attempt budget to the registry |
| `Menu.PlayRound` | Main.java:163-192 | for lines that end the game, no game is created iff the selector is not 1–3; otherwise the game ends in `Run` of its start over the lines, and the registry afterwards is `Round` of the registry before |

## Left out

- Console output (prompts, feedback text, the outcome message, the printed guess list) is not modelled. Feedback is a returned tag instead, and the outcome is the session status.
- Reading lines from standard input is not modelled: a method receives the lines as a sequence, already classified as `Input`. `Play` stops when the sequence runs out. The Java loop would block, or fail on end of input, and then no score is submitted. So `Menu.Round` and `Menu.PlayRound` are stated only for lines that end the game (`Menu.GameEnds`).
- `Integer.parseInt` is a library routine, and its sign and overflow rules are not modelled. A line is given as `Num(n)` or `NotANumber`.
- A difficulty selector that is not an integer (Main.java:164-169) is not modelled separately. Its effect is the same as that of an integer other than 1–3: no game, and the registry is unchanged.
- `String.equalsIgnoreCase("quit")` is not modelled: Unicode case rules are out of scope here. The quit keyword is given as `Quit`.
- `java.util.Random` is not modelled. The constructor takes the value `nextInt(upper − lower + 1)` returned, with the precondition that this value lies in [0, upper − lower]. That precondition is exactly what nextInt's contract promises.
- `displayHighScores` is not modelled. It only prints, and the order of `HashMap` iteration is unspecified.
- The outer menu loop (choices 1/2/3, invalid top-level input, `System.exit`) is not modelled, because it is interactive plumbing. Only the Play branch (`Menu.PlayRound`) is modelled.
- Java 32-bit `int` arithmetic is not modelled. Every value reached is small: attempts never exceed 10, and the ranges end at 200. So no overflow can occur. Scores are unbounded integers, and an absent entry compares as `Integer.MAX_VALUE` (2147483647), as in the code.

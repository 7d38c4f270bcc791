# Trivia desktop client — a Dafny model

This project models the logic of a desktop client for a multiplayer trivia
game ("Trivial multijugador"). The client talks to a game server over a
WebSocket, and the model covers two parts of it.

- **The network client (`TriviaClient`).** Six observables: the raw last
  message, the current question, the pending answer result, the score, the
  game-end summary and the time limit. Two private timing markers: the
  question's start instant and its time limit. The receive loop updates them
  from the server's messages (`Client.Dispatch`, `Client.StepFrame`,
  `Client.Receive`). The class `Client.TriviaClient` holds them as fields and
  has one method per operation: `Connect`, `Handle`, `ResetState`,
  `CreateTrivia` and `AnswerQuestion`.
- **The main window's bookkeeping (`Main.kt`, `Stats.kt`).**
  - Per-answer statistics by category and by difficulty.
  - The two-player (PVP) scoreboard: scores, streaks, correct counts, and
    the turn that alternates between Player1 and Player2.
  - The once-per-game end-of-game aggregation into `GameStats`.
  - The winner line and the hit percentages.

  The pure rules are in `GameRules`. The window's `remember` variables are
  the fields of the class `Screen.GameScreen`, whose methods are the effect
  and the button handlers.

Modules: `Common` (option type), `KotlinInt` (Kotlin's truncating division
and `toInt()`/`Long` wrap-around), `Protocol` (the shared message and enum
types the client imports), `Client`, `Stats`, `GameRules` and `Screen`.

Behaviour of the code worth knowing:

- **A malformed frame ends the receive loop.** The decoding exception
  propagates to the `catch` around the whole connection. That handler
  replaces the last message with `Error: …` and drops the session. It does
  not skip the frame and continue (`Client.ReceiveFailsOnUndecodable`,
  `Client.FailedIsFinal`).
- **A normal close keeps the session handle.** When the server closes the
  socket normally, `session` stays set: only the `catch` clears it.
- **Elapsed time is not floored at zero.** It is `(now - start) / 10^9`,
  truncated toward zero and then narrowed with `toInt()`. A small negative
  gap gives 0 and a gap of 2^31 seconds wraps
  (`Client.ElapsedTruncatesTowardZero`, `Client.ElapsedWrapsPastIntRange`).
- **Sending without a session does nothing.** `createTrivia` and
  `answerQuestion` return silently and signal no error.
- **Connection details are fixed.** The host, port and path are the constants
  `localhost`, `8080` and `/trivia`. They are not parameters of the model.

## Model

| member | source | states |
|---|---|---|
| `KotlinInt.Div` | src/main/kotlin/dev/jgonzalez/trivial/desktop/network/TriviaClient.kt:188 | Kotlin `/` truncates toward zero: for n ≥ 0 the quotient q satisfies q·d ≤ n < q·d + d; for n < 0 it is ≤ 0 and within one divisor above n |
| `KotlinInt.ToInt` | src/main/kotlin/dev/jgonzalez/trivial/desktop/network/TriviaClient.kt:188 | `Long.toInt()` yields a 32-bit value congruent to its argument modulo 2^32, and is the identity on values already in `Int` range |
| `KotlinInt.ToLong` | src/main/kotlin/dev/jgonzalez/trivial/desktop/network/TriviaClient.kt:188 | `Long` subtraction yields a 64-bit value congruent to the exact difference modulo 2^64, the exact difference when it fits |
| `Client.ErrorText` | src/main/kotlin/dev/jgonzalez/trivial/desktop/network/TriviaClient.kt:148 | the stored error starts with `Error: ` followed by the exception's message, or by `null` when it has none |
| `Client.Dispatch` | src/main/kotlin/dev/jgonzalez/trivial/desktop/network/TriviaClient.kt:99-143 | per message variant: a Question sets the question, clears the pending result, sets both time-limit copies and the start instant; an AnswerResult sets only the result; a ScoreUpdate copies the first player's score and streak and is a no-op for an empty list; a GameEnd sets the winner, the first final score (0 if none) and that player's correct count (0 if absent); no handler touches the raw last message |
| `Client.StepFrame` | src/main/kotlin/dev/jgonzalez/trivial/desktop/network/TriviaClient.kt:93-143 | a non-text frame changes nothing; a decodable text frame becomes the raw last message and its decoded message is applied as `Dispatch` says; an undecodable one ends the loop with the error text as last message and nothing else changed |
| `Client.ElapsedSeconds` | src/main/kotlin/dev/jgonzalez/trivial/desktop/network/TriviaClient.kt:186-189 | 0 with no recorded start; for a gap of 0 ≤ g < 2^31 s the whole seconds r with r·10^9 ≤ g < (r+1)·10^9; for a small negative gap g the value r ≤ 0 with g ≤ r·10^9 < g + 10^9, i.e. truncated toward zero; always an `Int` |
| `Client.TriviaClient.constructor` | src/main/kotlin/dev/jgonzalez/trivial/desktop/network/TriviaClient.kt:55-80 | every observable and marker starts null and there is no session |
| `Client.TriviaClient.ResetState` | src/main/kotlin/dev/jgonzalez/trivial/desktop/network/TriviaClient.kt:201-210 | the state becomes exactly the initial state, whatever it was (so resetting twice is resetting once), and the session is untouched |
| `Client.TriviaClient.Handle` | src/main/kotlin/dev/jgonzalez/trivial/desktop/network/TriviaClient.kt:99-143 | the fields after one decoded message are `Dispatch` of the fields before, with `now` as the clock; the session is untouched |
| `Client.Receive` | src/main/kotlin/dev/jgonzalez/trivial/desktop/network/TriviaClient.kt:93-144 | the loop only runs on from a running state (a failed run stays failed), and frames that are all non-text change nothing |
| `Client.Establish` | src/main/kotlin/dev/jgonzalez/trivial/desktop/network/TriviaClient.kt:82-152 | `connect()` fails exactly when the handshake is refused, some text frame does not decode, or the stream breaks; a failure leaves an `Error: ` text as the last message |
| `Client.TriviaClient.Connect` | src/main/kotlin/dev/jgonzalez/trivial/desktop/network/TriviaClient.kt:82-152 | the loop over the delivered frames leaves the state `Establish` predicts; the session stays set exactly when no exception (refusal, decode failure, broken stream) occurred |
| `Client.TriviaClient.CreateTrivia` | src/main/kotlin/dev/jgonzalez/trivial/desktop/network/TriviaClient.kt:154-180 | a command is sent exactly when there is a session, and it carries the given mode, count, categories, difficulty, limit, turn mode and name |
| `Client.TriviaClient.AnswerQuestion` | src/main/kotlin/dev/jgonzalez/trivial/desktop/network/TriviaClient.kt:182-199 | an answer is sent exactly when there is a session; it carries the question id, the chosen index and the seconds elapsed since the current question's start |
| `Client.ReceiveAppend` | src/main/kotlin/dev/jgonzalez/trivial/desktop/network/TriviaClient.kt:93-144 | processing `a + b` is processing `a`, then `b` from where `a` left off: the state is a left-to-right projection of the frames |
| `Client.FailedIsFinal` | src/main/kotlin/dev/jgonzalez/trivial/desktop/network/TriviaClient.kt:146-150 | once an exception has ended the loop, further frames change nothing |
| `Client.ReceiveFailsOnUndecodable` | src/main/kotlin/dev/jgonzalez/trivial/desktop/network/TriviaClient.kt:98 | the loop fails if and only if some text frame does not decode, and a failed loop shows an `Error: ` text as last message |
| `Client.ReceiveFollowsLatest` | src/main/kotlin/dev/jgonzalez/trivial/desktop/network/TriviaClient.kt:100-122 | without decode failures, question, time limit and start instant come from the last Question frame (unchanged if none); the pending result is that of the last AnswerResult after it, and is null when no AnswerResult follows the last Question |
| `Client.ScenarioQuestionThenResult` | src/main/kotlin/dev/jgonzalez/trivial/desktop/network/TriviaClient.kt:100-122 | after Question "q1" with a 10 s limit, the question and limit are shown, an answer 4 s later reports 4 s, and a correct 100-point result then shows beside the same question |
| `Client.ElapsedThreeSeconds` | src/main/kotlin/dev/jgonzalez/trivial/desktop/network/TriviaClient.kt:186-189 | a 3·10^9 ns gap reports 3 seconds |
| `Client.ElapsedMonotonic` | src/main/kotlin/dev/jgonzalez/trivial/desktop/network/TriviaClient.kt:186-189 | for gaps within `Int` seconds the report is non-negative and never decreases as `now` grows |
| `Client.ElapsedTruncatesTowardZero` | src/main/kotlin/dev/jgonzalez/trivial/desktop/network/TriviaClient.kt:188 | a gap between −1 s and 0 reports 0 |
| `Client.ElapsedWrapsPastIntRange` | src/main/kotlin/dev/jgonzalez/trivial/desktop/network/TriviaClient.kt:188 | a gap of 2^31 s wraps to `Int.MIN_VALUE` through `toInt()` |
| `Stats.Default` | src/main/kotlin/dev/jgonzalez/trivial/desktop/Stats.kt:8-18 | max score, longest streak, total correct and games played are 0; all five maps (per-category and per-difficulty correct and total counts, best score per player) are empty, so every counter reads as 0; the correct ≤ total invariant holds |
| `GameRules.Bump` | src/main/kotlin/dev/jgonzalez/trivial/desktop/Main.kt:87-88 | the key's counter (missing = 0) rises by one, every other key reads the same, and the key is now present |
| `GameRules.RecordAnswer` | src/main/kotlin/dev/jgonzalez/trivial/desktop/Main.kt:83-108 | the category and difficulty totals rise by one and their correct counters by one only when correct; the total maps gain exactly the answered key, the correct maps gain it only on a correct answer; other keys and all other fields are unchanged; correct ≤ total is preserved |
| `GameRules.EndOfGame` | src/main/kotlin/dev/jgonzalez/trivial/desktop/Main.kt:488-504 | max score and longest streak become the larger of old and final; total correct rises by the game's correct count; games played by one; the player's best becomes the larger of old best (missing = 0) and final, and the map changes iff the final score is strictly greater; no key other than the player is added; other players and the tallies are unchanged |
| `GameRules.Percent` | src/main/kotlin/dev/jgonzalez/trivial/desktop/Main.kt:597 | 0 when total ≤ 0; otherwise the quotient truncated toward zero: p·total ≤ 100·correct < (p+1)·total for correct ≥ 0, and p ≤ 0 with 100·correct ≤ p·total < 100·correct + total for correct < 0; within 0..100 whenever 0 ≤ correct ≤ total |
| `GameRules.Winner` | src/main/kotlin/dev/jgonzalez/trivial/desktop/Main.kt:512 | "Player1" iff its score is strictly higher, "Player2" iff that one is, "Empate" iff they are equal |
| `GameRules.ScoreAnswer` | src/main/kotlin/dev/jgonzalez/trivial/desktop/Main.kt:114-121 | the score rises by the points; a correct answer extends the streak and the correct count, a wrong one resets the streak to 0; streak ≤ correct is preserved |
| `GameRules.PvpStep` | src/main/kotlin/dev/jgonzalez/trivial/desktop/Main.kt:113-133 | only the player to move is scored, the other player's counters are unchanged, and the turn flips between 0 and 1 |
| `GameRules.PvpGameTurn` | src/main/kotlin/dev/jgonzalez/trivial/desktop/Main.kt:132 | after n results the turn index has flipped n times |
| `GameRules.PvpGameScores` | src/main/kotlin/dev/jgonzalez/trivial/desktop/Main.kt:113-133 | from the start board, Player1's score and correct count are the sums over the 1st, 3rd, … results and Player2's over the others; streaks stay within correct counts; the turn name follows the index |
| `GameRules.RecordAllCounts` | src/main/kotlin/dev/jgonzalez/trivial/desktop/Main.kt:83-108 | from the default record, each category's total and correct counters equal the number of answers and correct answers in it, and the record stays consistent |
| `GameRules.ShownPercentInRange` | src/main/kotlin/dev/jgonzalez/trivial/desktop/Main.kt:595-616 | for a consistent record every displayed category and difficulty percentage lies in 0..100 |
| `GameRules.ReplayCarriesOverScoreboard` | src/main/kotlin/dev/jgonzalez/trivial/desktop/Main.kt:526-539 | a first PVP game with one 100-point answer makes Player1 the winner of a second game in which nobody scores, and hands the first turn of that game to Player2 |
| `Screen.GameScreen.constructor` | src/main/kotlin/dev/jgonzalez/trivial/desktop/Main.kt:46-72 | initial configuration (5 questions, MIXED, PVE, no limit, Player1, science and history), loaded statistics, guard off, zero scoreboard with Player1 to move |
| `Screen.GameScreen.OnAnswerResult` | src/main/kotlin/dev/jgonzalez/trivial/desktop/Main.kt:75-135 | no result: nothing changes; otherwise the game's correct count rises only when correct, the statistics record the answer only when a question is shown, and in PVP mode the scoreboard takes a `PvpStep` and the name follows the turn, while in PVE mode neither changes |
| `Screen.GameScreen.RecordInStats` | src/main/kotlin/dev/jgonzalez/trivial/desktop/Main.kt:83-108 | the statistics become `RecordAnswer` of the old ones at the selected difficulty |
| `Screen.GameScreen.ScoreTurn` | src/main/kotlin/dev/jgonzalez/trivial/desktop/Main.kt:113-133 | the scoreboard becomes `PvpStep` of the old one, the turn stays 0 or 1, and the player name is the one the new turn selects |
| `Screen.GameScreen.ApplyEndStats` | src/main/kotlin/dev/jgonzalez/trivial/desktop/Main.kt:486-509 | with a game end and the guard off, statistics become `EndOfGame` of the old ones (final score and streak from the score observable, 0 if null) and the guard is set; otherwise nothing changes |
| `Screen.EndStatsAppliedOnce` | src/main/kotlin/dev/jgonzalez/trivial/desktop/Main.kt:486-509 | running the end-of-game block twice for one game applies `EndOfGame` once, with the correct count and player name the screen holds when the block runs |
| `Screen.GameScreen.WinnerLine` | src/main/kotlin/dev/jgonzalez/trivial/desktop/Main.kt:510-514 | a winner line is shown exactly for a finished PVP game, and it names `Winner` of the two scores |
| `Screen.GameScreen.StartGame` | src/main/kotlin/dev/jgonzalez/trivial/desktop/Main.kt:301-326 | the client's state is reset (session kept); the game's correct count is zeroed; the guard is re-armed; the scoreboard is the start board with Player1 to move; a creation command for Player1 is sent exactly when there is a session |
| `Screen.GameScreen.PlayAgain` | src/main/kotlin/dev/jgonzalez/trivial/desktop/Main.kt:526-539 | as written: resets the client's state, the game's correct count and the guard, and requests a game for Player1, but leaves the scoreboard and the turn untouched |
| `Screen.GameScreen.PlayAgainFromStart` | src/main/kotlin/dev/jgonzalez/trivial/desktop/Main.kt:301-316 | the corrected replay: everything `PlayAgain` does, plus the start board with Player1 to move, so `GameRules.PvpGameScores` describes the next game |
| `Screen.GameScreen.ResetStats` | src/main/kotlin/dev/jgonzalez/trivial/desktop/Main.kt:552-555 | the statistics become the default record |

## Findings

| source | as written | input that shows it | evidently intended | confidence | as-written member | corrected member |
|---|---|---|---|---|---|---|
| src/main/kotlin/dev/jgonzalez/trivial/desktop/Main.kt:526-539 | "Play again" resets the client's state, the game's correct count and the end-of-game guard. It does not reset the PVP scores, streaks, correct counts, turn index or local player name. | PVP game 1: Player1 answers correctly for 100 points and the game ends. Replay. In game 2 both players answer wrongly for 0 points. The winner line says "Player1" where game 2 alone is a draw, and game 2 opens on Player2's turn although the game was requested for Player1. | Reset the scoreboard as "start" does (Main.kt:308-315), so each game's winner depends on that game only. | medium; not executed | `Screen.GameScreen.PlayAgain`, `GameRules.ReplayCarriesOverScoreboard` | `Screen.GameScreen.PlayAgainFromStart`, `GameRules.PvpGameScores` |

## Left out

- Console output: the `println` diagnostics (TriviaClient.kt:90, 95, 177) and `e.printStackTrace()` (TriviaClient.kt:147) write only to the console; no state depends on them.
- The WebSocket transport (Ktor client, `send`, the coroutine scope and `launch`) is left out. A connection is its sequence of delivered frames and how it ends. The model does not cover concurrency: two overlapping `connect()` calls, a send racing the receive loop, or the order of sends.
- JSON encoding and decoding (kotlinx.serialization) is left out. Decoding is a function parameter that yields a message or an exception. An outbound command is returned as a value instead of being serialised.
- `System.nanoTime()` is replaced by a `now` parameter: one per delivered frame, and one per `AnswerQuestion` call.
- The classes of the shared domain module (`ServerMessage`, `ClientMessage`, `Category`, `Difficulty`, `GameMode`, `TurnMode`) are not part of this model. Their shapes are inferred from the fields the client reads and writes. `TurnMode` has only the `TIMED` value the client uses.
- `StatsStorage` is left out: loading is the constructor's `loaded` argument, and `saveStats` is a no-op.
- Compose layout, colours, icons, sliders, the countdown loop driven by `delay`, and the option buttons' local selection are presentation and are left out. So is the button enabling (`enabled = !isGameRunning`), so `StartGame` has no precondition on the game state.
- The effect is keyed on the answer result. The model runs `OnAnswerResult` once per new answer-result value. It does not model Compose's change detection.
- The order of the two handlers is not fixed by the model: `OnAnswerResult` and `ApplyEndStats` may be called in either order. In the source, the end-of-game block (Main.kt:486-509) runs during composition, while the answer-result effect (Main.kt:75-135) runs after the composition that launched it. When the last answer result and the game end arrive in the same recomposition (the receive loop sets both at TriviaClient.kt:117 and 137), the block reads `correctInCurrentGame` and `playerName` before the effect updates them. The game's last correct answer is then missing from `totalCorrectAnswers`, and in PVP the best score is credited to the name from before the turn passes. This depends on timing and is not claimed as a finding.
- The best-player ranking (`sortedByDescending`) is display only and is left out.
- `GameRules.ScoreAnswer`: scores, streaks, counters and points are unbounded integers. The source's 32-bit `Int` would wrap past 2^31 − 1.
- `GameRules.RecordAnswer`: the per-key counters are unbounded integers; the source's 32-bit `Int` would wrap past 2^31 − 1.
- `GameRules.EndOfGame`: the totals are unbounded integers; the source's 32-bit `Int` would wrap past 2^31 − 1.
- `GameRules.Percent`: `correct * 100` is computed without 32-bit overflow. The source would overflow beyond about 21 million correct answers in one category.

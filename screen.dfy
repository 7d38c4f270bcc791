/**
 * The state the main window keeps between recompositions (its `remember`
 * variables) and the handlers that change it: the answer-result effect, the
 * end-of-game block, the start, play-again and reset-statistics buttons.
 * Layout, colours, sliders and the countdown are not modelled.
 */
module Screen {
  import opened Common
  import opened Protocol
  import opened Client
  import opened Stats
  import opened GameRules

  class GameScreen {
    // game configuration chosen with the buttons and sliders
    var questionCount: int
    var selectedDifficulty: Difficulty
    var selectedMode: GameMode
    var timeLimit: int
    var playerName: string
    var selectedCategories: seq<Category>

    // statistics
    var correctInCurrentGame: int
    var stats: GameStats
    var hasAppliedEndStats: bool

    // two-player scoreboard; the turn index is 0 for Player1 and 1 for Player2
    var currentPlayerIndex: int
    var player1Score: int
    var player2Score: int
    var player1Streak: int
    var player2Streak: int
    var player1Correct: int
    var player2Correct: int

    /** The scoreboard as one value. */
    function Scoreboard(): Board
      reads this
    {
      Board(Tally(player1Score, player1Streak, player1Correct),
            Tally(player2Score, player2Streak, player2Correct),
            currentPlayerIndex)
    }

    /** The turn index selects one of the two player names, and no streak exceeds its player's correct count. */
    predicate Valid()
      reads this
    {
      ValidBoard(Scoreboard())
    }

    /** The window's initial state; `loaded` is what `StatsStorage.loadStats()` returned. */
    constructor (loaded: GameStats)
      ensures Valid()
      ensures questionCount == 5 && selectedDifficulty == MIXED && selectedMode == PVE && timeLimit == 0
      ensures playerName == "Player1" && selectedCategories == [SCIENCE, HISTORY]
      ensures correctInCurrentGame == 0 && stats == loaded && !hasAppliedEndStats
      ensures Scoreboard() == StartBoard
    {
      questionCount := 5;
      selectedDifficulty := MIXED;
      selectedMode := PVE;
      timeLimit := 0;
      playerName := "Player1";
      selectedCategories := [SCIENCE, HISTORY];
      correctInCurrentGame := 0;
      stats := loaded;
      hasAppliedEndStats := false;
      currentPlayerIndex := 0;
      player1Score, player2Score := 0, 0;
      player1Streak, player2Streak := 0, 0;
      player1Correct, player2Correct := 0, 0;
    }

    /**
     * The effect run when a new answer result arrives. It counts a correct
     * answer for the game, records the answer in the statistics when a
     * question is being shown, and in PVP mode scores the answer for the
     * player whose turn it is and passes the turn.
     */
    method OnAnswerResult(answerResult: Option<UiAnswerResult>, currentQuestion: Option<UiQuestion>)
      requires Valid()
      modifies this`correctInCurrentGame, this`stats, this`playerName, this`currentPlayerIndex,
               this`player1Score, this`player2Score, this`player1Streak, this`player2Streak,
               this`player1Correct, this`player2Correct
      ensures Valid()
      ensures answerResult.None? ==>
        && correctInCurrentGame == old(correctInCurrentGame) && stats == old(stats)
        && Scoreboard() == old(Scoreboard()) && playerName == old(playerName)
      ensures answerResult.Some? ==>
        var r := answerResult.value;
        && correctInCurrentGame == old(correctInCurrentGame) + (if r.correct then 1 else 0)
        && (currentQuestion.Some? ==>
              stats == RecordAnswer(old(stats), currentQuestion.value.category, selectedDifficulty, r.correct))
        && (currentQuestion.None? ==> stats == old(stats))
        && (selectedMode == PVP ==>
              Scoreboard() == PvpStep(old(Scoreboard()), r.correct, r.points) &&
              playerName == PlayerNames[currentPlayerIndex])
        && (selectedMode == PVE ==> Scoreboard() == old(Scoreboard()) && playerName == old(playerName))
    {
      if answerResult.None? {
        return;
      }
      var r := answerResult.value;

      if r.correct {
        correctInCurrentGame := correctInCurrentGame + 1;
      }

      if currentQuestion.Some? {
        RecordInStats(currentQuestion.value.category, r.correct);
      }

      if selectedMode == PVP {
        ScoreTurn(r.correct, r.points);
      }
    }

    /** The statistics half of the effect: both counter pairs, copied and updated. */
    method RecordInStats(cat: Category, correct: bool)
      modifies this`stats
      ensures stats == RecordAnswer(old(stats), cat, selectedDifficulty, correct)
    {
      var diff := selectedDifficulty;

      var newTotalByCat := stats.totalByCategory;
      newTotalByCat := newTotalByCat[cat := CountOf(newTotalByCat, cat) + 1];

      var newCorrectByCat := stats.correctByCategory;
      if correct {
        newCorrectByCat := newCorrectByCat[cat := CountOf(newCorrectByCat, cat) + 1];
      }

      var newTotalByDiff := stats.totalByDifficulty;
      newTotalByDiff := newTotalByDiff[diff := CountOf(newTotalByDiff, diff) + 1];

      var newCorrectByDiff := stats.correctByDifficulty;
      if correct {
        newCorrectByDiff := newCorrectByDiff[diff := CountOf(newCorrectByDiff, diff) + 1];
      }

      stats := stats.(totalByCategory := newTotalByCat, correctByCategory := newCorrectByCat,
                      totalByDifficulty := newTotalByDiff, correctByDifficulty := newCorrectByDiff);
    }

    /** The PVP half of the effect: score the answer for the player to move, then pass the turn. */
    method ScoreTurn(correct: bool, points: int)
      requires Valid()
      modifies this`playerName, this`currentPlayerIndex,
               this`player1Score, this`player2Score, this`player1Streak, this`player2Streak,
               this`player1Correct, this`player2Correct
      ensures Valid()
      ensures Scoreboard() == PvpStep(old(Scoreboard()), correct, points)
      ensures playerName == PlayerNames[currentPlayerIndex]
    {
      if currentPlayerIndex == 0 {
        if correct {
          player1Correct := player1Correct + 1;
          player1Streak := player1Streak + 1;
        } else {
          player1Streak := 0;
        }
        player1Score := player1Score + points;
      } else {
        if correct {
          player2Correct := player2Correct + 1;
          player2Streak := player2Streak + 1;
        } else {
          player2Streak := 0;
        }
        player2Score := player2Score + points;
      }
      currentPlayerIndex := 1 - currentPlayerIndex;
      playerName := PlayerNames[currentPlayerIndex];
    }

    /**
     * The end-of-game block, run on every recomposition while a game-end
     * summary is shown: it folds the game into the statistics the first time
     * only. The final score and streak are those of the score observable.
     */
    method ApplyEndStats(gameEnd: Option<UiGameEnd>, score: Option<UiScore>)
      modifies this`stats, this`hasAppliedEndStats
      ensures gameEnd.Some? && !old(hasAppliedEndStats) ==>
        && hasAppliedEndStats
        && stats == EndOfGame(old(stats),
                              if score.Some? then score.value.score else 0,
                              if score.Some? then score.value.streak else 0,
                              correctInCurrentGame, playerName)
      ensures gameEnd.None? || old(hasAppliedEndStats) ==>
        stats == old(stats) && hasAppliedEndStats == old(hasAppliedEndStats)
    {
      if gameEnd.Some? && !hasAppliedEndStats {
        var finalScore := if score.Some? then score.value.score else 0;
        var finalStreak := if score.Some? then score.value.streak else 0;
        var finalCorrect := correctInCurrentGame;

        var newBestByPlayer := stats.bestScoreByPlayer;
        var currentBest := CountOf(newBestByPlayer, playerName);
        if finalScore > currentBest {
          newBestByPlayer := newBestByPlayer[playerName := finalScore];
        }

        stats := stats.(maxScore := Max(stats.maxScore, finalScore),
                        longestStreak := Max(stats.longestStreak, finalStreak),
                        totalCorrectAnswers := stats.totalCorrectAnswers + finalCorrect,
                        gamesPlayed := stats.gamesPlayed + 1,
                        bestScoreByPlayer := newBestByPlayer);
        hasAppliedEndStats := true;
      }
    }

    /** The winner line of the game-end view: shown only in PVP mode. */
    function WinnerLine(gameEnd: Option<UiGameEnd>): (line: Option<string>)
      reads this
      ensures line.Some? <==> gameEnd.Some? && selectedMode == PVP
      ensures line.Some? ==> line.value == Winner(player1Score, player2Score)
    {
      if gameEnd.Some? && selectedMode == PVP then Some(Winner(player1Score, player2Score)) else None
    }

    /**
     * The start button: clears the client's session state, starts a fresh
     * scoreboard with Player1 to play, re-arms the end-of-game guard, and asks
     * the server for a new game (which is dropped when there is no session).
     */
    method StartGame(client: TriviaClient) returns (sent: Option<ClientMessage>)
      modifies this`correctInCurrentGame, this`hasAppliedEndStats, this`playerName, this`currentPlayerIndex,
               this`player1Score, this`player2Score, this`player1Streak, this`player2Streak,
               this`player1Correct, this`player2Correct
      modifies client
      ensures Valid()
      ensures client.Snapshot() == Client.Initial && client.session == old(client.session)
      ensures correctInCurrentGame == 0 && !hasAppliedEndStats
      ensures Scoreboard() == StartBoard && playerName == "Player1"
      ensures sent.Some? <==> client.session
      ensures sent.Some? ==>
        sent.value == Protocol.CreateTrivia(selectedMode, questionCount, selectedCategories, selectedDifficulty,
                                            timeLimit, TIMED, "Player1")
    {
      client.ResetState();
      correctInCurrentGame := 0;
      hasAppliedEndStats := false;

      currentPlayerIndex := 0;
      playerName := PlayerNames[currentPlayerIndex];
      player1Score := 0;
      player2Score := 0;
      player1Streak := 0;
      player2Streak := 0;
      player1Correct := 0;
      player2Correct := 0;

      sent := client.CreateTrivia(selectedMode, questionCount, selectedCategories, selectedDifficulty,
                                  timeLimit, TIMED, playerName);
    }

    /**
     * The play-again button as written: like the start button it clears the
     * client's state and re-arms the guard, but it leaves the scoreboard, the
     * turn and the local player name as the last game left them.
     */
    method PlayAgain(client: TriviaClient) returns (sent: Option<ClientMessage>)
      modifies this`correctInCurrentGame, this`hasAppliedEndStats
      modifies client
      ensures client.Snapshot() == Client.Initial && client.session == old(client.session)
      ensures correctInCurrentGame == 0 && !hasAppliedEndStats
      ensures sent.Some? <==> client.session
      ensures sent.Some? ==>
        sent.value == Protocol.CreateTrivia(selectedMode, questionCount, selectedCategories, selectedDifficulty,
                                            timeLimit, TIMED, "Player1")
    {
      client.ResetState();
      correctInCurrentGame := 0;
      hasAppliedEndStats := false;
      sent := client.CreateTrivia(selectedMode, questionCount, selectedCategories, selectedDifficulty,
                                  timeLimit, TIMED, "Player1");
    }

    /**
     * The play-again button with the scoreboard reset the start button does:
     * the new game's scoreboard starts from zero with Player1 to play, as the
     * game requested from the server does.
     */
    method PlayAgainFromStart(client: TriviaClient) returns (sent: Option<ClientMessage>)
      modifies this`correctInCurrentGame, this`hasAppliedEndStats, this`playerName, this`currentPlayerIndex,
               this`player1Score, this`player2Score, this`player1Streak, this`player2Streak,
               this`player1Correct, this`player2Correct
      modifies client
      ensures Valid()
      ensures client.Snapshot() == Client.Initial && client.session == old(client.session)
      ensures correctInCurrentGame == 0 && !hasAppliedEndStats
      ensures Scoreboard() == StartBoard && playerName == "Player1"
      ensures sent.Some? <==> client.session
      ensures sent.Some? ==>
        sent.value == Protocol.CreateTrivia(selectedMode, questionCount, selectedCategories, selectedDifficulty,
                                            timeLimit, TIMED, "Player1")
    {
      sent := StartGame(client);
    }

    /** The reset-statistics button: every counter back to its default. */
    method ResetStats()
      modifies this`stats
      ensures stats == Default()
    {
      stats := Default();
    }
  }

  /**
   * The end-of-game block runs on every recomposition while the summary is
   * shown; running it twice for one game takes the game into account once.
   */
  method EndStatsAppliedOnce(screen: GameScreen, gameEnd: UiGameEnd, score: Option<UiScore>)
    requires !screen.hasAppliedEndStats
    modifies screen
    ensures screen.stats == EndOfGame(old(screen.stats),
                                      if score.Some? then score.value.score else 0,
                                      if score.Some? then score.value.streak else 0,
                                      old(screen.correctInCurrentGame), old(screen.playerName))
  {
    screen.ApplyEndStats(Some(gameEnd), score);
    screen.ApplyEndStats(Some(gameEnd), score);
  }
}

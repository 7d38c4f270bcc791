/**
 * The bookkeeping the main screen does around a game, lifted out of its UI
 * callbacks: per-answer statistics, the two-player scoreboard and turn, the
 * end-of-game aggregation, the winner line and the hit percentages.
 */
module GameRules {
  import opened KotlinInt
  import opened Protocol
  import opened Stats

  /** `m[k] = (m[k] ?: 0) + 1` on a mutable copy of `m`. */
  function Bump<K(!new)>(m: map<K, int>, k: K): (r: map<K, int>)
    ensures CountOf(r, k) == CountOf(m, k) + 1
    ensures forall j :: j != k ==> CountOf(r, j) == CountOf(m, j)
    ensures r.Keys == m.Keys + {k}
  {
    m[k := CountOf(m, k) + 1]
  }

  /**
   * The statistics after one answer to a question of category `cat`, played
   * at difficulty `diff`: both totals rise by one, both correct counters
   * rise by one only for a correct answer, nothing else changes.
   */
  function RecordAnswer(g: GameStats, cat: Category, diff: Difficulty, correct: bool): (r: GameStats)
    ensures CountOf(r.totalByCategory, cat) == CountOf(g.totalByCategory, cat) + 1
    ensures CountOf(r.correctByCategory, cat) == CountOf(g.correctByCategory, cat) + (if correct then 1 else 0)
    ensures CountOf(r.totalByDifficulty, diff) == CountOf(g.totalByDifficulty, diff) + 1
    ensures CountOf(r.correctByDifficulty, diff) == CountOf(g.correctByDifficulty, diff) + (if correct then 1 else 0)
    ensures forall c :: c != cat ==>
      CountOf(r.totalByCategory, c) == CountOf(g.totalByCategory, c) &&
      CountOf(r.correctByCategory, c) == CountOf(g.correctByCategory, c)
    ensures forall d :: d != diff ==>
      CountOf(r.totalByDifficulty, d) == CountOf(g.totalByDifficulty, d) &&
      CountOf(r.correctByDifficulty, d) == CountOf(g.correctByDifficulty, d)
    ensures r.totalByCategory.Keys == g.totalByCategory.Keys + {cat}
    ensures r.totalByDifficulty.Keys == g.totalByDifficulty.Keys + {diff}
    ensures r.correctByCategory.Keys == g.correctByCategory.Keys + (if correct then {cat} else {})
    ensures r.correctByDifficulty.Keys == g.correctByDifficulty.Keys + (if correct then {diff} else {})
    ensures r.(correctByCategory := g.correctByCategory, totalByCategory := g.totalByCategory,
               correctByDifficulty := g.correctByDifficulty, totalByDifficulty := g.totalByDifficulty) == g
    ensures Consistent(g) ==> Consistent(r)
  {
    g.(totalByCategory := Bump(g.totalByCategory, cat),
       correctByCategory := if correct then Bump(g.correctByCategory, cat) else g.correctByCategory,
       totalByDifficulty := Bump(g.totalByDifficulty, diff),
       correctByDifficulty := if correct then Bump(g.correctByDifficulty, diff) else g.correctByDifficulty)
  }

  function Max(a: int, b: int): (m: int)
    ensures m >= a && m >= b && (m == a || m == b)
  {
    if a >= b then a else b
  }

  /**
   * The end-of-game aggregation: the record keeps the best score and streak
   * ever seen, adds the game's correct answers, counts one more game, and
   * raises `player`'s best score only when this game beat it strictly.
   */
  function EndOfGame(g: GameStats, finalScore: int, finalStreak: int, finalCorrect: int, player: string): (r: GameStats)
    ensures r.maxScore >= g.maxScore && r.maxScore >= finalScore && (r.maxScore == g.maxScore || r.maxScore == finalScore)
    ensures r.longestStreak >= g.longestStreak && r.longestStreak >= finalStreak
    ensures r.longestStreak == g.longestStreak || r.longestStreak == finalStreak
    ensures r.totalCorrectAnswers == g.totalCorrectAnswers + finalCorrect
    ensures r.gamesPlayed == g.gamesPlayed + 1
    ensures CountOf(r.bestScoreByPlayer, player) >= CountOf(g.bestScoreByPlayer, player)
    ensures CountOf(r.bestScoreByPlayer, player) >= finalScore
    ensures CountOf(r.bestScoreByPlayer, player) == CountOf(g.bestScoreByPlayer, player) ||
            CountOf(r.bestScoreByPlayer, player) == finalScore
    ensures r.bestScoreByPlayer == g.bestScoreByPlayer <==> finalScore <= CountOf(g.bestScoreByPlayer, player)
    ensures forall p :: p != player ==> CountOf(r.bestScoreByPlayer, p) == CountOf(g.bestScoreByPlayer, p)
    ensures r.bestScoreByPlayer.Keys <= g.bestScoreByPlayer.Keys + {player}
    ensures r.correctByCategory == g.correctByCategory && r.totalByCategory == g.totalByCategory
    ensures r.correctByDifficulty == g.correctByDifficulty && r.totalByDifficulty == g.totalByDifficulty
  {
    var currentBest := CountOf(g.bestScoreByPlayer, player);
    var best := if finalScore > currentBest then g.bestScoreByPlayer[player := finalScore] else g.bestScoreByPlayer;
    assert finalScore > currentBest ==> best[player] != CountOf(g.bestScoreByPlayer, player);
    g.(maxScore := Max(g.maxScore, finalScore),
       longestStreak := Max(g.longestStreak, finalStreak),
       totalCorrectAnswers := g.totalCorrectAnswers + finalCorrect,
       gamesPlayed := g.gamesPlayed + 1,
       bestScoreByPlayer := best)
  }

  /**
   * The hit percentage shown per category and per difficulty:
   * `if (total > 0) (correct * 100) / total else 0`, truncating.
   */
  function Percent(correct: int, total: int): (p: int)
    ensures total <= 0 ==> p == 0
    ensures total > 0 && correct >= 0 ==> p * total <= correct * 100 < p * total + total
    ensures total > 0 && correct < 0 ==> p <= 0 && correct * 100 <= p * total < correct * 100 + total
    ensures 0 <= correct <= total ==> 0 <= p <= 100
  {
    if total > 0 then
      Div(correct * 100, total)
    else 0
  }

  /** The PVP winner line: strictly more points wins, equal points is a draw. */
  function Winner(player1Score: int, player2Score: int): (w: string)
    ensures w == "Player1" <==> player1Score > player2Score
    ensures w == "Player2" <==> player2Score > player1Score
    ensures w == "Empate" <==> player1Score == player2Score
  {
    if player1Score > player2Score then "Player1"
    else if player2Score > player1Score then "Player2"
    else "Empate"
  }

  /** The two player names; the turn index picks one. */
  const PlayerNames: seq<string> := ["Player1", "Player2"]

  /** One player's PVP counters. */
  datatype Tally = Tally(score: int, streak: int, correct: int)

  const ZeroTally := Tally(0, 0, 0)

  /** A streak never exceeds the number of correct answers it is made of. */
  predicate StreakWithinCorrect(t: Tally) {
    0 <= t.streak <= t.correct
  }

  /** One answer by the player whose turn it is: points added, streak extended or reset, correct counted. */
  function ScoreAnswer(t: Tally, correct: bool, points: int): (r: Tally)
    ensures r.score - t.score == points
    ensures correct ==> r.streak == t.streak + 1 && r.correct == t.correct + 1
    ensures !correct ==> r.streak == 0 && r.correct == t.correct
    ensures StreakWithinCorrect(t) ==> StreakWithinCorrect(r)
  {
    if correct then Tally(t.score + points, t.streak + 1, t.correct + 1)
    else Tally(t.score + points, 0, t.correct)
  }

  /** The PVP scoreboard: both players' counters and whose turn it is (0 or 1). */
  datatype Board = Board(player1: Tally, player2: Tally, turn: int)

  /** What the start button sets: all counters zero, Player1 to play. */
  const StartBoard := Board(ZeroTally, ZeroTally, 0)

  predicate ValidBoard(b: Board) {
    (b.turn == 0 || b.turn == 1) && StreakWithinCorrect(b.player1) && StreakWithinCorrect(b.player2)
  }

  /** One answer result in PVP mode: the current player scores, the other is untouched, the turn passes. */
  function PvpStep(b: Board, correct: bool, points: int): (r: Board)
    ensures b.turn == 0 ==> r.player1 == ScoreAnswer(b.player1, correct, points) && r.player2 == b.player2
    ensures b.turn != 0 ==> r.player2 == ScoreAnswer(b.player2, correct, points) && r.player1 == b.player1
    ensures (b.turn == 0 || b.turn == 1) ==> (r.turn == 0 || r.turn == 1) && r.turn != b.turn
    ensures ValidBoard(b) ==> ValidBoard(r)
  {
    if b.turn == 0 then Board(ScoreAnswer(b.player1, correct, points), b.player2, 1 - b.turn)
    else Board(b.player1, ScoreAnswer(b.player2, correct, points), 1 - b.turn)
  }

  /** An answer result as the screen sees it: correct or not, and the points awarded. */
  datatype Outcome = Outcome(correct: bool, points: int)

  /** The scoreboard after a sequence of answer results in PVP mode. */
  function PvpGame(b: Board, results: seq<Outcome>): Board
    decreases |results|
  {
    if |results| == 0 then b
    else
      var before := PvpGame(b, results[..|results| - 1]);
      var last := results[|results| - 1];
      PvpStep(before, last.correct, last.points)
  }

  /** The points of the results answered by `player` (0 or 1), who answers every other result starting at `player`. */
  function PointsBy(results: seq<Outcome>, player: int): int
    decreases |results|
  {
    if |results| == 0 then 0
    else PointsBy(results[..|results| - 1], player) + (if (|results| - 1) % 2 == player then results[|results| - 1].points else 0)
  }

  /** How many of the results answered by `player` were correct. */
  function CorrectBy(results: seq<Outcome>, player: int): nat
    decreases |results|
  {
    if |results| == 0 then 0
    else CorrectBy(results[..|results| - 1], player) +
         (if (|results| - 1) % 2 == player && results[|results| - 1].correct then 1 else 0)
  }

  /** The turn only ever alternates: after n results it has flipped n times. */
  lemma {:induction false} PvpGameTurn(b: Board, results: seq<Outcome>)
    requires b.turn == 0 || b.turn == 1
    ensures PvpGame(b, results).turn == (b.turn + |results|) % 2
    decreases |results|
  {
    if |results| > 0 {
      PvpGameTurn(b, results[..|results| - 1]);
    }
  }

  /**
   * Over a PVP game played from the start board, Player1 answers the 1st, 3rd,
   * 5th... result and Player2 the others: each one's score and correct count
   * are the sums over their own results, each streak stays within the
   * player's correct count, and the name shown for the turn follows the index.
   */
  lemma {:induction false} PvpGameScores(results: seq<Outcome>)
    ensures var b := PvpGame(StartBoard, results);
      && b.player1.score == PointsBy(results, 0) && b.player2.score == PointsBy(results, 1)
      && b.player1.correct == CorrectBy(results, 0) && b.player2.correct == CorrectBy(results, 1)
      && ValidBoard(b)
      && b.turn == |results| % 2
      && PlayerNames[b.turn] == (if |results| % 2 == 0 then "Player1" else "Player2")
    decreases |results|
  {
    PvpGameTurn(StartBoard, results);
    if |results| > 0 {
      PvpGameTurn(StartBoard, results[..|results| - 1]);
      PvpGameScores(results[..|results| - 1]);
    }
  }

  /**
   * The "play again" button keeps the previous game's scoreboard: one point-
   * scoring answer by Player1 in the first game decides the winner line of a
   * second game in which nobody scores, and hands the first turn of that
   * game to Player2.
   */
  lemma ReplayCarriesOverScoreboard()
    ensures var first := [Outcome(true, 100)];
      var second := [Outcome(false, 0), Outcome(false, 0)];
      var carried := PvpGame(PvpGame(StartBoard, first), second);
      var restarted := PvpGame(StartBoard, second);
      && Winner(carried.player1.score, carried.player2.score) == "Player1"
      && Winner(restarted.player1.score, restarted.player2.score) == "Empate"
      && PvpGame(StartBoard, first).turn == 1
  {
    var first := [Outcome(true, 100)];
    var second := [Outcome(false, 0), Outcome(false, 0)];
    assert first[..0] == [] && second[..1] == [Outcome(false, 0)] && second[..1][..0] == [];
  }

  /** One answered question as the statistics see it. */
  datatype Answered = Answered(category: Category, difficulty: Difficulty, correct: bool)

  /** The statistics after a sequence of answers, each to a question that was being shown. */
  function RecordAll(g: GameStats, answers: seq<Answered>): GameStats
    decreases |answers|
  {
    if |answers| == 0 then g
    else
      var a := answers[|answers| - 1];
      RecordAnswer(RecordAll(g, answers[..|answers| - 1]), a.category, a.difficulty, a.correct)
  }

  function AnsweredIn(answers: seq<Answered>, c: Category): nat
    decreases |answers|
  {
    if |answers| == 0 then 0
    else AnsweredIn(answers[..|answers| - 1], c) + (if answers[|answers| - 1].category == c then 1 else 0)
  }

  function CorrectIn(answers: seq<Answered>, c: Category): nat
    decreases |answers|
  {
    if |answers| == 0 then 0
    else CorrectIn(answers[..|answers| - 1], c) +
         (if answers[|answers| - 1].category == c && answers[|answers| - 1].correct then 1 else 0)
  }

  /**
   * Starting from the default record, the per-category counters after any
   * sequence of answers are exactly the number of answers and of correct
   * answers in that category, and the record stays consistent.
   */
  lemma {:induction false} RecordAllCounts(answers: seq<Answered>, c: Category)
    ensures CountOf(RecordAll(Default(), answers).totalByCategory, c) == AnsweredIn(answers, c)
    ensures CountOf(RecordAll(Default(), answers).correctByCategory, c) == CorrectIn(answers, c)
    ensures Consistent(RecordAll(Default(), answers))
    decreases |answers|
  {
    if |answers| > 0 {
      RecordAllCounts(answers[..|answers| - 1], c);
    }
  }

  /** Every percentage the statistics view shows for a consistent record lies in 0..100. */
  lemma ShownPercentInRange(g: GameStats, c: Category, d: Difficulty)
    requires Consistent(g)
    ensures 0 <= Percent(CountOf(g.correctByCategory, c), CountOf(g.totalByCategory, c)) <= 100
    ensures 0 <= Percent(CountOf(g.correctByDifficulty, d), CountOf(g.totalByDifficulty, d)) <= 100
  {
    assert 0 <= CountOf(g.correctByCategory, c) <= CountOf(g.totalByCategory, c);
    assert 0 <= CountOf(g.correctByDifficulty, d) <= CountOf(g.totalByDifficulty, d);
  }
}

/**
 * The persistent statistics record `GameStats` and its default value. All
 * updates build a new record (Kotlin's `copy`); they live in `GameRules`.
 */
module Stats {
  import opened Protocol

  datatype GameStats = GameStats(
    maxScore: int,
    longestStreak: int,
    totalCorrectAnswers: int,
    gamesPlayed: int,
    correctByCategory: map<Category, int>,
    totalByCategory: map<Category, int>,
    correctByDifficulty: map<Difficulty, int>,
    totalByDifficulty: map<Difficulty, int>,
    bestScoreByPlayer: map<string, int>)

  /** A counter read the way the client reads it, `m[k] ?: 0`: a missing key counts as 0. */
  function CountOf<K>(m: map<K, int>, k: K): int {
    if k in m then m[k] else 0
  }

  /** For every key, the correct count is between 0 and the total count. */
  ghost predicate Tallies<K(!new)>(correct: map<K, int>, total: map<K, int>) {
    forall k :: 0 <= CountOf(correct, k) <= CountOf(total, k)
  }

  /** The invariant the per-answer updates keep: correct <= total per category and per difficulty. */
  ghost predicate Consistent(g: GameStats) {
    Tallies(g.correctByCategory, g.totalByCategory) && Tallies(g.correctByDifficulty, g.totalByDifficulty)
  }

  /** `GameStats()`: every number 0 and every map empty. */
  function Default(): (g: GameStats)
    ensures g.maxScore == 0 && g.longestStreak == 0
    ensures g.totalCorrectAnswers == 0 && g.gamesPlayed == 0
    ensures forall c :: CountOf(g.correctByCategory, c) == 0 && CountOf(g.totalByCategory, c) == 0
    ensures forall d :: CountOf(g.correctByDifficulty, d) == 0 && CountOf(g.totalByDifficulty, d) == 0
    ensures Consistent(g)
    ensures forall p :: CountOf(g.bestScoreByPlayer, p) == 0
    ensures g.correctByCategory == map[] && g.totalByCategory == map[]
    ensures g.correctByDifficulty == map[] && g.totalByDifficulty == map[]
    ensures g.bestScoreByPlayer == map[]
  {
    GameStats(0, 0, 0, 0, map[], map[], map[], map[], map[])
  }
}

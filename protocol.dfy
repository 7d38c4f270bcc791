/**
 * The shared domain and wire types the desktop client imports from
 * `dev.jgonzalez.trivial.shared.domain`. Their source is not part of this
 * model: each type carries exactly the cases and fields the client reads or
 * writes.
 */
module Protocol {
  import opened Common

  /** The categories the configuration screen lists and the question view maps to icons. */
  datatype Category =
    | SCIENCE | HISTORY | GEOGRAPHY | ART | ART_LITERATURE
    | ENTERTAINMENT | TECHNOLOGY | SPORTS | GENERAL

  /** `MIXED` is the initial selection; the buttons offer the other three. */
  datatype Difficulty = EASY | MEDIUM | HARD | MIXED

  datatype GameMode = PVE | PVP

  /** Only `TIMED` is ever sent by the client; other turn policies are not part of this model. */
  datatype TurnMode = TIMED

  datatype PlayerScore = PlayerScore(name: string, score: int, streak: int)

  datatype FinalScore = FinalScore(name: string, score: int)

  /** Server-to-client messages, one case per `ServerMessage` subclass. */
  datatype ServerMessage =
    | QuestionMsg(id: string, question: string, options: seq<string>, index: int, total: int,
                  category: Category, timeLimit: Option<int>)
    | AnswerResultMsg(correct: bool, points: int, explanation: string)
    | ScoreUpdateMsg(players: seq<PlayerScore>)
    | GameEndMsg(winner: Option<string>, finalScores: seq<FinalScore>, correctAnswers: map<string, int>)

  /** Client-to-server commands. */
  datatype ClientMessage =
    | CreateTrivia(mode: GameMode, questions: int, categories: seq<Category>, difficulty: Difficulty,
                   timeLimit: int, turnMode: TurnMode, playerName: string)
    | Answer(questionId: string, selectedOption: int, timeElapsed: int)
}

/**
 * The network client of the desktop trivia game (`TriviaClient`): six
 * observable values and two timing markers that project the server's message
 * stream, the receive loop that feeds them, and the two outbound commands.
 *
 * The WebSocket transport, JSON (de)serialisation and `System.nanoTime()` are
 * not modelled: a connection is given as the sequence of frames it delivers
 * (each with the clock reading taken while it is handled), and decoding is a
 * function parameter that either yields a message or fails.
 */
module Client {
  import opened Common
  import opened KotlinInt
  import opened Protocol

  datatype UiQuestion = UiQuestion(id: string, text: string, options: seq<string>, index: int, total: int, category: Category)

  datatype UiAnswerResult = UiAnswerResult(correct: bool, points: int, explanation: string)

  datatype UiScore = UiScore(score: int, streak: int)

  datatype UiGameEnd = UiGameEnd(winner: Option<string>, finalScore: int, correctAnswers: int)

  /** A WebSocket frame; only text frames carry messages, every other kind is skipped. */
  datatype Frame = Text(text: string) | NonText

  /** A frame together with the nanosecond clock reading taken while it is handled. */
  datatype Delivery = Delivery(frame: Frame, now: int)

  /** What decoding a text frame gives: a message, or an exception and its (nullable) message. */
  datatype Decoded = Decoded(msg: ServerMessage) | DecodeError(reason: Option<string>)

  /** How the incoming frame stream ends: closed normally, or by an exception. */
  datatype Ending = Closed | Broken(reason: Option<string>)

  /** The outcome of opening the WebSocket: refused with an exception, or opened. */
  datatype Connection = Refused(reason: Option<string>) | Opened(deliveries: seq<Delivery>, ending: Ending)

  /** The six observables and the two private timing markers. */
  datatype ClientState = ClientState(
    lastMessage: Option<string>,
    currentQuestion: Option<UiQuestion>,
    answerResult: Option<UiAnswerResult>,
    score: Option<UiScore>,
    gameEnd: Option<UiGameEnd>,
    timeLimit: Option<int>,
    questionStartTimeNanos: Option<int>,
    currentTimeLimitSeconds: Option<int>)

  /** Every observable and marker is `null` at construction. */
  const Initial := ClientState(None, None, None, None, None, None, None, None)

  const NANOS_PER_SECOND: int := 1_000_000_000

  /** The receive loop either keeps running or has been ended by an exception. */
  datatype Run = Running(state: ClientState) | Failed(state: ClientState)

  /** The text the `catch` block stores: `"Error: ${e.message}"`, where a null message prints as `null`. */
  function ErrorText(reason: Option<string>): (t: string)
    ensures |t| >= 7 && t[..7] == "Error: "
    ensures reason.Some? ==> t[7..] == reason.value
    ensures reason.None? ==> t[7..] == "null"
  {
    "Error: " + reason.GetOr("null")
  }

  predicate IsErrorText(t: string) {
    |t| >= 7 && t[..7] == "Error: "
  }

  function ToUiQuestion(msg: ServerMessage): UiQuestion
    requires msg.QuestionMsg?
  {
    UiQuestion(msg.id, msg.question, msg.options, msg.index, msg.total, msg.category)
  }

  /** The final score the game-end view shows: the first `finalScores` entry, or 0. */
  function FinalScoreOf(finalScores: seq<FinalScore>): int {
    if |finalScores| > 0 then finalScores[0].score else 0
  }

  /** `correctAnswers[p?.name] ?: 0` with `p` the first `finalScores` entry. */
  function CorrectOf(finalScores: seq<FinalScore>, correctAnswers: map<string, int>): int {
    if |finalScores| > 0 && finalScores[0].name in correctAnswers then correctAnswers[finalScores[0].name] else 0
  }

  /** The `when (msg)` dispatch: the state after one decoded server message. */
  function Dispatch(s: ClientState, msg: ServerMessage, now: int): (r: ClientState)
    // no handler touches the raw last message
    ensures r.lastMessage == s.lastMessage
    ensures msg.QuestionMsg? ==>
      && r.currentQuestion == Some(ToUiQuestion(msg))
      && r.answerResult == None
      && r.timeLimit == msg.timeLimit && r.currentTimeLimitSeconds == msg.timeLimit
      && r.questionStartTimeNanos == Some(now)
      && r.score == s.score && r.gameEnd == s.gameEnd
    ensures msg.AnswerResultMsg? ==>
      && r.answerResult == Some(UiAnswerResult(msg.correct, msg.points, msg.explanation))
      && r.currentQuestion == s.currentQuestion && r.score == s.score && r.gameEnd == s.gameEnd
      && r.timeLimit == s.timeLimit && r.currentTimeLimitSeconds == s.currentTimeLimitSeconds
      && r.questionStartTimeNanos == s.questionStartTimeNanos
    ensures msg.ScoreUpdateMsg? ==>
      && (|msg.players| == 0 ==> r == s)
      && (|msg.players| > 0 ==> r.score == Some(UiScore(msg.players[0].score, msg.players[0].streak)))
      && r.currentQuestion == s.currentQuestion && r.answerResult == s.answerResult && r.gameEnd == s.gameEnd
      && r.timeLimit == s.timeLimit && r.currentTimeLimitSeconds == s.currentTimeLimitSeconds
      && r.questionStartTimeNanos == s.questionStartTimeNanos
    ensures msg.GameEndMsg? ==>
      && r.gameEnd.Some? && r.gameEnd.value.winner == msg.winner
      && r.gameEnd.value.finalScore == (if |msg.finalScores| == 0 then 0 else msg.finalScores[0].score)
      && (|msg.finalScores| == 0 || msg.finalScores[0].name !in msg.correctAnswers ==> r.gameEnd.value.correctAnswers == 0)
      && (|msg.finalScores| > 0 && msg.finalScores[0].name in msg.correctAnswers ==>
            r.gameEnd.value.correctAnswers == msg.correctAnswers[msg.finalScores[0].name])
      && r.currentQuestion == s.currentQuestion && r.answerResult == s.answerResult && r.score == s.score
      && r.timeLimit == s.timeLimit && r.currentTimeLimitSeconds == s.currentTimeLimitSeconds
      && r.questionStartTimeNanos == s.questionStartTimeNanos
  {
    match msg
    case QuestionMsg(_, _, _, _, _, _, limit) =>
      s.(currentQuestion := Some(ToUiQuestion(msg)), answerResult := None,
         questionStartTimeNanos := Some(now), currentTimeLimitSeconds := limit, timeLimit := limit)
    case AnswerResultMsg(correct, points, explanation) =>
      s.(answerResult := Some(UiAnswerResult(correct, points, explanation)))
    case ScoreUpdateMsg(players) =>
      if |players| > 0 then s.(score := Some(UiScore(players[0].score, players[0].streak))) else s
    case GameEndMsg(winner, finalScores, correctAnswers) =>
      s.(gameEnd := Some(UiGameEnd(winner, FinalScoreOf(finalScores), CorrectOf(finalScores, correctAnswers))))
  }

  /**
   * One pass of `for (frame in incoming)`: skip a non-text frame, otherwise
   * record the raw text and decode it; a decoding exception leaves the loop
   * through the outer `catch`, which overwrites the raw text with the error.
   */
  function StepFrame(s: ClientState, d: Delivery, decode: string -> Decoded): (r: Run)
    ensures d.frame.NonText? ==> r == Running(s)
    ensures d.frame.Text? && decode(d.frame.text).Decoded? ==>
      && r.Running? && r.state.lastMessage == Some(d.frame.text)
      && r.state.(lastMessage := s.lastMessage) == Dispatch(s, decode(d.frame.text).msg, d.now)
    ensures d.frame.Text? && decode(d.frame.text).DecodeError? ==>
      && r.Failed? && r.state.lastMessage == Some(ErrorText(decode(d.frame.text).reason))
      && r.state.(lastMessage := s.lastMessage) == s
  {
    match d.frame
    case NonText => Running(s)
    case Text(text) =>
      var received := s.(lastMessage := Some(text));
      match decode(text)
      case DecodeError(reason) => Failed(received.(lastMessage := Some(ErrorText(reason))))
      case Decoded(msg) => Running(Dispatch(received, msg, d.now))
  }

  /** The receive loop over a sequence of frames, starting from `r`; nothing runs after a failure. */
  function Receive(r: Run, ds: seq<Delivery>, decode: string -> Decoded): (res: Run)
    ensures res.Running? ==> r.Running?
    ensures (forall i :: 0 <= i < |ds| ==> ds[i].frame.NonText?) ==> res == r
    decreases |ds|
  {
    if |ds| == 0 then r
    else
      var before := Receive(r, ds[..|ds| - 1], decode);
      if before.Failed? then before else StepFrame(before.state, ds[|ds| - 1], decode)
  }

  /**
   * What one call of `connect()` leaves behind, from state `s`: any exception
   * (a refused handshake, a frame that does not decode, a broken stream) ends
   * in failure with an `Error: ` text as the last message.
   */
  function Establish(s: ClientState, conn: Connection, decode: string -> Decoded): (res: Run)
    ensures res.Failed? <==>
      conn.Refused? || !AllDecode(conn.deliveries, decode) || conn.ending.Broken?
    ensures res.Failed? ==> res.state.lastMessage.Some? && IsErrorText(res.state.lastMessage.value)
  {
    match conn
    case Refused(reason) => Failed(s.(lastMessage := Some(ErrorText(reason))))
    case Opened(ds, ending) =>
      ReceiveFailsOnUndecodable(s, ds, decode);
      var run := Receive(Running(s), ds, decode);
      if run.Failed? then run
      else match ending
        case Closed => run
        case Broken(reason) => Failed(run.state.(lastMessage := Some(ErrorText(reason))))
  }

  /** Every text frame of `ds` decodes. */
  predicate AllDecode(ds: seq<Delivery>, decode: string -> Decoded) {
    forall i :: 0 <= i < |ds| && ds[i].frame.Text? ==> decode(ds[i].frame.text).Decoded?
  }

  /**
   * Seconds between the question's arrival and `now`, as `answerQuestion`
   * computes them: `((now - start) / 1_000_000_000L).toInt()` in `Long`
   * arithmetic, or 0 when no question start is recorded.
   */
  function ElapsedSeconds(start: Option<int>, now: int): (r: int)
    ensures IsInt(r)
    ensures start.None? ==> r == 0
    ensures start.Some? && 0 <= now - start.value < 0x8000_0000 * NANOS_PER_SECOND ==>
      0 <= r && r * NANOS_PER_SECOND <= now - start.value < r * NANOS_PER_SECOND + NANOS_PER_SECOND
    ensures start.Some? && -0x8000_0000 * NANOS_PER_SECOND < now - start.value < 0 ==>
      r <= 0 && now - start.value <= r * NANOS_PER_SECOND < now - start.value + NANOS_PER_SECOND
  {
    match start
    case None => 0
    case Some(t) => ToInt(Div(ToLong(now - t), NANOS_PER_SECOND))
  }

  class TriviaClient {
    var lastMessage: Option<string>
    var currentQuestion: Option<UiQuestion>
    var answerResult: Option<UiAnswerResult>
    var score: Option<UiScore>
    var gameEnd: Option<UiGameEnd>
    var timeLimit: Option<int>
    var questionStartTimeNanos: Option<int>
    var currentTimeLimitSeconds: Option<int>
    /** Whether `session` holds a WebSocket session (it is non-null). */
    var session: bool

    function Snapshot(): ClientState
      reads this
    {
      ClientState(lastMessage, currentQuestion, answerResult, score, gameEnd, timeLimit,
                  questionStartTimeNanos, currentTimeLimitSeconds)
    }

    constructor ()
      ensures Snapshot() == Initial && !session
    {
      lastMessage, currentQuestion, answerResult := None, None, None;
      score, gameEnd, timeLimit := None, None, None;
      questionStartTimeNanos, currentTimeLimitSeconds := None, None;
      session := false;
    }

    /** Clears all six observables and both markers; the connection is left alone. */
    method ResetState()
      modifies this
      ensures Snapshot() == Initial
      ensures session == old(session)
    {
      currentQuestion := None;
      answerResult := None;
      score := None;
      gameEnd := None;
      lastMessage := None;
      timeLimit := None;
      questionStartTimeNanos := None;
      currentTimeLimitSeconds := None;
    }

    /** The body of one `when (msg)` branch, with `now` standing for `System.nanoTime()`. */
    method Handle(msg: ServerMessage, now: int)
      modifies this
      ensures Snapshot() == Dispatch(old(Snapshot()), msg, now)
      ensures session == old(session)
    {
      match msg
      case QuestionMsg(id, question, options, index, total, category, limit) =>
        currentQuestion := Some(UiQuestion(id, question, options, index, total, category));
        answerResult := None;
        questionStartTimeNanos := Some(now);
        currentTimeLimitSeconds := limit;
        timeLimit := limit;
      case AnswerResultMsg(correct, points, explanation) =>
        answerResult := Some(UiAnswerResult(correct, points, explanation));
      case ScoreUpdateMsg(players) =>
        if |players| > 0 {
          var p := players[0];
          score := Some(UiScore(p.score, p.streak));
        }
      case GameEndMsg(winner, finalScores, correctAnswers) =>
        var correct := 0;
        var finalScore := 0;
        if |finalScores| > 0 {
          var p := finalScores[0];
          finalScore := p.score;
          if p.name in correctAnswers {
            correct := correctAnswers[p.name];
          }
        }
        gameEnd := Some(UiGameEnd(winner, finalScore, correct));
    }

    /**
     * `connect()`: opens the socket, records the session, and runs the receive
     * loop until the frames run out or an exception ends it; the `catch`
     * stores the error text and drops the session.
     */
    method Connect(conn: Connection, decode: string -> Decoded)
      modifies this
      ensures Snapshot() == Establish(old(Snapshot()), conn, decode).state
      ensures session == Establish(old(Snapshot()), conn, decode).Running?
    {
      match conn
      case Refused(reason) =>
        lastMessage := Some(ErrorText(reason));
        session := false;
      case Opened(ds, ending) =>
        session := true;
        ghost var start := Snapshot();
        var i := 0;
        var failed := false;
        while i < |ds| && !failed
          invariant 0 <= i <= |ds|
          invariant session
          invariant Receive(Running(start), ds[..i], decode) ==
                    (if failed then Failed(Snapshot()) else Running(Snapshot()))
        {
          assert ds[..i + 1][..i] == ds[..i];
          var d := ds[i];
          match d.frame {
            case NonText =>
            case Text(text) =>
              lastMessage := Some(text);
              match decode(text) {
                case DecodeError(reason) =>
                  lastMessage := Some(ErrorText(reason));
                  failed := true;
                case Decoded(msg) =>
                  Handle(msg, d.now);
              }
          }
          i := i + 1;
        }
        if failed {
          ReceiveAppend(Running(start), ds[..i], ds[i..], decode);
          FailedIsFinal(Snapshot(), ds[i..], decode);
          assert ds[..i] + ds[i..] == ds;
          session := false;
        } else {
          assert ds[..i] == ds;
          match ending
          case Closed =>
          case Broken(reason) =>
            lastMessage := Some(ErrorText(reason));
            session := false;
        }
    }

    /** `createTrivia(...)`: the command that is sent, or nothing when there is no session. */
    method CreateTrivia(mode: GameMode, questions: int, categories: seq<Category>, difficulty: Difficulty,
                        limit: int, turnMode: TurnMode, playerName: string)
      returns (sent: Option<ClientMessage>)
      ensures sent.Some? <==> session
      ensures sent.Some? ==>
        sent.value == Protocol.CreateTrivia(mode, questions, categories, difficulty, limit, turnMode, playerName)
    {
      if !session {
        return None;
      }
      sent := Some(Protocol.CreateTrivia(mode, questions, categories, difficulty, limit, turnMode, playerName));
    }

    /**
     * `answerQuestion(...)`: the answer that is sent, or nothing when there is
     * no session; the elapsed time is measured from the current question's arrival.
     */
    method AnswerQuestion(questionId: string, selectedIndex: int, now: int)
      returns (sent: Option<ClientMessage>)
      ensures sent.Some? <==> session
      ensures sent.Some? ==>
        && sent.value.Answer? && sent.value.questionId == questionId
        && sent.value.selectedOption == selectedIndex
        && sent.value.timeElapsed == ElapsedSeconds(questionStartTimeNanos, now)
    {
      if !session {
        return None;
      }
      var elapsed := 0;
      if questionStartTimeNanos.Some? {
        elapsed := ToInt(Div(ToLong(now - questionStartTimeNanos.value), NANOS_PER_SECOND));
      }
      sent := Some(Answer(questionId, selectedIndex, elapsed));
    }
  }

  /** Running the loop over `a + b` is running it over `a` and then over `b`. */
  lemma {:induction false} ReceiveAppend(r: Run, a: seq<Delivery>, b: seq<Delivery>, decode: string -> Decoded)
    ensures Receive(r, a + b, decode) == Receive(Receive(r, a, decode), b, decode)
    decreases |b|
  {
    if |b| == 0 {
      assert a + b == a;
    } else {
      assert (a + b)[..|a + b| - 1] == a + b[..|b| - 1];
      ReceiveAppend(r, a, b[..|b| - 1], decode);
    }
  }

  /** Once an exception has ended the loop, no later frame changes anything. */
  lemma {:induction false} FailedIsFinal(s: ClientState, ds: seq<Delivery>, decode: string -> Decoded)
    ensures Receive(Failed(s), ds, decode) == Failed(s)
    decreases |ds|
  {
    if |ds| > 0 {
      FailedIsFinal(s, ds[..|ds| - 1], decode);
    }
  }

  /** The loop ends in failure exactly when some text frame fails to decode, and then it shows an error text. */
  lemma {:induction false} ReceiveFailsOnUndecodable(s: ClientState, ds: seq<Delivery>, decode: string -> Decoded)
    ensures Receive(Running(s), ds, decode).Failed? <==> !AllDecode(ds, decode)
    ensures Receive(Running(s), ds, decode).Failed? ==>
      Receive(Running(s), ds, decode).state.lastMessage.Some? &&
      IsErrorText(Receive(Running(s), ds, decode).state.lastMessage.value)
    decreases |ds|
  {
    if |ds| > 0 {
      var init, last := ds[..|ds| - 1], ds[|ds| - 1];
      ReceiveFailsOnUndecodable(s, init, decode);
      if AllDecode(init, decode) && (last.frame.Text? ==> decode(last.frame.text).Decoded?) {
        forall i | 0 <= i < |ds| && ds[i].frame.Text? ensures decode(ds[i].frame.text).Decoded? {
          if i < |ds| - 1 { assert ds[i] == init[i]; }
        }
      } else if !AllDecode(init, decode) {
        var i :| 0 <= i < |init| && init[i].frame.Text? && !decode(init[i].frame.text).Decoded?;
        assert ds[i] == init[i];
      }
    }
  }

  /** The two kinds of message whose latest arrival decides the question view. */
  datatype Kind = QuestionKind | AnswerKind

  predicate IsKind(d: Delivery, decode: string -> Decoded, kind: Kind) {
    && d.frame.Text?
    && decode(d.frame.text).Decoded?
    && (match kind
        case QuestionKind => decode(d.frame.text).msg.QuestionMsg?
        case AnswerKind => decode(d.frame.text).msg.AnswerResultMsg?)
  }

  /** The position of the last frame of `ds` that decodes to a message of `kind`, if there is one. */
  function LastOf(ds: seq<Delivery>, decode: string -> Decoded, kind: Kind): (r: Option<nat>)
    ensures r.Some? ==> r.value < |ds| && IsKind(ds[r.value], decode, kind)
    ensures r.Some? ==> forall j :: r.value < j < |ds| ==> !IsKind(ds[j], decode, kind)
    ensures r.None? ==> forall j :: 0 <= j < |ds| ==> !IsKind(ds[j], decode, kind)
    decreases |ds|
  {
    if |ds| == 0 then None
    else if IsKind(ds[|ds| - 1], decode, kind) then Some(|ds| - 1)
    else
      var r := LastOf(ds[..|ds| - 1], decode, kind);
      assert forall j :: 0 <= j < |ds| - 1 ==> ds[j] == ds[..|ds| - 1][j];
      r
  }

  /**
   * Without decoding failures, the current question, its time limit and its
   * start instant are those of the last question frame (or are untouched when
   * there is none); the pending answer result is that of the last answer-result
   * frame after it, and is cleared when no such frame follows the last question.
   */
  lemma {:induction false} ReceiveFollowsLatest(s: ClientState, ds: seq<Delivery>, decode: string -> Decoded)
    requires AllDecode(ds, decode)
    ensures Receive(Running(s), ds, decode).Running?
    ensures
      var r := Receive(Running(s), ds, decode).state;
      match LastOf(ds, decode, QuestionKind)
      case None =>
        r.currentQuestion == s.currentQuestion && r.timeLimit == s.timeLimit &&
        r.questionStartTimeNanos == s.questionStartTimeNanos
      case Some(i) =>
        var m := decode(ds[i].frame.text).msg;
        r.currentQuestion == Some(ToUiQuestion(m)) && r.timeLimit == m.timeLimit &&
        r.questionStartTimeNanos == Some(ds[i].now)
    ensures
      var r := Receive(Running(s), ds, decode).state;
      var q, a := LastOf(ds, decode, QuestionKind), LastOf(ds, decode, AnswerKind);
      && (a.Some? && (q.None? || q.value < a.value) ==>
            var m := decode(ds[a.value].frame.text).msg;
            r.answerResult == Some(UiAnswerResult(m.correct, m.points, m.explanation)))
      && (q.Some? && (a.None? || a.value < q.value) ==> r.answerResult == None)
      && (q.None? && a.None? ==> r.answerResult == s.answerResult)
    decreases |ds|
  {
    ReceiveFailsOnUndecodable(s, ds, decode);
    if |ds| > 0 {
      var init, last := ds[..|ds| - 1], ds[|ds| - 1];
      assert forall j :: 0 <= j < |init| ==> init[j] == ds[j];
      assert AllDecode(init, decode);
      ReceiveFollowsLatest(s, init, decode);
    }
  }

  /** A gap of exactly three seconds is reported as 3. */
  lemma ElapsedThreeSeconds(start: int)
    ensures ElapsedSeconds(Some(start), start + 3_000_000_000) == 3
  {
  }

  /** A later answer never reports fewer seconds, as long as the gap fits an `Int` number of seconds. */
  lemma ElapsedMonotonic(start: int, now1: int, now2: int)
    requires start <= now1 <= now2 < start + 0x8000_0000 * NANOS_PER_SECOND
    ensures 0 <= ElapsedSeconds(Some(start), now1) <= ElapsedSeconds(Some(start), now2)
  {
  }

  /** Truncation, not flooring: a gap just below zero reports 0, not -1. */
  lemma ElapsedTruncatesTowardZero(start: int, now: int)
    requires start - NANOS_PER_SECOND < now <= start
    ensures ElapsedSeconds(Some(start), now) == 0
  {
  }

  /** `toInt()` keeps the low 32 bits: a gap of 2^31 seconds wraps to `Int.MIN_VALUE`. */
  lemma ElapsedWrapsPastIntRange(start: int)
    ensures ElapsedSeconds(Some(start), start + 0x8000_0000 * NANOS_PER_SECOND) == INT_MIN
  {
  }

  /**
   * Question "q1" (three options, 1 of 5, 10 s limit) arrives at `t`; an
   * answer sent 4 s later reports 4 s; the correct 100-point result then
   * shows beside the same question.
   */
  lemma ScenarioQuestionThenResult(t: int, category: Category)
    ensures
      var question := QuestionMsg("q1", "?", ["A", "B", "C"], 1, 5, category, Some(10));
      var shown := Dispatch(Initial, question, t);
      var answered := Dispatch(shown, AnswerResultMsg(true, 100, "..."), t + 5_000_000_000);
      && shown.currentQuestion.Some? && shown.currentQuestion.value.id == "q1"
      && shown.timeLimit == Some(10)
      && ElapsedSeconds(shown.questionStartTimeNanos, t + 4_000_000_000) == 4
      && answered.currentQuestion == shown.currentQuestion
      && answered.answerResult == Some(UiAnswerResult(true, 100, "..."))
  {
  }
}

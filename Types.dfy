/**
 * The records the application exchanges with the generation service and the
 * enumeration of its generation phases. TypeScript `number` fields are integers here.
 */
module Types {
  import opened Wrappers

  /** A recall card: a prompt on the front, its answer on the back. */
  datatype Flashcard = Flashcard(front: string, back: string)

  /** A multiple-choice question; nothing ties `correctAnswerIndex` to the range of `options`. */
  datatype QuizQuestion = QuizQuestion(question: string, options: seq<string>, correctAnswerIndex: int)

  /** One day of the plan. */
  datatype DailyPlan = DailyPlan(
    day: int,
    topic: string,
    summary: string,
    flashcards: seq<Flashcard>,
    quiz: seq<QuizQuestion>)

  /** The whole plan; nothing ties `totalDays` to the length of `schedule`. */
  datatype StudyPlanResponse = StudyPlanResponse(planName: string, totalDays: int, schedule: seq<DailyPlan>)

  /** The phase of a generation attempt; a string enum whose values are the member names. */
  datatype AppState = Idle | Generating | Ready | Error {

    /** The string value the enum member carries. */
    function Value(): string {
      match this
      case Idle => "IDLE"
      case Generating => "GENERATING"
      case Ready => "READY"
      case Error => "ERROR"
    }
  }

  /** The member whose string value is `v`, if any. */
  function AppStateOf(v: string): (r: Option<AppState>)
    ensures r.Some? ==> r.value.Value() == v
  {
    if v == "IDLE" then Some(Idle)
    else if v == "GENERATING" then Some(Generating)
    else if v == "READY" then Some(Ready)
    else if v == "ERROR" then Some(Error)
    else None
  }

  /** Every phase is recovered from its string value, so the four values are distinct. */
  lemma AppStateValueRoundTrip(s: AppState)
    ensures AppStateOf(s.Value()) == Some(s)
  {
  }

  /** The enumeration is closed: exactly the four phases, and no other string names one. */
  lemma AppStateIsClosed(v: string)
    ensures AppStateOf(v).Some? <==> v in {"IDLE", "GENERATING", "READY", "ERROR"}
    ensures |{Idle, Generating, Ready, Error}| == 4
  {
  }
}

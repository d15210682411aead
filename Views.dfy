/**
 * The state the application's views keep and the rules they apply:
 * the `App` component's generation phase and stored plan, the home view's
 * submit and file-upload handlers, and the dashboard's day/tab selection and
 * quiz answer check. Rendering, routing and styling are not modelled.
 */
module Views {
  import opened Wrappers
  import opened JsString
  import opened Types
  import GeminiService

  /** How the awaited `generateStudyPlan(text, days)` settles, as the view receives it. */
  type Outcome = Result<StudyPlanResponse, GeminiService.JsError>

  // ---------------------------------------------------------------------------
  // The generation lifecycle, as values
  // ---------------------------------------------------------------------------

  /** The `App` component's two state cells. */
  datatype Session = Session(appState: AppState, studyPlan: Option<StudyPlanResponse>)

  /** `useState(AppState.IDLE)` and `useState(null)`. */
  const InitialSession := Session(Idle, None)

  /** The phases a submit writes with `setAppState`, in order. */
  function PhaseWrites(text: string, outcome: Outcome): (w: seq<AppState>)
    ensures IsBlank(text) <==> w == []
    ensures w != [] ==> |w| == 2 && w[0] == Generating
    ensures w != [] ==> (w[1] == Ready <==> outcome.Ok?) && (w[1] == Error <==> outcome.Err?)
  {
    if IsBlank(text) then [] else [Generating, if outcome.Ok? then Ready else Error]
  }

  /** The net effect of `handleSubmit` on the session. */
  function Submit(s: Session, text: string, outcome: Outcome): (r: Session)
    ensures IsBlank(text) ==> r == s
    ensures !IsBlank(text) ==> (r.appState == Ready <==> outcome.Ok?) && (r.appState == Error <==> outcome.Err?)
    ensures r.studyPlan != s.studyPlan ==> r.studyPlan.Some? && outcome == Ok(r.studyPlan.value)
    ensures !IsBlank(text) && outcome.Ok? ==> r == Session(Ready, Some(outcome.value))
    ensures !IsBlank(text) && outcome.Err? ==> r == Session(Error, s.studyPlan)
  {
    if IsBlank(text) then s
    else match outcome
      case Ok(plan) => Session(Ready, Some(plan))
      case Err(_) => Session(Error, s.studyPlan)
  }

  /** The moves of the lifecycle: any phase to GENERATING (a submit); GENERATING to READY or ERROR. */
  predicate Transition(from: AppState, to: AppState) {
    to == Generating || (from == Generating && (to == Ready || to == Error))
  }

  /** A sequence of phases that starts in IDLE and moves only along `Transition`. */
  predicate IsLifecycle(trace: seq<AppState>) {
    && |trace| > 0 && trace[0] == Idle
    && forall i :: 0 < i < |trace| ==> Transition(trace[i - 1], trace[i])
  }

  /**
   * The plan is stored whenever the phase is READY. This holds because an outcome carries a
   * typed plan; a reply that parses to `null` would be stored as `null` with READY written.
   */
  predicate Consistent(s: Session) {
    s.appState == Ready ==> s.studyPlan.Some?
  }

  /** One press of the submit button: the text at that moment and the outcome of its generation. */
  datatype Submission = Submission(text: string, outcome: Outcome)

  /** The session after the given submissions, starting from the initial one. */
  function Run(subs: seq<Submission>): Session {
    if subs == [] then InitialSession
    else
      var last := subs[|subs| - 1];
      Submit(Run(subs[..|subs| - 1]), last.text, last.outcome)
  }

  /** A submission that made a generation call and whose generation succeeded. */
  predicate Succeeded(sub: Submission) {
    !IsBlank(sub.text) && sub.outcome.Ok?
  }

  /** Every phase the session has been in: IDLE, then each phase written, in order. */
  function Trace(subs: seq<Submission>): (t: seq<AppState>)
    ensures |t| > 0
  {
    if subs == [] then [Idle]
    else
      var last := subs[|subs| - 1];
      Trace(subs[..|subs| - 1]) + PhaseWrites(last.text, last.outcome)
  }

  /** Appending the phases of one submit to a lifecycle gives a lifecycle ending in the last phase written. */
  lemma AppendPhaseWrites(t: seq<AppState>, text: string, outcome: Outcome)
    requires IsLifecycle(t)
    ensures IsLifecycle(t + PhaseWrites(text, outcome))
  {
    var w := PhaseWrites(text, outcome);
    if w != [] {
      forall i | 0 < i < |t + w| ensures Transition((t + w)[i - 1], (t + w)[i]) {
        if i < |t| {
          assert (t + w)[i - 1] == t[i - 1] && (t + w)[i] == t[i];
        }
      }
    } else {
      assert t + w == t;
    }
  }

  /**
   * Any sequence of submissions drives the phase along the lifecycle, ends in the phase last
   * written, and never reaches READY without a stored plan.
   */
  lemma {:induction false} RunFollowsLifecycle(subs: seq<Submission>)
    ensures IsLifecycle(Trace(subs))
    ensures Trace(subs)[|Trace(subs)| - 1] == Run(subs).appState
    ensures Consistent(Run(subs))
  {
    if subs != [] {
      var init := subs[..|subs| - 1];
      var last := subs[|subs| - 1];
      RunFollowsLifecycle(init);
      AppendPhaseWrites(Trace(init), last.text, last.outcome);
    }
  }

  /**
   * The stored plan is the plan of the last successful submission; and there is a stored
   * plan exactly when some submission succeeded.
   */
  lemma {:induction false} StoredPlanCameFromSuccess(subs: seq<Submission>)
    ensures Run(subs).studyPlan.Some? ==>
      exists i :: LastSuccess(subs, i) && subs[i].outcome.value == Run(subs).studyPlan.value
    ensures Run(subs).studyPlan.None? <==> forall i :: 0 <= i < |subs| ==> !Succeeded(subs[i])
  {
    if subs != [] {
      var init := subs[..|subs| - 1];
      var last := subs[|subs| - 1];
      StoredPlanCameFromSuccess(init);
      assert Run(subs) == Submit(Run(init), last.text, last.outcome);
      assert forall i :: 0 <= i < |init| ==> subs[i] == init[i];
      if Succeeded(last) {
        assert LastSuccess(subs, |subs| - 1);
      } else if Run(init).studyPlan.Some? {
        var i :| LastSuccess(init, i) && init[i].outcome.value == Run(init).studyPlan.value;
        assert LastSuccess(subs, i) by {
          forall k | i < k < |subs| ensures !Succeeded(subs[k]) {
            if k < |init| {
              assert subs[k] == init[k];
            }
          }
        }
      }
    }
  }

  /** Submission `i` succeeded and none after it did. */
  predicate LastSuccess(subs: seq<Submission>, i: int) {
    && 0 <= i < |subs| && Succeeded(subs[i])
    && forall k :: i < k < |subs| ==> !Succeeded(subs[k])
  }

  /** A failed generation ends in ERROR, never READY, and leaves the stored plan as it was. */
  lemma FailureEndsInError(s: Session, text: string, e: GeminiService.JsError)
    requires !IsBlank(text)
    ensures Submit(s, text, Err(e)) == Session(Error, s.studyPlan)
  {
  }

  /** From READY or ERROR (indeed from any phase) a non-blank submit starts a new generation. */
  lemma ResubmitAllowed(s: Session, text: string, outcome: Outcome)
    requires !IsBlank(text)
    ensures Transition(s.appState, PhaseWrites(text, outcome)[0])
    ensures PhaseWrites(text, outcome)[0] == Generating
  {
  }

  // ---------------------------------------------------------------------------
  // The App component
  // ---------------------------------------------------------------------------

  /**
   * The `App` component: the phase and the stored plan, with the phases written so far.
   * The setters are React's raw state setters: `SetAppState` alone can break `Valid()`
   * (READY with no plan); the lifecycle invariant belongs to `HomeView.HandleSubmit`.
   */
  class App {
    var appState: AppState
    var studyPlan: Option<StudyPlanResponse>
    /** Every phase this component has been in, the current one last. */
    ghost var trace: seq<AppState>

    ghost predicate Valid()
      reads this
    {
      && IsLifecycle(trace)
      && trace[|trace| - 1] == appState
      && Consistent(Snapshot())
    }

    function Snapshot(): Session
      reads this
    {
      Session(appState, studyPlan)
    }

    constructor ()
      ensures Valid()
      ensures Snapshot() == InitialSession && trace == [Idle]
    {
      appState := Idle;
      studyPlan := None;
      trace := [Idle];
    }

    /** The `setAppState` setter handed to the home view. */
    method SetAppState(s: AppState)
      modifies this
      ensures appState == s && studyPlan == old(studyPlan)
      ensures trace == old(trace) + [s]
    {
      appState := s;
      trace := trace + [s];
    }

    /** `handlePlanGenerated`: stores the plan (the navigation to the plan page is not modelled). */
    method HandlePlanGenerated(plan: StudyPlanResponse)
      requires Valid()
      modifies this
      ensures Valid()
      ensures studyPlan == Some(plan)
      ensures appState == old(appState) && trace == old(trace)
    {
      studyPlan := Some(plan);
    }
  }

  // ---------------------------------------------------------------------------
  // The home view
  // ---------------------------------------------------------------------------

  /** The file chosen in the file input: its name and its MIME type (`file.type`). */
  datatype FileInfo = FileInfo(name: string, mimeType: string)

  const UnsupportedFileMessage :=
    "Przepraszamy, w tej wersji demo prosimy o wklejenie tekstu z plików PDF/DOCX ręcznie dla najlepszych rezultatów."

  /** The upload handler reads a file as text when it is plain text or named `.txt`, `.csv` or `.md`. */
  predicate IsAcceptedFile(f: FileInfo)
    ensures IsAcceptedFile(f) <==>
      || f.mimeType == "text/plain"
      || (exists b :: f.name == b + ".txt")
      || (exists b :: f.name == b + ".csv")
      || (exists b :: f.name == b + ".md")
  {
    f.mimeType == "text/plain" || EndsWith(f.name, ".txt") || EndsWith(f.name, ".csv") || EndsWith(f.name, ".md")
  }

  /** The extension test is case-sensitive, and other formats are refused unless typed as plain text. */
  lemma AcceptanceExamples()
    ensures !IsAcceptedFile(FileInfo("NOTES.TXT", ""))
    ensures !IsAcceptedFile(FileInfo("notes.pdf", "application/pdf"))
    ensures IsAcceptedFile(FileInfo("notes.pdf", "text/plain"))
    ensures IsAcceptedFile(FileInfo("notes.md", ""))
  {
    assert "NOTES.TXT"[5..] == ".TXT";
    assert "NOTES.TXT"[6..] == "TXT";
    assert "notes.pdf"[5..] == ".pdf";
    assert "notes.pdf"[6..] == "pdf";
    assert "notes.md"[5..] == ".md";
  }

  /** The home view's state cells, with the generation calls it has made. */
  class HomeView {
    var text: string
    var days: int
    var fileError: string
    /** The arguments of every `generateStudyPlan` call made so far. */
    ghost var generationCalls: seq<(string, int)>

    constructor ()
      ensures text == "" && days == 3 && fileError == "" && generationCalls == []
    {
      text := "";
      days := 3;
      fileError := "";
      generationCalls := [];
    }

    /** The text area's change handler. */
    method EditText(newText: string)
      modifies this`text
      ensures text == newText
    {
      text := newText;
    }

    /** The day slider's change handler; the slider only yields values from 1 to 14. */
    method SetDays(d: int)
      requires 1 <= d <= 14
      modifies this`days
      ensures days == d
    {
      days := d;
    }

    /**
     * `handleFileUpload`: clears the error, then reads an accepted file (its text is
     * `contents`) or sets the error for any other file; no file changes nothing else.
     */
    method HandleFileUpload(file: Option<FileInfo>, contents: string)
      modifies this`text, this`fileError
      ensures fileError == if file.Some? && !IsAcceptedFile(file.value) then UnsupportedFileMessage else ""
      ensures text == if file.Some? && IsAcceptedFile(file.value) then contents else old(text)
    {
      fileError := "";
      if file.None? {
        return;
      }
      if IsAcceptedFile(file.value) {
        text := contents;
      } else {
        fileError := UnsupportedFileMessage;
      }
    }

    /**
     * `handleSubmit`: a blank text changes nothing and calls nothing; otherwise GENERATING is
     * written first, then the plan is stored and READY written on success, or ERROR written on failure.
     */
    method HandleSubmit(app: App, outcome: Outcome)
      requires app.Valid()
      modifies app, this`generationCalls
      ensures app.Valid()
      ensures app.Snapshot() == Submit(old(app.Snapshot()), text, outcome)
      ensures app.trace == old(app.trace) + PhaseWrites(text, outcome)
      ensures generationCalls == old(generationCalls) + if IsBlank(text) then [] else [(text, days)]
    {
      TrimEmptyIffBlank(text);
      if Trim(text) == "" {
        return;
      }
      ghost var before := app.trace;
      AppendPhaseWrites(before, text, outcome);
      app.SetAppState(Generating);
      generationCalls := generationCalls + [(text, days)];
      match outcome {
        case Ok(plan) =>
          app.HandlePlanGenerated(plan);
          app.SetAppState(Ready);
        case Err(_) =>
          app.SetAppState(Error);
      }
      assert app.trace == before + PhaseWrites(text, outcome);
    }
  }

  // ---------------------------------------------------------------------------
  // The dashboard view
  // ---------------------------------------------------------------------------

  datatype Tab = Summary | Flashcards | Quiz

  /**
   * What the dashboard renders: a redirect home when no plan is stored, the active day of
   * the plan, or a render failure when the active index lies outside the schedule (reading
   * a field of `undefined`).
   */
  datatype Screen = RedirectHome | DayScreen(planName: string, totalDays: int, day: DailyPlan, tab: Tab) | RenderFailure

  function ScreenFor(plan: Option<StudyPlanResponse>, index: int, tab: Tab): (r: Screen)
    ensures r.RedirectHome? <==> plan.None?
    ensures r.RenderFailure? <==> plan.Some? && !(0 <= index < |plan.value.schedule|)
    ensures r.DayScreen? ==> r.day == plan.value.schedule[index] && r.tab == tab
    ensures r.DayScreen? ==> r.planName == plan.value.planName && r.totalDays == plan.value.totalDays
  {
    match plan
    case None => RedirectHome
    case Some(p) =>
      if 0 <= index < |p.schedule| then DayScreen(p.planName, p.totalDays, p.schedule[index], tab)
      else RenderFailure
  }

  /** A freshly shown dashboard displays the first day's summary, which needs a non-empty schedule. */
  lemma FirstScreen(plan: StudyPlanResponse)
    ensures ScreenFor(Some(plan), 0, Summary).DayScreen? <==> |plan.schedule| > 0
    ensures |plan.schedule| > 0 ==> ScreenFor(Some(plan), 0, Summary).day == plan.schedule[0]
  {
  }

  /** After a day button is clicked, the dashboard shows that day's summary. */
  lemma SelectedDayShown(plan: StudyPlanResponse, idx: int)
    requires 0 <= idx < |plan.schedule|
    ensures ScreenFor(Some(plan), idx, Summary) == DayScreen(plan.planName, plan.totalDays, plan.schedule[idx], Summary)
  {
  }

  /** The quiz option button's colour after a click. */
  datatype Mark = Correct | Incorrect

  function AnswerMark(q: QuizQuestion, option: int): (m: Mark)
    ensures m == Correct <==> option == q.correctAnswerIndex
  {
    if option == q.correctAnswerIndex then Correct else Incorrect
  }

  /** The options of `q` that a click marks correct. */
  function CorrectOptions(q: QuizQuestion): set<int> {
    set o | 0 <= o < |q.options| && AnswerMark(q, o) == Correct
  }

  /**
   * Exactly one option is marked correct when the answer index lies within the options;
   * otherwise (the reply is not checked) every option is marked incorrect.
   */
  lemma CorrectOptionsOfQuestion(q: QuizQuestion)
    ensures CorrectOptions(q) == if 0 <= q.correctAnswerIndex < |q.options| then {q.correctAnswerIndex} else {}
  {
  }

  /** The dashboard's state cells. */
  class DashboardView {
    var activeDayIndex: int
    var activeTab: Tab

    constructor ()
      ensures activeDayIndex == 0 && activeTab == Summary
    {
      activeDayIndex := 0;
      activeTab := Summary;
    }

    function Screen(plan: Option<StudyPlanResponse>): Screen
      reads this
    {
      ScreenFor(plan, activeDayIndex, activeTab)
    }

    /** A day button's click handler: that day becomes active and the tab goes back to the summary. */
    method SelectDay(idx: int)
      modifies this
      ensures activeDayIndex == idx && activeTab == Summary
    {
      activeDayIndex := idx;
      activeTab := Summary;
    }

    /** A tab button's click handler. */
    method SelectTab(tab: Tab)
      modifies this`activeTab
      ensures activeTab == tab
    {
      activeTab := tab;
    }
  }
}

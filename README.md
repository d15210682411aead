# Klops Naukowy — a Dafny model

Klops Naukowy is a single-page study planner. The user pastes (or uploads) study material
and picks a number of days between 1 and 14. The app asks the Gemini model for a plan that
splits the material into days. Each day has a topic, a summary, flashcards and quiz questions.
The plan is then shown on a dashboard with one tab per kind of content.

This project models the core of that program:

- `Types.dfy` — the records of the plan (`Flashcard`, `QuizQuestion`, `DailyPlan`,
  `StudyPlanResponse`) and the `AppState` enumeration with its string values.
- `Json.dfy` — JSON values and the subset of the Gemini response-schema language the app uses
  (`STRING`, `INTEGER`, `ARRAY`, `OBJECT` with `properties` and `required`), with conformance.
- `PlanSchema.dfy` — `studyPlanSchema`, the schema sent with every request. It also holds a
  writer and a reader between the plan records and JSON, and proves that reading a written
  plan gives it back. It proves that a JSON value conforms to the schema exactly when the
  reader accepts it.
- `JsString.dfy` — the JavaScript string operations the app relies on: `trim` (over the
  ECMAScript white-space and line-terminator set), `endsWith` and `substring`.
- `GeminiService.dfy` — `generateStudyPlan`. The model call and `JSON.parse` are function
  parameters. The function records the request it builds and returns the parsed reply or the
  error.
- `Views.dfy` — the React components of `App.tsx` as classes: `App`, which holds the app
  state and the stored plan; `HomeView`, which holds the text, the day count and the file
  error, with the upload and submit handlers; and `DashboardView`, which holds the selected
  day and tab. Beside them are pure functions for what a submit does, the lifecycle of the
  app state across any sequence of submits, the screen the dashboard shows, and the quiz
  answer check.

The client does not validate the reply. A reply that parses as JSON is returned as the plan,
whatever its shape, its `totalDays` or its day numbering. `GeminiService.NonConformingReplyReturned`
and `GeminiService.MismatchedPlanReturned` state this. `generateStudyPlan` does not check
for blank content either: the only blank check is the submit handler's `text.trim()`.

## Model

| member | source | states |
|---|---|---|
| `JsString.TrimStart` | App.tsx:40 | The result is a suffix of the input; everything removed is white space; the result is empty or starts with a non-white-space character |
| `JsString.TrimEnd` | App.tsx:40 | The result is a prefix of the input; everything removed is white space; the result is empty or ends with a non-white-space character |
| `JsString.TrimEmptyIffBlank` | App.tsx:40 | `text.trim()` is empty exactly when every character of the text is white space, so the submit guard rejects exactly the blank texts |
| `JsString.Trim` | App.tsx:40 | `text.trim()` is a piece of the text bordered on both sides by white space only, and it is empty or starts and ends with a non-white-space character |
| `JsString.TrimSplits` | App.tsx:40 | Trimming the start and then the end leaves the middle of the text, with only white space before and after it |
| `JsString.EndsWith` | App.tsx:28 | `name.endsWith(x)` holds exactly when the name is some string followed by `x` |
| `JsString.Substring` | services/geminiService.ts:70 | `substring` never yields more than the string; with bounds in order and in range it is the slice between them; with both bounds at or before the start, or both at or past the end, it is empty |
| `JsString.SubstringBoundsSwap` | services/geminiService.ts:70 | Swapping the two bounds of `substring` gives the same result |
| `JsString.SubstringFromZero` | services/geminiService.ts:70 | `substring(0, n)` is the prefix of length `min(n, length)` |
| `Types.AppStateOf` | types.ts:26-31 | Reading a string back as an `AppState` succeeds only with a member whose value is that string |
| `Types.AppStateValueRoundTrip` | types.ts:26-31 | Every `AppState` member reads back from its own string value |
| `Types.AppStateIsClosed` | types.ts:26-31 | Exactly four states exist, and only the strings IDLE, GENERATING, READY and ERROR name one |
| `Json.ReadAll` | services/geminiService.ts:12-15 | Reading an array succeeds exactly when every element reads, and then yields one value per element, in order |
| `Json.ReadAllWriteAll` | services/geminiService.ts:12-15 | If elements round-trip, reading a written array gives the values back |
| `Json.ElementsConformIffReadable` | services/geminiService.ts:12-15 | If elements conform exactly when they read, the elements of an array all conform exactly when the array reads |
| `Json.ConformingObjectHasRequired` | services/geminiService.ts:51 | An object that conforms to an object schema has every key that the schema lists as required |
| `PlanSchema.FlashcardSchemaRequiresEveryProperty` | services/geminiService.ts:22-29 | The flashcard object requires exactly its declared properties, in order, with no key twice |
| `PlanSchema.QuizQuestionSchemaRequiresEveryProperty` | services/geminiService.ts:32-44 | The quiz-question object requires exactly its declared properties, in order, with no key twice |
| `PlanSchema.DailyPlanSchemaRequiresEveryProperty` | services/geminiService.ts:14-48 | The day object and the objects nested in it require exactly their declared properties, in order, with no key twice |
| `PlanSchema.StudyPlanSchemaRequiresEveryProperty` | services/geminiService.ts:7-52 | At every level of `studyPlanSchema`, an object requires exactly its declared properties, in order, with no key twice |
| `PlanSchema.PlanFromJson` | services/geminiService.ts:87 | What the `as StudyPlanResponse` cast takes for granted: an accepted value is an object holding the three required keys; the name and day count are read from their fields; the schedule has one day per array element, each read from that element |
| `PlanSchema.FlashcardToJson` | types.ts:1-4 | A flashcard is written as an object whose keys are exactly the flashcard schema's required keys |
| `PlanSchema.QuizQuestionToJson` | types.ts:6-10 | A quiz question is written as an object whose keys are exactly the quiz schema's required keys |
| `PlanSchema.DailyPlanToJson` | types.ts:12-18 | A day is written as an object whose keys are exactly the day schema's required keys |
| `PlanSchema.PlanToJson` | types.ts:20-24 | A plan is written as an object whose keys are exactly `planName`, `totalDays` and `schedule` |
| `PlanSchema.FlashcardConformsIffReadable` | services/geminiService.ts:22-29 | A JSON value conforms to the flashcard schema exactly when it reads as a `Flashcard` |
| `PlanSchema.ConformingQuizQuestionHasShape` | services/geminiService.ts:32-44 | A value conforming to the quiz schema is an object with a string question, an array of string options and an integer answer index |
| `PlanSchema.QuizQuestionShapeConforms` | services/geminiService.ts:32-44 | Every object of that shape conforms to the quiz schema |
| `PlanSchema.QuizQuestionShapeIffReadable` | types.ts:6-10 | An object has the quiz-question shape exactly when it reads as a `QuizQuestion` |
| `PlanSchema.QuizQuestionConformsIffReadable` | services/geminiService.ts:32-44 | A JSON value conforms to the quiz schema exactly when it reads as a `QuizQuestion` |
| `PlanSchema.ConformingDayHasShape` | services/geminiService.ts:14-48 | A value conforming to the day schema has an integer day, string topic and summary, and flashcard and quiz arrays |
| `PlanSchema.DayShapeConforms` | services/geminiService.ts:14-48 | Every object of that shape conforms to the day schema |
| `PlanSchema.DailyPlanConformsIffShape` | services/geminiService.ts:14-48 | A value conforms to the day schema exactly when it has the day shape |
| `PlanSchema.FlashcardsConformIffReadable` | services/geminiService.ts:20-30 | Every element of a flashcard array conforms exactly when the array reads as flashcards |
| `PlanSchema.QuizConformsIffReadable` | services/geminiService.ts:31-45 | Every element of a quiz array conforms exactly when the array reads as questions |
| `PlanSchema.DailyPlanShapeIffReadable` | types.ts:12-18 | A value has the day shape exactly when it reads as a `DailyPlan` |
| `PlanSchema.DailyPlanConformsIffReadable` | services/geminiService.ts:14-48 | A JSON value conforms to the day schema exactly when it reads as a `DailyPlan` |
| `PlanSchema.ConformingPlanHasShape` | services/geminiService.ts:7-52 | A value conforming to `studyPlanSchema` has a string name, an integer day count and a schedule whose days all conform |
| `PlanSchema.PlanShapeConforms` | services/geminiService.ts:7-52 | Every object of that shape conforms to `studyPlanSchema` |
| `PlanSchema.PlanConformsIffShape` | services/geminiService.ts:7-52 | A value conforms to `studyPlanSchema` exactly when it has the plan shape |
| `PlanSchema.PlanConformsIffReadable` | services/geminiService.ts:7-52 | A JSON value conforms to `studyPlanSchema` exactly when it reads as a `StudyPlanResponse`, so the schema and the record types describe the same data |
| `PlanSchema.QuizQuestionToJsonFields` | types.ts:6-10 | The written question's fields hold its question, its options as strings and its answer index |
| `PlanSchema.QuizQuestionRoundTrip` | types.ts:6-10 | Reading a written quiz question gives it back |
| `PlanSchema.FlashcardsRoundTrip` | types.ts:1-4 | Reading a written flashcard list gives it back |
| `PlanSchema.QuizRoundTrip` | types.ts:6-10 | Reading a written quiz list gives it back |
| `PlanSchema.DailyPlanToJsonFields` | types.ts:12-18 | The written day's fields hold its number, topic, summary, flashcards and quiz |
| `PlanSchema.DailyPlanRoundTrip` | types.ts:12-18 | Reading a written day gives it back |
| `PlanSchema.PlanToJsonFields` | types.ts:20-24 | The written plan's fields hold its name, day count and schedule |
| `PlanSchema.PlanRoundTrip` | types.ts:20-24 | Reading a written plan gives it back |
| `PlanSchema.PlanToJsonConforms` | services/geminiService.ts:7-52 | Every plan, written as JSON, conforms to `studyPlanSchema` |
| `PlanSchema.ConformingDayHasRequiredFields` | services/geminiService.ts:47 | A conforming day has all five required keys, and each flashcard and quiz question in it has its required keys |
| `PlanSchema.ConformingPlanHasRequiredFields` | services/geminiService.ts:28-51 | A conforming plan has its three required keys, and every key that a nested schema lists as required is present at every level |
| `GeminiService.EmbeddedMaterial` | services/geminiService.ts:70 | The material in the prompt is the content's prefix of length `min(30000, length)` |
| `GeminiService.ShortMaterialEmbeddedWhole` | services/geminiService.ts:70 | Content of at most 30000 characters is embedded whole |
| `GeminiService.LongMaterialTruncated` | services/geminiService.ts:70-71 | Longer content is cut to exactly its first 30000 characters |
| `GeminiService.IsEmptyText` | services/geminiService.ts:85 | `!text` holds exactly for the falsy values a response's text can take: `undefined` and the empty string |
| `GeminiService.BuildRequest` | services/geminiService.ts:59-82 | The request names `gemini-2.5-flash`, asks for `application/json` with `studyPlanSchema`, sets a thinking budget of 0, and carries the day count and the embedded material |
| `GeminiService.GenerateStudyPlan` | services/geminiService.ts:54-92 | Exactly one request is made; the result is the parsed reply exactly when the model answers with non-empty text that parses; a rejected call, an empty reply and a parse failure each become the matching error |
| `GeminiService.NonConformingReplyReturned` | services/geminiService.ts:87 | A parsed reply that does not conform to the schema is still returned as the plan |
| `GeminiService.MismatchedPlanReturned` | services/geminiService.ts:87 | A conforming reply whose `totalDays` differs from the requested days is still returned |
| `Views.PhaseWrites` | App.tsx:39-50 | A blank text writes no state; any other text writes GENERATING and then READY on success or ERROR on failure |
| `Views.Submit` | App.tsx:39-50 | A blank submit changes nothing; a successful submit ends READY with the returned plan stored; a failed one ends ERROR with the previous plan kept |
| `Views.AppendPhaseWrites` | App.tsx:41-48 | Appending a submit's writes to a valid lifecycle trace gives a valid lifecycle trace |
| `Views.RunFollowsLifecycle` | App.tsx:39-50 | Across any sequence of submits the state moves from any phase to GENERATING, and from GENERATING to READY or ERROR, and along no other move; its last write is the current state; for outcomes that carry a typed plan, READY is never reached without a stored plan |
| `Views.StoredPlanCameFromSuccess` | App.tsx:42-44 | The stored plan is the plan of the last successful submit, and no plan is stored exactly when no submit has succeeded |
| `Views.FailureEndsInError` | App.tsx:46-48 | A failed non-blank submit ends in ERROR and keeps the previous plan |
| `Views.ResubmitAllowed` | App.tsx:39-41 | A non-blank submit from any state starts with GENERATING, so READY and ERROR are not final |
| `Views.App.constructor` | App.tsx:263-264 | The app starts IDLE with no plan |
| `Views.App.SetAppState` | App.tsx:263 | Sets the app state and appends it to the lifecycle trace, leaving the plan alone |
| `Views.App.HandlePlanGenerated` | App.tsx:267-270 | Stores the plan and leaves the state alone, keeping the lifecycle invariant |
| `Views.IsAcceptedFile` | App.tsx:28 | A file is read as text exactly when its type is `text/plain` or its name ends in `.txt`, `.csv` or `.md` |
| `Views.AcceptanceExamples` | App.tsx:28 | The suffix test is case sensitive, so `NOTES.TXT` is rejected; a `.pdf` is read only if it is typed `text/plain`; a `.md` file is accepted |
| `Views.HomeView.constructor` | App.tsx:17-19 | The home view starts with empty text, 3 days and no file error |
| `Views.HomeView.EditText` | App.tsx:74 | Typing replaces the text |
| `Views.HomeView.SetDays` | App.tsx:102-108 | The slider sets the day count within 1 to 14 |
| `Views.HomeView.HandleFileUpload` | App.tsx:21-37 | The error is cleared; an accepted file replaces the text; a rejected file sets the fixed error message and keeps the text; no file changes nothing else |
| `Views.HomeView.HandleSubmit` | App.tsx:39-50 | The app's new state and plan are `Submit` of the old ones, its trace grows by exactly `PhaseWrites`, the lifecycle invariant is kept, and the service is called once with the text and days exactly when the text is not blank |
| `Views.ScreenFor` | App.tsx:139-141 | With no plan the dashboard redirects home; an index outside the schedule cannot render; otherwise it shows that day and tab with the plan's own name and day count |
| `Views.FirstScreen` | App.tsx:135-141 | A fresh dashboard shows day one's summary, or cannot render when the schedule is empty |
| `Views.SelectedDayShown` | App.tsx:164 | After a day is picked the dashboard shows that day's summary |
| `Views.AnswerMark` | App.tsx:237-241 | A clicked option is marked correct exactly when its index is `correctAnswerIndex` |
| `Views.CorrectOptionsOfQuestion` | App.tsx:231-241 | A question has one correct option when its answer index is within its options, and none otherwise |
| `Views.DashboardView.constructor` | App.tsx:135-136 | The dashboard starts on the first day and the summary tab |
| `Views.DashboardView.SelectDay` | App.tsx:164 | Picking a day selects it and switches to the summary tab |
| `Views.DashboardView.SelectTab` | App.tsx:188 | Picking a tab selects it and keeps the day |

## Left out

- The Gemini SDK call (`ai.models.generateContent`) and `JSON.parse` are foreign code. They are parameters of `GeminiService.GenerateStudyPlan`. The API key and the client construction (services/geminiService.ts:4) are not modelled.
- The prompt's wording is not modelled. The request records the two values the prompt interpolates: the day count and the embedded material.
- `console.error` logging in the service and in the submit handler is not modelled. It has no effect on state.
- JavaScript numbers are modelled as `int`. JSON values with a fractional part are not represented, and neither are `NaN` or infinities.
- Dafny strings are sequences of characters, while JavaScript strings are UTF-16 code units. `substring(0, 30000)` and `trim` are modelled per character. Text outside the Basic Multilingual Plane is therefore not cut as the browser would cut it.
- The JSON parser is a parameter, so the text form of JSON (escapes, numbers, nesting) is not modelled.
- `Views.HomeView.HandleSubmit` takes the outcome of `generateStudyPlan` as a parameter. The await happens between the GENERATING write and the outcome, and that interleaving is not modelled. Neither is a second submit while the first is pending, which the enabled button allows (components/Button.tsx:26-27: the spread props override `disabled`).
- Views.HomeView.HandleSubmit: the outcome carries an already-typed `StudyPlanResponse`, so a parsed reply of another shape is not carried into the views, although the source stores it too (the `as` cast at services/geminiService.ts:87; `GeminiService.NonConformingReplyReturned` shows it is returned). In particular, a reply whose text is the JSON literal `"null"` parses to `null` and is stored as a `null` plan while READY is written (App.tsx:44-45), and the dashboard then redirects home (App.tsx:139). So `Views.RunFollowsLifecycle`'s "READY only with a stored plan" holds only for typed outcomes.
- `FileReader` is asynchronous and its result is a parameter (`contents`) of `Views.HomeView.HandleFileUpload`. A read error is not modelled.
- Routing (`HashRouter`, `navigate('/plan')`, `navigate('/')`, `<Navigate to="/">`) is not modelled beyond the redirect screen in `Views.ScreenFor`.
- Reading `plan.schedule[activeDayIndex]` outside the schedule throws while rendering. It is modelled as the `RenderFailure` screen.
- The quiz answer feedback is a CSS class added to the button (`classList.add`). It is modelled as a `Mark`, and marks are not kept across renders.
- Rendering, styling and the presentational components (components/Layout.tsx, components/Flashcard.tsx, components/Button.tsx) are not modelled, nor is the build configuration (vite.config.ts).
- The flip state of a flashcard (components/Flashcard.tsx) is not modelled.
- `Views.HomeView.SetDays` requires a value from 1 to 14. The range input only produces such values, and `Number(...)` on anything else is not modelled.
